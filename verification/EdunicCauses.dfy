/** What every step leaves alone, and exactly when the interrupt causes and the link change. */
module EdunicCauses {
  import opened Ring
  import opened Memory
  import opened Edunic
  import opened EdunicInvariant
  import opened EdunicTheorems

  // ------------------------------------------------------------ what an agent leaves alone

  /** The link, the queue and what is owed to the softirq are as they were. */
  predicate Aside(s: Nic, r: Nic) {
    r.t == s.t && r.stopped == s.stopped && r.unmasks == s.unmasks
  }

  predicate XmitAlone(s: Nic, r: Nic) {
    && r.t == s.t && r.unmasks == s.unmasks && r.irq == s.irq && r.tx.ntc == s.tx.ntc && r.hr == s.hr
    && r.h == s.h.(frames := r.h.frames)
  }

  lemma MaybeStopAside(s: Nic)
    ensures XmitAlone(s, MaybeStop(s)) && MaybeStop(s).work == s.work && MaybeStop(s).ht == s.ht
    ensures s.x.XCheck? ==> MaybeStop(s).stopped == s.stopped
  {
    hide TxRoom, Release;
  }

  lemma PrepareAside(s: Nic, id: nat, dma: nat, mapping: Option<nat>)
    ensures XmitAlone(s, XmitMap(s, id, mapping)) && XmitMap(s, id, mapping).ht == s.ht
    ensures XmitAlone(s, XmitPark(s, id, dma)) && XmitPark(s, id, dma).ht == s.ht
    ensures XmitAlone(s, XmitDescribe(s, id, dma))
    ensures XmitDescribe(s, id, dma).ht == s.ht.(lens := XmitDescribe(s, id, dma).ht.lens)
    ensures XmitMap(s, id, mapping).work == XmitPark(s, id, dma).work == XmitDescribe(s, id, dma).work == s.work
    ensures Aside(s, XmitMap(s, id, mapping)) && Aside(s, XmitPark(s, id, dma)) && Aside(s, XmitDescribe(s, id, dma))
  {
    hide Release, MapSkb, Park, SetBuf, SetDesc, SkbLen;
  }

  lemma XmitAside(s: Nic, mapping: Option<nat>)
    ensures var r := XmitStep(s, mapping);
            && XmitAlone(s, r) && r.work == (s.work || s.x == XKick)
            && (s.x.XCheck? || s.x.XMap? || s.x.XBuf? || s.x.XDesc? || s.x.XUse? || s.x == XTail || s.x == XKick ==>
                 Aside(s, r))
            && r.ht.tail == (if s.x == XTail then s.ht.use else s.ht.tail)
            && r.ht.use == s.ht.use + One(s.x.XUse?)
            && r.ht.posts == s.ht.posts + if s.x.XUse? then [Post(s.x.id, s.x.dma, SkbLen(s.m, s.x.id))] else []
  {
    hide MaybeStop, XmitMap, XmitPark, XmitDescribe, Next, SkbLen, SkbData;
    MaybeStopAside(s);
    match s.x
    case XMap(id) => PrepareAside(s, id, 0, mapping);
    case XBuf(id, dma) => PrepareAside(s, id, dma, mapping);
    case XDesc(id, dma) => PrepareAside(s, id, dma, mapping);
    case _ =>
  }

  lemma DeliverAside(s: Nic, head: nat, tail: nat, frame: Frame, rh: nat)
    ensures Aside(s, DeliverData(s, head, tail, frame, rh)) && Aside(s, DeliverLen(s, head, tail, frame, rh))
    ensures Aside(s, DeliverMark(s, head, tail, frame, rh)) && Aside(s, DeliverHead(s, head, tail, rh))
    ensures DeliverData(s, head, tail, frame, rh).work == DeliverLen(s, head, tail, frame, rh).work == s.work
    ensures DeliverMark(s, head, tail, frame, rh).work == DeliverHead(s, head, tail, rh).work == s.work
    ensures DeliverData(s, head, tail, frame, rh).irq == DeliverLen(s, head, tail, frame, rh).irq == s.irq
    ensures DeliverMark(s, head, tail, frame, rh).irq == DeliverHead(s, head, tail, rh).irq == s.irq
  {
    hide WriteSkb, SetDesc, DescAt, BufAt, Next;
  }

  lemma EngineAside(s: Nic, head: nat, tail: nat, len: nat, copied: bool, fate: Fate)
    ensures Aside(s, EngineCopy(s, head, tail, len, copied)) && Aside(s, EngineDone(s, head, tail, fate))
    ensures EngineCopy(s, head, tail, len, copied).work == EngineDone(s, head, tail, fate).work == s.work
    ensures EngineCopy(s, head, tail, len, copied).irq == EngineDone(s, head, tail, fate).irq == s.irq
  {
    hide ReadSkb, SetDesc, DescAt, BufAt, Next;
  }

  lemma CheckAside(s: Nic)
    ensures Aside(s, EngineCheck(s)) && EngineCheck(s).irq == s.irq
    ensures EngineCheck(s).work == (s.work && s.w != WIdle)
  {
    hide DescAt, BufAt;
  }

  lemma WorkAside(s: Nic, copied: bool)
    ensures var r := WorkStep(s, copied);
            && Aside(s, r) && r.work == (s.work && s.w != WIdle)
            && r.irq == (if s.w.WIsr? then Intr(s.irq, s.w.isr).0 else if s.w == WIcsTx then s.irq.(tx := true)
                         else if s.w.WIcs? then s.irq.(rx := true) else s.irq)
  {
    hide Intr, DeliverCheck, DeliverData, DeliverLen, DeliverMark, DeliverHead, EngineCheck, EngineCopy, EngineDone;
    CheckAside(s);
    match s.w
    case WCopy(head, tail, len) => EngineAside(s, head, tail, len, copied, Looped);
    case WDone(head, tail, fate) => EngineAside(s, head, tail, 0, copied, fate);
    case WData(head, tail, frame, rh) => DeliverAside(s, head, tail, frame, rh);
    case WLen(head, tail, frame, rh) => DeliverAside(s, head, tail, frame, rh);
    case WMark(head, tail, frame, rh) => DeliverAside(s, head, tail, frame, rh);
    case WRdhUp(head, tail, rh) => DeliverAside(s, head, tail, [], rh);
    case _ =>
  }

  lemma PollAside(s: Nic, alloc: Alloc)
    requires !s.p.PDone?
    ensures var r := PollStep(s, alloc);
            && r.t == s.t && r.work == s.work && r.irq == s.irq && r.unmasks == s.unmasks
            && (!s.p.TWake? ==> r.stopped == s.stopped)
  {
    hide Release, UnmapSkb, HandUp, MapSkb, Park, NewSkb, SetDesc, SetBuf, DescAt, BufAt, Next, TxRoom;
  }

  // ------------------------------------------------------------ interrupt causes and the link

  predicate ReadsIcr(s: Nic, a: Action) {
    (a.Work? && s.w == WIsr(IRead)) || (a.Timer? && s.t == TIsr(IRead))
  }

  lemma FinishStep(s: Nic, alloc: Alloc)
    requires s.p.PDone?
    ensures PollStep(s, alloc) == PollFinish(s, s.p.caller)
  {
    hide PollFinish, ReclaimCheck, ReclaimTake, ReclaimClear, ReclaimPublish, ReclaimWake, HarvestCheck, HarvestTake,
         HarvestClear, HarvestPublish, RefillAlloc, RefillPark, RefillDescribe, RefillPublish;
  }

  lemma FinishAside(s: Nic, caller: Caller)
    ensures var q, r := s.irq, PollFinish(s, caller).irq;
            && r.tx == q.tx && r.rx == q.rx && r.lsc == q.lsc
            && r.link == q.link && r.carrier == q.carrier && r.open == q.open
    ensures PollFinish(s, caller).t == s.t && PollFinish(s, caller).stopped == s.stopped
  {
    match caller
    case Probe =>
    case Harvest(work, b) =>
      if work >= b {
        assert PollFinish(s, caller).p == PIdle;
      } else if s.irq.missed {
        assert PollFinish(s, caller).p == PIdle;
      }
  }

  /** The causes and the link change from `q` to `r` as the accesses raise and clear them. */
  predicate Raised(q: Irq, r: Irq, tx: bool, rx: bool, lsc: bool, link: bool, read: bool) {
    && (r.tx <==> tx || (q.tx && !read)) && (r.rx <==> rx || (q.rx && !read)) && (r.lsc <==> lsc || (q.lsc && !read))
    && (r.link <==> q.link || link) && (r.carrier <==> if read && q.lsc then q.link else q.carrier)
  }

  lemma IntrRaised(q: Irq, pc: IsrPc)
    ensures Raised(q, Intr(q, pc).0, false, false, false, false, pc == IRead)
  {}

  lemma PollRaised(s: Nic, alloc: Alloc)
    ensures Raised(s.irq, PollStep(s, alloc).irq, false, false, false, false, false) && PollStep(s, alloc).t == s.t
  {
    hide PollStep;
    if s.p.PDone? {
      FinishStep(s, alloc);
      FinishAside(s, s.p.caller);
    } else {
      PollAside(s, alloc);
    }
  }

  /** A cause is raised by the one access that raises it, and stays until a handler reads ICR; the carrier
      follows the link when a handler finds that it has changed. */
  lemma CausesExactly(s: Nic, a: Action)
    ensures Raised(s.irq, Step(s, a).irq, a.Work? && s.w == WIcsTx, a.Work? && s.w.WIcs?, a.Timer? && s.t == TIcs,
                   a.Timer? && s.t == TIdle, ReadsIcr(s, a))
  {
    hide XmitStep, WorkStep, PollStep, Intr, Raised;
    SameRaised(s.irq);
    match a
    case Xmit(mapping) => XmitAside(s, mapping);
    case Work(copied) =>
      WorkAside(s, copied);
      if s.w.WIsr? {
        IntrRaised(s.irq, s.w.isr);
      } else {
        EngineRaised(s.irq, s.w);
      }
    case Poll(alloc) => PollRaised(s, alloc);
    case Timer =>
      if s.t.TIsr? {
        IntrRaised(s.irq, s.t.isr);
      } else {
        TimerRaised(s);
      }
    case _ => SoftirqRaised(s, a);
  }

  lemma SameRaised(q: Irq)
    ensures Raised(q, q, false, false, false, false, false)
  {}

  lemma EngineRaised(q: Irq, w: WorkPc)
    ensures var r := if w == WIcsTx then q.(tx := true) else if w.WIcs? then q.(rx := true) else q;
            Raised(q, r, w == WIcsTx, w.WIcs?, false, false, false)
  {}

  lemma TimerRaised(s: Nic)
    requires !s.t.TIsr?
    ensures Raised(s.irq, TimerStep(s).irq, false, false, s.t == TIcs, s.t == TIdle, false)
  {
    hide Intr;
  }

  lemma SoftirqRaised(s: Nic, a: Action)
    requires a.Call? || a.Softirq? || a.Unmask?
    ensures Raised(s.irq, Step(s, a).irq, false, false, false, false, false)
  {
    hide XmitStep, WorkStep, PollStep, NewSkb;
  }

  /** The timer as the steps of the others leave it, and as its own advance it. */
  lemma TimerMoves(s: Nic, a: Action)
    ensures !a.Timer? ==> Step(s, a).t == s.t
    ensures a.Timer? ==> Step(s, a).t == match s.t
                                         case TIdle => TIcs
                                         case TIcs => TIsr(IRead)
                                         case TIsr(pc) =>
                                           var next := Intr(s.irq, pc).1;
                                           if next == None then TIdle else TIsr(next.value)
  {
    hide XmitStep, WorkStep, PollStep, Intr;
    match a
    case Xmit(mapping) => XmitAside(s, mapping);
    case Work(copied) => WorkAside(s, copied);
    case Poll(alloc) => PollRaised(s, alloc);
    case _ =>
  }

  /** A change of the link that the carrier does not show yet is about to be reported, or is reported and
      the timer's own call of the handler has yet to read it. */
  predicate LinkOk(s: Nic) {
    && (s.irq.lsc ==> s.t == TIsr(IRead))
    && (s.irq.link && !s.irq.carrier ==> s.t == TIcs || s.irq.lsc)
  }

  lemma LinkStep(s: Nic, a: Action)
    requires LinkOk(s)
    ensures LinkOk(Step(s, a)) && (s.irq.link ==> Step(s, a).irq.link)
  {
    hide Step;
    CausesExactly(s, a);
    TimerMoves(s, a);
  }

  lemma {:induction false} LinkRun(s: Nic, acts: seq<Action>)
    requires LinkOk(s)
    ensures LinkOk(Run(s, acts)) && (s.irq.link ==> Run(s, acts).irq.link)
    decreases |acts|
  {
    hide Step, LinkOk;
    if acts != [] {
      LinkRun(s, acts[..|acts| - 1]);
      LinkStep(Run(s, acts[..|acts| - 1]), acts[|acts| - 1]);
    }
  }

  lemma LinkInv(s: Nic)
    requires Reachable(s)
    ensures LinkOk(s)
  {
    hide Run;
    var n: nat, acts: seq<Action> :| 2 <= n && Run(Init(n), acts) == s;
    LinkRun(Init(n), acts);
  }

  /** Once the link timer has fired, then whatever else happens, when its call of the handler has ended
      the carrier is on. */
  lemma LinkComesUp(s: Nic, acts: seq<Action>)
    requires Reachable(s) && s.t == TIdle && Run(Step(s, Timer), acts).t == TIdle
    ensures Run(Step(s, Timer), acts).irq.carrier
  {
    hide Reachable, Run, Step;
    LinkInv(s);
    LinkStep(s, Timer);
    CausesExactly(s, Timer);
    LinkRun(Step(s, Timer), acts);
  }
}
