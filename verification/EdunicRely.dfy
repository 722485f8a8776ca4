/** What each agent can rely on while the others run. */
module EdunicRely {
  import opened Ring
  import opened Memory
  import opened Edunic
  import opened EdunicCauses
  import opened EdunicInvariant
  import opened EdunicTheorems
  import opened EdunicAccepted

  /** A thread of the driver: the caller of edunic_start_xmit, the work item, the poll callback,
      the softirq after the poll callback has let go of NAPI, the same while it owes the write to the
      interrupt mask, or probe, when there is no other. */
  datatype Who = Xmitting | Working | Polling | Bystander | Owing | Probing

  /** The action is not one of the thread's own: nobody else makes the mask write it owes. */
  predicate ByOther(who: Who, s: Nic, a: Action) {
    match a
    case Call(_) => who != Xmitting && who != Probing
    case Xmit(_) => who != Xmitting && who != Probing
    case Work(_) => who != Working && who != Probing
    case Softirq(_) => who != Polling && who != Probing
    case Poll(_) => who != Polling && who != Probing
    case Unmask => who != Probing && (who == Owing ==> s.unmasks > 1)
    case Timer => who != Probing
  }

  /** While the poll callback runs, nobody else takes slots, moves its indices or touches its counters,
      and completions and posts only grow. */
  predicate PollerRelies(s: Nic, r: Nic) {
    && r.n == s.n && r.p == s.p
    && r.tx.ntc == s.tx.ntc && r.ht.clean == s.ht.clean && r.ht.taken == s.ht.taken
    && r.rx.ntc == s.rx.ntc && r.rx.ntu == s.rx.ntu && r.rx.tail == s.rx.tail
    && r.hr.clean == s.hr.clean && r.hr.taken == s.hr.taken && r.hr.use == s.hr.use && r.hr.tail == s.hr.tail
    && r.hr.posts == s.hr.posts && r.h.delivered == s.h.delivered && r.h.short == s.h.short
    && r.st == s.st.(txErrors := r.st.txErrors, rxDropped := r.st.rxDropped)
    && s.ht.posts <= r.ht.posts && s.ht.done <= r.ht.done && s.ht.use <= r.ht.use
    && s.h.loops <= r.h.loops && s.hr.done <= r.hr.done
  }

  /** While the work item runs, nobody else completes slots or moves the head registers. */
  predicate EngineRelies(s: Nic, r: Nic) {
    && r.n == s.n && r.w == s.w
    && r.tx.head == s.tx.head && r.rx.head == s.rx.head
    && r.ht.head == s.ht.head && r.ht.done == s.ht.done && r.hr.head == s.hr.head && r.hr.done == s.hr.done
    && r.hr.lens == s.hr.lens
    && r.h.fates == s.h.fates && r.h.loops == s.h.loops && r.h.cover == s.h.cover
    && r.st.rxDropped == s.st.rxDropped
    && s.h.frames <= r.h.frames && s.ht.posts <= r.ht.posts && s.ht.tail <= r.ht.tail && s.hr.tail <= r.hr.tail
  }

  /** While edunic_start_xmit runs, nobody else posts frames or moves next_to_use and TDT. */
  predicate SenderRelies(s: Nic, r: Nic) {
    && r.n == s.n && r.x == s.x
    && r.tx.ntu == s.tx.ntu && r.tx.tail == s.tx.tail
    && r.ht.use == s.ht.use && r.ht.tail == s.ht.tail && r.ht.posts == s.ht.posts && r.ht.lens == s.ht.lens
    && r.h.frames == s.h.frames && r.st.txErrors == s.st.txErrors
  }

  /** The skb that edunic_start_xmit is about to post keeps its data. */
  predicate HeldKept(s: Nic, r: Nic) {
    XHold(s.x) != Nothing ==> SkbData(r.m, XHold(s.x).id) == SkbData(s.m, XHold(s.x).id)
  }

  /** What anybody can rely on: nothing is taken back. */
  predicate Forward(s: Nic, r: Nic) {
    && r.n == s.n && s.ht.clean <= r.ht.clean && s.hr.clean <= r.hr.clean
    && s.h.frames <= r.h.frames && s.h.delivered <= r.h.delivered
  }

  predicate Relies(who: Who, s: Nic, r: Nic) {
    match who
    case Bystander => Forward(s, r)
    case Owing => Forward(s, r) && (s.unmasks > 0 ==> r.unmasks > 0)
    case Probing => r == s
    case Xmitting => SenderRelies(s, r) && HeldKept(s, r)
    case Working => EngineRelies(s, r)
    case Polling => PollerRelies(s, r)
  }

  lemma TailBehind(s: Nic)
    requires Inv(s)
    ensures s.ht.tail <= s.ht.use && s.hr.tail <= s.hr.use
  {
    hide Zones, MemOk, FlowSide, StatsSide, IrqSide, WorkOk, CleanTxOk, Regs, CleanRxOk, DeliverOk, RefillOk;
  }

  lemma XmitLeaves(s: Nic, a: Action)
    requires Inv(s) && (a.Call? || a.Xmit?)
    ensures PollerRelies(s, Step(s, a)) && EngineRelies(s, Step(s, a))
  {
    hide Inv, MaybeStop, XmitMap, XmitPark, XmitDescribe, XmitPublish, XmitRing, XmitCall, PollerRelies, EngineRelies;
    TailBehind(s);
    if a.Call? {
      CallLeaves(s, a.frame);
    } else if s.x != XIdle {
      match s.x
      case XMap(id) => PrepareLeaves(s, id, 0, a.mapping);
      case XBuf(id, dma) => PrepareLeaves(s, id, dma, None);
      case XDesc(id, dma) => PrepareLeaves(s, id, dma, None);
      case XUse(id, dma) => PostLeaves(s, id, dma);
      case XTail => PostLeaves(s, 0, 0);
      case XKick => PostLeaves(s, 0, 0);
      case _ => CallLeaves(s, []);
    } else {
      ReliesRefl(Working, s);
      ReliesRefl(Polling, s);
    }
  }

  lemma CallLeaves(s: Nic, frame: Frame)
    ensures PollerRelies(s, XmitCall(s, frame)) && EngineRelies(s, XmitCall(s, frame))
    ensures PollerRelies(s, MaybeStop(s)) && EngineRelies(s, MaybeStop(s))
  {
    hide XmitCall, MaybeStop;
  }

  lemma PrepareLeaves(s: Nic, id: nat, dma: nat, mapping: Option<nat>)
    ensures PollerRelies(s, XmitMap(s, id, mapping)) && EngineRelies(s, XmitMap(s, id, mapping))
    ensures PollerRelies(s, XmitPark(s, id, dma)) && EngineRelies(s, XmitPark(s, id, dma))
    ensures PollerRelies(s, XmitDescribe(s, id, dma)) && EngineRelies(s, XmitDescribe(s, id, dma))
  {
    hide Release, MapSkb, Park, SetDesc, SetBuf, SkbLen;
  }

  lemma PostLeaves(s: Nic, id: nat, dma: nat)
    requires s.ht.tail <= s.ht.use
    ensures PollerRelies(s, XmitPublish(s, id, dma)) && EngineRelies(s, XmitPublish(s, id, dma))
    ensures PollerRelies(s, XmitRing(s)) && EngineRelies(s, XmitRing(s))
  {
    hide Next, SkbLen, SkbData;
  }

  lemma WorkLeaves(s: Nic, copied: bool)
    ensures PollerRelies(s, WorkStep(s, copied)) && SenderRelies(s, WorkStep(s, copied))
  {
    hide DeliverCheck, DeliverData, DeliverLen, DeliverMark, DeliverHead, DeliverCause, EngineCheck, EngineCopy,
         EngineDone, EngineEnd,
         PollerRelies, SenderRelies;
    match s.w
    case WCopy(head, tail, len) => EngineLeaves(s, head, tail, len, copied, Looped);
    case WDone(head, tail, fate) => EngineLeaves(s, head, tail, 0, copied, fate);
    case WData(head, tail, frame, rh) => DeliverLeaves(s, head, tail, frame, rh);
    case WLen(head, tail, frame, rh) => DeliverLeaves(s, head, tail, frame, rh);
    case WMark(head, tail, frame, rh) => DeliverLeaves(s, head, tail, frame, rh);
    case WRdhUp(head, tail, rh) => DeliverLeaves(s, head, tail, [], rh);
    case WIcs(head, tail) => DeliverLeaves(s, head, tail, [], 0);
    case _ => CheckLeaves(s);
  }

  lemma CheckLeaves(s: Nic)
    ensures PollerRelies(s, DeliverCheck(s)) && SenderRelies(s, DeliverCheck(s))
    ensures PollerRelies(s, EngineCheck(s)) && SenderRelies(s, EngineCheck(s))
    ensures PollerRelies(s, EngineEnd(s)) && SenderRelies(s, EngineEnd(s))
  {
    hide DeliverCheck, EngineCheck, EngineEnd;
  }

  lemma EngineLeaves(s: Nic, head: nat, tail: nat, len: nat, copied: bool, fate: Fate)
    ensures PollerRelies(s, EngineCopy(s, head, tail, len, copied))
    ensures SenderRelies(s, EngineCopy(s, head, tail, len, copied))
    ensures PollerRelies(s, EngineDone(s, head, tail, fate)) && SenderRelies(s, EngineDone(s, head, tail, fate))
  {
    hide ReadSkb, SetDesc, DescAt, BufAt, Next;
  }

  lemma DeliverLeaves(s: Nic, head: nat, tail: nat, frame: Frame, rh: nat)
    ensures PollerRelies(s, DeliverData(s, head, tail, frame, rh))
    ensures SenderRelies(s, DeliverData(s, head, tail, frame, rh))
    ensures PollerRelies(s, DeliverLen(s, head, tail, frame, rh))
    ensures SenderRelies(s, DeliverLen(s, head, tail, frame, rh))
    ensures PollerRelies(s, DeliverMark(s, head, tail, frame, rh))
    ensures SenderRelies(s, DeliverMark(s, head, tail, frame, rh))
    ensures PollerRelies(s, DeliverHead(s, head, tail, rh)) && SenderRelies(s, DeliverHead(s, head, tail, rh))
    ensures PollerRelies(s, DeliverCause(s, head, tail)) && SenderRelies(s, DeliverCause(s, head, tail))
  {
    hide WriteSkb, SetDesc, SetBuf, DescAt, BufAt, Next;
  }

  /** The poll callback takes nothing back. */
  predicate Onward(s: Nic, r: Nic) {
    s.ht.clean <= s.ht.taken && s.hr.clean <= s.hr.taken ==>
      s.ht.clean <= r.ht.clean && s.hr.clean <= r.hr.clean && s.h.delivered <= r.h.delivered
  }

  lemma PollLeaves(s: Nic, alloc: Alloc)
    requires s.hr.tail <= s.hr.use
    ensures SenderRelies(s, PollStep(s, alloc)) && EngineRelies(s, PollStep(s, alloc)) && Onward(s, PollStep(s, alloc))
  {
    hide SenderRelies, EngineRelies, Onward, ReclaimCheck, ReclaimTake, ReclaimClear, ReclaimPublish, ReclaimWake,
         HarvestCheck, HarvestTake,
         HarvestClear, HarvestPublish, RefillAlloc, RefillPark, RefillDescribe, RefillPublish, PollFinish;
    match s.p
    case TFree(i, packets, bytes, b) => ReclaimLeaves(s, i, packets, bytes, b);
    case TClear(i, packets, bytes, b) => ReclaimLeaves(s, i, packets, bytes, b);
    case TPub(i, packets, bytes, b) => ReclaimLeaves(s, i, packets, bytes, b);
    case RCheck(i, work, b) => HarvestLeaves(s, i, work, b);
    case RTake(i, work, b) => HarvestLeaves(s, i, work, b);
    case RClear(i, work, b) => HarvestLeaves(s, i, work, b);
    case RPub(i, work, b) => HarvestLeaves(s, i, work, b);
    case AAlloc(i, left, posted, caller) => RefillLeaves(s, i, left, posted, caller, 0, 0, alloc);
    case ABuf(i, left, posted, caller, id, dma) => RefillLeaves(s, i, left, posted, caller, id, dma, alloc);
    case ADesc(i, left, posted, caller, id, dma) => RefillLeaves(s, i, left, posted, caller, id, dma, alloc);
    case PDone(caller) => NapiLeaves(s, caller, 0);
    case PIdle =>
      ReliesRefl(Xmitting, s);
      ReliesRefl(Working, s);
      OnwardRefl(s);
    case _ => NapiLeaves(s, Probe, 0);
  }

  lemma OnwardRefl(s: Nic)
    ensures Onward(s, s)
  {}

  lemma NapiLeaves(s: Nic, caller: Caller, budget: nat)
    requires s.hr.tail <= s.hr.use
    ensures SenderRelies(s, ReclaimCheck(s)) && EngineRelies(s, ReclaimCheck(s)) && Onward(s, ReclaimCheck(s))
    ensures SenderRelies(s, ReclaimWake(s)) && EngineRelies(s, ReclaimWake(s)) && Onward(s, ReclaimWake(s))
    ensures SenderRelies(s, RefillPublish(s)) && EngineRelies(s, RefillPublish(s)) && Onward(s, RefillPublish(s))
    ensures SenderRelies(s, PollFinish(s, caller)) && EngineRelies(s, PollFinish(s, caller))
    ensures Onward(s, PollFinish(s, caller))
    ensures SenderRelies(s, PollCall(s, budget)) && EngineRelies(s, PollCall(s, budget))
    ensures Onward(s, PollCall(s, budget))
  {
    hide ReclaimCheck, ReclaimWake, PollFinish, PollCall;
  }

  lemma ReclaimLeaves(s: Nic, i: nat, packets: nat, bytes: nat, b: nat)
    ensures SenderRelies(s, ReclaimTake(s, i, packets, bytes, b))
    ensures EngineRelies(s, ReclaimTake(s, i, packets, bytes, b)) && Onward(s, ReclaimTake(s, i, packets, bytes, b))
    ensures SenderRelies(s, ReclaimClear(s, i, packets, bytes, b))
    ensures EngineRelies(s, ReclaimClear(s, i, packets, bytes, b)) && Onward(s, ReclaimClear(s, i, packets, bytes, b))
    ensures SenderRelies(s, ReclaimPublish(s, i, packets, bytes, b))
    ensures EngineRelies(s, ReclaimPublish(s, i, packets, bytes, b))
    ensures Onward(s, ReclaimPublish(s, i, packets, bytes, b))
  {
    hide Release, UnmapSkb, SetDesc, SetBuf, DescAt, BufAt, Next;
  }

  lemma HarvestLeaves(s: Nic, i: nat, work: nat, b: nat)
    ensures SenderRelies(s, HarvestCheck(s, i, work, b)) && EngineRelies(s, HarvestCheck(s, i, work, b))
    ensures Onward(s, HarvestCheck(s, i, work, b))
    ensures SenderRelies(s, HarvestTake(s, i, work, b)) && EngineRelies(s, HarvestTake(s, i, work, b))
    ensures Onward(s, HarvestTake(s, i, work, b))
    ensures SenderRelies(s, HarvestClear(s, i, work, b)) && EngineRelies(s, HarvestClear(s, i, work, b))
    ensures Onward(s, HarvestClear(s, i, work, b))
    ensures SenderRelies(s, HarvestPublish(s, i, work, b)) && EngineRelies(s, HarvestPublish(s, i, work, b))
    ensures Onward(s, HarvestPublish(s, i, work, b))
  {
    hide Release, UnmapSkb, HandUp, SetDesc, SetBuf, DescAt, BufAt, Next;
  }

  lemma RefillLeaves(s: Nic, i: nat, left: nat, posted: nat, caller: Caller, id: nat, dma: nat, alloc: Alloc)
    ensures SenderRelies(s, RefillAlloc(s, i, left, posted, caller, alloc))
    ensures EngineRelies(s, RefillAlloc(s, i, left, posted, caller, alloc))
    ensures Onward(s, RefillAlloc(s, i, left, posted, caller, alloc))
    ensures SenderRelies(s, RefillPark(s, i, left, posted, caller, id, dma))
    ensures EngineRelies(s, RefillPark(s, i, left, posted, caller, id, dma))
    ensures Onward(s, RefillPark(s, i, left, posted, caller, id, dma))
    ensures SenderRelies(s, RefillDescribe(s, i, left, posted, caller, id, dma))
    ensures EngineRelies(s, RefillDescribe(s, i, left, posted, caller, id, dma))
    ensures Onward(s, RefillDescribe(s, i, left, posted, caller, id, dma))
  {
    hide MapSkb, Park, NewSkb, SetDesc, SetBuf, DescAt, BufAt, Next;
  }

  lemma HeldStays(s: Nic, a: Action, r: Nic)
    requires HeldNext(s, a, r) && ByOther(Xmitting, s, a) && SenderRelies(s, r)
    ensures HeldKept(s, r)
  {}

  lemma CleanBehind(s: Nic)
    requires Inv(s)
    ensures s.ht.clean <= s.ht.taken && s.hr.clean <= s.hr.taken
  {
    hide MemOk, FlowSide, StatsSide, IrqSide, WorkOk, SlotOk;
  }

  lemma StepForward(s: Nic, a: Action)
    requires Inv(s)
    ensures Forward(s, Step(s, a))
  {
    hide Inv, XmitStep, WorkStep, PollStep, PollCall, UnmaskStep, TimerStep, XmitCall;
    CleanBehind(s);
    TailBehind(s);
    StepSize(s, a);
    match a
    case Call(_) => XmitLeaves(s, a);
    case Xmit(_) => XmitLeaves(s, a);
    case Work(copied) => WorkLeaves(s, copied);
    case Softirq(budget) =>
    case Poll(alloc) =>
      PollLeaves(s, alloc);
    case _ => InterruptsLeave(s, a);
  }

  /** Only the mask write itself takes back what is owed. */
  lemma StepOwes(s: Nic, a: Action)
    ensures a.Unmask? && s.unmasks > 0 ==> Step(s, a).unmasks == s.unmasks - 1
    ensures !a.Unmask? ==> s.unmasks <= Step(s, a).unmasks
  {
    hide XmitStep, WorkStep, PollStep, Intr, PollFinish;
    match a
    case Xmit(mapping) => XmitAside(s, mapping);
    case Work(copied) => WorkAside(s, copied);
    case Poll(alloc) =>
      if s.p.PDone? {
        FinishStep(s, alloc);
        FinishOwes(s, s.p.caller);
      } else {
        PollAside(s, alloc);
      }
    case _ =>
  }

  lemma FinishOwes(s: Nic, caller: Caller)
    ensures s.unmasks <= PollFinish(s, caller).unmasks
  {}

  lemma OtherStep(who: Who, s: Nic, a: Action)
    requires Inv(s) && ByOther(who, s, a)
    ensures Relies(who, s, Step(s, a))
  {
    hide Inv, XmitStep, WorkStep, PollStep, PollCall, UnmaskStep, TimerStep, XmitCall, PollerRelies, EngineRelies,
         SenderRelies;
    StepSize(s, a);
    TailBehind(s);
    match a {
      case Call(_) => XmitLeaves(s, a);
      case Xmit(_) => XmitLeaves(s, a);
      case Work(copied) => WorkLeaves(s, copied);
      case Softirq(budget) => NapiLeaves(s, Probe, budget);
      case Poll(alloc) => PollLeaves(s, alloc);
      case _ => InterruptsLeave(s, a);
    }
    if who == Bystander || who == Owing {
      StepForward(s, a);
      StepOwes(s, a);
    }
    if who == Xmitting {
      StepHeld(s, a);
      HeldStays(s, a, Step(s, a));
    }
  }

  lemma InterruptsLeave(s: Nic, a: Action)
    requires a.Unmask? || a.Timer?
    ensures PollerRelies(s, Step(s, a)) && EngineRelies(s, Step(s, a)) && SenderRelies(s, Step(s, a))
  {
    hide Intr;
  }

  lemma ReliesTrans(who: Who, s: Nic, r: Nic, q: Nic)
    requires Relies(who, s, r) && Relies(who, r, q)
    ensures Relies(who, s, q)
  {}

  lemma ReliesRefl(who: Who, s: Nic)
    ensures Relies(who, s, s)
  {}
}
