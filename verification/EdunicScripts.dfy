/** Stretches of runs in which one agent goes through its code and the others stand still. */
module EdunicScripts {
  import opened Ring
  import opened Memory
  import opened Edunic
  import opened EdunicCauses
  import opened EdunicInvariant
  import opened EdunicKeeps
  import opened EdunicTheorems
  import opened EdunicProgress
  import opened EdunicAccepted
  import opened EdunicRely
  import opened EdunicSettles
  import opened EdunicRounds

  // ------------------------------------------------------------ runs

  lemma {:induction false} RunBoth(s: Nic, a: seq<Action>, b: seq<Action>)
    ensures Run(s, a + b) == Run(Run(s, a), b)
    decreases |b|
  {
    hide Step;
    if b == [] {
      assert a + b == a;
    } else {
      var last := |b| - 1;
      RunBoth(s, a, b[..last]);
      assert (a + b)[..|a + b| - 1] == a + b[..last];
    }
  }

  lemma {:induction false} RunReachable(s: Nic, acts: seq<Action>)
    requires Reachable(s)
    ensures Reachable(Run(s, acts)) && Run(s, acts).n == s.n
    decreases |acts|
  {
    hide Step, Reachable;
    if acts != [] {
      var before := acts[..|acts| - 1];
      RunReachable(s, before);
      ReachableStep(Run(s, before), acts[|acts| - 1]);
      StepSize(Run(s, before), acts[|acts| - 1]);
    }
  }

  /** The interrupt handler as it would be if napi_schedule_prep did not note that it was too late. */
  function Forget(s: Nic): Nic {
    s.(irq := s.irq.(missed := false))
  }

  /** The same run without NAPI's MISSED bit. */
  function Forgetful(s: Nic, acts: seq<Action>): Nic
    decreases |acts|
  {
    if acts == [] then s else Forget(Step(Forgetful(s, acts[..|acts| - 1]), acts[|acts| - 1]))
  }

  /** `acts` leads from `s` to `r`, and no handler has been too late on the way. */
  ghost predicate Leads(s: Nic, acts: seq<Action>, r: Nic) {
    Reachable(r) && Run(s, acts) == r && Forgetful(s, acts) == r && !r.irq.missed
  }

  lemma LeadsOn(s: Nic, acts: seq<Action>, r: Nic, a: Action)
    requires Leads(s, acts, r) && !Step(r, a).irq.missed
    ensures Leads(s, acts + [a], Step(r, a))
  {
    hide Step, Reachable;
    ReachableStep(r, a);
    assert (acts + [a])[..|acts|] == acts;
  }

  // ------------------------------------------------------------ one frame is sent

  /** xmit is posting `frame`, mapped at address 1. */
  predicate Sending(s0: Nic, frame: Frame, r: Nic) {
    && r.n == s0.n && r.w == s0.w && r.p == s0.p && r.t == s0.t && r.irq == s0.irq && r.stopped == s0.stopped
    && r.unmasks == s0.unmasks && r.hr == s0.hr && r.h == s0.h.(frames := r.h.frames)
    && r.ht.clean == s0.ht.clean && r.ht.taken == s0.ht.taken && r.ht.done == s0.ht.done
    && if r.x.XCheck? || r.x.XMap? || r.x.XBuf? || r.x.XDesc? || r.x.XUse? then
         && SkbData(r.m, XHold(r.x).id) == frame && (!XHold(r.x).Bare? ==> XHold(r.x).dma == 1)
         && r.ht.posts == s0.ht.posts && r.ht.use == s0.ht.use && r.h.frames == s0.h.frames && r.work == s0.work
       else
         && (r.x == XTail || r.x == XKick || r.x == XCheck2)
         && r.ht.use == s0.ht.use + 1 && r.h.frames == s0.h.frames + [frame]
         && |r.ht.posts| == |s0.ht.posts| + 1 && r.ht.posts[|s0.ht.posts|].dma == 1
         && (r.x != XTail ==> r.ht.tail == r.ht.use) && r.work == (s0.work || r.x == XCheck2)
  }

  lemma SendStep(s0: Nic, frame: Frame, r: Nic)
    requires Reachable(r) && Sending(s0, frame, r) && r.x != XCheck2 && Room(s0.n, s0.ht)
    ensures Sending(s0, frame, Step(r, Xmit(Some(1)))) && XRank(Step(r, Xmit(Some(1))).x) < XRank(r.x)
  {
    hide Reachable, Inv, XmitStep, SkbData, SkbLen, TxRoom, EngineRelies, PollerRelies, HeldNext;
    var a := Xmit(Some(1));
    ReachableInv(r);
    SendRoom(r);
    XmitAside(r, Some(1));
    XmitStepGoes(r, Some(1));
    StepHeldIs(r, a);
    XmitLeaves(r, a);
    XmitFrame(r, Step(r, a));
  }

  lemma SendRoom(s: Nic)
    requires Inv(s)
    ensures TxRoom(s) <==> Room(s.n, s.ht)
  {
    hide Zones, RxSide, MemOk, FlowSide, StatsSide, IrqSide, WorkOk, CleanTxOk, TxRoom, Room;
    RoomIsRoom(s);
  }

  lemma StepHeldIs(s: Nic, a: Action)
    requires Inv(s) && a.Xmit?
    ensures var r := Step(s, a);
            && r.h.frames == s.h.frames + (if s.x.XUse? then [SkbData(s.m, s.x.id)] else [])
            && (XHold(r.x) != Nothing ==>
                 XHold(s.x) != Nothing && SkbData(r.m, XHold(r.x).id) == SkbData(s.m, XHold(s.x).id))
  {
    hide Inv, XmitStep, SkbData;
    StepHeld(s, a);
  }

  lemma XmitFrame(s: Nic, r: Nic)
    requires EngineRelies(s, r) && PollerRelies(s, r)
    ensures r.n == s.n && r.w == s.w && r.p == s.p && r.ht.clean == s.ht.clean && r.ht.taken == s.ht.taken
    ensures r.ht.done == s.ht.done
  {}

  /** The stack hands over a frame, and xmit goes on until it has queued the work item. */
  lemma Sends(s: Nic, acts0: seq<Action>, s0: Nic, frame: Frame) returns (acts: seq<Action>, r: Nic)
    requires Leads(s, acts0, s0) && s0.x == XIdle && Room(s0.n, s0.ht)
    ensures Leads(s, acts, r) && Sending(s0, frame, r) && r.x == XCheck2
  {
    hide Reachable, XmitStep, SkbData, Step;
    CallSends(s0, frame);
    LeadsOn(s, acts0, s0, Call(frame));
    acts, r := acts0 + [Call(frame)], Step(s0, Call(frame));
    while r.x != XCheck2
      invariant Leads(s, acts, r) && Sending(s0, frame, r)
      decreases XRank(r.x)
    {
      SendStep(s0, frame, r);
      LeadsOn(s, acts, r, Xmit(Some(1)));
      acts, r := acts + [Xmit(Some(1))], Step(r, Xmit(Some(1)));
    }
  }

  lemma CallSends(s: Nic, frame: Frame)
    requires s.x == XIdle
    ensures Sending(s, frame, Step(s, Call(frame)))
  {}

  // ------------------------------------------------------------ one frame is passed

  /** Nothing has happened to NAPI. */
  predicate SameNapi(q: Irq, r: Irq) {
    r.sched == q.sched && r.missed == q.missed && r.listed == q.listed && r.open == q.open
  }

  /** What the engine leaves alone. */
  predicate Kept(s: Nic, r: Nic) {
    && r.n == s.n && r.x == s.x && r.p == s.p && Aside(s, r)
    && r.ht.clean == s.ht.clean && r.ht.taken == s.ht.taken && r.ht.use == s.ht.use && r.ht.tail == s.ht.tail
    && r.ht.posts == s.ht.posts && r.h.frames == s.h.frames
    && r.hr.clean == s.hr.clean && r.hr.taken == s.hr.taken && r.hr.use == s.hr.use && r.hr.tail == s.hr.tail
    && r.hr.posts == s.hr.posts && r.h.delivered == s.h.delivered && r.h.short == s.h.short
  }

  predicate Delivers(w: WorkPc) {
    w.WRdh? || w.WRdt? || w.WData? || w.WLen?
  }

  /** On the way to the receive ring. */
  predicate Early(w: WorkPc) {
    w.WIdle? || w.WHead? || w.WTail? || (w.WLoop? && !w.sent) || w.WFetch? || w.WCopy? || Delivers(w) || w.WMark?
  }

  predicate Late(w: WorkPc) {
    (w.WLoop? && w.sent) || w.WTdh? || w.WIcsTx? || w == WIsr(IRead) || w == WIsr(IPrep)
  }

  /** The engine has read TDT. */
  predicate Covers(w: WorkPc) {
    w.WLoop? || Busy(w) || Late(w)
  }

  /** The engine is passing the one frame that is announced. */
  predicate Passing(s0: Nic, r: Nic) {
    && Kept(s0, r) && SameNapi(s0.irq, r.irq) && r.hr.done == s0.hr.done && r.h.loops == s0.h.loops
    && r.work == (r.w == WIdle)
    && (Covers(r.w) ==> r.h.cover == s0.ht.tail)
    && (if Early(r.w) || r.w.WDone? then r.ht.done == s0.ht.done else Late(r.w) && r.ht.done == s0.ht.done + 1)
    && (r.w == WIsr(IRead) ==> r.irq.tx)
  }

  /** One frame is announced, with an address and a length. */
  predicate Announced(s: Nic) {
    && s.ht.tail == s.ht.done + 1 == |s.ht.posts| == |s.h.frames|
    && s.ht.posts[s.ht.done].dma != 0 && 0 < |s.h.frames[s.ht.done]| < 65536
  }

  function Turn(r: Nic, copied: bool): Action {
    Work(copied && r.w.WCopy?)
  }

  lemma PassKept(s: Nic, a: Action)
    requires Reachable(s) && a.Work?
    ensures Kept(s, Step(s, a)) && Reachable(Step(s, a)) && Moved(Working, s, a, Step(s, a))
  {
    hide Reachable, Inv, WorkStep;
    ReachableStep(s, a);
    ReliesRefl(Working, Step(s, a));
    WorkLeaves(s, a.copied);
    WorkAside(s, a.copied);
  }

  lemma PassNapi(s0: Nic, r: Nic, a: Action)
    requires a.Work? && Passing(s0, r) && r.w != WIsr(IPrep)
    ensures var q := Step(r, a);
            SameNapi(s0.irq, q.irq) && q.work == (r.work && r.w != WIdle) && (r.w == WIcsTx ==> q.irq.tx)
  {
    hide WorkStep, Kept;
    WorkAside(r, a.copied);
  }

  /** Where the engine goes on. */
  lemma PassGoes(s0: Nic, r: Nic, copied: bool)
    requires Reachable(r) && Passing(s0, r) && Announced(s0) && r.w != WIsr(IPrep) && !r.w.WMark?
    ensures var w := Step(r, Turn(r, copied)).w;
            && (if r.w.WDone? || Late(r.w) then Late(w) else Early(w) || w.WDone?)
            && WRank(w) < WRank(r.w) + (if r.w == WIdle || r.w.WDone? then 20 else 0)
            && (Early(r.w) && copied && s0.hr.done < s0.hr.tail ==> Early(w))
            && (!copied && !Delivers(r.w) ==> !Delivers(w) && !w.WMark?)
            && (Covers(w) ==> r.w.WTail? || Covers(r.w)) && (w == WIsr(IRead) ==> r.w == WIcsTx) && w != WIdle
            && !w.WRdhUp? && !w.WIcs?
  {
    hide Reachable, Inv, Step, SameNapi, DescAt, BufAt, Clip;
    ReachableInv(r);
    EngineGoes(r);
    DeliverGoes(r);
    EngineBounds(r);
    if r.w.WFetch? {
      PassFetch(s0, r);
    } else if r.w == WIsr(IRead) {
      PassRead(r, Turn(r, copied));
    }
  }

  lemma PassRead(r: Nic, a: Action)
    requires r.w == WIsr(IRead) && r.irq.tx && a.Work?
    ensures Step(r, a).w == WIsr(IPrep)
  {}

  lemma PassFetch(s0: Nic, r: Nic)
    requires Inv(r) && Passing(s0, r) && Announced(s0) && r.w.WFetch?
    ensures BufAt(r.tx, r.w.head).dma != 0 && DescAt(r.tx, r.w.head).length != 0
  {
    hide Inv, DescAt, BufAt, FrameOk;
    BusyPost(r);
    SmallMod(|r.h.frames[r.ht.done]|, 65536);
  }

  lemma PassStep(s0: Nic, r: Nic, copied: bool)
    requires Reachable(r) && Passing(s0, r) && Announced(s0) && r.w != WIsr(IPrep) && !r.w.WMark?
    ensures Passing(s0, Step(r, Turn(r, copied)))
  {
    hide Reachable, Step, Moved;
    var a := Turn(r, copied);
    var q := Step(r, a);
    PassKept(r, a);
    PassNapi(s0, r, a);
    PassGoes(s0, r, copied);
    if Delivers(r.w) {
      DeliverNext(r, q);
    } else {
      EngineNext(r, a.copied, q);
    }
  }

  /** The engine passes the frame, whose copy fails, and calls the interrupt handler. */
  lemma Passes(s: Nic, acts0: seq<Action>, s0: Nic) returns (acts: seq<Action>, r: Nic)
    requires Leads(s, acts0, s0) && s0.w == WIdle && s0.work && Announced(s0)
    ensures Leads(s, acts, r) && Passing(s0, r) && r.w == WIsr(IPrep)
  {
    hide Reachable, Step, Announced, Early, Late;
    Starting(s0);
    acts, r := acts0, s0;
    while r.w != WIsr(IPrep)
      invariant Leads(s, acts, r) && Passing(s0, r) && !Delivers(r.w) && !r.w.WMark?
      decreases One(r.w == WIdle), One(Early(r.w) || r.w.WDone?), WRank(r.w)
    {
      PassStep(s0, r, false);
      PassGoes(s0, r, false);
      Apart(Step(r, Turn(r, false)).w);
      LeadsOn(s, acts, r, Turn(r, false));
      acts, r := acts + [Turn(r, false)], Step(r, Turn(r, false));
    }
  }

  lemma Starting(s: Nic)
    requires s.w == WIdle && s.work
    ensures Passing(s, s)
  {}

  lemma Apart(w: WorkPc)
    ensures Late(w) ==> !Early(w) && !w.WDone?
  {}

  /** The engine copies the frame and writes it to the receive ring. */
  lemma Loops(s: Nic, acts0: seq<Action>, s0: Nic) returns (acts: seq<Action>, r: Nic)
    requires Leads(s, acts0, s0) && s0.w == WIdle && s0.work && Announced(s0) && s0.hr.done < s0.hr.tail
    ensures Leads(s, acts, r) && Kept(s0, r) && |r.h.loops| == |s0.h.loops| + 1
  {
    hide Reachable, Step, Announced, Early, Late, Moved;
    Starting(s0);
    Apart(s0.w);
    acts, r := acts0, s0;
    while !r.w.WMark?
      invariant Leads(s, acts, r) && Passing(s0, r) && Early(r.w)
      decreases One(r.w == WIdle), WRank(r.w)
    {
      Apart(r.w);
      EarlyIs(r.w);
      PassStep(s0, r, true);
      PassGoes(s0, r, true);
      LeadsOn(s, acts, r, Turn(r, true));
      acts, r := acts + [Turn(r, true)], Step(r, Turn(r, true));
    }
    PassKept(r, Work(false));
    DeliverNext(r, Step(r, Work(false)));
    PassNapi(s0, r, Work(false));
    LeadsOn(s, acts, r, Work(false));
    acts, r := acts + [Work(false)], Step(r, Work(false));
  }

  lemma EarlyIs(w: WorkPc)
    ensures Early(w) ==> w != WIsr(IPrep) && !w.WDone?
    ensures Early(WIdle)
  {}

  // ------------------------------------------------------------ one poll

  /** The poll callback reclaims what was transmitted and finds nothing received. */
  predicate Cleaning(s0: Nic, r: Nic) {
    && r.n == s0.n && r.x == s0.x && r.w == s0.w && r.t == s0.t && r.work == s0.work
    && r.irq == s0.irq.(listed := false)
    && r.stopped == s0.stopped && r.unmasks == s0.unmasks && r.hr == s0.hr && r.h == s0.h
    && r.ht == s0.ht.(clean := r.ht.clean, taken := r.ht.taken)
    && match r.p
       case TLoop(_, _, _, b) => b == 64 && r.ht.clean == s0.ht.clean
       case TCheck(_, _, _, b) => b == 64 && r.ht.clean == s0.ht.clean
       case TFree(_, _, _, b) => b == 64 && r.ht.clean == s0.ht.clean
       case TClear(_, _, _, b) => b == 64 && r.ht.clean == s0.ht.clean
       case TPub(_, _, _, b) => b == 64 && r.ht.clean == s0.ht.clean && s0.ht.done <= r.ht.taken
       case TStat(_, _, b) => b == 64 && s0.ht.done <= r.ht.taken
       case TStopped(b) => b == 64 && s0.ht.done <= r.ht.taken
       case RCheck(_, work, b) => b == 64 && work == 0 && s0.ht.done <= r.ht.taken
       case RPub(_, work, b) => b == 64 && work == 0 && s0.ht.done <= r.ht.taken
       case PDone(caller) => caller == Harvest(0, 64) && s0.ht.done <= r.ht.taken
       case _ => false
  }

  lemma CleanStep(s0: Nic, r: Nic)
    requires Reachable(r) && Cleaning(s0, r) && !r.p.PDone? && s0.hr.clean == s0.hr.taken == s0.hr.done
    requires r.stopped ==> !r.p.TStopped?
    ensures Cleaning(s0, Step(r, Poll(NoMemory)))
  {
    hide Reachable, Inv, DescAt, BufAt, Next, PollStep, SenderRelies, EngineRelies, Onward;
    ReachableInv(r);
    TailBehind(r);
    PollAside(r, NoMemory);
    PollLeaves(r, NoMemory);
    CleanFrame(r, Step(r, Poll(NoMemory)));
    if r.p.RCheck? || r.p.RPub? {
      HarvestStep(r);
      if r.p.RCheck? {
        HarvestSlot(r);
      }
    } else {
      ReclaimStep(r);
      WakeStep(r);
      if !r.p.TStat? && !r.p.TStopped? {
        ReclaimBounds(r);
      }
    }
  }

  lemma CleanFrame(s: Nic, r: Nic)
    requires SenderRelies(s, r) && EngineRelies(s, r)
    ensures r.n == s.n && r.x == s.x && r.w == s.w
  {}

  lemma PollBegins(s: Nic)
    requires s.p == PIdle && s.irq.listed
    ensures Cleaning(s, Step(s, Softirq(64))) && Step(s, Softirq(64)).p.TLoop?
  {}

  lemma CleaningMoves(s0: Nic, r: Nic)
    requires Cleaning(s0, r)
    ensures Budgeted(r.p) && r.p != PIdle && r.irq.missed == s0.irq.missed && r.stopped == s0.stopped
  {}

  lemma Cleans(s: Nic, acts0: seq<Action>, s0: Nic) returns (acts: seq<Action>, r: Nic)
    requires Leads(s, acts0, s0) && s0.p == PIdle && s0.irq.listed && !s0.stopped
    requires s0.hr.clean == s0.hr.taken == s0.hr.done
    ensures Leads(s, acts, r) && Cleaning(s0, r) && r.p.PDone?
  {
    hide Reachable, Inv, Step, Cleaning, Budgeted, RankOf, Moves;
    PollBegins(s0);
    CleaningMoves(s0, Step(s0, Softirq(64)));
    LeadsOn(s, acts0, s0, Softirq(64));
    acts, r := acts0 + [Softirq(64)], Step(s0, Softirq(64));
    while !r.p.PDone?
      invariant Leads(s, acts, r) && Cleaning(s0, r)
      decreases RankOf(r).x, RankOf(r).ahead, RankOf(r).work, RankOf(r).w, RankOf(r).t, RankOf(r).rx, RankOf(r).tx,
                RankOf(r).due, RankOf(r).phase, RankOf(r).left, RankOf(r).p, RankOf(r).unmasks
    {
      CleaningMoves(s0, r);
      ReachableInv(r);
      PollMoves(r);
      StepLowers(r, Poll(NoMemory));
      CleanStep(s0, r);
      CleaningMoves(s0, Step(r, Poll(NoMemory)));
      LeadsOn(s, acts, r, Poll(NoMemory));
      acts, r := acts + [Poll(NoMemory)], Step(r, Poll(NoMemory));
    }
  }

  lemma PollMoves(s: Nic)
    requires s.p != PIdle
    ensures Moves(s, Poll(NoMemory))
  {}

  // ------------------------------------------------------------ at rest

  /** What all agents leave behind when they come to rest. */
  lemma RestIs(s: Nic)
    requires Reachable(s) && AtRest(s)
    ensures s.ht.clean == s.ht.taken == s.ht.done == s.ht.use == s.ht.tail == |s.ht.posts| == |s.h.frames|
    ensures s.hr.clean == s.hr.taken == s.hr.done
    ensures s.hr.tail == s.hr.use == |s.hr.posts| == s.hr.clean + s.n - 1 - s.h.short
    ensures !s.stopped && !s.irq.sched && !s.irq.missed && !s.irq.listed && s.unmasks == 0
    ensures 2 <= s.n && Room(s.n, s.ht)
    ensures s.h.delivered == s.h.loops
  {
    hide Reachable, Inv;
    RestMeansDone(s);
    RestNapi(s);
    ReachableInv(s);
    RestCounts(s);
  }

  lemma RestCounts(s: Nic)
    requires Inv(s) && AtRest(s)
    ensures s.ht.tail == s.ht.use == |s.ht.posts| && s.ht.clean == s.ht.taken && s.hr.clean == s.hr.taken
    ensures s.hr.tail == s.hr.use == |s.hr.posts| == s.hr.clean + s.n - 1 - s.h.short && 2 <= s.n
    ensures s.irq.missed ==> s.irq.sched
  {
    hide Zones, MemOk, FlowSide, StatsSide, Regs, NoStranded;
  }
}
