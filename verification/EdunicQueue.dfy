/** When xmit stops the queue: what a call leaves behind, and the one race that restarts a full queue. */
module EdunicQueue {
  import opened Ring
  import opened Memory
  import opened Edunic
  import opened EdunicCauses
  import opened EdunicInvariant
  import opened EdunicKeeps
  import opened EdunicTheorems
  import opened EdunicProgress
  import opened EdunicRely
  import opened EdunicSettles
  import opened EdunicRounds
  import opened EdunicScripts
  import opened EdunicLate

  // ------------------------------------------------------------ one call of xmit

  /** The skb is no longer the driver's, for the reason `end`. */
  predicate Gone(m: Ledger, id: nat, end: End) {
    id < |m.skbs| && m.skbs[id].life == Released(end)
  }

  /** Nothing has been posted since `s0`; or the frame has. */
  predicate Unposted(s0: Nic, r: Nic) {
    r.ht.use == s0.ht.use && r.h.frames == s0.h.frames
  }

  predicate Posted(s0: Nic, frame: Frame, r: Nic) {
    Room(s0.n, s0.ht) && r.ht.use == s0.ht.use + 1 && r.h.frames == s0.h.frames + [frame]
  }

  /** What a call of xmit leaves: on a full ring the frame goes back and the queue is stopped; otherwise it
      is lost with its mapping, or posted, and then the queue is stopped if the ring is full. */
  predicate CallEnds(s0: Nic, id: nat, frame: Frame, r: Nic) {
    if !Room(s0.n, s0.ht) then Unposted(s0, r) && r.stopped && Gone(r.m, id, ReturnedBusy)
    else
      || (Unposted(s0, r) && r.stopped == s0.stopped && Gone(r.m, id, Freed))
      || (Posted(s0, frame, r) && (r.stopped <==> s0.stopped || !Room(r.n, r.ht)))
  }

  /** A call that began in `s0`, as long as no poll moves next_to_clean or wakes the queue. */
  predicate Calling(s0: Nic, id: nat, frame: Frame, r: Nic) {
    && r.n == s0.n && r.ht.clean == s0.ht.clean
    && (XHold(r.x) != Nothing ==> XHold(r.x).id == id && SkbData(r.m, id) == frame)
    && match r.x
       case XCheck(_) => Unposted(s0, r) && r.stopped == s0.stopped
       case XStop(_) => Unposted(s0, r) && r.stopped == s0.stopped && !Room(s0.n, s0.ht)
       case XRecheck(_) => Unposted(s0, r) && r.stopped && !Room(s0.n, s0.ht)
       case XMap(_) => Unposted(s0, r) && r.stopped == s0.stopped && Room(s0.n, s0.ht)
       case XBuf(_, _) => Unposted(s0, r) && r.stopped == s0.stopped && Room(s0.n, s0.ht)
       case XDesc(_, _) => Unposted(s0, r) && r.stopped == s0.stopped && Room(s0.n, s0.ht)
       case XUse(_, _) => Unposted(s0, r) && r.stopped == s0.stopped && Room(s0.n, s0.ht)
       case XTail => Posted(s0, frame, r) && r.stopped == s0.stopped
       case XKick => Posted(s0, frame, r) && r.stopped == s0.stopped
       case XCheck2 => Posted(s0, frame, r) && r.stopped == s0.stopped
       case XStop2 => Posted(s0, frame, r) && r.stopped == s0.stopped && !Room(r.n, r.ht)
       case XRecheck2 => Posted(s0, frame, r) && r.stopped && !Room(r.n, r.ht)
       case XIdle => CallEnds(s0, id, frame, r)
       case _ => false
  }

  lemma StopsQueue(s: Nic, mapping: Option<nat>)
    ensures XmitStep(s, mapping).stopped ==
      if s.x.XStop? || s.x == XStop2 then true else if s.x.XWake? || s.x == XWake2 then false else s.stopped
  {
    hide TxRoom, Release, MapSkb, Park, SetBuf, SetDesc, Next, SkbLen, SkbData;
  }

  /** The two ends of a call without a post. */
  lemma GivesUp(s: Nic, mapping: Option<nat>)
    requires Inv(s)
    ensures s.x.XRecheck? && !TxRoom(s) ==> Gone(XmitStep(s, mapping).m, s.x.id, ReturnedBusy)
    ensures s.x.XMap? && mapping == None ==> Gone(XmitStep(s, mapping).m, s.x.id, Freed)
  {
    hide TxSide, RxSide, FlowSide, StatsSide, IrqSide, TxRoom, TxSkb, RxSkb, Owned, Starts, SkbLen;
  }

  lemma XmitFrames(s: Nic, mapping: Option<nat>)
    requires Reachable(s)
    ensures var r := XmitStep(s, mapping);
            && r.n == s.n && r.ht.clean == s.ht.clean && r.ht.use == s.ht.use + One(s.x.XUse?)
            && r.h.frames == s.h.frames + (if s.x.XUse? then [SkbData(s.m, s.x.id)] else [])
            && (XHold(r.x) != Nothing ==>
                 XHold(s.x) != Nothing && XHold(r.x).id == XHold(s.x).id
                 && SkbData(r.m, XHold(r.x).id) == SkbData(s.m, XHold(s.x).id))
  {
    hide Reachable, Inv, XmitStep, SkbData, EngineRelies, PollerRelies;
    ReachableInv(s);
    XmitAside(s, mapping);
    XmitLeaves(s, Xmit(mapping));
    XmitFrame(s, Step(s, Xmit(mapping)));
    StepHeldIs(s, Xmit(mapping));
    XmitKeepsId(s, mapping);
  }

  lemma XmitKeepsId(s: Nic, mapping: Option<nat>)
    ensures var r := XmitStep(s, mapping);
            XHold(r.x) != Nothing ==> XHold(s.x) != Nothing && XHold(r.x).id == XHold(s.x).id
  {
    hide XmitStep, TxRoom;
    XmitStepGoes(s, mapping);
  }

  lemma OwnStep(s0: Nic, id: nat, frame: Frame, s: Nic, mapping: Option<nat>)
    requires Reachable(s) && Calling(s0, id, frame, s)
    ensures Calling(s0, id, frame, Step(s, Xmit(mapping)))
  {
    hide Reachable, Inv, XmitStep, SkbData, TxRoom, Gone;
    ReachableInv(s);
    SendRoom(s);
    XmitStepGoes(s, mapping);
    XmitFrames(s, mapping);
    StopsQueue(s, mapping);
    GivesUp(s, mapping);
    if s.x == XIdle {
      IdleXmit(s, mapping);
    }
  }

  lemma IdleXmit(s: Nic, mapping: Option<nat>)
    requires s.x == XIdle
    ensures XmitStep(s, mapping) == s
  {}

  /** What the agents other than xmit and the poll leave alone. */
  predicate Leaves(s: Nic, r: Nic) {
    && r.n == s.n && r.x == s.x && r.stopped == s.stopped && r.ht.clean == s.ht.clean && r.ht.use == s.ht.use
    && r.h.frames == s.h.frames
    && |r.m.skbs| == |s.m.skbs| && forall id :: 0 <= id < |s.m.skbs| ==> r.m.skbs[id].life == s.m.skbs[id].life
  }

  lemma WorkLives(s: Nic, copied: bool)
    ensures var r := WorkStep(s, copied);
            |r.m.skbs| == |s.m.skbs| && forall id :: 0 <= id < |s.m.skbs| ==> r.m.skbs[id].life == s.m.skbs[id].life
  {
    hide DeliverCheck, EngineCheck, EngineEnd, SetDesc, DescAt, BufAt, Next;
  }

  /** Neither a poll nor a new call. */
  predicate Undisturbed(acts: seq<Action>) {
    forall i :: 0 <= i < |acts| ==> !acts[i].Poll? && !acts[i].Call?
  }

  lemma OthersLeave(s: Nic, a: Action)
    requires Inv(s) && (a.Work? || a.Softirq? || a.Unmask? || a.Timer?)
    ensures Leaves(s, Step(s, a)) && HeldKept(s, Step(s, a))
  {
    hide Inv, WorkStep, Intr, SkbData, PollerRelies, SenderRelies;
    if a.Work? {
      WorkLeaves(s, a.copied);
      WorkAside(s, a.copied);
      WorkLives(s, a.copied);
      ReliesLeave(s, Step(s, a));
      OtherStep(Xmitting, s, a);
    }
  }

  lemma ReliesLeave(s: Nic, r: Nic)
    requires PollerRelies(s, r) && SenderRelies(s, r)
    ensures r.n == s.n && r.x == s.x && r.ht.clean == s.ht.clean && r.ht.use == s.ht.use && r.h.frames == s.h.frames
  {}

  lemma OthersStep(s0: Nic, id: nat, frame: Frame, s: Nic, r: Nic)
    requires Calling(s0, id, frame, s) && Leaves(s, r) && HeldKept(s, r)
    ensures Calling(s0, id, frame, r)
  {
    hide SkbData;
  }

  lemma {:induction false} CallRuns(s0: Nic, frame: Frame, acts: seq<Action>)
    requires Reachable(s0) && s0.x == XIdle && Undisturbed(acts)
    ensures var r := Run(Step(s0, Call(frame)), acts); Reachable(r) && Calling(s0, |s0.m.skbs|, frame, r)
    decreases |acts|
  {
    hide Reachable, Step, Inv, Calling, Leaves, HeldKept;
    var s := Step(s0, Call(frame));
    ReachableStep(s0, Call(frame));
    if acts == [] {
      CallBegins(s0, frame);
    } else {
      var before, a := acts[..|acts| - 1], acts[|acts| - 1];
      CallRuns(s0, frame, before);
      var r := Run(s, before);
      ReachableStep(r, a);
      if a.Xmit? {
        OwnStep(s0, |s0.m.skbs|, frame, r, a.mapping);
      } else {
        ReachableInv(r);
        OthersLeave(r, a);
        OthersStep(s0, |s0.m.skbs|, frame, r, Step(r, a));
      }
    }
  }

  lemma CallBegins(s: Nic, frame: Frame)
    requires s.x == XIdle
    ensures Calling(s, |s.m.skbs|, frame, Step(s, Call(frame)))
  {}

  /** A call of edunic_start_xmit run to its end, with any steps of the engine, the timer and the softirq in
      between but none of a poll: on a full ring the skb goes back with NETDEV_TX_BUSY and the queue is
      stopped; and a frame that takes the last slot leaves the queue stopped, too. */
  lemma QueueAfterCall(s: Nic, frame: Frame, acts: seq<Action>)
    requires Reachable(s) && s.x == XIdle && Undisturbed(acts) && Run(Step(s, Call(frame)), acts).x == XIdle
    requires 0 < s.n
    ensures var r, id, unused := Run(Step(s, Call(frame)), acts), |s.m.skbs|, Unused(s.tx.ntc, s.tx.ntu, s.n);
            && (unused == 0 ==> r.h.frames == s.h.frames && r.stopped && Gone(r.m, id, ReturnedBusy))
            && (unused == 1 ==>
                 || (r.h.frames == s.h.frames + [frame] && r.stopped)
                 || (r.h.frames == s.h.frames && r.stopped == s.stopped && Gone(r.m, id, Freed)))
            && (unused > 1 ==>
                 && r.stopped == s.stopped
                 && (r.h.frames == s.h.frames + [frame] || (r.h.frames == s.h.frames && Gone(r.m, id, Freed))))
  {
    hide Reachable, Run, Step, Gone, Unused;
    CallRuns(s, frame, acts);
    UnusedIs(s);
  }

  lemma UnusedIs(s: Nic)
    requires Reachable(s) && 0 < s.n
    ensures Unused(s.tx.ntc, s.tx.ntu, s.n) == s.n - 1 - (s.ht.use - s.ht.clean) >= 0
  {
    hide Reachable, Zones, MemOk, RxSide, WorkOk, CleanTxOk, FlowSide, StatsSide, IrqSide, Unused;
    ReachableInv(s);
    ZoneBounds(s.n, s.tx.desc, s.tx.buf, ViewOf(s.ht, XFill(s.x, s.m), s.p.TClear?));
    UnusedCounts(s.ht.clean, s.ht.use, s.n);
  }

  // ------------------------------------------------------------ the one race

  /** xmit is going to look at the ring and, if it is full, to stop the queue. */
  predicate WillLook(x: XmitPc) {
    x.XCheck? || x.XStop? || x == XTail || x == XKick || x == XCheck2 || x == XStop2
  }

  /** A full ring has its queue stopped, unless xmit is going to see to that. */
  predicate Shut(s: Nic) {
    Room(s.n, s.ht) || s.stopped || WillLook(s.x)
  }

  /** xmit wakes the queue only with room. */
  predicate WakesWithRoom(s: Nic) {
    s.x == XWake2 || s.x.XUse? ==> Room(s.n, s.ht)
  }

  lemma RoomGrows(s: Nic, a: Action)
    requires Inv(s) && Reachable(s)
    ensures Step(s, a).n == s.n
    ensures !(a.Xmit? && s.x.XUse?) ==> (Room(s.n, s.ht) ==> Room(s.n, Step(s, a).ht))
    ensures !a.Poll? ==> Step(s, a).ht.clean == s.ht.clean
    ensures !a.Xmit? && !a.Call? ==> Step(s, a).x == s.x && Step(s, a).ht.use == s.ht.use
  {
    hide Inv, Reachable, XmitStep, WorkStep, PollStep, PollCall, UnmaskStep, TimerStep, XmitCall, PollerRelies,
         SenderRelies, EngineRelies;
    match a
    case Call(_) =>
      CallFrames(s, a.frame);
    case Xmit(mapping) => XmitFrames(s, mapping);
    case Work(copied) =>
      OthersLeave(s, a);
    case Poll(alloc) =>
      TailBehind(s);
      StepForward(s, a);
      PollLeaves(s, alloc);
      SenderIs(s, Step(s, a));
    case _ => OthersLeave(s, a);
  }

  lemma CallFrames(s: Nic, frame: Frame)
    ensures var r := XmitCall(s, frame); r.n == s.n && r.ht == s.ht && r.stopped == s.stopped
    ensures XmitCall(s, frame).x == if s.x == XIdle then XCheck(|s.m.skbs|) else s.x
  {}

  lemma SenderIs(s: Nic, r: Nic)
    requires SenderRelies(s, r)
    ensures r.x == s.x && r.ht.use == s.ht.use
  {}

  lemma WakeStep2(s: Nic, a: Action)
    requires Inv(s) && Reachable(s) && WakesWithRoom(s)
    ensures WakesWithRoom(Step(s, a))
  {
    hide Inv, Reachable, Step, TxRoom, Room;
    RoomGrows(s, a);
    if a.Xmit? {
      SendRoom(s);
      XmitGoesIs(s, a.mapping);
      PostsWithRoom(s);
    } else if a.Call? {
      CallIs(s, a.frame);
    }
  }

  lemma PostsWithRoom(s: Nic)
    requires Inv(s)
    ensures Posting(s.x) ==> Room(s.n, s.ht)
  {
    hide Zones, RxSide, MemOk, FlowSide, StatsSide, IrqSide, WorkOk, CleanTxOk;
  }

  lemma XmitGoesIs(s: Nic, mapping: Option<nat>)
    ensures Step(s, Xmit(mapping)).x == XmitGoes(s, mapping)
  {
    hide XmitStep, TxRoom;
    XmitStepGoes(s, mapping);
  }

  lemma CallIs(s: Nic, frame: Frame)
    ensures Step(s, Call(frame)).x == if s.x == XIdle then XCheck(|s.m.skbs|) else s.x
    ensures Step(s, Call(frame)).stopped == s.stopped
  {}

  lemma {:induction false} WakeInv(n: nat, acts: seq<Action>)
    requires 2 <= n
    ensures WakesWithRoom(Run(Init(n), acts))
    decreases |acts|
  {
    hide Inv, Reachable, Step, Room, WakesWithRoom;
    if acts == [] {
      InitWakes(n);
    } else {
      var before := acts[..|acts| - 1];
      WakeInv(n, before);
      assert Reachable(Run(Init(n), before)) by { RunsReach(n, before); }
      ReachableInv(Run(Init(n), before));
      WakeStep2(Run(Init(n), before), acts[|acts| - 1]);
    }
  }

  lemma InitWakes(n: nat)
    requires 2 <= n
    ensures WakesWithRoom(Init(n)) && Shut(Init(n))
  {}

  lemma RunsReach(n: nat, acts: seq<Action>)
    requires 2 <= n
    ensures Reachable(Run(Init(n), acts))
  {
    hide Run, Init;
  }

  lemma Wakes(s: Nic)
    requires Reachable(s)
    ensures WakesWithRoom(s)
  {
    hide Run, Init, WakesWithRoom;
    var n: nat, acts: seq<Action> :| 2 <= n && Run(Init(n), acts) == s;
    WakeInv(n, acts);
  }

  /** The poll is about to wake the queue, because there was room when it looked, but since then xmit has
      filled the ring, and is not going to look at it again. */
  predicate WakesFull(s: Nic, a: Action) {
    a.Poll? && s.p.TWake? && !Room(s.n, s.ht) && !WillLook(s.x)
  }

  /** A full ring keeps its queue stopped in every step but one: a wakeup of the poll that was decided while
      there still was room. */
  lemma ShutExactly(s: Nic, a: Action)
    requires Reachable(s) && Shut(s)
    ensures Shut(Step(s, a)) <==> !WakesFull(s, a)
  {
    hide Inv, Reachable, Step, TxRoom, Room;
    ReachableInv(s);
    Wakes(s);
    RoomGrows(s, a);
    StoppedBy(s, a);
    if a.Xmit? {
      SendRoom(s);
      XmitGoesIs(s, a.mapping);
      PostsWithRoom(s);
    } else if a.Call? {
      CallIs(s, a.frame);
    } else if a.Poll? && s.p.TWake? {
      WakeClean(s, a.alloc);
    }
  }

  lemma WakeClean(s: Nic, alloc: Alloc)
    requires s.p.TWake?
    ensures Step(s, Poll(alloc)) == s.(stopped := false, p := RCheck(s.rx.ntc, 0, s.p.budget))
  {
    hide XmitStep, WorkStep, ReclaimTake, ReclaimClear, HarvestTake, HarvestClear, RefillAlloc, RefillPark,
         RefillDescribe, TxRoom;
  }

  lemma StoppedBy(s: Nic, a: Action)
    ensures Step(s, a).stopped ==
      if a.Xmit? && (s.x.XStop? || s.x == XStop2) then true
      else if (a.Xmit? && (s.x.XWake? || s.x == XWake2)) || (a.Poll? && s.p.TWake?) then false
      else s.stopped
  {
    hide XmitStep, WorkStep, PollStep, Intr, XmitCall;
    match a
    case Call(frame) => CallFrames(s, frame);
    case Xmit(mapping) => StopsQueue(s, mapping);
    case Work(copied) => WorkAside(s, copied);
    case Poll(alloc) =>
      if s.p.PDone? {
        FinishStep(s, alloc);
        FinishAside(s, s.p.caller);
      } else if s.p.TWake? {
        WakeClean(s, alloc);
      } else {
        PollAside(s, alloc);
      }
    case _ =>
  }

  /** No such wakeup happens in the run. */
  predicate NeverWakesFull(s: Nic, acts: seq<Action>)
    decreases |acts|
  {
    acts != [] ==>
      var before := acts[..|acts| - 1];
      NeverWakesFull(s, before) && !WakesFull(Run(s, before), acts[|acts| - 1])
  }

  /** In every run without one, a full ring has its queue stopped at every moment, or xmit about to see to
      that. */
  lemma {:induction false} FullMeansStopped(n: nat, acts: seq<Action>)
    requires 2 <= n && NeverWakesFull(Init(n), acts)
    ensures Shut(Run(Init(n), acts))
    decreases |acts|
  {
    hide Reachable, Step, Shut, WakesFull;
    if acts == [] {
      InitWakes(n);
    } else {
      var before := acts[..|acts| - 1];
      FullMeansStopped(n, before);
      RunsReach(n, before);
      ShutExactly(Run(Init(n), before), acts[|acts| - 1]);
    }
  }

  // ------------------------------------------------------------ it happens

  /** The other agents have not moved, and nothing has been reclaimed. */
  predicate Kin(s: Nic, r: Nic) {
    && r.n == s.n && r.w == s.w && r.p == s.p && r.irq == s.irq && r.stopped == s.stopped && r.hr == s.hr
    && r.ht.clean == s.ht.clean && r.ht.taken == s.ht.taken && r.ht.done == s.ht.done && s.ht.use <= r.ht.use
  }

  lemma SentKin(s: Nic, frame: Frame, r: Nic)
    requires Sending(s, frame, r) && r.x == XCheck2
    ensures Kin(s, r) && r.ht.use == s.ht.use + 1
  {}

  /** The second check of xmit, access by access. */
  lemma SecondCheck(s: Nic)
    requires Reachable(s)
    ensures var r := Step(s, Xmit(None));
            && (s.x == XCheck2 ==> r == s.(x := if Room(s.n, s.ht) then XIdle else XStop2))
            && (s.x == XStop2 ==> r == s.(stopped := true, x := XRecheck2))
            && (s.x == XRecheck2 ==> r == s.(x := if Room(s.n, s.ht) then XWake2 else XIdle))
            && (s.x == XWake2 ==> r == s.(stopped := false, x := XIdle))
  {
    hide Reachable, Inv, TxRoom, WorkStep, PollStep;
    ReachableInv(s);
    SendRoom(s);
  }

  lemma Advances(s: Nic, acts0: seq<Action>, s0: Nic, r: Nic) returns (acts: seq<Action>)
    requires Leads(s, acts0, s0) && Step(s0, Xmit(None)) == r && r.irq == s0.irq
    ensures Leads(s, acts, r)
  {
    hide Reachable, Step;
    LeadsOn(s, acts0, s0, Xmit(None));
    acts := acts0 + [Xmit(None)];
  }

  /** Frames are sent until the ring is full. */
  lemma Fills(s: Nic, acts0: seq<Action>, s0: Nic) returns (acts: seq<Action>, r: Nic)
    requires Leads(s, acts0, s0) && s0.x == XCheck2
    ensures Leads(s, acts, r) && Kin(s0, r) && r.x == XCheck2 && !Room(r.n, r.ht)
  {
    hide Reachable, Step, Leads, Sending;
    acts, r := acts0, s0;
    while Room(r.n, r.ht)
      invariant Leads(s, acts, r) && Kin(s0, r) && r.x == XCheck2
      decreases r.ht.clean + r.n - r.ht.use
    {
      LeadsReachable(s, acts, r);
      SecondCheck(r);
      var idle := r.(x := XIdle);
      acts := Advances(s, acts, r, idle);
      acts, r := Sends(s, acts, idle, [1]);
      SentKin(idle, [1], r);
    }
  }

  /** xmit finds the ring full and stops the queue; it has yet to look again. */
  lemma Stops(s: Nic, acts0: seq<Action>, s0: Nic) returns (acts: seq<Action>, r: Nic)
    requires Leads(s, acts0, s0) && s0.x == XCheck2 && !Room(s0.n, s0.ht)
    ensures Leads(s, acts, r) && r == s0.(x := XRecheck2, stopped := true)
  {
    hide Reachable, Step, Leads, Room;
    LeadsReachable(s, acts0, s0);
    SecondCheck(s0);
    var r1 := s0.(x := XStop2);
    acts := Advances(s, acts0, s0, r1);
    LeadsReachable(s, acts, r1);
    SecondCheck(r1);
    r := r1.(stopped := true, x := XRecheck2);
    acts := Advances(s, acts, r1, r);
  }

  predicate Reclaims(p: PollPc) {
    p.TLoop? || p.TCheck? || p.TFree? || p.TClear? || p.TPub? || p.TStat? || p.TStopped?
  }

  lemma ReclaimGoes(s0: Nic, r: Nic)
    requires Reachable(r) && Cleaning(s0, r) && Reclaims(r.p) && !r.p.TStopped? && s0.ht.clean < s0.ht.done
    ensures Reclaims(Step(r, Poll(NoMemory)).p)
  {
    hide Reachable, Inv, Step, DescAt, BufAt, Next;
    ReachableInv(r);
    ReclaimStep(r);
    WakeStep(r);
    if !r.p.TStat? {
      ReclaimBounds(r);
    }
  }

  lemma AtStopped(s0: Nic, r: Nic)
    requires Reachable(r) && Cleaning(s0, r) && r.p.TStopped?
    ensures r.ht.clean == r.ht.taken && s0.ht.done <= r.ht.clean && r.ht.use == s0.ht.use && r.p == TStopped(64)
  {
    hide Reachable, Zones, MemOk, RxSide, FlowSide, StatsSide, IrqSide;
    ReachableInv(r);
  }

  /** The poll reclaims, finds the queue stopped and room in the ring, and is about to wake the queue. */
  lemma CleansToWake(s: Nic, acts0: seq<Action>, s0: Nic) returns (acts: seq<Action>, r: Nic)
    requires Leads(s, acts0, s0) && s0.p == PIdle && s0.irq.listed && s0.stopped && s0.ht.clean < s0.ht.done
    requires s0.hr.clean == s0.hr.taken == s0.hr.done
    ensures Leads(s, acts, r) && r.p == TWake(64) && r.x == s0.x && r.n == s0.n && r.stopped && Room(r.n, r.ht)
  {
    hide Reachable, Inv, Step, Cleaning, Budgeted, RankOf, Moves;
    PollBegins(s0);
    CleaningMoves(s0, Step(s0, Softirq(64)));
    LeadsOn(s, acts0, s0, Softirq(64));
    acts, r := acts0 + [Softirq(64)], Step(s0, Softirq(64));
    while !r.p.TStopped?
      invariant Leads(s, acts, r) && Cleaning(s0, r) && Reclaims(r.p)
      decreases RankOf(r).x, RankOf(r).ahead, RankOf(r).work, RankOf(r).w, RankOf(r).t, RankOf(r).rx, RankOf(r).tx,
                RankOf(r).due, RankOf(r).phase, RankOf(r).left, RankOf(r).p, RankOf(r).unmasks
    {
      CleaningMoves(s0, r);
      ReachableInv(r);
      PollMoves(r);
      StepLowers(r, Poll(NoMemory));
      CleanStep(s0, r);
      ReclaimGoes(s0, r);
      CleaningMoves(s0, Step(r, Poll(NoMemory)));
      LeadsOn(s, acts, r, Poll(NoMemory));
      acts, r := acts + [Poll(NoMemory)], Step(r, Poll(NoMemory));
    }
    AtStopped(s0, r);
    CleaningIs(s0, r);
    LeadsReachable(s, acts0, s0);
    RoomAgain(s0, r);
    acts, r := TwoLooks(s, acts, r);
  }

  lemma CleaningIs(s0: Nic, r: Nic)
    requires Cleaning(s0, r)
    ensures r.n == s0.n && r.x == s0.x && r.stopped == s0.stopped && !r.irq.listed && r.irq.missed == s0.irq.missed
  {}

  lemma RoomAgain(s0: Nic, r: Nic)
    requires Reachable(s0) && s0.ht.clean < s0.ht.done <= r.ht.clean && r.ht.use == s0.ht.use && r.n == s0.n
    ensures Room(r.n, r.ht)
  {
    hide Reachable, Unused;
    NeverOverfilled(s0);
  }

  lemma TwoLooks(s: Nic, acts0: seq<Action>, s0: Nic) returns (acts: seq<Action>, r: Nic)
    requires Leads(s, acts0, s0) && s0.p == TStopped(64) && s0.stopped && Room(s0.n, s0.ht)
    ensures Leads(s, acts, r) && r == s0.(p := TWake(64))
  {
    hide Reachable, Leads, Step, Inv, TxRoom, Room;
    LeadsReachable(s, acts0, s0);
    LeadsNapi(s, acts0, s0);
    ReachableInv(s0);
    WakeStep(s0);
    var r1 := s0.(p := TRoom(64));
    LeadsOn(s, acts0, s0, Poll(NoMemory));
    LeadsReachable(s, acts0 + [Poll(NoMemory)], r1);
    ReachableInv(r1);
    SendRoom(r1);
    WakeStep(r1);
    r := r1.(p := TWake(64));
    LeadsOn(s, acts0 + [Poll(NoMemory)], r1, Poll(NoMemory));
    acts := acts0 + [Poll(NoMemory)] + [Poll(NoMemory)];
  }

  /** The race, from any state at rest and for any ring size: xmit fills the ring and stops the queue; the
      poll reclaims a frame, finds the queue stopped and room, and is about to wake it; xmit looks
      again, wakes the queue itself, fills the ring once more and stops the queue; and then comes the
      wakeup of the poll. So the ring is full, xmit idle, and the queue running, although the comment
      in edunic_start_xmit counts on its being stopped. */
  lemma RestartsFull(s: Nic) returns (acts: seq<Action>, r: Nic)
    requires Reachable(s) && AtRest(s)
    ensures Run(s, acts) == r && Reachable(r) && r.x == XIdle && !Room(r.n, r.ht) && !r.stopped
  {
    hide Reachable, Leads, Passing, Sending, Announced, Step, Room, Run, Forgetful;
    RestIs(s);
    LeadsNowhere(s);
    acts, r := Sends(s, [], s, [1]);
    Sent(s, [1], r);
    ghost var r1 := r;
    acts, r := Passes(s, acts, r1);
    Passed(r1, r);
    acts, r := Lists(s, acts, r);
    ghost var r2 := r;
    acts, r := Fills(s, acts, r2);
    acts, r := Stops(s, acts, r);
    acts, r := CleansToWake(s, acts, r);
    acts, r := WakesAndFills(s, acts, r);
    LeadsReachable(s, acts, r);
    LeadsRun(s, acts, r);
  }

  lemma WakesAndFills(s: Nic, acts0: seq<Action>, s0: Nic) returns (acts: seq<Action>, r: Nic)
    requires Leads(s, acts0, s0) && s0.p == TWake(64) && s0.x == XRecheck2 && Room(s0.n, s0.ht)
    ensures Leads(s, acts, r) && r.x == XIdle && !Room(r.n, r.ht) && !r.stopped
  {
    hide Reachable, Leads, Sending, Step, Room, Kin;
    LeadsReachable(s, acts0, s0);
    SecondCheck(s0);
    var r1 := s0.(x := XWake2);
    acts := Advances(s, acts0, s0, r1);
    LeadsReachable(s, acts, r1);
    SecondCheck(r1);
    var r2 := r1.(stopped := false, x := XIdle);
    acts := Advances(s, acts, r1, r2);
    acts, r := Sends(s, acts, r2, [1]);
    SentKin(r2, [1], r);
    var r3 := r;
    acts, r := Fills(s, acts, r3);
    KinPoll(r2, r3, r);
    acts, r := Stops(s, acts, r);
    LeadsReachable(s, acts, r);
    SecondCheck(r);
    var r4 := r.(x := XIdle);
    acts := Advances(s, acts, r, r4);
    WakeClean(r4, NoMemory);
    LeadsNapi(s, acts, r4);
    LeadsOn(s, acts, r4, Poll(NoMemory));
    acts, r := acts + [Poll(NoMemory)], Step(r4, Poll(NoMemory));
  }

  lemma KinPoll(a: Nic, b: Nic, c: Nic)
    requires Kin(a, b) && Kin(b, c)
    ensures c.p == a.p
  {}
}
