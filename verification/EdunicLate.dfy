/** The interrupt handler that comes while NAPI is scheduled: when it happens, that it happens, and what
    would be lost if NAPI did not note it. */
module EdunicLate {
  import opened Ring
  import opened Memory
  import opened Edunic
  import opened EdunicInvariant
  import opened EdunicTheorems
  import opened EdunicProgress
  import opened EdunicSettles
  import opened EdunicScripts

  /** The handler at napi_schedule_prep, called by the engine or by the timer, finds NAPI scheduled, marks
      it missed and ends, exactly when NAPI is on the list, being polled or claimed by the other
      handler; otherwise it claims NAPI itself. */
  lemma FindsScheduled(s: Nic, timer: bool)
    requires Reachable(s) && if timer then s.t == TIsr(IPrep) else s.w == WIsr(IPrep)
    ensures var r := Step(s, if timer then Timer else Work(false));
            var taken := s.irq.listed || LookOf(s.p) != Off || Claimed(if timer then EngineIsr(s.w) else TimerIsr(s.t));
            && (r.irq.missed <==> taken) && r.irq.sched && r.irq == s.irq.(missed := r.irq.missed, sched := true)
            && (taken <==> if timer then r.t == TIdle else r.w == WIdle)
            && (!taken ==> Claimed(if timer then TimerIsr(r.t) else EngineIsr(r.w)))
  {
    hide Reachable, LookOf;
    ScheduledOnce(s);
  }

  lemma ClaimSteps(s: Nic)
    ensures s.w == WIsr(IPrep) && !s.irq.sched ==>
      Step(s, Work(false)) == s.(irq := s.irq.(sched := true), w := WIsr(IMask))
    ensures s.w == WIsr(IMask) ==> Step(s, Work(false)) == s.(irq := s.irq.(open := false), w := WIsr(IList))
    ensures s.w == WIsr(IList) ==> Step(s, Work(false)) == s.(irq := s.irq.(listed := true), w := WIdle)
  {}

  /** The three accesses of a handler that claims NAPI. */
  lemma Lists(s: Nic, acts0: seq<Action>, s0: Nic) returns (acts: seq<Action>, r: Nic)
    requires Leads(s, acts0, s0) && s0.w == WIsr(IPrep) && !s0.irq.sched
    ensures Leads(s, acts, r) && r == s0.(irq := s0.irq.(sched := true, open := false, listed := true), w := WIdle)
  {
    hide Reachable, Leads, Step;
    var a := Work(false);
    var r1 := s0.(irq := s0.irq.(sched := true), w := WIsr(IMask));
    var r2 := r1.(irq := r1.irq.(open := false), w := WIsr(IList));
    r := r2.(irq := r2.irq.(listed := true), w := WIdle);
    ClaimSteps(s0);
    ClaimSteps(r1);
    ClaimSteps(r2);
    LeadsNapi(s, acts0, s0);
    LeadsOn(s, acts0, s0, a);
    LeadsOn(s, acts0 + [a], r1, a);
    LeadsOn(s, acts0 + [a] + [a], r2, a);
    acts := acts0 + [a] + [a] + [a];
  }

  lemma LeadsNapi(s: Nic, acts: seq<Action>, r: Nic)
    requires Leads(s, acts, r)
    ensures !r.irq.missed
  {}

  /** xmit's second look at the ring, with room in it. */
  lemma Rechecks(s: Nic, acts0: seq<Action>, s0: Nic) returns (acts: seq<Action>, r: Nic)
    requires Leads(s, acts0, s0) && s0.x == XCheck2 && Room(s0.n, s0.ht)
    ensures Leads(s, acts, r) && r == s0.(x := XIdle)
  {
    hide Reachable, TxRoom, Inv;
    ReachableInv(s0);
    SendRoom(s0);
    r := s0.(x := XIdle);
    assert Step(s0, Xmit(None)) == r;
    LeadsOn(s, acts0, s0, Xmit(None));
    acts := acts0 + [Xmit(None)];
  }

  lemma AllReclaimed(s: Nic)
    requires Reachable(s) && s.p.PDone? && s.ht.use <= s.ht.done <= s.ht.taken
    ensures Room(s.n, s.ht) && s.ht.taken == s.ht.done
  {
    hide Reachable, Zones, MemOk, RxSide, FlowSide, StatsSide, IrqSide;
    ReachableInv(s);
    ZoneBounds(s.n, s.tx.desc, s.tx.buf, ViewOf(s.ht, XFill(s.x, s.m), s.p.TClear?));
  }

  /** The situation: a handler at napi_schedule_prep while a poll that has looked at both rings, and does
      not use up its budget, is about to end; it is there because of a frame that completed
      after that. */
  predicate Late(s: Nic) {
    && s.w == WIsr(IPrep) && s.p == PDone(Harvest(0, 64)) && s.irq.sched && !s.irq.open && !s.irq.listed
    && s.ht.taken < s.ht.done
  }

  /** It happens, whatever the ring size, and whatever was done before: from any state at rest, the
      first frame's interrupt schedules NAPI, and the second frame's comes when the poll has
      reclaimed the first. */
  lemma LateHandler(s: Nic) returns (acts: seq<Action>, r: Nic)
    requires Reachable(s) && AtRest(s)
    ensures Leads(s, acts, r) && Late(r) && r.x == XCheck2 && r.t == TIdle && !r.work && r.unmasks == 0
  {
    hide Reachable, Leads, Passing, Sending, Cleaning, Announced;
    RestIs(s);
    LeadsNowhere(s);
    acts, r := Sends(s, [], s, [1]);
    Sent(s, [1], r);
    ghost var r1 := r;
    acts, r := Passes(s, acts, r1);
    Passed(r1, r);
    acts, r := Lists(s, acts, r);
    ghost var r2 := r;
    acts, r := Cleans(s, acts, r2);
    Cleaned(r2, r);
    LeadsReachable(s, acts, r);
    AllReclaimed(r);
    acts, r := Rechecks(s, acts, r);
    ghost var r3 := r;
    acts, r := Sends(s, acts, r3, [1]);
    Sent(r3, [1], r);
    ghost var r4 := r;
    acts, r := Passes(s, acts, r4);
    Passed(r4, r);
  }

  lemma LeadsNowhere(s: Nic)
    requires Reachable(s) && !s.irq.missed
    ensures Leads(s, [], s)
  {}

  lemma LeadsReachable(s: Nic, acts: seq<Action>, r: Nic)
    requires Leads(s, acts, r)
    ensures Reachable(r)
  {}

  lemma LeadsRun(s: Nic, acts: seq<Action>, r: Nic)
    requires Leads(s, acts, r)
    ensures Run(s, acts) == r
  {}

  /** What a frame sent, passed and reclaimed leaves, as far as the next step needs it. */
  lemma Sent(s: Nic, frame: Frame, r: Nic)
    requires Sending(s, frame, r) && r.x == XCheck2
    ensures r.n == s.n && r.w == s.w && r.p == s.p && r.t == s.t && r.irq == s.irq && r.stopped == s.stopped
    ensures r.hr == s.hr
    ensures r.work && r.ht.taken == s.ht.taken && r.ht.done == s.ht.done && r.ht.use == s.ht.use + 1
    ensures r.h.short == s.h.short
    ensures r.h.loops == s.h.loops && r.unmasks == s.unmasks && r.ht.clean == s.ht.clean
    ensures s.ht.done == s.ht.use == |s.ht.posts| == |s.h.frames| && 0 < |frame| < 65536 ==> Announced(r)
  {}

  lemma Passed(s: Nic, r: Nic)
    requires Passing(s, r) && r.w == WIsr(IPrep)
    ensures r.n == s.n && r.x == s.x && r.p == s.p && r.t == s.t && !r.work && r.stopped == s.stopped
    ensures SameNapi(s.irq, r.irq) && r.ht.taken == s.ht.taken && r.ht.done == s.ht.done + 1 && r.ht.use == s.ht.use
    ensures r.hr.clean == s.hr.clean && r.hr.taken == s.hr.taken && r.hr.done == s.hr.done
    ensures r.ht.posts == s.ht.posts && r.h.frames == s.h.frames && r.unmasks == s.unmasks && r.ht.clean == s.ht.clean
  {}

  lemma Cleaned(s: Nic, r: Nic)
    requires Cleaning(s, r) && r.p.PDone?
    ensures r.n == s.n && r.x == s.x && r.w == s.w && r.t == s.t && r.work == s.work && r.irq == s.irq.(listed := false)
    ensures r.p == PDone(Harvest(0, 64)) && r.stopped == s.stopped && r.unmasks == s.unmasks
    ensures r.hr == s.hr && r.h == s.h
    ensures s.ht.done <= r.ht.taken && r.ht.done == s.ht.done && r.ht.use == s.ht.use && r.ht.posts == s.ht.posts
  {}

  // ------------------------------------------------------------ what MISSED is for

  lemma BothMore(s: Nic, acts: seq<Action>, a: Action)
    ensures Run(s, acts + [a]) == Step(Run(s, acts), a)
    ensures Forgetful(s, acts + [a]) == Forget(Step(Forgetful(s, acts), a))
  {
    hide Step, Forget;
    assert (acts + [a])[..|acts|] == acts;
  }

  predicate Ending(x: XmitPc) {
    x == XIdle || x == XCheck2 || x == XStop2 || x == XRecheck2 || x == XWake2
  }

  lemma XmitEnds(s: Nic)
    requires Ending(s.x)
    ensures var r := Step(s, Xmit(None));
            r == s.(x := r.x, stopped := r.stopped) && Ending(r.x) && (XRank(r.x) < XRank(s.x) || r.x == XIdle)
  {
    hide TxRoom;
  }

  /** The handler, the end of the poll and its mask write, with and without the bit. */
  lemma PollAfterLate(s: Nic, acts0: seq<Action>, late: Nic) returns (acts: seq<Action>)
    requires Leads(s, acts0, late) && Late(late)
    requires late.x == XCheck2 && late.t == TIdle && !late.work && late.unmasks == 0
    ensures Listed(Run(s, acts)) && Stranded(Forgetful(s, acts))
  {
    hide Reachable, Step, Run, Forgetful;
    BothMore(s, acts0, Work(false));
    TooLate(late);
    acts := acts0 + [Work(false)];
    BothMore(s, acts, Poll(NoMemory));
    PollsOut(Run(s, acts), Forgetful(s, acts));
    acts := acts + [Poll(NoMemory)];
    BothMore(s, acts, Unmask);
    Unmasks(Run(s, acts), Forgetful(s, acts));
    acts := acts + [Unmask];
  }

  /** xmit's second check runs to its end. */
  lemma XmitAfterLate(s: Nic, acts0: seq<Action>) returns (acts: seq<Action>)
    requires Listed(Run(s, acts0)) && Stranded(Forgetful(s, acts0))
    ensures Listed(Run(s, acts)) && Stranded(Forgetful(s, acts)) && Forgetful(s, acts).x == XIdle
  {
    hide Step, Run, Forgetful, Listed, Stranded;
    acts := acts0;
    while Forgetful(s, acts).x != XIdle
      invariant Listed(Run(s, acts)) && Stranded(Forgetful(s, acts))
      decreases XRank(Forgetful(s, acts).x)
    {
      BothMore(s, acts, Xmit(None));
      XmitStays(Run(s, acts), Forgetful(s, acts));
      acts := acts + [Xmit(None)];
    }
  }

  /** Only the MISSED bit saves the completion: after the same steps, with it NAPI is on the list again;
      without it all agents are at rest, and the frame that completed is not reclaimed. */
  lemma MissedSaves(s: Nic) returns (acts: seq<Action>)
    requires Reachable(s) && AtRest(s)
    ensures var r, q := Run(s, acts), Forgetful(s, acts);
            && Reachable(r) && r.irq.listed && r.ht.taken < r.ht.done
            && AtRest(q) && q.ht.taken < q.ht.done && !q.irq.sched
  {
    hide Reachable, Step, Run, Forgetful, Leads, Late;
    var late: Nic;
    acts, late := LateHandler(s);
    acts := PollAfterLate(s, acts, late);
    acts := XmitAfterLate(s, acts);
    RunReachable(s, acts);
  }

  predicate Listed(r: Nic) {
    r.irq.listed && r.ht.taken < r.ht.done && Ending(r.x)
  }

  predicate Stranded(q: Nic) {
    && q.w == WIdle && !q.work && q.p == PIdle && q.t == TIdle && !q.irq.listed && !q.irq.sched && !q.irq.missed
    && q.unmasks == 0 && q.ht.taken < q.ht.done && Ending(q.x)
  }

  lemma TooLate(s: Nic)
    requires Late(s) && !s.irq.missed
    ensures var r := Step(s, Work(false));
            r == s.(irq := s.irq.(missed := true), w := WIdle) && Forget(r) == s.(w := WIdle)
  {}

  lemma PollsOut(r: Nic, q: Nic)
    requires q.w == WIdle && !q.work && q.t == TIdle && Ending(q.x) && q.p == PDone(Harvest(0, 64)) && !q.irq.missed
    requires !q.irq.listed && q.ht.taken < q.ht.done && q.unmasks == 0 && r == q.(irq := q.irq.(missed := true))
    ensures Listed(Step(r, Poll(NoMemory))) && Stranded(Forget(Step(q, Poll(NoMemory))).(unmasks := 0))
    ensures Step(q, Poll(NoMemory)).x == q.x && Step(q, Poll(NoMemory)).unmasks == 1
  {}

  lemma Unmasks(r: Nic, q: Nic)
    requires Listed(r) && Stranded(q.(unmasks := 0)) && q.unmasks == 1
    ensures Listed(Step(r, Unmask)) && Stranded(Forget(Step(q, Unmask))) && Step(q, Unmask).x == q.x
  {}

  lemma XmitStays(r: Nic, q: Nic)
    requires Listed(r) && Stranded(q)
    ensures Listed(Step(r, Xmit(None))) && Stranded(Forget(Step(q, Xmit(None))))
    ensures var x := Forget(Step(q, Xmit(None))).x; XRank(x) < XRank(q.x) || x == XIdle
  {
    hide Step, TxRoom, Ending, XRank;
    XmitEnds(r);
    XmitEnds(q);
  }
}
