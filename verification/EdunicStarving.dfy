/** When the interface can still receive: exactly as long as failed refills have not cost all buffers. */
module EdunicStarving {
  import opened Ring
  import opened Memory
  import opened Edunic
  import opened EdunicInvariant
  import opened EdunicTheorems
  import opened EdunicFlow
  import opened EdunicProgress
  import opened EdunicRely
  import opened EdunicSettles
  import opened EdunicRounds
  import opened EdunicScripts
  import opened EdunicLate

  // ------------------------------------------------------------ coming to rest

  const AREA: RxArea := seq(RX_BUF_SIZE, _ => 0)

  /** A scheduler that lets xmit run first, then the engine, then the poll callback, whose allocations all
      end as `alloc`. */
  function Eager(s: Nic, alloc: Alloc): Action {
    if s.x != XIdle then Xmit(None)
    else if s.w != WIdle || s.work then Work(true)
    else if s.p != PIdle then Poll(alloc)
    else if s.irq.listed then Softirq(64)
    else if s.t != TIdle then Timer
    else Unmask
  }

  /** Every allocation of the run ends as `alloc`. */
  predicate Allocates(acts: seq<Action>, alloc: Alloc) {
    forall i :: 0 <= i < |acts| && acts[i].Poll? ==> acts[i].alloc == alloc
  }

  lemma {:induction false} ScheduledRuns(s: Nic, alloc: Alloc, pick: Nic -> Action, k: nat) returns (acts: seq<Action>)
    requires forall r: Nic :: pick(r) == Eager(r, alloc)
    ensures Run(s, acts) == Scheduled(s, pick, k) && Allocates(acts, alloc)
    decreases k
  {
    hide Step;
    if k == 0 {
      acts := [];
    } else {
      var a := pick(s);
      var rest := ScheduledRuns(Step(s, a), alloc, pick, k - 1);
      acts := [a] + rest;
      RunBoth(s, [a], rest);
      assert Run(s, [a]) == Step(s, a) by {
        assert [a][..0] == [];
      }
    }
  }

  /** From any state the agents come to rest while all allocations end as `alloc`. */
  lemma Rests(s: Nic, alloc: Alloc) returns (acts: seq<Action>)
    requires Reachable(s) && Budgeted(s.p)
    ensures AtRest(Run(s, acts)) && Reachable(Run(s, acts)) && Run(s, acts).n == s.n && Allocates(acts, alloc)
  {
    hide Reachable, Run, Step, Budgeted;
    var pick := (r: Nic) => Eager(r, alloc);
    var k := AlwaysSettles(s, pick);
    acts := ScheduledRuns(s, alloc, pick, k);
    RunReachable(s, acts);
  }

  // ------------------------------------------------------------ what runs keep

  lemma {:induction false} RunForward(s: Nic, acts: seq<Action>)
    requires Reachable(s)
    ensures s.h.delivered <= Run(s, acts).h.delivered
    decreases |acts|
  {
    hide Reachable, Step, Inv;
    if acts != [] {
      var before := acts[..|acts| - 1];
      RunForward(s, before);
      RunReachable(s, before);
      ReachableInv(Run(s, before));
      StepForward(Run(s, before), acts[|acts| - 1]);
    }
  }

  lemma {:induction false} RunShort(s: Nic, acts: seq<Action>)
    ensures s.h.short <= Run(s, acts).h.short
    ensures AlwaysMemory(acts) ==> Run(s, acts).h.short == s.h.short
    decreases |acts|
  {
    hide Step;
    if acts != [] {
      var before := acts[..|acts| - 1];
      RunShort(s, before);
      StepShort(Run(s, before), acts[|acts| - 1]);
    }
  }

  /** A refill without memory posts nothing. */
  lemma NoRefill(s: Nic, a: Action)
    requires Inv(s) && !s.p.ABuf? && !s.p.ADesc? && (a.Poll? ==> a.alloc == NoMemory)
    ensures Postless(s, Step(s, a))
  {
    hide Inv, XmitCall, XmitStep, WorkStep, PollStep, UnmaskStep, TimerStep, Next, DescAt;
    match a
    case Call(_) => XmitLeaves(s, a);
    case Xmit(_) => XmitLeaves(s, a);
    case Work(copied) => WorkLeaves(s, copied);
    case Poll(_) => NoRefillPoll(s);
    case _ =>
  }

  /** Nothing is posted, and the poll is not about to post. */
  predicate Postless(s: Nic, r: Nic) {
    r.hr.posts == s.hr.posts && !r.p.ABuf? && !r.p.ADesc?
  }

  lemma ReclaimPostless(s: Nic)
    requires Phase(s.p) == 3
    ensures Postless(s, PollStep(s, NoMemory))
  {
    hide Release, UnmapSkb, SetDesc, SetBuf, DescAt, BufAt, Next, TxRoom, HarvestCheck, HarvestTake, HarvestClear,
         HarvestPublish, RefillAlloc, RefillPark, RefillDescribe, RefillPublish, PollFinish;
  }

  lemma HarvestPostless(s: Nic)
    requires Phase(s.p) == 2
    ensures Postless(s, PollStep(s, NoMemory))
  {
    hide Release, UnmapSkb, HandUp, SetDesc, SetBuf, DescAt, BufAt, Next, ReclaimCheck, ReclaimTake, ReclaimClear,
         ReclaimPublish, ReclaimWake, RefillAlloc, RefillPark, RefillDescribe, RefillPublish, PollFinish;
  }

  lemma NoRefillPoll(s: Nic)
    requires !s.p.ABuf? && !s.p.ADesc?
    ensures Postless(s, PollStep(s, NoMemory))
  {
    hide Postless;
    if Phase(s.p) == 3 {
      ReclaimPostless(s);
    } else if Phase(s.p) == 2 {
      HarvestPostless(s);
    } else {
      EndPostless(s);
    }
  }

  lemma EndPostless(s: Nic)
    requires Phase(s.p) < 2 && !s.p.ABuf? && !s.p.ADesc?
    ensures Postless(s, PollStep(s, NoMemory))
  {
    hide HarvestCheck, HarvestTake, HarvestClear, HarvestPublish, ReclaimCheck, ReclaimTake, ReclaimClear,
         ReclaimPublish, ReclaimWake, RefillPark, RefillDescribe, NewSkb;
  }

  lemma {:induction false} RunNoRefill(s: Nic, acts: seq<Action>)
    requires Reachable(s) && s.p == PIdle && Allocates(acts, NoMemory)
    ensures Postless(s, Run(s, acts))
    decreases |acts|
  {
    hide Reachable, Step, Inv;
    if acts != [] {
      var before := acts[..|acts| - 1];
      RunNoRefill(s, before);
      RunReachable(s, before);
      ReachableInv(Run(s, before));
      NoRefill(Run(s, before), acts[|acts| - 1]);
    }
  }

  // ------------------------------------------------------------ one more frame

  /** From rest, with a receive buffer out, one more frame is written to the receive ring. */
  lemma OneMore(s: Nic) returns (acts: seq<Action>, r: Nic)
    requires Reachable(s) && AtRest(s) && s.h.short < s.n - 1
    ensures Run(s, acts) == r && Reachable(r) && |r.h.loops| == |s.h.loops| + 1
    ensures r.p == PIdle && r.hr.posts == s.hr.posts && r.h.short == s.h.short && r.n == s.n
  {
    hide Reachable, Leads, Sending, Kept, Announced, Run, Forgetful;
    RestIs(s);
    LeadsNowhere(s);
    acts, r := Sends(s, [], s, [1]);
    Sent(s, [1], r);
    ghost var r1 := r;
    acts, r := Loops(s, acts, r1);
    KeptIs(r1, r);
    LeadsReachable(s, acts, r);
    LeadsRun(s, acts, r);
  }

  lemma KeptIs(s: Nic, r: Nic)
    requires Kept(s, r)
    ensures r.p == s.p && r.hr.posts == s.hr.posts && r.h.short == s.h.short && r.n == s.n
  {}

  /** The driver comes to rest with allocations that succeed, one frame is sent and looped, and the agents
      come to rest again, with allocations that end as `alloc`. */
  lemma RestsLoopsRests(s: Nic, alloc: Alloc) returns (acts: seq<Action>, rest: Nic, r: Nic)
    requires Reachable(s) && Budgeted(s.p) && s.h.short < s.n - 1
    ensures Run(s, acts) == r && AtRest(r) && Reachable(r) && r.n == s.n
    ensures AtRest(rest) && Reachable(rest) && rest.n == s.n && rest.h.short == s.h.short
    ensures |s.h.delivered| <= |rest.h.delivered| < |r.h.delivered|
    ensures alloc == NoMemory ==> r.hr.posts == rest.hr.posts
  {
    hide Reachable, Run, Budgeted, AtRest;
    var a := Rests(s, Buffer(AREA, 1));
    rest := Run(s, a);
    RunShort(s, a);
    RunForward(s, a);
    var b, mid := OneMore(rest);
    IdleBudgeted(mid);
    var c := Rests(mid, alloc);
    r := Run(mid, c);
    acts := a + b + c;
    RunBoth(s, a + b, c);
    RunBoth(s, a, b);
    LoopsKept(mid, c);
    RestIs(rest);
    RestIs(r);
    if alloc == NoMemory {
      RunNoRefill(mid, c);
    }
  }

  lemma IdleBudgeted(s: Nic)
    ensures s.p == PIdle ==> Budgeted(s.p)
  {}

  lemma {:induction false} LoopsKept(s: Nic, acts: seq<Action>)
    requires Reachable(s)
    ensures |s.h.loops| <= |Run(s, acts).h.loops|
    decreases |acts|
  {
    hide Reachable, Step, Inv;
    if acts != [] {
      var before := acts[..|acts| - 1];
      LoopsKept(s, before);
      RunReachable(s, before);
      ReachableInv(Run(s, before));
      StepLoops(Run(s, before), acts[|acts| - 1]);
    }
  }

  lemma StepLoops(s: Nic, a: Action)
    requires Inv(s)
    ensures |s.h.loops| <= |Step(s, a).h.loops|
  {
    hide Inv, PollerRelies, EngineRelies, SenderRelies;
    if a.Work? {
      OtherStep(Polling, s, a);
      PollerLoops(s, Step(s, a));
    } else {
      OtherStep(Working, s, a);
      EngineLoops(s, Step(s, a));
    }
  }

  lemma PollerLoops(s: Nic, r: Nic)
    requires PollerRelies(s, r)
    ensures s.h.loops <= r.h.loops
  {}

  lemma EngineLoops(s: Nic, r: Nic)
    requires EngineRelies(s, r)
    ensures s.h.loops == r.h.loops
  {}

  // ------------------------------------------------------------ the two halves

  /** Some run hands up another frame if and only if failed refills have not cost all n-1 buffers. */
  lemma ReceivesExactly(s: Nic)
    requires Reachable(s) && Budgeted(s.p)
    ensures (exists acts: seq<Action> :: |Run(s, acts).h.delivered| > |s.h.delivered|) <==> s.h.short < s.n - 1
  {
    hide Reachable, Run, Budgeted;
    ShortBound(s);
    if s.h.short < s.n - 1 {
      var acts, rest, r := RestsLoopsRests(s, Buffer(AREA, 1));
      assert |Run(s, acts).h.delivered| > |s.h.delivered|;
    } else {
      forall acts: seq<Action>
        ensures |Run(s, acts).h.delivered| == |s.h.delivered|
      {
        StarvedForever(s, acts);
      }
    }
  }

  /** From every reachable state the interface can be starved: one frame after the other is sent, looped
      and harvested while there is no memory, until no buffer is left. */
  lemma {:induction false} CanStarve(s: Nic) returns (acts: seq<Action>)
    requires Reachable(s) && Budgeted(s.p)
    ensures Run(s, acts).h.short == s.n - 1 == Run(s, acts).n - 1 && Reachable(Run(s, acts))
    decreases s.n - 1 - s.h.short
  {
    hide Reachable, Run, Budgeted;
    ShortBound(s);
    if s.h.short == s.n - 1 {
      acts := [];
      NoActs(s);
    } else {
      var a, rest, r := RestsLoopsRests(s, NoMemory);
      RestIs(rest);
      RestIs(r);
      RestBooks(rest);
      RestBooks(r);
      RestIdle(r);
      ShortBound(r);
      var b := CanStarve(r);
      acts := a + b;
      RunBoth(s, a, b);
    }
  }

  lemma NoActs(s: Nic)
    ensures Run(s, []) == s
  {}

  lemma RestBooks(s: Nic)
    requires Reachable(s) && AtRest(s)
    ensures s.hr.taken == |s.h.delivered|
  {
    hide Reachable, Zones, MemOk, PostsOk, EngineOk, LoopsOk, TxSide, RxSide, StatsSide, IrqSide;
    ReachableInv(s);
  }

  lemma RestIdle(s: Nic)
    ensures AtRest(s) ==> Budgeted(s.p)
  {}

  /** So a driver can come up with all of its n-1 receive buffers out, and later never receive again
      (`EdunicFlow.StarvedForever`). */
  lemma ComesUpAndStarves(n: nat) returns (up: seq<Action>, down: seq<Action>)
    requires 2 <= n
    ensures var s := Run(Init(n), up); AtRest(s) && Reachable(s) && s.hr.tail - s.hr.clean == n - 1
    ensures Run(Init(n), up + down).h.short == n - 1 && Reachable(Run(Init(n), up + down))
  {
    hide Run, Reachable, Budgeted, AtRest, Init;
    AtStart(n);
    up := Rests(Init(n), Buffer(AREA, 1));
    var s := Run(Init(n), up);
    RunShort(Init(n), up);
    RestIs(s);
    RestIdle(s);
    down := CanStarve(s);
    RunBoth(Init(n), up, down);
  }

  lemma AtStart(n: nat)
    requires 2 <= n
    ensures Reachable(Init(n)) && Budgeted(Init(n).p) && Init(n).h.short == 0 && Init(n).n == n
  {
    assert Run(Init(n), []) == Init(n);
  }
}
