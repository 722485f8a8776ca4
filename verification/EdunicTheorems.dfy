/** What the invariant means for every run of the driver and its device. */
module EdunicTheorems {
  import opened Ring
  import opened Memory
  import opened Edunic
  import opened EdunicInvariant
  import opened EdunicKeeps

  /** `s` is the state after some interleaving of the agents, for some ring size. */
  ghost predicate Reachable(s: Nic) {
    exists n: nat, acts: seq<Action> :: 2 <= n && Run(Init(n), acts) == s
  }

  lemma ReachableInv(s: Nic)
    requires Reachable(s)
    ensures Inv(s)
  {
    hide Inv, Run, Init;
    var n: nat, acts: seq<Action> :| 2 <= n && Run(Init(n), acts) == s;
    Always(n, acts);
  }

  lemma ReachableStep(s: Nic, a: Action)
    requires Reachable(s)
    ensures Reachable(Step(s, a))
  {
    hide Step, Init;
    var n: nat, acts: seq<Action> :| 2 <= n && Run(Init(n), acts) == s;
    assert (acts + [a])[..|acts|] == acts;
    assert Run(Init(n), acts + [a]) == Step(s, a);
  }

  lemma StepSize(s: Nic, a: Action)
    ensures Step(s, a).n == s.n
  {
    hide Intr, Release, MapSkb, Park, UnmapSkb, WriteSkb, ReadSkb, HandUp, NewSkb, Slot, SetDesc, SetBuf, DescAt,
         BufAt, Next;
    match a
    case Xmit(_) => hide TxRoom, SkbLen, SkbData;
    case Work(_) => hide DeliverCheck, EngineCheck, EngineEnd;
    case Poll(_) => hide ReclaimCheck, ReclaimWake, RefillPublish, PollFinish;
    case _ =>
  }

  // ------------------------------------------------------------ ownership of descriptors

  /** Who may write a descriptor and its record. */
  datatype Owner = Sender | Engine | Poller

  function TxOwner(t: Track, k: nat): Owner {
    if k < t.done then Poller else if k < t.use then Engine else Sender
  }

  function RxOwner(t: Track, k: nat): Owner {
    if t.done <= k < t.tail then Engine else Poller
  }

  function Mover(a: Action): Owner {
    if a.Call? || a.Xmit? then Sender else if a.Work? then Engine else Poller
  }

  /** The counters of a ring in their order, and `k` as the only place of index `i` in the window
      that starts at next_to_clean. */
  ghost predicate Placed(n: nat, t: Track, i: nat, k: nat) {
    && 0 < n
    && t.clean <= t.taken <= t.done <= t.tail <= t.use <= |t.posts| <= t.clean + n - 1
    && t.clean <= k < t.clean + n && Slot(k, n) == i
    && forall j :: t.clean <= j < t.clean + n && Slot(j, n) == i ==> j == k
  }

  lemma PlaceOf(n: nat, t: Track, i: nat) returns (k: nat)
    requires i < n
    requires t.clean <= t.taken <= t.done <= t.tail <= t.use <= |t.posts| <= t.clean + n - 1
    ensures Placed(n, t, i, k)
  {
    k := SlotCovers(i, t.clean, n);
    forall j | t.clean <= j < t.clean + n && Slot(j, n) == i
      ensures j == k
    {
      SlotEq(j, k, n);
    }
  }

  /** At every instant each index of the transmit ring has exactly one place, and its descriptor
      and record have the one content that belongs to that place. */
  lemma TxPartition(s: Nic, i: nat) returns (k: nat)
    requires Reachable(s) && i < s.n
    ensures s.n == |s.tx.desc| == |s.tx.buf|
    ensures Placed(s.n, s.ht, i, k)
    ensures SlotOk(s.n, s.tx.desc, s.tx.buf, ViewOf(s.ht, XFill(s.x, s.m), s.p.TClear?), k)
  {
    hide Reachable, SlotOk, MemOk, RxSide, FlowSide, StatsSide, IrqSide;
    ReachableInv(s);
    k := PlaceOf(s.n, s.ht, i);
  }

  /** The same for the receive ring. */
  lemma RxPartition(s: Nic, i: nat) returns (k: nat)
    requires Reachable(s) && i < s.n
    ensures s.n == |s.rx.desc| == |s.rx.buf|
    ensures Placed(s.n, s.hr, i, k)
    ensures SlotOk(s.n, s.rx.desc, s.rx.buf, ViewOf(s.hr, AFill(s.p), s.p.RClear?), k)
  {
    hide Reachable, SlotOk, MemOk, TxSide, FlowSide, StatsSide, IrqSide;
    ReachableInv(s);
    k := PlaceOf(s.n, s.hr, i);
  }

  /** The driver's wrapped test for a free buffer is exact: RDH equals RDT precisely when no
      published receive slot is left for the device, except while RDH is about to be advanced. */
  lemma EmptyMeansEmpty(s: Nic)
    requires Reachable(s) && !s.w.WRdhUp?
    ensures s.rx.head == s.rx.tail <==> s.hr.done == s.hr.tail
  {
    hide Reachable, SlotOk, MemOk, TxSide, FlowSide, StatsSide, IrqSide;
    ReachableInv(s);
    SlotEq(s.hr.done, s.hr.tail, s.n);
  }

  predicate Touched(r: RingState, r': RingState, i: nat) {
    DescAt(r, i) != DescAt(r', i) || BufAt(r, i) != BufAt(r', i)
  }

  /** The index of a ring that the next step of an agent writes to. */
  function TxTarget(s: Nic, who: Owner): Option<nat> {
    match who
    case Sender => if s.x.XBuf? || s.x.XDesc? then Some(s.tx.ntu) else None
    case Engine => if s.w.WDone? then Some(s.w.head) else None
    case Poller => if s.p.TFree? || s.p.TClear? then Some(s.p.i) else None
  }

  function RxTarget(s: Nic, who: Owner): Option<nat> {
    match who
    case Sender => None
    case Engine => if s.w.WLen? || s.w.WMark? then Some(s.w.rh) else None
    case Poller => if s.p.RTake? || s.p.RClear? || s.p.ABuf? || s.p.ADesc? then Some(s.p.i) else None
  }

  lemma TouchesTarget(s: Nic, a: Action, i: nat)
    ensures Touched(s.tx, Step(s, a).tx, i) ==> TxTarget(s, Mover(a)) == Some(i)
    ensures Touched(s.rx, Step(s, a).rx, i) ==> RxTarget(s, Mover(a)) == Some(i)
  {
    hide XmitStep, WorkStep, PollStep, TxTarget, RxTarget, Intr;
    match a
    case Xmit(mapping) => SenderTouches(s, mapping, i);
    case Work(copied) => EngineTouches(s, copied, i);
    case Poll(alloc) => PollerTouches(s, alloc, i);
    case _ =>
  }

  lemma SenderTouches(s: Nic, mapping: Option<nat>, i: nat)
    ensures Touched(s.tx, XmitStep(s, mapping).tx, i) ==> TxTarget(s, Sender) == Some(i)
    ensures XmitStep(s, mapping).rx == s.rx
  {
    hide MaybeStop, Release, MapSkb, Park, Slot, Next, SkbData;
  }

  lemma EngineTouches(s: Nic, copied: bool, i: nat)
    ensures Touched(s.tx, WorkStep(s, copied).tx, i) ==> TxTarget(s, Engine) == Some(i)
    ensures Touched(s.rx, WorkStep(s, copied).rx, i) ==> RxTarget(s, Engine) == Some(i)
  {
    hide DeliverCheck, EngineCheck, EngineEnd, WriteSkb, ReadSkb, Slot, Next;
  }

  lemma PollerTouches(s: Nic, alloc: Alloc, i: nat)
    ensures Touched(s.tx, PollStep(s, alloc).tx, i) ==> TxTarget(s, Poller) == Some(i)
    ensures Touched(s.rx, PollStep(s, alloc).rx, i) ==> RxTarget(s, Poller) == Some(i)
  {
    hide ReclaimTake, ReclaimClear, HarvestTake, HarvestClear, RefillPark, RefillDescribe,
         RefillAlloc, PollFinish, ReclaimCheck, ReclaimWake, RefillPublish, Slot, Next, DescAt, BufAt, Unused, TxRoom;
    match s.p
    case TFree(j, packets, bytes, b) => ReclaimTouches(s, j, packets, bytes, b, i);
    case TClear(j, packets, bytes, b) => ReclaimTouches(s, j, packets, bytes, b, i);
    case RTake(j, work, b) => HarvestTouches(s, j, work, b, i);
    case RClear(j, work, b) => HarvestTouches(s, j, work, b, i);
    case AAlloc(j, left, posted, caller) => RefillTouches(s, j, left, posted, caller, 0, 0, alloc, i);
    case ABuf(j, left, posted, caller, id, dma) => RefillTouches(s, j, left, posted, caller, id, dma, alloc, i);
    case ADesc(j, left, posted, caller, id, dma) => RefillTouches(s, j, left, posted, caller, id, dma, alloc, i);
    case _ =>
      SameSlots(s.tx, PollStep(s, alloc).tx, i);
      SameSlots(s.rx, PollStep(s, alloc).rx, i);
  }

  lemma SameSlots(r: RingState, r': RingState, i: nat)
    requires r'.desc == r.desc && r'.buf == r.buf
    ensures !Touched(r, r', i)
  {}

  lemma ReclaimTouches(s: Nic, j: nat, packets: nat, bytes: nat, b: nat, i: nat)
    ensures ReclaimTake(s, j, packets, bytes, b).rx == ReclaimClear(s, j, packets, bytes, b).rx == s.rx
    ensures i != j ==> !Touched(s.tx, ReclaimTake(s, j, packets, bytes, b).tx, i)
    ensures i != j ==> !Touched(s.tx, ReclaimClear(s, j, packets, bytes, b).tx, i)
  {
    hide Release, UnmapSkb;
  }

  lemma HarvestTouches(s: Nic, j: nat, work: nat, b: nat, i: nat)
    ensures HarvestTake(s, j, work, b).tx == HarvestClear(s, j, work, b).tx == s.tx
    ensures i != j ==> !Touched(s.rx, HarvestTake(s, j, work, b).rx, i)
    ensures i != j ==> !Touched(s.rx, HarvestClear(s, j, work, b).rx, i)
  {
    hide Release, UnmapSkb, HandUp;
  }

  lemma RefillTouches(s: Nic, j: nat, left: nat, posted: nat, caller: Caller, id: nat, dma: nat, alloc: Alloc, i: nat)
    ensures RefillAlloc(s, j, left, posted, caller, alloc).tx == s.tx
    ensures RefillPark(s, j, left, posted, caller, id, dma).tx
         == RefillDescribe(s, j, left, posted, caller, id, dma).tx == s.tx
    ensures RefillAlloc(s, j, left, posted, caller, alloc).rx == s.rx
    ensures i != j ==> !Touched(s.rx, RefillPark(s, j, left, posted, caller, id, dma).rx, i)
    ensures i != j ==> !Touched(s.rx, RefillDescribe(s, j, left, posted, caller, id, dma).rx, i)
  {
    hide Park, NewSkb, MapSkb;
  }

  lemma TxTargetOwned(s: Nic, who: Owner, i: nat, k: nat)
    requires Inv(s) && TxTarget(s, who) == Some(i) && Placed(s.n, s.ht, i, k)
    ensures TxOwner(s.ht, k) == who
  {
    hide Zones, MemOk, RxSide, FlowSide, StatsSide, IrqSide, Slot;
    ZoneBounds(s.n, s.tx.desc, s.tx.buf, ViewOf(s.ht, XFill(s.x, s.m), s.p.TClear?));
    match who
    case Sender => assert Slot(s.ht.use, s.n) == i;
    case Engine => assert Slot(s.ht.done, s.n) == i;
    case Poller => assert if s.p.TFree? then Slot(s.ht.taken, s.n) == i else Slot(s.ht.taken - 1, s.n) == i;
  }

  lemma RxTargetOwned(s: Nic, who: Owner, i: nat, k: nat)
    requires Inv(s) && RxTarget(s, who) == Some(i) && Placed(s.n, s.hr, i, k)
    ensures RxOwner(s.hr, k) == who
  {
    hide Zones, MemOk, TxSide, FlowSide, StatsSide, IrqSide, Slot;
    match who
    case Sender =>
    case Engine => assert Slot(s.hr.done, s.n) == i;
    case Poller =>
      assert if s.p.RTake? then Slot(s.hr.taken, s.n) == i
        else if s.p.RClear? then Slot(s.hr.taken - 1, s.n) == i
        else Slot(|s.hr.posts|, s.n) == i;
  }

  /** Only the owner of a slot ever writes its descriptor or its record. */
  lemma OnlyOwnersWrite(s: Nic, a: Action, i: nat, k: nat)
    requires Reachable(s) && i < s.n
    ensures Touched(s.tx, Step(s, a).tx, i) && Placed(s.n, s.ht, i, k) ==> TxOwner(s.ht, k) == Mover(a)
    ensures Touched(s.rx, Step(s, a).rx, i) && Placed(s.n, s.hr, i, k) ==> RxOwner(s.hr, k) == Mover(a)
  {
    hide Reachable, Inv, Step, Placed, Touched, TxOwner, RxOwner, TxTarget, RxTarget;
    ReachableInv(s);
    TouchesTarget(s, a, i);
    if TxTarget(s, Mover(a)) == Some(i) && Placed(s.n, s.ht, i, k) {
      TxTargetOwned(s, Mover(a), i, k);
    }
    if RxTarget(s, Mover(a)) == Some(i) && Placed(s.n, s.hr, i, k) {
      RxTargetOwned(s, Mover(a), i, k);
    }
  }
}
