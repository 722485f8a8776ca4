/** What becomes of every frame and of every skb, in every run. */
module EdunicFlow {
  import opened Ring
  import opened Memory
  import opened Edunic
  import opened EdunicInvariant
  import opened EdunicKeeps
  import opened EdunicTheorems

  // ------------------------------------------------------------ the frames the DMA engine passes

  predicate Increasing(idx: seq<nat>, bound: nat) {
    && (forall j :: 0 <= j < |idx| ==> idx[j] < bound)
    && (forall i, j :: 0 <= i < j < |idx| ==> idx[i] < idx[j])
  }

  /** `out` is what the frames at the positions `idx` look like at the receiver. */
  ghost predicate Picks(idx: seq<nat>, frames: seq<Frame>, out: seq<Frame>) {
    && |idx| == |out|
    && Increasing(idx, |frames|)
    && (forall j :: 0 <= j < |idx| ==> out[j] == Carried(frames[idx[j]]))
  }

  /** The positions of the looped frames. */
  function Looping(fates: seq<Fate>): (idx: seq<nat>)
    ensures Increasing(idx, |fates|)
    decreases |fates|
  {
    if fates == [] then []
    else
      var before := Looping(fates[..|fates| - 1]);
      if fates[|fates| - 1] == Looped then before + [|fates| - 1] else before
  }

  lemma {:induction false} LoopingAll(fates: seq<Fate>, k: nat)
    requires k < |fates|
    ensures k in Looping(fates) <==> fates[k] == Looped
    decreases |fates|
  {
    var last := |fates| - 1;
    var before := Looping(fates[..last]);
    if k < last {
      LoopingAll(fates[..last], k);
      assert k in before + [last] <==> k in before;
    }
  }

  lemma {:induction false} LoopsPicked(frames: seq<Frame>, fates: seq<Fate>)
    requires |fates| <= |frames|
    ensures Picks(Looping(fates), frames, LoopsOf(frames, fates))
    decreases |fates|
  {
    hide Carried;
    if fates != [] {
      LoopsPicked(frames, fates[..|fates| - 1]);
    }
  }

  /** Each frame the engine has passed met exactly one fate. */
  lemma {:induction false} OneFateEach(fates: seq<Fate>)
    ensures Count(fates, Looped) + Count(fates, RxDropped) + Count(fates, CopyFailed) + Count(fates, Skipped) == |fates|
    decreases |fates|
  {
    if fates != [] {
      OneFateEach(fates[..|fates| - 1]);
    }
  }

  lemma {:induction false} LoopsCounted(frames: seq<Frame>, fates: seq<Fate>)
    requires |fates| <= |frames|
    ensures |LoopsOf(frames, fates)| == Count(fates, Looped)
    decreases |fates|
  {
    if fates != [] {
      LoopsCounted(frames, fates[..|fates| - 1]);
    }
  }

  /** How many bytes of a frame arrive. */
  function Shortened(length: nat): nat {
    if length % 65536 > 2048 then 2048 else length % 65536
  }

  lemma CarriedIs(frame: Frame)
    ensures Carried(frame) <= frame && |Carried(frame)| == Shortened(|frame|)
  {}

  /** The stack receives an order-preserving subsequence of the frames posted; each frame that
      fits a receive buffer arrives byte for byte, and of a longer one what its 16-bit length and one buffer
      hold. What was looped but not yet handed up sits
      in the receive buffers whose DD bit is set. */
  lemma InOrder(s: Nic) returns (idx: seq<nat>)
    requires Reachable(s)
    ensures s.hr.taken <= s.hr.done == |s.h.loops| && s.h.delivered == s.h.loops[..s.hr.taken]
    ensures Picks(idx, s.h.frames, s.h.loops)
    ensures forall j :: 0 <= j < |idx| && |s.h.frames[idx[j]]| <= RX_BUF_SIZE ==> s.h.loops[j] == s.h.frames[idx[j]]
    ensures forall j :: 0 <= j < |idx| ==>
              s.h.loops[j] <= s.h.frames[idx[j]] && |s.h.loops[j]| == Shortened(|s.h.frames[idx[j]]|)
    ensures forall k :: 0 <= k < |s.h.fates| ==> (k in idx <==> s.h.fates[k] == Looped)
    ensures forall j :: s.hr.taken <= j < s.hr.done ==>
              j < |s.hr.posts| && Starts(s.m, s.hr.posts[j].skb, s.h.loops[j])
  {
    hide Reachable, Zones, TxOk, WorkOk, CleanTxOk, RxOk, CleanRxOk, RefillOk, PostsOk, EngineOk, StatsSide, IrqSide,
         LoopsOf, Carried, Count;
    ReachableInv(s);
    LoopsPicked(s.h.frames, s.h.fates);
    var looped := Looping(s.h.fates);
    idx := if Unrecorded(s.w) then looped + [|s.h.fates|] else looped;
    forall j | 0 <= j < |idx|
      ensures s.h.loops[j] <= s.h.frames[idx[j]] && |s.h.loops[j]| == Shortened(|s.h.frames[idx[j]]|)
    {
      CarriedIs(s.h.frames[idx[j]]);
    }
    forall k | 0 <= k < |s.h.fates|
      ensures k in idx <==> s.h.fates[k] == Looped
    {
      LoopingAll(s.h.fates, k);
      assert k in looped + [|s.h.fates|] <==> k in looped;
    }
  }

  /** Every frame passed is delivered, waiting in the receive ring, or counted as lost: dropped for
      want of a buffer (`rx_dropped`), lost with its copy, or skipped, and it is skipped
      exactly when it has DMA address zero or a length that is zero in 16 bits. */
  lemma Accounted(s: Nic)
    requires Reachable(s)
    ensures s.ht.done == |s.h.fates| <= |s.h.frames| == |s.ht.posts| == s.ht.use
    ensures |s.h.fates| + One(Unrecorded(s.w)) ==
      |s.h.delivered| + (s.hr.done - s.hr.taken)
      + Count(s.h.fates, RxDropped) + Count(s.h.fates, CopyFailed) + Count(s.h.fates, Skipped)
    ensures s.st.rxDropped == Count(s.h.fates, RxDropped) + One(s.w.WDone? && s.w.fate == RxDropped)
    ensures forall k :: 0 <= k < |s.h.fates| ==>
      (s.h.fates[k] == Skipped <==> s.ht.posts[k].dma == 0 || |s.h.frames[k]| % 65536 == 0)
  {
    hide Reachable, Zones, MemOk, WorkOk, CleanTxOk, RxOk, CleanRxOk, RefillOk, EngineOk, TxStatsOk, IrqSide,
         LoopsOf, Carried, Count, SumFrames;
    ReachableInv(s);
    OneFateEach(s.h.fates);
    LoopsCounted(s.h.frames, s.h.fates);
  }

  // ------------------------------------------------------------ receive capacity

  /** Receive buffers out with the device or still to be collected fall short of n-1 by exactly
      what failed allocations have cost, and never exceed n-1. */
  lemma RxCapacity(s: Nic)
    requires Reachable(s)
    ensures s.hr.use - s.hr.clean <= s.n - 1
    ensures s.p == PIdle ==> s.hr.use - s.hr.clean == s.n - 1 - s.h.short
  {
    hide Reachable, Zones, MemOk, TxSide, CleanRxOk, DeliverOk, Regs, FlowSide, StatsSide, IrqSide;
    ReachableInv(s);
  }

  /** A failed allocation costs all the buffers that were still to be posted in its batch: so many fewer
      will be outstanding ever after. */
  lemma FailureCosts(s: Nic, alloc: Alloc)
    requires Reachable(s) && s.p.AAlloc? && !alloc.Buffer?
    ensures var r := Step(s, Poll(alloc));
            && r.h.short == s.h.short + s.p.left && Left(r.p) == 0
            && |r.hr.posts| == r.hr.clean + r.n - 1 - r.h.short
  {
    hide Reachable, Zones, MemOk, TxSide, CleanRxOk, DeliverOk, Regs, FlowSide, StatsSide, IrqSide,
         XmitStep, WorkStep, ReclaimTake, ReclaimClear, HarvestTake, HarvestClear, RefillPark, RefillDescribe;
    ReachableInv(s);
  }

  predicate AlwaysMemory(acts: seq<Action>) {
    forall i :: 0 <= i < |acts| && acts[i].Poll? ==> acts[i].alloc.Buffer?
  }

  lemma StepShort(s: Nic, a: Action)
    ensures s.h.short <= Step(s, a).h.short
    ensures (a.Poll? ==> a.alloc.Buffer?) ==> Step(s, a).h.short == s.h.short
  {
    hide Intr, Release, MapSkb, Park, UnmapSkb, WriteSkb, ReadSkb, HandUp, NewSkb, Slot, SetDesc, SetBuf, DescAt,
         BufAt, Next;
    match a
    case Xmit(_) => hide TxRoom, SkbLen, SkbData;
    case Work(_) => hide DeliverCheck, EngineCheck, EngineEnd;
    case Poll(_) => hide ReclaimCheck, ReclaimWake, RefillPublish, PollFinish;
    case _ =>
  }

  /** While allocations succeed, the full n-1 buffers stay in circulation. */
  lemma {:induction false} NothingShort(n: nat, acts: seq<Action>)
    requires 2 <= n && AlwaysMemory(acts)
    ensures Run(Init(n), acts).h.short == 0
    decreases |acts|
  {
    hide Step;
    if acts != [] {
      NothingShort(n, acts[..|acts| - 1]);
      StepShort(Run(Init(n), acts[..|acts| - 1]), acts[|acts| - 1]);
    }
  }

  /** Refills that failed are never made up for: once they have cost all n-1 buffers, the
      interface never receives again, whatever the agents do. */
  lemma {:induction false} StarvedForever(s: Nic, acts: seq<Action>)
    requires Reachable(s) && s.h.short == s.n - 1
    ensures Run(s, acts).h.delivered == s.h.delivered && Run(s, acts).h.short == s.n - 1
    ensures Reachable(Run(s, acts)) && Run(s, acts).n == s.n
    decreases |acts|
  {
    hide Step, Reachable;
    if acts != [] {
      var before, last := acts[..|acts| - 1], acts[|acts| - 1];
      StarvedForever(s, before);
      StepSize(Run(s, before), last);
      StepShort(Run(s, before), last);
      ReachableStep(Run(s, before), last);
      StarvedStep(Run(s, before), last);
    }
  }

  /** With no receive buffer anywhere, no step hands a frame to the stack. */
  lemma StarvedStep(s: Nic, a: Action)
    requires Reachable(s) && s.h.short == s.n - 1
    requires Reachable(Step(s, a)) && Step(s, a).n == s.n && s.h.short <= Step(s, a).h.short
    ensures Step(s, a).h.delivered == s.h.delivered && Step(s, a).h.short == s.h.short
  {
    hide Step, Reachable;
    Starved(s);
    ShortBound(Step(s, a));
    DeliversOnlyTaken(s, a);
  }

  lemma ShortBound(s: Nic)
    requires Reachable(s)
    ensures s.h.short <= s.n - 1
  {
    hide Reachable, MemOk, TxSide, CleanRxOk, DeliverOk, Regs, FlowSide, StatsSide, IrqSide, SlotOk;
    ReachableInv(s);
  }

  lemma Starved(s: Nic)
    requires Reachable(s) && s.h.short == s.n - 1
    ensures s.hr.clean == s.hr.taken == s.hr.done == |s.hr.posts| && !s.p.RTake?
  {
    hide Reachable, MemOk, TxSide, DeliverOk, Regs, FlowSide, StatsSide, IrqSide, SlotOk;
    ReachableInv(s);
  }

  lemma DeliversOnlyTaken(s: Nic, a: Action)
    ensures !(a.Poll? && s.p.RTake?) ==> Step(s, a).h.delivered == s.h.delivered
  {
    hide Intr, Release, MapSkb, Park, UnmapSkb, WriteSkb, ReadSkb, HandUp, NewSkb, Slot, SetDesc, SetBuf, DescAt,
         BufAt, Next;
    match a
    case Xmit(_) => hide TxRoom, SkbLen, SkbData;
    case Work(_) => hide DeliverCheck, EngineCheck, EngineEnd;
    case Poll(_) => hide ReclaimCheck, ReclaimWake, RefillPublish, PollFinish;
    case _ =>
  }

  // ------------------------------------------------------------ transmit counters

  lemma {:induction false} SumLenIs(posts: seq<Post>, frames: seq<Frame>)
    requires |posts| == |frames| && forall k :: 0 <= k < |posts| ==> posts[k].len == |frames[k]|
    ensures SumLen(posts) == SumFrames(frames)
    decreases |posts|
  {
    if posts != [] {
      SumLenIs(posts[..|posts| - 1], frames[..|frames| - 1]);
    }
  }

  lemma {:induction false} SumLenSplit(posts: seq<Post>, k: nat)
    requires k <= |posts|
    ensures SumLen(posts) == SumLen(posts[..k]) + SumLen(posts[k..])
    decreases |posts|
  {
    if k == |posts| {
      assert posts[..k] == posts;
    } else {
      SumLenSplit(posts[..|posts| - 1], k);
      assert posts[..|posts| - 1][..k] == posts[..k];
      assert posts[..|posts| - 1][k..] == posts[k..][..|posts| - 1 - k];
    }
  }

  predicate Reclaiming(p: PollPc) {
    p.TLoop? || p.TCheck? || p.TFree? || p.TClear? || p.TPub? || p.TStat?
  }

  /** Outside the reclaim loop the frames and bytes ever posted are `tx_packets` and `tx_bytes`
      plus what lies between next_to_clean and next_to_use. */
  lemma TxBooksBalance(s: Nic)
    requires Reachable(s) && !Reclaiming(s.p)
    ensures |s.h.frames| == s.st.txPackets + (s.ht.use - s.ht.clean)
    ensures s.ht.clean <= |s.ht.posts|
    ensures SumFrames(s.h.frames) == s.st.txBytes + SumLen(s.ht.posts[s.ht.clean..])
  {
    hide Reachable, Zones, MemOk, RxSide, WorkOk, EngineOk, LoopsOk, RxStatsOk, IrqSide, SumLen, SumFrames;
    ReachableInv(s);
    SumLenIs(s.ht.posts, s.h.frames);
    SumLenSplit(s.ht.posts, s.ht.clean);
  }

  // ------------------------------------------------------------ skbs

  /** No skb is ever used against the kernel's contract: none is missing, freed, unmapped
      twice, unmapped with other values than it was mapped with, or copied beyond its end. */
  lemma NeverMisused(s: Nic)
    requires Reachable(s)
    ensures !s.m.fault
  {
    hide Reachable, TxSide, RxSide, FlowSide, StatsSide, IrqSide;
    ReachableInv(s);
  }

  /** One skb lies in the slot numbered k of the transmit ring. */
  predicate InTxRing(s: Nic, id: nat, k: nat) {
    s.ht.taken <= k < |s.ht.posts| && s.ht.posts[k].skb == id
  }

  predicate InRxRing(s: Nic, id: nat, k: nat) {
    s.hr.taken <= k < |s.hr.posts| && s.hr.posts[k].skb == id
  }

  predicate InHand(h: Hold, id: nat) {
    h != Nothing && !h.Bare? && h.id == id
  }

  /** An skb is mapped exactly while it lies in one slot of one ring or an agent has it in hand. */
  lemma MappedExactly(s: Nic, id: nat)
    requires Reachable(s) && id < |s.m.skbs|
    ensures s.m.skbs[id].life.Mapped? <==>
      || (exists k :: InTxRing(s, id, k)) || (exists k :: InRxRing(s, id, k))
      || InHand(XHold(s.x), id) || InHand(AHold(s.p), id)
    ensures forall j, k :: InTxRing(s, id, j) && InTxRing(s, id, k) ==> j == k
    ensures forall j, k :: InRxRing(s, id, j) && InRxRing(s, id, k) ==> j == k
    ensures forall j, k :: !(InTxRing(s, id, j) && InRxRing(s, id, k))
  {
    hide Reachable, TxSide, RxSide, FlowSide, StatsSide, IrqSide;
    ReachableInv(s);
    var m, b := s.m, BooksOf(s);
    assert Owned(m.skbs[id], id, b);
    match m.skbs[id].place
    case Nowhere =>
    case InTx(k) =>
      assert k < |b.tp| ==> TxSkb(m, b.tp[k].skb, k, b.tp[k], b.frames[k], k < b.tt);
      assert k < |b.tp| && m.skbs[id].life.Mapped? ==> InTxRing(s, id, k);
    case InRx(k) =>
      assert k < |b.rp| ==> RxSkb(m, b.rp[k].skb, k, b.rp[k], k < b.rt);
      assert k < |b.rp| && m.skbs[id].life.Mapped? ==> InRxRing(s, id, k);
  }
}
