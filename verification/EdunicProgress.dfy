/** Nothing gets stuck: wakeups, doorbells, completions, and the state at rest. */
module EdunicProgress {
  import opened Ring
  import opened Memory
  import opened Edunic
  import opened EdunicCauses
  import opened EdunicInvariant
  import opened EdunicKeeps
  import opened EdunicTheorems
  import opened EdunicFlow

  // ------------------------------------------------------------ queue stop and wake

  /** xmit has stopped the queue and is going to look at the ring again, or to wake the queue. */
  predicate SenderMayWake(x: XmitPc) {
    x.XRecheck? || x.XWake? || x == XRecheck2 || x == XWake2
  }

  /** The poll has published next_to_clean and is still going to test for a stopped queue. */
  predicate PollerMayWake(p: PollPc) {
    p.TStat? || p.TStopped? || p.TRoom? || p.TWake?
  }

  /** No lost wakeup: when neither side is in the middle of its sequence, a stopped queue means
      that the ring has no unused slot. */
  lemma NoLostWakeup(s: Nic)
    requires Reachable(s) && s.stopped && !SenderMayWake(s.x) && !PollerMayWake(s.p)
    ensures 0 < s.n && Unused(s.tx.ntc, s.tx.ntu, s.n) == 0
    ensures s.ht.use - s.ht.clean == s.n - 1
  {
    hide Reachable, Zones, MemOk, RxSide, WorkOk, CleanTxOk, FlowSide, StatsSide, IrqSide, Unused;
    ReachableInv(s);
    RoomIsRoom(s);
    ZoneBounds(s.n, s.tx.desc, s.tx.buf, ViewOf(s.ht, XFill(s.x, s.m), s.p.TClear?));
    UnusedCounts(s.ht.clean, s.ht.use, s.n);
  }

  /** xmit fills a slot only while the ring has one to spare, and so never overtakes next_to_clean. */
  lemma NeverOverfilled(s: Nic)
    requires Reachable(s)
    ensures s.x.XBuf? || s.x.XDesc? || s.x.XUse? ==> 0 < s.n && Unused(s.tx.ntc, s.tx.ntu, s.n) >= 1
    ensures s.ht.clean <= s.ht.use <= s.ht.clean + s.n - 1
  {
    hide Reachable, Zones, MemOk, RxSide, WorkOk, CleanTxOk, FlowSide, StatsSide, IrqSide, Unused;
    ReachableInv(s);
    ZoneBounds(s.n, s.tx.desc, s.tx.buf, ViewOf(s.ht, XFill(s.x, s.m), s.p.TClear?));
    UnusedCounts(s.ht.clean, s.ht.use, s.n);
  }

  // ------------------------------------------------------------ the doorbell

  /** No lost doorbell: frames announced by TDT that the current or last DMA run does not cover
      have a run queued, unless xmit is between its doorbell and the kick, or the run that just
      started has not read TDT yet. */
  lemma NoLostDoorbell(s: Nic)
    requires Reachable(s) && s.ht.tail > s.h.cover && s.x != XKick && s.w != WHead && !s.w.WTail?
    ensures s.work
  {
    hide Reachable, TxSide, RxSide, MemOk, FlowSide, StatsSide, IrqSide;
    ReachableInv(s);
  }

  /** TDH is written once per run, so that it lags behind while slots are already reclaimed and reused;
      but whenever a run reads it, it names the first frame that no run has passed, and inside a run
      the engine's own head does. So no frame is skipped or passed twice. */
  lemma LagIsHarmless(s: Nic)
    requires Reachable(s) && 0 < s.n
    ensures s.w == WHead ==> s.tx.head == Slot(s.ht.done, s.n)
    ensures s.w.WTail? || s.w.WLoop? || Busy(s.w) ==> s.w.head == Slot(s.ht.done, s.n)
    ensures Busy(s.w) ==> s.ht.taken <= s.ht.done < s.ht.tail
    ensures s.ht.head <= s.ht.done == |s.h.fates|
  {
    hide Reachable, Zones, MemOk, RxSide, CleanTxOk, PostsOk, EngineOk, LoopsOk, StatsSide, IrqSide;
    ReachableInv(s);
    ZoneBounds(s.n, s.tx.desc, s.tx.buf, ViewOf(s.ht, XFill(s.x, s.m), s.p.TClear?));
  }

  /** A DMA run covers exactly the frames up to its snapshot of TDT: what is left of it is the
      masked distance from its head to that snapshot, and it ends with none left. */
  lemma RunCovers(s: Nic)
    requires Reachable(s) && s.w.WLoop? && 0 < s.n
    ensures s.ht.done <= s.h.cover <= s.ht.tail
    ensures s.h.cover - s.ht.done == (s.w.tail - s.w.head + s.n) % s.n
    ensures s.w.head == s.w.tail <==> s.ht.done == s.h.cover
  {
    hide Reachable, Zones, MemOk, TxOk, RxSide, CleanTxOk, FlowSide, StatsSide, IrqSide;
    ReachableInv(s);
    SnapshotSpan(s);
    SlotDistance(s.ht.done, s.h.cover, s.n);
    SlotEq(s.ht.done, s.h.cover, s.n);
    var d := s.w.tail - s.w.head + s.n;
    if d < s.n {
      SmallMod(d, s.n);
    } else {
      OneTurn(d, s.n);
    }
  }

  // ------------------------------------------------------------ NAPI

  /** NAPI is scheduled for one reason at a time: it is on the list, being polled, or claimed by
      one interrupt handler that has yet to list it. */
  lemma ScheduledOnce(s: Nic)
    requires Reachable(s)
    ensures s.irq.sched <==> s.irq.listed || LookOf(s.p) != Off || Claimed(EngineIsr(s.w)) || Claimed(TimerIsr(s.t))
    ensures !(s.irq.listed && LookOf(s.p) != Off)
    ensures !(Claimed(EngineIsr(s.w)) && (s.irq.listed || LookOf(s.p) != Off || Claimed(TimerIsr(s.t))))
    ensures !(Claimed(TimerIsr(s.t)) && (s.irq.listed || LookOf(s.p) != Off))
    ensures s.irq.missed ==> s.irq.sched
    ensures !s.irq.open ==> s.irq.sched || s.unmasks > 0
  {
    hide Reachable, TxSide, RxSide, MemOk, FlowSide, StatsSide, NoStranded;
    ReachableInv(s);
  }

  /** A completion is never stranded: while a slot of either ring is done and not yet harvested,
      NAPI is scheduled, or an interrupt handler call that will schedule it is on its way. */
  lemma NothingStranded(s: Nic)
    requires Reachable(s) && (s.ht.taken < s.ht.done || s.hr.taken < s.hr.done)
    ensures s.irq.sched || EngineOwes(s.w) || Owes(s.irq, EngineIsr(s.w)) || Owes(s.irq, TimerIsr(s.t))
  {
    hide Reachable, TxSide, RxSide, MemOk, FlowSide, StatsSide, LookOf, EngineOwes, EngineIsr, TimerIsr;
    ReachableInv(s);
  }

  /** A poll that does not use up its budget leaves the receive ring only when the next slot was
      not done, and whatever completes behind its back makes it be polled again. */
  lemma PollEndsClean(s: Nic)
    requires Reachable(s) && LookOf(s.p) == Past(false) && (s.ht.taken < s.ht.done || s.hr.taken < s.hr.done)
    ensures s.irq.missed || EngineOwes(s.w) || Owes(s.irq, EngineIsr(s.w)) || Owes(s.irq, TimerIsr(s.t))
  {
    hide Reachable, TxSide, RxSide, MemOk, FlowSide, StatsSide, LookOf, EngineOwes, EngineIsr, TimerIsr;
    ReachableInv(s);
  }

  // ------------------------------------------------------------ at rest

  /** No agent has anything to do. */
  predicate AtRest(s: Nic) {
    s.x == XIdle && s.w == WIdle && !s.work && s.p == PIdle && !s.irq.listed && s.t == TIdle && s.unmasks == 0
  }

  /** When the agents come to rest, the work is done: every frame posted was passed by the engine
      and its skb consumed, every frame looped was handed up, the queue is running, no NAPI
      poll is due, interrupts are unmasked, a link that is up is known, and the counters balance. */
  lemma RestMeansDone(s: Nic)
    requires Reachable(s) && AtRest(s)
    ensures s.ht.clean == s.ht.done == s.ht.use == |s.h.frames| == |s.h.fates|
    ensures forall k :: 0 <= k < |s.ht.posts| ==>
              s.ht.posts[k].skb < |s.m.skbs| && s.m.skbs[s.ht.posts[k].skb].life == Released(Consumed)
    ensures s.h.delivered == s.h.loops == LoopsOf(s.h.frames, s.h.fates)
    ensures !s.stopped && !s.irq.sched && s.irq.open && (s.irq.link ==> s.irq.carrier)
    ensures s.st.txPackets == |s.h.frames| && s.st.txBytes == SumFrames(s.h.frames)
  {
    RestNapi(s);
    LinkInv(s);
    RestRings(s);
    RestFlow(s);
  }

  lemma RestNapi(s: Nic)
    requires Reachable(s) && AtRest(s)
    ensures !s.irq.sched && s.irq.open
    ensures s.ht.taken == s.ht.done && s.hr.taken == s.hr.done
  {
    hide Reachable, MemOk, FlowSide, StatsSide, SlotOk, WorkOk, CleanTxOk, CleanRxOk, DeliverOk, RefillOk;
    ReachableInv(s);
  }

  lemma RestRings(s: Nic)
    requires Reachable(s) && AtRest(s) && s.ht.taken == s.ht.done
    ensures s.ht.clean == s.ht.done == s.ht.use == |s.ht.posts| && !s.stopped
  {
    hide Reachable, Zones, RxSide, MemOk, FlowSide, StatsSide, IrqSide;
    ReachableInv(s);
  }

  lemma RestFlow(s: Nic)
    requires Reachable(s) && AtRest(s) && s.hr.taken == s.hr.done
    requires s.ht.clean == s.ht.taken == s.ht.done == s.ht.use == |s.ht.posts|
    ensures |s.h.frames| == |s.h.fates| == |s.ht.posts|
    ensures forall k :: 0 <= k < |s.ht.posts| ==>
              s.ht.posts[k].skb < |s.m.skbs| && s.m.skbs[s.ht.posts[k].skb].life == Released(Consumed)
    ensures s.h.delivered == s.h.loops == LoopsOf(s.h.frames, s.h.fates)
    ensures s.st.txPackets == |s.h.frames| && s.st.txBytes == SumFrames(s.h.frames)
  {
    hide Reachable, TxSide, RxSide, IrqSide, LoopsOf, SumFrames, SumLen, RxSkb, Owned, Starts;
    ReachableInv(s);
    SumLenIs(s.ht.posts, s.h.frames);
    assert s.ht.posts[..s.ht.taken] == s.ht.posts;
    forall k | 0 <= k < |s.ht.posts|
      ensures s.ht.posts[k].skb < |s.m.skbs| && s.m.skbs[s.ht.posts[k].skb].life == Released(Consumed)
    {
      assert TxSkb(s.m, s.ht.posts[k].skb, k, s.ht.posts[k], s.h.frames[k], true);
    }
  }
}
