/** What one access of each loop of the driver does, as its thread sees it. */
module EdunicRounds {
  import opened Ring
  import opened Memory
  import opened Edunic
  import opened EdunicInvariant
  import opened EdunicKeeps
  import opened EdunicTheorems
  import opened EdunicRely
  import opened EdunicAccepted
  import opened EdunicSettles

  /** `r` is reached from `s` by one step of the thread and then any steps of the others. */
  ghost predicate Moved(who: Who, s: Nic, a: Action, r: Nic) {
    Reachable(s) && Reachable(r) && Relies(who, Step(s, a), r)
  }

  /** Posting buffers, probe can rely on all that the poll callback can. */
  lemma RefillMoved(who: Who, s: Nic, a: Action, r: Nic)
    requires Moved(who, s, a, r) && (who == Polling || who == Probing)
    ensures Moved(Polling, s, a, r)
    ensures who == Probing ==> r == Step(s, a)
  {
    hide Reachable, Step;
    ReliesRefl(Polling, r);
  }

  /** The other agents have not moved. */
  predicate Alone(s0: Nic, s: Nic) {
    s.x == s0.x && s.w == s0.w && s.ht == s0.ht && s.h == s0.h.(short := s.h.short)
  }

  // ------------------------------------------------------------ edunic_clean_tx_irq

  /** The receive side as a poll leaves it while it works on the transmit side. */
  predicate RxUntouched(s0: Nic, s: Nic) {
    && s.n == s0.n && s.rx.ntc == s0.rx.ntc && s.hr.clean == s0.hr.clean && s0.hr.done <= s.hr.done
    && s.h.delivered == s0.h.delivered
  }

  /** The reclaim loop has taken `packets` slots since `s0`, and nothing else of its was changed. */
  predicate Reclaimed(s0: Nic, s: Nic, packets: nat) {
    && RxUntouched(s0, s)
    && s.ht.clean == s0.ht.clean && s.ht.taken == s.ht.clean + packets && packets < s.n
    && s0.ht.done <= s.ht.done && s0.ht.posts <= s.ht.posts && s.st.txPackets == s0.st.txPackets
  }

  lemma ReclaimBounds(s: Nic)
    requires Inv(s) && (s.p.TLoop? || s.p.TCheck? || s.p.TFree? || s.p.TClear? || s.p.TPub?)
    ensures s.p.i < s.n && s.ht.clean + s.p.packets == s.ht.taken && s.p.packets < s.n
    ensures s.p.TLoop? && s.p.i == s.tx.ntu ==> s.ht.done <= s.ht.taken
    ensures s.p.TCheck? && !DescAt(s.tx, s.p.i).done ==> s.ht.done <= s.ht.taken
  {
    hide MemOk, RxSide, FlowSide, StatsSide, IrqSide, WorkOk, SlotOk;
    var v := ViewOf(s.ht, XFill(s.x, s.m), s.p.TClear?);
    ZoneBounds(s.n, s.tx.desc, s.tx.buf, v);
    if s.p.TLoop? {
      SlotEq(s.ht.taken, s.ht.use, s.n);
    } else if s.p.TCheck? {
      FirstDone(s, v);
    }
  }

  lemma ReclaimStarts(s: Nic)
    requires Reachable(s) && s.p.TLoop? && s.p.packets == 0
    ensures Reclaimed(s, s, 0)
  {
    hide Reachable, Inv;
    ReachableInv(s);
    ReclaimBounds(s);
  }

  lemma FirstDone(s: Nic, v: View)
    requires Zones(s.n, s.tx.desc, s.tx.buf, v) && !v.dirty
    ensures v.a < v.lo + s.n && (DescAt(s.tx, Slot(v.a, s.n)).done <==> v.a < v.b)
  {
    assert SlotOk(s.n, s.tx.desc, s.tx.buf, v, v.a);
  }

  /** Where the reclaim loop goes on after its two tests. */
  function AfterLoop(s: Nic): PollPc
    requires s.p.TLoop?
  {
    var p := s.p;
    if p.i != s.tx.ntu then TCheck(p.i, p.packets, p.bytes, p.budget) else TPub(p.i, p.packets, p.bytes, p.budget)
  }

  function AfterCheck(s: Nic): PollPc
    requires s.p.TCheck?
  {
    var p := s.p;
    if DescAt(s.tx, p.i).done then TFree(p.i, p.packets, p.bytes, p.budget) else TPub(p.i, p.packets, p.bytes, p.budget)
  }

  lemma ReclaimStep(s: Nic)
    ensures var r := Step(s, Poll(NoMemory));
            s.p.TLoop? ==> r == s.(p := AfterLoop(s))
    ensures var r := Step(s, Poll(NoMemory));
            s.p.TCheck? ==> r == s.(p := AfterCheck(s))
    ensures var r := Step(s, Poll(NoMemory));
            s.p.TFree? ==>
              && r.p == TClear(s.p.i, s.p.packets + 1, s.p.bytes + BufAt(s.tx, s.p.i).len, s.p.budget)
              && r.ht == s.ht.(taken := s.ht.taken + 1) && r.st == s.st && r.n == s.n && r.rx == s.rx
              && r.hr == s.hr && r.h == s.h
    ensures var r := Step(s, Poll(NoMemory));
            s.p.TClear? ==>
              && r.p == TLoop(Next(s.p.i, s.n), s.p.packets, s.p.bytes, s.p.budget)
              && r.ht == s.ht && r.st == s.st && r.n == s.n && r.rx == s.rx && r.hr == s.hr && r.h == s.h
  {
    hide XmitStep, WorkStep, Release, UnmapSkb, SetBuf, SetDesc, DescAt, BufAt, Next,
         HarvestCheck, HarvestTake, HarvestClear, HarvestPublish, RefillAlloc, RefillPark, RefillDescribe,
         RefillPublish, PollFinish;
  }

  lemma ReclaimNext(s0: Nic, s: Nic, r: Nic)
    requires Moved(Polling, s, Poll(NoMemory), r)
    requires s.p.TLoop? || s.p.TCheck? || s.p.TFree? || s.p.TClear?
    requires Reclaimed(s0, s, s.p.packets)
    ensures s.p.TLoop? ==> r.p == AfterLoop(s)
    ensures s.p.TCheck? ==> r.p == AfterCheck(s)
    ensures s.p.TFree? ==> r.p == TClear(s.p.i, s.p.packets + 1, s.p.bytes + BufAt(s.tx, s.p.i).len, s.p.budget)
    ensures s.p.TClear? ==> r.p == TLoop(Next(s.p.i, s.n), s.p.packets, s.p.bytes, s.p.budget)
    ensures Reclaimed(s0, r, r.p.packets)
    ensures r.p.TPub? ==> s0.ht.done <= r.ht.taken
  {
    hide Reachable, Inv, Step, DescAt, BufAt, Next;
    ReachableInv(s);
    ReachableInv(r);
    ReclaimStep(s);
    ReclaimBounds(s);
    ReclaimBounds(r);
  }

  /** The counters after edunic_clean_tx_irq: `packets` more than before, and in balance. */
  predicate Booked(s0: Nic, s: Nic, packets: nat) {
    && RxUntouched(s0, s)
    && s.ht.clean == s.ht.taken == s0.ht.clean + packets && packets < s.n
    && s0.ht.done <= s.ht.clean <= |s.ht.posts| && s.st.txPackets == s0.st.txPackets + packets
    && s.st.txPackets == s.ht.clean && s.st.txBytes == SumLen(s.ht.posts[..s.ht.clean])
  }

  lemma BooksInv(s: Nic)
    requires Inv(s) && (s.p.TStopped? || s.p.TRoom? || s.p.TWake? || (s.p.RCheck? && s.p.work == 0))
    ensures s.ht.clean == s.ht.taken <= |s.ht.posts| && s.st.txPackets == s.ht.taken
    ensures s.st.txBytes == SumLen(s.ht.posts[..s.ht.taken])
  {
    hide Zones, MemOk, RxSide, FlowSide, IrqSide, WorkOk, RxStatsOk, Regs, SumLen;
  }

  lemma WakeStep(s: Nic)
    ensures var r := Step(s, Poll(NoMemory));
            s.p.TPub? ==>
              && r.p == (if s.p.packets > 0 then TStat(s.p.packets, s.p.bytes, s.p.budget)
                         else RCheck(s.rx.ntc, 0, s.p.budget))
              && r.ht == s.ht.(clean := s.ht.taken) && r.st == s.st && r.n == s.n && r.rx == s.rx
              && r.hr == s.hr && r.h == s.h
    ensures var r := Step(s, Poll(NoMemory));
            s.p.TStat? ==>
              && r.p == TStopped(s.p.budget) && r.ht == s.ht && r.n == s.n && r.rx == s.rx && r.hr == s.hr && r.h == s.h
              && r.st == s.st.(txPackets := s.st.txPackets + s.p.packets, txBytes := s.st.txBytes + s.p.bytes)
    ensures var r := Step(s, Poll(NoMemory));
            s.p.TStopped? ==> r == s.(p := if s.stopped then TRoom(s.p.budget) else RCheck(s.rx.ntc, 0, s.p.budget))
    ensures var r := Step(s, Poll(NoMemory));
            s.p.TRoom? ==> r == s.(p := if TxRoom(s) then TWake(s.p.budget) else RCheck(s.rx.ntc, 0, s.p.budget))
    ensures var r := Step(s, Poll(NoMemory));
            s.p.TWake? ==> r == s.(stopped := false, p := RCheck(s.rx.ntc, 0, s.p.budget))
  {
    hide XmitStep, WorkStep, TxRoom, ReclaimTake, ReclaimClear,
         HarvestCheck, HarvestTake, HarvestClear, HarvestPublish, RefillAlloc, RefillPark, RefillDescribe,
         RefillPublish, PollFinish;
  }

  /** The counters change once, after next_to_clean is published. */
  lemma WakeNext(s0: Nic, s: Nic, r: Nic, packets: nat)
    requires Moved(Polling, s, Poll(NoMemory), r)
    requires if s.p.TPub? then Reclaimed(s0, s, packets) && s.p.packets == packets && s0.ht.done <= s.ht.taken
             else if s.p.TStat? then
               && s.p.packets == packets && RxUntouched(s0, s) && packets < s.n
               && s.ht.clean == s.ht.taken == s0.ht.clean + packets && s0.ht.done <= s.ht.taken
               && s.st.txPackets == s0.st.txPackets
             else (s.p.TStopped? || s.p.TRoom? || s.p.TWake?) && Booked(s0, s, packets)
    ensures s.p.TPub? ==>
      r.p == if packets > 0 then TStat(packets, s.p.bytes, s.p.budget) else RCheck(s0.rx.ntc, 0, s.p.budget)
    ensures s.p.TPub? && packets > 0 ==>
              && RxUntouched(s0, r)
              && r.ht.clean == r.ht.taken == s0.ht.clean + packets && s0.ht.done <= r.ht.taken
              && r.st.txPackets == s0.st.txPackets
    ensures s.p.TStat? ==> r.p == TStopped(s.p.budget)
    ensures s.p.TStopped? ==> r.p == if s.stopped then TRoom(s.p.budget) else RCheck(s0.rx.ntc, 0, s.p.budget)
    ensures s.p.TRoom? ==> r.p == if TxRoom(s) then TWake(s.p.budget) else RCheck(s0.rx.ntc, 0, s.p.budget)
    ensures s.p.TWake? ==> r.p == RCheck(s0.rx.ntc, 0, s.p.budget)
    ensures !r.p.TStat? ==> Booked(s0, r, packets)
  {
    hide Reachable, Inv, Step, TxRoom, SumLen;
    ReachableInv(s);
    ReachableInv(r);
    WakeStep(s);
    if !r.p.TStat? {
      BooksInv(r);
    }
  }

  // ------------------------------------------------------------ edunic_clean_rx_irq

  /** The harvest has handed up `work` frames since `s0`. */
  predicate Harvested(s0: Nic, s: Nic, work: nat) {
    && s.n == s0.n && s.rx.ntu == s0.rx.ntu && s.ht.clean == s0.ht.clean
    && s.hr.clean == s0.hr.clean && s.hr.taken == s.hr.clean + work
    && s0.hr.done <= s.hr.done && s0.h.loops <= s.h.loops
    && s.hr.posts == s0.hr.posts && s.h.short == s0.h.short
    && s.st.rxPackets == s0.st.rxPackets + work
  }

  lemma HarvestBounds(s: Nic)
    requires Inv(s) && (s.p.RCheck? || s.p.RTake? || s.p.RClear? || s.p.RPub?)
    ensures s.p.i < s.n && s.p.work <= s.p.budget
    ensures s.hr.taken == s.hr.clean + s.p.work + One(s.p.RClear?)
    ensures s.p.RCheck? && !DescAt(s.rx, s.p.i).done ==> s.hr.done <= s.hr.taken
  {
    hide MemOk, TxSide, FlowSide, StatsSide, IrqSide, WorkOk, SlotOk;
    if s.p.RCheck? {
      HarvestSlot(s);
    }
  }

  lemma HarvestStep(s: Nic)
    ensures var r := Step(s, Poll(NoMemory));
            s.p.RCheck? ==>
              r == s.(p := if s.p.work < s.p.budget && DescAt(s.rx, s.p.i).done then RTake(s.p.i, s.p.work, s.p.budget)
                           else RPub(s.p.i, s.p.work, s.p.budget))
    ensures var r := Step(s, Poll(NoMemory));
            s.p.RTake? && !DescAt(s.rx, s.p.i).error ==>
              && r.p == RClear(s.p.i, s.p.work, s.p.budget)
              && r.hr == s.hr.(taken := s.hr.taken + 1) && r.n == s.n && r.rx.ntu == s.rx.ntu && r.ht == s.ht
              && r.h.loops == s.h.loops && r.h.short == s.h.short && r.st.rxPackets == s.st.rxPackets + 1
    ensures var r := Step(s, Poll(NoMemory));
            s.p.RClear? ==>
              && r.p == RCheck(Next(s.p.i, s.n), s.p.work + 1, s.p.budget)
              && r.hr == s.hr && r.h == s.h && r.st == s.st && r.n == s.n && r.rx.ntu == s.rx.ntu && r.ht == s.ht
    ensures var r := Step(s, Poll(NoMemory));
            s.p.RPub? ==>
              && r.p == (if s.p.work > 0 then AAlloc(s.rx.ntu, s.p.work, 0, Harvest(s.p.work, s.p.budget))
                         else PDone(Harvest(0, s.p.budget)))
              && r.hr == s.hr.(clean := s.hr.taken) && r.h == s.h && r.st == s.st && r.n == s.n
              && r.rx.ntu == s.rx.ntu && r.ht == s.ht
  {
    hide XmitStep, WorkStep, Release, UnmapSkb, HandUp, DescAt, BufAt, Next, ReclaimTake, ReclaimClear, ReclaimCheck,
         ReclaimPublish,
         ReclaimWake, RefillAlloc, RefillPark, RefillDescribe, RefillPublish, PollFinish;
  }

  lemma NoErrors(s: Nic)
    requires Inv(s) && s.p.RTake?
    ensures !DescAt(s.rx, s.p.i).error
  {
    hide Inv;
    HarvestSlot(s);
    assert s.hr.taken < s.hr.done by { TakesOne(s); }
  }

  lemma TakesOne(s: Nic)
    requires Inv(s) && s.p.RTake?
    ensures s.hr.taken < s.hr.done
  {
    hide Zones, MemOk, TxSide, FlowSide, StatsSide, IrqSide, DescAt;
  }

  lemma HarvestNext(s0: Nic, s: Nic, r: Nic)
    requires Moved(Polling, s, Poll(NoMemory), r)
    requires s.p.RCheck? || s.p.RTake? || s.p.RClear?
    requires Harvested(s0, s, s.p.work + One(s.p.RClear?))
    ensures s.p.RCheck? ==>
      r.p == if s.p.work < s.p.budget && DescAt(s.rx, s.p.i).done then RTake(s.p.i, s.p.work, s.p.budget)
             else RPub(s.p.i, s.p.work, s.p.budget)
    ensures s.p.RTake? ==> r.p == RClear(s.p.i, s.p.work, s.p.budget)
    ensures s.p.RClear? ==> r.p == RCheck(Next(s.p.i, s.n), s.p.work + 1, s.p.budget)
    ensures Harvested(s0, r, r.p.work + One(r.p.RClear?))
    ensures r.p.RPub? && r.p.work < r.p.budget ==> s0.hr.done <= r.hr.taken
  {
    hide Reachable, Inv, Step, DescAt, BufAt, Next;
    ReachableInv(s);
    HarvestStep(s);
    HarvestBounds(s);
    if s.p.RTake? {
      NoErrors(s);
    }
  }

  lemma HarvestStarts(s: Nic)
    requires Reachable(s) && s.p.RCheck? && s.p.work == 0
    ensures Harvested(s, s, 0) && s.hr.taken == s.hr.clean
  {
    hide Reachable, Inv;
    ReachableInv(s);
    HarvestBounds(s);
  }

  /** next_to_clean is published and the refill begins. */
  lemma PublishNext(s0: Nic, s: Nic, r: Nic, work: nat)
    requires Moved(Polling, s, Poll(NoMemory), r) && s.p.RPub? && s.p.work == work && Harvested(s0, s, work)
    ensures r.p ==
      if work > 0 then AAlloc(r.rx.ntu, work, 0, Harvest(work, s.p.budget)) else PDone(Harvest(0, s.p.budget))
    ensures r.hr.clean == r.hr.taken == s0.hr.clean + work
    ensures Refilled(s0.(hr := s0.hr.(clean := r.hr.clean, taken := r.hr.taken), h := s0.h.(delivered := r.h.delivered),
                         st := s0.st.(rxPackets := s0.st.rxPackets + work)), r, 0)
    ensures r.h.short == s0.h.short
  {
    hide Reachable, Inv, Step;
    HarvestStep(s);
  }

  /** `work` frames were handed up and as many buffers replaced, but for failed allocations. */
  predicate Replaced(s0: Nic, s: Nic, work: nat) {
    && s.n == s0.n && s.ht.clean == s0.ht.clean
    && s.hr.clean == s.hr.taken == s0.hr.clean + work && s.st.rxPackets == s0.st.rxPackets + work
    && s0.h.loops <= s.h.loops && s0.hr.taken <= s.hr.taken <= |s.h.loops|
    && s.h.delivered == s0.h.delivered + s.h.loops[s0.hr.taken..s.hr.taken]
    && |s.h.delivered| == |s0.h.delivered| + work
    && |s.hr.posts| + s.h.short == |s0.hr.posts| + s0.h.short + work
    && s.hr.tail == s.hr.use == |s.hr.posts|
  }

  lemma DeliveredIs(s: Nic)
    requires Inv(s)
    ensures s.hr.taken <= |s.h.loops| && s.h.delivered == s.h.loops[..s.hr.taken]
  {
    hide Zones, MemOk, TxSide, StatsSide, IrqSide, PostsOk, EngineOk, RxOk, CleanRxOk, RefillOk, DeliverOk, LoopsOf;
  }

  // ------------------------------------------------------------ edunic_alloc_rx_buffers

  /** The refill has filled `posted` slots since `s0`. */
  predicate Refilled(s0: Nic, s: Nic, posted: nat) {
    && s.n == s0.n && s.ht.clean == s0.ht.clean
    && s.hr.clean == s0.hr.clean && s.hr.taken == s0.hr.taken && s0.hr.done <= s.hr.done
    && s0.h.loops <= s.h.loops && s.h.delivered == s0.h.delivered && s.st.rxPackets == s0.st.rxPackets
    && |s.hr.posts| == |s0.hr.posts| + posted && s0.hr.posts <= s.hr.posts
  }

  lemma RefillBounds(s: Nic)
    requires Inv(s)
    ensures s.p.AAlloc? || s.p.ABuf? || s.p.ADesc? || s.p.AUse? || s.p.ATail? ==> s.p.i < s.n
    ensures s.p.PDone? ==> s.hr.tail == s.hr.use == |s.hr.posts|
  {
    hide Zones, MemOk, TxSide, FlowSide, StatsSide, IrqSide, SlotOk, CleanRxOk, DeliverOk, RxOk;
  }

  lemma RefillStep(s: Nic, alloc: Alloc)
    ensures var r := Step(s, Poll(alloc));
            s.p.AAlloc? && s.p.left > 0 && alloc.Buffer? ==>
              && r.p == ABuf(s.p.i, s.p.left, s.p.posted, s.p.caller, |s.m.skbs|, alloc.dma)
              && r.hr == s.hr && r.h == s.h && r.st == s.st && r.n == s.n && r.ht == s.ht
    ensures var r := Step(s, Poll(alloc));
            s.p.AAlloc? && !(s.p.left > 0 && alloc.Buffer?) ==>
              && r.p == (if s.p.posted > 0 then AUse(s.p.i, s.p.caller) else PDone(s.p.caller))
              && r.hr == s.hr && r.h == s.h.(short := s.h.short + s.p.left) && r.st == s.st && r.n == s.n
              && r.ht == s.ht
    ensures var r := Step(s, Poll(alloc));
            s.p.ABuf? ==>
              && r.p == ADesc(s.p.i, s.p.left, s.p.posted, s.p.caller, s.p.id, s.p.dma)
              && r.hr == s.hr && r.h == s.h && r.st == s.st && r.n == s.n && r.ht == s.ht
    ensures var r := Step(s, Poll(alloc));
            s.p.ADesc? ==>
              && r.p == AAlloc(Next(s.p.i, s.n), if s.p.left > 0 then s.p.left - 1 else 0, s.p.posted + 1, s.p.caller)
              && r.hr == s.hr.(posts := s.hr.posts + [Post(s.p.id, s.p.dma, RX_BUF_SIZE)])
              && r.h == s.h && r.st == s.st && r.n == s.n && r.ht == s.ht
    ensures var r := Step(s, Poll(alloc));
            s.p.AUse? ==>
              && r.p == ATail(s.p.i, s.p.caller) && r.hr == s.hr.(use := |s.hr.posts|)
              && r.h == s.h && r.st == s.st && r.n == s.n && r.ht == s.ht
    ensures var r := Step(s, Poll(alloc));
            s.p.ATail? ==>
              && r.p == PDone(s.p.caller) && r.hr == s.hr.(tail := s.hr.use)
              && r.h == s.h && r.st == s.st && r.n == s.n && r.ht == s.ht
  {
    hide XmitStep, WorkStep, NewSkb, MapSkb, Park, SetDesc, SetBuf, Next, ReclaimTake, ReclaimClear, ReclaimCheck,
         ReclaimPublish,
         ReclaimWake, HarvestCheck, HarvestTake, HarvestClear, HarvestPublish, PollFinish;
  }

  lemma RefillAlone(s: Nic, alloc: Alloc)
    requires s.p.AAlloc? || s.p.ABuf? || s.p.ADesc? || s.p.AUse? || s.p.ATail?
    ensures Alone(s, Step(s, Poll(alloc)))
  {
    hide XmitStep, WorkStep, RefillAlloc, RefillPark, RefillDescribe, ReclaimTake, ReclaimClear, ReclaimCheck,
         ReclaimPublish, ReclaimWake, HarvestCheck, HarvestTake, HarvestClear, HarvestPublish, PollFinish;
    match s.p
    case AAlloc(i, left, posted, caller) => RefillStays(s, i, left, posted, caller, 0, 0, alloc);
    case ABuf(i, left, posted, caller, id, dma) => RefillStays(s, i, left, posted, caller, id, dma, alloc);
    case ADesc(i, left, posted, caller, id, dma) => RefillStays(s, i, left, posted, caller, id, dma, alloc);
    case _ =>
  }

  lemma RefillStays(s: Nic, i: nat, left: nat, posted: nat, caller: Caller, id: nat, dma: nat, alloc: Alloc)
    ensures Alone(s, RefillAlloc(s, i, left, posted, caller, alloc))
    ensures Alone(s, RefillPark(s, i, left, posted, caller, id, dma))
    ensures Alone(s, RefillDescribe(s, i, left, posted, caller, id, dma))
  {
    hide NewSkb, MapSkb, Park, SetDesc, SetBuf, Next;
  }

  lemma RefillNext(who: Who, s0: Nic, s: Nic, alloc: Alloc, r: Nic, posted: nat)
    requires Moved(who, s, Poll(alloc), r) && (who == Polling || who == Probing) && Refilled(s0, s, posted)
    requires s.p.AAlloc? || s.p.ABuf? || s.p.ADesc? || s.p.AUse? || s.p.ATail?
    ensures r.p == Step(s, Poll(alloc)).p
    ensures Refilled(s0, r, posted + One(s.p.ADesc?))
    ensures r.h.short == s.h.short + if s.p.AAlloc? && !alloc.Buffer? then s.p.left else 0
    ensures r.p.PDone? ==> r.hr.tail == r.hr.use == |r.hr.posts|
    ensures who == Probing && Alone(s0, s) ==> Alone(s0, r)
  {
    hide Reachable, Inv, Step, Next;
    RefillMoved(who, s, Poll(alloc), r);
    RefillAlone(s, alloc);
    ReachableInv(r);
    RefillBounds(r);
    RefillStep(s, alloc);
  }

  lemma ReplacedAll(s0: Nic, f: Nic, s: Nic, work: nat, posted: nat)
    requires Reachable(s0) && Reachable(f) && Reachable(s) && s0.hr.taken == s0.hr.clean
    requires f.hr.clean == f.hr.taken == s0.hr.clean + work
    requires Refilled(s0.(hr := s0.hr.(clean := f.hr.clean, taken := f.hr.taken),
                          h := s0.h.(delivered := f.h.delivered),
                          st := s0.st.(rxPackets := s0.st.rxPackets + work)), f, 0)
    requires f.h.short == s0.h.short && s.p.PDone?
    requires posted <= work && Refilled(f, s, posted) && s.h.short == f.h.short + (work - posted)
    ensures Replaced(s0, s, work)
  {
    hide Reachable, Inv;
    ReachableInv(s0);
    ReachableInv(s);
    DeliveredIs(s0);
    DeliveredIs(s);
    RefillBounds(s);
    assert s.h.loops[..s.hr.taken] == s.h.loops[..s0.hr.taken] + s.h.loops[s0.hr.taken..s.hr.taken];
    assert s.h.loops[..s0.hr.taken] == s0.h.loops[..s0.hr.taken];
  }

  // ------------------------------------------------------------ edunic_start_xmit

  function XmitGoes(s: Nic, mapping: Option<nat>): XmitPc {
    match s.x
    case XIdle => XIdle
    case XCheck(id) => if TxRoom(s) then XMap(id) else XStop(id)
    case XStop(id) => XRecheck(id)
    case XRecheck(id) => if TxRoom(s) then XWake(id) else XIdle
    case XWake(id) => XMap(id)
    case XMap(id) => if mapping == None then XIdle else XBuf(id, mapping.value)
    case XBuf(id, dma) => XDesc(id, dma)
    case XDesc(id, dma) => XUse(id, dma)
    case XUse(_, _) => XTail
    case XTail => XKick
    case XKick => XCheck2
    case XCheck2 => if TxRoom(s) then XIdle else XStop2
    case XStop2 => XRecheck2
    case XRecheck2 => if TxRoom(s) then XWake2 else XIdle
    case XWake2 => XIdle
  }

  lemma MaybeStopGoes(s: Nic)
    requires s.x != XIdle && !s.x.XMap? && !s.x.XBuf? && !s.x.XDesc? && !s.x.XUse? && s.x != XTail && s.x != XKick
    ensures MaybeStop(s).x == XmitGoes(s, None) && MaybeStop(s).st == s.st
  {
    hide TxRoom, Release;
  }

  lemma XmitStepGoes(s: Nic, mapping: Option<nat>)
    ensures XmitStep(s, mapping).x == XmitGoes(s, mapping)
    ensures XmitStep(s, mapping).st == s.st.(txErrors := s.st.txErrors + One(s.x.XMap? && mapping == None))
  {
    hide MaybeStop, TxRoom, Release, MapSkb, Park, SetBuf, SetDesc, Next, SkbLen, SkbData;
    if s.x != XIdle && !s.x.XMap? && !s.x.XBuf? && !s.x.XDesc? && !s.x.XUse? && s.x != XTail && s.x != XKick {
      MaybeStopGoes(s);
    }
  }

  lemma XmitBounds(s: Nic)
    requires Inv(s)
    ensures 0 < s.n && s.tx.ntu < s.n
  {
    hide Zones, MemOk, RxSide, FlowSide, StatsSide, IrqSide, WorkOk, CleanTxOk;
  }

  /** One access of xmit: where it goes on, that only `XUse` posts a frame, and that the frame
      posted is the data of the skb it holds, which nobody changes meanwhile. */
  lemma XmitNext(s: Nic, mapping: Option<nat>, r: Nic)
    requires Moved(Xmitting, s, Xmit(mapping), r)
    ensures r.x == XmitGoes(s, mapping)
    ensures r.h.frames == s.h.frames + if s.x.XUse? then [SkbData(s.m, s.x.id)] else []
    ensures r.st.txErrors == s.st.txErrors + One(s.x.XMap? && mapping == None)
    ensures XHold(r.x) != Nothing ==> SkbData(r.m, XHold(r.x).id) == SkbData(s.m, XHold(r.x).id)
    ensures 0 < r.n && r.tx.ntu < r.n
  {
    hide Reachable, Inv, XmitStep, SkbData, TxRoom;
    ReachableInv(s);
    ReachableInv(r);
    XmitStepGoes(s, mapping);
    StepHeld(s, Xmit(mapping));
    XmitBounds(r);
  }

  /** The stack hands over an skb. */
  lemma CallNext(s: Nic, frame: Frame, r: Nic)
    requires Moved(Xmitting, s, Call(frame), r) && s.x == XIdle
    ensures r.x == XCheck(|s.m.skbs|) && r.h.frames == s.h.frames && r.st.txErrors == s.st.txErrors
    ensures SkbData(r.m, |s.m.skbs|) == frame
  {
    hide Reachable;
  }

  // ------------------------------------------------------------ edunic_hw_tx_worker

  lemma EngineBounds(s: Nic)
    requires Inv(s)
    ensures Busy(s.w) || s.w.WLoop? ==> s.w.head < s.n
    ensures Busy(s.w) ==> s.ht.done < s.h.cover
    ensures s.w.WTdh? || s.w.WIdle? ==> s.ht.done == s.h.cover
    ensures s.w.WData? || s.w.WLen? || s.w.WMark? ==> s.w.rh < s.n
    ensures s.ht.done <= s.h.cover <= s.ht.tail && |s.h.fates| == s.ht.done && |s.h.loops| == s.hr.done
    ensures s.w.WLoop? ==> (s.w.head == s.w.tail <==> s.ht.done == s.h.cover)
  {
    hide Zones, MemOk, StatsSide, IrqSide, CleanTxOk, CleanRxOk, RefillOk, PostsOk, EngineOk, LoopsOk, TxOk;
    if s.w.WLoop? {
      SnapshotSpan(s);
      SlotEq(s.ht.done, s.h.cover, s.n);
    }
  }

  lemma NoBuffer(s: Nic)
    requires Inv(s) && s.w.WRdt? && s.w.rh == s.rx.tail
    ensures s.hr.tail == s.hr.done
  {
    hide Zones, MemOk, TxSide, FlowSide, StatsSide, IrqSide, CleanRxOk, RefillOk;
    ZoneBounds(s.n, s.rx.desc, s.rx.buf, ViewOf(s.hr, AFill(s.p), s.p.RClear?));
    SlotEq(s.hr.done, s.hr.tail, s.n);
  }

  /** The histories that the engine writes. */
  predicate SameFates(s: Nic, r: Nic) {
    && r.n == s.n && r.ht.done == s.ht.done && r.h.fates == s.h.fates
    && r.hr.done == s.hr.done && r.h.loops == s.h.loops && r.st.rxDropped == s.st.rxDropped
  }

  predicate SameRun(s: Nic, r: Nic) {
    r.h.cover == s.h.cover && s.hr.tail <= r.hr.tail && s.ht.tail <= r.ht.tail
  }

  lemma EngineStep(s: Nic)
    ensures var r := EngineCheck(s);
            && SameFates(s, r) && s.hr == r.hr && s.ht == r.ht
            && r.h.cover == (if s.w.WTail? then s.ht.tail else s.h.cover)
    ensures var r := EngineEnd(s); SameFates(s, r) && s.hr == r.hr && r.ht.tail == s.ht.tail && r.h == s.h
    ensures var r := DeliverCheck(s);
            if s.w.WRdt? && s.w.rh == s.rx.tail then
              && r.w == WDone(s.w.head, s.w.tail, RxDropped)
              && r == s.(st := s.st.(rxDropped := s.st.rxDropped + 1), w := r.w)
            else r == s.(w := r.w)
  {
    hide Intr, DescAt, BufAt;
  }

  /** One access of the engine outside the delivery of a frame. */
  lemma EngineNext(s: Nic, copied: bool, r: Nic)
    requires Moved(Working, s, Work(copied), r)
    requires !(s.w.WRdh? || s.w.WRdt? || s.w.WData? || s.w.WLen? || s.w.WMark? || s.w.WRdhUp? || s.w.WIcs?)
    ensures r.w == Step(s, Work(copied)).w
    ensures s.ht.tail <= r.ht.tail && s.hr.tail <= r.hr.tail
    ensures r.h.cover == if s.w.WTail? then s.ht.tail else s.h.cover
    ensures if s.w.WDone? then r.h.fates == s.h.fates + [s.w.fate] && r.ht.done == s.ht.done + 1
            else r.h.fates == s.h.fates && r.ht.done == s.ht.done
    ensures r.n == s.n && r.hr.done == s.hr.done && r.h.loops == s.h.loops && r.st.rxDropped == s.st.rxDropped
  {
    hide Reachable, Inv, DeliverCheck, DeliverData, DeliverLen, DeliverMark, DeliverHead, DeliverCause, EngineCheck,
         EngineEnd,
         ReadSkb, SetDesc, DescAt, BufAt, Next;
    EngineStep(s);
  }

  /** One access of the delivery of a frame. */
  lemma DeliverNext(s: Nic, r: Nic)
    requires Moved(Working, s, Work(false), r)
    requires s.w.WRdh? || s.w.WRdt? || s.w.WData? || s.w.WLen? || s.w.WMark? || s.w.WRdhUp? || s.w.WIcs?
    ensures r.w == Step(s, Work(false)).w && SameRun(s, r)
    ensures r.n == s.n && r.ht.done == s.ht.done && r.h.fates == s.h.fates
    ensures r.st.rxDropped == s.st.rxDropped + One(s.w.WRdt? && s.w.rh == s.rx.tail)
    ensures s.w.WMark? ==> r.hr.done == s.hr.done + 1 && r.h.loops == s.h.loops + [s.w.frame]
    ensures !s.w.WMark? ==> r.hr.done == s.hr.done && r.h.loops == s.h.loops
  {
    hide Reachable, Inv, EngineCheck, EngineCopy, EngineDone, EngineEnd, DeliverCheck, WriteSkb, SetDesc, DescAt,
         BufAt, Next;
    EngineStep(s);
  }

  /** The way of a frame through edunic_hw_deliver_rx_frame. */
  lemma DeliverGoes(s: Nic)
    requires Reachable(s)
    ensures var w := Step(s, Work(false)).w;
            match s.w
            case WRdh(head, tail, frame) => w == WRdt(head, tail, frame, s.rx.head)
            case WRdt(head, tail, frame, rh) =>
              if rh == s.rx.tail then w == WDone(head, tail, RxDropped) && s.hr.tail == s.hr.done
              else w == WData(head, tail, frame, rh)
            case WData(head, tail, frame, rh) => w == WLen(head, tail, Clip(frame), rh)
            case WLen(head, tail, frame, rh) => w == WMark(head, tail, frame, rh)
            case WMark(head, tail, frame, rh) => w == WRdhUp(head, tail, rh)
            case WRdhUp(head, tail, rh) => w == WIcs(head, tail)
            case WIcs(head, tail) => w == WDone(head, tail, Looped)
            case _ => true
  {
    hide Reachable, Inv, XmitStep, PollStep, WriteSkb, SetDesc, DescAt, BufAt, Next, EngineCheck, EngineCopy,
         EngineDone, EngineEnd;
    ReachableInv(s);
    if s.w.WRdt? && s.w.rh == s.rx.tail {
      NoBuffer(s);
    } else if s.w.WData? {
      DeliverSlot(s);
    }
  }

  /** The way of the engine outside the delivery of a frame. */
  lemma EngineGoes(s: Nic)
    ensures var w, w' := Step(s, Work(false)).w, Step(s, Work(true)).w;
            match s.w
            case WIdle => s.work ==> w == WHead
            case WHead => w == WTail(s.tx.head)
            case WTail(head) => w == WLoop(head, s.tx.tail, false)
            case WLoop(head, tail, sent) => w ==
              if head != tail then WFetch(head, tail) else if sent then WTdh(head) else WIdle
            case WFetch(head, tail) =>
              var len := DescAt(s.tx, head).length;
              w == if BufAt(s.tx, head).dma != 0 && len != 0 then WCopy(head, tail, len) else WDone(head, tail, Skipped)
            case WCopy(head, tail, _) =>
              w == WDone(head, tail, CopyFailed) && w'.WRdh? && w'.head == head && w'.tail == tail
            case WDone(head, tail, _) => w == WLoop(Next(head, s.n), tail, true)
            case WTdh(_) => w == WIcsTx
            case WIcsTx => w == WIsr(IRead)
            case _ => true
  {
    hide XmitStep, PollStep, ReadSkb, SetDesc, DescAt, BufAt, Next, DeliverCheck, DeliverData, DeliverLen,
         DeliverMark, DeliverHead,
         DeliverCause, Intr;
  }

  lemma SlotReads(s: Nic, i: nat)
    requires Reachable(s) && i < s.n
    ensures |s.tx.desc| == |s.tx.buf| == s.n && DescAt(s.tx, i) == s.tx.desc[i] && BufAt(s.tx, i) == s.tx.buf[i]
  {
    hide Reachable, SlotOk, MemOk, FlowSide, StatsSide, IrqSide, TxOk, RxSide, WorkOk, CleanTxOk;
    ReachableInv(s);
  }

  /** The way of the interrupt handler. */
  lemma IntrGoes(s: Nic)
    ensures var w := Step(s, Work(false)).w;
            match s.w
            case WIsr(IRead) => w == if s.irq.tx || s.irq.rx then WIsr(IPrep) else WIdle
            case WIsr(IPrep) => w == if s.irq.sched then WIdle else WIsr(IMask)
            case WIsr(IMask) => w == WIsr(IList)
            case WIsr(IList) => w == WIdle
            case _ => true
  {
    hide XmitStep, PollStep, DeliverCheck, DeliverData, DeliverLen, DeliverMark, DeliverHead, DeliverCause,
         EngineCheck, EngineCopy,
         EngineDone;
  }

  /** The run goes on as far as it was going to. */
  predicate SameWork(s: Nic, r: Nic) {
    && r.h.cover == s.h.cover && r.ht.done == s.ht.done && r.h.fates == s.h.fates && r.h.loops == s.h.loops
    && s.ht.tail <= r.ht.tail
  }

  lemma RunBounds(s: Nic)
    requires Reachable(s)
    ensures s.ht.done <= s.h.cover && |s.h.fates| == s.ht.done
    ensures s.w == WIdle || s.w.WTdh? ==> s.ht.done == s.h.cover
  {
    hide Reachable, Inv;
    ReachableInv(s);
    EngineBounds(s);
  }
}
