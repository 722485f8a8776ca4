/** The driver and the emulated device as they run: loops over shared rings, with the other
    threads taking any number of steps between any two accesses. */
module EdunicDriver {
  import opened Ring
  import opened Memory
  import opened Edunic
  import opened EdunicInvariant
  import EdunicCauses
  import EdunicProgress
  import opened EdunicTheorems
  import opened EdunicSettles
  import opened EdunicRely
  import opened EdunicRounds

  lemma IcrRead(q: Irq)
    ensures Intr(q, IRead).0
         == q.(tx := false, rx := false, lsc := false, carrier := if q.lsc then q.link else q.carrier)
  {}

  /** A descriptor ring in coherent memory, with the driver's records, indices and registers. */
  class DescRing {
    const desc: array<Desc>
    const buf: array<Buf>
    var ntu: nat
    var ntc: nat
    var head: nat
    var tail: nat

    constructor (n: nat)
      ensures fresh(desc) && fresh(buf) && State() == EmptyRing(n)
    {
      desc := new Desc[n](_ => Desc(0, 0, false, false));
      buf := new Buf[n](_ => Buf(None, 0, 0));
      ntu, ntc, head, tail := 0, 0, 0, 0;
    }

    function State(): RingState
      reads this, desc, buf
    {
      RingState(desc[..], buf[..], ntu, ntc, head, tail)
    }

    method PutDesc(i: nat, d: Desc)
      requires i < desc.Length
      modifies desc
      ensures State() == SetDesc(old(State()), i, d)
    {
      desc[i] := d;
      assert desc[..] == old(desc[..])[i := d];
    }

    method PutBuf(i: nat, b: Buf)
      requires i < buf.Length
      modifies buf
      ensures State() == SetBuf(old(State()), i, b)
    {
      buf[i] := b;
      assert buf[..] == old(buf[..])[i := b];
    }

    /** Lets the other threads' writes through. */
    method Load(r: RingState)
      requires |r.desc| == desc.Length && |r.buf| == buf.Length
      modifies this, desc, buf
      ensures State() == r
    {
      forall i | 0 <= i < desc.Length {
        desc[i] := r.desc[i];
      }
      forall i | 0 <= i < buf.Length {
        buf[i] := r.buf[i];
      }
      ntu, ntc, head, tail := r.ntu, r.ntc, r.head, r.tail;
      assert desc[..] == r.desc && buf[..] == r.buf;
    }
  }

  lemma ReachableShape(s: Nic)
    requires Reachable(s)
    ensures 2 <= s.n == |s.tx.desc| == |s.tx.buf| == |s.rx.desc| == |s.rx.buf|
  {
    hide Reachable, SlotOk, MemOk, FlowSide, StatsSide, IrqSide, TxOk, RxOk, WorkOk, CleanTxOk, CleanRxOk, DeliverOk,
         RefillOk;
    ReachableInv(s);
  }

  /** What each thread is about to do, and the histories. */
  datatype Notes = Notes(x: XmitPc, w: WorkPc, p: PollPc, t: TimerPc, unmasks: nat, ht: Track, hr: Track, h: Flow)

  function NotesOf(s: Nic): Notes {
    Notes(s.x, s.w, s.p, s.t, s.unmasks, s.ht, s.hr, s.h)
  }

  function WithNotes(s: Nic, c: Notes): Nic {
    s.(x := c.x, w := c.w, p := c.p, t := c.t, unmasks := c.unmasks, ht := c.ht, hr := c.hr, h := c.h)
  }

  /** The access `a` writes nothing that is really there. */
  ghost predicate ReadsOnly(s: Nic, a: Action) {
    WithNotes(Step(s, a), NotesOf(s)) == s
  }

  /** The reads of the poll callback. */
  lemma PollReads(s: Nic)
    requires Reachable(s)
    ensures s.p.TLoop? || s.p.TCheck? || s.p.TFree? || s.p.TClear? || s.p.RCheck? || s.p.RTake? || s.p.RClear? ==>
      s.p.i < s.n
    ensures s.p.TLoop? || s.p.TCheck? || s.p.TStopped? || s.p.TRoom? || s.p.RCheck? ==> ReadsOnly(s, Poll(NoMemory))
  {
    hide Reachable, Inv, TxRoom, DescAt, ReclaimTake, ReclaimClear, ReclaimPublish, HarvestTake, HarvestClear,
         HarvestPublish,
         RefillAlloc, RefillPark, RefillDescribe, RefillPublish, PollFinish;
    ReachableInv(s);
    if s.p.TLoop? || s.p.TCheck? || s.p.TFree? || s.p.TClear? {
      ReclaimBounds(s);
    } else if s.p.RCheck? || s.p.RTake? || s.p.RClear? {
      HarvestBounds(s);
    }
  }

  lemma RefillReads(s: Nic)
    requires Reachable(s)
    ensures s.p.ABuf? || s.p.ADesc? ==> s.p.i < s.n
    ensures s.p.AAlloc? && s.p.left == 0 ==> ReadsOnly(s, Poll(NoMemory))
    ensures s.p.PDone? ==> s.hr.tail == s.hr.use == |s.hr.posts|
  {
    hide Reachable, Inv, ReclaimTake, ReclaimClear, ReclaimCheck, ReclaimPublish, ReclaimWake, HarvestTake,
         HarvestCheck, HarvestClear,
         HarvestPublish, RefillPark, RefillDescribe, RefillPublish, PollFinish;
    ReachableInv(s);
    RefillBounds(s);
  }

  lemma XmitReads(s: Nic)
    ensures s.x.XCheck? || s.x.XCheck2? || s.x.XRecheck2? ==> ReadsOnly(s, Xmit(None))
  {
    hide TxRoom, WorkStep, PollStep;
  }

  lemma EngineReads(s: Nic)
    requires Reachable(s)
    ensures s.w.WRdh? || s.w.WHead? || s.w.WTail? || s.w.WLoop? || s.w.WFetch? ==> ReadsOnly(s, Work(false))
    ensures Busy(s.w) || s.w.WLoop? ==> s.w.head < s.n
    ensures s.w.WData? || s.w.WLen? || s.w.WMark? ==> s.w.rh < s.n
  {
    hide Reachable, Inv, DescAt, BufAt, XmitStep, PollStep, EngineCopy, EngineDone, EngineEnd, DeliverData,
         DeliverLen, DeliverMark,
         DeliverHead, DeliverCause;
    ReachableInv(s);
    EngineBounds(s);
  }

  lemma FinishProbe(s: Nic)
    requires s.p == PDone(Probe)
    ensures Step(s, Poll(NoMemory)) == s.(p := PIdle) && ReadsOnly(s, Poll(NoMemory))
  {
    hide XmitStep, WorkStep, ReclaimTake, ReclaimClear, HarvestTake, HarvestClear, RefillAlloc, RefillPark,
         RefillDescribe;
  }

  lemma FinishForward(s: Nic)
    requires Reachable(s) && s.p.PDone? && s.p.caller.Harvest?
    ensures var r := Step(s, Poll(NoMemory));
            && Reachable(r) && Forward(s, r) && r.p == PIdle
            && (if s.p.caller.work < s.p.caller.budget && !s.irq.missed then !r.irq.sched && r.unmasks > 0
                else r.irq.listed)
  {
    hide Reachable, Inv, PollStep, Forward;
    ReachableInv(s);
    ReachableStep(s, Poll(NoMemory));
    StepForward(s, Poll(NoMemory));
    EdunicCauses.FinishStep(s, NoMemory);
  }

  lemma SoftirqRelies(s: Nic, r: Nic)
    ensures Relies(Bystander, s, r) ==> Forward(s, r)
    ensures Relies(Owing, s, r) ==> Forward(s, r) && (s.unmasks > 0 ==> r.unmasks > 0)
  {}

  class Adapter {
    const n: nat
    const tx: DescRing
    const rx: DescRing
    var stopped: bool
    var work: bool
    var m: Ledger
    var irq: Irq
    var st: Stats
    var c: Notes

    /** Both rings set up and programmed into the device. */
    constructor (n: nat)
      requires 2 <= n
      ensures Valid() && this.n == n && Abs() == Init(n)
      ensures fresh(tx) && fresh(tx.desc) && fresh(tx.buf) && fresh(rx) && fresh(rx.desc) && fresh(rx.buf)
    {
      this.n := n;
      tx := new DescRing(n);
      rx := new DescRing(n);
      stopped, work, m, irq, st := false, false, Ledger([], false), NO_IRQ, NO_STATS;
      c := NotesOf(Init(n));
      new;
      assert Run(Init(n), []) == Init(n);
    }

    predicate Shape()
      reads this, tx, rx
    {
      && tx != rx && tx.desc != rx.desc && tx.buf != rx.buf
      && 2 <= n == tx.desc.Length == tx.buf.Length == rx.desc.Length == rx.buf.Length
    }

    function Abs(): Nic
      reads this, tx, rx, tx.desc, tx.buf, rx.desc, rx.buf
    {
      Nic(n, tx.State(), rx.State(), stopped, work, m, irq, st, c.x, c.w, c.p, c.t, c.unmasks, c.ht, c.hr, c.h)
    }

    ghost predicate Valid()
      reads this, tx, rx, tx.desc, tx.buf, rx.desc, rx.buf
    {
      Shape() && Reachable(Abs())
    }

    /** Takes note of an access just made: the thread goes on to the next one. */
    method Follow(pre: Nic, a: Action)
      requires Shape() && Reachable(pre) && Abs() == WithNotes(Step(pre, a), NotesOf(pre))
      modifies this`c
      ensures Valid() && Abs() == Step(pre, a)
    {
      hide Reachable, Step;
      ReachableStep(pre, a);
      c := NotesOf(Step(pre, a));
    }

    /** Lets a step of another thread take effect. */
    method Load(s: Nic)
      requires Shape() && s.n == n == |s.tx.desc| == |s.tx.buf| == |s.rx.desc| == |s.rx.buf|
      modifies this, tx, rx, tx.desc, tx.buf, rx.desc, rx.buf
      ensures Shape() && Abs() == s
    {
      stopped, work, m, irq, st, c := s.stopped, s.work, s.m, s.irq, s.st, NotesOf(s);
      tx.Load(s.tx);
      rx.Load(s.rx);
    }

    /** Any number of steps of the other threads, in any order. */
    method Others(who: Who)
      requires Valid()
      modifies this, tx, rx, tx.desc, tx.buf, rx.desc, rx.buf
      ensures Valid() && Relies(who, old(Abs()), Abs())
    {
      hide Reachable, Step, Inv, Relies, ByOther;
      ReliesRefl(who, Abs());
      var rounds: nat := *;
      while rounds > 0
        invariant Valid() && Relies(who, old(Abs()), Abs())
      {
        var a: Action := *;
        if ByOther(who, Abs(), a) {
          ghost var pre := Abs();
          var s := Step(Abs(), a);
          ReachableInv(pre);
          ReachableStep(pre, a);
          ReachableShape(s);
          StepSize(pre, a);
          OtherStep(who, pre, a);
          Load(s);
          ReliesTrans(who, old(Abs()), pre, s);
        }
        rounds := rounds - 1;
      }
    }

    /** An access that has just been made to `pre`, followed by whatever the others do. */
    method Done(who: Who, pre: Nic, a: Action)
      requires Shape() && Reachable(pre) && Abs() == WithNotes(Step(pre, a), NotesOf(pre))
      modifies this, tx, rx, tx.desc, tx.buf, rx.desc, rx.buf
      ensures Valid() && Moved(who, pre, a, Abs())
    {
      hide Reachable, Step, Relies;
      Follow(pre, a);
      Others(who);
    }

    /** An access that only reads, followed by whatever the others do. */
    method Look(who: Who, a: Action)
      requires Valid() && ReadsOnly(Abs(), a)
      modifies this, tx, rx, tx.desc, tx.buf, rx.desc, rx.buf
      ensures Valid() && Moved(who, old(Abs()), a, Abs())
    {
      hide Reachable, Step, Relies;
      Done(who, Abs(), a);
    }

    // ---------------------------------------------------------- edunic_clean_tx_irq

    method TakeTx(i: nat) returns (len: nat)
      requires Valid() && c.p.TFree? && c.p.i == i < n
      modifies this, tx, rx, tx.desc, tx.buf, rx.desc, rx.buf
      ensures Valid() && Moved(Polling, old(Abs()), Poll(NoMemory), Abs()) && len == old(tx.buf[i].len)
    {
      hide Reachable, Relies, Release, UnmapSkb;
      var pre := Abs();
      var f := tx.buf[i];
      len := f.len;
      m := Release(UnmapSkb(m, f.skb, f.dma, f.len, ToDevice), f.skb, Consumed);
      tx.PutBuf(i, Buf(None, 0, 0));
      Done(Polling, pre, Poll(NoMemory));
    }

    method ClearTx(i: nat)
      requires Valid() && c.p.TClear? && c.p.i == i < n
      modifies this, tx, rx, tx.desc, tx.buf, rx.desc, rx.buf
      ensures Valid() && Moved(Polling, old(Abs()), Poll(NoMemory), Abs())
    {
      hide Reachable, Relies;
      var pre := Abs();
      tx.PutDesc(i, tx.desc[i].(done := false, error := false));
      Done(Polling, pre, Poll(NoMemory));
    }

    /** edunic_clean_tx_irq: takes back the skbs of completed frames, books them, and wakes the
        queue if it is stopped and has room. All that was complete at the call is reclaimed, in
        fewer rounds than the ring has slots although xmit and the device go on meanwhile. */
    method CleanTxIrq(budget: nat) returns (packets: nat)
      requires Valid() && c.p == TLoop(tx.ntc, 0, 0, budget)
      modifies this, tx, rx, tx.desc, tx.buf, rx.desc, rx.buf
      ensures Valid() && c.p == RCheck(rx.ntc, 0, budget) && rx.ntc == old(rx.ntc)
      ensures Booked(old(Abs()), Abs(), packets)
    {
      hide Reachable, Step, Inv, SumLen, Relies, ReadsOnly;
      packets := 0;
      var bytes, i := 0, tx.ntc;
      ReclaimStarts(Abs());
      while true
        invariant Valid() && c.p == TLoop(i, packets, bytes, budget)
        invariant Reclaimed(old(Abs()), Abs(), packets)
        decreases n - packets
      {
        ghost var s := Abs();
        PollReads(s);
        var more := i != tx.ntu;
        Look(Polling, Poll(NoMemory));
        ReclaimNext(old(Abs()), s, Abs());
        if !more { break; }
        s := Abs();
        PollReads(s);
        var done := tx.desc[i].done;
        Look(Polling, Poll(NoMemory));
        ReclaimNext(old(Abs()), s, Abs());
        if !done { break; }
        s := Abs();
        var len := TakeTx(i);
        ReclaimNext(old(Abs()), s, Abs());
        packets, bytes := packets + 1, bytes + len;
        s := Abs();
        ClearTx(i);
        ReclaimNext(old(Abs()), s, Abs());
        i := Next(i, n);
      }
      FinishTx(old(Abs()), i, packets, bytes, budget);
    }

    /** The rest of edunic_clean_tx_irq: publishing next_to_clean, the counters, the wakeup. */
    method FinishTx(ghost s0: Nic, i: nat, packets: nat, bytes: nat, budget: nat)
      requires Valid() && c.p == TPub(i, packets, bytes, budget)
      requires Reclaimed(s0, Abs(), packets) && s0.ht.done <= c.ht.taken
      modifies this, tx, rx, tx.desc, tx.buf, rx.desc, rx.buf
      ensures Valid() && c.p == RCheck(s0.rx.ntc, 0, budget) && Booked(s0, Abs(), packets)
    {
      hide Reachable, Step, Inv, SumLen, Relies, ReadsOnly, TxRoom;
      ghost var s := Abs();
      PublishClean(i);
      WakeNext(s0, s, Abs(), packets);
      if packets > 0 {
        s := Abs();
        BookTx(packets, bytes);
        WakeNext(s0, s, Abs(), packets);
        s := Abs();
        PollReads(s);
        var off := stopped;
        Look(Polling, Poll(NoMemory));
        WakeNext(s0, s, Abs(), packets);
        if off {
          s := Abs();
          PollReads(s);
          var room := TxRoom(Abs());
          Look(Polling, Poll(NoMemory));
          WakeNext(s0, s, Abs(), packets);
          if room {
            s := Abs();
            WakeQueue();
            WakeNext(s0, s, Abs(), packets);
          }
        }
      }
    }

    method PublishClean(i: nat)
      requires Valid() && c.p.TPub? && c.p.i == i
      modifies this, tx, rx, tx.desc, tx.buf, rx.desc, rx.buf
      ensures Valid() && Moved(Polling, old(Abs()), Poll(NoMemory), Abs())
    {
      hide Reachable, Relies;
      var pre := Abs();
      tx.ntc := i;
      Done(Polling, pre, Poll(NoMemory));
    }

    method BookTx(packets: nat, bytes: nat)
      requires Valid() && c.p.TStat? && c.p.packets == packets && c.p.bytes == bytes
      modifies this, tx, rx, tx.desc, tx.buf, rx.desc, rx.buf
      ensures Valid() && Moved(Polling, old(Abs()), Poll(NoMemory), Abs())
    {
      hide Reachable, Relies;
      var pre := Abs();
      st := st.(txPackets := st.txPackets + packets, txBytes := st.txBytes + bytes);
      Done(Polling, pre, Poll(NoMemory));
    }

    method WakeQueue()
      requires Valid() && c.p.TWake?
      modifies this, tx, rx, tx.desc, tx.buf, rx.desc, rx.buf
      ensures Valid() && Moved(Polling, old(Abs()), Poll(NoMemory), Abs())
    {
      hide Reachable, Relies;
      var pre := Abs();
      stopped := false;
      Done(Polling, pre, Poll(NoMemory));
    }

    // ---------------------------------------------------------- edunic_clean_rx_irq

    method TakeRx(i: nat)
      requires Valid() && c.p.RTake? && c.p.i == i < n
      modifies this, tx, rx, tx.desc, tx.buf, rx.desc, rx.buf
      ensures Valid() && Moved(Polling, old(Abs()), Poll(NoMemory), Abs())
    {
      hide Reachable, Relies, Release, UnmapSkb, HandUp, ReclaimTake, ReclaimClear, ReclaimCheck, ReclaimWake,
           ReclaimPublish,
           HarvestClear, HarvestPublish, RefillAlloc, RefillPark, RefillDescribe, RefillPublish, PollFinish,
           XmitStep, WorkStep;
      var pre := Abs();
      var f, d := rx.buf[i], rx.desc[i];
      m := UnmapSkb(m, f.skb, f.dma, f.len, FromDevice);
      rx.PutBuf(i, Buf(None, 0, f.len));
      if d.error {
        m := Release(m, f.skb, Freed);
        st := st.(rxErrors := st.rxErrors + 1);
      } else {
        m := HandUp(m, f.skb, d.length).0;
        st := st.(rxPackets := st.rxPackets + 1, rxBytes := st.rxBytes + d.length);
      }
      Done(Polling, pre, Poll(NoMemory));
    }

    method ClearRx(i: nat)
      requires Valid() && c.p.RClear? && c.p.i == i < n
      modifies this, tx, rx, tx.desc, tx.buf, rx.desc, rx.buf
      ensures Valid() && Moved(Polling, old(Abs()), Poll(NoMemory), Abs())
    {
      hide Reachable, Relies;
      var pre := Abs();
      rx.PutDesc(i, rx.desc[i].(done := false, error := false));
      Done(Polling, pre, Poll(NoMemory));
    }

    method PublishHarvest(i: nat)
      requires Valid() && c.p.RPub? && c.p.i == i
      modifies this, tx, rx, tx.desc, tx.buf, rx.desc, rx.buf
      ensures Valid() && Moved(Polling, old(Abs()), Poll(NoMemory), Abs())
    {
      hide Reachable, Relies;
      var pre := Abs();
      rx.ntc := i;
      Done(Polling, pre, Poll(NoMemory));
    }

    /** edunic_clean_rx_irq: hands up to `budget` received frames to the stack and replaces their
        buffers. Unless the budget is used up, all that had arrived at the call is handed up. */
    method CleanRxIrq(budget: nat) returns (work: nat)
      requires Valid() && c.p == RCheck(rx.ntc, 0, budget)
      modifies this, tx, rx, tx.desc, tx.buf, rx.desc, rx.buf
      ensures Valid() && c.p == PDone(Harvest(work, budget)) && work <= budget
      ensures Replaced(old(Abs()), Abs(), work)
      ensures work < budget ==> old(c.hr.done) <= c.hr.clean
    {
      hide Reachable, Step, Inv, Relies, ReadsOnly;
      work := 0;
      var i := rx.ntc;
      HarvestStarts(Abs());
      while true
        invariant Valid() && c.p == RCheck(i, work, budget) && work <= budget
        invariant Harvested(old(Abs()), Abs(), work)
        decreases budget - work
      {
        ghost var s := Abs();
        PollReads(s);
        var done := work < budget && rx.desc[i].done;
        Look(Polling, Poll(NoMemory));
        HarvestNext(old(Abs()), s, Abs());
        if !done { break; }
        s := Abs();
        PollReads(s);
        TakeRx(i);
        HarvestNext(old(Abs()), s, Abs());
        s := Abs();
        PollReads(s);
        ClearRx(i);
        HarvestNext(old(Abs()), s, Abs());
        i := Next(i, n);
        work := work + 1;
      }
      FinishRx(old(Abs()), i, work, budget);
    }

    /** The rest of edunic_clean_rx_irq: publishing next_to_clean and the refill. */
    method FinishRx(ghost s0: Nic, i: nat, work: nat, budget: nat)
      requires Valid() && c.p == RPub(i, work, budget)
      requires Reachable(s0) && s0.hr.taken == s0.hr.clean && Harvested(s0, Abs(), work)
      modifies this, tx, rx, tx.desc, tx.buf, rx.desc, rx.buf
      ensures Valid() && c.p == PDone(Harvest(work, budget))
      ensures Replaced(s0, Abs(), work) && c.hr.clean == old(c.hr.taken)
    {
      hide Reachable, Step, Inv, Relies, ReadsOnly;
      ghost var s := Abs();
      PublishHarvest(i);
      PublishNext(s0, s, Abs(), work);
      ghost var filled := Abs();
      var posted := 0;
      if work > 0 {
        posted := AllocRxBuffers(Polling, work, Harvest(work, budget));
      }
      ReplacedAll(s0, filled, Abs(), work, posted);
    }

    // ---------------------------------------------------------- edunic_alloc_rx_buffers

    /** What netdev_alloc_skb_ip_align and dma_map_single return is the kernel's choice. */
    method AllocBuffer(who: Who, ghost left: nat) returns (alloc: Alloc)
      requires Valid() && c.p.AAlloc? && c.p.left == left > 0
      modifies this, tx, rx, tx.desc, tx.buf, rx.desc, rx.buf
      ensures Valid() && Moved(who, old(Abs()), Poll(alloc), Abs())
    {
      hide Reachable, Relies, NewSkb, MapSkb, ReclaimTake, ReclaimClear, ReclaimCheck, ReclaimWake, ReclaimPublish,
           HarvestTake, HarvestCheck, HarvestClear, HarvestPublish, RefillPark, RefillDescribe, RefillPublish,
           PollFinish, XmitStep, WorkStep;
      alloc := *;
      var pre := Abs();
      match alloc {
        case NoMemory =>
        case NoMapping(area) => m := NewSkb(m, area, Released(Freed));
        case Buffer(area, dma) => m := MapSkb(NewSkb(m, area, Held), |m.skbs|, dma, RX_BUF_SIZE, FromDevice);
      }
      Done(who, pre, Poll(alloc));
    }

    method ParkRx(who: Who, i: nat, id: nat, dma: nat)
      requires Valid() && c.p.ABuf? && c.p.i == i < n && c.p.id == id && c.p.dma == dma
      modifies this, tx, rx, tx.desc, tx.buf, rx.desc, rx.buf
      ensures Valid() && Moved(who, old(Abs()), Poll(NoMemory), Abs())
    {
      hide Reachable, Relies, Park;
      var pre := Abs();
      m := Park(m, id, InRx(|c.hr.posts|));
      rx.PutBuf(i, Buf(Some(id), dma, RX_BUF_SIZE));
      Done(who, pre, Poll(NoMemory));
    }

    method DescribeRx(who: Who, i: nat, dma: nat)
      requires Valid() && c.p.ADesc? && c.p.i == i < n && c.p.dma == dma
      modifies this, tx, rx, tx.desc, tx.buf, rx.desc, rx.buf
      ensures Valid() && Moved(who, old(Abs()), Poll(NoMemory), Abs())
    {
      hide Reachable, Relies;
      var pre := Abs();
      rx.PutDesc(i, Desc(dma, 0, false, false));
      Done(who, pre, Poll(NoMemory));
    }

    /** next_to_use */
    method PublishRefill(who: Who, i: nat)
      requires Valid() && c.p.AUse? && c.p.i == i
      modifies this, tx, rx, tx.desc, tx.buf, rx.desc, rx.buf
      ensures Valid() && Moved(who, old(Abs()), Poll(NoMemory), Abs())
    {
      hide Reachable, Relies;
      var pre := Abs();
      rx.ntu := i;
      Done(who, pre, Poll(NoMemory));
    }

    /** The doorbell, RDT. */
    method RingRx(who: Who, i: nat)
      requires Valid() && c.p.ATail? && c.p.i == i
      modifies this, tx, rx, tx.desc, tx.buf, rx.desc, rx.buf
      ensures Valid() && Moved(who, old(Abs()), Poll(NoMemory), Abs())
    {
      hide Reachable, Relies;
      var pre := Abs();
      rx.tail := i;
      Done(who, pre, Poll(NoMemory));
    }

    /** edunic_alloc_rx_buffers: posts up to `count` buffers with one doorbell for all; what it
        does not post stays missing. */
    method AllocRxBuffers(who: Who, count: nat, caller: Caller) returns (posted: nat)
      requires Valid() && (who == Polling || who == Probing) && c.p == AAlloc(rx.ntu, count, 0, caller)
      modifies this, tx, rx, tx.desc, tx.buf, rx.desc, rx.buf
      ensures Valid() && c.p == PDone(caller) && posted <= count
      ensures Refilled(old(Abs()), Abs(), posted) && c.h.short == old(c.h.short) + (count - posted)
      ensures c.hr.tail == c.hr.use == |c.hr.posts|
      ensures who == Probing ==> Alone(old(Abs()), Abs())
    {
      hide Reachable, Step, Inv, Relies, ReadsOnly;
      posted := 0;
      var i, left := rx.ntu, count;
      while true
        invariant Valid() && c.p == AAlloc(i, left, posted, caller) && posted + left == count
        invariant Refilled(old(Abs()), Abs(), posted) && c.h.short == old(c.h.short)
        invariant who == Probing ==> Alone(old(Abs()), Abs())
        decreases left
      {
        ghost var s := Abs();
        if left == 0 {
          RefillReads(s);
          Look(who, Poll(NoMemory));
          RefillNext(who, old(Abs()), s, NoMemory, Abs(), posted);
          RefillStep(s, NoMemory);
          break;
        }
        var id := |m.skbs|;
        var alloc := AllocBuffer(who, left);
        RefillNext(who, old(Abs()), s, alloc, Abs(), posted);
        RefillStep(s, alloc);
        if !alloc.Buffer? { break; }
        PostRx(who, old(Abs()), i, left, posted, caller, id, alloc.dma);
        i := Next(i, n);
        left := left - 1;
        posted := posted + 1;
      }
      RingRefill(who, old(Abs()), i, posted, caller);
    }

    /** Filling the slot at next_to_use. */
    method PostRx(who: Who, ghost s0: Nic, i: nat, ghost left: nat, ghost posted: nat, ghost caller: Caller,
                  id: nat, dma: nat)
      requires Valid() && (who == Polling || who == Probing) && c.p == ABuf(i, left, posted, caller, id, dma)
      requires left > 0
      requires Refilled(s0, Abs(), posted) && (who == Probing ==> Alone(s0, Abs()))
      modifies this, tx, rx, tx.desc, tx.buf, rx.desc, rx.buf
      ensures Valid() && c.p == AAlloc(Next(i, n), left - 1, posted + 1, caller) && c.h.short == old(c.h.short)
      ensures Refilled(s0, Abs(), posted + 1) && (who == Probing ==> Alone(s0, Abs()))
    {
      hide Reachable, Step, Inv, Relies, ReadsOnly, Alone, Refilled, Next;
      ghost var s := Abs();
      RefillReads(s);
      ParkRx(who, i, id, dma);
      RefillNext(who, s0, s, NoMemory, Abs(), posted);
      RefillStep(s, NoMemory);
      s := Abs();
      RefillReads(s);
      DescribeRx(who, i, dma);
      RefillNext(who, s0, s, NoMemory, Abs(), posted);
      RefillStep(s, NoMemory);
    }

    method RingRefill(who: Who, ghost s0: Nic, i: nat, posted: nat, caller: Caller)
      requires Valid() && (who == Polling || who == Probing) && Refilled(s0, Abs(), posted)
      requires (who == Probing ==> Alone(s0, Abs()))
      requires c.p == if posted > 0 then AUse(i, caller) else PDone(caller)
      modifies this, tx, rx, tx.desc, tx.buf, rx.desc, rx.buf
      ensures Valid() && c.p == PDone(caller) && Refilled(s0, Abs(), posted) && c.h.short == old(c.h.short)
      ensures c.hr.tail == c.hr.use == |c.hr.posts|
      ensures who == Probing ==> Alone(s0, Abs())
    {
      hide Reachable, Step, Inv, Relies, ReadsOnly, Alone;
      ghost var s := Abs();
      RefillReads(s);
      if posted > 0 {
        PublishRefill(who, i);
        RefillNext(who, s0, s, NoMemory, Abs(), posted);
        RefillStep(s, NoMemory);
        s := Abs();
        RingRx(who, i);
        RefillNext(who, s0, s, NoMemory, Abs(), posted);
        RefillStep(s, NoMemory);
      }
    }

    /** edunic_alloc_rx_buffers as probe calls it: nobody else is running yet. */
    method PostInitial() returns (posted: nat)
      requires Valid() && Abs() == Init(n)
      modifies this, tx, rx, tx.desc, tx.buf, rx.desc, rx.buf
      ensures Valid() && c.p == PIdle && c.x == XIdle && c.w == WIdle
      ensures posted == |c.hr.posts| == c.hr.tail && c.hr.clean == 0 && posted + c.h.short == n - 1
    {
      hide Reachable, Step, Inv, ReadsOnly;
      posted := AllocRxBuffers(Probing, n - 1, Probe);
      ghost var s := Abs();
      FinishProbe(s);
      Look(Probing, Poll(NoMemory));
    }

    // ---------------------------------------------------------- nic_irq.c

    /** The softirq takes NAPI off its list. */
    method BeginPoll(budget: nat)
      requires Valid() && c.p == PIdle && irq.listed
      modifies this, tx, rx, tx.desc, tx.buf, rx.desc, rx.buf
      ensures Valid() && c.p == TLoop(tx.ntc, 0, 0, budget)
      ensures c.ht.clean == old(c.ht.clean) && RxUntouched(old(Abs()), Abs()) && old(c.ht.done) <= c.ht.done
    {
      hide Reachable, Inv;
      var pre := Abs();
      irq := irq.(listed := false);
      Done(Polling, pre, Softirq(budget));
    }

    /** napi_complete_done, or the promise to poll again. */
    method EndPoll(work: nat, budget: nat) returns (completed: bool, ghost ended: Nic)
      requires Valid() && c.p == PDone(Harvest(work, budget))
      modifies this, tx, rx, tx.desc, tx.buf, rx.desc, rx.buf
      ensures Valid() && Reachable(ended) && ended.p == PIdle && Forward(old(Abs()), ended) && Forward(ended, Abs())
      ensures completed <==> work < budget && !old(irq.missed)
      ensures if completed then !ended.irq.sched && c.unmasks > 0 else ended.irq.listed
    {
      hide Reachable, PollStep, XmitStep, WorkStep, Relies, Forward;
      var pre := Abs();
      EdunicCauses.FinishStep(pre, NoMemory);
      completed := false;
      if work >= budget {
        irq := irq.(listed := true);
      } else if irq.missed {
        irq := irq.(missed := false, listed := true);
      } else {
        irq := irq.(sched := false);
        completed := true;
      }
      ended := Step(pre, Poll(NoMemory));
      FinishForward(pre);
      if completed {
        Done(Owing, pre, Poll(NoMemory));
      } else {
        Done(Bystander, pre, Poll(NoMemory));
      }
      SoftirqRelies(ended, Abs());
    }

    /** The mask write, in the state `unmasked`. */
    method UnmaskIrq() returns (ghost unmasked: Nic)
      requires Valid() && c.unmasks > 0
      modifies this, tx, rx, tx.desc, tx.buf, rx.desc, rx.buf
      ensures Valid() && Reachable(unmasked) && unmasked == Step(old(Abs()), Unmask) && unmasked.irq.open
      ensures Forward(old(Abs()), unmasked) && Forward(unmasked, Abs())
    {
      hide Reachable;
      var pre := Abs();
      irq := irq.(open := true);
      unmasked := Step(pre, Unmask);
      ReachableStep(pre, Unmask);
      Done(Bystander, pre, Unmask);
    }

    /** edunic_poll: all frames that the device had transmitted and, unless the budget is used up,
        all that it had received when the poll began have been reclaimed and handed up. Then either
        NAPI is completed and this call's own write opens the interrupt mask again, or NAPI is on
        the list for another poll. */
    method PollOnce(budget: nat) returns (work: nat, completed: bool, ghost ended: Nic, ghost unmasked: Nic)
      requires Valid() && c.p == PIdle && irq.listed
      modifies this, tx, rx, tx.desc, tx.buf, rx.desc, rx.buf
      ensures Valid() && work <= budget
      ensures old(c.ht.done) <= c.ht.clean
      ensures work < budget ==> old(c.hr.done) <= c.hr.clean
      ensures old(|c.h.delivered|) + work <= |c.h.delivered|
      ensures Reachable(ended) && ended.p == PIdle && Forward(ended, Abs())
      ensures completed ==> work < budget && !ended.irq.sched
      ensures completed ==>
        Reachable(unmasked) && unmasked.irq.open && Forward(ended, unmasked) && Forward(unmasked, Abs())
      ensures !completed ==> ended.irq.listed
    {
      hide Reachable, Step, Inv, Relies;
      BeginPoll(budget);
      var packets := CleanTxIrq(budget);
      work := CleanRxIrq(budget);
      completed, ended := EndPoll(work, budget);
      unmasked := ended;
      if completed {
        unmasked := UnmaskIrq();
      }
    }

    // ---------------------------------------------------------- edunic_start_xmit

    /** The stack hands over an skb. */
    method TakeFrame(frame: Frame)
      requires Valid() && c.x == XIdle
      modifies this, tx, rx, tx.desc, tx.buf, rx.desc, rx.buf
      ensures Valid() && Moved(Xmitting, old(Abs()), Call(frame), Abs())
    {
      hide Reachable, Relies, MapSkb, Park, Release, NewSkb, TxRoom, SkbLen, SkbData, WorkStep, PollStep;
      var pre := Abs();
      m := NewSkb(m, frame, Held);
      Done(Xmitting, pre, Call(frame));
    }

    /** netif_stop_queue, in the state `stop`. */
    method StopTxQueue() returns (ghost stop: Nic)
      requires Valid() && (c.x.XStop? || c.x.XStop2?)
      modifies this, tx, rx, tx.desc, tx.buf, rx.desc, rx.buf
      ensures Valid() && Moved(Xmitting, old(Abs()), Xmit(None), Abs())
      ensures Reachable(stop) && stop == Step(old(Abs()), Xmit(None)) && stop.stopped && Relies(Xmitting, stop, Abs())
      ensures stop.x == if old(c.x.XStop2?) then XRecheck2 else XRecheck(old(c.x).id)
    {
      hide Reachable, Relies, MapSkb, Park, Release, NewSkb, TxRoom, SkbLen, SkbData, WorkStep, PollStep;
      var pre := Abs();
      stopped := true;
      stop := Step(pre, Xmit(None));
      ReachableStep(pre, Xmit(None));
      Done(Xmitting, pre, Xmit(None));
    }

    method StartTxQueue()
      requires Valid() && (c.x.XWake? || c.x.XWake2?)
      modifies this, tx, rx, tx.desc, tx.buf, rx.desc, rx.buf
      ensures Valid() && Moved(Xmitting, old(Abs()), Xmit(None), Abs())
    {
      hide Reachable, Relies, MapSkb, Park, Release, NewSkb, TxRoom, SkbLen, SkbData, WorkStep, PollStep;
      var pre := Abs();
      stopped := false;
      Done(Xmitting, pre, Xmit(None));
    }

    /** The second look at the ring; without room the skb goes back to the stack. */
    method RecheckRoom(id: nat)
      requires Valid() && c.x == XRecheck(id)
      modifies this, tx, rx, tx.desc, tx.buf, rx.desc, rx.buf
      ensures Valid() && Moved(Xmitting, old(Abs()), Xmit(None), Abs())
    {
      hide Reachable, Relies, MapSkb, Park, Release, NewSkb, TxRoom, SkbLen, SkbData, WorkStep, PollStep;
      var pre := Abs();
      if !TxRoom(pre) {
        m := Release(m, Some(id), ReturnedBusy);
      }
      Done(Xmitting, pre, Xmit(None));
    }

    /** edunic_maybe_stop_tx, before (`again` false) and after posting a frame. When the first look finds no
        room, the queue is stopped (in the state `stop`) before the second look (in the state `last`), and
        the answer is that of the second look. */
    method MaybeStopTx(id: nat, again: bool) returns (full: bool, ghost stop: Nic, ghost last: Nic)
      requires Valid() && c.x == (if again then XCheck2 else XCheck(id))
      modifies this, tx, rx, tx.desc, tx.buf, rx.desc, rx.buf
      ensures Valid() && c.x == (if full || again then XIdle else XMap(id))
      ensures c.h.frames == old(c.h.frames) && st.txErrors == old(st.txErrors)
      ensures !full && !again ==> SkbData(m, id) == old(SkbData(m, id))
      ensures old(TxRoom(Abs())) ==> !full
      ensures !old(TxRoom(Abs())) ==>
        && Reachable(stop) && stop.stopped && stop.x == (if again then XRecheck2 else XRecheck(id))
        && Reachable(last) && Relies(Xmitting, stop, last) && (full <==> !TxRoom(last))
    {
      hide Reachable, Step, Inv, Relies, ReadsOnly, TxRoom, SkbData;
      ghost var s := Abs();
      XmitReads(s);
      full := !TxRoom(Abs());
      Look(Xmitting, Xmit(None));
      XmitNext(s, None, Abs());
      stop, last := s, s;
      if full {
        s := Abs();
        stop := StopTxQueue();
        XmitNext(s, None, Abs());
        last := Abs();
        full := Recheck(id, again);
      }
    }

    /** The second look, and undoing the stop. */
    method Recheck(id: nat, again: bool) returns (full: bool)
      requires Valid() && c.x == (if again then XRecheck2 else XRecheck(id))
      modifies this, tx, rx, tx.desc, tx.buf, rx.desc, rx.buf
      ensures Valid() && c.x == (if full || again then XIdle else XMap(id))
      ensures c.h.frames == old(c.h.frames) && st.txErrors == old(st.txErrors)
      ensures !full && !again ==> SkbData(m, id) == old(SkbData(m, id))
      ensures full <==> !old(TxRoom(Abs()))
    {
      hide Reachable, Step, Inv, Relies, ReadsOnly, TxRoom, SkbData;
      ghost var s := Abs();
      XmitReads(s);
      full := !TxRoom(Abs());
      if again {
        Look(Xmitting, Xmit(None));
      } else {
        RecheckRoom(id);
      }
      XmitNext(s, None, Abs());
      if !full {
        s := Abs();
        StartTxQueue();
        XmitNext(s, None, Abs());
      }
    }

    method MapFrame(id: nat, mapping: Option<nat>)
      requires Valid() && c.x == XMap(id)
      modifies this, tx, rx, tx.desc, tx.buf, rx.desc, rx.buf
      ensures Valid() && Moved(Xmitting, old(Abs()), Xmit(mapping), Abs())
    {
      hide Reachable, Relies, MapSkb, Park, Release, NewSkb, TxRoom, SkbLen, SkbData, WorkStep, PollStep;
      var pre := Abs();
      if mapping == None {
        m := Release(m, Some(id), Freed);
        st := st.(txErrors := st.txErrors + 1);
      } else {
        m := MapSkb(m, id, mapping.value, SkbLen(m, id), ToDevice);
      }
      Done(Xmitting, pre, Xmit(mapping));
    }

    method ParkTx(id: nat, dma: nat)
      requires Valid() && c.x == XBuf(id, dma) && tx.ntu < n
      modifies this, tx, rx, tx.desc, tx.buf, rx.desc, rx.buf
      ensures Valid() && Moved(Xmitting, old(Abs()), Xmit(None), Abs())
    {
      hide Reachable, Relies, MapSkb, Park, Release, NewSkb, TxRoom, SkbLen, SkbData, WorkStep, PollStep;
      var pre := Abs();
      var i, len := tx.ntu, SkbLen(m, id);
      tx.PutBuf(i, Buf(Some(id), dma, len));
      m := Park(m, id, InTx(|c.ht.posts|));
      Done(Xmitting, pre, Xmit(None));
    }

    method DescribeTx(id: nat, dma: nat)
      requires Valid() && c.x == XDesc(id, dma) && tx.ntu < n
      modifies this, tx, rx, tx.desc, tx.buf, rx.desc, rx.buf
      ensures Valid() && Moved(Xmitting, old(Abs()), Xmit(None), Abs())
    {
      hide Reachable, Relies, MapSkb, Park, Release, NewSkb, TxRoom, SkbLen, SkbData, WorkStep, PollStep;
      var pre := Abs();
      tx.PutDesc(tx.ntu, Desc(dma, SkbLen(m, id) % 65536, false, false));
      Done(Xmitting, pre, Xmit(None));
    }

    method AdvanceTx()
      requires Valid() && c.x.XUse?
      modifies this, tx, rx, tx.desc, tx.buf, rx.desc, rx.buf
      ensures Valid() && Moved(Xmitting, old(Abs()), Xmit(None), Abs())
    {
      hide Reachable, Relies, MapSkb, Park, Release, NewSkb, TxRoom, SkbLen, SkbData, WorkStep, PollStep;
      var pre := Abs();
      tx.ntu := Next(tx.ntu, n);
      Done(Xmitting, pre, Xmit(None));
    }

    /** The doorbell, TDT. */
    method RingTx()
      requires Valid() && c.x == XTail
      modifies this, tx, rx, tx.desc, tx.buf, rx.desc, rx.buf
      ensures Valid() && Moved(Xmitting, old(Abs()), Xmit(None), Abs())
    {
      hide Reachable, Relies, MapSkb, Park, Release, NewSkb, TxRoom, SkbLen, SkbData, WorkStep, PollStep;
      var pre := Abs();
      tx.tail := tx.ntu;
      Done(Xmitting, pre, Xmit(None));
    }

    /** edunic_hw_kick_tx */
    method KickTx()
      requires Valid() && c.x == XKick
      modifies this, tx, rx, tx.desc, tx.buf, rx.desc, rx.buf
      ensures Valid() && Moved(Xmitting, old(Abs()), Xmit(None), Abs())
    {
      hide Reachable, Relies, MapSkb, Park, Release, NewSkb, TxRoom, SkbLen, SkbData, WorkStep, PollStep;
      var pre := Abs();
      work := true;
      Done(Xmitting, pre, Xmit(None));
    }

    /** edunic_start_xmit: the frame is given back, lost to a failed mapping and counted, or posted
        with its data unchanged; it is given back only after the queue has been stopped. */
    method StartXmit(frame: Frame, mapping: Option<nat>) returns (busy: bool, ghost stop: Nic)
      requires Valid() && c.x == XIdle
      modifies this, tx, rx, tx.desc, tx.buf, rx.desc, rx.buf
      ensures Valid() && c.x == XIdle
      ensures c.h.frames == old(c.h.frames) + if busy || mapping == None then [] else [frame]
      ensures st.txErrors == old(st.txErrors) + if !busy && mapping == None then 1 else 0
      ensures busy ==> Reachable(stop) && stop.stopped && stop.x == XRecheck(old(|m.skbs|))
    {
      hide Reachable, Step, Inv, Relies, ReadsOnly, TxRoom, SkbData;
      var id := |m.skbs|;
      ghost var s := Abs();
      TakeFrame(frame);
      CallNext(s, frame, Abs());
      ghost var last: Nic;
      busy, stop, last := MaybeStopTx(id, false);
      if busy { return; }
      s := Abs();
      MapFrame(id, mapping);
      XmitNext(s, mapping, Abs());
      if mapping == None { return; }
      PostFrame(id, mapping.value, frame);
      ghost var again: Nic;
      var full: bool;
      full, again, last := MaybeStopTx(id, true);
    }

    /** Filling the slot at next_to_use and telling the device. */
    method PostFrame(id: nat, dma: nat, ghost frame: Frame)
      requires Valid() && c.x == XBuf(id, dma) && SkbData(m, id) == frame && tx.ntu < n
      modifies this, tx, rx, tx.desc, tx.buf, rx.desc, rx.buf
      ensures Valid() && c.x == XCheck2 && st.txErrors == old(st.txErrors)
      ensures c.h.frames == old(c.h.frames) + [frame]
    {
      hide Reachable, Step, Inv, Relies, ReadsOnly, TxRoom, SkbData;
      ghost var s := Abs();
      ParkTx(id, dma);
      XmitNext(s, None, Abs());
      s := Abs();
      DescribeTx(id, dma);
      XmitNext(s, None, Abs());
      s := Abs();
      AdvanceTx();
      XmitNext(s, None, Abs());
      RingDoorbell();
    }

    method RingDoorbell()
      requires Valid() && c.x == XTail
      modifies this, tx, rx, tx.desc, tx.buf, rx.desc, rx.buf
      ensures Valid() && c.x == XCheck2 && st.txErrors == old(st.txErrors) && c.h.frames == old(c.h.frames)
    {
      hide Reachable, Step, Inv, Relies, ReadsOnly, TxRoom, SkbData;
      ghost var s := Abs();
      RingTx();
      XmitNext(s, None, Abs());
      s := Abs();
      KickTx();
      XmitNext(s, None, Abs());
    }

    // ---------------------------------------------------------- edunic_hw_deliver_rx_frame

    /** Without a published buffer the frame is dropped and counted. */
    method ReadRdt() returns (empty: bool)
      requires Valid() && c.w.WRdt?
      modifies this, tx, rx, tx.desc, tx.buf, rx.desc, rx.buf
      ensures Valid() && Moved(Working, old(Abs()), Work(false), Abs()) && empty == old(c.w.rh == rx.tail)
    {
      hide Reachable, Relies, WriteSkb, ReadSkb, XmitStep, PollStep, DeliverData, DeliverLen, DeliverMark,
           DeliverHead, DeliverCause, EngineCheck, EngineCopy, EngineDone, EngineEnd;
      var pre := Abs();
      empty := c.w.rh == rx.tail;
      if empty {
        st := st.(rxDropped := st.rxDropped + 1);
      }
      Done(Working, pre, Work(false));
    }

    method WriteData(head: nat, frame: Frame)
      requires Valid() && c.w.WData? && c.w.rh == head < n && c.w.frame == frame
      modifies this, tx, rx, tx.desc, tx.buf, rx.desc, rx.buf
      ensures Valid() && Moved(Working, old(Abs()), Work(false), Abs())
    {
      hide Reachable, Relies, WriteSkb, ReadSkb, XmitStep, PollStep, DeliverCheck, DeliverLen, DeliverMark,
           DeliverHead, DeliverCause, EngineCheck, EngineCopy, EngineDone, EngineEnd;
      var pre := Abs();
      var slot := rx.buf[head];
      m := WriteSkb(m, slot.skb, if |frame| > slot.len then frame[..slot.len] else frame);
      Done(Working, pre, Work(false));
    }

    method WriteLength(head: nat, frame: Frame)
      requires Valid() && c.w.WLen? && c.w.rh == head < n && c.w.frame == frame
      modifies this, tx, rx, tx.desc, tx.buf, rx.desc, rx.buf
      ensures Valid() && Moved(Working, old(Abs()), Work(false), Abs())
    {
      hide Reachable, Relies, WriteSkb, ReadSkb, XmitStep, PollStep, DeliverCheck, DeliverData, DeliverMark,
           DeliverHead, DeliverCause, EngineCheck, EngineCopy, EngineDone, EngineEnd;
      var pre := Abs();
      rx.PutDesc(head, rx.desc[head].(length := |frame|, error := false));
      Done(Working, pre, Work(false));
    }

    method MarkRx(head: nat)
      requires Valid() && c.w.WMark? && c.w.rh == head < n
      modifies this, tx, rx, tx.desc, tx.buf, rx.desc, rx.buf
      ensures Valid() && Moved(Working, old(Abs()), Work(false), Abs())
    {
      hide Reachable, Relies, WriteSkb, ReadSkb, XmitStep, PollStep, DeliverCheck, DeliverLen, DeliverData,
           DeliverHead, DeliverCause, EngineCheck, EngineCopy, EngineDone, EngineEnd;
      var pre := Abs();
      rx.PutDesc(head, rx.desc[head].(done := true));
      Done(Working, pre, Work(false));
    }

    method AdvanceRdh(head: nat)
      requires Valid() && c.w.WRdhUp? && c.w.rh == head
      modifies this, tx, rx, tx.desc, tx.buf, rx.desc, rx.buf
      ensures Valid() && Moved(Working, old(Abs()), Work(false), Abs())
    {
      hide Reachable, Relies, WriteSkb, ReadSkb, XmitStep, PollStep, DeliverCheck, DeliverLen, DeliverMark,
           DeliverData, DeliverCause, EngineCheck, EngineCopy, EngineDone, EngineEnd;
      var pre := Abs();
      rx.head := Next(head, n);
      Done(Working, pre, Work(false));
    }

    method RaiseRx()
      requires Valid() && c.w.WIcs?
      modifies this, tx, rx, tx.desc, tx.buf, rx.desc, rx.buf
      ensures Valid() && Moved(Working, old(Abs()), Work(false), Abs())
    {
      hide Reachable, Relies, WriteSkb, ReadSkb, XmitStep, PollStep, DeliverCheck, DeliverLen, DeliverMark,
           DeliverHead, DeliverData, EngineCheck, EngineCopy, EngineDone, EngineEnd;
      var pre := Abs();
      irq := irq.(rx := true);
      Done(Working, pre, Work(false));
    }

    /** edunic_hw_deliver_rx_frame: the frame, cut to one buffer, joins the received frames, or is
        dropped and counted; it is dropped only if no buffer was published at the call. */
    method DeliverRxFrame(ghost at: nat, ghost end: nat, frame: Frame) returns (dropped: bool)
      requires Valid() && c.w == WRdh(at, end, frame)
      modifies this, tx, rx, tx.desc, tx.buf, rx.desc, rx.buf
      ensures Valid() && c.w == WDone(at, end, if dropped then RxDropped else Looped) && SameRun(old(Abs()), Abs())
      ensures c.ht.done == old(c.ht.done) && c.h.fates == old(c.h.fates)
      ensures dropped ==>
        c.h.loops == old(c.h.loops) && st.rxDropped == old(st.rxDropped) + 1 && old(c.hr.tail) <= old(c.hr.done)
      ensures !dropped ==> c.h.loops == old(c.h.loops) + [Clip(frame)] && st.rxDropped == old(st.rxDropped)
    {
      hide Reachable, Step, Inv, Relies, ReadsOnly, Clip;
      var head: nat;
      head, dropped := FindBuffer(at, end, frame);
      if dropped { return; }
      FillRx(at, end, head, frame);
      AnnounceRx(at, end, head);
    }

    /** RDH, RDT, and dropping the frame when they are equal. */
    method FindBuffer(ghost at: nat, ghost end: nat, ghost frame: Frame) returns (head: nat, empty: bool)
      requires Valid() && c.w == WRdh(at, end, frame)
      modifies this, tx, rx, tx.desc, tx.buf, rx.desc, rx.buf
      ensures Valid() && c.w == (if empty then WDone(at, end, RxDropped) else WData(at, end, frame, head))
      ensures SameRun(old(Abs()), Abs()) && c.ht.done == old(c.ht.done) && c.h.fates == old(c.h.fates)
      ensures c.h.loops == old(c.h.loops) && st.rxDropped == old(st.rxDropped) + if empty then 1 else 0
      ensures empty ==> old(c.hr.tail) <= old(c.hr.done)
    {
      hide Reachable, Step, Inv, Relies, ReadsOnly;
      ghost var s := Abs();
      EngineReads(s);
      head := rx.head;
      Look(Working, Work(false));
      DeliverNext(s, Abs());
      DeliverGoes(s);
      s := Abs();
      empty := ReadRdt();
      DeliverNext(s, Abs());
      DeliverGoes(s);
    }

    /** RDH and the RX cause. */
    method AnnounceRx(ghost at: nat, ghost end: nat, head: nat)
      requires Valid() && c.w == WRdhUp(at, end, head)
      modifies this, tx, rx, tx.desc, tx.buf, rx.desc, rx.buf
      ensures Valid() && c.w == WDone(at, end, Looped) && SameRun(old(Abs()), Abs())
      ensures c.ht.done == old(c.ht.done) && c.h.fates == old(c.h.fates)
      ensures c.h.loops == old(c.h.loops) && st.rxDropped == old(st.rxDropped)
    {
      hide Reachable, Step, Inv, Relies, ReadsOnly, Clip;
      ghost var s := Abs();
      AdvanceRdh(head);
      DeliverNext(s, Abs());
      DeliverGoes(s);
      s := Abs();
      RaiseRx();
      DeliverNext(s, Abs());
      DeliverGoes(s);
    }

    /** The frame, its length and DD. */
    method FillRx(ghost at: nat, ghost end: nat, head: nat, frame: Frame)
      requires Valid() && c.w == WData(at, end, frame, head)
      modifies this, tx, rx, tx.desc, tx.buf, rx.desc, rx.buf
      ensures Valid() && c.w == WRdhUp(at, end, head) && SameRun(old(Abs()), Abs())
      ensures c.ht.done == old(c.ht.done) && c.h.fates == old(c.h.fates)
      ensures c.h.loops == old(c.h.loops) + [Clip(frame)] && st.rxDropped == old(st.rxDropped)
    {
      hide Reachable, Step, Inv, Relies, ReadsOnly, Clip;
      ghost var s := Abs();
      EngineReads(s);
      WriteData(head, frame);
      DeliverNext(s, Abs());
      DeliverGoes(s);
      s := Abs();
      EngineReads(s);
      var f := c.w.frame;
      WriteLength(head, f);
      DeliverNext(s, Abs());
      DeliverGoes(s);
      s := Abs();
      EngineReads(s);
      MarkRx(head);
      DeliverNext(s, Abs());
      DeliverGoes(s);
    }

    // ---------------------------------------------------------- edunic_hw_tx_worker

    /** The workqueue takes the work item off its queue. */
    method BeginWork()
      requires Valid() && c.w == WIdle && work
      modifies this, tx, rx, tx.desc, tx.buf, rx.desc, rx.buf
      ensures Valid() && Moved(Working, old(Abs()), Work(false), Abs())
    {
      hide Reachable, Relies, WriteSkb, ReadSkb, XmitStep, PollStep, DeliverCheck, DeliverData, DeliverLen,
           DeliverMark, DeliverHead, DeliverCause;
      var pre := Abs();
      work := false;
      Done(Working, pre, Work(false));
    }

    /** kmalloc and memcpy out of the skb; whether there is memory is the kernel's choice. */
    method CopyFrame(head: nat, len: nat) returns (copied: bool, frame: Frame)
      requires Valid() && c.w.WCopy? && c.w.head == head < n && c.w.len == len
      modifies this, tx, rx, tx.desc, tx.buf, rx.desc, rx.buf
      ensures Valid() && Moved(Working, old(Abs()), Work(copied), Abs())
      ensures copied ==> c.w == WRdh(old(c.w.head), old(c.w.tail), frame)
    {
      hide Reachable, WriteSkb, ReadSkb, XmitStep, PollStep, DeliverCheck, DeliverData, DeliverLen, DeliverMark,
           DeliverHead, DeliverCause, EngineCheck, EngineDone, EngineEnd;
      var pre := Abs();
      copied := *;
      frame := [];
      if copied {
        var read := ReadSkb(m, tx.buf[head].skb, len);
        m, frame := read.0, read.1;
      }
      Done(Working, pre, Work(copied));
    }

    method MarkTx(head: nat)
      requires Valid() && c.w.WDone? && c.w.head == head < n
      modifies this, tx, rx, tx.desc, tx.buf, rx.desc, rx.buf
      ensures Valid() && Moved(Working, old(Abs()), Work(false), Abs())
    {
      hide Reachable, Relies, WriteSkb, ReadSkb, XmitStep, PollStep, DeliverCheck, DeliverData, DeliverLen,
           DeliverMark, DeliverHead, DeliverCause, EngineCheck, EngineCopy, EngineEnd;
      var pre := Abs();
      tx.PutDesc(head, tx.desc[head].(done := true));
      Done(Working, pre, Work(false));
    }

    method AdvanceTdh(head: nat)
      requires Valid() && c.w == WTdh(head)
      modifies this, tx, rx, tx.desc, tx.buf, rx.desc, rx.buf
      ensures Valid() && Moved(Working, old(Abs()), Work(false), Abs())
    {
      hide Reachable, Relies, WriteSkb, ReadSkb, XmitStep, PollStep, DeliverCheck, DeliverData, DeliverLen,
           DeliverMark, DeliverHead, DeliverCause, EngineCheck, EngineCopy, EngineDone;
      var pre := Abs();
      tx.head := head;
      Done(Working, pre, Work(false));
    }

    method RaiseTx()
      requires Valid() && c.w == WIcsTx
      modifies this, tx, rx, tx.desc, tx.buf, rx.desc, rx.buf
      ensures Valid() && Moved(Working, old(Abs()), Work(false), Abs())
    {
      hide Reachable, Relies, WriteSkb, ReadSkb, XmitStep, PollStep, DeliverCheck, DeliverData, DeliverLen,
           DeliverMark, DeliverHead, DeliverCause, EngineCheck, EngineCopy, EngineDone, Intr;
      var pre := Abs();
      irq := irq.(tx := true);
      Done(Working, pre, Work(false));
    }

    /** edunic_intr: reading ICR clears it; a change of the link is passed on. */
    method ReadIcr() returns (due: bool)
      requires Valid() && c.w == WIsr(IRead)
      modifies this, tx, rx, tx.desc, tx.buf, rx.desc, rx.buf
      ensures Valid() && Moved(Working, old(Abs()), Work(false), Abs())
      ensures due == old(irq.tx || irq.rx)
    {
      hide Reachable, Relies, WriteSkb, ReadSkb, XmitStep, PollStep, DeliverCheck, DeliverData, DeliverLen,
           DeliverMark, DeliverHead, DeliverCause, EngineCheck, EngineCopy, EngineDone, Intr;
      var pre := Abs();
      var icr := irq;
      IcrRead(icr);
      var carrier := irq.carrier;
      if icr.lsc {
        carrier := irq.link;
      }
      irq := irq.(tx := false, rx := false, lsc := false, carrier := carrier);
      due := icr.rx || icr.tx;
      Done(Working, pre, Work(false));
    }

    /** napi_schedule_prep: the SCHED bit is tested and set; if it was set, MISSED is set. */
    method SchedulePrep() returns (claimed: bool)
      requires Valid() && c.w == WIsr(IPrep)
      modifies this, tx, rx, tx.desc, tx.buf, rx.desc, rx.buf
      ensures Valid() && Moved(Working, old(Abs()), Work(false), Abs())
      ensures claimed == !old(irq.sched)
    {
      hide Reachable, Relies, WriteSkb, ReadSkb, XmitStep, PollStep, DeliverCheck, DeliverData, DeliverLen,
           DeliverMark, DeliverHead, DeliverCause, EngineCheck, EngineCopy, EngineDone;
      var pre := Abs();
      claimed := !irq.sched;
      if claimed {
        irq := irq.(sched := true);
      } else {
        irq := irq.(missed := true);
      }
      Done(Working, pre, Work(false));
    }

    /** The write to IMC. */
    method MaskCauses()
      requires Valid() && c.w == WIsr(IMask)
      modifies this, tx, rx, tx.desc, tx.buf, rx.desc, rx.buf
      ensures Valid() && Moved(Working, old(Abs()), Work(false), Abs())
    {
      hide Reachable, Relies, WriteSkb, ReadSkb, XmitStep, PollStep, DeliverCheck, DeliverData, DeliverLen,
           DeliverMark, DeliverHead, DeliverCause, EngineCheck, EngineCopy, EngineDone;
      var pre := Abs();
      irq := irq.(open := false);
      Done(Working, pre, Work(false));
    }

    /** __napi_schedule */
    method ListNapi()
      requires Valid() && c.w == WIsr(IList)
      modifies this, tx, rx, tx.desc, tx.buf, rx.desc, rx.buf
      ensures Valid() && Moved(Working, old(Abs()), Work(false), Abs())
    {
      hide Reachable, Relies, WriteSkb, ReadSkb, XmitStep, PollStep, DeliverCheck, DeliverData, DeliverLen,
           DeliverMark, DeliverHead, DeliverCause, EngineCheck, EngineCopy, EngineDone;
      var pre := Abs();
      irq := irq.(listed := true);
      Done(Working, pre, Work(false));
    }

    /** edunic_intr, called by the work item. It goes on exactly if ICR names RX or TX at the call, and then
        claims NAPI exactly if at its napi_schedule_prep, in the state `prep`, NAPI is neither on the
        list nor being polled nor claimed by the timer's call of the handler. */
    method RunIntr() returns (due: bool, claimed: bool, ghost prep: Nic)
      requires Valid() && c.w == WIsr(IRead)
      modifies this, tx, rx, tx.desc, tx.buf, rx.desc, rx.buf
      ensures Valid() && c.w == WIdle && SameWork(old(Abs()), Abs())
      ensures due == old(irq.tx || irq.rx)
      ensures due ==> Reachable(prep) && prep.w == WIsr(IPrep) && SameWork(old(Abs()), prep)
      ensures claimed <==> due && !(prep.irq.listed || LookOf(prep.p) != Off || Claimed(TimerIsr(prep.t)))
    {
      hide Reachable, Step, Inv, Relies, LookOf;
      ghost var s := Abs();
      due := ReadIcr();
      EngineNext(s, false, Abs());
      IntrGoes(s);
      prep, claimed := Abs(), false;
      if due {
        claimed := SchedulePrep();
        EngineNext(prep, false, Abs());
        IntrGoes(prep);
        EdunicProgress.ScheduledOnce(prep);
        if claimed {
          s := Abs();
          MaskCauses();
          EngineNext(s, false, Abs());
          IntrGoes(s);
          s := Abs();
          ListNapi();
          EngineNext(s, false, Abs());
          IntrGoes(s);
        }
      }
    }

    /** The start of a run, up to the snapshots of TDH and TDT. */
    method BeginRun() returns (head: nat, tail: nat)
      requires Valid() && c.w == WIdle && work
      modifies this, tx, rx, tx.desc, tx.buf, rx.desc, rx.buf
      ensures Valid() && c.w == WLoop(head, tail, false)
      ensures old(c.ht.tail) <= c.h.cover && c.ht.done == old(c.ht.done) && c.h.fates == old(c.h.fates)
      ensures c.h.loops == old(c.h.loops)
    {
      hide Reachable, Step, Inv, Relies, ReadsOnly;
      ghost var s := Abs();
      BeginWork();
      EngineNext(s, false, Abs());
      EngineGoes(s);
      s := Abs();
      EngineReads(s);
      head := tx.head;
      Look(Working, Work(false));
      EngineNext(s, false, Abs());
      EngineGoes(s);
      s := Abs();
      EngineReads(s);
      tail := tx.tail;
      Look(Working, Work(false));
      EngineNext(s, false, Abs());
      EngineGoes(s);
    }

    /** One frame: looped back, or lost, and then marked done. */
    method PassFrame(head: nat, tail: nat) returns (ghost fate: Fate)
      requires Valid() && c.w == WFetch(head, tail)
      modifies this, tx, rx, tx.desc, tx.buf, rx.desc, rx.buf
      ensures Valid() && c.w == WLoop(Next(head, n), tail, true)
      ensures c.h.cover == old(c.h.cover) && old(c.ht.tail) <= c.ht.tail
      ensures c.h.fates == old(c.h.fates) + [fate] && c.ht.done == old(c.ht.done) + 1
      ensures old(c.h.loops) <= c.h.loops && |c.h.loops| == old(|c.h.loops|) + if fate == Looped then 1 else 0
    {
      hide Reachable, Step, Inv, Relies, ReadsOnly, Clip, DescAt, BufAt;
      ghost var s := Abs();
      EngineReads(s);
      var len, dma := tx.desc[head].length, tx.buf[head].dma;
      SlotReads(s, head);
      Look(Working, Work(false));
      EngineNext(s, false, Abs());
      EngineGoes(s);
      fate := Skipped;
      if dma != 0 && len != 0 {
        fate := LoopFrame(head, tail, len);
      }
      s := Abs();
      EngineReads(s);
      MarkTx(head);
      EngineNext(s, false, Abs());
      EngineGoes(s);
    }

    /** Copying the frame and putting it into the receive ring. */
    method LoopFrame(head: nat, tail: nat, len: nat) returns (ghost fate: Fate)
      requires Valid() && c.w == WCopy(head, tail, len)
      modifies this, tx, rx, tx.desc, tx.buf, rx.desc, rx.buf
      ensures Valid() && c.w == WDone(head, tail, fate) && SameRun(old(Abs()), Abs())
      ensures c.ht.done == old(c.ht.done) && c.h.fates == old(c.h.fates)
      ensures old(c.h.loops) <= c.h.loops && |c.h.loops| == old(|c.h.loops|) + if fate == Looped then 1 else 0
    {
      hide Reachable, Step, Inv, Relies, ReadsOnly, Clip, DescAt, BufAt;
      ghost var s := Abs();
      EngineReads(s);
      var copied, frame := CopyFrame(head, len);
      EngineNext(s, copied, Abs());
      EngineGoes(s);
      fate := CopyFailed;
      if copied {
        var dropped := DeliverRxFrame(head, tail, frame);
        fate := if dropped then RxDropped else Looped;
      }
    }

    /** After the loop: TDH, the TX cause and the interrupt. */
    method EndRun(head: nat, sent: bool)
      requires Valid() && c.w == if sent then WTdh(head) else WIdle
      modifies this, tx, rx, tx.desc, tx.buf, rx.desc, rx.buf
      ensures Valid() && c.w == WIdle && SameWork(old(Abs()), Abs())
    {
      hide Reachable, Step, Inv, Relies, ReadsOnly;
      if sent {
        ghost var s := Abs();
        AdvanceTdh(head);
        EngineNext(s, false, Abs());
        EngineGoes(s);
        s := Abs();
        RaiseTx();
        EngineNext(s, false, Abs());
        EngineGoes(s);
        ghost var prep: Nic;
        var due, claimed: bool;
        due, claimed, prep := RunIntr();
      }
    }

    /** edunic_hw_tx_worker: passes every frame that TDT announced at the call, in order, and no
        frame beyond the value of TDT that it read. */
    method TxWorker()
      requires Valid() && c.w == WIdle && work
      modifies this, tx, rx, tx.desc, tx.buf, rx.desc, rx.buf
      ensures Valid() && c.w == WIdle
      ensures old(c.ht.tail) <= c.h.cover == c.ht.done == |c.h.fates|
      ensures old(c.h.fates) <= c.h.fates && old(c.h.loops) <= c.h.loops
    {
      hide Reachable, Step, Inv, Relies, ReadsOnly, Clip;
      var head, tail := BeginRun();
      var sent := false;
      ghost var s := Abs();
      RunBounds(s);
      while true
        invariant Valid() && c.w == WLoop(head, tail, sent)
        invariant old(c.ht.tail) <= c.h.cover && c.ht.done <= c.h.cover
        invariant old(c.h.fates) <= c.h.fates && old(c.h.loops) <= c.h.loops
        decreases c.h.cover - c.ht.done
      {
        s := Abs();
        EngineReads(s);
        var more := head != tail;
        Look(Working, Work(false));
        EngineNext(s, false, Abs());
        EngineGoes(s);
        RunBounds(Abs());
        if !more { break; }
        ghost var fate := PassFrame(head, tail);
        RunBounds(Abs());
        head := Next(head, n);
        sent := true;
      }
      EndRun(head, sent);
      RunBounds(Abs());
    }
  }
}
