/** Every step of every agent keeps the invariant: one lemma for each access. */
module EdunicKeeps {
  import opened Ring
  import opened Memory
  import opened Edunic
  import opened EdunicInvariant
  import opened EdunicMemory

  /** The driver's test for room is right. */
  lemma RoomIsRoom(s: Nic)
    requires TxSide(s.n, s.tx, s.ht, XFill(s.x, s.m), s.x, s.w, s.p, s.h.cover)
    ensures TxRoom(s) <==> Room(s.n, s.ht)
  {
    ZoneBounds(s.n, s.tx.desc, s.tx.buf, ViewOf(s.ht, XFill(s.x, s.m), s.p.TClear?));
    UnusedCounts(s.ht.clean, s.ht.use, s.n);
  }

  // ------------------------------------------------------------ edunic_start_xmit

  lemma XmitCallKeeps(s: Nic, frame: Frame)
    requires Inv(s)
    ensures Inv(XmitCall(s, frame))
  {
    hide Zones, MemOk, RxSide, FlowSide, StatsSide, IrqSide, WorkOk, CleanTxOk, Regs, NewSkb;
    if s.x == XIdle {
      XmitTakes(s.m, BooksOf(s), frame);
    }
  }

  lemma FirstCheckKeeps(s: Nic)
    requires Inv(s) && (s.x.XCheck? || s.x.XStop? || s.x.XWake?)
    ensures Inv(MaybeStop(s))
  {
    hide Zones, MemOk, RxSide, FlowSide, StatsSide, IrqSide, WorkOk, CleanTxOk, Regs, TxRoom;
    RoomIsRoom(s);
  }

  lemma RecheckKeeps(s: Nic)
    requires Inv(s) && s.x.XRecheck?
    ensures Inv(MaybeStop(s))
  {
    hide Zones, MemOk, RxSide, FlowSide, StatsSide, IrqSide, WorkOk, CleanTxOk, Regs, TxRoom, Release;
    RoomIsRoom(s);
    XmitReleases(s.m, BooksOf(s), ReturnedBusy);
  }

  lemma SecondCheckKeeps(s: Nic)
    requires Inv(s) && (s.x == XCheck2 || s.x == XStop2 || s.x == XRecheck2 || s.x == XWake2)
    ensures Inv(MaybeStop(s))
  {
    hide Zones, MemOk, RxSide, FlowSide, StatsSide, IrqSide, WorkOk, CleanTxOk, Regs, TxRoom;
    RoomIsRoom(s);
  }

  lemma XmitMapKeeps(s: Nic, id: nat, mapping: Option<nat>)
    requires Inv(s) && s.x == XMap(id)
    ensures Inv(XmitMap(s, id, mapping))
  {
    hide Zones, MemOk, RxSide, FlowSide, IrqSide, WorkOk, CleanTxOk, Regs, TxStatsOk, Count, SumFrames, Release, MapSkb;
    if mapping == None {
      XmitReleases(s.m, BooksOf(s), Freed);
    } else {
      XmitMaps(s.m, BooksOf(s), mapping.value);
    }
  }

  lemma XmitParkKeeps(s: Nic, id: nat, dma: nat)
    requires Inv(s) && s.x == XBuf(id, dma)
    ensures Inv(XmitPark(s, id, dma))
  {
    hide Zones, MemOk, RxSide, FlowSide, StatsSide, IrqSide, WorkOk, CleanTxOk, Slot, SlotOk;
    var v := ViewOf(s.ht, Blank, s.p.TClear?);
    ZoneBounds(s.n, s.tx.desc, s.tx.buf, v);
    ParkSlot(s.n, s.tx.desc, s.tx.buf, v, Post(id, dma, SkbLen(s.m, id)));
    XmitParks(s.m, BooksOf(s));
  }

  lemma XmitDescribeKeeps(s: Nic, id: nat, dma: nat)
    requires Inv(s) && s.x == XDesc(id, dma)
    ensures Inv(XmitDescribe(s, id, dma))
  {
    hide Zones, MemOk, RxSide, StatsSide, IrqSide, WorkOk, CleanTxOk, LoopsOk, EngineOk, Skips, Slot, SlotOk;
    var v := ViewOf(s.ht, XFill(s.x, s.m), s.p.TClear?);
    ZoneBounds(s.n, s.tx.desc, s.tx.buf, v);
    DescribeSlot(s.n, s.tx.desc, s.tx.buf, v, SkbLen(s.m, id) % 65536);
    var r := XmitDescribe(s, id, dma);
    assert ViewOf(r.ht, XFill(r.x, r.m), false)
         == v.(fill := Described(v.fill.post), lens := r.ht.lens, dirty := false);
  }

  lemma {:induction false} LoopsOfMore(frames: seq<Frame>, more: seq<Frame>, fates: seq<Fate>)
    requires |fates| <= |frames|
    ensures LoopsOf(frames + more, fates) == LoopsOf(frames, fates)
    decreases |fates|
  {
    if fates != [] {
      LoopsOfMore(frames, more, fates[..|fates| - 1]);
    }
  }

  lemma PostFlow(s: Nic, post: Post, frame: Frame)
    requires Inv(s) && s.x.XUse? && post.len == |frame| == SkbLen(s.m, s.x.id)
    ensures FlowSide(s.w, s.ht.posts + [post], s.ht.lens, s.ht.done, s.hr.done, s.hr.taken, s.hr.lens,
                     s.h.frames + [frame], s.h.fates, s.h.loops, s.h.delivered)
  {
    hide Zones, MemOk, RxSide, StatsSide, IrqSide, CleanTxOk, FrameOk, Carried, LoopsOf;
    LoopsOfMore(s.h.frames, [frame], s.h.fates);
    ZoneBounds(s.n, s.tx.desc, s.tx.buf, ViewOf(s.ht, XFill(s.x, s.m), s.p.TClear?));
    if s.ht.done == |s.ht.posts| {
      assert !Busy(s.w);
      assert FrameOk(s.w, post, frame) by { NotBusy(s.w, post, frame); }
    }
  }

  lemma NotBusy(w: WorkPc, post: Post, frame: Frame)
    requires !Busy(w)
    ensures FrameOk(w, post, frame)
  {}

  lemma XmitPublishKeeps(s: Nic, id: nat, dma: nat)
    requires Inv(s) && s.x == XUse(id, dma)
    ensures Inv(XmitPublish(s, id, dma))
  {
    hide Zones, MemOk, RxSide, FlowSide, IrqSide, RxStatsOk, WorkOk, Slot, SlotOk;
    var r := XmitPublish(s, id, dma);
    var v := ViewOf(s.ht, XFill(s.x, s.m), s.p.TClear?);
    ZoneBounds(s.n, s.tx.desc, s.tx.buf, v);
    PublishSlot(s.n, s.tx.desc, s.tx.buf, v);
    SlotNext(s.ht.use, s.n);
    XmitPosts(s.m, BooksOf(s));
    PostFlow(s, Post(id, dma, SkbLen(s.m, id)), SkbData(s.m, id));
    assert ViewOf(r.ht, XFill(r.x, r.m), false) == v.(fill := Blank, posts := r.ht.posts, dirty := false);
    assert r.ht.posts[..s.ht.taken] == s.ht.posts[..s.ht.taken];
  }

  lemma XmitRingKeeps(s: Nic)
    requires Inv(s) && (s.x == XTail || s.x == XKick)
    ensures Inv(XmitRing(s))
  {
    hide Zones, MemOk, RxSide, FlowSide, StatsSide, IrqSide, Slot;
  }

  // ------------------------------------------------------------ interrupts

  /** A step of the interrupt handler, called by the DMA engine (or by the timer, with the two
      handlers exchanged). */
  lemma IntrKeeps(q: Irq, l: Look, owes: bool, pc: IsrPc, other: Option<IsrPc>, linking: bool, unmasks: nat,
                  txDone: bool, rxDone: bool)
    requires IrqOk(q, l, owes, Some(pc), other, linking, unmasks, txDone, rxDone)
    ensures var (r, next) := Intr(q, pc); IrqOk(r, l, owes, next, other, linking, unmasks, txDone, rxDone)
  {}

  lemma Exchange(q: Irq, l: Look, owes: bool, wi: Option<IsrPc>, ti: Option<IsrPc>, linking: bool, unmasks: nat,
                 txDone: bool, rxDone: bool)
    requires IrqOk(q, l, owes, wi, ti, linking, unmasks, txDone, rxDone)
    ensures IrqOk(q, l, owes, ti, wi, linking, unmasks, txDone, rxDone)
  {}

  lemma TimerKeeps(s: Nic)
    requires Inv(s)
    ensures Inv(TimerStep(s))
  {
    var l, o, wi := LookOf(s.p), EngineOwes(s.w), EngineIsr(s.w);
    var tx, rx := s.ht.taken < s.ht.done, s.hr.taken < s.hr.done;
    if s.t.TIsr? {
      hide TxSide, RxSide, MemOk, FlowSide, StatsSide, LastLenOk, QueueOk, DoorOk, LookOf, EngineOwes, EngineIsr,
           IrqOk, Intr;
      Exchange(s.irq, l, o, wi, Some(s.t.isr), false, s.unmasks, tx, rx);
      IntrKeeps(s.irq, l, o, s.t.isr, wi, false, s.unmasks, tx, rx);
      var (r, next) := Intr(s.irq, s.t.isr);
      Exchange(r, l, o, next, wi, false, s.unmasks, tx, rx);
    } else {
      hide TxSide, RxSide, MemOk, FlowSide, StatsSide, LastLenOk, QueueOk, DoorOk, LookOf, EngineOwes, EngineIsr;
    }
  }

  lemma UnmaskKeeps(s: Nic)
    requires Inv(s)
    ensures Inv(UnmaskStep(s))
  {
    hide TxSide, RxSide, MemOk, FlowSide, StatsSide, LastLenOk, QueueOk, DoorOk, LookOf, EngineOwes, EngineIsr;
  }

  lemma PollCallKeeps(s: Nic, budget: nat)
    requires Inv(s)
    ensures Inv(PollCall(s, budget))
  {
    hide Zones, MemOk, FlowSide, LastLenOk, DoorOk, RxOk, WorkOk, DeliverOk, RxStatsOk, SumLen, Slot, EngineOwes,
         EngineIsr;
  }

  lemma FinishIrq(q: Irq, caller: Caller, owes: bool, wi: Option<IsrPc>, ti: Option<IsrPc>, linking: bool, unmasks: nat,
                  txDone: bool, rxDone: bool)
    requires IrqOk(q, After(caller), owes, wi, ti, linking, unmasks, txDone, rxDone)
    ensures match caller
            case Probe => IrqOk(q, Off, owes, wi, ti, linking, unmasks, txDone, rxDone)
            case Harvest(work, b) =>
              if work >= b then IrqOk(q.(listed := true), Off, owes, wi, ti, linking, unmasks, txDone, rxDone)
              else if q.missed then
                IrqOk(q.(missed := false, listed := true), Off, owes, wi, ti, linking, unmasks, txDone, rxDone)
              else IrqOk(q.(sched := false), Off, owes, wi, ti, linking, unmasks + 1, txDone, rxDone)
  {}

  lemma PollFinishKeeps(s: Nic, caller: Caller)
    requires Inv(s) && s.p == PDone(caller)
    ensures Inv(PollFinish(s, caller))
  {
    hide Zones, MemOk, FlowSide, LastLenOk, DoorOk, TxOk, Regs, WorkOk, DeliverOk, RxStatsOk, SumLen, EngineOwes,
         EngineIsr, TimerIsr, IrqOk;
    FinishIrq(s.irq, caller, EngineOwes(s.w), EngineIsr(s.w), TimerIsr(s.t), s.t == TIcs, s.unmasks,
              s.ht.taken < s.ht.done, s.hr.taken < s.hr.done);
  }

  // ------------------------------------------------------------ edunic_hw_tx_worker

  /** The frame at the engine's head is posted and not yet taken back, and its slot describes it. */
  lemma BusyPost(s: Nic)
    requires Inv(s) && Busy(s.w)
    ensures s.ht.taken <= s.ht.done < |s.ht.posts| == |s.h.frames| && s.w.head == Slot(s.ht.done, s.n)
    ensures FrameOk(s.w, s.ht.posts[s.ht.done], s.h.frames[s.ht.done])
    ensures var post := s.ht.posts[s.ht.done];
            && BufAt(s.tx, s.w.head) == Buf(Some(post.skb), post.dma, post.len)
            && DescAt(s.tx, s.w.head).length == |s.h.frames[s.ht.done]| % 65536
  {
    hide MemOk, RxSide, StatsSide, IrqSide, LoopsOk, FrameOk, Skips;
    var v := ViewOf(s.ht, XFill(s.x, s.m), s.p.TClear?);
    assert SlotOk(s.n, s.tx.desc, s.tx.buf, v, s.ht.done);
  }

  lemma SnapshotSpan(s: Nic)
    requires Inv(s)
    ensures s.h.cover < s.ht.done + s.n
  {
    hide MemOk, RxSide, FlowSide, StatsSide, IrqSide;
  }

  lemma CarriedSome(post: Post, frame: Frame)
    requires !Skips(post, frame)
    ensures 0 < |Carried(frame)| <= RX_BUF_SIZE
  {}

  lemma DeliverCheckKeeps(s: Nic)
    requires Inv(s) && (s.w.WRdh? || s.w.WRdt?)
    ensures Inv(DeliverCheck(s))
  {
    hide Zones, MemOk, TxOk, CleanTxOk, CleanRxOk, RefillOk, PostsOk, TxStatsOk, LastLenOk, QueueOk, IrqOk, LoopsOf,
         Count, SumFrames, Slot;
    ZoneBounds(s.n, s.rx.desc, s.rx.buf, ViewOf(s.hr, AFill(s.p), s.p.RClear?));
    SlotEq(s.hr.done, s.hr.tail, s.n);
  }

  /** The slot at the device's head position is posted, empty and of full size. */
  lemma DeliverSlot(s: Nic)
    requires Inv(s) && Delivering(s.w)
    ensures s.hr.done < |s.hr.posts|
    ensures BufAt(s.rx, s.w.rh) == Buf(Some(s.hr.posts[s.hr.done].skb), s.hr.posts[s.hr.done].dma, RX_BUF_SIZE)
  {
    hide MemOk, TxSide, FlowSide, StatsSide, IrqSide;
    assert SlotOk(s.n, s.rx.desc, s.rx.buf, ViewOf(s.hr, AFill(s.p), s.p.RClear?), s.hr.done);
    RxPostLen(s.m, BooksOf(s), s.hr.done);
  }

  lemma DeliverDataKeeps(s: Nic, head: nat, tail: nat, frame: Frame, rh: nat)
    requires Inv(s) && s.w == WData(head, tail, frame, rh)
    ensures Inv(DeliverData(s, head, tail, frame, rh))
  {
    hide Zones, MemOk, TxOk, Regs, CleanTxOk, CleanRxOk, RefillOk, PostsOk, TxStatsOk, Count, SumFrames, QueueOk,
         IrqOk, LoopsOf, Slot, SlotOk, BufAt, WriteSkb, Skips;
    var r := DeliverData(s, head, tail, frame, rh);
    DeliverSlot(s);
    BusyPost(s);
    EngineWrites(s.m, BooksOf(s), r.w.frame);
    SameFill(s.x, s.m, r.m, BooksOf(s));
  }

  lemma DeliverLenKeeps(s: Nic, head: nat, tail: nat, frame: Frame, rh: nat)
    requires Inv(s) && s.w == WLen(head, tail, frame, rh)
    ensures Inv(DeliverLen(s, head, tail, frame, rh))
  {
    hide Zones, MemOk, TxOk, CleanTxOk, CleanRxOk, RefillOk, PostsOk, TxStatsOk, Count, SumFrames, LastLenOk,
         QueueOk, IrqOk, LoopsOf, Slot, SlotOk;
    var r := DeliverLen(s, head, tail, frame, rh);
    var v := ViewOf(s.hr, AFill(s.p), s.p.RClear?);
    ZoneBounds(s.n, s.rx.desc, s.rx.buf, v);
    MeasureSlot(s.n, s.rx.desc, s.rx.buf, v, |frame|);
    assert ViewOf(r.hr, AFill(r.p), r.p.RClear?) == v.(lens := r.hr.lens);
  }

  lemma DeliverMarkKeeps(s: Nic, head: nat, tail: nat, frame: Frame, rh: nat)
    requires Inv(s) && s.w == WMark(head, tail, frame, rh)
    ensures Inv(DeliverMark(s, head, tail, frame, rh))
  {
    hide Zones, MemOk, TxOk, CleanTxOk, RefillOk, PostsOk, TxStatsOk, Count, SumFrames, LastLenOk, QueueOk, LookOf,
         TimerIsr, Carried, LoopsOf, Slot, SlotOk;
    var r := DeliverMark(s, head, tail, frame, rh);
    var v := ViewOf(s.hr, AFill(s.p), s.p.RClear?);
    ZoneBounds(s.n, s.rx.desc, s.rx.buf, v);
    CompleteSlot(s.n, s.rx.desc, s.rx.buf, v);
    BusyPost(s);
    CarriedSome(s.ht.posts[s.ht.done], s.h.frames[s.ht.done]);
    EngineLoops(s.m, BooksOf(s));
    assert ViewOf(r.hr, AFill(r.p), r.p.RClear?) == v.(b := r.hr.done);
  }

  lemma DeliverHeadKeeps(s: Nic, head: nat, tail: nat, rh: nat)
    requires Inv(s) && s.w == WRdhUp(head, tail, rh)
    ensures Inv(DeliverHead(s, head, tail, rh))
  {
    hide Zones, MemOk, TxOk, CleanTxOk, CleanRxOk, RefillOk, PostsOk, TxStatsOk, Count, SumFrames, LastLenOk,
         QueueOk, IrqOk, LoopsOf, Slot;
    SlotNext(s.hr.head, s.n);
  }

  lemma DeliverCauseKeeps(s: Nic, head: nat, tail: nat)
    requires Inv(s) && s.w == WIcs(head, tail)
    ensures Inv(DeliverCause(s, head, tail))
  {
    hide Zones, MemOk, TxOk, CleanTxOk, CleanRxOk, RefillOk, PostsOk, TxStatsOk, LastLenOk, QueueOk, LoopsOf, Slot,
         Count, SumFrames, LookOf, TimerIsr;
  }

  lemma EngineStartKeeps(s: Nic)
    requires Inv(s) && (s.w.WIdle? || s.w.WHead? || s.w.WTail?)
    ensures Inv(EngineCheck(s))
  {
    hide Zones, MemOk, CleanTxOk, CleanRxOk, RefillOk, PostsOk, TxStatsOk, Count, SumFrames, LastLenOk, QueueOk,
         LoopsOf, Slot, IrqOk, LookOf, TimerIsr;
  }

  lemma EngineLoopKeeps(s: Nic)
    requires Inv(s) && s.w.WLoop?
    ensures Inv(EngineCheck(s))
  {
    hide Zones, MemOk, TxOk, CleanTxOk, CleanRxOk, RefillOk, PostsOk, TxStatsOk, Count, SumFrames, LastLenOk,
         QueueOk, LoopsOf, Slot, LookOf, TimerIsr, NapiOk;
    SnapshotSpan(s);
    SlotEq(s.ht.done, s.h.cover, s.n);
  }

  lemma EngineFetchKeeps(s: Nic)
    requires Inv(s) && s.w.WFetch?
    ensures Inv(EngineCheck(s))
  {
    hide Zones, MemOk, TxOk, CleanTxOk, CleanRxOk, RefillOk, PostsOk, TxStatsOk, Count, SumFrames, LastLenOk,
         QueueOk, LoopsOf, Slot, LookOf, TimerIsr;
    BusyPost(s);
  }

  lemma EngineCopyKeeps(s: Nic, head: nat, tail: nat, len: nat, copied: bool)
    requires Inv(s) && s.w == WCopy(head, tail, len)
    ensures Inv(EngineCopy(s, head, tail, len, copied))
  {
    hide Zones, MemOk, TxOk, CleanTxOk, CleanRxOk, RefillOk, PostsOk, TxStatsOk, Count, SumFrames, LastLenOk,
         QueueOk, LoopsOf, Slot, LookOf, TimerIsr, SlotOk, ReadSkb, IrqOk;
    BusyPost(s);
    EngineReads(s.m, BooksOf(s), s.ht.done, len);
  }

  /** The histories when the engine records the fate of the frame at its head. */
  lemma DoneFlow(s: Nic, fate: Fate)
    requires Inv(s) && s.w.WDone? && s.w.fate == fate
    ensures FlowSide(WLoop(0, 0, true), s.ht.posts, s.ht.lens, s.ht.done + 1, s.hr.done, s.hr.taken, s.hr.lens,
                     s.h.frames, s.h.fates + [fate], s.h.loops, s.h.delivered)
    ensures RxStatsOk(s.st, WLoop(0, 0, true), s.h.fates + [fate], s.h.delivered)
  {
    hide MemOk, TxSide, RxSide, IrqSide, TxStatsOk, Carried, SumFrames;
    BusyPost(s);
    assert (s.h.fates + [fate])[..s.ht.done] == s.h.fates;
  }

  lemma FlowIdle(w: WorkPc, w': WorkPc, posts: seq<Post>, lens: seq<nat>, done: nat, rxDone: nat, taken: nat,
                 rlens: seq<nat>, frames: seq<Frame>, fates: seq<Fate>, loops: seq<Frame>, delivered: seq<Frame>,
                 st: Stats)
    requires !Busy(w) && !Busy(w')
    requires FlowSide(w, posts, lens, done, rxDone, taken, rlens, frames, fates, loops, delivered)
    requires RxStatsOk(st, w, fates, delivered)
    ensures FlowSide(w', posts, lens, done, rxDone, taken, rlens, frames, fates, loops, delivered)
    ensures RxStatsOk(st, w', fates, delivered)
  {
    hide PostsOk, LoopsOf, Count, SumFrames;
  }

  lemma EngineDoneKeeps(s: Nic, head: nat, tail: nat, fate: Fate)
    requires Inv(s) && s.w == WDone(head, tail, fate)
    ensures Inv(EngineDone(s, head, tail, fate))
  {
    hide Zones, MemOk, CleanRxOk, RefillOk, FlowSide, RxStatsOk, SumLen, LastLenOk, QueueOk, Slot, LookOf, TimerIsr,
         SlotOk;
    var r := EngineDone(s, head, tail, fate);
    var v := ViewOf(s.ht, XFill(s.x, s.m), s.p.TClear?);
    DoneFlow(s, fate);
    FlowIdle(WLoop(0, 0, true), r.w, r.ht.posts, r.ht.lens, r.ht.done, r.hr.done, r.hr.taken, r.hr.lens,
             r.h.frames, r.h.fates, r.h.loops, r.h.delivered, r.st);
    ZoneBounds(s.n, s.tx.desc, s.tx.buf, v);
    CompleteSlot(s.n, s.tx.desc, s.tx.buf, v);
    SlotNext(s.ht.done, s.n);
    assert ViewOf(r.ht, XFill(r.x, r.m), r.p.TClear?) == v.(b := r.ht.done);
  }

  lemma EngineHeadKeeps(s: Nic)
    requires Inv(s) && s.w.WTdh?
    ensures Inv(EngineEnd(s))
  {
    hide Zones, MemOk, CleanTxOk, CleanRxOk, RefillOk, FlowSide, RxStatsOk, TxStatsOk, LastLenOk, QueueOk, Slot,
         LookOf, TimerIsr, IrqOk;
    var r := EngineEnd(s);
    FlowIdle(s.w, r.w, r.ht.posts, r.ht.lens, r.ht.done, r.hr.done, r.hr.taken, r.hr.lens,
             r.h.frames, r.h.fates, r.h.loops, r.h.delivered, r.st);
  }

  lemma EngineCauseKeeps(s: Nic)
    requires Inv(s) && s.w == WIcsTx
    ensures Inv(EngineEnd(s))
  {
    hide Zones, MemOk, TxOk, CleanTxOk, CleanRxOk, RefillOk, FlowSide, RxStatsOk, TxStatsOk, LastLenOk, QueueOk,
         Slot, LookOf, TimerIsr, IrqOk;
    var r := EngineEnd(s);
    FlowIdle(s.w, r.w, r.ht.posts, r.ht.lens, r.ht.done, r.hr.done, r.hr.taken, r.hr.lens,
             r.h.frames, r.h.fates, r.h.loops, r.h.delivered, r.st);
    CauseIrq(s.irq, LookOf(s.p), TimerIsr(s.t), s.t == TIcs, s.unmasks, s.ht.taken < s.ht.done, s.hr.taken < s.hr.done);
  }

  /** The call of the interrupt handler that the engine owed, with its cause set. */
  lemma CauseIrq(q: Irq, l: Look, ti: Option<IsrPc>, linking: bool, unmasks: nat, txDone: bool, rxDone: bool)
    requires IrqOk(q, l, true, None, ti, linking, unmasks, txDone, rxDone)
    ensures IrqOk(q.(tx := true), l, false, Some(IRead), ti, linking, unmasks, txDone, rxDone)
  {}

  lemma EngineIntrKeeps(s: Nic)
    requires Inv(s) && s.w.WIsr?
    ensures Inv(EngineEnd(s))
  {
    hide Zones, MemOk, TxOk, CleanTxOk, CleanRxOk, RefillOk, FlowSide, RxStatsOk, TxStatsOk, LastLenOk, QueueOk,
         Slot, LookOf, TimerIsr, IrqOk, Intr;
    var r := EngineEnd(s);
    FlowIdle(s.w, r.w, r.ht.posts, r.ht.lens, r.ht.done, r.hr.done, r.hr.taken, r.hr.lens,
             r.h.frames, r.h.fates, r.h.loops, r.h.delivered, r.st);
    IntrKeeps(s.irq, LookOf(s.p), false, s.w.isr, TimerIsr(s.t), s.t == TIcs, s.unmasks,
              s.ht.taken < s.ht.done, s.hr.taken < s.hr.done);
  }

  // ------------------------------------------------------------ edunic_clean_tx_irq

  /** The slot at the reclaim position. */
  lemma ReclaimSlot(s: Nic)
    requires Inv(s) && (s.p.TCheck? || s.p.TFree?)
    ensures s.p.i == Slot(s.ht.taken, s.n) && s.ht.taken <= s.ht.done <= |s.ht.posts|
    ensures DescAt(s.tx, s.p.i).done <==> s.ht.taken < s.ht.done
    ensures s.ht.taken < s.ht.done ==>
      var post := s.ht.posts[s.ht.taken]; BufAt(s.tx, s.p.i) == Buf(Some(post.skb), post.dma, post.len)
  {
    hide MemOk, RxSide, FlowSide, StatsSide, IrqSide;
    assert SlotOk(s.n, s.tx.desc, s.tx.buf, ViewOf(s.ht, XFill(s.x, s.m), s.p.TClear?), s.ht.taken);
  }

  lemma ReclaimCheckKeeps(s: Nic)
    requires Inv(s) && (s.p.TLoop? || s.p.TCheck?)
    ensures Inv(ReclaimCheck(s))
  {
    hide Zones, MemOk, TxOk, WorkOk, RxOk, DeliverOk, FlowSide, RxStatsOk, SumLen, LastLenOk, DoorOk, Slot,
         EngineOwes, EngineIsr, TimerIsr;
    if s.p.TLoop? {
      ReclaimEnd(s);
    } else {
      ReclaimSlot(s);
    }
  }

  lemma ReclaimEnd(s: Nic)
    requires Inv(s) && s.p.TLoop?
    ensures s.ht.taken <= s.ht.done <= s.ht.use
    ensures s.p.i == s.tx.ntu <==> s.ht.taken == s.ht.use
  {
    hide MemOk, RxSide, FlowSide, StatsSide, IrqSide;
    SlotEq(s.ht.taken, s.ht.use, s.n);
  }

  lemma ReclaimTakeKeeps(s: Nic, i: nat, packets: nat, bytes: nat, b: nat)
    requires Inv(s) && s.p == TFree(i, packets, bytes, b)
    ensures Inv(ReclaimTake(s, i, packets, bytes, b))
  {
    hide Zones, MemOk, WorkOk, RxOk, DeliverOk, FlowSide, RxStatsOk, DoorOk, Slot, SlotOk, EngineOwes, EngineIsr,
         TimerIsr, NapiOk, Release, UnmapSkb;
    var r := ReclaimTake(s, i, packets, bytes, b);
    var v := ViewOf(s.ht, XFill(s.x, s.m), s.p.TClear?);
    ReclaimSlot(s);
    ZoneBounds(s.n, s.tx.desc, s.tx.buf, v);
    TakeSlot(s.n, s.tx.desc, s.tx.buf, v, 0);
    DriverConsumes(s.m, BooksOf(s));
    SameFill(s.x, s.m, r.m, BooksOf(s));
    assert ViewOf(r.ht, XFill(r.x, r.m), true) == v.(a := r.ht.taken, dirty := true);
    assert s.ht.posts[..r.ht.taken][..s.ht.taken] == s.ht.posts[..s.ht.taken];
  }

  /** What xmit is about to post does not depend on what others do to other skbs. */
  lemma SameFill(x: XmitPc, m: Ledger, m': Ledger, b: Books)
    requires MemOk(m, b) && b.xh == XHold(x) && SameLens(m, m')
    ensures XFill(x, m') == XFill(x, m)
    ensures forall t: Track :: LastLenOk(x, t.posts, t.lens, m) ==> LastLenOk(x, t.posts, t.lens, m')
  {
    hide Owned, TxSkb, RxSkb, Starts;
  }

  lemma ReclaimClearKeeps(s: Nic, i: nat, packets: nat, bytes: nat, b: nat)
    requires Inv(s) && s.p == TClear(i, packets, bytes, b)
    ensures Inv(ReclaimClear(s, i, packets, bytes, b))
  {
    hide Zones, MemOk, WorkOk, RxOk, DeliverOk, FlowSide, RxStatsOk, SumLen, LastLenOk, DoorOk, Slot, SlotOk,
         EngineOwes, EngineIsr, TimerIsr, IrqOk;
    var r := ReclaimClear(s, i, packets, bytes, b);
    var v := ViewOf(s.ht, XFill(s.x, s.m), s.p.TClear?);
    ZoneBounds(s.n, s.tx.desc, s.tx.buf, v);
    ClearSlot(s.n, s.tx.desc, s.tx.buf, v);
    SlotNext(s.ht.taken - 1, s.n);
    assert ViewOf(r.ht, XFill(r.x, r.m), false) == v.(dirty := false);
  }

  lemma ReclaimPublishKeeps(s: Nic, i: nat, packets: nat, bytes: nat, b: nat)
    requires Inv(s) && s.p == TPub(i, packets, bytes, b)
    ensures Inv(ReclaimPublish(s, i, packets, bytes, b))
  {
    hide Zones, MemOk, WorkOk, DeliverOk, FlowSide, RxStatsOk, SumLen, LastLenOk, DoorOk, Slot, SlotOk, EngineOwes,
         EngineIsr, TimerIsr, IrqOk;
    var r := ReclaimPublish(s, i, packets, bytes, b);
    var v := ViewOf(s.ht, XFill(s.x, s.m), s.p.TClear?);
    ZoneBounds(s.n, s.tx.desc, s.tx.buf, v);
    SlideWindow(s.n, s.tx.desc, s.tx.buf, v);
    assert ViewOf(r.ht, XFill(r.x, r.m), false) == v.(lo := v.a);
  }

  lemma ReclaimWakeKeeps(s: Nic)
    requires Inv(s) && (s.p.TStat? || s.p.TStopped? || s.p.TRoom? || s.p.TWake?)
    ensures Inv(ReclaimWake(s))
  {
    hide Zones, MemOk, TxOk, WorkOk, DeliverOk, FlowSide, SumLen, LastLenOk, DoorOk, Slot, Count, SumFrames,
         EngineOwes, EngineIsr, TimerIsr, IrqOk, TxRoom;
    RoomIsRoom(s);
  }

  // ------------------------------------------------------------ edunic_clean_rx_irq

  /** The slot at the harvest position; past the posted slots DD is never set. */
  lemma HarvestSlot(s: Nic)
    requires Inv(s) && (s.p.RCheck? || s.p.RTake?)
    ensures s.p.i == Slot(s.hr.taken, s.n) && s.hr.taken <= s.hr.done <= |s.hr.posts|
    ensures DescAt(s.rx, s.p.i).done <==> s.hr.taken < s.hr.done
    ensures s.hr.taken < s.hr.done ==>
      var post := s.hr.posts[s.hr.taken];
      BufAt(s.rx, s.p.i) == Buf(Some(post.skb), post.dma, post.len)
      && !DescAt(s.rx, s.p.i).error && DescAt(s.rx, s.p.i).length == |s.h.loops[s.hr.taken]|
  {
    hide MemOk, TxSide, StatsSide, IrqSide, PostsOk;
    assert SlotOk(s.n, s.rx.desc, s.rx.buf, ViewOf(s.hr, AFill(s.p), s.p.RClear?), s.hr.taken);
  }

  lemma HarvestCheckKeeps(s: Nic, i: nat, work: nat, b: nat)
    requires Inv(s) && s.p == RCheck(i, work, b)
    ensures Inv(HarvestCheck(s, i, work, b))
  {
    hide Zones, MemOk, TxOk, WorkOk, RxOk, DeliverOk, FlowSide, RxStatsOk, SumLen, LastLenOk, DoorOk, Slot,
         EngineOwes, EngineIsr, TimerIsr;
    HarvestSlot(s);
  }

  /** The histories when the first frame not yet harvested is handed up. */
  lemma HandUpFlow(s: Nic, frame: Frame)
    requires Inv(s) && s.hr.taken < s.hr.done && frame == s.h.loops[s.hr.taken]
    ensures FlowSide(s.w, s.ht.posts, s.ht.lens, s.ht.done, s.hr.done, s.hr.taken + 1, s.hr.lens,
                     s.h.frames, s.h.fates, s.h.loops, s.h.delivered + [frame])
    ensures RxStatsOk(s.st.(rxPackets := s.st.rxPackets + 1, rxBytes := s.st.rxBytes + |frame|), s.w,
                      s.h.fates, s.h.delivered + [frame])
  {
    hide MemOk, TxSide, RxSide, IrqSide, TxStatsOk, PostsOk, EngineOk, LoopsOf, Count;
    assert (s.h.delivered + [frame])[..s.hr.taken] == s.h.delivered;
  }

  lemma HarvestTakeKeeps(s: Nic, i: nat, work: nat, b: nat)
    requires Inv(s) && s.p == RTake(i, work, b)
    ensures Inv(HarvestTake(s, i, work, b))
  {
    hide Zones, MemOk, TxOk, WorkOk, DeliverOk, PostsOk, EngineOk, LoopsOk, RxStatsOk, SumLen, DoorOk, Slot, SlotOk,
         EngineOwes, EngineIsr, TimerIsr, NapiOk, HandUp, UnmapSkb;
    var r := HarvestTake(s, i, work, b);
    var v := ViewOf(s.hr, AFill(s.p), s.p.RClear?);
    HarvestSlot(s);
    ZoneBounds(s.n, s.rx.desc, s.rx.buf, v);
    TakeSlot(s.n, s.rx.desc, s.rx.buf, v, BufAt(s.rx, i).len);
    DriverHandsUp(s.m, BooksOf(s));
    HandUpFlow(s, s.h.loops[s.hr.taken]);
    SameFill(s.x, s.m, r.m, BooksOf(s));
    assert ViewOf(r.hr, AFill(r.p), true) == v.(a := r.hr.taken, dirty := true);
  }

  lemma HarvestClearKeeps(s: Nic, i: nat, work: nat, b: nat)
    requires Inv(s) && s.p == RClear(i, work, b)
    ensures Inv(HarvestClear(s, i, work, b))
  {
    hide Zones, MemOk, TxOk, WorkOk, DeliverOk, FlowSide, RxStatsOk, SumLen, LastLenOk, DoorOk, Slot, SlotOk,
         EngineOwes, EngineIsr, TimerIsr, IrqOk;
    var r := HarvestClear(s, i, work, b);
    var v := ViewOf(s.hr, AFill(s.p), s.p.RClear?);
    ZoneBounds(s.n, s.rx.desc, s.rx.buf, v);
    ClearSlot(s.n, s.rx.desc, s.rx.buf, v);
    SlotNext(s.hr.taken - 1, s.n);
    assert ViewOf(r.hr, AFill(r.p), false) == v.(dirty := false);
  }

  lemma HarvestPublishKeeps(s: Nic, i: nat, work: nat, b: nat)
    requires Inv(s) && s.p == RPub(i, work, b)
    ensures Inv(HarvestPublish(s, i, work, b))
  {
    hide Zones, MemOk, TxOk, WorkOk, DeliverOk, FlowSide, RxStatsOk, SumLen, LastLenOk, DoorOk, Slot, SlotOk,
         EngineOwes, EngineIsr, TimerIsr, IrqOk;
    var r := HarvestPublish(s, i, work, b);
    var v := ViewOf(s.hr, AFill(s.p), s.p.RClear?);
    ZoneBounds(s.n, s.rx.desc, s.rx.buf, v);
    SlideWindow(s.n, s.rx.desc, s.rx.buf, v);
    assert ViewOf(r.hr, AFill(r.p), false) == v.(lo := v.a);
  }

  // ------------------------------------------------------------ edunic_alloc_rx_buffers

  lemma RefillAllocKeeps(s: Nic, i: nat, left: nat, posted: nat, caller: Caller, alloc: Alloc)
    requires Inv(s) && s.p == AAlloc(i, left, posted, caller)
    ensures Inv(RefillAlloc(s, i, left, posted, caller, alloc))
  {
    hide Zones, MemOk, TxOk, WorkOk, DeliverOk, FlowSide, RxStatsOk, SumLen, DoorOk, Slot, SlotOk, EngineOwes,
         EngineIsr, TimerIsr, IrqOk, NewSkb, MapSkb;
    var r := RefillAlloc(s, i, left, posted, caller, alloc);
    if left == 0 || alloc.NoMemory? {
    } else if alloc.NoMapping? {
      RefillFails(s.m, BooksOf(s), alloc.area);
      SameFill(s.x, s.m, r.m, BooksOf(s));
    } else {
      RefillMaps(s.m, BooksOf(s), alloc.area, alloc.dma);
      SameFill(s.x, s.m, r.m, BooksOf(s));
    }
  }

  lemma RefillParkKeeps(s: Nic, i: nat, left: nat, posted: nat, caller: Caller, id: nat, dma: nat)
    requires Inv(s) && s.p == ABuf(i, left, posted, caller, id, dma)
    ensures Inv(RefillPark(s, i, left, posted, caller, id, dma))
  {
    hide Zones, MemOk, TxOk, WorkOk, DeliverOk, FlowSide, RxStatsOk, SumLen, DoorOk, Slot, SlotOk, EngineOwes,
         EngineIsr, TimerIsr, IrqOk, Park;
    var r := RefillPark(s, i, left, posted, caller, id, dma);
    var v := ViewOf(s.hr, AFill(s.p), s.p.RClear?);
    ZoneBounds(s.n, s.rx.desc, s.rx.buf, v);
    ParkSlot(s.n, s.rx.desc, s.rx.buf, v, Post(id, dma, RX_BUF_SIZE));
    RefillParks(s.m, BooksOf(s));
    SameFill(s.x, s.m, r.m, BooksOf(s));
    assert ViewOf(r.hr, AFill(r.p), false) == v.(fill := Parked(Post(id, dma, RX_BUF_SIZE)));
  }

  lemma RefillDescribeKeeps(s: Nic, i: nat, left: nat, posted: nat, caller: Caller, id: nat, dma: nat)
    requires Inv(s) && s.p == ADesc(i, left, posted, caller, id, dma)
    ensures Inv(RefillDescribe(s, i, left, posted, caller, id, dma))
  {
    hide Zones, MemOk, TxOk, WorkOk, DeliverOk, FlowSide, RxStatsOk, SumLen, LastLenOk, DoorOk, Slot, SlotOk,
         EngineOwes, EngineIsr, TimerIsr, IrqOk;
    var r := RefillDescribe(s, i, left, posted, caller, id, dma);
    var v := ViewOf(s.hr, AFill(s.p), s.p.RClear?);
    ZoneBounds(s.n, s.rx.desc, s.rx.buf, v);
    DescribeSlot(s.n, s.rx.desc, s.rx.buf, v, 0);
    PublishSlot(s.n, r.rx.desc, s.rx.buf, v.(fill := Described(v.fill.post)));
    RefillPosts(s.m, BooksOf(s));
    SlotNext(|s.hr.posts|, s.n);
    assert ViewOf(r.hr, AFill(r.p), false) == v.(fill := Blank, posts := r.hr.posts);
  }

  lemma RefillPublishKeeps(s: Nic)
    requires Inv(s) && (s.p.AUse? || s.p.ATail?)
    ensures Inv(RefillPublish(s))
  {
    hide Zones, MemOk, TxOk, WorkOk, DeliverOk, FlowSide, RxStatsOk, SumLen, LastLenOk, DoorOk, Slot, SlotOk,
         EngineOwes, EngineIsr, TimerIsr, IrqOk;
  }

  // ------------------------------------------------------------ all steps, all runs

  lemma XmitKeeps(s: Nic, mapping: Option<nat>)
    requires Inv(s)
    ensures Inv(XmitStep(s, mapping))
  {
    hide Inv, XmitMap, XmitPark, XmitDescribe, XmitPublish, XmitRing, MaybeStop;
    match s.x
    case XIdle =>
    case XMap(id) => XmitMapKeeps(s, id, mapping);
    case XBuf(id, dma) => XmitParkKeeps(s, id, dma);
    case XDesc(id, dma) => XmitDescribeKeeps(s, id, dma);
    case XUse(id, dma) => XmitPublishKeeps(s, id, dma);
    case XTail => XmitRingKeeps(s);
    case XKick => XmitRingKeeps(s);
    case XRecheck(_) => RecheckKeeps(s);
    case XCheck(_) => FirstCheckKeeps(s);
    case XStop(_) => FirstCheckKeeps(s);
    case XWake(_) => FirstCheckKeeps(s);
    case _ => SecondCheckKeeps(s);
  }

  lemma WorkKeeps(s: Nic, copied: bool)
    requires Inv(s)
    ensures Inv(WorkStep(s, copied))
  {
    hide Inv, DeliverCheck, DeliverData, DeliverLen, DeliverMark, DeliverHead, DeliverCause, EngineCheck, EngineCopy,
         EngineDone, EngineEnd;
    match s.w
    case WIdle => EngineStartKeeps(s);
    case WHead => EngineStartKeeps(s);
    case WTail(_) => EngineStartKeeps(s);
    case WLoop(_, _, _) => EngineLoopKeeps(s);
    case WFetch(_, _) => EngineFetchKeeps(s);
    case WCopy(head, tail, len) => EngineCopyKeeps(s, head, tail, len, copied);
    case WRdh(_, _, _) => DeliverCheckKeeps(s);
    case WRdt(_, _, _, _) => DeliverCheckKeeps(s);
    case WData(head, tail, frame, rh) => DeliverDataKeeps(s, head, tail, frame, rh);
    case WLen(head, tail, frame, rh) => DeliverLenKeeps(s, head, tail, frame, rh);
    case WMark(head, tail, frame, rh) => DeliverMarkKeeps(s, head, tail, frame, rh);
    case WRdhUp(head, tail, rh) => DeliverHeadKeeps(s, head, tail, rh);
    case WIcs(head, tail) => DeliverCauseKeeps(s, head, tail);
    case WDone(head, tail, fate) => EngineDoneKeeps(s, head, tail, fate);
    case WTdh(_) => EngineHeadKeeps(s);
    case WIcsTx => EngineCauseKeeps(s);
    case WIsr(_) => EngineIntrKeeps(s);
  }

  lemma PollKeeps(s: Nic, alloc: Alloc)
    requires Inv(s)
    ensures Inv(PollStep(s, alloc))
  {
    hide Inv, ReclaimCheck, ReclaimTake, ReclaimClear, ReclaimPublish, ReclaimWake, HarvestCheck, HarvestTake,
         HarvestClear, HarvestPublish,
         RefillAlloc, RefillPark, RefillDescribe, RefillPublish, PollFinish;
    match s.p
    case PIdle =>
    case TLoop(_, _, _, _) => ReclaimCheckKeeps(s);
    case TCheck(_, _, _, _) => ReclaimCheckKeeps(s);
    case TFree(i, packets, bytes, b) => ReclaimTakeKeeps(s, i, packets, bytes, b);
    case TClear(i, packets, bytes, b) => ReclaimClearKeeps(s, i, packets, bytes, b);
    case TPub(i, packets, bytes, b) => ReclaimPublishKeeps(s, i, packets, bytes, b);
    case TStat(_, _, _) => ReclaimWakeKeeps(s);
    case TStopped(_) => ReclaimWakeKeeps(s);
    case TRoom(_) => ReclaimWakeKeeps(s);
    case TWake(_) => ReclaimWakeKeeps(s);
    case RCheck(i, work, b) => HarvestCheckKeeps(s, i, work, b);
    case RTake(i, work, b) => HarvestTakeKeeps(s, i, work, b);
    case RClear(i, work, b) => HarvestClearKeeps(s, i, work, b);
    case RPub(i, work, b) => HarvestPublishKeeps(s, i, work, b);
    case AAlloc(i, left, posted, caller) => RefillAllocKeeps(s, i, left, posted, caller, alloc);
    case ABuf(i, left, posted, caller, id, dma) => RefillParkKeeps(s, i, left, posted, caller, id, dma);
    case ADesc(i, left, posted, caller, id, dma) => RefillDescribeKeeps(s, i, left, posted, caller, id, dma);
    case AUse(_, _) => RefillPublishKeeps(s);
    case ATail(_, _) => RefillPublishKeeps(s);
    case PDone(caller) => PollFinishKeeps(s, caller);
  }

  lemma StepKeeps(s: Nic, a: Action)
    requires Inv(s)
    ensures Inv(Step(s, a))
  {
    hide Inv, XmitCall, XmitStep, WorkStep, PollCall, PollStep, UnmaskStep, TimerStep;
    match a
    case Call(frame) => XmitCallKeeps(s, frame);
    case Xmit(mapping) => XmitKeeps(s, mapping);
    case Work(copied) => WorkKeeps(s, copied);
    case Softirq(budget) => PollCallKeeps(s, budget);
    case Poll(alloc) => PollKeeps(s, alloc);
    case Unmask => UnmaskKeeps(s);
    case Timer => TimerKeeps(s);
  }

  lemma EmptyZones(n: nat)
    requires 2 <= n
    ensures var r := EmptyRing(n); Zones(n, r.desc, r.buf, View(0, 0, 0, [], [], Blank, false))
  {
    var r, v := EmptyRing(n), View(0, 0, 0, [], [], Blank, false);
    forall k | 0 <= k < n
      ensures SlotOk(n, r.desc, r.buf, v, k)
    {}
  }

  lemma InitSides(n: nat)
    requires 2 <= n
    ensures var s := Init(n);
            TxSide(s.n, s.tx, s.ht, Blank, XIdle, WIdle, s.p, 0) && RxSide(s.n, s.rx, s.hr, WIdle, s.p, 0)
  {
    hide Zones, SlotOk;
    EmptyZones(n);
  }

  lemma InitRest(n: nat)
    requires 2 <= n
    ensures var s := Init(n);
            && MemOk(s.m, BooksOf(s))
            && FlowSide(WIdle, [], [], 0, 0, 0, [], [], [], [], [])
            && StatsSide(s.st, WIdle, s.p, 0, [], [], [])
  {
    hide EmptyRing;
    var none: seq<Post> := [];
    assert none[..0] == [];
  }

  lemma Quiet(q: Irq, l: Look, none: Option<IsrPc>)
    requires !q.sched && !q.listed && !q.missed && q.open && !q.link && !q.lsc && l == Off && none == None
    ensures IrqOk(q, l, false, none, none, false, 0, false, false)
  {}

  lemma InitHolds(n: nat)
    requires 2 <= n
    ensures Inv(Init(n))
  {
    hide TxSide, RxSide, EmptyRing, MemOk, FlowSide, StatsSide, IrqOk;
    InitSides(n);
    InitRest(n);
    Quiet(NO_IRQ, Off, None);
  }

  lemma {:induction false} RunKeeps(s: Nic, acts: seq<Action>)
    requires Inv(s)
    ensures Inv(Run(s, acts))
  {
    hide Inv, Step;
    if acts != [] {
      RunKeeps(s, acts[..|acts| - 1]);
      StepKeeps(Run(s, acts[..|acts| - 1]), acts[|acts| - 1]);
    }
  }

  /** The invariant holds after every interleaving of the agents, for every ring size. */
  lemma Always(n: nat, acts: seq<Action>)
    requires 2 <= n
    ensures Inv(Run(Init(n), acts))
  {
    hide Inv, Init, Run;
    InitHolds(n);
    RunKeeps(Init(n), acts);
  }
}
