/** The edunic driver and its emulated device as one state machine.

    Three agents share two descriptor rings: `edunic_start_xmit`, the emulated DMA engine
    `edunic_hw_tx_worker` and the NAPI callback `edunic_poll`; the link timer calls the
    interrupt handler as well.  Each agent has a program counter, and each step performs one
    access to what another agent may touch at that moment; slots that an agent owns are
    accessed at once.  Steps are sequentially consistent.  */
module Edunic {
  import opened Ring
  import opened Memory

  // ------------------------------------------------------------ program counters

  /** `edunic_start_xmit` for skb `id`; X names the next access. */
  datatype XmitPc =
    | XIdle
    | XCheck(id: nat) | XStop(id: nat) | XRecheck(id: nat) | XWake(id: nat)   // edunic_maybe_stop_tx
    | XMap(id: nat)
    | XBuf(id: nat, dma: nat) | XDesc(id: nat, dma: nat) | XUse(id: nat, dma: nat)
    | XTail | XKick
    | XCheck2 | XStop2 | XRecheck2 | XWake2                                   // the second call

  /** `edunic_intr` */
  datatype IsrPc = IRead | IPrep | IMask | IList

  /** What became of a frame that the DMA engine has passed. */
  datatype Fate = Looped | RxDropped | CopyFailed | Skipped

  /** `edunic_hw_tx_worker`, with `edunic_hw_deliver_rx_frame` from WRdh to WIcs. */
  datatype WorkPc =
    | WIdle
    | WHead | WTail(head: nat)
    | WLoop(head: nat, tail: nat, sent: bool)
    | WFetch(head: nat, tail: nat) | WCopy(head: nat, tail: nat, len: nat)
    | WRdh(head: nat, tail: nat, frame: Frame) | WRdt(head: nat, tail: nat, frame: Frame, rh: nat)
    | WData(head: nat, tail: nat, frame: Frame, rh: nat) | WLen(head: nat, tail: nat, frame: Frame, rh: nat)
    | WMark(head: nat, tail: nat, frame: Frame, rh: nat) | WRdhUp(head: nat, tail: nat, rh: nat)
    | WIcs(head: nat, tail: nat)
    | WDone(head: nat, tail: nat, fate: Fate)
    | WTdh(head: nat) | WIcsTx
    | WIsr(isr: IsrPc)

  /** Who asked for receive buffers: probe, or a harvest of `work` frames under `budget`. */
  datatype Caller = Probe | Harvest(work: nat, budget: nat)

  /** `edunic_poll`: edunic_clean_tx_irq (T), edunic_clean_rx_irq (R), edunic_alloc_rx_buffers (A). */
  datatype PollPc =
    | PIdle
    | TLoop(i: nat, packets: nat, bytes: nat, budget: nat)
    | TCheck(i: nat, packets: nat, bytes: nat, budget: nat)
    | TFree(i: nat, packets: nat, bytes: nat, budget: nat)
    | TClear(i: nat, packets: nat, bytes: nat, budget: nat)
    | TPub(i: nat, packets: nat, bytes: nat, budget: nat)
    | TStat(packets: nat, bytes: nat, budget: nat)
    | TStopped(budget: nat) | TRoom(budget: nat) | TWake(budget: nat)
    | RCheck(i: nat, work: nat, budget: nat)
    | RTake(i: nat, work: nat, budget: nat)
    | RClear(i: nat, work: nat, budget: nat)
    | RPub(i: nat, work: nat, budget: nat)
    | AAlloc(i: nat, left: nat, posted: nat, caller: Caller)
    | ABuf(i: nat, left: nat, posted: nat, caller: Caller, id: nat, dma: nat)
    | ADesc(i: nat, left: nat, posted: nat, caller: Caller, id: nat, dma: nat)
    | AUse(i: nat, caller: Caller) | ATail(i: nat, caller: Caller)
    | PDone(caller: Caller)

  /** The link timer's callback. */
  datatype TimerPc = TIdle | TIcs | TIsr(isr: IsrPc)

  // ------------------------------------------------------------ state

  /** Interrupt causes, the RX/TX mask, NAPI's SCHED and MISSED bits, whether the poll
      callback is on the softirq list, and the link. */
  datatype Irq = Irq(tx: bool, rx: bool, lsc: bool, open: bool,
                     sched: bool, missed: bool, listed: bool, link: bool, carrier: bool)

  datatype Stats = Stats(txPackets: nat, txBytes: nat, txErrors: nat,
                         rxPackets: nat, rxBytes: nat, rxErrors: nat, rxDropped: nat)

  /** History, read by no step: the frames xmit has posted, what became of those the DMA engine
      has passed, the frames it wrote to the receive ring, the frames handed to the stack, the
      unwrapped tail that the current or last DMA run covers, and how many receive buffers
      failed allocations have cost so far. */
  datatype Flow = Flow(frames: seq<Frame>, fates: seq<Fate>, loops: seq<Frame>, delivered: seq<Frame>,
                       cover: nat, short: nat)

  datatype Nic = Nic(n: nat, tx: RingState, rx: RingState, stopped: bool, work: bool,
                     m: Ledger, irq: Irq, st: Stats,
                     x: XmitPc, w: WorkPc, p: PollPc, t: TimerPc, unmasks: nat,
                     ht: Track, hr: Track, h: Flow)

  const NO_IRQ := Irq(false, false, false, true, false, false, false, false, false)
  const NO_STATS := Stats(0, 0, 0, 0, 0, 0, 0)
  const NO_TRACK := Track(0, 0, 0, 0, 0, 0, [], [])

  function EmptyRing(n: nat): RingState {
    RingState(seq(n, _ => Desc(0, 0, false, false)), seq(n, _ => Buf(None, 0, 0)), 0, 0, 0, 0)
  }

  /** Rings just set up and programmed (`edunic_setup_*_resources`, `edunic_hw_init_rings`), probe
      about to post n-1 receive buffers, and interrupts unmasked by the later `edunic_hw_start`. */
  function Init(n: nat): Nic
    requires 2 <= n
  {
    Nic(n, EmptyRing(n), EmptyRing(n), false, false, Ledger([], false), NO_IRQ, NO_STATS,
        XIdle, WIdle, AAlloc(0, n - 1, 0, Probe), TIdle, 0,
        NO_TRACK, NO_TRACK, Flow([], [], [], [], 0, 0))
  }

  // ------------------------------------------------------------ edunic_start_xmit

  predicate TxRoom(s: Nic) {
    0 < s.n && Unused(s.tx.ntc, s.tx.ntu, s.n) >= 1
  }

  /** The stack calls `edunic_start_xmit` with a frame. */
  function XmitCall(s: Nic, frame: Frame): (r: Nic)
    ensures r == s.(m := r.m, x := r.x)
  {
    if s.x == XIdle then
      s.(m := NewSkb(s.m, frame, Held), x := XCheck(|s.m.skbs|))
    else
      s
  }

  /** `edunic_maybe_stop_tx`; on its first call a full ring makes xmit give the skb back. */
  function MaybeStop(s: Nic): (r: Nic)
    ensures r == s.(stopped := r.stopped, m := r.m, x := r.x)
  {
    match s.x
    case XCheck(id) => s.(x := if TxRoom(s) then XMap(id) else XStop(id))
    case XStop(id) => s.(stopped := true, x := XRecheck(id))
    case XRecheck(id) =>
      if TxRoom(s) then s.(x := XWake(id))
      else s.(m := Release(s.m, Some(id), ReturnedBusy), x := XIdle)
    case XWake(id) => s.(stopped := false, x := XMap(id))
    case XCheck2 => s.(x := if TxRoom(s) then XIdle else XStop2)
    case XStop2 => s.(stopped := true, x := XRecheck2)
    case XRecheck2 => s.(x := if TxRoom(s) then XWake2 else XIdle)
    case XWake2 => s.(stopped := false, x := XIdle)
    case _ => s
  }

  function SkbLen(m: Ledger, id: nat): nat {
    if id < |m.skbs| then |m.skbs[id].data| else 0
  }

  function SkbData(m: Ledger, id: nat): Frame {
    if id < |m.skbs| then m.skbs[id].data else []
  }

  function XmitMap(s: Nic, id: nat, mapping: Option<nat>): Nic {
    if mapping == None then
      s.(m := Release(s.m, Some(id), Freed), st := s.st.(txErrors := s.st.txErrors + 1), x := XIdle)
    else
      s.(m := MapSkb(s.m, id, mapping.value, SkbLen(s.m, id), ToDevice), x := XBuf(id, mapping.value))
  }

  function XmitPark(s: Nic, id: nat, dma: nat): Nic {
    s.(tx := SetBuf(s.tx, s.tx.ntu, Buf(Some(id), dma, SkbLen(s.m, id))),
       m := Park(s.m, id, InTx(|s.ht.posts|)), x := XDesc(id, dma))
  }

  /** The length field of a descriptor has 16 bits. */
  function XmitDescribe(s: Nic, id: nat, dma: nat): Nic {
    var length := SkbLen(s.m, id) % 65536;
    s.(tx := SetDesc(s.tx, s.tx.ntu, Desc(dma, length, false, false)),
       ht := s.ht.(lens := s.ht.lens + [length]), x := XUse(id, dma))
  }

  function XmitPublish(s: Nic, id: nat, dma: nat): Nic {
    s.(tx := s.tx.(ntu := Next(s.tx.ntu, s.n)),
       ht := s.ht.(use := s.ht.use + 1, posts := s.ht.posts + [Post(id, dma, SkbLen(s.m, id))]),
       h := s.h.(frames := s.h.frames + [SkbData(s.m, id)]), x := XTail)
  }

  /** The doorbell, and queueing the work item that stands in for it. */
  function XmitRing(s: Nic): Nic {
    if s.x == XTail then
      s.(tx := s.tx.(tail := s.tx.ntu), ht := s.ht.(tail := s.ht.use), x := XKick)
    else
      s.(work := true, x := XCheck2)
  }

  /** One access of `edunic_start_xmit`; `mapping` is the outcome of dma_map_single. */
  function XmitStep(s: Nic, mapping: Option<nat>): Nic {
    match s.x
    case XIdle => s
    case XMap(id) => XmitMap(s, id, mapping)
    case XBuf(id, dma) => XmitPark(s, id, dma)
    case XDesc(id, dma) => XmitDescribe(s, id, dma)
    case XUse(id, dma) => XmitPublish(s, id, dma)
    case XTail => XmitRing(s)
    case XKick => XmitRing(s)
    case _ => MaybeStop(s)
  }

  // ------------------------------------------------------------ edunic_intr

  /** One access of the interrupt handler: the new interrupt state and where it goes on, if it does. */
  function Intr(q: Irq, pc: IsrPc): (Irq, Option<IsrPc>) {
    match pc
    case IRead =>                     // reading ICR clears it
      (q.(tx := false, rx := false, lsc := false, carrier := if q.lsc then q.link else q.carrier),
       if q.tx || q.rx then Some(IPrep) else None)
    case IPrep =>                     // napi_schedule_prep
      if q.sched then (q.(missed := true), None) else (q.(sched := true), Some(IMask))
    case IMask => (q.(open := false), Some(IList))
    case IList => (q.(listed := true), None)
  }

  function TimerStep(s: Nic): (r: Nic)
    ensures r == s.(irq := r.irq, t := r.t)
  {
    match s.t
    case TIdle => s.(irq := s.irq.(link := true), t := TIcs)
    case TIcs => s.(irq := s.irq.(lsc := true), t := TIsr(IRead))
    case TIsr(pc) =>
      var (q, next) := Intr(s.irq, pc);
      s.(irq := q, t := if next == None then TIdle else TIsr(next.value))
  }

  // ------------------------------------------------------------ edunic_hw_tx_worker

  /** `edunic_hw_deliver_rx_frame` up to its drop decision. */
  function DeliverCheck(s: Nic): (r: Nic)
    ensures r == s.(st := s.st.(rxDropped := r.st.rxDropped), w := r.w)
  {
    match s.w
    case WRdh(head, tail, frame) => s.(w := WRdt(head, tail, frame, s.rx.head))
    case WRdt(head, tail, frame, rh) =>
      if rh == s.rx.tail then
        s.(st := s.st.(rxDropped := s.st.rxDropped + 1), w := WDone(head, tail, RxDropped))
      else
        s.(w := WData(head, tail, frame, rh))
    case _ => s
  }

  function DeliverData(s: Nic, head: nat, tail: nat, frame: Frame, rh: nat): Nic {
    var slot := BufAt(s.rx, rh);
    var f := if |frame| > slot.len then frame[..slot.len] else frame;
    s.(m := WriteSkb(s.m, slot.skb, f), w := WLen(head, tail, f, rh))
  }

  function DeliverLen(s: Nic, head: nat, tail: nat, frame: Frame, rh: nat): Nic {
    s.(rx := SetDesc(s.rx, rh, DescAt(s.rx, rh).(length := |frame|, error := false)),
       hr := s.hr.(lens := s.hr.lens + [|frame|]), w := WMark(head, tail, frame, rh))
  }

  function DeliverMark(s: Nic, head: nat, tail: nat, frame: Frame, rh: nat): Nic {
    s.(rx := SetDesc(s.rx, rh, DescAt(s.rx, rh).(done := true)),
       hr := s.hr.(done := s.hr.done + 1), h := s.h.(loops := s.h.loops + [frame]), w := WRdhUp(head, tail, rh))
  }

  function DeliverHead(s: Nic, head: nat, tail: nat, rh: nat): Nic {
    s.(rx := s.rx.(head := Next(rh, s.n)), hr := s.hr.(head := s.hr.head + 1), w := WIcs(head, tail))
  }

  function DeliverCause(s: Nic, head: nat, tail: nat): Nic {
    s.(irq := s.irq.(rx := true), w := WDone(head, tail, Looped))
  }

  /** The DMA engine starts a run, reads its registers and decides what to do next. */
  function EngineCheck(s: Nic): (r: Nic)
    ensures r == s.(work := r.work, w := r.w, h := s.h.(cover := r.h.cover))
  {
    match s.w
    case WIdle => if s.work then s.(work := false, w := WHead) else s
    case WHead => s.(w := WTail(s.tx.head))
    case WTail(head) => s.(w := WLoop(head, s.tx.tail, false), h := s.h.(cover := s.ht.tail))
    case WLoop(head, tail, sent) =>
      s.(w := if head != tail then WFetch(head, tail) else if sent then WTdh(head) else WIdle)
    case WFetch(head, tail) =>
      var len := DescAt(s.tx, head).length;
      s.(w := if BufAt(s.tx, head).dma != 0 && len != 0 then WCopy(head, tail, len) else WDone(head, tail, Skipped))
    case _ => s
  }

  function EngineCopy(s: Nic, head: nat, tail: nat, len: nat, copied: bool): Nic {
    if copied then
      var (m, frame) := ReadSkb(s.m, BufAt(s.tx, head).skb, len);
      s.(m := m, w := WRdh(head, tail, frame))
    else
      s.(w := WDone(head, tail, CopyFailed))
  }

  function EngineDone(s: Nic, head: nat, tail: nat, fate: Fate): Nic {
    s.(tx := SetDesc(s.tx, head, DescAt(s.tx, head).(done := true)),
       ht := s.ht.(done := s.ht.done + 1), h := s.h.(fates := s.h.fates + [fate]),
       w := WLoop(Next(head, s.n), tail, true))
  }

  /** After the loop: TDH, the TX cause, and the direct call of the interrupt handler. */
  function EngineEnd(s: Nic): (r: Nic)
    ensures r == s.(tx := s.tx.(head := r.tx.head), ht := s.ht.(head := r.ht.head), irq := r.irq, w := r.w)
  {
    match s.w
    case WTdh(head) => s.(tx := s.tx.(head := head), ht := s.ht.(head := s.ht.done), w := WIcsTx)
    case WIcsTx => s.(irq := s.irq.(tx := true), w := WIsr(IRead))
    case WIsr(pc) =>
      var (q, next) := Intr(s.irq, pc);
      s.(irq := q, w := if next == None then WIdle else WIsr(next.value))
    case _ => s
  }

  /** One access of the DMA engine; `copied` says whether the allocation of a frame copy succeeds. */
  function WorkStep(s: Nic, copied: bool): Nic {
    match s.w
    case WCopy(head, tail, len) => EngineCopy(s, head, tail, len, copied)
    case WRdh(_, _, _) => DeliverCheck(s)
    case WRdt(_, _, _, _) => DeliverCheck(s)
    case WData(head, tail, frame, rh) => DeliverData(s, head, tail, frame, rh)
    case WLen(head, tail, frame, rh) => DeliverLen(s, head, tail, frame, rh)
    case WMark(head, tail, frame, rh) => DeliverMark(s, head, tail, frame, rh)
    case WRdhUp(head, tail, rh) => DeliverHead(s, head, tail, rh)
    case WIcs(head, tail) => DeliverCause(s, head, tail)
    case WDone(head, tail, fate) => EngineDone(s, head, tail, fate)
    case WTdh(_) => EngineEnd(s)
    case WIcsTx => EngineEnd(s)
    case WIsr(_) => EngineEnd(s)
    case _ => EngineCheck(s)
  }

  // ------------------------------------------------------------ edunic_clean_tx_irq

  function ReclaimCheck(s: Nic): (r: Nic)
    ensures r == s.(p := r.p)
  {
    match s.p
    case TLoop(i, packets, bytes, b) =>
      s.(p := if i != s.tx.ntu then TCheck(i, packets, bytes, b) else TPub(i, packets, bytes, b))
    case TCheck(i, packets, bytes, b) =>
      s.(p := if DescAt(s.tx, i).done then TFree(i, packets, bytes, b) else TPub(i, packets, bytes, b))
    case _ => s
  }

  function ReclaimTake(s: Nic, i: nat, packets: nat, bytes: nat, b: nat): Nic {
    var f := BufAt(s.tx, i);
    s.(m := Release(UnmapSkb(s.m, f.skb, f.dma, f.len, ToDevice), f.skb, Consumed),
       tx := SetBuf(s.tx, i, Buf(None, 0, 0)), ht := s.ht.(taken := s.ht.taken + 1),
       p := TClear(i, packets + 1, bytes + f.len, b))
  }

  function ReclaimClear(s: Nic, i: nat, packets: nat, bytes: nat, b: nat): Nic {
    s.(tx := SetDesc(s.tx, i, DescAt(s.tx, i).(done := false, error := false)),
       p := TLoop(Next(i, s.n), packets, bytes, b))
  }

  function ReclaimPublish(s: Nic, i: nat, packets: nat, bytes: nat, b: nat): Nic {
    s.(tx := s.tx.(ntc := i), ht := s.ht.(clean := s.ht.taken),
       p := if packets > 0 then TStat(packets, bytes, b) else RCheck(s.rx.ntc, 0, b))
  }

  /** The counters, and waking a stopped queue if there is room. */
  function ReclaimWake(s: Nic): (r: Nic)
    ensures r == s.(st := s.st.(txPackets := r.st.txPackets, txBytes := r.st.txBytes), stopped := r.stopped, p := r.p)
  {
    match s.p
    case TStat(packets, bytes, b) =>
      s.(st := s.st.(txPackets := s.st.txPackets + packets, txBytes := s.st.txBytes + bytes), p := TStopped(b))
    case TStopped(b) => s.(p := if s.stopped then TRoom(b) else RCheck(s.rx.ntc, 0, b))
    case TRoom(b) => s.(p := if TxRoom(s) then TWake(b) else RCheck(s.rx.ntc, 0, b))
    case TWake(b) => s.(stopped := false, p := RCheck(s.rx.ntc, 0, b))
    case _ => s
  }

  // ------------------------------------------------------------ edunic_clean_rx_irq

  function HarvestCheck(s: Nic, i: nat, work: nat, b: nat): Nic {
    s.(p := if work < b && DescAt(s.rx, i).done then RTake(i, work, b) else RPub(i, work, b))
  }

  function HarvestTake(s: Nic, i: nat, work: nat, b: nat): Nic {
    var f, d := BufAt(s.rx, i), DescAt(s.rx, i);
    var m := UnmapSkb(s.m, f.skb, f.dma, f.len, FromDevice);
    var r := s.(rx := SetBuf(s.rx, i, Buf(None, 0, f.len)), hr := s.hr.(taken := s.hr.taken + 1),
                p := RClear(i, work, b));
    if d.error then
      r.(m := Release(m, f.skb, Freed), st := s.st.(rxErrors := s.st.rxErrors + 1))
    else
      var (m', frame) := HandUp(m, f.skb, d.length);
      r.(m := m', h := s.h.(delivered := s.h.delivered + [frame]),
         st := s.st.(rxPackets := s.st.rxPackets + 1, rxBytes := s.st.rxBytes + d.length))
  }

  function HarvestClear(s: Nic, i: nat, work: nat, b: nat): Nic {
    s.(rx := SetDesc(s.rx, i, DescAt(s.rx, i).(done := false, error := false)), p := RCheck(Next(i, s.n), work + 1, b))
  }

  function HarvestPublish(s: Nic, i: nat, work: nat, b: nat): Nic {
    s.(rx := s.rx.(ntc := i), hr := s.hr.(clean := s.hr.taken),
       p := if work > 0 then AAlloc(s.rx.ntu, work, 0, Harvest(work, b)) else PDone(Harvest(0, b)))
  }

  // ------------------------------------------------------------ edunic_alloc_rx_buffers

  /** What netdev_alloc_skb_ip_align and dma_map_single do for one receive buffer. */
  datatype Alloc = NoMemory | NoMapping(area: RxArea) | Buffer(area: RxArea, dma: nat)

  function RefillAlloc(s: Nic, i: nat, left: nat, posted: nat, caller: Caller, alloc: Alloc): Nic {
    if left == 0 || !alloc.Buffer? then
      s.(m := if left > 0 && alloc.NoMapping? then NewSkb(s.m, alloc.area, Released(Freed)) else s.m,
         h := s.h.(short := s.h.short + left),
         p := if posted > 0 then AUse(i, caller) else PDone(caller))
    else
      var id := |s.m.skbs|;
      s.(m := MapSkb(NewSkb(s.m, alloc.area, Held), id, alloc.dma, RX_BUF_SIZE, FromDevice),
         p := ABuf(i, left, posted, caller, id, alloc.dma))
  }

  function RefillPark(s: Nic, i: nat, left: nat, posted: nat, caller: Caller, id: nat, dma: nat): Nic {
    s.(m := Park(s.m, id, InRx(|s.hr.posts|)), rx := SetBuf(s.rx, i, Buf(Some(id), dma, RX_BUF_SIZE)),
       p := ADesc(i, left, posted, caller, id, dma))
  }

  function RefillDescribe(s: Nic, i: nat, left: nat, posted: nat, caller: Caller, id: nat, dma: nat): Nic {
    s.(rx := SetDesc(s.rx, i, Desc(dma, 0, false, false)),
       hr := s.hr.(posts := s.hr.posts + [Post(id, dma, RX_BUF_SIZE)]),
       p := AAlloc(Next(i, s.n), if left > 0 then left - 1 else 0, posted + 1, caller))
  }

  /** next_to_use, then the doorbell RDT, once for the batch. */
  function RefillPublish(s: Nic): (r: Nic)
    ensures r == s.(rx := s.rx.(ntu := r.rx.ntu, tail := r.rx.tail),
                    hr := s.hr.(use := r.hr.use, tail := r.hr.tail), p := r.p)
  {
    match s.p
    case AUse(i, caller) => s.(rx := s.rx.(ntu := i), hr := s.hr.(use := |s.hr.posts|), p := ATail(i, caller))
    case ATail(i, caller) => s.(rx := s.rx.(tail := i), hr := s.hr.(tail := s.hr.use), p := PDone(caller))
    case _ => s
  }

  // ------------------------------------------------------------ edunic_poll

  /** The end of `edunic_poll`: poll again, or napi_complete_done. */
  function PollFinish(s: Nic, caller: Caller): (r: Nic)
    ensures r == s.(irq := r.irq, unmasks := r.unmasks, p := PIdle)
  {
    match caller
    case Probe => s.(p := PIdle)
    case Harvest(work, b) =>
      if work >= b then
        s.(irq := s.irq.(listed := true), p := PIdle)
      else if s.irq.missed then
        s.(irq := s.irq.(missed := false, listed := true), p := PIdle)
      else
        s.(irq := s.irq.(sched := false), unmasks := s.unmasks + 1, p := PIdle)
  }

  /** The softirq runs the callback with a budget. */
  function PollCall(s: Nic, budget: nat): (r: Nic)
    ensures r == s.(irq := r.irq, p := r.p)
  {
    if s.p == PIdle && s.irq.listed then
      s.(irq := s.irq.(listed := false), p := TLoop(s.tx.ntc, 0, 0, budget))
    else
      s
  }

  /** One access of `edunic_poll`; `alloc` is the outcome of a receive buffer allocation. */
  function PollStep(s: Nic, alloc: Alloc): Nic {
    match s.p
    case PIdle => s
    case TLoop(_, _, _, _) => ReclaimCheck(s)
    case TCheck(_, _, _, _) => ReclaimCheck(s)
    case TFree(i, packets, bytes, b) => ReclaimTake(s, i, packets, bytes, b)
    case TClear(i, packets, bytes, b) => ReclaimClear(s, i, packets, bytes, b)
    case TPub(i, packets, bytes, b) => ReclaimPublish(s, i, packets, bytes, b)
    case TStat(_, _, _) => ReclaimWake(s)
    case TStopped(_) => ReclaimWake(s)
    case TRoom(_) => ReclaimWake(s)
    case TWake(_) => ReclaimWake(s)
    case RCheck(i, work, b) => HarvestCheck(s, i, work, b)
    case RTake(i, work, b) => HarvestTake(s, i, work, b)
    case RClear(i, work, b) => HarvestClear(s, i, work, b)
    case RPub(i, work, b) => HarvestPublish(s, i, work, b)
    case AAlloc(i, left, posted, caller) => RefillAlloc(s, i, left, posted, caller, alloc)
    case ABuf(i, left, posted, caller, id, dma) => RefillPark(s, i, left, posted, caller, id, dma)
    case ADesc(i, left, posted, caller, id, dma) => RefillDescribe(s, i, left, posted, caller, id, dma)
    case AUse(_, _) => RefillPublish(s)
    case ATail(_, _) => RefillPublish(s)
    case PDone(caller) => PollFinish(s, caller)
  }

  /** The mask write after napi_complete_done; a new poll may already be running by then. */
  function UnmaskStep(s: Nic): (r: Nic)
    ensures r == s.(irq := r.irq, unmasks := r.unmasks)
  {
    if s.unmasks > 0 then s.(irq := s.irq.(open := true), unmasks := s.unmasks - 1) else s
  }

  // ------------------------------------------------------------ runs

  datatype Action =
    | Call(frame: Frame) | Xmit(mapping: Option<nat>)
    | Work(copied: bool)
    | Softirq(budget: nat) | Poll(alloc: Alloc) | Unmask
    | Timer

  /** One step of one agent; an agent that cannot move leaves the state as it is. */
  function Step(s: Nic, a: Action): Nic {
    match a
    case Call(frame) => XmitCall(s, frame)
    case Xmit(mapping) => XmitStep(s, mapping)
    case Work(copied) => WorkStep(s, copied)
    case Softirq(budget) => PollCall(s, budget)
    case Poll(alloc) => PollStep(s, alloc)
    case Unmask => UnmaskStep(s)
    case Timer => TimerStep(s)
  }

  /** Any interleaving: the agents' steps in any order, with any outcomes. */
  function Run(s: Nic, acts: seq<Action>): Nic {
    if acts == [] then s else Step(Run(s, acts[..|acts| - 1]), acts[|acts| - 1])
  }
}
