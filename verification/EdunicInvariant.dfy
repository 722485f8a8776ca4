/** The invariant of the edunic machine, one predicate per concern. */
module EdunicInvariant {
  import opened Ring
  import opened Memory
  import opened Edunic

  // ------------------------------------------------------------ rings

  function One(b: bool): nat {
    if b then 1 else 0
  }

  function XFill(x: XmitPc, m: Ledger): Fill {
    match x
    case XDesc(id, dma) => Parked(Post(id, dma, SkbLen(m, id)))
    case XUse(id, dma) => Described(Post(id, dma, SkbLen(m, id)))
    case _ => Blank
  }

  function AFill(p: PollPc): Fill {
    match p
    case ADesc(_, _, _, _, id, dma) => Parked(Post(id, dma, RX_BUF_SIZE))
    case _ => Blank
  }

  function ViewOf(t: Track, fill: Fill, dirty: bool): View {
    View(t.clean, t.taken, t.done, t.posts, t.lens, fill, dirty)
  }

  /** The wrapped indices and registers are those of the unwrapped counters. */
  predicate Regs(n: nat, r: RingState, t: Track)
    requires 0 < n
  {
    && r.ntu == Slot(t.use, n) && r.ntc == Slot(t.clean, n)
    && r.head == Slot(t.head, n) && r.tail == Slot(t.tail, n)
  }

  predicate Posting(x: XmitPc) {
    x.XMap? || x.XBuf? || x.XDesc? || x.XUse? || x.XWake?
  }

  /** Transmit ring: clean <= taken <= done <= TDT <= next_to_use, and xmit posts only where
      one slot more is free. */
  predicate TxOk(n: nat, r: RingState, t: Track, x: XmitPc) {
    && 2 <= n && Regs(n, r, t)
    && t.done <= t.tail && t.use == |t.posts|
    && t.tail + One(x == XTail) == t.use
    && |t.lens| == |t.posts| + One(x.XUse?)
    && (Posting(x) ==> t.use < t.clean + n - 1)
  }

  /** The DMA engine is dealing with the frame at its head. */
  predicate Busy(w: WorkPc) {
    || w.WFetch? || w.WCopy? || w.WRdh? || w.WRdt? || w.WData? || w.WLen? || w.WMark? || w.WRdhUp? || w.WIcs?
    || w.WDone?
  }

  /** The DMA engine works from its snapshot of TDT; TDH lags behind during a run. */
  predicate WorkOk(n: nat, w: WorkPc, tdh: nat, done: nat, tdt: nat, cover: nat)
    requires 0 < n
  {
    && tdh <= done <= cover <= tdt
    && (w.WIdle? || w.WHead? || w.WTail? || w.WIcsTx? || w.WIsr? ==> tdh == done == cover)
    && (w.WTail? || w.WTdh? ==> w.head == Slot(done, n) && done == cover)
    && (w.WLoop? || Busy(w) ==> w.head == Slot(done, n) && w.tail == Slot(cover, n))
    && (w.WLoop? && !w.sent ==> tdh == done)
    && (Busy(w) ==> done < cover)
  }

  /** edunic_clean_tx_irq's local index and counts. */
  predicate CleanTxOk(n: nat, p: PollPc, clean: nat, taken: nat, done: nat, use: nat)
    requires 0 < n
  {
    && (if p.TLoop? || p.TCheck? || p.TFree? || p.TPub? then p.i == Slot(taken, n) && clean + p.packets == taken
        else if p.TClear? then 0 < taken && p.i == Slot(taken - 1, n) && clean + p.packets == taken
        else taken == clean)
    && (p.TCheck? ==> taken < use)
    && (p.TFree? ==> taken < done)
  }

  /** Slots still to be refilled in the batch under way. */
  function Left(p: PollPc): nat {
    if p.AAlloc? || p.ABuf? || p.ADesc? then p.left else 0
  }

  predicate Delivering(w: WorkPc) {
    w.WData? || w.WLen? || w.WMark?
  }

  /** Receive ring: clean <= taken <= done <= RDT <= next_to_use <= slots filled, and the
      slots out with the device fall short of n-1 by exactly what failed allocations cost. */
  predicate RxOk(n: nat, r: RingState, t: Track, w: WorkPc, left: nat, short: nat) {
    && 2 <= n && Regs(n, r, t)
    && t.done <= t.tail <= t.use <= |t.posts|
    && t.head + One(w.WRdhUp?) == t.done
    && |t.lens| == t.done + One(w.WMark?)
    && (Delivering(w) ==> t.done < t.tail)
    && |t.posts| + left + short == t.clean + n - 1
  }

  /** edunic_hw_deliver_rx_frame's copy of RDH. */
  predicate DeliverOk(n: nat, w: WorkPc, done: nat)
    requires 0 < n
  {
    && (w.WRdt? || Delivering(w) ==> w.rh == Slot(done, n))
    && (w.WRdhUp? ==> 0 < done && w.rh == Slot(done - 1, n))
  }

  /** edunic_clean_rx_irq's local index and count. */
  predicate CleanRxOk(n: nat, p: PollPc, clean: nat, taken: nat, done: nat)
    requires 0 < n
  {
    && (if p.RCheck? || p.RTake? || p.RPub? then p.i == Slot(taken, n) && clean + p.work == taken && p.work <= p.budget
        else if p.RClear? then
          0 < taken && p.i == Slot(taken - 1, n) && clean + p.work + 1 == taken && p.work < p.budget
        else taken == clean)
    && (p.RTake? ==> taken < done && p.work < p.budget)
  }

  /** edunic_alloc_rx_buffers' local index and count. */
  predicate RefillOk(n: nat, p: PollPc, rdt: nat, use: nat, filled: nat)
    requires 0 < n
  {
    && (p.AAlloc? || p.ABuf? || p.ADesc? ==> use + p.posted == filled)
    && (p.AAlloc? || p.ABuf? || p.ADesc? || p.AUse? || p.ATail? ==> p.i == Slot(filled, n))
    && (p.ABuf? || p.ADesc? ==> 0 < p.left)
    && (p.ATail? ==> use == filled)
    && (!p.ATail? ==> rdt == use)
    && (!(p.AAlloc? || p.ABuf? || p.ADesc? || p.AUse?) ==> use == filled)
  }

  // ------------------------------------------------------------ ownership of skbs

  /** The skb an agent has in hand: not yet mapped, mapped, or just stored into a slot. */
  datatype Hold = Nothing | Bare(id: nat) | Ready(id: nat, dma: nat) | Stored(id: nat, dma: nat)

  function XHold(x: XmitPc): Hold {
    match x
    case XCheck(id) => Bare(id)
    case XStop(id) => Bare(id)
    case XRecheck(id) => Bare(id)
    case XWake(id) => Bare(id)
    case XMap(id) => Bare(id)
    case XBuf(id, dma) => Ready(id, dma)
    case XDesc(id, dma) => Stored(id, dma)
    case XUse(id, dma) => Stored(id, dma)
    case _ => Nothing
  }

  function AHold(p: PollPc): Hold {
    match p
    case ABuf(_, _, _, _, id, dma) => Ready(id, dma)
    case ADesc(_, _, _, _, id, dma) => Stored(id, dma)
    case _ => Nothing
  }

  predicate HoldOk(m: Ledger, h: Hold, dir: Dir, place: Place) {
    h != Nothing ==>
      && h.id < |m.skbs|
      && var skb := m.skbs[h.id];
         && skb.place == (if h.Stored? then place else Nowhere)
         && skb.life == (if h.Bare? then Held else Mapped(h.dma, |skb.data|, dir))
  }

  predicate Holds(h: Hold, id: nat) {
    h != Nothing && h.id == id
  }

  /** The part of a receive buffer already written for the frame being delivered. */
  function Wip(w: WorkPc): Frame {
    if w.WLen? || w.WMark? then w.frame else []
  }

  predicate TxSkb(m: Ledger, id: nat, k: nat, post: Post, frame: Frame, taken: bool) {
    && id < |m.skbs|
    && m.skbs[id] == Skb(frame, if taken then Released(Consumed) else Mapped(post.dma, post.len, ToDevice), InTx(k))
    && post.len == |frame|
  }

  predicate RxSkb(m: Ledger, id: nat, k: nat, post: Post, taken: bool) {
    && id < |m.skbs|
    && m.skbs[id].place == InRx(k)
    && m.skbs[id].life == (if taken then Released(HandedUp) else Mapped(post.dma, post.len, FromDevice))
    && post.len == |m.skbs[id].data| == RX_BUF_SIZE
  }

  predicate Starts(m: Ledger, id: nat, frame: Frame) {
    id < |m.skbs| && frame <= m.skbs[id].data
  }

  /** What the ledger is compared with: the posts of both rings and how many of them the driver
      has taken back, the frames posted and looped back, the frame being written to the receive
      ring, and what xmit and the refill have in hand. */
  datatype Books = Books(tp: seq<Post>, tt: nat, frames: seq<Frame>,
                         rp: seq<Post>, rt: nat, loops: seq<Frame>, wip: Frame, xh: Hold, ah: Hold)

  function BooksOf(s: Nic): Books {
    Books(s.ht.posts, s.ht.taken, s.h.frames, s.hr.posts, s.hr.taken, s.h.loops, Wip(s.w), XHold(s.x), AHold(s.p))
  }

  predicate Owned(skb: Skb, id: nat, b: Books) {
    match skb.place
    case Nowhere => skb.life.Released? || Holds(b.xh, id) || Holds(b.ah, id)
    case InTx(k) => (k < |b.tp| && b.tp[k].skb == id) || (k == |b.tp| && Holds(b.xh, id))
    case InRx(k) => (k < |b.rp| && b.rp[k].skb == id) || (k == |b.rp| && Holds(b.ah, id))
  }

  /** Every skb is where the histories say: mapped exactly while it is posted, holding the
      frame it was posted with or the frame the device wrote; and nothing was ever misused. */
  ghost predicate MemOk(m: Ledger, b: Books) {
    && !m.fault
    && HoldOk(m, b.xh, ToDevice, InTx(|b.tp|))
    && HoldOk(m, b.ah, FromDevice, InRx(|b.rp|))
    && (b.ah != Nothing ==> !b.ah.Bare? && |m.skbs[b.ah.id].data| == RX_BUF_SIZE)
    && b.tt <= |b.tp| == |b.frames| && b.rt <= |b.loops| <= |b.rp|
    && (b.wip != [] ==> |b.loops| < |b.rp|)
    && (forall k :: 0 <= k < |b.tp| ==> TxSkb(m, b.tp[k].skb, k, b.tp[k], b.frames[k], k < b.tt))
    && (forall k :: 0 <= k < |b.rp| ==> RxSkb(m, b.rp[k].skb, k, b.rp[k], k < b.rt))
    && (forall k :: b.rt <= k < |b.loops| ==> Starts(m, b.rp[k].skb, b.loops[k]))
    && (b.wip != [] ==> Starts(m, b.rp[|b.loops|].skb, b.wip))
    && (forall id :: 0 <= id < |m.skbs| ==> Owned(m.skbs[id], id, b))
  }

  // ------------------------------------------------------------ flow of frames

  /** What a posted frame looks like at the receiver: its length is cut to the 16 bits of the
      descriptor and then to one receive buffer. */
  function Carried(frame: Frame): (r: Frame)
    ensures |frame| <= RX_BUF_SIZE ==> r == frame
  {
    Clip(Fetched(frame))
  }

  function Fetched(frame: Frame): Frame {
    frame[..|frame| % 65536]
  }

  function Clip(frame: Frame): Frame {
    if |frame| > RX_BUF_SIZE then frame[..RX_BUF_SIZE] else frame
  }

  /** The frames that were looped back, in the order they were posted. */
  function LoopsOf(frames: seq<Frame>, fates: seq<Fate>): (r: seq<Frame>)
    requires |fates| <= |frames|
    decreases |fates|
  {
    if fates == [] then []
    else
      var k := |fates| - 1;
      var before := LoopsOf(frames, fates[..k]);
      if fates[k] == Looped then before + [Carried(frames[k])] else before
  }

  function Count(fates: seq<Fate>, f: Fate): (c: nat)
    ensures c <= |fates|
  {
    if fates == [] then 0 else Count(fates[..|fates| - 1], f) + if fates[|fates| - 1] == f then 1 else 0
  }

  function SumLen(posts: seq<Post>): nat {
    if posts == [] then 0 else SumLen(posts[..|posts| - 1]) + posts[|posts| - 1].len
  }

  function SumFrames(frames: seq<Frame>): nat {
    if frames == [] then 0 else SumFrames(frames[..|frames| - 1]) + |frames[|frames| - 1]|
  }

  predicate Skips(post: Post, frame: Frame) {
    post.dma == 0 || |frame| % 65536 == 0
  }

  /** A frame already in the receive ring whose fate is not yet recorded. */
  predicate Unrecorded(w: WorkPc) {
    w.WRdhUp? || w.WIcs? || (w.WDone? && w.fate == Looped)
  }

  predicate FrameOk(w: WorkPc, post: Post, frame: Frame) {
    && (w.WCopy? ==> w.len == |frame| % 65536)
    && (w.WRdh? || w.WRdt? || w.WData? ==> w.frame == Fetched(frame))
    && (w.WLen? || w.WMark? ==> w.frame == Carried(frame))
    && (w.WDone? ==> (w.fate == Skipped <==> Skips(post, frame)))
    && (Busy(w) && !w.WFetch? && !w.WDone? ==> !Skips(post, frame))
  }

  /** Every posted frame, its post and its descriptor agree, and those passed have their fate. */
  ghost predicate PostsOk(posts: seq<Post>, lens: seq<nat>, frames: seq<Frame>, fates: seq<Fate>) {
    && |fates| <= |posts| == |frames| <= |lens|
    && (forall k :: 0 <= k < |posts| ==> posts[k].len == |frames[k]| && lens[k] == |frames[k]| % 65536)
    && (forall k :: 0 <= k < |fates| ==> (fates[k] == Skipped <==> Skips(posts[k], frames[k])))
  }

  /** The length just written into the descriptor of the frame about to be posted. */
  predicate LastLenOk(x: XmitPc, posts: seq<Post>, lens: seq<nat>, m: Ledger) {
    x.XUse? ==> |posts| < |lens| && lens[|posts|] == SkbLen(m, x.id) % 65536
  }

  /** The frame the DMA engine is working on. */
  predicate EngineOk(w: WorkPc, k: nat, posts: seq<Post>, frames: seq<Frame>) {
    k < |posts| && k < |frames| ==> FrameOk(w, posts[k], frames[k])
  }

  /** The receive ring holds, in order, what was looped back; the stack got the first of them. */
  ghost predicate LoopsOk(w: WorkPc, frames: seq<Frame>, fates: seq<Fate>, loops: seq<Frame>,
                          delivered: seq<Frame>, lens: seq<nat>) {
    && |fates| <= |frames|
    && (Unrecorded(w) ==> |fates| < |frames|)
    && loops == LoopsOf(frames, fates) + (if Unrecorded(w) then [Carried(frames[|fates|])] else [])
    && delivered <= loops
    && |loops| <= |lens|
    && (forall k :: 0 <= k < |loops| ==> lens[k] == |loops[k]| <= RX_BUF_SIZE)
    && (w.WMark? ==> |loops| < |lens| && lens[|loops|] == |w.frame|)
  }

  /** The receive and drop counters. */
  predicate RxStatsOk(st: Stats, w: WorkPc, fates: seq<Fate>, delivered: seq<Frame>) {
    && st.rxDropped == Count(fates, RxDropped) + One(w.WDone? && w.fate == RxDropped)
    && st.rxPackets == |delivered| && st.rxBytes == SumFrames(delivered) && st.rxErrors == 0
  }

  /** The transmit counters lag behind by what the poll under way has not yet booked. */
  predicate TxStatsOk(packets: nat, bytes: nat, p: PollPc, taken: nat, posts: seq<Post>) {
    var open := p.TLoop? || p.TCheck? || p.TFree? || p.TClear? || p.TPub? || p.TStat?;
    && taken <= |posts|
    && packets + (if open then p.packets else 0) == taken
    && bytes + (if open then p.bytes else 0) == SumLen(posts[..taken])
    && (open && p.packets == 0 ==> p.bytes == 0)
  }

  // ------------------------------------------------------------ interrupts, NAPI, queue, doorbell

  /** How far a poll has looked for completions: not running (or filling the ring for probe),
      still to look at both rings, at the receive ring only, or at neither; in the last case
      `again` says that its budget is used up, so that it will be polled again. */
  datatype Look = Off | Both | RxOnly | Past(again: bool)

  function LookOf(p: PollPc): Look {
    match p
    case PIdle => Off
    case TLoop(_, _, _, _) => Both
    case TCheck(_, _, _, _) => Both
    case TFree(_, _, _, _) => Both
    case TClear(_, _, _, _) => Both
    case RPub(_, work, b) => Past(work >= b)
    case AAlloc(_, _, _, caller) => After(caller)
    case ABuf(_, _, _, caller, _, _) => After(caller)
    case ADesc(_, _, _, caller, _, _) => After(caller)
    case AUse(_, caller) => After(caller)
    case ATail(_, caller) => After(caller)
    case PDone(caller) => After(caller)
    case _ => RxOnly
  }

  function After(caller: Caller): Look {
    match caller
    case Probe => Off
    case Harvest(work, b) => Past(work >= b)
  }

  /** The interrupt handler that the DMA engine or the timer is in. */
  function EngineIsr(w: WorkPc): Option<IsrPc> {
    if w.WIsr? then Some(w.isr) else None
  }

  function TimerIsr(t: TimerPc): Option<IsrPc> {
    if t.TIsr? then Some(t.isr) else None
  }

  /** An interrupt handler that has claimed NAPI and not yet put it on the list. */
  predicate Claimed(i: Option<IsrPc>) {
    i == Some(IMask) || i == Some(IList)
  }

  predicate OneReason(any: bool, a: bool, b: bool, c: bool, d: bool) {
    && (any <==> a || b || c || d)
    && !(a && b) && !(a && c) && !(a && d) && !(b && c) && !(b && d) && !(c && d)
  }

  /** NAPI is scheduled for exactly one reason at a time: it is on the list, being polled, or
      just claimed by one interrupt handler. */
  predicate NapiOk(q: Irq, l: Look, wi: Option<IsrPc>, ti: Option<IsrPc>, linking: bool, unmasks: nat) {
    && OneReason(q.sched, q.listed, l != Off, Claimed(wi), Claimed(ti))
    && (q.missed ==> q.sched)
    && (!q.open ==> q.sched || unmasks > 0)
    && (q.link ==> q.carrier || linking || q.lsc)
    && (q.lsc || linking ==> q.link)
  }

  /** The DMA engine is going to call the interrupt handler with the TX cause set. */
  predicate EngineOwes(w: WorkPc) {
    Busy(w) || w.WTdh? || w.WIcsTx? || (w.WLoop? && w.sent)
  }

  /** This call of the interrupt handler is going to schedule NAPI, or mark it missed. */
  predicate Owes(q: Irq, i: Option<IsrPc>) {
    i == Some(IPrep) || (i == Some(IRead) && (q.tx || q.rx))
  }

  /** Completions the driver has not collected never wait for good: the poll under way is still
      going to look, a new poll is certain, or an interrupt handler call that schedules one is. */
  predicate NoStranded(q: Irq, l: Look, owes: bool, wi: Option<IsrPc>, ti: Option<IsrPc>, txDone: bool, rxDone: bool) {
    || ((txDone ==> l == Both) && (rxDone ==> l == Both || l == RxOnly))
    || q.listed || q.missed || l == Past(true) || Claimed(wi) || Claimed(ti)
    || owes || Owes(q, wi) || Owes(q, ti)
  }

  predicate IrqOk(q: Irq, l: Look, owes: bool, wi: Option<IsrPc>, ti: Option<IsrPc>, linking: bool, unmasks: nat,
                  txDone: bool, rxDone: bool) {
    NapiOk(q, l, wi, ti, linking, unmasks) && NoStranded(q, l, owes, wi, ti, txDone, rxDone)
  }

  predicate IrqSide(q: Irq, p: PollPc, w: WorkPc, t: TimerPc, unmasks: nat, txDone: bool, rxDone: bool) {
    IrqOk(q, LookOf(p), EngineOwes(w), EngineIsr(w), TimerIsr(t), t == TIcs, unmasks, txDone, rxDone)
  }

  /** A stopped queue with room in the ring: one side is about to notice. */
  predicate QueueOk(stopped: bool, room: bool, x: XmitPc, p: PollPc) {
    stopped && room ==>
      || x.XRecheck? || x.XWake? || x == XRecheck2 || x == XWake2
      || p.TStat? || p.TStopped? || p.TRoom? || p.TWake?
  }

  predicate Room(n: nat, t: Track) {
    t.use < t.clean + n - 1
  }

  /** Posts announced by TDT beyond those the current or last DMA run covers have their work
      item queued, unless xmit is just about to queue it or the run has yet to read TDT. */
  predicate DoorOk(ahead: bool, x: XmitPc, w: WorkPc, work: bool) {
    ahead && x != XKick && w != WHead && !w.WTail? ==> work
  }

  // ------------------------------------------------------------ the whole

  ghost predicate TxSide(n: nat, r: RingState, t: Track, fill: Fill, x: XmitPc, w: WorkPc, p: PollPc, cover: nat) {
    && TxOk(n, r, t, x)
    && Zones(n, r.desc, r.buf, ViewOf(t, fill, p.TClear?))
    && WorkOk(n, w, t.head, t.done, t.tail, cover)
    && CleanTxOk(n, p, t.clean, t.taken, t.done, t.use)
  }

  ghost predicate RxSide(n: nat, r: RingState, t: Track, w: WorkPc, p: PollPc, short: nat) {
    && RxOk(n, r, t, w, Left(p), short)
    && Zones(n, r.desc, r.buf, ViewOf(t, AFill(p), p.RClear?))
    && DeliverOk(n, w, t.done)
    && CleanRxOk(n, p, t.clean, t.taken, t.done)
    && RefillOk(n, p, t.tail, t.use, |t.posts|)
  }

  ghost predicate FlowSide(w: WorkPc, posts: seq<Post>, lens: seq<nat>, done: nat, rxDone: nat, taken: nat,
                           rlens: seq<nat>, frames: seq<Frame>, fates: seq<Fate>, loops: seq<Frame>,
                           delivered: seq<Frame>) {
    && |fates| == done && |loops| == rxDone && |delivered| == taken
    && PostsOk(posts, lens, frames, fates)
    && EngineOk(w, done, posts, frames)
    && LoopsOk(w, frames, fates, loops, delivered, rlens)
  }

  predicate StatsSide(st: Stats, w: WorkPc, p: PollPc, taken: nat, posts: seq<Post>, fates: seq<Fate>,
                      delivered: seq<Frame>) {
    RxStatsOk(st, w, fates, delivered) && TxStatsOk(st.txPackets, st.txBytes, p, taken, posts)
  }

  ghost predicate Inv(s: Nic) {
    && TxSide(s.n, s.tx, s.ht, XFill(s.x, s.m), s.x, s.w, s.p, s.h.cover)
    && RxSide(s.n, s.rx, s.hr, s.w, s.p, s.h.short)
    && MemOk(s.m, BooksOf(s))
    && FlowSide(s.w, s.ht.posts, s.ht.lens, s.ht.done, s.hr.done, s.hr.taken, s.hr.lens,
                s.h.frames, s.h.fates, s.h.loops, s.h.delivered)
    && LastLenOk(s.x, s.ht.posts, s.ht.lens, s.m)
    && StatsSide(s.st, s.w, s.p, s.ht.taken, s.ht.posts, s.h.fates, s.h.delivered)
    && IrqSide(s.irq, s.p, s.w, s.t, s.unmasks, s.ht.taken < s.ht.done, s.hr.taken < s.hr.done)
    && QueueOk(s.stopped, Room(s.n, s.ht), s.x, s.p)
    && DoorOk(s.ht.tail > s.h.cover, s.x, s.w, s.work)
  }
}
