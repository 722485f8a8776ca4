/** The agents always come to rest once the stack stops sending, whoever is scheduled when. */
module EdunicSettles {
  import opened Ring
  import opened Memory
  import opened Edunic
  import opened EdunicInvariant
  import opened EdunicKeeps
  import opened EdunicTheorems
  import opened EdunicProgress

  /** The agent named by `a` has something to do, and it is not fed new work: no new frame, no new
      link event, and NAPI polls with a positive budget. */
  predicate Moves(s: Nic, a: Action) {
    match a
    case Call(_) => false
    case Xmit(_) => s.x != XIdle
    case Work(_) => s.w != WIdle || s.work
    case Softirq(budget) => s.p == PIdle && s.irq.listed && 0 < budget
    case Poll(_) => s.p != PIdle
    case Unmask => s.unmasks > 0
    case Timer => s.t != TIdle
  }

  /** The poll under way was called with a positive budget. */
  predicate Budgeted(p: PollPc) {
    match p
    case PIdle => true
    case TLoop(_, _, _, b) => 0 < b
    case TCheck(_, _, _, b) => 0 < b
    case TFree(_, _, _, b) => 0 < b
    case TClear(_, _, _, b) => 0 < b
    case TPub(_, _, _, b) => 0 < b
    case TStat(_, _, b) => 0 < b
    case TStopped(b) => 0 < b
    case TRoom(b) => 0 < b
    case TWake(b) => 0 < b
    case RCheck(_, _, b) => 0 < b
    case RTake(_, _, b) => 0 < b
    case RClear(_, _, b) => 0 < b
    case RPub(_, _, b) => 0 < b
    case AAlloc(_, _, _, caller) => Positive(caller)
    case ABuf(_, _, _, caller, _, _) => Positive(caller)
    case ADesc(_, _, _, caller, _, _) => Positive(caller)
    case AUse(_, caller) => Positive(caller)
    case ATail(_, caller) => Positive(caller)
    case PDone(caller) => Positive(caller)
  }

  predicate Positive(caller: Caller) {
    caller.Harvest? ==> 0 < caller.budget
  }

  // ------------------------------------------------------------ how far from rest

  function XRank(x: XmitPc): nat {
    match x
    case XIdle => 0
    case XWake2 => 1
    case XRecheck2 => 2
    case XStop2 => 3
    case XCheck2 => 4
    case XKick => 5
    case XTail => 6
    case XUse(_, _) => 7
    case XDesc(_, _) => 8
    case XBuf(_, _) => 9
    case XMap(_) => 10
    case XWake(_) => 11
    case XRecheck(_) => 12
    case XStop(_) => 13
    case XCheck(_) => 14
  }

  function IsrRank(pc: IsrPc): nat {
    match pc
    case IList => 1
    case IMask => 2
    case IPrep => 3
    case IRead => 4
  }

  function WRank(w: WorkPc): nat {
    match w
    case WIdle => 0
    case WIsr(pc) => IsrRank(pc)
    case WIcsTx => 5
    case WTdh(_) => 6
    case WDone(_, _, _) => 7
    case WIcs(_, _) => 8
    case WRdhUp(_, _, _) => 9
    case WMark(_, _, _, _) => 10
    case WLen(_, _, _, _) => 11
    case WData(_, _, _, _) => 12
    case WRdt(_, _, _, _) => 13
    case WRdh(_, _, _) => 14
    case WCopy(_, _, _) => 15
    case WFetch(_, _) => 16
    case WLoop(_, _, _) => 17
    case WTail(_) => 18
    case WHead => 19
  }

  function TRank(t: TimerPc): nat {
    match t
    case TIdle => 0
    case TIsr(pc) => IsrRank(pc)
    case TIcs => 5
  }

  /** The three parts of a poll: reclaiming, harvesting, refilling; 0 is after that. */
  function Phase(p: PollPc): nat {
    match p
    case RCheck(_, _, _) => 2
    case RTake(_, _, _) => 2
    case RClear(_, _, _) => 2
    case RPub(_, _, _) => 2
    case AAlloc(_, _, _, _) => 1
    case ABuf(_, _, _, _, _, _) => 1
    case ADesc(_, _, _, _, _, _) => 1
    case AUse(_, _) => 0
    case ATail(_, _) => 0
    case PDone(_) => 0
    case PIdle => 0
    case _ => 3
  }

  function PRank(p: PollPc): nat {
    match p
    case TClear(_, _, _, _) => 9
    case TLoop(_, _, _, _) => 8
    case TCheck(_, _, _, _) => 7
    case TFree(_, _, _, _) => 6
    case TPub(_, _, _, _) => 5
    case TStat(_, _, _) => 4
    case TStopped(_) => 3
    case TRoom(_) => 2
    case TWake(_) => 1
    case RClear(_, _, _) => 4
    case RCheck(_, _, _) => 3
    case RTake(_, _, _) => 2
    case RPub(_, _, _) => 1
    case AAlloc(_, _, _, _) => 3
    case ABuf(_, _, _, _, _, _) => 2
    case ADesc(_, _, _, _, _, _) => 1
    case AUse(_, _) => 3
    case ATail(_, _) => 2
    case PDone(_) => 1
    case PIdle => 0
  }

  /** This poll has harvested a frame and so may have to be repeated. */
  predicate HasHarvested(p: PollPc) {
    match p
    case RCheck(_, work, _) => 0 < work
    case RTake(_, work, _) => 0 < work
    case RClear(_, work, _) => true
    case RPub(_, work, _) => 0 < work
    case AAlloc(_, _, _, caller) => Worked(caller)
    case ABuf(_, _, _, caller, _, _) => Worked(caller)
    case ADesc(_, _, _, caller, _, _) => Worked(caller)
    case AUse(_, caller) => Worked(caller)
    case ATail(_, caller) => Worked(caller)
    case PDone(caller) => Worked(caller)
    case _ => false
  }

  predicate Worked(caller: Caller) {
    caller.Harvest? && 0 < caller.work
  }

  function Gap(a: nat, b: nat): nat {
    if a <= b then b - a else 0
  }

  datatype Rank = Rank(x: nat, ahead: nat, work: nat, w: nat, t: nat, rx: nat, tx: nat, due: nat,
                       phase: nat, left: nat, p: nat, unmasks: nat)

  function RankOf(s: Nic): Rank {
    Rank(XRank(s.x), Gap(s.ht.done, s.ht.use), One(s.work), WRank(s.w), TRank(s.t),
         Gap(s.hr.taken, s.hr.done), Gap(s.ht.taken, s.ht.done),
         One(s.irq.listed) + One(s.irq.missed) + One(HasHarvested(s.p)),
         Phase(s.p), Left(s.p), PRank(s.p), s.unmasks)
  }

  /** Lexicographic order. */
  predicate Below(a: Rank, b: Rank) {
    a.x < b.x || (a.x == b.x && (
    a.ahead < b.ahead || (a.ahead == b.ahead && (
    a.work < b.work || (a.work == b.work && (
    a.w < b.w || (a.w == b.w && (
    a.t < b.t || (a.t == b.t && (
    a.rx < b.rx || (a.rx == b.rx && (
    a.tx < b.tx || (a.tx == b.tx && (
    a.due < b.due || (a.due == b.due && (
    a.phase < b.phase || (a.phase == b.phase && (
    a.left < b.left || (a.left == b.left && (
    a.p < b.p || (a.p == b.p && a.unmasks < b.unmasks)))))))))))))))))))))
  }

  // ------------------------------------------------------------ every step comes closer to rest

  lemma XmitLowers(s: Nic, mapping: Option<nat>)
    requires s.x != XIdle
    ensures Below(RankOf(XmitStep(s, mapping)), RankOf(s)) && XmitStep(s, mapping).p == s.p
  {
    hide Release, MapSkb, Park, SetDesc, SetBuf, Slot, Next, SkbLen, SkbData, TxRoom, Gap, Phase, PRank,
         HasHarvested, WRank, TRank, Left;
  }

  lemma WorkLowers(s: Nic, copied: bool)
    requires Inv(s) && (s.w != WIdle || s.work)
    ensures Below(RankOf(WorkStep(s, copied)), RankOf(s)) && WorkStep(s, copied).p == s.p
  {
    hide Inv, Below, RankOf, DeliverCheck, DeliverData, DeliverLen, DeliverMark, DeliverHead, DeliverCause,
         EngineCheck, EngineCopy, EngineDone, EngineEnd;
    match s.w
    case WCopy(head, tail, len) => EngineLowers(s, head, tail, len, copied);
    case WRdh(_, _, _) => CheckLowers(s);
    case WRdt(_, _, _, _) => CheckLowers(s);
    case WData(head, tail, frame, rh) => DeliverLowers(s, head, tail, frame, rh);
    case WLen(head, tail, frame, rh) => DeliverLowers(s, head, tail, frame, rh);
    case WMark(head, tail, frame, rh) => DeliverLowers(s, head, tail, frame, rh);
    case WRdhUp(head, tail, rh) => DeliverLowers(s, head, tail, [], rh);
    case WIcs(head, tail) => DeliverLowers(s, head, tail, [], 0);
    case WDone(head, tail, fate) => EngineDoneLowers(s, head, tail, fate);
    case WTdh(_) => EndLowers(s);
    case WIcsTx => EndLowers(s);
    case WIsr(_) => EndLowers(s);
    case _ => CheckLowers(s);
  }

  lemma CheckLowers(s: Nic)
    ensures s.w.WRdh? || s.w.WRdt? ==> Below(RankOf(DeliverCheck(s)), RankOf(s))
    ensures s.w.WHead? || s.w.WTail? || s.w.WLoop? || s.w.WFetch? || (s.w.WIdle? && s.work) ==>
      Below(RankOf(EngineCheck(s)), RankOf(s))
  {
    hide DescAt, BufAt, XRank, TRank, Phase, PRank, Left, HasHarvested, Gap;
  }

  lemma DeliverLowers(s: Nic, head: nat, tail: nat, frame: Frame, rh: nat)
    ensures s.w == WData(head, tail, frame, rh) ==> Below(RankOf(DeliverData(s, head, tail, frame, rh)), RankOf(s))
    ensures DeliverData(s, head, tail, frame, rh).p == s.p
    ensures s.w == WLen(head, tail, frame, rh) ==> Below(RankOf(DeliverLen(s, head, tail, frame, rh)), RankOf(s))
    ensures s.w == WMark(head, tail, frame, rh) ==> Below(RankOf(DeliverMark(s, head, tail, frame, rh)), RankOf(s))
    ensures s.w == WRdhUp(head, tail, rh) ==> Below(RankOf(DeliverHead(s, head, tail, rh)), RankOf(s))
    ensures s.w == WIcs(head, tail) ==> Below(RankOf(DeliverCause(s, head, tail)), RankOf(s))
    ensures DeliverLen(s, head, tail, frame, rh).p == DeliverMark(s, head, tail, frame, rh).p == s.p
    ensures DeliverHead(s, head, tail, rh).p == DeliverCause(s, head, tail).p == s.p
  {
    hide WriteSkb, SetDesc, SetBuf, DescAt, BufAt, Next, XRank, TRank, Phase, PRank, Left, HasHarvested, Gap;
  }

  lemma EngineLowers(s: Nic, head: nat, tail: nat, len: nat, copied: bool)
    requires s.w == WCopy(head, tail, len)
    ensures Below(RankOf(EngineCopy(s, head, tail, len, copied)), RankOf(s))
    ensures EngineCopy(s, head, tail, len, copied).p == s.p
  {
    hide ReadSkb, XRank, TRank, Phase, PRank, Left, HasHarvested, Gap;
  }

  lemma EngineDoneLowers(s: Nic, head: nat, tail: nat, fate: Fate)
    requires Inv(s) && s.w == WDone(head, tail, fate)
    ensures Below(RankOf(EngineDone(s, head, tail, fate)), RankOf(s)) && EngineDone(s, head, tail, fate).p == s.p
  {
    hide Inv, SetDesc, DescAt, XRank, TRank, Phase, PRank, Left, HasHarvested, Next;
    PassesPosted(s);
  }

  lemma EndLowers(s: Nic)
    ensures s.w.WTdh? || s.w.WIcsTx? || s.w.WIsr? ==> Below(RankOf(EngineEnd(s)), RankOf(s))
  {
    hide Intr, XRank, TRank, Phase, PRank, Left, HasHarvested, Gap;
    IsrLowers(s.irq, if s.w.WIsr? then s.w.isr else IRead);
  }

  lemma IsrLowers(q: Irq, pc: IsrPc)
    ensures var (r, next) := Intr(q, pc); next.Some? ==> IsrRank(next.value) < IsrRank(pc)
  {}

  lemma PassesPosted(s: Nic)
    requires Inv(s) && Busy(s.w)
    ensures s.ht.done < s.ht.use
  {
    hide Zones, MemOk, RxSide, CleanTxOk, FlowSide, StatsSide, IrqSide;
  }

  lemma TimerLowers(s: Nic)
    requires s.t != TIdle
    ensures Below(RankOf(TimerStep(s)), RankOf(s)) && TimerStep(s).p == s.p
  {
    hide Intr, Phase, PRank, HasHarvested, XRank, WRank, Left, Gap;
    IsrLowers(s.irq, if s.t.TIsr? then s.t.isr else IRead);
  }

  lemma NapiLowers(s: Nic, budget: nat)
    ensures s.p == PIdle && s.irq.listed && 0 < budget ==>
      Below(RankOf(PollCall(s, budget)), RankOf(s)) && Budgeted(PollCall(s, budget).p)
    ensures s.unmasks > 0 ==> Below(RankOf(UnmaskStep(s)), RankOf(s)) && UnmaskStep(s).p == s.p
  {
    hide XRank, WRank, TRank, Gap;
  }

  /** A poll step takes a slot only when there is one to take. */
  lemma TakesDone(s: Nic)
    requires Inv(s)
    ensures s.p.TFree? ==> s.ht.taken < s.ht.done
    ensures s.p.RTake? ==> s.hr.taken < s.hr.done
    ensures s.p.ADesc? || s.p.ABuf? ==> 0 < s.p.left
  {
    hide Zones, MemOk, FlowSide, StatsSide, IrqSide;
  }

  /** `r` is closer to rest than `s`, and its poll has a positive budget. */
  predicate Closer(r: Nic, s: Nic) {
    Below(RankOf(r), RankOf(s)) && Budgeted(r.p)
  }

  lemma ReclaimLowers(s: Nic)
    requires Phase(s.p) == 3 && Budgeted(s.p)
    ensures s.p.TLoop? || s.p.TCheck? ==> Closer(ReclaimCheck(s), s)
    ensures s.p.TStat? || s.p.TStopped? || s.p.TRoom? || s.p.TWake? ==> Closer(ReclaimWake(s), s)
  {
    hide DescAt, TxRoom, XRank, WRank, TRank, Gap;
  }

  lemma ReclaimSlotLowers(s: Nic)
    requires Inv(s) && Budgeted(s.p)
    ensures s.p.TFree? ==> Closer(ReclaimTake(s, s.p.i, s.p.packets, s.p.bytes, s.p.budget), s)
    ensures s.p.TClear? ==> Closer(ReclaimClear(s, s.p.i, s.p.packets, s.p.bytes, s.p.budget), s)
    ensures s.p.TPub? ==> Closer(ReclaimPublish(s, s.p.i, s.p.packets, s.p.bytes, s.p.budget), s)
  {
    hide Inv, Release, UnmapSkb, SetDesc, SetBuf, DescAt, BufAt, Slot, Next, XRank, WRank, TRank;
    TakesDone(s);
  }

  lemma HarvestLowers(s: Nic)
    requires Budgeted(s.p)
    ensures s.p.RCheck? ==> Closer(HarvestCheck(s, s.p.i, s.p.work, s.p.budget), s)
    ensures s.p.RClear? ==> Closer(HarvestClear(s, s.p.i, s.p.work, s.p.budget), s)
    ensures s.p.RPub? ==> Closer(HarvestPublish(s, s.p.i, s.p.work, s.p.budget), s)
  {
    hide SetDesc, SetBuf, DescAt, BufAt, Slot, Next, XRank, WRank, TRank, Gap;
  }

  lemma HarvestSlotLowers(s: Nic, i: nat, work: nat, b: nat)
    requires Inv(s) && s.p == RTake(i, work, b) && 0 < b
    ensures Closer(HarvestTake(s, i, work, b), s)
  {
    hide Inv, Release, UnmapSkb, HandUp, SetBuf, DescAt, BufAt, XRank, WRank, TRank;
    TakesDone(s);
  }

  lemma AllocLowers(s: Nic, i: nat, left: nat, posted: nat, caller: Caller, alloc: Alloc)
    requires s.p == AAlloc(i, left, posted, caller) && Positive(caller)
    ensures Closer(RefillAlloc(s, i, left, posted, caller, alloc), s)
  {
    hide NewSkb, MapSkb, XRank, WRank, TRank, Gap;
  }

  lemma RefillLowers(s: Nic)
    requires Budgeted(s.p) && (s.p.AUse? || s.p.ATail?)
    ensures Closer(RefillPublish(s), s)
  {
    hide XRank, WRank, TRank, Gap;
  }

  lemma RefillSlotLowers(s: Nic)
    requires Inv(s) && Budgeted(s.p)
    ensures s.p.ABuf? ==> Closer(RefillPark(s, s.p.i, s.p.left, s.p.posted, s.p.caller, s.p.id, s.p.dma), s)
    ensures s.p.ADesc? ==> Closer(RefillDescribe(s, s.p.i, s.p.left, s.p.posted, s.p.caller, s.p.id, s.p.dma), s)
  {
    hide Inv, Park, SetDesc, SetBuf, Next, XRank, WRank, TRank, Gap;
    TakesDone(s);
  }

  lemma FinishLowers(s: Nic, caller: Caller)
    requires s.p == PDone(caller) && Budgeted(s.p)
    ensures Closer(PollFinish(s, caller), s)
  {
    hide XRank, WRank, TRank, Gap;
  }

  lemma PollLowers(s: Nic, alloc: Alloc)
    requires Inv(s) && s.p != PIdle && Budgeted(s.p)
    ensures Closer(PollStep(s, alloc), s)
  {
    hide Inv, Closer, ReclaimCheck, ReclaimTake, ReclaimClear, ReclaimPublish, ReclaimWake, HarvestCheck,
         HarvestTake, HarvestClear,
         HarvestPublish, RefillAlloc, RefillPark, RefillDescribe, RefillPublish, PollFinish;
    match s.p
    case PIdle =>
    case TLoop(_, _, _, _) => ReclaimLowers(s);
    case TCheck(_, _, _, _) => ReclaimLowers(s);
    case TFree(_, _, _, _) => ReclaimSlotLowers(s);
    case TClear(_, _, _, _) => ReclaimSlotLowers(s);
    case TPub(_, _, _, _) => ReclaimSlotLowers(s);
    case TStat(_, _, _) => ReclaimLowers(s);
    case TStopped(_) => ReclaimLowers(s);
    case TRoom(_) => ReclaimLowers(s);
    case TWake(_) => ReclaimLowers(s);
    case RTake(i, work, b) => HarvestSlotLowers(s, i, work, b);
    case RCheck(_, _, _) => HarvestLowers(s);
    case RClear(_, _, _) => HarvestLowers(s);
    case RPub(_, _, _) => HarvestLowers(s);
    case AAlloc(i, left, posted, caller) => AllocLowers(s, i, left, posted, caller, alloc);
    case AUse(_, _) => RefillLowers(s);
    case ATail(_, _) => RefillLowers(s);
    case ABuf(_, _, _, _, _, _) => RefillSlotLowers(s);
    case ADesc(_, _, _, _, _, _) => RefillSlotLowers(s);
    case PDone(caller) => FinishLowers(s, caller);
  }

  /** Every step that is not fed new work lowers the rank, whichever agent takes it. */
  lemma StepLowers(s: Nic, a: Action)
    requires Inv(s) && Moves(s, a) && Budgeted(s.p)
    ensures Below(RankOf(Step(s, a)), RankOf(s)) && Budgeted(Step(s, a).p)
  {
    hide Inv, XmitStep, WorkStep, PollStep, PollCall, UnmaskStep, TimerStep, Below, RankOf, Budgeted;
    match a
    case Xmit(mapping) => XmitLowers(s, mapping);
    case Work(copied) => WorkLowers(s, copied);
    case Softirq(budget) => NapiLowers(s, budget);
    case Poll(alloc) => PollLowers(s, alloc);
    case Unmask => NapiLowers(s, 0);
    case Timer => TimerLowers(s);
  }

  // ------------------------------------------------------------ every schedule comes to rest

  /** The state after `k` steps of a scheduler that looks at the state to choose the next step. */
  function Scheduled(s: Nic, pick: Nic -> Action, k: nat): Nic
    decreases k
  {
    if k == 0 then s else Scheduled(Step(s, pick(s)), pick, k - 1)
  }

  /** Whoever is scheduled when, as long as somebody who can move is: after finitely many steps the
      agents are at rest, and then (`RestMeansDone`) everything sent has been dealt with. */
  lemma {:induction false} AlwaysSettles(s: Nic, pick: Nic -> Action) returns (k: nat)
    requires Reachable(s) && Budgeted(s.p)
    requires forall r: Nic :: !AtRest(r) ==> Moves(r, pick(r))
    ensures AtRest(Scheduled(s, pick, k)) && Reachable(Scheduled(s, pick, k))
    decreases RankOf(s).x, RankOf(s).ahead, RankOf(s).work, RankOf(s).w, RankOf(s).t, RankOf(s).rx, RankOf(s).tx,
              RankOf(s).due, RankOf(s).phase, RankOf(s).left, RankOf(s).p, RankOf(s).unmasks
  {
    hide Reachable, Inv, Step, Moves, AtRest, RankOf, Budgeted;
    if AtRest(s) {
      k := 0;
    } else {
      var r := Step(s, pick(s));
      ReachableInv(s);
      ReachableStep(s, pick(s));
      StepLowers(s, pick(s));
      var j := AlwaysSettles(r, pick);
      k := j + 1;
    }
  }
}
