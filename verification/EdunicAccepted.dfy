/** The frames that edunic_start_xmit posts are the frames it was called with. */
module EdunicAccepted {
  import opened Ring
  import opened Memory
  import opened Edunic
  import opened EdunicInvariant
  import opened EdunicKeeps
  import opened EdunicTheorems
  import opened EdunicFlow

  /** Every skb in use by xmit keeps its data. */
  ghost predicate SameData(m: Ledger, m': Ledger, h: Hold) {
    h != Nothing ==> SkbData(m', h.id) == SkbData(m, h.id)
  }

  lemma LedgerKeepsData(m: Ledger, s: Option<nat>, id: nat, dma: nat, len: nat, dir: Dir, end: End, place: Place,
                        area: Frame, life: Life)
    ensures SkbData(Release(m, s, end), id) == SkbData(m, id)
    ensures SkbData(UnmapSkb(m, s, dma, len, dir), id) == SkbData(m, id)
    ensures s.Some? ==> SkbData(MapSkb(m, s.value, dma, len, dir), id) == SkbData(m, id)
    ensures s.Some? ==> SkbData(Park(m, s.value, place), id) == SkbData(m, id)
    ensures SkbData(ReadSkb(m, s, len).0, id) == SkbData(m, id)
    ensures SkbData(HandUp(m, s, len).0, id) == SkbData(m, id)
    ensures id < |m.skbs| ==> SkbData(NewSkb(m, area, life), id) == SkbData(m, id)
  {}

  /** The skb xmit holds is not one the device writes to. */
  lemma HeldNotWritten(s: Nic, head: nat, tail: nat, frame: Frame, rh: nat)
    requires Inv(s) && s.w == WData(head, tail, frame, rh)
    ensures SameData(s.m, DeliverData(s, head, tail, frame, rh).m, XHold(s.x))
  {
    hide TxSide, RxSide, FlowSide, StatsSide, IrqSide, TxSkb, Starts, Owned;
    DeliverSlot(s);
    var k := s.hr.done;
    assert RxSkb(s.m, s.hr.posts[k].skb, k, s.hr.posts[k], k < s.hr.taken);
  }

  lemma HeldExists(s: Nic)
    requires Inv(s) && XHold(s.x) != Nothing
    ensures XHold(s.x).id < |s.m.skbs|
  {
    hide TxSide, RxSide, FlowSide, StatsSide, IrqSide, TxSkb, RxSkb, Starts, Owned;
  }

  predicate Accepts(s: Nic, a: Action) {
    a.Xmit? && s.x.XUse?
  }

  /** How a step changes what xmit holds and what it has posted. */
  ghost predicate HeldNext(s: Nic, a: Action, r: Nic) {
    && r.h.frames == s.h.frames + (if Accepts(s, a) then [SkbData(s.m, s.x.id)] else [])
    && (if a.Call? && s.x == XIdle then
          XHold(r.x) != Nothing && SkbData(r.m, XHold(r.x).id) == a.frame
        else
          XHold(r.x) != Nothing ==>
            && XHold(s.x) != Nothing && XHold(r.x).id == XHold(s.x).id && SameData(s.m, r.m, XHold(s.x))
            && !Accepts(s, a))
  }

  lemma XmitHeld(s: Nic, mapping: Option<nat>)
    ensures HeldNext(s, Xmit(mapping), XmitStep(s, mapping))
  {
    hide Release, MapSkb, Park, SetDesc, SetBuf, Slot, Next, SkbLen, SkbData, TxRoom;
    if s.x.XMap? && mapping.Some? {
      LedgerKeepsData(s.m, Some(s.x.id), s.x.id, mapping.value, SkbLen(s.m, s.x.id), ToDevice, Freed, Nowhere,
                      [], Held);
    }
    if s.x.XBuf? {
      LedgerKeepsData(s.m, Some(s.x.id), s.x.id, 0, 0, ToDevice, Freed, InTx(|s.ht.posts|), [], Held);
    }
  }

  lemma WorkHeld(s: Nic, copied: bool)
    requires Inv(s)
    ensures HeldNext(s, Work(copied), WorkStep(s, copied))
  {
    hide Inv, Intr, XHold, WriteSkb, ReadSkb, SetDesc, SetBuf, DescAt, BufAt, Slot, Next, SkbData;
    match s.w
    case WData(head, tail, frame, rh) => HeldNotWritten(s, head, tail, frame, rh);
    case WCopy(head, tail, len) =>
      if XHold(s.x) != Nothing {
        LedgerKeepsData(s.m, BufAt(s.tx, head).skb, XHold(s.x).id, 0, len, ToDevice, Freed, Nowhere, [], Held);
      }
    case _ =>
  }

  lemma PollHeld(s: Nic, alloc: Alloc)
    requires Inv(s)
    ensures HeldNext(s, Poll(alloc), PollStep(s, alloc))
  {
    hide Inv, XHold, ReclaimCheck, ReclaimTake, ReclaimWake, HarvestTake, RefillAlloc, RefillPark, RefillPublish,
         PollFinish,
         SetDesc, DescAt, Next, SkbData;
    if XHold(s.x) != Nothing {
      HeldExists(s);
    }
    if s.p.TFree? || s.p.RTake? || s.p.AAlloc? || s.p.ABuf? {
      PollKeepsData(s, alloc, if XHold(s.x) != Nothing then XHold(s.x).id else 0);
    }
  }

  lemma PollKeepsData(s: Nic, alloc: Alloc, id: nat)
    requires s.p.TFree? || s.p.RTake? || s.p.AAlloc? || s.p.ABuf?
    ensures id < |s.m.skbs| ==> SkbData(PollStep(s, alloc).m, id) == SkbData(s.m, id)
    ensures PollStep(s, alloc).h.frames == s.h.frames && PollStep(s, alloc).x == s.x
  {
    hide ReclaimTake, HarvestTake, RefillAlloc, RefillPark, SkbData;
    match s.p
    case TFree(i, packets, bytes, b) => ReclaimKeepsData(s, i, packets, bytes, b, id);
    case RTake(i, work, b) => HarvestKeepsData(s, i, work, b, id);
    case AAlloc(i, left, posted, caller) => AllocKeepsData(s, i, left, posted, caller, alloc, id);
    case ABuf(i, left, posted, caller, j, dma) => ParkKeepsData(s, i, left, posted, caller, j, dma, id);
    case _ =>
  }

  lemma ReclaimKeepsData(s: Nic, i: nat, packets: nat, bytes: nat, b: nat, id: nat)
    ensures var r := ReclaimTake(s, i, packets, bytes, b);
            SkbData(r.m, id) == SkbData(s.m, id) && r.h == s.h && r.x == s.x
  {
    hide SetBuf, BufAt;
  }

  lemma HarvestKeepsData(s: Nic, i: nat, work: nat, b: nat, id: nat)
    ensures var r := HarvestTake(s, i, work, b);
            SkbData(r.m, id) == SkbData(s.m, id) && r.h.frames == s.h.frames && r.x == s.x
  {
    hide SetBuf, BufAt, DescAt;
  }

  lemma AllocKeepsData(s: Nic, i: nat, left: nat, posted: nat, caller: Caller, alloc: Alloc, id: nat)
    ensures var r := RefillAlloc(s, i, left, posted, caller, alloc);
            (id < |s.m.skbs| ==> SkbData(r.m, id) == SkbData(s.m, id)) && r.h.frames == s.h.frames && r.x == s.x
  {}

  lemma ParkKeepsData(s: Nic, i: nat, left: nat, posted: nat, caller: Caller, j: nat, dma: nat, id: nat)
    ensures var r := RefillPark(s, i, left, posted, caller, j, dma);
            SkbData(r.m, id) == SkbData(s.m, id) && r.h == s.h && r.x == s.x
  {
    hide SetBuf;
  }

  lemma StepHeld(s: Nic, a: Action)
    requires Inv(s)
    ensures HeldNext(s, a, Step(s, a))
  {
    hide Inv, XmitStep, WorkStep, PollStep;
    match a
    case Call(_) =>
    case Xmit(mapping) => XmitHeld(s, mapping);
    case Work(copied) => WorkHeld(s, copied);
    case Poll(alloc) => PollHeld(s, alloc);
    case Timer => hide Intr;
    case _ =>
  }

  /** The frames the stack has called edunic_start_xmit with, in order. */
  ghost function Offered(n: nat, acts: seq<Action>): seq<Frame>
    requires 2 <= n
    decreases |acts|
  {
    if acts == [] then []
    else
      var before, last := acts[..|acts| - 1], acts[|acts| - 1];
      Offered(n, before) + if last.Call? && Run(Init(n), before).x == XIdle then [last.frame] else []
  }

  /** Exactly the frames at the positions `idx` were accepted. */
  ghost predicate Chosen(idx: seq<nat>, offered: seq<Frame>, frames: seq<Frame>, bound: nat) {
    && bound <= |offered|
    && |idx| == |frames| && Increasing(idx, bound)
    && forall j :: 0 <= j < |idx| ==> frames[j] == offered[idx[j]]
  }

  /** The frames posted are, unchanged and in order, frames the stack offered; a frame still in
      xmit's hands is the last one offered. */
  lemma {:induction false} AcceptedInOrder(n: nat, acts: seq<Action>) returns (idx: seq<nat>)
    requires 2 <= n
    ensures var s, offered := Run(Init(n), acts), Offered(n, acts);
            if XHold(s.x) == Nothing then Chosen(idx, offered, s.h.frames, |offered|)
            else
              && 0 < |offered| && SkbData(s.m, XHold(s.x).id) == offered[|offered| - 1]
              && Chosen(idx, offered, s.h.frames, |offered| - 1)
    decreases |acts|
  {
    hide Inv, Step, SkbData;
    if acts == [] {
      idx := [];
    } else {
      var before, a := acts[..|acts| - 1], acts[|acts| - 1];
      var s := Run(Init(n), before);
      idx := AcceptedInOrder(n, before);
      Always(n, before);
      StepHeld(s, a);
      if Accepts(s, a) {
        idx := idx + [|Offered(n, acts)| - 1];
      }
    }
  }
}
