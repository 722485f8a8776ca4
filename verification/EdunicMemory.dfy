/** What each use of an skb does to the ledger's invariant. */
module EdunicMemory {
  import opened Ring
  import opened Memory
  import opened Edunic
  import opened EdunicInvariant

  /** `m2` has every skb of `m` with the same length of data. */
  ghost predicate SameLens(m: Ledger, m2: Ledger) {
    forall id :: 0 <= id < |m.skbs| ==> SkbLen(m2, id) == SkbLen(m, id)
  }

  lemma XmitTakes(m: Ledger, b: Books, frame: Frame)
    requires MemOk(m, b) && b.xh == Nothing
    ensures MemOk(NewSkb(m, frame, Held), b.(xh := Bare(|m.skbs|)))
  {}

  lemma XmitReleases(m: Ledger, b: Books, end: End)
    requires MemOk(m, b) && b.xh.Bare?
    ensures MemOk(Release(m, Some(b.xh.id), end), b.(xh := Nothing))
  {}

  lemma XmitMaps(m: Ledger, b: Books, dma: nat)
    requires MemOk(m, b) && b.xh.Bare?
    ensures MemOk(MapSkb(m, b.xh.id, dma, SkbLen(m, b.xh.id), ToDevice), b.(xh := Ready(b.xh.id, dma)))
  {}

  lemma XmitParks(m: Ledger, b: Books)
    requires MemOk(m, b) && b.xh.Ready?
    ensures MemOk(Park(m, b.xh.id, InTx(|b.tp|)), b.(xh := Stored(b.xh.id, b.xh.dma)))
    ensures SameLens(m, Park(m, b.xh.id, InTx(|b.tp|)))
  {}

  lemma XmitPosts(m: Ledger, b: Books)
    requires MemOk(m, b) && b.xh.Stored?
    ensures MemOk(m, b.(tp := b.tp + [Post(b.xh.id, b.xh.dma, SkbLen(m, b.xh.id))],
                        frames := b.frames + [SkbData(m, b.xh.id)], xh := Nothing))
  {}

  lemma RxPostLen(m: Ledger, b: Books, k: nat)
    requires MemOk(m, b) && k < |b.rp|
    ensures b.rp[k].len == RX_BUF_SIZE
  {
    assert RxSkb(m, b.rp[k].skb, k, b.rp[k], k < b.rt);
  }

  lemma EngineReads(m: Ledger, b: Books, k: nat, len: nat)
    requires MemOk(m, b) && b.tt <= k < |b.tp| && len <= |b.frames[k]|
    ensures ReadSkb(m, Some(b.tp[k].skb), len) == (m, b.frames[k][..len])
  {
    assert TxSkb(m, b.tp[k].skb, k, b.tp[k], b.frames[k], k < b.tt);
  }

  lemma EngineWrites(m: Ledger, b: Books, frame: Frame)
    requires MemOk(m, b) && b.wip == [] && |b.loops| < |b.rp| && |frame| <= RX_BUF_SIZE
    ensures MemOk(WriteSkb(m, Some(b.rp[|b.loops|].skb), frame), b.(wip := frame))
    ensures SameLens(m, WriteSkb(m, Some(b.rp[|b.loops|].skb), frame))
  {
    assert RxSkb(m, b.rp[|b.loops|].skb, |b.loops|, b.rp[|b.loops|], false);
  }

  lemma EngineLoops(m: Ledger, b: Books)
    requires MemOk(m, b) && b.wip != []
    ensures MemOk(m, b.(loops := b.loops + [b.wip], wip := []))
  {}

  lemma DriverConsumes(m: Ledger, b: Books)
    requires MemOk(m, b) && b.tt < |b.tp|
    ensures var f, t := Some(b.tp[b.tt].skb), b.tp[b.tt];
            var m' := Release(UnmapSkb(m, f, t.dma, t.len, ToDevice), f, Consumed);
            MemOk(m', b.(tt := b.tt + 1)) && SameLens(m, m')
  {
    assert TxSkb(m, b.tp[b.tt].skb, b.tt, b.tp[b.tt], b.frames[b.tt], false);
  }

  lemma DriverHandsUp(m: Ledger, b: Books)
    requires MemOk(m, b) && b.rt < |b.loops|
    ensures var f, t := Some(b.rp[b.rt].skb), b.rp[b.rt];
            var (m', frame) := HandUp(UnmapSkb(m, f, t.dma, t.len, FromDevice), f, |b.loops[b.rt]|);
            MemOk(m', b.(rt := b.rt + 1)) && frame == b.loops[b.rt] && SameLens(m, m')
  {
    assert RxSkb(m, b.rp[b.rt].skb, b.rt, b.rp[b.rt], false);
    assert Starts(m, b.rp[b.rt].skb, b.loops[b.rt]);
  }

  lemma RefillFails(m: Ledger, b: Books, area: Frame)
    requires MemOk(m, b)
    ensures MemOk(NewSkb(m, area, Released(Freed)), b) && SameLens(m, NewSkb(m, area, Released(Freed)))
  {}

  lemma RefillMaps(m: Ledger, b: Books, area: RxArea, dma: nat)
    requires MemOk(m, b) && b.ah == Nothing
    ensures var m' := MapSkb(NewSkb(m, area, Held), |m.skbs|, dma, RX_BUF_SIZE, FromDevice);
            MemOk(m', b.(ah := Ready(|m.skbs|, dma))) && SameLens(m, m')
  {}

  lemma RefillParks(m: Ledger, b: Books)
    requires MemOk(m, b) && b.ah.Ready?
    ensures MemOk(Park(m, b.ah.id, InRx(|b.rp|)), b.(ah := Stored(b.ah.id, b.ah.dma)))
    ensures SameLens(m, Park(m, b.ah.id, InRx(|b.rp|)))
  {}

  lemma RefillPosts(m: Ledger, b: Books)
    requires MemOk(m, b) && b.ah.Stored?
    ensures MemOk(m, b.(rp := b.rp + [Post(b.ah.id, b.ah.dma, RX_BUF_SIZE)], ah := Nothing))
  {}
}
