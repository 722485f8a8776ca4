/** Bringing the driver up and taking it down (nic_pci.c, edunic_free_*_resources). */
module EdunicLifecycle {
  import opened Ring
  import opened Memory
  import opened Edunic
  import opened EdunicInvariant
  import opened EdunicTheorems
  import opened EdunicFlow
  import opened EdunicRely
  import opened EdunicRounds
  import opened EdunicDriver

  // ------------------------------------------------------------ freeing a ring

  /** The ledger after the skbs in the first `k` records have been unmapped and freed. */
  function FreeRing(m: Ledger, buf: seq<Buf>, dir: Dir, k: nat): Ledger
    requires k <= |buf|
    decreases k
  {
    if k == 0 then m
    else
      var f, before := buf[k - 1], FreeRing(m, buf, dir, k - 1);
      if f.skb == None then before else Release(UnmapSkb(before, f.skb, f.dma, f.len, dir), f.skb, Freed)
  }

  /** Each record holds an skb of its own, mapped as the record says. */
  ghost predicate AllMapped(m: Ledger, buf: seq<Buf>, dir: Dir) {
    && (forall i :: 0 <= i < |buf| && buf[i].skb.Some? ==>
          buf[i].skb.value < |m.skbs| && m.skbs[buf[i].skb.value].life == Mapped(buf[i].dma, buf[i].len, dir))
    && (forall i, j :: 0 <= i < j < |buf| && buf[i].skb.Some? ==> buf[i].skb != buf[j].skb)
  }

  predicate InBuf(buf: seq<Buf>, k: nat, id: nat) {
    exists i :: 0 <= i < k && i < |buf| && buf[i].skb == Some(id)
  }

  /** Exactly the skbs in those records are freed, and nothing is misused. */
  lemma {:induction false} FreeRingFrees(m: Ledger, buf: seq<Buf>, dir: Dir, k: nat)
    requires !m.fault && AllMapped(m, buf, dir) && k <= |buf|
    ensures var r := FreeRing(m, buf, dir, k);
            && !r.fault && |r.skbs| == |m.skbs|
            && forall id :: 0 <= id < |m.skbs| ==>
                 r.skbs[id].life == if InBuf(buf, k, id) then Released(Freed) else m.skbs[id].life
    decreases k
  {
    if k > 0 {
      FreeRingFrees(m, buf, dir, k - 1);
      var f, before := buf[k - 1], FreeRing(m, buf, dir, k - 1);
      if f.skb.Some? {
        assert !InBuf(buf, k - 1, f.skb.value);
      }
      forall id | 0 <= id < |m.skbs|
        ensures InBuf(buf, k, id) <==> InBuf(buf, k - 1, id) || f.skb == Some(id)
      {
        assert f.skb == Some(id) ==> InBuf(buf, k, id);
      }
    }
  }

  /** No thread is inside the driver. */
  predicate Quiescent(s: Nic) {
    s.x == XIdle && s.w == WIdle && (s.p == PIdle || s.p.PDone?)
  }

  /** The skbs still in a quiescent ring: each mapped as its record says. */
  lemma TxHeld(s: Nic, i: nat)
    requires Inv(s) && Quiescent(s) && i < s.n
    ensures i < |s.tx.buf| && (s.tx.buf[i].skb.Some? ==>
      var id := s.tx.buf[i].skb.value;
      exists k :: InTxRing(s, id, k) && Slot(k, s.n) == i && id < |s.m.skbs|
                  && s.m.skbs[id].life == Mapped(s.tx.buf[i].dma, s.tx.buf[i].len, ToDevice))
  {
    hide RxSide, FlowSide, StatsSide, IrqSide, WorkOk, CleanTxOk, Owned, RxSkb, Starts;
    var k := SlotCovers(i, s.ht.clean, s.n);
    assert SlotOk(s.n, s.tx.desc, s.tx.buf, ViewOf(s.ht, Blank, false), k);
    if s.tx.buf[i].skb.Some? {
      assert TxSkb(s.m, s.ht.posts[k].skb, k, s.ht.posts[k], s.h.frames[k], k < s.ht.taken);
      assert InTxRing(s, s.tx.buf[i].skb.value, k);
    }
  }

  lemma RxHeld(s: Nic, i: nat)
    requires Inv(s) && Quiescent(s) && i < s.n
    ensures i < |s.rx.buf| && (s.rx.buf[i].skb.Some? ==>
      var id := s.rx.buf[i].skb.value;
      exists k :: InRxRing(s, id, k) && Slot(k, s.n) == i && id < |s.m.skbs|
                  && s.m.skbs[id].life == Mapped(s.rx.buf[i].dma, s.rx.buf[i].len, FromDevice))
  {
    hide TxSide, FlowSide, StatsSide, IrqSide, CleanRxOk, RefillOk, DeliverOk, Owned, TxSkb, Starts;
    var k := SlotCovers(i, s.hr.clean, s.n);
    assert SlotOk(s.n, s.rx.desc, s.rx.buf, ViewOf(s.hr, Blank, false), k);
    if s.rx.buf[i].skb.Some? {
      assert RxSkb(s.m, s.hr.posts[k].skb, k, s.hr.posts[k], k < s.hr.taken);
      assert InRxRing(s, s.rx.buf[i].skb.value, k);
    }
  }

  lemma TxAllMapped(s: Nic)
    requires Reachable(s) && Quiescent(s)
    ensures |s.tx.buf| == s.n && AllMapped(s.m, s.tx.buf, ToDevice)
  {
    hide Reachable, Inv, InTxRing, InRxRing;
    ReachableInv(s);
    ReachableShape(s);
    forall i | 0 <= i < s.n
      ensures s.tx.buf[i].skb.Some? ==>
        && s.tx.buf[i].skb.value < |s.m.skbs|
        && s.m.skbs[s.tx.buf[i].skb.value].life == Mapped(s.tx.buf[i].dma, s.tx.buf[i].len, ToDevice)
    {
      TxHeld(s, i);
    }
    forall i, j | 0 <= i < j < s.n && s.tx.buf[i].skb.Some?
      ensures s.tx.buf[i].skb != s.tx.buf[j].skb
    {
      TxHeld(s, i);
      TxHeld(s, j);
      MappedExactly(s, s.tx.buf[i].skb.value);
    }
  }

  lemma RxAllMapped(s: Nic)
    requires Reachable(s) && Quiescent(s)
    ensures |s.rx.buf| == s.n && AllMapped(s.m, s.rx.buf, FromDevice)
  {
    hide Reachable, Inv, InTxRing, InRxRing;
    ReachableInv(s);
    ReachableShape(s);
    forall i | 0 <= i < s.n
      ensures s.rx.buf[i].skb.Some? ==>
        && s.rx.buf[i].skb.value < |s.m.skbs|
        && s.m.skbs[s.rx.buf[i].skb.value].life == Mapped(s.rx.buf[i].dma, s.rx.buf[i].len, FromDevice)
    {
      RxHeld(s, i);
    }
    forall i, j | 0 <= i < j < s.n && s.rx.buf[i].skb.Some?
      ensures s.rx.buf[i].skb != s.rx.buf[j].skb
    {
      RxHeld(s, i);
      RxHeld(s, j);
      MappedExactly(s, s.rx.buf[i].skb.value);
    }
  }

  /** Where the skb of a posted slot lies. */
  lemma PostedInBuf(s: Nic, id: nat)
    requires Inv(s) && Quiescent(s)
    ensures forall k :: InTxRing(s, id, k) ==> InBuf(s.tx.buf, |s.tx.buf|, id)
    ensures forall k :: InRxRing(s, id, k) ==> InBuf(s.rx.buf, |s.rx.buf|, id)
  {
    hide MemOk, FlowSide, StatsSide, IrqSide, WorkOk, CleanTxOk, CleanRxOk, RefillOk, DeliverOk;
    forall k | InTxRing(s, id, k)
      ensures InBuf(s.tx.buf, |s.tx.buf|, id)
    {
      assert SlotOk(s.n, s.tx.desc, s.tx.buf, ViewOf(s.ht, Blank, false), k);
      assert s.tx.buf[Slot(k, s.n)].skb == Some(id);
    }
    forall k | InRxRing(s, id, k)
      ensures InBuf(s.rx.buf, |s.rx.buf|, id)
    {
      assert SlotOk(s.n, s.rx.desc, s.rx.buf, ViewOf(s.hr, Blank, false), k);
      assert s.rx.buf[Slot(k, s.n)].skb == Some(id);
    }
  }

  /** An skb that no thread has in hand is released or mapped. */
  lemma ReleasedOrMapped(s: Nic, id: nat)
    requires Inv(s) && Quiescent(s) && id < |s.m.skbs|
    ensures s.m.skbs[id].life.Released? || s.m.skbs[id].life.Mapped?
  {
    hide TxSide, RxSide, FlowSide, StatsSide, IrqSide, Starts;
    var b := BooksOf(s);
    assert Owned(s.m.skbs[id], id, b);
    match s.m.skbs[id].place
    case Nowhere =>
    case InTx(k) => assert TxSkb(s.m, b.tp[k].skb, k, b.tp[k], b.frames[k], k < b.tt);
    case InRx(k) => assert RxSkb(s.m, b.rp[k].skb, k, b.rp[k], k < b.rt);
  }

  predicate AllReleased(m: Ledger) {
    !m.fault && forall id :: 0 <= id < |m.skbs| ==> m.skbs[id].life.Released?
  }

  /** Freeing the receive ring and then the transmit ring of a driver that no thread is in, after
      whatever it did, leaves every skb released and none mapped, and misuses none. */
  lemma TornDown(s: Nic)
    requires Reachable(s) && Quiescent(s)
    ensures |s.rx.buf| == |s.tx.buf| == s.n
    ensures AllReleased(FreeRing(FreeRing(s.m, s.rx.buf, FromDevice, s.n), s.tx.buf, ToDevice, s.n))
  {
    hide Reachable, Inv, InTxRing, InRxRing, InBuf, AllMapped;
    ReachableInv(s);
    NeverMisused(s);
    RxAllMapped(s);
    TxAllMapped(s);
    FreeRingFrees(s.m, s.rx.buf, FromDevice, s.n);
    var m := FreeRing(s.m, s.rx.buf, FromDevice, s.n);
    StillMapped(s, m);
    FreeRingFrees(m, s.tx.buf, ToDevice, s.n);
    var r := FreeRing(m, s.tx.buf, ToDevice, s.n);
    forall id | 0 <= id < |r.skbs|
      ensures r.skbs[id].life.Released?
    {
      ReleasedOrMapped(s, id);
      MappedExactly(s, id);
      PostedInBuf(s, id);
    }
  }

  /** Freeing the receive ring does not touch the skbs of the transmit ring. */
  lemma StillMapped(s: Nic, m: Ledger)
    requires Reachable(s) && Quiescent(s) && |s.rx.buf| == |s.tx.buf| == s.n && |m.skbs| == |s.m.skbs|
    requires AllMapped(s.m, s.tx.buf, ToDevice) && AllMapped(s.m, s.rx.buf, FromDevice)
    requires forall id :: 0 <= id < |m.skbs| ==>
               m.skbs[id].life == if InBuf(s.rx.buf, s.n, id) then Released(Freed) else s.m.skbs[id].life
    ensures AllMapped(m, s.tx.buf, ToDevice)
  {
    hide Reachable;
    forall i | 0 <= i < s.n && s.tx.buf[i].skb.Some?
      ensures !InBuf(s.rx.buf, s.n, s.tx.buf[i].skb.value)
    {
      assert s.m.skbs[s.tx.buf[i].skb.value].life.dir == ToDevice;
    }
  }

  // ------------------------------------------------------------ the device's resources

  datatype Resource =
    | PciDevice | Regions | Iomap | Netdev | TxDesc | TxBuf | RxDesc | RxBuf | Emulation | NapiContext | Interface

  datatype Stack = Empty | On(top: Resource, below: Stack)

  predicate Holding(held: Stack, r: Resource) {
    held.On? && (held.top == r || Holding(held.below, r))
  }

  function Without(held: Stack, r: Resource): Stack {
    if held == Empty then Empty
    else if held.top == r then held.below
    else On(held.top, Without(held.below, r))
  }

  /** What probe acquires before the rings, and all that it acquires. */
  const BASE := On(Netdev, On(Iomap, On(Regions, On(PciDevice, Empty))))
  const RINGS := On(RxBuf, On(RxDesc, On(TxBuf, On(TxDesc, BASE))))
  const ALL := On(Interface, On(NapiContext, On(Emulation, RINGS)))

  /** What the kernel has given to the driver, latest first; whether the driver has given back
      something it did not have, whether it always gave back the latest first, and whether the
      kernel has refused anything. */
  class Pci {
    var held: Stack
    var missing: bool
    var inReverse: bool
    ghost var refused: bool

    constructor ()
      ensures held == Empty && !missing && inReverse && !refused
    {
      held, missing, inReverse, refused := Empty, false, true, false;
    }

    /** Whether the kernel grants it is the kernel's choice. */
    method Acquire(r: Resource) returns (ok: bool)
      modifies this
      ensures held == (if ok then On(r, old(held)) else old(held)) && missing == old(missing)
      ensures inReverse == old(inReverse) && refused == (old(refused) || !ok)
    {
      ok := *;
      if ok {
        held := On(r, held);
      }
      refused := refused || !ok;
    }

    /** dma_set_mask_and_coherent, for 64 bits and then for 32. */
    method SetMasks() returns (ok: bool)
      modifies this`refused
      ensures refused == (old(refused) || !ok)
    {
      ok := *;
      if !ok {
        ok := *;
      }
      refused := refused || !ok;
    }

    method Drop(r: Resource)
      modifies this
      ensures held == Without(old(held), r)
      ensures missing == (old(missing) || !Holding(old(held), r))
      ensures inReverse == (old(inReverse) && old(held).On? && old(held).top == r) && refused == old(refused)
    {
      missing := missing || !Holding(held, r);
      inReverse := inReverse && held.On? && held.top == r;
      held := Without(held, r);
    }
  }

  /** edunic_free_rx_resources */
  method FreeRxResources(pci: Pci, a: Adapter, ghost rest: Stack)
    requires a.Shape() && pci.held == On(RxBuf, On(RxDesc, rest))
    modifies pci, a`m, a.rx.buf
    ensures a.m == FreeRing(old(a.m), old(a.rx.buf[..]), FromDevice, a.n)
    ensures pci.held == rest && pci.missing == old(pci.missing) && pci.inReverse == old(pci.inReverse)
    ensures pci.refused == old(pci.refused)
  {
    var i := 0;
    while i < a.n
      invariant 0 <= i <= a.n && pci.held == old(pci.held) && pci.missing == old(pci.missing)
      invariant pci.inReverse == old(pci.inReverse) && pci.refused == old(pci.refused)
      invariant a.m == FreeRing(old(a.m), old(a.rx.buf[..]), FromDevice, i)
      invariant forall j :: i <= j < a.n ==> a.rx.buf[j] == old(a.rx.buf[j])
    {
      var f := a.rx.buf[i];
      if f.skb.Some? {
        a.m := Release(UnmapSkb(a.m, f.skb, f.dma, f.len, FromDevice), f.skb, Freed);
        a.rx.buf[i] := f.(skb := None);
      }
      i := i + 1;
    }
    pci.Drop(RxBuf);
    pci.Drop(RxDesc);
  }

  /** edunic_free_tx_resources */
  method FreeTxResources(pci: Pci, a: Adapter, ghost rest: Stack)
    requires a.Shape() && pci.held == On(TxBuf, On(TxDesc, rest))
    modifies pci, a`m, a.tx.buf
    ensures a.m == FreeRing(old(a.m), old(a.tx.buf[..]), ToDevice, a.n)
    ensures pci.held == rest && pci.missing == old(pci.missing) && pci.inReverse == old(pci.inReverse)
    ensures pci.refused == old(pci.refused)
  {
    var i := 0;
    while i < a.n
      invariant 0 <= i <= a.n && pci.held == old(pci.held) && pci.missing == old(pci.missing)
      invariant pci.inReverse == old(pci.inReverse) && pci.refused == old(pci.refused)
      invariant a.m == FreeRing(old(a.m), old(a.tx.buf[..]), ToDevice, i)
      invariant forall j :: i <= j < a.n ==> a.tx.buf[j] == old(a.tx.buf[j])
    {
      var f := a.tx.buf[i];
      if f.skb.Some? {
        a.m := Release(UnmapSkb(a.m, f.skb, f.dma, f.len, ToDevice), f.skb, Freed);
        a.tx.buf[i] := f.(skb := None);
      }
      i := i + 1;
    }
    pci.Drop(TxBuf);
    pci.Drop(TxDesc);
  }

  /** edunic_setup_tx_resources, edunic_setup_rx_resources: descriptors, then records. */
  method SetupRing(pci: Pci, desc: Resource, buf: Resource) returns (ok: bool)
    modifies pci
    ensures pci.held == if ok then On(buf, On(desc, old(pci.held))) else old(pci.held)
    ensures pci.missing == old(pci.missing) && pci.inReverse == old(pci.inReverse)
    ensures pci.refused == (old(pci.refused) || !ok)
  {
    ok := pci.Acquire(desc);
    if ok {
      ok := pci.Acquire(buf);
      if !ok {
        pci.Drop(desc);
      }
    }
  }

  /** Both rings of a driver that is taken down. */
  method FreeRings(pci: Pci, a: Adapter)
    requires a.Valid() && Quiescent(a.Abs()) && pci.held == RINGS
    modifies pci, a`m, a.rx.buf, a.tx.buf
    ensures AllReleased(a.m)
    ensures pci.held == BASE && pci.missing == old(pci.missing) && pci.inReverse == old(pci.inReverse)
    ensures pci.refused == old(pci.refused)
  {
    hide Reachable, AllReleased, FreeRing, Quiescent;
    ghost var s := a.Abs();
    TornDown(s);
    FreeRxResources(pci, a, On(TxBuf, On(TxDesc, BASE)));
    assert a.tx.buf[..] == s.tx.buf;
    FreeTxResources(pci, a, BASE);
  }

  /** edunic_probe: either everything is in place, with at least one receive buffer posted, or
      everything acquired on the way has been given back, in reverse order, and no skb is left; and it
      succeeds exactly if the kernel refuses nothing and grants at least one receive buffer. */
  method ProbeDevice(pci: Pci, n: nat) returns (ok: bool, a: Adapter?)
    requires 2 <= n && pci.held == Empty && !pci.missing && pci.inReverse && !pci.refused
    modifies pci
    ensures ok <==> !pci.refused && a != null && a.c.hr.tail > 0
    ensures !pci.missing && pci.inReverse && pci.held == if ok then ALL else Empty
    ensures ok ==> a != null && a.Valid() && a.n == n && Quiescent(a.Abs())
    ensures ok ==> a.c.hr.tail > 0 && a.c.hr.tail + a.c.h.short == n - 1
    ensures !ok && a != null ==> AllReleased(a.m)
    ensures a != null ==> fresh(a)
  {
    hide Reachable, AllReleased, Quiescent, Run, Init;
    ok, a := false, null;
    var got := pci.Acquire(PciDevice);
    if !got { return; }
    label Disable: {
      got := pci.Acquire(Regions);
      if !got { break Disable; }
      label ReleaseRegions: {
        got := pci.Acquire(Iomap);
        if !got { break ReleaseRegions; }
        label Unmap: {
          got := pci.SetMasks();
          if !got { break Unmap; }
          got := pci.Acquire(Netdev);
          if !got { break Unmap; }
          a := new Adapter(n);
          ok := ProbeRings(pci, a);
          if ok { return; }
          pci.Drop(Netdev);
        }
        pci.Drop(Iomap);
      }
      pci.Drop(Regions);
    }
    pci.Drop(PciDevice);
  }

  /** The part of edunic_probe from edunic_setup_tx_resources to register_netdev. */
  method ProbeRings(pci: Pci, a: Adapter) returns (ok: bool)
    requires a.Valid() && a.Abs() == Init(a.n)
    requires pci.held == BASE && !pci.missing && pci.inReverse && !pci.refused
    modifies pci, a, a.tx, a.rx, a.tx.desc, a.tx.buf, a.rx.desc, a.rx.buf
    ensures !pci.missing && pci.inReverse && pci.held == if ok then ALL else BASE
    ensures ok ==> a.Valid() && Quiescent(a.Abs()) && a.c.hr.tail > 0 && a.c.hr.tail + a.c.h.short == a.n - 1
    ensures !ok ==> AllReleased(a.m)
    ensures ok <==> !pci.refused && a.c.hr.tail > 0
  {
    hide Reachable, FreeRing, Run, Init;
    NewRings(a.n);
    assert a.tx.buf[..] == Init(a.n).tx.buf && a.m == Init(a.n).m;
    ok := SetupRing(pci, TxDesc, TxBuf);
    if !ok { return; }
    ok := SetupRing(pci, RxDesc, RxBuf);
    if !ok {
      NothingToFree(a.m, a.tx.buf[..], a.n);
      FreeTxResources(pci, a, BASE);
      return;
    }
    var posted := a.PostInitial();
    label FreeRx: {
      if posted == 0 { break FreeRx; }
      ok := Register(pci);
      if ok { return; }
    }
    ok := false;
    FreeRings(pci, a);
  }

  /** The part from edunic_hw_emulation_init to register_netdev. */
  method Register(pci: Pci) returns (ok: bool)
    modifies pci
    ensures pci.held == if ok then On(Interface, On(NapiContext, On(Emulation, old(pci.held)))) else old(pci.held)
    ensures pci.missing == old(pci.missing) && pci.inReverse == old(pci.inReverse)
    ensures pci.refused == (old(pci.refused) || !ok)
  {
    ok := pci.Acquire(Emulation);
    if !ok { return; }
    pci.held := On(NapiContext, pci.held);
    ok := pci.Acquire(Interface);
    if ok { return; }
    pci.Drop(NapiContext);
    pci.Drop(Emulation);
  }

  lemma NewRings(n: nat)
    requires 2 <= n
    ensures AllReleased(Init(n).m) && |Init(n).tx.buf| == n && forall i :: 0 <= i < n ==> Init(n).tx.buf[i].skb == None
  {}

  lemma {:induction false} NothingToFree(m: Ledger, buf: seq<Buf>, k: nat)
    requires k <= |buf| && forall i :: 0 <= i < |buf| ==> buf[i].skb == None
    ensures FreeRing(m, buf, ToDevice, k) == m
    decreases k
  {
    if k > 0 {
      NothingToFree(m, buf, k - 1);
    }
  }

  /** edunic_remove, once unregister_netdev, napi_disable and cancel_work_sync have got every thread
      out of the driver: whatever the driver did, everything is given back and no skb is left.
      The net device goes after the mapping and the regions, which were acquired before it, so
      that, unlike in probe's unwinding, the order is not the reverse of acquisition. */
  method RemoveDevice(pci: Pci, a: Adapter)
    requires a.Valid() && Quiescent(a.Abs())
    requires pci.held == ALL && !pci.missing && pci.inReverse
    modifies pci, a, a.rx.buf, a.tx.buf
    ensures pci.held == Empty && !pci.missing && !pci.inReverse
    ensures AllReleased(a.m)
  {
    hide Reachable, AllReleased, Quiescent;
    pci.Drop(Interface);
    pci.Drop(NapiContext);
    pci.Drop(Emulation);
    FreeRings(pci, a);
    pci.Drop(Iomap);
    pci.Drop(Regions);
    pci.Drop(Netdev);
    pci.Drop(PciDevice);
  }
}
