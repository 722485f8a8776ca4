/** Descriptor rings, shared by the transmit and the receive side of edunic.

    The driver and the device only ever hold wrapped indices, below the ring size `n`.
    The proofs count slots without wrapping: the slot numbered `k` since the ring was set
    up lies at index `Slot(k, n)`.  */
module Ring {

  datatype Option<+T> = None | Some(value: T)

  /** A hardware descriptor: where the buffer is, how many bytes it holds, the DD
      ("descriptor done") bit and the receive error bit (never used for transmit). */
  datatype Desc = Desc(addr: nat, length: nat, done: bool, error: bool)

  /** The driver's own record of a slot: the skb parked there and its DMA mapping. */
  datatype Buf = Buf(skb: Option<nat>, dma: nat, len: nat)

  /** One direction: descriptors, records, the two software indices, and the head and tail
      registers of the device. */
  datatype RingState = RingState(desc: seq<Desc>, buf: seq<Buf>, ntu: nat, ntc: nat, head: nat, tail: nat)

  /** An skb parked in a slot together with the mapping made for it. */
  datatype Post = Post(skb: nat, dma: nat, len: nat)

  /** How far the slot beyond the last post has been prepared. */
  datatype Fill = Blank | Parked(post: Post) | Described(post: Post)

  /** The unwrapped counters of one direction. `clean`, `use`, `head` and `tail` stand behind
      next_to_clean, next_to_use and the two registers; `taken` counts slots the driver has
      emptied, `done` slots the device has completed; `posts` and `lens` remember every post
      and the length that its descriptor carries. */
  datatype Track = Track(clean: nat, taken: nat, done: nat, use: nat, head: nat, tail: nat,
                         posts: seq<Post>, lens: seq<nat>)

  function DescAt(r: RingState, i: nat): Desc {
    if i < |r.desc| then r.desc[i] else Desc(0, 0, false, false)
  }

  function BufAt(r: RingState, i: nat): Buf {
    if i < |r.buf| then r.buf[i] else Buf(None, 0, 0)
  }

  /** Writes to a slot; the invariant keeps every index the agents use inside the ring. */
  function SetDesc(r: RingState, i: nat, d: Desc): (q: RingState)
    ensures q == r.(desc := q.desc)
  {
    if i < |r.desc| then r.(desc := r.desc[i := d]) else r
  }

  function SetBuf(r: RingState, i: nat, b: Buf): (q: RingState)
    ensures q == r.(buf := q.buf)
  {
    if i < |r.buf| then r.(buf := r.buf[i := b]) else r
  }

  // ------------------------------------------------------------ index arithmetic

  function Slot(k: nat, n: nat): (i: nat)
    requires 0 < n
    ensures i < n
    decreases k
  {
    if k < n then k else Slot(k - n, n)
  }

  /** `(i + 1) & EDUNIC_RING_MASK`. */
  function Next(i: nat, n: nat): nat {
    if i + 1 == n then 0 else i + 1
  }

  /** `edunic_tx_unused`: free slots as the driver computes them from its wrapped indices. */
  function Unused(ntc: nat, ntu: nat, n: nat): int
    requires 0 < n
  {
    (ntc - ntu - 1 + n) % n
  }

  /** For the size the driver uses, `Next` is the source's mask. */
  lemma NextIsMasked(i: bv16)
    requires i < 256
    ensures ((i + 1) & 0xff) as nat == Next(i as nat, 256)
  {
    if i == 255 {
      assert (i + 1) & 0xff == 0;
    } else {
      assert (i + 1) & 0xff == i + 1;
    }
  }

  lemma {:induction false} SlotNext(k: nat, n: nat)
    requires 0 < n
    ensures Slot(k + 1, n) == Next(Slot(k, n), n)
    decreases k
  {
    if k < n {
    } else {
      SlotNext(k - n, n);
    }
  }

  /** Fewer than `n` apart, different counters name different slots. */
  lemma {:induction false} SlotsDiffer(a: nat, b: nat, n: nat)
    requires a < b < a + n
    ensures Slot(a, n) != Slot(b, n)
    decreases a
  {
    if a < n {
    } else {
      SlotsDiffer(a - n, b - n, n);
    }
  }

  lemma SlotEq(a: nat, b: nat, n: nat)
    requires 0 < n && a < b + n && b < a + n
    ensures Slot(a, n) == Slot(b, n) <==> a == b
  {
    if a < b {
      SlotsDiffer(a, b, n);
    } else if b < a {
      SlotsDiffer(b, a, n);
    }
  }

  /** Every index is named exactly once in each stretch of `n` counters. */
  lemma {:induction false} SlotCovers(i: nat, lo: nat, n: nat) returns (k: nat)
    requires i < n
    ensures lo <= k < lo + n && Slot(k, n) == i
    decreases lo
  {
    if lo == 0 {
      k := i;
    } else {
      k := SlotCovers(i, lo - 1, n);
      if k == lo - 1 {
        k := k + n;
      }
    }
  }

  lemma SlotDistance(a: nat, b: nat, n: nat)
    requires a <= b < a + n
    ensures Slot(b, n) == if Slot(a, n) + (b - a) < n then Slot(a, n) + (b - a) else Slot(a, n) + (b - a) - n
    decreases b - a
  {
    if a < b {
      SlotDistance(a, b - 1, n);
      SlotNext(b - 1, n);
    }
  }

  /** The wrapped free-slot count is the unwrapped one: one slot always stays unused. */
  lemma UnusedCounts(clean: nat, use: nat, n: nat)
    requires clean <= use < clean + n
    ensures Unused(Slot(clean, n), Slot(use, n), n) == n - 1 - (use - clean)
  {
    SlotDistance(clean, use, n);
    var d := Slot(clean, n) - Slot(use, n) - 1 + n;
    if Slot(clean, n) <= Slot(use, n) {
      assert 0 <= d < n;
      SmallMod(d, n);
    } else {
      assert n <= d < 2 * n;
      OneTurn(d, n);
    }
  }

  lemma SmallMod(d: nat, n: nat)
    requires d < n
    ensures d % n == d
  {}

  lemma OneTurn(d: nat, n: nat)
    requires n <= d < 2 * n
    ensures d % n == d - n
  {
    Multiples(d / n, n);
  }

  lemma Multiples(q: int, n: nat)
    requires 0 < n
    ensures q <= 0 ==> n * q <= 0
    ensures 2 <= q ==> 2 * n <= n * q
  {}

  // ------------------------------------------------------------ zones

  /** What `Zones` needs to know about a ring, in unwrapped counters. */
  datatype View = View(lo: nat, a: nat, b: nat, posts: seq<Post>, lens: seq<nat>, fill: Fill, dirty: bool)

  /** The one right content of the slot numbered `k`:
      below `a` and from `|posts|` on it is empty, in between it holds post `k`;
      DD is set exactly below `b` (and, while the slot just emptied is `dirty`, still there). */
  ghost predicate SlotOk(n: nat, desc: seq<Desc>, buf: seq<Buf>, v: View, k: nat)
    requires 0 < n == |desc| == |buf|
  {
    var i := Slot(k, n);
    && (if v.a <= k < |v.posts| then
          && buf[i] == Buf(Some(v.posts[k].skb), v.posts[k].dma, v.posts[k].len)
          && desc[i].addr == v.posts[k].dma
        else if k == |v.posts| && v.fill != Blank then
          && buf[i] == Buf(Some(v.fill.post.skb), v.fill.post.dma, v.fill.post.len)
          && (v.fill.Described? ==> desc[i].addr == v.fill.post.dma)
        else
          buf[i].skb == None && buf[i].dma == 0)
    && (desc[i].done <==> v.a <= k < v.b || (v.dirty && k + 1 == v.a))
    && (v.a <= k < |v.lens| ==> desc[i].length == v.lens[k])
    && !desc[i].error
  }

  /** The ring is three consecutive zones, completed, posted and empty, and every slot has
      the content of its zone. */
  ghost predicate Zones(n: nat, desc: seq<Desc>, buf: seq<Buf>, v: View) {
    && 2 <= n == |desc| == |buf|
    && v.lo <= v.a <= v.b <= |v.posts| <= v.lo + n - 1
    && (v.fill != Blank ==> |v.posts| < v.lo + n - 1)
    && (v.dirty ==> v.lo < v.a)
    && |v.lens| <= v.lo + n
    && forall k :: v.lo <= k < v.lo + n ==> SlotOk(n, desc, buf, v, k)
  }

  lemma ZoneBounds(n: nat, desc: seq<Desc>, buf: seq<Buf>, v: View)
    requires Zones(n, desc, buf, v)
    ensures 2 <= n == |desc| == |buf|
    ensures v.lo <= v.a <= v.b <= |v.posts| <= v.lo + n - 1
    ensures v.dirty ==> v.lo < v.a
    ensures forall k :: v.lo <= k < v.lo + n ==> SlotOk(n, desc, buf, v, k)
  {}

  /** A write to slot `k` leaves every other slot of the window alone. */
  lemma OtherSlots(n: nat, desc: seq<Desc>, buf: seq<Buf>, v: View, k: nat, desc': seq<Desc>, buf': seq<Buf>)
    requires Zones(n, desc, buf, v) && v.lo <= k < v.lo + n
    requires |desc'| == |buf'| == n
    requires forall i :: 0 <= i < n && i != Slot(k, n) ==> desc'[i] == desc[i] && buf'[i] == buf[i]
    ensures forall j :: v.lo <= j < v.lo + n && j != k ==> SlotOk(n, desc', buf', v, j)
  {
    forall j | v.lo <= j < v.lo + n && j != k
      ensures SlotOk(n, desc', buf', v, j)
    {
      SlotEq(j, k, n);
      assert SlotOk(n, desc, buf, v, j);
    }
  }

  lemma ParkSlot(n: nat, desc: seq<Desc>, buf: seq<Buf>, v: View, post: Post)
    requires Zones(n, desc, buf, v) && v.fill == Blank && |v.posts| < v.lo + n - 1
    ensures Zones(n, desc, buf[Slot(|v.posts|, n) := Buf(Some(post.skb), post.dma, post.len)], v.(fill := Parked(post)))
  {
    var k := |v.posts|;
    var buf', v' := buf[Slot(k, n) := Buf(Some(post.skb), post.dma, post.len)], v.(fill := Parked(post));
    OtherSlots(n, desc, buf, v, k, desc, buf');
    forall j | v.lo <= j < v.lo + n
      ensures SlotOk(n, desc, buf', v', j)
    {
      assert SlotOk(n, desc, buf, v, j);
      assert j != k ==> SlotOk(n, desc, buf', v, j);
    }
  }

  lemma DescribeSlot(n: nat, desc: seq<Desc>, buf: seq<Buf>, v: View, length: nat)
    requires Zones(n, desc, buf, v) && v.fill.Parked?
    requires |v.lens| <= |v.posts|
    ensures Zones(n, desc[Slot(|v.posts|, n) := Desc(v.fill.post.dma, length, false, false)], buf,
                  v.(fill := Described(v.fill.post)))
    ensures |v.lens| == |v.posts| ==>
      Zones(n, desc[Slot(|v.posts|, n) := Desc(v.fill.post.dma, length, false, false)], buf,
            v.(fill := Described(v.fill.post), lens := v.lens + [length]))
  {
    var k := |v.posts|;
    var desc' := desc[Slot(k, n) := Desc(v.fill.post.dma, length, false, false)];
    var v' := v.(fill := Described(v.fill.post));
    var v'' := v'.(lens := v.lens + [length]);
    OtherSlots(n, desc, buf, v, k, desc', buf);
    forall j | v.lo <= j < v.lo + n
      ensures SlotOk(n, desc', buf, v', j)
      ensures |v.lens| == |v.posts| ==> SlotOk(n, desc', buf, v'', j)
    {
      assert SlotOk(n, desc, buf, v, j);
      assert j != k ==> SlotOk(n, desc', buf, v, j);
    }
  }

  lemma PublishSlot(n: nat, desc: seq<Desc>, buf: seq<Buf>, v: View)
    requires Zones(n, desc, buf, v) && v.fill.Described?
    ensures Zones(n, desc, buf, v.(fill := Blank, posts := v.posts + [v.fill.post]))
  {
    var v' := v.(fill := Blank, posts := v.posts + [v.fill.post]);
    forall j | v.lo <= j < v.lo + n
      ensures SlotOk(n, desc, buf, v', j)
    {
      assert SlotOk(n, desc, buf, v, j);
    }
  }

  /** The device writes a length into the first posted slot. */
  lemma MeasureSlot(n: nat, desc: seq<Desc>, buf: seq<Buf>, v: View, length: nat)
    requires Zones(n, desc, buf, v) && v.b < |v.posts| && |v.lens| == v.b
    ensures Zones(n, desc[Slot(v.b, n) := desc[Slot(v.b, n)].(length := length, error := false)], buf,
                  v.(lens := v.lens + [length]))
  {
    var k := v.b;
    var desc' := desc[Slot(k, n) := desc[Slot(k, n)].(length := length, error := false)];
    var v' := v.(lens := v.lens + [length]);
    OtherSlots(n, desc, buf, v, k, desc', buf);
    forall j | v.lo <= j < v.lo + n
      ensures SlotOk(n, desc', buf, v', j)
    {
      assert SlotOk(n, desc, buf, v, j);
      assert j != k ==> SlotOk(n, desc', buf, v, j);
    }
  }

  /** The device sets DD on the first posted slot. */
  lemma CompleteSlot(n: nat, desc: seq<Desc>, buf: seq<Buf>, v: View)
    requires Zones(n, desc, buf, v) && v.b < |v.posts|
    ensures Zones(n, desc[Slot(v.b, n) := desc[Slot(v.b, n)].(done := true)], buf, v.(b := v.b + 1))
  {
    var k := v.b;
    var desc' := desc[Slot(k, n) := desc[Slot(k, n)].(done := true)];
    var v' := v.(b := v.b + 1);
    OtherSlots(n, desc, buf, v, k, desc', buf);
    forall j | v.lo <= j < v.lo + n
      ensures SlotOk(n, desc', buf, v', j)
    {
      assert SlotOk(n, desc, buf, v, j);
      assert j != k ==> SlotOk(n, desc', buf, v, j);
    }
  }

  /** The driver takes the skb out of the first completed slot. */
  lemma TakeSlot(n: nat, desc: seq<Desc>, buf: seq<Buf>, v: View, len: nat)
    requires Zones(n, desc, buf, v) && v.a < v.b && !v.dirty
    ensures Zones(n, desc, buf[Slot(v.a, n) := Buf(None, 0, len)], v.(a := v.a + 1, dirty := true))
  {
    var k := v.a;
    var buf' := buf[Slot(k, n) := Buf(None, 0, len)];
    var v' := v.(a := v.a + 1, dirty := true);
    OtherSlots(n, desc, buf, v, k, desc, buf');
    forall j | v.lo <= j < v.lo + n
      ensures SlotOk(n, desc, buf', v', j)
    {
      assert SlotOk(n, desc, buf, v, j);
      assert j != k ==> SlotOk(n, desc, buf', v, j);
    }
  }

  /** The driver clears the status of the slot it has just emptied. */
  lemma ClearSlot(n: nat, desc: seq<Desc>, buf: seq<Buf>, v: View)
    requires Zones(n, desc, buf, v) && v.dirty
    ensures Zones(n, desc[Slot(v.a - 1, n) := desc[Slot(v.a - 1, n)].(done := false, error := false)], buf,
                  v.(dirty := false))
  {
    var k := v.a - 1;
    var desc' := desc[Slot(k, n) := desc[Slot(k, n)].(done := false, error := false)];
    var v' := v.(dirty := false);
    OtherSlots(n, desc, buf, v, k, desc', buf);
    forall j | v.lo <= j < v.lo + n
      ensures SlotOk(n, desc', buf, v', j)
    {
      assert SlotOk(n, desc, buf, v, j);
      assert j != k ==> SlotOk(n, desc', buf, v, j);
    }
  }

  /** Publishing next_to_clean moves the window over the emptied slots. */
  lemma SlideWindow(n: nat, desc: seq<Desc>, buf: seq<Buf>, v: View)
    requires Zones(n, desc, buf, v) && !v.dirty
    ensures Zones(n, desc, buf, v.(lo := v.a))
  {
    var v' := v.(lo := v.a);
    forall j | v'.lo <= j < v'.lo + n
      ensures SlotOk(n, desc, buf, v', j)
    {
      if j < v.lo + n {
        assert SlotOk(n, desc, buf, v, j);
      } else {
        assert SlotOk(n, desc, buf, v, j - n);
        assert Slot(j, n) == Slot(j - n, n);
      }
    }
  }
}
