/** Socket buffers and their DMA mappings, as a ledger that records misuse. */
module Memory {
  import opened Octets
  import opened Ring

  type Frame = seq<byte>

  /** EDUNIC_RX_BUF_SIZE */
  const RX_BUF_SIZE: nat := 2048

  /** The data area of a freshly allocated receive skb, whatever its contents. */
  type RxArea = f: Frame | |f| == RX_BUF_SIZE witness seq(RX_BUF_SIZE, _ => 0)

  datatype Dir = ToDevice | FromDevice

  datatype End = Consumed | Freed | HandedUp | ReturnedBusy

  /** One skb is first held by the driver, then mapped, then unmapped, then released. */
  datatype Life = Held | Mapped(dma: nat, len: nat, dir: Dir) | Unmapped | Released(end: End)

  /** Where the driver last parked the skb, by unwrapped slot number. */
  datatype Place = Nowhere | InTx(k: nat) | InRx(k: nat)

  datatype Skb = Skb(data: Frame, life: Life, place: Place)

  /** All skbs ever seen by the driver. `fault` is raised by any use the kernel's contract
      forbids: a missing or released skb, an access while not mapped for the device, an
      unmap that does not match its map, a copy beyond the buffer. */
  datatype Ledger = Ledger(skbs: seq<Skb>, fault: bool)

  predicate Has(m: Ledger, s: Option<nat>) {
    s.Some? && s.value < |m.skbs|
  }

  function Bad(m: Ledger): Ledger {
    m.(fault := true)
  }

  function SetLife(m: Ledger, id: nat, life: Life): Ledger
    requires id < |m.skbs|
  {
    m.(skbs := m.skbs[id := m.skbs[id].(life := life)])
  }

  function NewSkb(m: Ledger, data: Frame, life: Life): Ledger {
    m.(skbs := m.skbs + [Skb(data, life, Nowhere)])
  }

  /** dma_map_single */
  function MapSkb(m: Ledger, id: nat, dma: nat, len: nat, dir: Dir): Ledger {
    if id < |m.skbs| && m.skbs[id].life.Held? && len <= |m.skbs[id].data| then
      SetLife(m, id, Mapped(dma, len, dir))
    else
      Bad(m)
  }

  /** Storing the skb pointer into a ring slot. */
  function Park(m: Ledger, id: nat, place: Place): Ledger {
    if id < |m.skbs| && m.skbs[id].life.Mapped? then
      m.(skbs := m.skbs[id := m.skbs[id].(place := place)])
    else
      Bad(m)
  }

  /** dma_unmap_single with the address and length noted in the slot */
  function UnmapSkb(m: Ledger, s: Option<nat>, dma: nat, len: nat, dir: Dir): Ledger {
    if Has(m, s) && m.skbs[s.value].life == Mapped(dma, len, dir) then
      SetLife(m, s.value, Unmapped)
    else
      Bad(m)
  }

  /** Freeing, consuming or giving away an skb that is not mapped. */
  function Release(m: Ledger, s: Option<nat>, end: End): Ledger {
    if Has(m, s) && (m.skbs[s.value].life.Held? || m.skbs[s.value].life.Unmapped?) then
      SetLife(m, s.value, Released(end))
    else
      Bad(m)
  }

  predicate DeviceMay(m: Ledger, s: Option<nat>, len: nat, dir: Dir) {
    && Has(m, s)
    && m.skbs[s.value].life.Mapped?
    && m.skbs[s.value].life.dir == dir
    && len <= |m.skbs[s.value].data|
  }

  /** memcpy out of a buffer mapped for transmit */
  function ReadSkb(m: Ledger, s: Option<nat>, len: nat): (Ledger, Frame) {
    if DeviceMay(m, s, len, ToDevice) then
      (m, m.skbs[s.value].data[..len])
    else
      (Bad(m), [])
  }

  /** memcpy into a buffer mapped for receive */
  function WriteSkb(m: Ledger, s: Option<nat>, frame: Frame): Ledger {
    if DeviceMay(m, s, |frame|, FromDevice) then
      var skb := m.skbs[s.value];
      m.(skbs := m.skbs[s.value := skb.(data := frame + skb.data[|frame|..])])
    else
      Bad(m)
  }

  /** skb_put of `len` bytes and handing the skb to the stack */
  function HandUp(m: Ledger, s: Option<nat>, len: nat): (Ledger, Frame) {
    if Has(m, s) && len <= |m.skbs[s.value].data| then
      (Release(m, s, HandedUp), m.skbs[s.value].data[..len])
    else
      (Bad(m), [])
  }
}
