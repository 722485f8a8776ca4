/** The split-TCP relay: one connection between a client and a server, as a state machine.

    What the sockets do is an input: how many bytes `recv` and `send` move, whether they fail, and
    which events `epoll_wait` reports.  */
module Relay {
  import opened Octets

  type Bytes = seq<byte>

  /** FORWARD_BUFFER_SIZE */
  const SIZE: nat := 65536

  // ------------------------------------------------------------ one direction

  /** One forwarding buffer: `pending` lies at `start`; what recv has returned and what send has
      taken so far. */
  datatype Pipe = Pipe(start: nat, pending: Bytes, received: Bytes, sent: Bytes)

  /** What one call of recv does; `Got([])` is the end of the stream. */
  datatype Recv = Got(bytes: Bytes) | TryLater | RecvFailed

  /** What one call of send does. */
  datatype Send = Took(n: nat) | SendLater | SendFailed

  /** What receive_into_buffer returns: 0, 1, 2 or -1. */
  datatype Outcome = Nothing | Data | Eof | Error

  function Space(p: Pipe): int {
    SIZE - (p.start + |p.pending|)
  }

  function Min(a: int, b: int): int {
    if a < b then a else b
  }

  /** receive_into_buffer */
  function Receive(p: Pipe, r: Recv): (Pipe, Outcome) {
    var q := if Space(p) == 0 && p.start > 0 then p.(start := 0) else p;
    if Space(q) <= 0 then (q, Nothing)
    else
      match r
      case Got(bytes) =>
        if bytes == [] then (q, Eof)
        else
          var chunk := bytes[..Min(|bytes|, Space(q))];
          (q.(pending := q.pending + chunk, received := q.received + chunk), Data)
      case TryLater => (q, Nothing)
      case RecvFailed => (q, Error)
  }

  /** flush_buffer */
  function Flush(p: Pipe, r: Send): (Pipe, Outcome) {
    if p.pending == [] then (p, Nothing)
    else
      match r
      case Took(n) =>
        var k := Min(n, |p.pending|);
        if k == 0 then (p, Nothing)
        else
          var q := p.(start := p.start + k, pending := p.pending[k..], sent := p.sent + p.pending[..k]);
          (if q.pending == [] then q.(start := 0) else q, Data)
      case SendLater => (p, Nothing)
      case SendFailed => (p, Error)
  }

  // ------------------------------------------------------------ the connection

  /** Epoll flags, armed or reported. */
  datatype Mask = Mask(input: bool, output: bool, rdhup: bool, err: bool)

  /** What the relay does to a peer's socket. */
  datatype Output = Chunk(bytes: Bytes) | ShutWr

  /** One endpoint as the relay sees it: the buffer of what it reads from it, whether it still
      does, whether it has closed the other way, what is armed, and everything done to its socket. */
  datatype Side = Side(from: Pipe, readOpen: bool, writeClosed: bool, armed: Mask, log: seq<Output>)

  datatype Status = Alive | Broken | Finished

  datatype Conn = Conn(client: Side, server: Side, status: Status)

  const NEW_SIDE := Side(Pipe(0, [], [], []), true, false, Mask(true, false, true, false), [])

  /** create_connection */
  const NEW := Conn(NEW_SIDE, NEW_SIDE, Alive)

  /** The same connection with client and server exchanged. */
  function Mirror(c: Conn): Conn {
    Conn(c.server, c.client, c.status)
  }

  /** What an event handler meets in the kernel: recv, send and the two epoll_ctl calls. */
  datatype Kernel = Kernel(recv: Recv, send: Send, armClient: bool, armServer: bool)

  /** What update_connection_events asks for at an endpoint. */
  function Wanted(side: Side, other: Side): Mask {
    Mask(side.readOpen && (Space(side.from) > 0 || side.from.start > 0), other.from.pending != [], true, false)
  }

  /** update_connection_events; the second epoll_ctl is not reached when the first fails. */
  function UpdateEvents(c: Conn, k: Kernel): Conn {
    var d := c.(client := c.client.(armed := if k.armClient then Wanted(c.client, c.server) else c.client.armed));
    if !k.armClient then d.(status := Broken)
    else if !k.armServer then d.(status := Broken)
    else d.(server := d.server.(armed := Wanted(c.server, c.client)))
  }

  function Sent(before: Pipe, after: Pipe): seq<Output> {
    if |after.sent| > |before.sent| then [Chunk(after.sent[|before.sent|..])] else []
  }

  /** The reading part of process_client_event. */
  function ClientReads(c: Conn, k: Kernel): Conn {
    var (p, got) := Receive(c.client.from, k.recv);
    c.(client := c.client.(from := p, readOpen := c.client.readOpen && got != Eof),
       status := if got == Error then Broken else c.status)
  }

  /** The writing part of process_client_event. */
  function ClientWrites(c: Conn, k: Kernel): Conn {
    var (p, got) := Flush(c.server.from, k.send);
    c.(server := c.server.(from := p), client := c.client.(log := c.client.log + Sent(c.server.from, p)),
       status := if got == Error then Broken else c.status)
  }

  /** Passing the client's end of stream on to the server once everything has been forwarded. */
  function ClientFin(c: Conn): Conn {
    if !c.client.readOpen && c.client.from.pending == [] && !c.server.writeClosed then
      c.(server := c.server.(writeClosed := true, log := c.server.log + [ShutWr]))
    else
      c
  }

  /** EPOLLRDHUP: the client has finished sending. */
  function ClientCloses(c: Conn, events: Mask): Conn {
    if events.rdhup then c.(client := c.client.(readOpen := false)) else c
  }

  /** process_client_event up to its call of update_connection_events. */
  function ClientWork(c: Conn, events: Mask, k: Kernel): Conn {
    var c1 := if events.input then ClientReads(c, k) else c;
    if c1.status != Alive then c1
    else
      var c2 := if events.output then ClientWrites(c1, k) else c1;
      if c2.status != Alive then c2
      else if events.err then c2.(status := Broken)
      else ClientFin(ClientCloses(c2, events))
  }

  /** process_client_event */
  function ClientEvent(c: Conn, events: Mask, k: Kernel): Conn {
    var d := ClientWork(c, events, k);
    if d.status != Alive then d else UpdateEvents(d, k)
  }

  /** process_server_event does the same work with the roles exchanged. */
  function ServerEvent(c: Conn, events: Mask, k: Kernel): Conn {
    var d := Mirror(ClientWork(Mirror(c), events, k));
    if d.status != Alive then d else UpdateEvents(d, k)
  }

  /** connection_finished */
  predicate Done(c: Conn) {
    !c.client.readOpen && !c.server.readOpen && c.client.from.pending == [] && c.server.from.pending == []
  }

  // ------------------------------------------------------------ batches of events

  datatype Which = Client | Server

  datatype Event = Event(which: Which, mask: Mask, kernel: Kernel)

  /** epoll reports only what was armed when the batch was taken, plus ERR and HUP. */
  function Reported(mask: Mask, armed: Mask): Mask {
    Mask(mask.input && armed.input, mask.output && armed.output, mask.rdhup && armed.rdhup, mask.err)
  }

  /** One pass of the main loop's body for an event of this connection. */
  function Handle(c: Conn, which: Which, mask: Mask, k: Kernel): Conn {
    if c.status != Alive then c
    else
      var d := if which == Client then ClientEvent(c, mask, k) else ServerEvent(c, mask, k);
      if d.status == Alive && Done(d) then d.(status := Finished) else d
  }

  /** A batch holds at most one event of each endpoint, in either order; the second is still
      judged by what was armed before the first. */
  datatype Batch = Batch(first: Event, second: seq<Event>)

  predicate BatchOk(b: Batch) {
    |b.second| <= 1 && (|b.second| == 1 ==> b.second[0].which != b.first.which)
  }

  function ArmedAt(c: Conn, which: Which): Mask {
    if which == Client then c.client.armed else c.server.armed
  }

  function RunBatch(c: Conn, b: Batch): Conn {
    var d := Handle(c, b.first.which, Reported(b.first.mask, ArmedAt(c, b.first.which)), b.first.kernel);
    if |b.second| == 0 then d
    else
      var e := b.second[0];
      Handle(d, e.which, Reported(e.mask, ArmedAt(c, e.which)), e.kernel)
  }

  function RunAll(c: Conn, batches: seq<Batch>): Conn {
    if batches == [] then c else RunBatch(RunAll(c, batches[..|batches| - 1]), batches[|batches| - 1])
  }
}
