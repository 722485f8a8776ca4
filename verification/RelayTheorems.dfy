/** What the relay guarantees over every run of events. */
module RelayTheorems {
  import opened Relay

  // ------------------------------------------------------------ the invariant

  /** No byte is lost, invented or reordered, and the buffer is never overrun. */
  predicate PipeOk(p: Pipe) {
    && p.start + |p.pending| <= SIZE
    && p.received == p.sent + p.pending
    && (p.pending == [] ==> p.start == 0)
  }

  /** The bytes of a log, in order. */
  function Stream(log: seq<Output>): Bytes {
    if log == [] then []
    else Stream(log[..|log| - 1]) + match log[|log| - 1] case Chunk(bytes) => bytes case ShutWr => []
  }

  /** The end of the stream is announced at most once, and nothing is sent after that. */
  predicate FinLast(log: seq<Output>) {
    forall i :: 0 <= i < |log| - 1 ==> log[i] != ShutWr
  }

  predicate Ended(log: seq<Output>) {
    log != [] && log[|log| - 1] == ShutWr
  }

  /** One direction: what `to` has been sent is what was forwarded from `side`, and its end was
      announced only after the last byte that will ever be read from `side`. */
  predicate DirectionOk(side: Side, to: Side) {
    && PipeOk(side.from)
    && Stream(to.log) == side.from.sent && FinLast(to.log) && (Ended(to.log) <==> to.writeClosed)
    && (to.writeClosed ==> !side.readOpen && side.from.pending == [])
  }

  predicate Armed(c: Conn) {
    c.client.armed == Wanted(c.client, c.server) && c.server.armed == Wanted(c.server, c.client)
  }

  predicate Inv(c: Conn) {
    && DirectionOk(c.client, c.server) && DirectionOk(c.server, c.client)
    && (c.status == Alive ==> Armed(c) && !Done(c))
    && (c.status == Finished ==> Done(c))
  }

  // ------------------------------------------------------------ one event

  lemma ReceiveOk(p: Pipe, r: Recv)
    requires PipeOk(p)
    ensures var (q, got) := Receive(p, r);
            && PipeOk(q) && q.sent == p.sent && p.received <= q.received && p.pending <= q.pending
            && (got != Data ==> q.received == p.received && q.pending == p.pending)
            && (got == Data ==> |q.received| > |p.received|)
  {}

  lemma FlushOk(p: Pipe, r: Send)
    requires PipeOk(p)
    ensures var (q, got) := Flush(p, r);
            && PipeOk(q) && q.received == p.received && p.sent <= q.sent && |q.pending| <= |p.pending|
            && (p.pending == [] ==> q == p)
            && (got == Data <==> |q.sent| > |p.sent|)
  {
    if p.pending != [] && r.Took? {
      var k := Min(r.n, |p.pending|);
      assert p.pending == p.pending[..k] + p.pending[k..];
      assert p.received == p.sent + p.pending[..k] + p.pending[k..];
    }
  }

  lemma StreamMore(log: seq<Output>, o: Output)
    ensures Stream(log + [o]) == Stream(log) + match o case Chunk(bytes) => bytes case ShutWr => []
    ensures Ended(log + [o]) <==> o == ShutWr
    ensures FinLast(log) && !Ended(log) ==> FinLast(log + [o])
  {
    assert (log + [o])[..|log|] == log;
  }

  lemma ClientReadsOk(c: Conn, k: Kernel)
    requires DirectionOk(c.client, c.server) && DirectionOk(c.server, c.client) && c.client.readOpen
    ensures var d := ClientReads(c, k);
            && DirectionOk(d.client, d.server) && DirectionOk(d.server, d.client) && d.server == c.server
            && d.client.log == c.client.log
  {
    ReceiveOk(c.client.from, k.recv);
  }

  lemma ClientWritesOk(c: Conn, k: Kernel)
    requires DirectionOk(c.client, c.server) && DirectionOk(c.server, c.client)
    ensures var d := ClientWrites(c, k);
            && DirectionOk(d.client, d.server) && DirectionOk(d.server, d.client)
            && d.server == c.server.(from := d.server.from) && d.client == c.client.(log := d.client.log)
  {
    FlushOk(c.server.from, k.send);
    var p := Flush(c.server.from, k.send).0;
    var out := Sent(c.server.from, p);
    if out != [] {
      StreamMore(c.client.log, out[0]);
      assert p.sent == c.server.from.sent + p.sent[|c.server.from.sent|..];
    } else {
      assert p.sent == c.server.from.sent;
      assert c.client.log + out == c.client.log;
    }
  }

  lemma ClientFinOk(c: Conn)
    requires DirectionOk(c.client, c.server) && DirectionOk(c.server, c.client)
    ensures var d := ClientFin(c);
            && DirectionOk(d.client, d.server) && DirectionOk(d.server, d.client)
            && d.client == c.client && d.server.from == c.server.from && d.server.readOpen == c.server.readOpen
            && (!c.client.readOpen && c.client.from.pending == [] ==> d.server.writeClosed)
  {
    StreamMore(c.server.log, ShutWr);
  }

  predicate Both(c: Conn) {
    DirectionOk(c.client, c.server) && DirectionOk(c.server, c.client)
  }

  lemma ClientWorkOk(c: Conn, events: Mask, k: Kernel)
    requires Both(c) && c.status == Alive && (events.input ==> c.client.readOpen)
    ensures var d := ClientWork(c, events, k); Both(d) && d.server.readOpen == c.server.readOpen && d.status != Finished
  {
    hide DirectionOk, Receive, Flush, Sent;
    if events.input {
      ClientReadsOk(c, k);
    }
    var c1 := if events.input then ClientReads(c, k) else c;
    ClientWritesOk(c1, k);
    var c2 := if events.output then ClientWrites(c1, k) else c1;
    CloseOk(c2, events);
    ClientFinOk(ClientCloses(c2, events));
  }

  lemma CloseOk(c: Conn, events: Mask)
    requires Both(c)
    ensures Both(ClientCloses(c, events))
  {}

  lemma UpdateOk(c: Conn, k: Kernel)
    requires Both(c) && c.status == Alive
    ensures var d := UpdateEvents(c, k);
            && Both(d) && (d.status == Alive ==> Armed(d)) && d.status != Finished
            && d.client == c.client.(armed := d.client.armed) && d.server == c.server.(armed := d.server.armed)
  {
    hide PipeOk, Stream, FinLast, Ended;
  }

  lemma HandleOk(c: Conn, which: Which, mask: Mask, k: Kernel)
    requires Inv(c)
    requires mask.input && c.status == Alive ==> if which == Client then c.client.readOpen else c.server.readOpen
    ensures Inv(Handle(c, which, mask, k))
    ensures var d := Handle(c, which, mask, k);
            if which == Client then d.server.readOpen == c.server.readOpen else d.client.readOpen == c.client.readOpen
  {
    hide DirectionOk, ClientWork, UpdateEvents;
    if c.status == Alive {
      var m := if which == Client then c else Mirror(c);
      var d := ClientWork(m, mask, k);
      ClientWorkOk(m, mask, k);
      if d.status == Alive {
        UpdateOk(if which == Client then d else Mirror(d), k);
      }
    }
  }

  /** Reading is armed only while the side is open, and only its own handler closes it: so a stale
      event of a batch never reads from a side that is closed. */
  lemma BatchKeeps(c: Conn, b: Batch)
    requires Inv(c) && BatchOk(b)
    ensures Inv(RunBatch(c, b))
  {
    hide ClientEvent, ServerEvent, DirectionOk;
    HandleOk(c, b.first.which, Reported(b.first.mask, ArmedAt(c, b.first.which)), b.first.kernel);
    if |b.second| == 1 {
      var d := Handle(c, b.first.which, Reported(b.first.mask, ArmedAt(c, b.first.which)), b.first.kernel);
      var e := b.second[0];
      HandleOk(d, e.which, Reported(e.mask, ArmedAt(c, e.which)), e.kernel);
    }
  }

  lemma NewOk()
    ensures Inv(NEW)
  {}

  /** The invariant holds after every run of batches. */
  lemma {:induction false} Always(batches: seq<Batch>)
    requires forall i :: 0 <= i < |batches| ==> BatchOk(batches[i])
    ensures Inv(RunAll(NEW, batches))
    decreases |batches|
  {
    hide RunBatch, Inv, BatchOk;
    if batches == [] {
      NewOk();
    } else {
      Always(batches[..|batches| - 1]);
      BatchKeeps(RunAll(NEW, batches[..|batches| - 1]), batches[|batches| - 1]);
    }
  }

  // ------------------------------------------------------------ every reachable connection

  ghost predicate Reachable(c: Conn) {
    exists batches: seq<Batch> :: AllOk(batches) && RunAll(NEW, batches) == c
  }

  predicate AllOk(batches: seq<Batch>) {
    forall i :: 0 <= i < |batches| ==> BatchOk(batches[i])
  }

  lemma ReachableInv(c: Conn)
    requires Reachable(c)
    ensures Inv(c)
  {
    var batches: seq<Batch> :| AllOk(batches) && RunAll(NEW, batches) == c;
    Always(batches);
  }

  /** In each direction the bytes received are the bytes sent followed by the bytes in the buffer,
      and the buffer holds at most 65536 bytes; a finished connection has forwarded everything. */
  lemma Conservation(c: Conn)
    requires Reachable(c)
    ensures c.client.from.received == Stream(c.server.log) + c.client.from.pending
    ensures c.server.from.received == Stream(c.client.log) + c.server.from.pending
    ensures c.client.from.start + |c.client.from.pending| <= 65536
    ensures c.server.from.start + |c.server.from.pending| <= 65536
    ensures c.status == Finished ==>
      Stream(c.server.log) == c.client.from.received && Stream(c.client.log) == c.server.from.received
  {
    hide Reachable;
    ReachableInv(c);
  }

  /** Reading is armed exactly while the side is open and its buffer not full, writing exactly while
      there is something to write, and RDHUP always. */
  lemma ArmedExactly(c: Conn)
    requires Reachable(c) && c.status == Alive
    ensures c.client.armed.input <==> c.client.readOpen && |c.client.from.pending| < SIZE
    ensures c.server.armed.input <==> c.server.readOpen && |c.server.from.pending| < SIZE
    ensures c.client.armed.output <==> c.server.from.pending != []
    ensures c.server.armed.output <==> c.client.from.pending != []
    ensures c.client.armed.rdhup && c.server.armed.rdhup && !c.client.armed.err && !c.server.armed.err
  {
    hide Reachable;
    ReachableInv(c);
  }

  /** No backpressure deadlock: a connection that is not finished waits for some data event. */
  lemma NeverStuck(c: Conn)
    requires Reachable(c) && c.status == Alive
    ensures c.client.armed.input || c.client.armed.output || c.server.armed.input || c.server.armed.output
  {
    hide Reachable;
    ReachableInv(c);
  }

  // ------------------------------------------------------------ what stays

  /** What one direction keeps for ever: bytes are only added, ends of stream are final, and after
      the end nothing more is received or sent. */
  predicate Onward(side: Side, to: Side, side': Side, to': Side) {
    && (side'.readOpen ==> side.readOpen) && (to.writeClosed ==> to'.writeClosed)
    && side.from.received <= side'.from.received && side.from.sent <= side'.from.sent && to.log <= to'.log
    && (!side.readOpen ==> side'.from.received == side.from.received)
    && (to.writeClosed ==> to'.log == to.log)
  }

  predicate Later(c: Conn, d: Conn) {
    && Onward(c.client, c.server, d.client, d.server) && Onward(c.server, c.client, d.server, d.client)
    && (c.status != Alive ==> d == c)
  }

  lemma LaterTrans(c: Conn, d: Conn, e: Conn)
    requires Later(c, d) && Later(d, e)
    ensures Later(c, e)
  {}

  lemma WorkLater(c: Conn, events: Mask, k: Kernel)
    requires Both(c) && c.status == Alive && (events.input ==> c.client.readOpen)
    ensures Later(c, ClientWork(c, events, k))
  {
    hide Stream, FinLast, Ended, Receive, Flush;
    ReceiveOk(c.client.from, k.recv);
    if events.input {
      ClientReadsOk(c, k);
    }
    var c1 := if events.input then ClientReads(c, k) else c;
    FlushOk(c1.server.from, k.send);
  }

  lemma HandleLater(c: Conn, which: Which, mask: Mask, k: Kernel)
    requires Inv(c)
    requires mask.input && c.status == Alive ==> if which == Client then c.client.readOpen else c.server.readOpen
    ensures Later(c, Handle(c, which, mask, k))
  {
    hide DirectionOk, ClientWork;
    if c.status == Alive {
      WorkLater(if which == Client then c else Mirror(c), mask, k);
    }
  }

  /** The first event of a batch, as it is reported, and the connection after it. */
  function FirstMask(c: Conn, b: Batch): Mask {
    Reported(b.first.mask, ArmedAt(c, b.first.which))
  }

  function First(c: Conn, b: Batch): Conn {
    Handle(c, b.first.which, FirstMask(c, b), b.first.kernel)
  }

  lemma FirstOk(c: Conn, b: Batch)
    requires Inv(c)
    ensures Inv(First(c, b)) && Later(c, First(c, b))
    ensures |b.second| == 0 ==> RunBatch(c, b) == First(c, b)
  {
    hide Handle, DirectionOk, Later;
    HandleOk(c, b.first.which, FirstMask(c, b), b.first.kernel);
    HandleLater(c, b.first.which, FirstMask(c, b), b.first.kernel);
  }

  lemma SecondOk(c: Conn, b: Batch)
    requires Inv(c) && BatchOk(b) && |b.second| == 1
    ensures var d, e := First(c, b), b.second[0];
            && RunBatch(c, b) == Handle(d, e.which, Reported(e.mask, ArmedAt(c, e.which)), e.kernel)
            && Inv(RunBatch(c, b)) && Later(d, RunBatch(c, b))
            && (d.status == Alive && Reported(e.mask, ArmedAt(c, e.which)).input ==>
                 if e.which == Client then d.client.readOpen else d.server.readOpen)
  {
    hide Handle, DirectionOk, Later;
    FirstOk(c, b);
    var d, e := First(c, b), b.second[0];
    HandleOk(c, b.first.which, FirstMask(c, b), b.first.kernel);
    DeadStays(c, b.first.which, FirstMask(c, b), b.first.kernel);
    HandleOk(d, e.which, Reported(e.mask, ArmedAt(c, e.which)), e.kernel);
    HandleLater(d, e.which, Reported(e.mask, ArmedAt(c, e.which)), e.kernel);
  }

  lemma BatchLater(c: Conn, b: Batch)
    requires Inv(c) && BatchOk(b)
    ensures Later(c, RunBatch(c, b))
  {
    hide Handle, DirectionOk, Later;
    FirstOk(c, b);
    if |b.second| == 1 {
      SecondOk(c, b);
      LaterTrans(c, First(c, b), RunBatch(c, b));
    }
  }

  lemma DeadStays(c: Conn, which: Which, mask: Mask, k: Kernel)
    ensures c.status != Alive ==> Handle(c, which, mask, k) == c
  {}

  lemma {:induction false} RunLater(c: Conn, batches: seq<Batch>)
    requires Inv(c) && AllOk(batches)
    ensures Inv(RunAll(c, batches)) && Later(c, RunAll(c, batches))
    decreases |batches|
  {
    hide RunBatch, Inv, BatchOk, Later;
    if batches == [] {
      LaterRefl(c);
    } else {
      var before := batches[..|batches| - 1];
      RunLater(c, before);
      BatchKeeps(RunAll(c, before), batches[|batches| - 1]);
      BatchLater(RunAll(c, before), batches[|batches| - 1]);
      LaterTrans(c, RunAll(c, before), RunAll(c, batches));
    }
  }

  lemma LaterRefl(c: Conn)
    ensures Later(c, c)
  {}

  /** Once SHUT_WR has been issued towards the server, the client's side is closed, everything it
      ever sent has been forwarded, and for ever after nothing more is read from it or sent to
      the server; SHUT_WR itself is not repeated. The same holds the other way. */
  lemma NothingAfterFin(c: Conn, batches: seq<Batch>)
    requires Reachable(c) && AllOk(batches)
    ensures var d := RunAll(c, batches);
            c.server.writeClosed ==>
              && !d.client.readOpen && d.client.from.pending == [] && d.server.writeClosed
              && d.server.log == c.server.log
              && d.client.from.received == c.client.from.received == Stream(c.server.log)
    ensures var d := RunAll(c, batches);
            c.client.writeClosed ==>
              && !d.server.readOpen && d.server.from.pending == [] && d.client.writeClosed
              && d.client.log == c.client.log
              && d.server.from.received == c.server.from.received == Stream(c.client.log)
    ensures FinLast(c.client.log) && FinLast(c.server.log)
    ensures (Ended(c.server.log) <==> c.server.writeClosed) && (Ended(c.client.log) <==> c.client.writeClosed)
  {
    hide Reachable, RunAll;
    ReachableInv(c);
    RunLater(c, batches);
  }

  predicate Drained(side: Side) {
    !side.readOpen && side.from.pending == []
  }

  /** The end of a stream is passed on exactly by the first event of the endpoint it came from that
      finds its side closed and its buffer drained. The event that finishes the connection
      passes on the end of its own endpoint's stream only: the other end, if not passed on before,
      is left to the closing of the socket. */
  lemma FinPassedOn(c: Conn, which: Which, mask: Mask, k: Kernel)
    requires Reachable(c) && c.status == Alive
    requires mask.input ==> if which == Client then c.client.readOpen else c.server.readOpen
    ensures var d := Handle(c, which, mask, k);
            d.status == Alive ==>
              if which == Client then
                && (d.server.writeClosed <==> c.server.writeClosed || Drained(d.client))
                && (d.client.writeClosed <==> c.client.writeClosed)
              else
                && (d.client.writeClosed <==> c.client.writeClosed || Drained(d.server))
                && (d.server.writeClosed <==> c.server.writeClosed)
    ensures var d := Handle(c, which, mask, k);
            d.status == Finished ==>
              && (d.server.writeClosed <==> c.server.writeClosed || which == Client)
              && (d.client.writeClosed <==> c.client.writeClosed || which == Server)
  {
    hide Reachable, DirectionOk, ClientWork;
    ReachableInv(c);
    var m := if which == Client then c else Mirror(c);
    WorkFin(m, mask, k);
    ClientWorkOk(m, mask, k);
  }

  lemma WorkFin(c: Conn, events: Mask, k: Kernel)
    requires Both(c) && c.status == Alive && (events.input ==> c.client.readOpen)
    ensures var d := ClientWork(c, events, k);
            d.status == Alive ==>
              && (d.server.writeClosed <==> c.server.writeClosed || Drained(d.client))
              && d.client.writeClosed == c.client.writeClosed
  {
    hide Stream, FinLast, Ended, Receive, Flush;
    ClientWorkOk(c, events, k);
  }

  // ------------------------------------------------------------ progress

  /** What is left to do in one direction, when the peer sends `total` bytes in all: reading each
      byte, sending it, and seeing the end of the stream. */
  function Left(side: Side, total: nat): int {
    2 * (total - |side.from.received|) + |side.from.pending| + (if side.readOpen then 1 else 0)
  }

  function LeftOf(c: Conn, clientTotal: nat, serverTotal: nat): int {
    Left(c.client, clientTotal) + Left(c.server, serverTotal)
  }

  function Tick(b: bool): nat {
    if b then 1 else 0
  }

  /** The calls of one event that got something done in one direction: a recv that returned bytes, a
      send that took bytes, the end of the stream. */
  function Calls(side: Side, side': Side): nat {
    Tick(side'.from.received != side.from.received) + Tick(side'.from.sent != side.from.sent)
    + Tick(side'.readOpen != side.readOpen)
  }

  function CallsOf(c: Conn, d: Conn): nat {
    Calls(c.client, d.client) + Calls(c.server, d.server)
  }

  lemma LeftFalls(side: Side, to: Side, side': Side, to': Side, total: nat)
    requires DirectionOk(side, to) && DirectionOk(side', to') && Onward(side, to, side', to')
    ensures Left(side', total) + Calls(side, side') <= Left(side, total)
  {
    hide Stream, FinLast, Ended;
    assert |side.from.received| == |side.from.sent| + |side.from.pending|;
    assert |side'.from.received| == |side'.from.sent| + |side'.from.pending|;
  }

  lemma LeftOfFalls(c: Conn, d: Conn, clientTotal: nat, serverTotal: nat)
    requires Both(c) && Both(d) && Later(c, d)
    ensures LeftOf(d, clientTotal, serverTotal) + CallsOf(c, d) <= LeftOf(c, clientTotal, serverTotal)
  {
    hide DirectionOk, Onward, Left, Calls;
    LeftFalls(c.client, c.server, d.client, d.server, clientTotal);
    LeftFalls(c.server, c.client, d.server, d.client, serverTotal);
  }

  /** The productive calls of a batch, and of a run. */
  function InBatch(c: Conn, b: Batch): nat {
    var d := First(c, b);
    CallsOf(c, d) + if |b.second| == 0 then 0 else CallsOf(d, RunBatch(c, b))
  }

  function Productive(c: Conn, batches: seq<Batch>): nat
    decreases |batches|
  {
    if batches == [] then 0
    else
      var before := batches[..|batches| - 1];
      Productive(c, before) + InBatch(RunAll(c, before), batches[|batches| - 1])
  }

  lemma BatchFalls(c: Conn, b: Batch, clientTotal: nat, serverTotal: nat)
    requires Inv(c) && BatchOk(b)
    ensures LeftOf(RunBatch(c, b), clientTotal, serverTotal) + InBatch(c, b) <= LeftOf(c, clientTotal, serverTotal)
  {
    hide Handle, DirectionOk, Later, LeftOf, CallsOf;
    FirstOk(c, b);
    var d := First(c, b);
    LeftOfFalls(c, d, clientTotal, serverTotal);
    if |b.second| == 1 {
      SecondOk(c, b);
      LeftOfFalls(d, RunBatch(c, b), clientTotal, serverTotal);
    }
  }

  /** However the events come, every call that gets something done lowers what is left: twice the bytes
      still to be read, the bytes pending, and the open sides. */
  lemma {:induction false} WorkBounded(c: Conn, batches: seq<Batch>, clientTotal: nat, serverTotal: nat)
    requires Inv(c) && AllOk(batches)
    ensures Productive(c, batches) + LeftOf(RunAll(c, batches), clientTotal, serverTotal)
         <= LeftOf(c, clientTotal, serverTotal)
    decreases |batches|
  {
    hide RunBatch, Inv, LeftOf, InBatch, BatchOk;
    if batches != [] {
      var before := batches[..|batches| - 1];
      WorkBounded(c, before, clientTotal, serverTotal);
      RunLater(c, before);
      BatchFalls(RunAll(c, before), batches[|batches| - 1], clientTotal, serverTotal);
    }
  }

  /** At most two productive calls a byte, and one for each end of stream. */
  lemma AtMostTwicePerByte(batches: seq<Batch>, clientTotal: nat, serverTotal: nat)
    requires AllOk(batches)
    requires var c := RunAll(NEW, batches);
             |c.client.from.received| <= clientTotal && |c.server.from.received| <= serverTotal
    ensures Productive(NEW, batches) <= 2 * (clientTotal + serverTotal) + 2
  {
    hide RunAll, Productive, Inv;
    NewOk();
    WorkBounded(NEW, batches, clientTotal, serverTotal);
  }

  /** The kernel does what it reported: a readable socket yields bytes or the end of the stream, a
      writable one takes bytes. */
  predicate Serves(mask: Mask, k: Kernel) {
    && (mask.input ==> k.recv.Got?)
    && (mask.output ==> k.send.Took? && k.send.n > 0)
    && !mask.err && k.armClient && k.armServer
  }

  /** Every data event that was armed when it is handled, and that the kernel serves, makes progress. */
  lemma ServedMeansProgress(c: Conn, which: Which, mask: Mask, k: Kernel)
    requires Reachable(c) && c.status == Alive && Serves(mask, k) && (mask.input || mask.output)
    requires Reported(mask, ArmedAt(c, which)) == mask
    ensures CallsOf(c, Handle(c, which, mask, k)) > 0
  {
    hide Reachable, DirectionOk, ClientWork;
    ReachableInv(c);
    WorkServed(if which == Client then c else Mirror(c), mask, k);
  }

  lemma WorkServed(c: Conn, mask: Mask, k: Kernel)
    requires Both(c) && c.status == Alive && Serves(mask, k) && (mask.input || mask.output)
    requires mask.input ==> Wanted(c.client, c.server).input
    requires mask.output ==> Wanted(c.client, c.server).output
    ensures CallsOf(c, ClientWork(c, mask, k)) > 0
  {
    hide Stream, FinLast, Ended;
    ReceiveOk(c.client.from, k.recv);
    var c1 := if mask.input then ClientReads(c, k) else c;
    FlushOk(c1.server.from, k.send);
  }

  /** Nothing fails. */
  predicate Harmless(mask: Mask, k: Kernel) {
    !mask.err && !k.recv.RecvFailed? && !k.send.SendFailed? && k.armClient && k.armServer
  }

  lemma HarmlessStays(c: Conn, which: Which, mask: Mask, k: Kernel)
    requires Inv(c) && Harmless(mask, k)
    requires mask.input && c.status == Alive ==> if which == Client then c.client.readOpen else c.server.readOpen
    ensures c.status != Broken ==> Handle(c, which, mask, k).status != Broken
  {
    hide DirectionOk;
  }

  /** Every batch handles first a data event that is still armed and that the kernel serves, while the
      connection is alive, and nothing fails. */
  predicate Diligent(c: Conn, b: Batch) {
    var m := FirstMask(c, b);
    && Harmless(m, b.first.kernel) && (|b.second| == 1 ==> Harmless(b.second[0].mask, b.second[0].kernel))
    && (c.status == Alive ==> Serves(m, b.first.kernel) && (m.input || m.output))
  }

  predicate AllDiligent(batches: seq<Batch>)
    decreases |batches|
  {
    batches != [] ==>
      var before := batches[..|batches| - 1];
      AllDiligent(before) && Diligent(RunAll(NEW, before), batches[|batches| - 1])
  }

  lemma DiligentBatch(c: Conn, b: Batch)
    requires Reachable(c) && BatchOk(b) && Diligent(c, b) && c.status != Broken
    ensures RunBatch(c, b).status != Broken
    ensures c.status == Alive ==> InBatch(c, b) > 0
  {
    hide Handle, DirectionOk, Reachable, CallsOf, Serves, Harmless;
    ReachableInv(c);
    FirstOk(c, b);
    HarmlessStays(c, b.first.which, FirstMask(c, b), b.first.kernel);
    if c.status == Alive {
      ServedMeansProgress(c, b.first.which, FirstMask(c, b), b.first.kernel);
    }
    if |b.second| == 1 {
      var e := b.second[0];
      SecondOk(c, b);
      HarmlessReported(e.mask, ArmedAt(c, e.which), e.kernel);
      HarmlessStays(First(c, b), e.which, Reported(e.mask, ArmedAt(c, e.which)), e.kernel);
    }
  }

  lemma HarmlessReported(mask: Mask, armed: Mask, k: Kernel)
    requires Harmless(mask, k)
    ensures Harmless(Reported(mask, armed), k)
  {}

  lemma {:induction false} DiligentRun(batches: seq<Batch>)
    requires AllOk(batches) && AllDiligent(batches)
    ensures RunAll(NEW, batches).status != Broken
    ensures RunAll(NEW, batches).status == Alive ==> Productive(NEW, batches) >= |batches|
    decreases |batches|
  {
    hide RunBatch, InBatch, Diligent, BatchOk;
    if batches != [] {
      var before, b := batches[..|batches| - 1], batches[|batches| - 1];
      DiligentRun(before);
      assert Reachable(RunAll(NEW, before));
      DiligentBatch(RunAll(NEW, before), b);
      DeadBatch(RunAll(NEW, before), b);
    }
  }

  lemma DeadBatch(c: Conn, b: Batch)
    ensures c.status != Alive ==> RunBatch(c, b) == c
  {}

  /** The relay finishes: when the two peers send A and B bytes in all, then as long as every batch has
      a data event to offer that the kernel serves, and nothing fails, the connection is finished
      after at most 2 * (A + B) + 2 batches. That some data event is always armed is `NeverStuck`. */
  lemma ServedFinishes(batches: seq<Batch>, clientTotal: nat, serverTotal: nat)
    requires AllOk(batches) && AllDiligent(batches)
    requires var c := RunAll(NEW, batches);
             |c.client.from.received| <= clientTotal && |c.server.from.received| <= serverTotal
    requires |batches| >= 2 * (clientTotal + serverTotal) + 2
    ensures RunAll(NEW, batches).status == Finished
  {
    hide RunAll, Productive, AllDiligent;
    NewOk();
    RunLater(NEW, batches);
    WorkBounded(NEW, batches, clientTotal, serverTotal);
    DiligentRun(batches);
  }

  // ------------------------------------------------------------ what RDHUP loses

  function Other(which: Which): Which {
    if which == Client then Server else Client
  }

  function SideOf(c: Conn, which: Which): Side {
    if which == Client then c.client else c.server
  }

  /** recv hands over the next of the bytes that the peer sends in all, and reports the end only when
      it has handed over all of them. */
  predicate NextBytes(p: Pipe, r: Recv, whole: Bytes) {
    r.Got? ==> p.received + r.bytes <= whole && (r.bytes == [] ==> p.received == whole)
  }

  /** How many bytes the recv of an event takes, if it comes to one: at most what there is room for,
      after the buffer has been compacted if it had to be. */
  function Taken(p: Pipe, input: bool, r: Recv): int {
    var room := if Space(p) == 0 then SIZE - |p.pending| else Space(p);
    if input && r.Got? then Min(|r.bytes|, room) else 0
  }

  /** What is then left in the peer's socket: once the peer has closed, the bytes it has sent and that
      nobody has read. */
  function LeftUnread(p: Pipe, input: bool, r: Recv, whole: Bytes): Bytes {
    var k := |p.received| + Taken(p, input, r);
    if 0 <= k <= |whole| then whole[k..] else []
  }

  /** The event reports RDHUP for an open side and does not read all that there is. */
  predicate CutsShort(side: Side, mask: Mask, r: Recv, whole: Bytes) {
    side.readOpen && mask.rdhup && LeftUnread(side.from, mask.input, r, whole) != []
  }

  lemma ReceiveTakes(p: Pipe, r: Recv)
    requires p.start + |p.pending| <= SIZE
    ensures r.Got? ==> Receive(p, r).0.received == p.received + r.bytes[..Taken(p, true, r)]
    ensures !r.Got? ==> Receive(p, r).0.received == p.received
    ensures Receive(p, r).1 == Eof <==> r == Got([]) && |p.pending| < SIZE
  {
    if r.Got? {
      assert r.bytes[..0] == [] && p.received + [] == p.received;
    }
  }

  /** The end of the stream is seen by the recv of this event. */
  predicate SeesEnd(p: Pipe, input: bool, r: Recv) {
    input && r == Got([]) && |p.pending| < SIZE
  }

  lemma WorkReads(c: Conn, mask: Mask, k: Kernel)
    requires Both(c) && c.status == Alive && (mask.input ==> c.client.readOpen)
    ensures var d := ClientWork(c, mask, k);
            && d.server.from.received == c.server.from.received && d.server.readOpen == c.server.readOpen
            && d.client.from.received
                 == (if mask.input then Receive(c.client.from, k.recv).0.received else c.client.from.received)
            && (d.status == Alive ==>
                 (d.client.readOpen <==>
                   c.client.readOpen && !mask.rdhup && !SeesEnd(c.client.from, mask.input, k.recv)))
  {
    hide Stream, FinLast, Ended, Receive, Flush;
    ReceiveTakes(c.client.from, k.recv);
    var c1 := if mask.input then ClientReads(c, k) else c;
    if mask.input {
      ClientReadsOk(c, k);
    }
    FlushOk(c1.server.from, k.send);
  }

  /** What one event reads, and when it closes its side. */
  lemma EventReads(c: Conn, which: Which, mask: Mask, k: Kernel)
    requires Inv(c) && c.status == Alive && (mask.input ==> SideOf(c, which).readOpen)
    ensures var d, side := Handle(c, which, mask, k), SideOf(c, which);
            && SideOf(d, Other(which)).from.received == SideOf(c, Other(which)).from.received
            && SideOf(d, Other(which)).readOpen == SideOf(c, Other(which)).readOpen
            && SideOf(d, which).from.received
                 == (if mask.input then Receive(side.from, k.recv).0.received else side.from.received)
            && (d.status != Broken ==>
                 (SideOf(d, which).readOpen <==>
                   side.readOpen && !mask.rdhup && !SeesEnd(side.from, mask.input, k.recv)))
  {
    hide DirectionOk, Receive, ClientWork, SeesEnd;
    var m := if which == Client then c else Mirror(c);
    WorkReads(m, mask, k);
    ClientWorkOk(m, mask, k);
  }

  /** The bytes read are the next ones, and what is then missing of the whole is what is left unread. */
  lemma ReadsNext(p: Pipe, input: bool, r: Recv, whole: Bytes)
    requires PipeOk(p) && p.received <= whole && (input ==> NextBytes(p, r, whole))
    ensures var received := if input then Receive(p, r).0.received else p.received;
            received <= whole && (received == whole <==> LeftUnread(p, input, r, whole) == [])
    ensures SeesEnd(p, input, r) ==> LeftUnread(p, input, r, whole) == []
  {
    ReceiveTakes(p, r);
    var received := if input then Receive(p, r).0.received else p.received;
    var k := Taken(p, input, r);
    assert |received| == |p.received| + k;
    assert whole == whole[..|received|] + whole[|received|..];
  }

  /** The closing event decides: an event that closes a side gets the rest of the stream through, in
      every run that finishes the connection, if and only if it leaves nothing unread in the peer's
      socket; and it leaves something only where it reports RDHUP. */
  lemma ClosingEvent(c: Conn, which: Which, mask: Mask, k: Kernel, whole: Bytes, batches: seq<Batch>)
    requires Reachable(c) && c.status == Alive && SideOf(c, which).readOpen && SideOf(c, which).from.received <= whole
    requires mask.input ==> NextBytes(SideOf(c, which).from, k.recv, whole)
    requires var d := Handle(c, which, mask, k); d.status != Broken && !SideOf(d, which).readOpen
    requires AllOk(batches) && RunAll(Handle(c, which, mask, k), batches).status == Finished
    ensures var e := RunAll(Handle(c, which, mask, k), batches);
            Stream(SideOf(e, Other(which)).log) == whole <==>
              LeftUnread(SideOf(c, which).from, mask.input, k.recv, whole) == []
    ensures LeftUnread(SideOf(c, which).from, mask.input, k.recv, whole) == []
       <==> !CutsShort(SideOf(c, which), mask, k.recv, whole)
  {
    hide Reachable, RunAll, Handle, LeftUnread, SeesEnd, Stream, FinLast, Ended, NextBytes;
    ReachableInv(c);
    var d := Handle(c, which, mask, k);
    HandleOk(c, which, mask, k);
    EventReads(c, which, mask, k);
    ReadsNext(SideOf(c, which).from, mask.input, k.recv, whole);
    RunLater(d, batches);
  }

  // ------------------------------------------------------------ the same for whole runs

  function WholeOf(which: Which, clientWhole: Bytes, serverWhole: Bytes): Bytes {
    if which == Client then clientWhole else serverWhole
  }

  /** In this event, this batch, this run, recv hands over what the peers send and nothing else. */
  predicate HonestEvent(c: Conn, which: Which, mask: Mask, k: Kernel, clientWhole: Bytes, serverWhole: Bytes) {
    c.status == Alive && mask.input ==>
      NextBytes(SideOf(c, which).from, k.recv, WholeOf(which, clientWhole, serverWhole))
  }

  predicate HonestBatch(c: Conn, b: Batch, clientWhole: Bytes, serverWhole: Bytes) {
    && HonestEvent(c, b.first.which, FirstMask(c, b), b.first.kernel, clientWhole, serverWhole)
    && (|b.second| == 1 ==>
         var e := b.second[0];
         HonestEvent(First(c, b), e.which, Reported(e.mask, ArmedAt(c, e.which)), e.kernel, clientWhole, serverWhole))
  }

  predicate Honest(batches: seq<Batch>, clientWhole: Bytes, serverWhole: Bytes)
    decreases |batches|
  {
    batches != [] ==>
      var before := batches[..|batches| - 1];
      && Honest(before, clientWhole, serverWhole)
      && HonestBatch(RunAll(NEW, before), batches[|batches| - 1], clientWhole, serverWhole)
  }

  /** In this event, this batch, this run, RDHUP cuts the stream of `who` short. */
  predicate CutByEvent(c: Conn, who: Which, which: Which, mask: Mask, k: Kernel, whole: Bytes) {
    c.status == Alive && which == who && CutsShort(SideOf(c, who), mask, k.recv, whole)
  }

  predicate CutByBatch(c: Conn, who: Which, b: Batch, whole: Bytes) {
    || CutByEvent(c, who, b.first.which, FirstMask(c, b), b.first.kernel, whole)
    || (|b.second| == 1 &&
        var e := b.second[0];
        CutByEvent(First(c, b), who, e.which, Reported(e.mask, ArmedAt(c, e.which)), e.kernel, whole))
  }

  predicate Cut(batches: seq<Batch>, who: Which, whole: Bytes)
    decreases |batches|
  {
    batches != [] &&
    var before := batches[..|batches| - 1];
    Cut(before, who, whole) || CutByBatch(RunAll(NEW, before), who, batches[|batches| - 1], whole)
  }

  /** A prefix of the stream has been read; an open side has not been cut short, and a closed one has
      been if and only if part of the stream is missing. */
  predicate Tells(c: Conn, who: Which, whole: Bytes, cut: bool) {
    var side := SideOf(c, who);
    && side.from.received <= whole
    && (c.status != Broken ==> if side.readOpen then !cut else (side.from.received == whole <==> !cut))
  }

  lemma EventTells(c: Conn, who: Which, which: Which, mask: Mask, k: Kernel, clientWhole: Bytes,
                   serverWhole: Bytes, cut: bool)
    requires Inv(c) && (c.status == Alive && mask.input ==> SideOf(c, which).readOpen)
    requires Tells(c, who, WholeOf(who, clientWhole, serverWhole), cut)
    requires HonestEvent(c, which, mask, k, clientWhole, serverWhole)
    ensures var whole := WholeOf(who, clientWhole, serverWhole);
            Tells(Handle(c, which, mask, k), who, whole, cut || CutByEvent(c, who, which, mask, k, whole))
  {
    hide Handle, LeftUnread, SeesEnd, Stream, FinLast, Ended, NextBytes, Receive;
    DeadStays(c, which, mask, k);
    if c.status == Alive {
      EventReads(c, which, mask, k);
      if which == who {
        ReadsNext(SideOf(c, who).from, mask.input, k.recv, WholeOf(who, clientWhole, serverWhole));
        if !SideOf(c, who).readOpen {
          NothingRead(c, which, mask, k);
        }
      }
    }
  }

  lemma NothingRead(c: Conn, which: Which, mask: Mask, k: Kernel)
    requires Inv(c) && c.status == Alive && !SideOf(c, which).readOpen && !mask.input
    ensures SideOf(Handle(c, which, mask, k), which).from.received == SideOf(c, which).from.received
    ensures !SideOf(Handle(c, which, mask, k), which).readOpen
  {
    hide DirectionOk, ClientWork;
    HandleLater(c, which, mask, k);
  }

  lemma BatchTells(c: Conn, who: Which, b: Batch, clientWhole: Bytes, serverWhole: Bytes, cut: bool)
    requires Inv(c) && BatchOk(b) && HonestBatch(c, b, clientWhole, serverWhole)
    requires Tells(c, who, WholeOf(who, clientWhole, serverWhole), cut)
    ensures var whole := WholeOf(who, clientWhole, serverWhole);
            Tells(RunBatch(c, b), who, whole, cut || CutByBatch(c, who, b, whole))
  {
    hide Handle, DirectionOk, Later, Tells, CutByEvent, HonestEvent;
    var whole, m := WholeOf(who, clientWhole, serverWhole), FirstMask(c, b);
    FirstOk(c, b);
    EventTells(c, who, b.first.which, m, b.first.kernel, clientWhole, serverWhole, cut);
    if |b.second| == 1 {
      var e := b.second[0];
      SecondOk(c, b);
      EventTells(First(c, b), who, e.which, Reported(e.mask, ArmedAt(c, e.which)), e.kernel, clientWhole, serverWhole,
                 cut || CutByEvent(c, who, b.first.which, m, b.first.kernel, whole));
    }
  }

  lemma {:induction false} RunTells(batches: seq<Batch>, who: Which, clientWhole: Bytes, serverWhole: Bytes)
    requires AllOk(batches) && Honest(batches, clientWhole, serverWhole)
    ensures var whole := WholeOf(who, clientWhole, serverWhole);
            Tells(RunAll(NEW, batches), who, whole, Cut(batches, who, whole))
    decreases |batches|
  {
    hide RunBatch, BatchOk, CutByBatch, HonestBatch, Inv;
    if batches != [] {
      var before := batches[..|batches| - 1];
      RunTells(before, who, clientWhole, serverWhole);
      Always(before);
      BatchTells(RunAll(NEW, before), who, batches[|batches| - 1], clientWhole, serverWhole,
                 Cut(before, who, WholeOf(who, clientWhole, serverWhole)));
    }
  }

  /** In a run that finishes, each peer gets the whole stream of the other if and only if no event
      reports RDHUP for an open side and leaves bytes unread. */
  lemma WholeStream(batches: seq<Batch>, clientWhole: Bytes, serverWhole: Bytes)
    requires AllOk(batches) && Honest(batches, clientWhole, serverWhole) && RunAll(NEW, batches).status == Finished
    ensures Stream(RunAll(NEW, batches).server.log) == clientWhole <==> !Cut(batches, Client, clientWhole)
    ensures Stream(RunAll(NEW, batches).client.log) == serverWhole <==> !Cut(batches, Server, serverWhole)
  {
    hide RunAll, Cut, Honest, Stream, FinLast, Ended;
    RunTells(batches, Client, clientWhole, serverWhole);
    RunTells(batches, Server, clientWhole, serverWhole);
    Always(batches);
  }

  // ------------------------------------------------------------ two runs

  const RDHUP_IN := Mask(true, false, true, false)
  const WRITABLE := Mask(false, true, false, false)
  const RDHUP := Mask(false, false, true, false)

  function Alone(which: Which, mask: Mask, recv: Recv, send: Send): Batch {
    Batch(Event(which, mask, Kernel(recv, send, true, true)), [])
  }

  lemma RunMore(batches: seq<Batch>, b: Batch)
    ensures RunAll(NEW, batches + [b]) == RunBatch(RunAll(NEW, batches), b)
    ensures AllOk(batches) && BatchOk(b) ==> AllOk(batches + [b])
    ensures forall cw: Bytes, sw: Bytes ::
              Honest(batches, cw, sw) && HonestBatch(RunAll(NEW, batches), b, cw, sw) ==> Honest(batches + [b], cw, sw)
  {
    hide RunBatch, HonestBatch, BatchOk;
    assert (batches + [b])[..|batches|] == batches;
  }

  /** After the client's first bytes and its RDHUP. */
  function Half(first: Bytes): Conn {
    Conn(Side(Pipe(0, first, first, []), false, false, Mask(false, false, true, false), []),
         Side(Pipe(0, [], [], []), true, false, Mask(true, true, true, false), []), Alive)
  }

  lemma BytesAndRdhup(bytes: Bytes)
    requires bytes != []
    ensures RunBatch(NEW, Alone(Client, RDHUP_IN, Got(bytes), SendLater)) == Half(bytes[..Min(|bytes|, SIZE)])
  {
    var first := bytes[..Min(|bytes|, SIZE)];
    assert [] + first == first;
  }

  /** It happens, with any stream that is longer than the buffer: the client sends it and closes, one
      recv fills the buffer, and as the same event reports RDHUP, the server gets those 65536
      bytes and the end of the stream, and the rest is never read. */
  lemma RdhupTruncates(whole: Bytes) returns (batches: seq<Batch>)
    requires |whole| > 65536
    ensures AllOk(batches) && Honest(batches, whole, []) && Cut(batches, Client, whole)
    ensures var c := RunAll(NEW, batches);
            && c.status == Finished && c.server.log == [Chunk(whole[..65536]), ShutWr]
            && Stream(c.server.log) == whole[..65536]
  {
    hide RunBatch, RunAll, Honest, Cut, HonestBatch, Inv, Half, CutByBatch;
    var first := whole[..SIZE];
    var a, b := Alone(Client, RDHUP_IN, Got(whole), SendLater), Alone(Server, WRITABLE, TryLater, Took(SIZE));
    var d, e := Alone(Client, RDHUP, TryLater, SendLater), Alone(Server, RDHUP_IN, Got([]), SendLater);
    batches := [a, b, d, e];
    assert [] + [a] == [a] && [a] + [b] == [a, b] && [a, b] + [d] == [a, b, d] && [a, b, d] + [e] == batches;
    NothingYet(whole);
    RunMore([], a);
    RunMore([a], b);
    RunMore([a, b], d);
    RunMore([a, b, d], e);
    BytesAndRdhup(whole);
    BytesForwarded(first, b, whole);
    FinForwarded(RunBatch(Half(first), b), d, whole);
    ServerEnds(RunBatch(RunBatch(Half(first), b), d), e, first, whole);
    WholeStream(batches, whole, []);
  }

  lemma NothingYet(whole: Bytes)
    requires whole != []
    ensures AllOk([]) && Honest([], whole, []) && RunAll(NEW, []) == NEW
    ensures HonestBatch(NEW, Alone(Client, RDHUP_IN, Got(whole), SendLater), whole, [])
  {
    assert [] + whole == whole;
  }

  lemma BytesForwarded(first: Bytes, b: Batch, whole: Bytes)
    requires first != [] && b == Alone(Server, WRITABLE, TryLater, Took(|first|))
    ensures HonestBatch(Half(first), b, whole, [])
    ensures var c := RunBatch(Half(first), b);
            && c.client.from == Pipe(0, [], first, first) && !c.client.readOpen && c.client.armed.rdhup
            && c.status == Alive
            && c.server.log == [Chunk(first)] && c.server.readOpen && !c.server.writeClosed
            && c.server.from == Pipe(0, [], [], [])
  {
    assert first[|first|..] == [] && [] + first[..|first|] == first && first[0..] == first;
  }

  lemma FinForwarded(c: Conn, d: Batch, whole: Bytes)
    requires d == Alone(Client, RDHUP, TryLater, SendLater) && c.status == Alive && c.client.armed.rdhup
    requires c.client.from.pending == [] && !c.client.readOpen && c.server.readOpen && !c.server.writeClosed
    requires c.server.from == Pipe(0, [], [], [])
    ensures HonestBatch(c, d, whole, [])
    ensures var e := RunBatch(c, d);
            && e.status == Alive && e.client.from == c.client.from && !e.client.readOpen
            && e.server.log == c.server.log + [ShutWr]
            && e.server.from == c.server.from && e.server.readOpen && e.server.armed.input && e.server.armed.rdhup
  {}

  lemma ServerEnds(c: Conn, e: Batch, first: Bytes, whole: Bytes)
    requires e == Alone(Server, RDHUP_IN, Got([]), SendLater) && c.status == Alive && c.server.armed.input
    requires c.server.armed.rdhup
    requires c.client.from == Pipe(0, [], first, first) && !c.client.readOpen && c.server.readOpen
    requires c.server.from == Pipe(0, [], [], []) && c.server.log == [Chunk(first), ShutWr]
    ensures HonestBatch(c, e, whole, [])
    ensures var f := RunBatch(c, e);
            f.status == Finished && f.server.log == c.server.log && Stream(f.server.log) == first
  {
    StreamMore([], Chunk(first));
    StreamMore([Chunk(first)], ShutWr);
    assert [] + [Chunk(first)] == [Chunk(first)] && [Chunk(first)] + [ShutWr] == [Chunk(first), ShutWr];
    assert [] + first == first && first + [] == first;
  }

  /** A connection can finish without SHUT_WR ever being issued towards the server: the server's own
      event drains the client's last byte, and only the closing of the socket tells the server. */
  lemma FinishWithoutFin() returns (batches: seq<Batch>)
    ensures AllOk(batches) && Honest(batches, [7], [])
    ensures var c := RunAll(NEW, batches); c.status == Finished && !c.server.writeClosed && Stream(c.server.log) == [7]
  {
    hide RunBatch, RunAll, Honest, HonestBatch, Half;
    var first: Bytes := [7];
    var a := Alone(Client, RDHUP_IN, Got(first), SendLater);
    var b := Alone(Server, RDHUP, TryLater, SendLater);
    var d := Alone(Server, WRITABLE, TryLater, Took(1));
    batches := [a, b, d];
    assert [] + [a] == [a] && [a] + [b] == [a, b] && [a, b] + [d] == batches && first[..1] == first;
    NothingYet(first);
    RunMore([], a);
    RunMore([a], b);
    RunMore([a, b], d);
    BytesAndRdhup(first);
    ServerCloses(first, b);
    LastByte(first, RunBatch(Half(first), b), d);
  }

  lemma ServerCloses(first: Bytes, b: Batch)
    requires first != [] && b == Alone(Server, RDHUP, TryLater, SendLater)
    ensures HonestBatch(Half(first), b, first, [])
    ensures var c := RunBatch(Half(first), b);
            && c.client.from == Pipe(0, first, first, []) && !c.client.readOpen && c.status == Alive
            && c.server.log == [] && !c.server.readOpen && !c.server.writeClosed && c.server.armed.output
            && c.server.from.pending == []
  {}

  lemma LastByte(first: Bytes, c: Conn, d: Batch)
    requires |first| == 1 && d == Alone(Server, WRITABLE, TryLater, Took(1)) && c.status == Alive
    requires c.server.armed.output
    requires c.client.from == Pipe(0, first, first, []) && !c.client.readOpen && !c.server.readOpen
    requires c.server.from.pending == []
    requires c.server.log == [] && !c.server.writeClosed
    ensures HonestBatch(c, d, first, [])
    ensures var e := RunBatch(c, d); e.status == Finished && !e.server.writeClosed && Stream(e.server.log) == first
  {
    assert first[1..] == [] && [] + first[..1] == first && first[0..] == first;
    StreamMore([], Chunk(first));
    assert [] + [Chunk(first)] == [Chunk(first)];
  }
}
