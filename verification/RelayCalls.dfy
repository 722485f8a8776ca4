/** What every call of recv and send contributes, and what makes the relay give a connection up. */
module RelayCalls {
  import opened Octets
  import opened Relay
  import opened RelayTheorems

  // ------------------------------------------------------------ one call

  /** After a short write the buffer holds exactly what send has not taken. */
  lemma SendTakes(p: Pipe, n: nat)
    requires 0 < n <= |p.pending|
    ensures var (q, got) := Flush(p, Took(n));
            && got == Data && q.received == p.received
            && q.sent == p.sent + p.pending[..n] && q.pending == p.pending[n..]
            && q.start == if n == |p.pending| then 0 else p.start + n
  {}

  /** Otherwise the buffer stays as it is, and only a failure with something to send is one. */
  lemma SendTakesNothing(p: Pipe, r: Send)
    requires p.pending == [] || r == Took(0) || r.SendLater? || r.SendFailed?
    ensures Flush(p, r) == (p, if p.pending != [] && r.SendFailed? then Error else Nothing)
  {}

  /** A recv into a buffer with room appends what it returned, as far as there is room. */
  lemma RecvGives(p: Pipe, r: Recv)
    requires p.start + |p.pending| <= SIZE
    ensures var (q, got) := Receive(p, r);
            && q.received == p.received + Given(p, true, r) && q.pending == p.pending + Given(p, true, r)
            && q.sent == p.sent && (got == Error <==> r.RecvFailed? && |p.pending| < SIZE)
            && (got == Eof <==> r == Got([]) && |p.pending| < SIZE)
  {
    ReceiveTakes(p, r);
    assert p.received + [] == p.received && p.pending + [] == p.pending;
    if r.Got? {
      assert r.bytes[..0] == [];
    }
  }

  // ------------------------------------------------------------ one event

  /** The bytes that the recv of an event hands over, if it comes to one. */
  function Given(p: Pipe, input: bool, r: Recv): Bytes {
    var k := Taken(p, input, r);
    if r.Got? && 0 <= k <= |r.bytes| then r.bytes[..k] else []
  }

  function FirstOf(n: nat, bytes: Bytes): Bytes {
    if n <= |bytes| then bytes[..n] else bytes
  }

  predicate RecvFails(p: Pipe, mask: Mask, k: Kernel) {
    mask.input && k.recv.RecvFailed? && |p.pending| < SIZE
  }

  predicate SendFails(p: Pipe, mask: Mask, k: Kernel) {
    mask.output && k.send.SendFailed? && p.pending != []
  }

  /** The bytes that the send of an event takes: the first of those pending for this endpoint, which
      were read from the other one. */
  function TakenOff(from: Pipe, to: Pipe, mask: Mask, k: Kernel): Bytes {
    if mask.output && k.send.Took? && !RecvFails(to, mask, k) then FirstOf(k.send.n, from.pending) else []
  }

  lemma FlushMoves(p: Pipe, mask: Mask, k: Kernel)
    requires PipeOk(p)
    ensures var (q, got) := Flush(p, k.send);
            && PipeOk(q) && q.received == p.received
            && q.sent == p.sent + (if k.send.Took? then FirstOf(k.send.n, p.pending) else [])
            && (got == Error <==> k.send.SendFailed? && p.pending != [])
  {
    FlushOk(p, k.send);
    assert p.sent + [] == p.sent && p.pending[..0] == [] && p.pending[..|p.pending|] == p.pending;
  }

  lemma WorkMoves(c: Conn, mask: Mask, k: Kernel)
    requires Both(c) && c.status == Alive && (mask.input ==> c.client.readOpen)
    ensures var d := ClientWork(c, mask, k);
            && d.client.from.received == c.client.from.received + Given(c.client.from, mask.input, k.recv)
            && d.server.from.received == c.server.from.received && d.client.from.sent == c.client.from.sent
            && d.server.from.sent == c.server.from.sent + TakenOff(c.server.from, c.client.from, mask, k)
            && (d.status == Alive <==>
                 !RecvFails(c.client.from, mask, k) && !SendFails(c.server.from, mask, k) && !mask.err)
            && d.status != Finished
  {
    hide Stream, FinLast, Ended, Receive, Flush, Given, FirstOf;
    RecvGives(c.client.from, k.recv);
    NothingGiven(c.client.from, k.recv);
    FlushMoves(c.server.from, mask, k);
    assert c.client.from.received + [] == c.client.from.received && c.server.from.sent + [] == c.server.from.sent;
  }

  lemma NothingGiven(p: Pipe, r: Recv)
    ensures Given(p, false, r) == []
  {}

  /** Every event reads what recv hands over, in full and once, and sends what send takes, the first bytes
      pending, in full and once. */
  lemma EventMoves(c: Conn, which: Which, mask: Mask, k: Kernel)
    requires Inv(c) && c.status == Alive && (mask.input ==> SideOf(c, which).readOpen)
    ensures var d, at, to := Handle(c, which, mask, k), SideOf(c, which), SideOf(c, Other(which));
            && SideOf(d, which).from.received == at.from.received + Given(at.from, mask.input, k.recv)
            && SideOf(d, Other(which)).from.received == to.from.received
            && SideOf(d, which).from.sent == at.from.sent
            && SideOf(d, Other(which)).from.sent == to.from.sent + TakenOff(to.from, at.from, mask, k)
  {
    hide DirectionOk, ClientWork, Given, TakenOff;
    var m := if which == Client then c else Mirror(c);
    WorkMoves(m, mask, k);
    ClientWorkOk(m, mask, k);
  }

  /** The relay gives a connection up exactly when recv, send or epoll_ctl fails or an error is reported;
      a recv without room and a send without bytes are not called and cannot fail. */
  lemma BreaksExactly(c: Conn, which: Which, mask: Mask, k: Kernel)
    requires Reachable(c) && c.status == Alive && (mask.input ==> SideOf(c, which).readOpen)
    ensures Handle(c, which, mask, k).status == Broken <==>
              || RecvFails(SideOf(c, which).from, mask, k) || SendFails(SideOf(c, Other(which)).from, mask, k)
              || mask.err || !k.armClient || !k.armServer
  {
    hide Reachable, DirectionOk, ClientWork, RecvFails, SendFails;
    ReachableInv(c);
    var m := if which == Client then c else Mirror(c);
    WorkMoves(m, mask, k);
  }

  // ------------------------------------------------------------ whole runs

  /** What recv hands over from `who`, and what send takes of that, in one event. */
  function GivenByEvent(c: Conn, who: Which, which: Which, mask: Mask, k: Kernel): Bytes {
    if c.status == Alive && which == who then Given(SideOf(c, who).from, mask.input, k.recv) else []
  }

  function TakenByEvent(c: Conn, who: Which, which: Which, mask: Mask, k: Kernel): Bytes {
    if c.status == Alive && which != who then TakenOff(SideOf(c, who).from, SideOf(c, which).from, mask, k) else []
  }

  /** In a batch. */
  function GivenByBatch(c: Conn, who: Which, b: Batch): Bytes {
    GivenByEvent(c, who, b.first.which, FirstMask(c, b), b.first.kernel)
    + if |b.second| == 0 then []
      else var e := b.second[0];
           GivenByEvent(First(c, b), who, e.which, Reported(e.mask, ArmedAt(c, e.which)), e.kernel)
  }

  function TakenByBatch(c: Conn, who: Which, b: Batch): Bytes {
    TakenByEvent(c, who, b.first.which, FirstMask(c, b), b.first.kernel)
    + if |b.second| == 0 then []
      else var e := b.second[0];
           TakenByEvent(First(c, b), who, e.which, Reported(e.mask, ArmedAt(c, e.which)), e.kernel)
  }

  /** In a run. */
  function AllGiven(batches: seq<Batch>, who: Which): Bytes
    decreases |batches|
  {
    if batches == [] then []
    else
      var before := batches[..|batches| - 1];
      AllGiven(before, who) + GivenByBatch(RunAll(NEW, before), who, batches[|batches| - 1])
  }

  function AllTaken(batches: seq<Batch>, who: Which): Bytes
    decreases |batches|
  {
    if batches == [] then []
    else
      var before := batches[..|batches| - 1];
      AllTaken(before, who) + TakenByBatch(RunAll(NEW, before), who, batches[|batches| - 1])
  }

  lemma EventTakes(c: Conn, who: Which, which: Which, mask: Mask, k: Kernel)
    requires Inv(c) && (c.status == Alive && mask.input ==> SideOf(c, which).readOpen)
    ensures var p, q := SideOf(c, who).from, SideOf(Handle(c, which, mask, k), who).from;
            && q.received == p.received + GivenByEvent(c, who, which, mask, k)
            && q.sent == p.sent + TakenByEvent(c, who, which, mask, k)
  {
    hide DirectionOk, Handle, Given, TakenOff;
    var p := SideOf(c, who).from;
    assert p.received + [] == p.received && p.sent + [] == p.sent;
    DeadStays(c, which, mask, k);
    if c.status == Alive {
      EventMoves(c, which, mask, k);
    }
  }

  lemma BatchTakes(c: Conn, who: Which, b: Batch)
    requires Inv(c) && BatchOk(b)
    ensures var p, q := SideOf(c, who).from, SideOf(RunBatch(c, b), who).from;
            q.received == p.received + GivenByBatch(c, who, b) && q.sent == p.sent + TakenByBatch(c, who, b)
  {
    hide Handle, DirectionOk, Later, GivenByEvent, TakenByEvent;
    FirstOk(c, b);
    EventTakes(c, who, b.first.which, FirstMask(c, b), b.first.kernel);
    if |b.second| == 1 {
      var e := b.second[0];
      SecondOk(c, b);
      EventTakes(First(c, b), who, e.which, Reported(e.mask, ArmedAt(c, e.which)), e.kernel);
    }
  }

  lemma {:induction false} RunTakes(batches: seq<Batch>, who: Which)
    requires AllOk(batches)
    ensures var p := SideOf(RunAll(NEW, batches), who).from;
            p.received == AllGiven(batches, who) && p.sent == AllTaken(batches, who)
    decreases |batches|
  {
    hide RunBatch, BatchOk, GivenByBatch, TakenByBatch, Inv;
    if batches != [] {
      var before := batches[..|batches| - 1];
      RunTakes(before, who);
      Always(before);
      BatchTakes(RunAll(NEW, before), who, batches[|batches| - 1]);
    }
  }

  /** End to end: the bytes that recv handed over from one endpoint, all of them and in order, are those
      that send took for the other, followed by those in the buffer; what the other endpoint's socket was
      given is what send took. */
  lemma EndToEnd(batches: seq<Batch>, who: Which)
    requires AllOk(batches)
    ensures var c := RunAll(NEW, batches);
            && Stream(SideOf(c, Other(who)).log) == AllTaken(batches, who)
            && AllGiven(batches, who) == AllTaken(batches, who) + SideOf(c, who).from.pending
            && (c.status == Finished ==> AllGiven(batches, who) == AllTaken(batches, who))
  {
    hide RunAll, AllGiven, AllTaken, Stream, FinLast, Ended;
    Always(batches);
    RunTakes(batches, who);
  }
}
