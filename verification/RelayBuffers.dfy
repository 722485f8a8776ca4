/** The relay as it runs: two byte arrays that are filled, drained and compacted in place. */
module RelayBuffers {
  import opened Octets
  import opened Relay
  import opened RelayCalls
  import opened RelayTheorems

  /** `struct io_buffer`, with what went through it. */
  class IoBuffer {
    const data: array<byte>
    var start: nat
    var end: nat
    ghost var received: Bytes
    ghost var sent: Bytes

    constructor ()
      ensures Fits() && fresh(data) && Abs() == NEW_SIDE.from
    {
      data := new byte[SIZE](_ => 0);
      start, end, received, sent := 0, 0, [], [];
    }

    predicate Fits()
      reads this
    {
      data.Length == SIZE && start <= end <= SIZE
    }

    ghost function Abs(): Pipe
      requires Fits()
      reads this, data
    {
      Pipe(start, data[start..end], received, sent)
    }

    /** buffer_empty */
    predicate Empty()
      requires Fits()
      reads this, data
      ensures Empty() <==> Abs().pending == []
    {
      start == end
    }

    /** buffer_pending */
    function Pending(): (n: nat)
      requires Fits()
      reads this, data
      ensures n == |Abs().pending|
    {
      end - start
    }

    /** buffer_space */
    function Room(): (n: nat)
      requires Fits()
      reads this, data
      ensures n == Space(Abs())
    {
      SIZE - end
    }

    /** buffer_reset_if_empty */
    method ResetIfEmpty()
      requires Fits()
      modifies this`start, this`end
      ensures Fits() && Abs() == if old(Empty()) then old(Abs()).(start := 0) else old(Abs())
    {
      if start == end {
        start, end := 0, 0;
      }
    }

    /** buffer_compact: the pending bytes move to the front, over the place they came from. */
    method Compact()
      requires Fits()
      modifies this`start, this`end, data
      ensures Fits() && Abs() == old(Abs()).(start := 0)
    {
      if start == 0 { return; }
      var pending := end - start;
      var i := 0;
      while i < pending
        invariant 0 <= i <= pending && start == old(start) && end == old(end)
        invariant forall j :: 0 <= j < i ==> data[j] == old(data[start + j])
        invariant forall j :: i <= j < data.Length ==> data[j] == old(data[j])
      {
        data[i] := data[start + i];
        i := i + 1;
      }
      assert data[0..pending] == old(data[start..end]);
      start, end := 0, pending;
    }

    /** recv writes behind the pending bytes. */
    method Append(bytes: Bytes)
      requires Fits() && |bytes| <= SIZE - end
      modifies this`end, data
      ensures Fits() && start == old(start) && data[start..end] == old(data[start..end]) + bytes
    {
      var i := 0;
      while i < |bytes|
        invariant 0 <= i <= |bytes| && end == old(end)
        invariant forall j :: start <= j < end ==> data[j] == old(data[j])
        invariant forall j :: 0 <= j < i ==> data[end + j] == bytes[j]
      {
        data[end + i] := bytes[i];
        i := i + 1;
      }
      end := end + |bytes|;
    }

    /** receive_into_buffer; `r` is what recv does. */
    method ReceiveInto(r: Recv) returns (o: Outcome)
      requires Fits()
      modifies this, data
      ensures Fits() && (Abs(), o) == Receive(old(Abs()), r)
      ensures Abs().pending == old(Abs().pending) + Given(old(Abs()), true, r) && Abs().sent == old(Abs().sent)
      ensures Abs().received == old(Abs().received) + Given(old(Abs()), true, r)
    {
      RecvGives(Abs(), r);
      if Room() == 0 && start > 0 {
        Compact();
      }
      var space := Room();
      if space == 0 {
        o := Nothing;
      } else if r.TryLater? {
        o := Nothing;
      } else if r.RecvFailed? {
        o := Error;
      } else if r.bytes == [] {
        o := Eof;
      } else {
        var chunk := r.bytes[..Min(|r.bytes|, space)];
        Append(chunk);
        received := received + chunk;
        o := Data;
      }
    }

    /** flush_buffer; `r` is what send does. */
    method FlushTo(r: Send) returns (o: Outcome)
      requires Fits()
      modifies this
      ensures Fits() && (Abs(), o) == Flush(old(Abs()), r)
      ensures r.Took? && 0 < r.n <= |old(Abs().pending)| ==>
        && o == Data && Abs().pending == old(Abs().pending)[r.n..]
        && Abs().sent == old(Abs().sent) + old(Abs().pending)[..r.n]
    {
      if r.Took? && 0 < r.n <= |Abs().pending| {
        SendTakes(Abs(), r.n);
      }
      if Empty() || r.SendLater? {
        o := Nothing;
      } else if r.SendFailed? {
        o := Error;
      } else {
        var k := Min(r.n, Pending());
        if k == 0 {
          o := Nothing;
        } else {
          assert data[start..end][..k] == data[start..start + k] && data[start..end][k..] == data[start + k..end];
          sent := sent + data[start..start + k];
          start := start + k;
          ResetIfEmpty();
          o := Data;
        }
      }
    }
  }

  /** `struct connection`, with what has been done to its two sockets. */
  class Connection {
    const c2s: IoBuffer
    const s2c: IoBuffer
    var clientReadOpen: bool
    var serverReadOpen: bool
    var clientWriteClosed: bool
    var serverWriteClosed: bool
    var clientArmed: Mask
    var serverArmed: Mask
    var status: Status
    ghost var clientLog: seq<Output>
    ghost var serverLog: seq<Output>

    /** create_connection */
    constructor ()
      ensures Shape() && Abs() == NEW && fresh(c2s) && fresh(s2c) && fresh(c2s.data) && fresh(s2c.data)
    {
      c2s := new IoBuffer();
      s2c := new IoBuffer();
      clientReadOpen, serverReadOpen, clientWriteClosed, serverWriteClosed := true, true, false, false;
      clientArmed, serverArmed, status := NEW_SIDE.armed, NEW_SIDE.armed, Alive;
      clientLog, serverLog := [], [];
    }

    predicate Shape()
      reads this, c2s, s2c
    {
      c2s != s2c && c2s.data != s2c.data && c2s.Fits() && s2c.Fits()
    }

    ghost function Abs(): Conn
      requires Shape()
      reads this, c2s, s2c, c2s.data, s2c.data
    {
      Conn(Side(c2s.Abs(), clientReadOpen, clientWriteClosed, clientArmed, clientLog),
           Side(s2c.Abs(), serverReadOpen, serverWriteClosed, serverArmed, serverLog), status)
    }

    /** update_connection_events */
    method UpdateConnectionEvents(k: Kernel) returns (ok: bool)
      requires Shape() && status == Alive
      modifies this`clientArmed, this`serverArmed
      ensures Shape() && status == Alive
      ensures Abs().(status := if ok then Alive else Broken) == UpdateEvents(old(Abs()), k)
    {
      var clientEvents := Mask(clientReadOpen && (c2s.Room() > 0 || c2s.start > 0), !s2c.Empty(), true, false);
      var serverEvents := Mask(serverReadOpen && (s2c.Room() > 0 || s2c.start > 0), !c2s.Empty(), true, false);
      if !k.armClient { return false; }
      clientArmed := clientEvents;
      if !k.armServer { return false; }
      serverArmed := serverEvents;
      return true;
    }

    /** process_client_event: reading, */
    method ReadFromClient(k: Kernel) returns (ok: bool)
      requires Shape() && status == Alive
      modifies this, c2s, s2c, c2s.data, s2c.data
      ensures Shape() && status == Alive
      ensures Abs().(status := if ok then Alive else Broken) == ClientReads(old(Abs()), k)
    {
      var result := c2s.ReceiveInto(k.recv);
      if result == Eof { clientReadOpen := false; }
      ok := result != Error;
    }

    /** writing, */
    method WriteToClient(k: Kernel) returns (ok: bool)
      requires Shape() && status == Alive
      modifies this, c2s, s2c, c2s.data, s2c.data
      ensures Shape() && status == Alive
      ensures Abs().(status := if ok then Alive else Broken) == ClientWrites(old(Abs()), k)
    {
      ghost var before := s2c.Abs();
      var result := s2c.FlushTo(k.send);
      clientLog := clientLog + Sent(before, s2c.Abs());
      ok := result != Error;
    }

    /** and passing on the end of the stream. */
    method EndFromClient()
      requires Shape() && status == Alive
      modifies this
      ensures Shape() && status == Alive && Abs() == ClientFin(old(Abs()))
    {
      if !clientReadOpen && c2s.Empty() && !serverWriteClosed {
        serverLog := serverLog + [ShutWr];
        serverWriteClosed := true;
      }
    }

    /** process_client_event */
    method ProcessClientEvent(events: Mask, k: Kernel) returns (ok: bool)
      requires Shape() && status == Alive
      modifies this, c2s, s2c, c2s.data, s2c.data
      ensures Shape() && status == Alive
      ensures Abs().(status := if ok then Alive else Broken) == ClientEvent(old(Abs()), events, k)
    {
      hide ClientReads, ClientWrites, ClientFin, UpdateEvents;
      if events.input {
        ok := ReadFromClient(k);
        if !ok { return; }
      }
      if events.output {
        ok := WriteToClient(k);
        if !ok { return; }
      }
      if events.err { return false; }
      if events.rdhup { clientReadOpen := false; }
      EndFromClient();
      ok := UpdateConnectionEvents(k);
    }

    /** process_server_event: reading, */
    method ReadFromServer(k: Kernel) returns (ok: bool)
      requires Shape() && status == Alive
      modifies this, c2s, s2c, c2s.data, s2c.data
      ensures Shape() && status == Alive
      ensures Mirror(Abs().(status := if ok then Alive else Broken)) == ClientReads(Mirror(old(Abs())), k)
    {
      var result := s2c.ReceiveInto(k.recv);
      if result == Eof { serverReadOpen := false; }
      ok := result != Error;
    }

    /** writing, */
    method WriteToServer(k: Kernel) returns (ok: bool)
      requires Shape() && status == Alive
      modifies this, c2s, s2c, c2s.data, s2c.data
      ensures Shape() && status == Alive
      ensures Mirror(Abs().(status := if ok then Alive else Broken)) == ClientWrites(Mirror(old(Abs())), k)
    {
      ghost var before := c2s.Abs();
      var result := c2s.FlushTo(k.send);
      serverLog := serverLog + Sent(before, c2s.Abs());
      ok := result != Error;
    }

    /** and passing on the end of the stream. */
    method EndFromServer()
      requires Shape() && status == Alive
      modifies this
      ensures Shape() && status == Alive && Mirror(Abs()) == ClientFin(Mirror(old(Abs())))
    {
      if !serverReadOpen && s2c.Empty() && !clientWriteClosed {
        clientLog := clientLog + [ShutWr];
        clientWriteClosed := true;
      }
    }

    /** process_server_event */
    method ProcessServerEvent(events: Mask, k: Kernel) returns (ok: bool)
      requires Shape() && status == Alive
      modifies this, c2s, s2c, c2s.data, s2c.data
      ensures Shape() && status == Alive
      ensures Abs().(status := if ok then Alive else Broken) == ServerEvent(old(Abs()), events, k)
    {
      hide ClientReads, ClientWrites, ClientFin, UpdateEvents;
      if events.input {
        ok := ReadFromServer(k);
        if !ok { return; }
      }
      if events.output {
        ok := WriteToServer(k);
        if !ok { return; }
      }
      if events.err { return false; }
      if events.rdhup { serverReadOpen := false; }
      EndFromServer();
      ok := UpdateConnectionEvents(k);
    }

    /** connection_finished: no byte is left behind in either buffer. */
    predicate ConnectionFinished()
      requires Shape()
      reads this, c2s, s2c, c2s.data, s2c.data
      ensures ConnectionFinished() <==> Done(Abs())
    {
      !clientReadOpen && !serverReadOpen && c2s.Empty() && s2c.Empty()
    }

    /** The main loop's treatment of one event of this connection. */
    method HandleEvent(which: Which, mask: Mask, k: Kernel)
      requires Shape()
      modifies this, c2s, s2c, c2s.data, s2c.data
      ensures Shape() && Abs() == Handle(old(Abs()), which, mask, k)
    {
      hide ClientEvent, ServerEvent;
      if status != Alive { return; }
      var ok: bool;
      if which == Client {
        ok := ProcessClientEvent(mask, k);
      } else {
        ok := ProcessServerEvent(mask, k);
      }
      if !ok {
        status := Broken;
      } else if ConnectionFinished() {
        status := Finished;
      }
    }

    /** The main loop over the batches of one connection: conservation, and the right ends of
        stream, at every moment. */
    method Serve(batches: seq<Batch>)
      requires Shape() && Abs() == NEW && AllOk(batches)
      modifies this, c2s, s2c, c2s.data, s2c.data
      ensures Shape() && Abs() == RunAll(NEW, batches) && Inv(Abs())
    {
      hide Handle, Inv, NEW;
      var i := 0;
      NewOk();
      while i < |batches|
        invariant 0 <= i <= |batches| && Shape() && Abs() == RunAll(NEW, batches[..i]) && Inv(Abs())
      {
        var b := batches[i];
        ghost var c := Abs();
        BatchKeeps(c, b);
        assert batches[..i + 1][..i] == batches[..i];
        var clientThen, serverThen := clientArmed, serverArmed;
        var armed := if b.first.which == Client then clientThen else serverThen;
        HandleEvent(b.first.which, Reported(b.first.mask, armed), b.first.kernel);
        if |b.second| == 1 {
          var e := b.second[0];
          armed := if e.which == Client then clientThen else serverThen;
          HandleEvent(e.which, Reported(e.mask, armed), e.kernel);
        }
        i := i + 1;
      }
      assert batches[..i] == batches;
    }
  }
}
