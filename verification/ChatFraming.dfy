/** How a client's bytes become lines: it does not matter how the stream is cut into chunks. */
module ChatFraming {
  import opened ChatText
  import opened ChatUsers
  import opened ChatLog
  import opened Chat
  import opened ChatTheorems

  // ------------------------------------------------------------ splitting a stream

  /** The complete lines of a stream, and what follows the last line break. */
  function LinesOf(s: string): seq<string>
    decreases |s|
  {
    var k := Break(s);
    if k == |s| then [] else [s[..k]] + LinesOf(s[k + 1..])
  }

  function TailOf(s: string): (t: string)
    ensures Break(t) == |t| && |t| <= |s|
    decreases |s|
  {
    var k := Break(s);
    if k == |s| then s else TailOf(s[k + 1..])
  }

  /** At `q` begins a line that is not ended within 3072 bytes, and 1024 more bytes follow those. */
  predicate LongAt(s: string, q: nat) {
    && q + INPUT_SIZE <= |s| && (q == 0 || s[q - 1] == '\n')
    && forall j :: q <= j < q + INPUT_SIZE - CHUNK_SIZE ==> s[j] != '\n'
  }

  /** The streams for which a chunk may be too much for the buffer. */
  ghost predicate Long(s: string) {
    exists q: nat :: LongAt(s, q)
  }

  lemma {:induction false} BreakOf(s: string, k: nat)
    requires k <= |s| && (forall j :: 0 <= j < k ==> s[j] != '\n') && (k < |s| ==> s[k] == '\n')
    ensures Break(s) == k
    decreases k
  {
    if k > 0 {
      BreakOf(s[1..], k - 1);
    }
  }

  lemma LinesStep(s: string, k: nat)
    requires k < |s| && Break(s) == k
    ensures LinesOf(s) == [s[..k]] + LinesOf(s[k + 1..]) && TailOf(s) == TailOf(s[k + 1..])
  {}

  lemma NoLines(s: string)
    requires Break(s) == |s|
    ensures LinesOf(s) == [] && TailOf(s) == s
  {}

  /** What comes later is split as if it followed the tail. */
  lemma {:induction false} SplitMore(s: string, t: string)
    ensures LinesOf(s + t) == LinesOf(s) + LinesOf(TailOf(s) + t)
    ensures TailOf(s + t) == TailOf(TailOf(s) + t)
    decreases |s|
  {
    hide LinesOf, TailOf;
    var k := Break(s);
    if k < |s| {
      BreakOf(s + t, k);
      assert (s + t)[..k] == s[..k] && (s + t)[k + 1..] == s[k + 1..] + t;
      LinesStep(s, k);
      LinesStep(s + t, k);
      SplitMore(s[k + 1..], t);
    } else {
      NoLines(s);
    }
  }

  /** Where the tail begins. */
  lemma {:induction false} TailPlace(s: string)
    ensures var q := |s| - |TailOf(s)|; TailOf(s) == s[q..] && (q == 0 || s[q - 1] == '\n')
    decreases |s|
  {
    hide TailOf;
    var k := Break(s);
    if k < |s| {
      LinesStep(s, k);
      TailPlace(s[k + 1..]);
    } else {
      NoLines(s);
    }
  }

  /** A line start without a line break behind it begins the tail. */
  lemma {:induction false} TailFrom(s: string, q: nat)
    requires q <= |s| && (q == 0 || s[q - 1] == '\n') && forall j :: q <= j < |s| ==> s[j] != '\n'
    ensures TailOf(s) == s[q..]
    decreases |s|
  {
    hide TailOf;
    if q == 0 {
      BreakOf(s, |s|);
      NoLines(s);
    } else {
      var k := Break(s);
      LinesStep(s, k);
      TailFrom(s[k + 1..], q - (k + 1));
      assert s[k + 1..][q - (k + 1)..] == s[q..];
    }
  }

  lemma LongMore(s: string, t: string)
    ensures Long(s) ==> Long(s + t)
  {
    if Long(s) {
      var q: nat :| LongAt(s, q);
      assert LongAt(s + t, q);
    }
  }

  /** A chunk that does not fit behind the tail makes the stream long. */
  lemma TailTooLong(s: string, t: string)
    requires |t| <= CHUNK_SIZE && |TailOf(s)| + |t| >= INPUT_SIZE
    ensures Long(s + t)
  {
    hide TailOf;
    TailPlace(s);
    var q := |s| - |TailOf(s)|;
    assert forall j :: 0 <= j < |TailOf(s)| ==> TailOf(s)[j] == s[q + j];
    assert LongAt(s + t, q);
  }

  /** Lines of at most 3071 bytes are not long. */
  lemma {:induction false} ShortLines(s: string)
    requires |TailOf(s)| < INPUT_SIZE - CHUNK_SIZE
    requires forall i :: 0 <= i < |LinesOf(s)| ==> |LinesOf(s)[i]| < INPUT_SIZE - CHUNK_SIZE
    ensures !Long(s)
    decreases |s|
  {
    hide LinesOf, TailOf;
    var k := Break(s);
    if k == |s| {
      NoLines(s);
    } else {
      LinesStep(s, k);
      var rest := s[k + 1..];
      assert LinesOf(s)[0] == s[..k];
      assert forall i :: 0 <= i < |LinesOf(rest)| ==> LinesOf(rest)[i] == LinesOf(s)[i + 1];
      forall q: nat | LongAt(s, q)
        ensures k < q && LongAt(rest, q - (k + 1))
      {}
      ShortLines(rest);
    }
  }

  // ------------------------------------------------------------ the buffer

  /** Between events the buffer holds no complete line and is not full; and as long as the client's
      stream is not long, exactly the complete lines have been processed, and the buffer holds what
      follows. */
  ghost predicate BytesOk(c: Client) {
    && Break(c.input) == |c.input| < INPUT_SIZE
    && (!Long(c.fed) ==> c.lines == LinesOf(c.fed) && c.input == TailOf(c.fed))
  }

  /** The same lines, processed or still to come, and the same tail. */
  predicate SameLines(c: Client, d: Client) {
    c.lines + LinesOf(c.input) == d.lines + LinesOf(d.input) && TailOf(c.input) == TailOf(d.input)
  }

  /** Nobody else is affected, other than by being disconnected. */
  predicate OthersKept(s: Server, i: nat, r: Server) {
    && |r.clients| == |s.clients|
    && forall j :: 0 <= j < |s.clients| && j != i ==> r.clients[j] == s.clients[j] || r.clients[j] == FREE
  }

  lemma LineOthers(s: Server, i: nat, raw: string, now: int)
    requires i < |s.clients|
    ensures OthersKept(s, i, ProcessLine(s, i, raw, now).0)
  {
    hide Sanitize, Conversations, Ids, ReadInt, SaveUsers, Append, FindName, FindId, FindClient, MaxId;
  }

  lemma CutLineSame(c: Client)
    requires Break(c.input) < |c.input|
    ensures SameLines(c, CutLine(c))
    ensures |CutLine(c).input| < |c.input| && CutLine(c).fed == c.fed
  {
    hide LinesOf, TailOf;
    var k := Break(c.input);
    LinesStep(c.input, k);
    assert c.lines + ([c.input[..k]] + LinesOf(c.input[k + 1..]))
         == c.lines + [c.input[..k]] + LinesOf(c.input[k + 1..]);
  }

  lemma CutKeeps(s: Server, i: nat)
    requires Live(s, i)
    ensures Live(SetClient(s, i, CutLine(s.clients[i])), i)
  {
    hide UsersOk, OnceEach;
    ClientChanges(s, i, CutLine(s.clients[i]));
  }

  /** The loop of main: it ends with no complete line in the buffer, or with the client gone. */
  lemma {:induction false} DrainOk(s: Server, i: nat, now: int, fuel: nat)
    requires Live(s, i) && |s.clients[i].input| <= fuel
    ensures var r := Drain(s, i, now, fuel);
            && Inv(r) && OthersKept(s, i, r)
            && (r.clients[i] != FREE ==>
                 && r.clients[i].active && r.clients[i].fed == s.clients[i].fed
                 && |r.clients[i].input| <= |s.clients[i].input| && Break(r.clients[i].input) == |r.clients[i].input|
                 && SameLines(s.clients[i], r.clients[i]))
    decreases fuel
  {
    hide Inv, ProcessLine, SameLines, Break;
    var c := s.clients[i];
    BreakBound(c.input);
    SameRefl(c);
    if fuel > 0 && Break(c.input) < |c.input| {
      CutLineSame(c);
      CutKeeps(s, i);
      var t := SetClient(s, i, CutLine(c));
      ProcessLineOk(t, i, c.input[..Break(c.input)], now);
      LineOthers(t, i, c.input[..Break(c.input)], now);
      var (r, ok) := ProcessLine(t, i, c.input[..Break(c.input)], now);
      GoneIsFree(r, i);
      if ok {
        DrainOk(r, i, now, fuel - 1);
        SameBytesLines(CutLine(c), r.clients[i]);
        var e := Drain(r, i, now, fuel - 1).clients[i];
        SameTrans(c, CutLine(c), r.clients[i]);
        SameTrans(c, r.clients[i], e);
      }
    }
  }

  lemma BreakBound(s: string)
    ensures Break(s) <= |s| && (s == "" ==> Break(s) == |s|)
  {}

  lemma SameBytesLines(c: Client, d: Client)
    requires SameBytes(c, d)
    ensures SameLines(c, d)
  {}

  lemma SameRefl(c: Client)
    ensures SameLines(c, c)
  {}

  lemma SameTrans(c: Client, d: Client, e: Client)
    ensures SameLines(c, d) && SameLines(d, e) ==> SameLines(c, e)
  {}

  lemma GoneIsFree(s: Server, i: nat)
    requires Inv(s) && i < |s.clients|
    ensures s.clients[i].active <==> s.clients[i] != FREE
  {}

  // ------------------------------------------------------------ one chunk

  /** The overflow branch is taken exactly when the unfinished line and the chunk do not fit. */
  predicate Overflows(c: Client, chunk: string) {
    |c.input| + |chunk| >= INPUT_SIZE
  }

  /** Behind the tail of a stream, a chunk overflows the buffer only if it makes the stream long; if it
      does not, the lines are those of the longer stream. */
  lemma TailFits(c: Client, lines: seq<string>, s: string, chunk: string)
    requires c.input == TailOf(s) && c.lines == lines + LinesOf(s) && |chunk| <= CHUNK_SIZE && !Long(s + chunk)
    ensures !Overflows(c, chunk)
    ensures c.lines + LinesOf(c.input + chunk) == lines + LinesOf(s + chunk)
    ensures TailOf(c.input + chunk) == TailOf(s + chunk)
  {
    hide LinesOf, TailOf, Long;
    if Overflows(c, chunk) {
      TailTooLong(s, chunk);
    }
    SplitMore(s, chunk);
  }

  lemma DrainedOk(c: Client, d: Client)
    requires SameLines(c, d) && Break(d.input) == |d.input| < INPUT_SIZE && d.fed == c.fed
    requires !Long(c.fed) ==> c.lines + LinesOf(c.input) == LinesOf(c.fed) && TailOf(c.input) == TailOf(c.fed)
    ensures BytesOk(d)
  {
    hide LinesOf, TailOf, Long;
    NoLines(d.input);
  }

  ghost predicate AllInv(s: Server) {
    Inv(s) && forall i :: 0 <= i < |s.clients| ==> BytesOk(s.clients[i])
  }

  lemma FillKeeps(s: Server, i: nat, c: Client)
    requires Live(s, i)
    requires c == s.clients[i].(input := c.input, fed := c.fed)
    ensures Live(SetClient(s, i, c), i)
  {
    hide UsersOk, OnceEach;
    ClientChanges(s, i, c);
  }

  lemma FeedOk(s: Server, i: nat, chunk: string, now: int)
    requires AllInv(s) && i < |s.clients| && |chunk| <= CHUNK_SIZE
    ensures AllInv(Feed(s, i, chunk, now))
  {
    hide Inv, ClientOk, Drain, LinesOf, TailOf, Long, SameLines;
    var c := s.clients[i];
    if c.active {
      LongMore(c.fed, chunk);
      if !Long(c.fed + chunk) {
        TailFits(c, [], c.fed, chunk);
      }
      var d := c.(input := if Overflows(c, chunk) then "" else c.input + chunk, fed := c.fed + chunk);
      FillKeeps(s, i, d);
      var t := SetClient(s, i, d);
      if Overflows(c, chunk) {
        FreeBytes();
      } else {
        DrainOk(t, i, now, |d.input|);
        var r := Drain(t, i, now, |d.input|);
        FreeBytes();
        if r.clients[i] != FREE {
          DrainedOk(d, r.clients[i]);
        }
      }
    }
  }

  lemma FreeBytes()
    ensures BytesOk(FREE) && BytesOk(FRESH)
  {}

  // ------------------------------------------------------------ every run

  lemma StepOk(s: Server, e: Event)
    requires AllInv(s)
    ensures AllInv(Step(s, e))
  {
    hide UsersOk, OnceEach, Feed, BytesOk;
    FreeBytes();
    match e
    case Accept =>
      var i := FindFree(s.clients);
      if i >= 0 {
        ClientChanges(s, i, FRESH);
      }
    case Chunk(i, bytes, now) =>
      if i < |s.clients| && bytes != "" && |bytes| <= CHUNK_SIZE {
        FeedOk(s, i, bytes, now);
      } else {
        NobodyFed(s, i, bytes, now);
      }
    case Hangup(i) => DisconnectKeeps(s, i);
  }

  lemma NobodyFed(s: Server, i: nat, chunk: string, now: int)
    ensures i >= |s.clients| ==> Feed(s, i, chunk, now) == s
  {}

  /** A users file that load_users accepted, with ids to spare, and a log of whole lines. */
  ghost predicate StartOk(users: seq<User>, log: string) {
    TableOk(users) && AdminThere(users) && IdsLeft(users) && Complete(log)
  }

  lemma StartsOk(users: seq<User>, log: string)
    requires StartOk(users, log)
    ensures AllInv(Start(users, log))
  {
    hide TableOk, AdminThere, IdsLeft, SaveUsers;
    FreeBytes();
  }

  /** Whatever clients connect, send and hang up, the invariants hold. */
  lemma {:induction false} Always(users: seq<User>, log: string, events: seq<Event>)
    requires StartOk(users, log)
    ensures AllInv(Run(Start(users, log), events))
    decreases |events|
  {
    hide AllInv, Step, StartOk;
    if events == [] {
      StartsOk(users, log);
    } else {
      Always(users, log, events[..|events| - 1]);
      StepOk(Run(Start(users, log), events[..|events| - 1]), events[|events| - 1]);
    }
  }
}
