/** The results about the chat server: sessions, framing, restart, and the message log. */
module ChatRuns {
  import opened ChatText
  import opened ChatUsers
  import opened ChatLog
  import opened Chat
  import opened ChatTheorems
  import opened ChatFraming

  ghost predicate Reachable(s: Server) {
    exists users: seq<User>, log: string, events: seq<Event> ::
      StartOk(users, log) && Run(Start(users, log), events) == s
  }

  lemma ReachableInv(s: Server)
    requires Reachable(s)
    ensures AllInv(s)
  {
    hide AllInv, StartOk, Run;
    var users: seq<User>, log: string, events: seq<Event> :| StartOk(users, log) && Run(Start(users, log), events) == s;
    Always(users, log, events);
  }

  /** The first start of all: no users file, no log. */
  lemma FirstStart()
    ensures LoadUsers("") == Some([User(1, ADMIN, 1, 1)]) && StartOk([User(1, ADMIN, 1, 1)], "")
  {
    var first := [User(1, ADMIN, 1, 1)];
    assert FileLines("", 256) == [];
    assert [] + first == first;
    assert first[..0] == [];
    assert FindName(first, ADMIN) == 0;
    assert MaxId(first) == 1;
  }

  // ------------------------------------------------------------ sessions

  /** Users are distinct and administrators stay active; nobody is logged in twice, or to an account
      that does not exist or was removed; who is in the admin page is an administrator; who is in a
      chat has a registered partner other than themselves. */
  lemma Sessions(s: Server, i: nat, j: nat)
    requires Reachable(s) && i < |s.clients| && j < |s.clients| && i != j
    requires s.clients[i].active
    ensures var c, d := s.clients[i], s.clients[j];
            && (c.mode == Login <==> !c.loggedIn)
            && (c.loggedIn ==> ActiveUser(s.users, c.userId))
            && (c.loggedIn && IsUser(d, d.userId) ==> c.userId != d.userId)
            && (c.mode == Mode.Admin ==> IsAdmin(s.users, c.userId))
            && (c.mode == Talk ==> Registered(s.users, c.partner) && c.partner != c.userId)
    ensures forall a, b :: 0 <= a < b < |s.users| ==>
              s.users[a].id != s.users[b].id && s.users[a].name != s.users[b].name
    ensures forall a :: 0 <= a < |s.users| && s.users[a].admin != 0 ==> s.users[a].active != 0
    ensures |s.clients| == 100 && |s.users| <= 1000
  {
    hide Reachable, SaveUsers, BytesOk, AdminThere, IdsLeft;
    ReachableInv(s);
    assert s.clients[if i < j then i else j].userId == s.clients[if i < j then i else j].userId;
  }

  /** process_line returns 0 exactly when it disconnected its own caller. */
  lemma ZeroMeansGone(s: Server, i: nat, raw: string, now: int)
    requires Reachable(s) && i < |s.clients| && s.clients[i].active
    ensures var (r, ok) := ProcessLine(s, i, raw, now); |r.clients| == |s.clients| && (ok <==> r.clients[i].active)
  {
    hide Reachable, ProcessLine;
    ReachableInv(s);
    ProcessLineOk(s, i, raw, now);
  }

  /** Removing an account leaves nobody logged in to it and everybody else connected. */
  lemma RemovalComplete(s: Server, k: nat, i: nat)
    requires Reachable(s) && k < |s.users| && s.users[k].admin == 0 && i < |s.clients|
    ensures var r := RemoveUser(s, k);
            && |r.clients| == |s.clients|
            && r.clients[i] == (if IsUser(s.clients[i], s.users[k].id) then FREE else s.clients[i])
            && FindClient(r.clients, s.users[k].id) < 0
  {
    hide Reachable, RemoveUser;
    ReachableInv(s);
    RemoveKeeps(s, k);
  }

  /** At every moment the users file, read by a server that starts then, gives the table there is. */
  lemma AlwaysRestartable(s: Server)
    requires Reachable(s)
    ensures LoadUsers(s.file) == Some(s.users)
  {
    hide Reachable, LoadUsers;
    ReachableInv(s);
    RestartLossless(s.users);
  }

  // ------------------------------------------------------------ framing

  /** As long as a client's stream is not long, the lines processed for it are the lines of its stream,
      and its buffer holds what follows the last line break, whatever other events come between. */
  lemma FramedExactly(s: Server, i: nat)
    requires Reachable(s) && i < |s.clients| && s.clients[i].active && !Long(s.clients[i].fed)
    ensures s.clients[i].lines == LinesOf(s.clients[i].fed) && s.clients[i].input == TailOf(s.clients[i].fed)
  {
    hide Reachable, Inv;
    ReachableInv(s);
    assert BytesOk(s.clients[i]);
  }

  function Extended(c: Client, bytes: string): Client {
    c.(input := c.input + bytes, fed := c.fed + bytes)
  }

  /** Bytes added to a client that is still there. */
  function Extend(s: Server, i: nat, bytes: string): Server {
    if ClientAt(s, i).active then SetClient(s, i, Extended(ClientAt(s, i), bytes)) else s
  }

  /** Who is logged in does not depend on anybody's bytes. */
  lemma {:induction false} FindClientSame(clients: seq<Client>, i: nat, c: Client, id: int)
    requires i < |clients|
    requires c.active == clients[i].active && c.loggedIn == clients[i].loggedIn && c.userId == clients[i].userId
    ensures FindClient(clients[i := c], id) == FindClient(clients, id)
  {
    var cs := clients[i := c];
    forall j | 0 <= j < |clients|
      ensures IsUser(cs[j], id) == IsUser(clients[j], id)
    {}
  }

  /** What the addition of bytes to client i makes of another client, or of the same. */
  function Grown(c: Client, same: bool, bytes: string): Client {
    if same then Extended(c, bytes) else c
  }

  lemma ChangeExtends(s: Server, i: nat, j: nat, c: Client, bytes: string)
    requires i < |s.clients| && j < |s.clients| && s.clients[i].active && s.clients[j].active && c.active
    ensures SetClient(Extend(s, i, bytes), j, Grown(c, i == j, bytes)) == Extend(SetClient(s, j, c), i, bytes)
    ensures ClientAt(Extend(s, i, bytes), j) == Grown(s.clients[j], i == j, bytes)
  {
    var e := Extended(s.clients[i], bytes);
    if i == j {
      assert s.clients[i := e][i := Extended(c, bytes)] == s.clients[i := c][i := Extended(c, bytes)];
    } else {
      assert s.clients[i := e][j := c] == s.clients[j := c][i := e];
    }
  }

  lemma DisconnectExtends(s: Server, i: nat, j: nat, bytes: string)
    requires i < |s.clients| && j < |s.clients| && s.clients[i].active && s.clients[j].active
    ensures Disconnect(Extend(s, i, bytes), j) == Extend(Disconnect(s, j), i, bytes)
  {
    var e := Extended(s.clients[i], bytes);
    if i == j {
      assert s.clients[i := e][i := FREE] == s.clients[i := FREE];
    } else {
      assert s.clients[i := e][j := FREE] == s.clients[j := FREE][i := e];
    }
  }

  lemma RefreshExtends(s: Server, i: nat, j: nat, bytes: string)
    requires i < |s.clients| && j < |s.clients| && s.clients[i].active && s.clients[j].active
    ensures Refresh(Extend(s, i, bytes), j) == Extend(Refresh(s, j), i, bytes)
  {
    hide Conversations, Ids;
    var c := s.clients[j];
    ChangeExtends(s, i, j, c.(contacts := Ids(Conversations(s.log, c.userId))), bytes);
  }

  lemma OpenChatExtends(s: Server, i: nat, j: nat, partner: int, bytes: string)
    requires i < |s.clients| && j < |s.clients| && s.clients[i].active && s.clients[j].active
    ensures OpenChat(Extend(s, i, bytes), j, partner) == Extend(OpenChat(s, j, partner), i, bytes)
  {
    hide FindId;
    ChangeExtends(s, i, j, s.clients[j].(mode := Talk, partner := partner), bytes);
  }

  lemma EnterExtends(s: Server, i: nat, j: nat, id: int, bytes: string)
    requires i < |s.clients| && j < |s.clients| && s.clients[i].active && s.clients[j].active
    ensures Enter(Extend(s, i, bytes), j, id) == Extend(Enter(s, j, id), i, bytes)
  {
    hide Refresh;
    var c := s.clients[j].(userId := id, loggedIn := true, mode := Menu);
    ChangeExtends(s, i, j, c, bytes);
    RefreshExtends(SetClient(s, j, c), i, j, bytes);
  }

  /** Back to the menu from a chat or from the admin page. */
  lemma LeaveExtends(s: Server, i: nat, j: nat, c: Client, bytes: string)
    requires i < |s.clients| && j < |s.clients| && s.clients[i].active && s.clients[j].active && c.active
    ensures Refresh(SetClient(Extend(s, i, bytes), j, Grown(c, i == j, bytes)), j)
         == Extend(Refresh(SetClient(s, j, c), j), i, bytes)
  {
    hide Refresh;
    ChangeExtends(s, i, j, c, bytes);
    RefreshExtends(SetClient(s, j, c), i, j, bytes);
  }

  /** Processing a line of client j does not look at the bytes that wait behind it, or that any other
      client i has sent. */
  lemma LineExtends(s: Server, i: nat, j: nat, raw: string, now: int, bytes: string)
    requires Live(s, i) && Live(s, j)
    ensures var (r, ok) := ProcessLine(s, j, raw, now);
            ProcessLine(Extend(s, i, bytes), j, raw, now) == (Extend(r, i, bytes), ok)
  {
    hide ProcessLogin, ProcessMenu, ProcessChat, ProcessAdmin, Sanitize;
    var line := Sanitize(raw);
    match s.clients[j].mode
    case Login => LoginExtends(s, i, j, line, bytes);
    case Menu => MenuExtends(s, i, j, line, bytes);
    case Talk => TalkExtends(s, i, j, line, now, bytes);
    case Admin => AdminExtends(s, i, j, line, bytes);
  }

  lemma LoginExtends(s: Server, i: nat, j: nat, line: string, bytes: string)
    requires Live(s, i) && Live(s, j)
    ensures var (r, ok) := ProcessLogin(s, j, line);
            ProcessLogin(Extend(s, i, bytes), j, line) == (Extend(r, i, bytes), ok)
  {
    hide Inv, FindClient, Conversations, Ids, Sanitize, SaveUsers, FindName, MaxId, Enter, Disconnect;
    var k := FindName(s.users, Sanitize(line));
    DisconnectExtends(s, i, j, bytes);
    if k >= 0 {
      FindClientSame(s.clients, i, Extended(s.clients[i], bytes), s.users[k].id);
      EnterExtends(s, i, j, s.users[k].id, bytes);
    } else {
      var users := s.users + [User(MaxId(s.users) + 1, Sanitize(line), 1, 0)];
      EnterExtends(s.(users := users, file := SaveUsers(users)), i, j, MaxId(s.users) + 1, bytes);
    }
  }

  lemma MenuExtends(s: Server, i: nat, j: nat, line: string, bytes: string)
    requires Live(s, i) && Live(s, j)
    ensures var (r, ok) := ProcessMenu(s, j, line);
            ProcessMenu(Extend(s, i, bytes), j, line) == (Extend(r, i, bytes), ok)
  {
    hide Inv, Conversations, Ids, ReadInt, FindId, FindName, Disconnect, Refresh, OpenChat;
    var c := s.clients[j];
    DisconnectExtends(s, i, j, bytes);
    RefreshExtends(s, i, j, bytes);
    ChangeExtends(s, i, j, c.(mode := Mode.Admin), bytes);
    if |line| >= 2 && FindName(s.users, line[2..]) >= 0 {
      OpenChatExtends(s, i, j, s.users[FindName(s.users, line[2..])].id, bytes);
    }
    match ReadInt(line)
    case None =>
    case Some((n, _)) =>
      if 1 <= n <= |c.contacts| {
        OpenChatExtends(s, i, j, c.contacts[n - 1], bytes);
      }
  }

  lemma TalkExtends(s: Server, i: nat, j: nat, line: string, now: int, bytes: string)
    requires Live(s, i) && Live(s, j)
    ensures var (r, ok) := ProcessChat(s, j, line, now);
            ProcessChat(Extend(s, i, bytes), j, line, now) == (Extend(r, i, bytes), ok)
  {
    hide Inv, Conversations, Ids, Append, FindId, Refresh;
    LeaveExtends(s, i, j, s.clients[j].(mode := Menu, partner := -1), bytes);
  }

  lemma AdminExtends(s: Server, i: nat, j: nat, line: string, bytes: string)
    requires Live(s, i) && Live(s, j) && s.clients[j].mode == Mode.Admin
    ensures var (r, ok) := ProcessAdmin(s, j, line);
            ProcessAdmin(Extend(s, i, bytes), j, line) == (Extend(r, i, bytes), ok)
  {
    hide Inv, Conversations, Ids, ReadInt, RemoveUser, SaveUsers, Refresh;
    LeaveExtends(s, i, j, s.clients[j].(mode := Menu), bytes);
    if line != "" && ReadInt(line[1..]).Some? {
      var n := ReadInt(line[1..]).value.0;
      if 1 <= n <= |s.users| && s.users[n - 1].admin == 0 {
        RemoveExtends(s, i, n - 1, bytes);
      }
    }
  }

  lemma RemoveExtends(s: Server, i: nat, k: nat, bytes: string)
    requires Live(s, i) && k < |s.users| && s.users[k].admin == 0
    ensures RemoveUser(Extend(s, i, bytes), k) == Extend(RemoveUser(s, k), i, bytes)
  {
    hide Inv, SaveUsers;
    var e := Extended(s.clients[i], bytes);
    FindClientSame(s.clients, i, e, s.users[k].id);
    var t := FindClient(s.clients, s.users[k].id);
    if t == i {
      assert s.clients[i := e][i := FREE] == s.clients[i := FREE];
    } else if t >= 0 {
      assert s.clients[i := e][t := FREE] == s.clients[t := FREE][i := e];
    }
  }

  /** More fuel than bytes changes nothing. */
  lemma {:induction false} EnoughFuel(s: Server, i: nat, now: int, fuel: nat, more: nat)
    requires Live(s, i) && |s.clients[i].input| <= fuel && |s.clients[i].input| <= more
    ensures Drain(s, i, now, fuel) == Drain(s, i, now, more)
    decreases fuel
  {
    hide Inv, ProcessLine, SameLines, Break;
    var c := s.clients[i];
    BreakBound(c.input);
    if fuel > 0 && more > 0 && Break(c.input) < |c.input| {
      CutLineSame(c);
      CutKeeps(s, i);
      var t := SetClient(s, i, CutLine(c));
      ProcessLineOk(t, i, c.input[..Break(c.input)], now);
      var (r, ok) := ProcessLine(t, i, c.input[..Break(c.input)], now);
      if ok {
        EnoughFuel(r, i, now, fuel - 1, more - 1);
      }
    }
  }

  lemma CutExtends(s: Server, i: nat, bytes: string)
    requires Live(s, i) && Break(s.clients[i].input) < |s.clients[i].input|
    ensures var c := s.clients[i];
            && Break(Extended(c, bytes).input) == Break(c.input) < |Extended(c, bytes).input|
            && CutLine(Extended(c, bytes)) == Extended(CutLine(c), bytes)
            && Extended(c, bytes).input[..Break(c.input)] == c.input[..Break(c.input)]
            && SetClient(Extend(s, i, bytes), i, CutLine(Extended(c, bytes)))
                 == Extend(SetClient(s, i, CutLine(c)), i, bytes)
  {
    hide Inv;
    var c := s.clients[i];
    var k := Break(c.input);
    BreakOf(c.input + bytes, k);
    assert (c.input + bytes)[k + 1..] == c.input[k + 1..] + bytes && (c.input + bytes)[..k] == c.input[..k];
    ChangeExtends(s, i, i, CutLine(c), bytes);
  }

  /** All the fuel that draining client i may need. */
  function Need(s: Server, i: nat): nat {
    |ClientAt(s, i).input|
  }

  /** Draining, adding bytes and draining again is adding the bytes and draining once. */
  lemma {:induction false} DrainTwice(s: Server, i: nat, now: int, fuel: nat, bytes: string)
    requires Live(s, i) && |s.clients[i].input| <= fuel
    ensures var r := Extend(Drain(s, i, now, fuel), i, bytes);
            Drain(r, i, now, Need(r, i)) == Drain(Extend(s, i, bytes), i, now, fuel + |bytes|)
    decreases fuel
  {
    hide Inv, ProcessLine, SameLines, Break, SetClient, Extend;
    var c := s.clients[i];
    BreakBound(c.input);
    ExtendLive(s, i, bytes);
    if fuel > 0 && Break(c.input) < |c.input| {
      CutLineSame(c);
      CutKeeps(s, i);
      CutExtends(s, i, bytes);
      var t, line := SetClient(s, i, CutLine(c)), c.input[..Break(c.input)];
      SetGet(s, i, CutLine(c));
      ProcessLineOk(t, i, line, now);
      LineExtends(t, i, i, line, now, bytes);
      var (r, ok) := ProcessLine(t, i, line, now);
      if ok {
        DrainTwice(r, i, now, fuel - 1, bytes);
      } else {
        ExtendGone(r, i, bytes);
      }
    } else {
      EnoughFuel(Extend(s, i, bytes), i, now, |c.input| + |bytes|, fuel + |bytes|);
    }
  }

  lemma SetGet(s: Server, i: nat, c: Client)
    requires i < |s.clients|
    ensures SetClient(s, i, c).clients[i] == ClientAt(SetClient(s, i, c), i) == c
  {}

  lemma ExtendGone(s: Server, i: nat, bytes: string)
    requires i < |s.clients| && !s.clients[i].active
    ensures Extend(s, i, bytes) == s
  {}

  lemma ExtendLive(s: Server, i: nat, bytes: string)
    requires Live(s, i)
    ensures Live(Extend(s, i, bytes), i) && Extend(s, i, bytes).clients[i] == Extended(s.clients[i], bytes)
  {
    hide UsersOk, OnceEach;
    ClientChanges(s, i, Extended(s.clients[i], bytes));
  }

  function Concat(chunks: seq<string>): string {
    if chunks == [] then "" else Concat(chunks[..|chunks| - 1]) + chunks[|chunks| - 1]
  }

  /** The chunks of a client arriving one after the other. */
  function FeedAll(s: Server, i: nat, chunks: seq<string>, now: int): Server {
    if chunks == [] then s else Feed(FeedAll(s, i, chunks[..|chunks| - 1], now), i, chunks[|chunks| - 1], now)
  }

  /** All the bytes arriving at once, in a buffer without bounds. */
  function Pour(s: Server, i: nat, bytes: string, now: int): Server {
    var t := Extend(s, i, bytes);
    if ClientAt(t, i).active then Drain(t, i, now, Need(t, i)) else t
  }

  predicate Chunks(chunks: seq<string>) {
    forall k :: 0 <= k < |chunks| ==> |chunks[k]| <= CHUNK_SIZE
  }

  /** The chunk is too much for the buffer of a client that is still there. */
  predicate TooMuch(s: Server, i: nat, chunk: string) {
    ClientAt(s, i).active && Overflows(ClientAt(s, i), chunk)
  }

  /** Cut like this, some of the client's bytes are thrown away. */
  predicate Loses(s: Server, i: nat, chunks: seq<string>, now: int)
    decreases |chunks|
  {
    chunks != [] &&
    var before, chunk := chunks[..|chunks| - 1], chunks[|chunks| - 1];
    Loses(s, i, before, now) || TooMuch(FeedAll(s, i, before, now), i, chunk)
  }

  lemma FeedIsPour(s: Server, i: nat, chunk: string, now: int)
    requires i < |s.clients| && !TooMuch(s, i, chunk)
    ensures Feed(s, i, chunk, now) == Pour(s, i, chunk, now)
  {
    hide Drain;
  }

  lemma PourMore(s: Server, i: nat, bytes: string, more: string, now: int)
    requires Live(s, i) && Break(s.clients[i].input) == |s.clients[i].input|
    ensures Pour(Pour(s, i, bytes, now), i, more, now) == Pour(s, i, bytes + more, now)
  {
    hide Inv, Drain, ProcessLine, SameLines, Break;
    var t := Extend(s, i, bytes);
    ExtendLive(s, i, bytes);
    ExtendLive(s, i, bytes + more);
    assert s.clients[i].input + bytes + more == s.clients[i].input + (bytes + more);
    assert s.clients[i].fed + bytes + more == s.clients[i].fed + (bytes + more);
    ExtendTwice(s, i, bytes, more);
    DrainOk(t, i, now, Need(t, i));
    DrainTwice(t, i, now, Need(t, i), more);
    ExtendLive(t, i, more);
    var r := Extend(Drain(t, i, now, Need(t, i)), i, more);
    GoneStays(r, i, now, Need(r, i));
    assert Need(Extend(t, i, more), i) == Need(t, i) + |more|;
  }

  lemma GoneStays(s: Server, i: nat, now: int, fuel: nat)
    ensures !ClientAt(s, i).active ==> Drain(s, i, now, fuel) == s
  {}

  lemma ExtendTwice(s: Server, i: nat, bytes: string, more: string)
    requires i < |s.clients| && s.clients[i].active
    ensures Extend(Extend(s, i, bytes), i, more) == Extend(s, i, bytes + more)
  {
    var c := s.clients[i];
    assert Extended(Extended(c, bytes), more) == Extended(c, bytes + more) by {
      assert c.input + bytes + more == c.input + (bytes + more) && c.fed + bytes + more == c.fed + (bytes + more);
    }
    assert s.clients[i := Extended(c, bytes)][i := Extended(c, bytes + more)]
         == s.clients[i := Extended(c, bytes + more)];
  }

  /** What the server makes of a client's chunks is what it would make of all their bytes at once, as
      long as none is thrown away. */
  lemma {:induction false} FeedAllPours(s: Server, i: nat, chunks: seq<string>, now: int)
    requires AllInv(s) && Live(s, i) && !Loses(s, i, chunks, now)
    ensures FeedAll(s, i, chunks, now) == Pour(s, i, Concat(chunks), now)
    decreases |chunks|
  {
    hide Inv, Drain, ProcessLine, SameLines, Break, Long, Feed, Pour, TooMuch;
    assert BytesOk(s.clients[i]);
    if chunks == [] {
      PourNothing(s, i, now);
    } else {
      var before, chunk := chunks[..|chunks| - 1], chunks[|chunks| - 1];
      FeedAllPours(s, i, before, now);
      PourSize(s, i, Concat(before), now);
      FeedIsPour(FeedAll(s, i, before, now), i, chunk, now);
      PourMore(s, i, Concat(before), chunk, now);
    }
  }

  lemma PourSize(s: Server, i: nat, bytes: string, now: int)
    requires Live(s, i)
    ensures |Pour(s, i, bytes, now).clients| == |s.clients|
  {
    hide Inv, Drain, ProcessLine, SameLines, Break;
    ExtendLive(s, i, bytes);
    DrainOk(Extend(s, i, bytes), i, now, Need(Extend(s, i, bytes), i));
  }

  /** Afterwards the buffer holds the tail of what it held followed by the bytes. */
  lemma PourTail(s: Server, i: nat, bytes: string, now: int)
    requires Live(s, i)
    ensures var c := ClientAt(Pour(s, i, bytes, now), i);
            c.active ==> c.input == TailOf(s.clients[i].input + bytes)
  {
    hide Inv, Drain, ProcessLine, LinesOf, TailOf, Break;
    var t := Extend(s, i, bytes);
    ExtendLive(s, i, bytes);
    DrainOk(t, i, now, Need(t, i));
    var r := Drain(t, i, now, Need(t, i));
    GoneIsFree(r, i);
    if r.clients[i].active {
      ChatFraming.NoLines(r.clients[i].input);
    }
  }

  /** A client that is there after its bytes was there after the first of them. */
  lemma PourStays(s: Server, i: nat, bytes: string, p: nat, now: int)
    requires Live(s, i) && Break(s.clients[i].input) == |s.clients[i].input| && p <= |bytes|
    requires ClientAt(Pour(s, i, bytes, now), i).active
    ensures ClientAt(Pour(s, i, bytes[..p], now), i).active
  {
    hide Inv, Drain, ProcessLine, SameLines, Break;
    assert bytes[..p] + bytes[p..] == bytes;
    PourMore(s, i, bytes[..p], bytes[p..], now);
  }

  lemma PourNothing(s: Server, i: nat, now: int)
    requires Live(s, i) && Break(s.clients[i].input) == |s.clients[i].input|
    ensures Pour(s, i, "", now) == s
  {
    hide Inv, ProcessLine, Break;
    var c := s.clients[i];
    assert c.input + "" == c.input && c.fed + "" == c.fed;
    assert s.clients[i := c] == s.clients;
  }

  /** How many of the coming bytes it takes for 3072 from place `q` on. */
  function Due(c: Client, q: nat): nat {
    if q + INPUT_SIZE - CHUNK_SIZE <= |c.input| then 0 else q + INPUT_SIZE - CHUNK_SIZE - |c.input|
  }

  /** In what the client's buffer holds followed by the bytes, at `q` begins a line that is not ended
      within 3072 bytes, 1024 more follow those, and no line before has disconnected the client. */
  ghost predicate LossAt(s: Server, i: nat, bytes: string, now: int, q: nat) {
    var c := ClientAt(s, i);
    LongAt(c.input + bytes, q) && ClientAt(Pour(s, i, bytes[..Due(c, q)], now), i).active
  }

  ghost predicate Lossy(s: Server, i: nat, bytes: string, now: int) {
    exists q: nat :: LossAt(s, i, bytes, now, q)
  }

  lemma LossMore(s: Server, i: nat, bytes: string, more: string, now: int)
    ensures Lossy(s, i, bytes, now) ==> Lossy(s, i, bytes + more, now)
  {
    hide Pour;
    if Lossy(s, i, bytes, now) {
      var q: nat :| LossAt(s, i, bytes, now, q);
      var c := ClientAt(s, i);
      assert c.input + (bytes + more) == c.input + bytes + more;
      assert (bytes + more)[..Due(c, q)] == bytes[..Due(c, q)];
      assert LossAt(s, i, bytes + more, now, q);
    }
  }

  /** Bytes are thrown away only where a long line is. */
  lemma {:induction false} LossIsLong(s: Server, i: nat, chunks: seq<string>, now: int)
    requires AllInv(s) && Live(s, i) && Chunks(chunks) && Loses(s, i, chunks, now)
    ensures Lossy(s, i, Concat(chunks), now)
    decreases |chunks|
  {
    hide Inv, Drain, ProcessLine, LinesOf, TailOf, Break, Long, Feed, Pour, Lossy;
    assert BytesOk(s.clients[i]);
    var before, chunk := chunks[..|chunks| - 1], chunks[|chunks| - 1];
    if Loses(s, i, before, now) {
      LossIsLong(s, i, before, now);
      LossMore(s, i, Concat(before), chunk, now);
    } else {
      FeedAllPours(s, i, before, now);
      PourTail(s, i, Concat(before), now);
      LossHere(s, i, Concat(before), chunk, now);
    }
  }

  lemma LossHere(s: Server, i: nat, bytes: string, chunk: string, now: int)
    requires Live(s, i) && Break(s.clients[i].input) == |s.clients[i].input| && |chunk| <= CHUNK_SIZE
    requires ClientAt(Pour(s, i, bytes, now), i).active
    requires |TailOf(s.clients[i].input + bytes)| + |chunk| >= INPUT_SIZE
    ensures Lossy(s, i, bytes + chunk, now)
  {
    hide Inv, Pour, TailOf, Break;
    var c := s.clients[i];
    var u := c.input + bytes;
    TailPlace(u);
    var q := |u| - |TailOf(u)|;
    assert forall j :: 0 <= j < |TailOf(u)| ==> TailOf(u)[j] == u[q + j];
    assert c.input + (bytes + chunk) == u + chunk;
    assert LongAt(c.input + (bytes + chunk), q);
    PourStays(s, i, bytes, Due(c, q), now);
    assert (bytes + chunk)[..Due(c, q)] == bytes[..Due(c, q)];
    assert LossAt(s, i, bytes + chunk, now, q);
  }

  /** A stream cut into single bytes. */
  function Singles(bytes: string): (chunks: seq<string>)
    ensures Chunks(chunks) && Concat(chunks) == bytes
  {
    if bytes == "" then []
    else
      var last := |bytes| - 1;
      var before := Singles(bytes[..last]);
      assert (before + [[bytes[last]]])[..|before|] == before && bytes[..last] + [bytes[last]] == bytes;
      before + [[bytes[last]]]
  }

  lemma {:induction false} ConcatBoth(a: seq<string>, b: seq<string>)
    ensures Concat(a + b) == Concat(a) + Concat(b)
    decreases |b|
  {
    if b == [] {
      assert a + b == a && Concat(a) + "" == Concat(a);
    } else {
      var last := |b| - 1;
      ConcatBoth(a, b[..last]);
      assert (a + b)[..|a + b| - 1] == a + b[..last];
      assert Concat(a) + Concat(b[..last]) + b[last] == Concat(a) + (Concat(b[..last]) + b[last]);
    }
  }

  lemma {:induction false} LosesMore(s: Server, i: nat, a: seq<string>, b: seq<string>, now: int)
    requires Loses(s, i, a, now)
    ensures Loses(s, i, a + b, now)
    decreases |b|
  {
    hide TooMuch, FeedAll;
    if b == [] {
      assert a + b == a;
    } else {
      var last := |b| - 1;
      LosesMore(s, i, a, b[..last], now);
      assert (a + b)[..|a + b| - 1] == a + b[..last];
    }
  }

  /** Single bytes up to 3072 of the long line, and then a chunk that fills the buffer. */
  lemma LongIsLost(s: Server, i: nat, bytes: string, now: int, q: nat) returns (chunks: seq<string>)
    requires AllInv(s) && Live(s, i) && LossAt(s, i, bytes, now, q)
    ensures Chunks(chunks) && Concat(chunks) == bytes && Loses(s, i, chunks, now)
  {
    hide Inv, Pour, TailOf, FeedAll, Long, Break;
    var c := s.clients[i];
    assert BytesOk(c);
    var p, e := Due(c, q), q + INPUT_SIZE - |c.input|;
    var first, chunk, rest := Singles(bytes[..p]), bytes[p..e], Singles(bytes[e..]);
    chunks := first + [chunk] + rest;
    ConcatBoth(first + [chunk], rest);
    assert (first + [chunk])[..|first|] == first;
    assert bytes[..p] + bytes[p..e] + bytes[e..] == bytes;
    if Loses(s, i, first, now) {
      LosesMore(s, i, first, [chunk], now);
    } else {
      FeedAllPours(s, i, first, now);
      PourTail(s, i, bytes[..p], now);
      FilledUp(c, bytes, q);
      assert TooMuch(FeedAll(s, i, first, now), i, chunk);
    }
    LosesMore(s, i, first + [chunk], rest, now);
  }

  lemma FilledUp(c: Client, bytes: string, q: nat)
    requires Break(c.input) == |c.input| < INPUT_SIZE && LongAt(c.input + bytes, q)
    ensures Due(c, q) <= q + INPUT_SIZE - |c.input| <= Due(c, q) + CHUNK_SIZE
    ensures |TailOf(c.input + bytes[..Due(c, q)])| == |c.input| + Due(c, q) - q
  {
    hide TailOf;
    var p := Due(c, q);
    var u := c.input + bytes;
    assert c.input + bytes[..p] == u[..|c.input| + p];
    assert forall j :: 0 <= j < |c.input| ==> u[j] == c.input[j];
    assert forall j :: 0 <= j < |c.input| ==> u[j] != '\n';
    TailFrom(c.input + bytes[..p], q);
  }

  /** Exactly when the overflow branch can be taken: some way of cutting the bytes into chunks of at
      most 1024 loses some of them, if and only if they make a line that is not ended within 3072
      bytes and that 1024 more bytes follow. */
  lemma LostExactly(s: Server, i: nat, bytes: string, now: int)
    requires Reachable(s) && i < |s.clients| && s.clients[i].active
    ensures (exists chunks: seq<string> :: Chunks(chunks) && Concat(chunks) == bytes && Loses(s, i, chunks, now))
       <==> Lossy(s, i, bytes, now)
  {
    hide Reachable, Inv, BytesOk, Loses, LossAt;
    ReachableInv(s);
    forall chunks: seq<string> | Chunks(chunks) && Concat(chunks) == bytes && Loses(s, i, chunks, now)
      ensures Lossy(s, i, bytes, now)
    {
      LossIsLong(s, i, chunks, now);
    }
    if Lossy(s, i, bytes, now) {
      var q: nat :| LossAt(s, i, bytes, now, q);
      var chunks := LongIsLost(s, i, bytes, now, q);
    }
  }

  /** Lines of at most 3071 bytes are never lost. */
  lemma ShortIsKept(s: Server, i: nat, bytes: string, now: int)
    requires i < |s.clients|
    requires var u := s.clients[i].input + bytes;
             |TailOf(u)| <= 3071 && forall j :: 0 <= j < |LinesOf(u)| ==> |LinesOf(u)[j]| <= 3071
    ensures !Lossy(s, i, bytes, now)
  {
    hide LinesOf, TailOf, Pour;
    ShortLines(s.clients[i].input + bytes);
  }

  /** Otherwise, however the bytes are cut into chunks of at most 1024, the whole server ends up in the
      same state: the one that a buffer without bounds would give. */
  lemma ChunkingIrrelevant(s: Server, i: nat, chunks: seq<string>, others: seq<string>, now: int)
    requires Reachable(s) && i < |s.clients| && s.clients[i].active
    requires Chunks(chunks) && Chunks(others) && Concat(chunks) == Concat(others)
    requires !Lossy(s, i, Concat(chunks), now)
    ensures FeedAll(s, i, chunks, now) == FeedAll(s, i, others, now) == Pour(s, i, Concat(chunks), now)
  {
    hide Reachable, Inv, BytesOk, FeedAll, Pour, LossAt, Lossy;
    ReachableInv(s);
    if Loses(s, i, chunks, now) {
      LossIsLong(s, i, chunks, now);
    }
    if Loses(s, i, others, now) {
      LossIsLong(s, i, others, now);
    }
    FeedAllPours(s, i, chunks, now);
    FeedAllPours(s, i, others, now);
  }

  /** Bytes without a line break only fill the buffer. */
  lemma PlainFills(s: Server, i: nat, bytes: string, now: int)
    requires i < |s.clients| && s.clients[i].active
    requires Break(s.clients[i].input + bytes) == |s.clients[i].input| + |bytes| < INPUT_SIZE
    ensures Feed(s, i, bytes, now) == Extend(s, i, bytes)
  {
    hide ProcessLine;
  }

  // ------------------------------------------------------------ other events in between

  lemma DrainKeepsGone(s: Server, i: nat, j: nat, now: int, fuel: nat, bytes: string)
    requires Live(s, j) && i < |s.clients| && i != j && !s.clients[i].active && |s.clients[j].input| <= fuel
    ensures Extend(s, i, bytes) == s && Extend(Drain(s, j, now, fuel), i, bytes) == Drain(s, j, now, fuel)
  {
    hide Inv, Drain, SameLines, Break;
    DrainOk(s, j, now, fuel);
  }

  /** What client j does to the server does not depend on the bytes that client i has sent. */
  lemma {:induction false} DrainOther(s: Server, i: nat, j: nat, now: int, fuel: nat, bytes: string)
    requires Live(s, j) && i < |s.clients| && i != j && |s.clients[j].input| <= fuel
    ensures Drain(Extend(s, i, bytes), j, now, fuel) == Extend(Drain(s, j, now, fuel), i, bytes)
    decreases fuel
  {
    hide Inv, ProcessLine, SameLines, Break, SetClient, Extend;
    if !s.clients[i].active {
      DrainKeepsGone(s, i, j, now, fuel, bytes);
    } else {
      var c := s.clients[j];
      BreakBound(c.input);
      ExtendLive(s, i, bytes);
      ChangeExtends(s, i, j, c, bytes);
      if fuel > 0 && Break(c.input) < |c.input| {
        CutLineSame(c);
        CutKeeps(s, j);
        ChangeExtends(s, i, j, CutLine(c), bytes);
        var t, line := SetClient(s, j, CutLine(c)), c.input[..Break(c.input)];
        SetGet(s, j, CutLine(c));
        SetElse(s, j, CutLine(c), i);
        ProcessLineOk(t, j, line, now);
        LineExtends(t, i, j, line, now, bytes);
        var (r, ok) := ProcessLine(t, j, line, now);
        if ok {
          DrainOther(r, i, j, now, fuel - 1, bytes);
        }
      }
    }
  }

  lemma SetElse(s: Server, j: nat, c: Client, i: nat)
    requires i < |s.clients| && i != j
    ensures |SetClient(s, j, c).clients| == |s.clients| && SetClient(s, j, c).clients[i] == s.clients[i]
  {}

  lemma FeedOther(s: Server, i: nat, j: nat, chunk: string, now: int, bytes: string)
    requires Inv(s) && i < |s.clients| && i != j && s.clients[i].active
    ensures Feed(Extend(s, i, bytes), j, chunk, now) == Extend(Feed(s, j, chunk, now), i, bytes)
  {
    hide Inv, Drain, SetClient, Extend;
    ExtendLive(s, i, bytes);
    if j < |s.clients| && s.clients[j].active {
      var c := s.clients[j];
      var d := c.(input := if Overflows(c, chunk) then "" else c.input + chunk, fed := c.fed + chunk);
      ChangeExtends(s, i, j, c, bytes);
      ChangeExtends(s, i, j, d, bytes);
      FillKeeps(s, j, d);
      SetGet(s, j, d);
      SetElse(s, j, d, i);
      if !Overflows(c, chunk) {
        DrainOther(SetClient(s, j, d), i, j, now, |c.input| + |chunk|, bytes);
      }
    } else {
      ExtendElse(s, i, j, bytes);
    }
  }

  lemma ExtendElse(s: Server, i: nat, j: nat, bytes: string)
    requires i < |s.clients| && i != j
    ensures |Extend(s, i, bytes).clients| == |s.clients| && ClientAt(Extend(s, i, bytes), j) == ClientAt(s, j)
  {}

  /** An event of the server that is not about client i. */
  predicate NotAbout(e: Event, i: nat) {
    match e
    case Accept => true
    case Chunk(j, _, _) => j != i
    case Hangup(j) => j != i
  }

  lemma AcceptOther(s: Server, i: nat, bytes: string)
    requires i < |s.clients| && s.clients[i].active
    ensures Step(Extend(s, i, bytes), Accept) == Extend(Step(s, Accept), i, bytes)
  {
    var e := Extended(s.clients[i], bytes);
    var cs := s.clients[i := e];
    assert forall j :: 0 <= j < |cs| ==> cs[j].active == s.clients[j].active;
    var k := FindFree(s.clients);
    assert FindFree(cs) == k;
    if k >= 0 {
      assert s.clients[i := e][k := FRESH] == s.clients[k := FRESH][i := e];
    }
  }

  lemma StepOther(s: Server, i: nat, e: Event, bytes: string)
    requires AllInv(s) && i < |s.clients| && s.clients[i].active && NotAbout(e, i)
    ensures Step(Extend(s, i, bytes), e) == Extend(Step(s, e), i, bytes)
  {
    hide Inv, BytesOk, Feed, Extend, Disconnect;
    match e
    case Accept => AcceptOther(s, i, bytes);
    case Chunk(j, chunk, now) => FeedOther(s, i, j, chunk, now, bytes);
    case Hangup(j) =>
      if j < |s.clients| && s.clients[j].active {
        DisconnectExtends(s, i, j, bytes);
      } else {
        ExtendElse(s, i, j, bytes);
        NobodyThere(s, j);
        NobodyThere(Extend(s, i, bytes), j);
      }
  }

  lemma NobodyThere(s: Server, j: nat)
    requires !ClientAt(s, j).active
    ensures Disconnect(s, j) == s
  {}

  /** None of the events is about client i, and it stays connected meanwhile. */
  predicate Waits(s: Server, i: nat, events: seq<Event>)
    decreases |events|
  {
    && ClientAt(Run(s, events), i).active
    && (events != [] ==> NotAbout(events[|events| - 1], i) && Waits(s, i, events[..|events| - 1]))
  }

  lemma {:induction false} RunOther(s: Server, i: nat, events: seq<Event>, bytes: string)
    requires AllInv(s) && Waits(s, i, events)
    ensures Run(Extend(s, i, bytes), events) == Extend(Run(s, events), i, bytes) && AllInv(Run(s, events))
    decreases |events|
  {
    hide AllInv, Step, Extend;
    if events != [] {
      var before, e := events[..|events| - 1], events[|events| - 1];
      RunOther(s, i, before, bytes);
      WaitsActive(s, i, before);
      StepOther(Run(s, before), i, e, bytes);
      StepOk(Run(s, before), e);
    }
  }

  lemma WaitsActive(s: Server, i: nat, events: seq<Event>)
    requires Waits(s, i, events)
    ensures i < |Run(s, events).clients| && Run(s, events).clients[i].active
  {}

  /** Nor does it matter when the unfinished beginning of a line arrives: with any events of other
      clients, of new ones and of ones that leave between it and the rest of the bytes, the server
      ends up as if all the bytes had come together with the rest. */
  lemma WaitingIsHarmless(s: Server, i: nat, piece: string, events: seq<Event>, rest: string, before: int, now: int)
    requires Reachable(s) && i < |s.clients| && s.clients[i].active && Waits(s, i, events)
    requires Break(s.clients[i].input + piece) == |s.clients[i].input| + |piece| < INPUT_SIZE
    requires !TooMuch(Run(Feed(s, i, piece, before), events), i, rest)
    ensures Feed(Run(Feed(s, i, piece, before), events), i, rest, now) == Pour(Run(s, events), i, piece + rest, now)
  {
    hide Reachable, AllInv, Run, Feed, Extend, Drain;
    ReachableInv(s);
    PlainFills(s, i, piece, before);
    RunOther(s, i, events, piece);
    WaitsActive(s, i, events);
    var r := Run(s, events);
    ExtendSize(r, i, piece);
    FeedIsPour(Extend(r, i, piece), i, rest, now);
    ExtendTwice(r, i, piece, rest);
  }

  lemma ExtendSize(s: Server, i: nat, bytes: string)
    ensures |Extend(s, i, bytes).clients| == |s.clients|
  {}

  // ------------------------------------------------------------ a line that is lost

  /** `n` letters. */
  function Letters(n: nat): (s: string)
    ensures |s| == n && Clean(s) && Break(s) == n
  {
    var s := seq(n, _ => 'x');
    NoBreak(s);
    s
  }

  lemma NoBreak(s: string)
    requires forall j :: 0 <= j < |s| ==> s[j] != '\n'
    ensures Break(s) == |s|
  {
    BreakOf(s, |s|);
  }

  /** An instance of the other half. A client that has just connected sends 3072 letters, a line break
      and 1023 letters: whether the line break comes alone or with what follows decides whether the
      line is seen or everything is thrown away. */
  lemma ChunkingMatters(s: Server, i: nat, now: int) returns (chunks: seq<string>, others: seq<string>)
    requires i < |s.clients| && s.clients[i] == FRESH
    ensures Chunks(chunks) && Chunks(others) && Concat(chunks) == Concat(others)
    ensures LinesOf(Concat(chunks)) == [Letters(3072)]
    ensures ClientAt(FeedAll(s, i, chunks, now), i).lines == []
    ensures ClientAt(FeedAll(s, i, others, now), i).lines == [Letters(3072)]
  {
    hide Feed, Break, Letters, ProcessLine;
    var x, y, n: string := Letters(1024), Letters(1023), "\n";
    var a, b, c := [x], [x, x], [x, x, x];
    chunks, others := c + [n + y], c + [n, y];
    var d := c + [n];
    assert c[..2] == b && b[..1] == a && a[..0] == [];
    assert chunks[..3] == c && others[..4] == d && d[..3] == c;
    ThreeLetters(x);
    assert Concat(a) == x && Concat(b) == x + x && Concat(c) == x + x + x;
    assert Concat(chunks) == x + x + x + (n + y) && Concat(d) == x + x + x + n && Concat(others) == x + x + x + n + y;
    assert x + x + x + (n + y) == x + x + x + n + y;
    OneLongLine(x, y);
    var s1 := Extend(s, i, x);
    var s2 := Extend(s1, i, x);
    var s3 := Extend(s2, i, x);
    Filling(s, i, x, now);
    assert FeedAll(s, i, c, now) == s3 by {
      assert FeedAll(s, i, a, now) == s1;
      assert FeedAll(s, i, b, now) == s2;
    }
    Overflowing(s3, i, n + y, now);
    BreakAlone(s3, i, y, now);
  }

  lemma ThreeLetters(x: string)
    requires x == Letters(1024)
    ensures x + x + x == Letters(3072)
  {}

  lemma OneLongLine(x: string, y: string)
    requires x == Letters(1024) && y == Letters(1023)
    ensures LinesOf(x + x + x + "\n" + y) == [Letters(3072)]
  {
    hide Letters;
    ThreeLetters(x);
    var s := Letters(3072) + "\n" + y;
    BreakOf(s, 3072);
    assert s[..3072] == Letters(3072) && s[3073..] == y;
    LinesStep(s, 3072);
    ChatFraming.NoLines(y);
  }

  /** Three chunks of letters fit. */
  lemma Filling(s: Server, i: nat, x: string, now: int)
    requires i < |s.clients| && s.clients[i] == FRESH && x == Letters(1024)
    ensures var s1 := Extend(s, i, x); var s2 := Extend(s1, i, x); var s3 := Extend(s2, i, x);
            && Feed(s, i, x, now) == s1 && Feed(s1, i, x, now) == s2 && Feed(s2, i, x, now) == s3
            && |s3.clients| == |s.clients| && s3.clients[i] == Extended(FRESH, Letters(3072))
  {
    hide Feed, Break;
    var s1 := Extend(s, i, x);
    var s2 := Extend(s1, i, x);
    NoBreak("" + x);
    PlainFills(s, i, x, now);
    NoBreak(x + x);
    assert s1.clients[i].input == "" + x == x && s1.clients[i].fed == x;
    PlainFills(s1, i, x, now);
    assert s2.clients[i].input == x + x && s2.clients[i].fed == x + x;
    NoBreak(x + x + x);
    PlainFills(s2, i, x, now);
    ThreeLetters(x);
    assert "" + Letters(3072) == Letters(3072);
  }

  lemma Overflowing(s: Server, i: nat, chunk: string, now: int)
    requires i < |s.clients| && s.clients[i] == Extended(FRESH, Letters(3072)) && |chunk| == 1024
    ensures ClientAt(Feed(s, i, chunk, now), i).lines == []
  {
    hide Letters;
  }

  lemma BreakAlone(s: Server, i: nat, y: string, now: int)
    requires i < |s.clients| && s.clients[i] == Extended(FRESH, Letters(3072)) && y == Letters(1023)
    ensures ClientAt(Feed(Feed(s, i, "\n", now), i, y, now), i).lines == [Letters(3072)]
  {
    hide Letters, Break, Feed, ProcessLine;
    var r := Feed(s, i, "\n", now);
    LongLine(s, i, now);
    NoBreak("" + y);
    PlainFills(r, i, y, now);
  }

  lemma LongLine(s: Server, i: nat, now: int)
    requires i < |s.clients| && s.clients[i] == Extended(FRESH, Letters(3072))
    ensures var r := Feed(s, i, "\n", now);
            && |r.clients| == |s.clients| && r.clients[i].active && r.clients[i].input == ""
            && r.clients[i].lines == [Letters(3072)]
  {
    hide Letters, Break, ProcessLine, Drain;
    var x := Letters(3072);
    var d := Extended(s.clients[i], "\n");
    assert "" + x == x && d.input == x + "\n";
    BreakOf(x + "\n", 3072);
    assert (x + "\n")[..3072] == x && (x + "\n")[3073..] == "";
    var e := CutLine(d);
    assert e.lines == [] + [x];
    var u := SetClient(s, i, d);
    var t := SetClient(u, i, e);
    LongNameStays(t, i, x, now);
    NoBreak("");
    DrainOneLine(u, i, now, 3073, t);
  }

  lemma DrainOneLine(u: Server, i: nat, now: int, fuel: nat, t: Server)
    requires fuel > 1 && i < |u.clients| && u.clients[i].active && Break(u.clients[i].input) < |u.clients[i].input|
    requires t == SetClient(u, i, CutLine(u.clients[i])) && Break(ClientAt(t, i).input) == |ClientAt(t, i).input|
    requires ProcessLine(t, i, u.clients[i].input[..Break(u.clients[i].input)], now) == (t, true)
    ensures Drain(u, i, now, fuel) == t
  {
    hide ProcessLine, Break;
    assert Drain(t, i, now, fuel - 1) == t;
  }

  lemma LongNameStays(s: Server, i: nat, line: string, now: int)
    requires ClientAt(s, i).mode == Login && Clean(line) && |line| >= USERNAME_SIZE
    ensures ProcessLine(s, i, line, now) == (s, true)
  {}

  // ------------------------------------------------------------ messages

  /** A line sent in a chat with an active partner is one more record of the log, cut at 1023 bytes;
      nothing else that process_chat does touches the log, and no message goes to oneself or to a
      removed account. */
  lemma MessageLogged(s: Server, i: nat, line: string, now: int)
    requires Reachable(s) && i < |s.clients| && s.clients[i].active && s.clients[i].mode == Talk
    requires Clean(line) && Int64(now)
    ensures var (r, _) := ProcessChat(s, i, line, now);
            var c := s.clients[i];
            if line != "q" && line != "" && ActiveUser(s.users, c.partner) then
              && LogRecords(r.log)
                   == LogRecords(s.log) + [Record(now, c.userId, c.partner, Cut(line, MESSAGE_SIZE - 1))]
              && c.userId != c.partner && ActiveUser(s.users, c.userId)
            else
              r.log == s.log
  {
    hide Reachable, BytesOk, LogRecords, Append, Stored, Conversations, Ids, UsersOk;
    ReachableInv(s);
    var c := s.clients[i];
    LoggedIn(s, i);
    if line != "q" && line != "" && ActiveUser(s.users, c.partner) {
      IdsFit(s, FindId(s.users, c.partner));
      IdsFit(s, FindId(s.users, c.userId));
      AppendedIsRead(s.log, now, c.userId, c.partner, line);
    }
  }

  lemma IdsFit(s: Server, k: nat)
    requires Inv(s) && k < |s.users|
    ensures Int32(s.users[k].id)
  {
    assert UserOk(s.users[k]);
  }
}
