/** What every line and every event does, spelled out: who is let in, what a session shows and changes,
    and that nothing else happens. */
module ChatSessions {
  import opened ChatText
  import opened ChatUsers
  import opened ChatLog
  import opened Chat
  import opened ChatTheorems
  import opened ChatFraming
  import opened ChatRuns

  // ------------------------------------------------------------ what stays

  /** Only client i differs. */
  predicate OnlyClient(s: Server, i: nat, r: Server) {
    && r.users == s.users && r.file == s.file && r.log == s.log
    && OthersSame(s, i, r)
  }

  predicate OthersSame(s: Server, i: nat, r: Server) {
    |r.clients| == |s.clients| && forall j :: 0 <= j < |s.clients| && j != i ==> r.clients[j] == s.clients[j]
  }

  /** The line disconnected its sender, and did nothing else. */
  predicate SentAway(s: Server, i: nat, r: (Server, bool)) {
    OnlyClient(s, i, r.0) && i < |s.clients| && r.0.clients[i] == FREE && !r.1
  }

  /** The client is in the menu as the user `id`, and its numbered list shows the user's conversations. */
  predicate InMenu(c: Client, d: Client, id: int, log: string) {
    && d.active && d.loggedIn && d.userId == id && d.mode == Menu && d.contacts == Ids(Conversations(log, id))
    && SameBytes(c, d)
  }

  predicate Somewhere(clients: seq<Client>, id: int) {
    exists j :: 0 <= j < |clients| && clients[j].active && clients[j].loggedIn && clients[j].userId == id
  }

  lemma FoundSomewhere(clients: seq<Client>, id: int)
    ensures Somewhere(clients, id) <==> FindClient(clients, id) >= 0
  {}

  lemma Linewise(s: Server, i: nat, raw: string, now: int)
    requires Reachable(s) && i < |s.clients| && s.clients[i].active
    ensures Inv(s) && Sanitize(Sanitize(raw)) == Sanitize(raw) && ClientAt(s, i) == s.clients[i]
    ensures ProcessLine(s, i, raw, now) ==
      match s.clients[i].mode
      case Login => ProcessLogin(s, i, Sanitize(raw))
      case Menu => ProcessMenu(s, i, Sanitize(raw))
      case Talk => ProcessChat(s, i, Sanitize(raw), now)
      case Admin => ProcessAdmin(s, i, Sanitize(raw))
  {
    hide Reachable, ProcessLogin, ProcessMenu, ProcessChat, ProcessAdmin;
    ReachableInv(s);
  }

  // ------------------------------------------------------------ login

  /** An active account that nobody uses: whoever gives its name is in. */
  lemma LoginKnown(s: Server, i: nat, raw: string, now: int, k: nat)
    requires Reachable(s) && i < |s.clients| && s.clients[i].active && s.clients[i].mode == Login
    requires k < |s.users| && s.users[k].name == Sanitize(raw) && 1 <= |s.users[k].name| <= 31
    requires s.users[k].active != 0 && !Somewhere(s.clients, s.users[k].id)
    ensures var (r, ok) := ProcessLine(s, i, raw, now);
            ok && OnlyClient(s, i, r) && InMenu(s.clients[i], r.clients[i], s.users[k].id, s.log)
  {
    hide Reachable, Inv, Sanitize, SaveUsers, Conversations, Ids, FindName;
    Linewise(s, i, raw, now);
    NameUnique(s, k);
    FoundSomewhere(s.clients, s.users[k].id);
  }

  lemma NameUnique(s: Server, k: nat)
    requires Inv(s) && k < |s.users|
    ensures FindName(s.users, s.users[k].name) == k
  {
    hide UserOk;
  }

  /** A name that nobody has is registered, as long as there is room: one more user, active, no
      administrator, with an id above all others; the file is saved, and the client is in. */
  lemma LoginUnknown(s: Server, i: nat, raw: string, now: int) returns (u: User)
    requires Reachable(s) && i < |s.clients| && s.clients[i].active && s.clients[i].mode == Login
    requires 1 <= |Sanitize(raw)| <= 31 && |s.users| < 1000
    requires forall k :: 0 <= k < |s.users| ==> s.users[k].name != Sanitize(raw)
    ensures u.name == Sanitize(raw) && u.active == 1 && u.admin == 0
    ensures 1 <= u.id && forall k :: 0 <= k < |s.users| ==> s.users[k].id < u.id
    ensures var (r, ok) := ProcessLine(s, i, raw, now);
            && ok && r.users == s.users + [u] && r.file == SaveUsers(r.users) && r.log == s.log
            && OthersSame(s, i, r) && InMenu(s.clients[i], r.clients[i], u.id, s.log)
  {
    hide Reachable, Inv, Sanitize, SaveUsers, Conversations, Ids, FindName, MaxId;
    Linewise(s, i, raw, now);
    u := User(MaxId(s.users) + 1, Sanitize(raw), 1, 0);
    assert FindName(s.users, u.name) < 0;
  }

  /** A removed account, an account in use, or a full table: the client is sent away. */
  lemma LoginRefused(s: Server, i: nat, raw: string, now: int)
    requires Reachable(s) && i < |s.clients| && s.clients[i].active && s.clients[i].mode == Login
    requires 1 <= |Sanitize(raw)| <= 31
    requires
      || (exists k :: 0 <= k < |s.users| && s.users[k].name == Sanitize(raw)
                      && (s.users[k].active == 0 || Somewhere(s.clients, s.users[k].id)))
      || (|s.users| >= 1000 && forall k :: 0 <= k < |s.users| ==> s.users[k].name != Sanitize(raw))
    ensures SentAway(s, i, ProcessLine(s, i, raw, now))
  {
    hide Reachable, Inv, Sanitize, SaveUsers, Enter, FindName, Somewhere;
    Linewise(s, i, raw, now);
    if k :| 0 <= k < |s.users| && s.users[k].name == Sanitize(raw)
            && (s.users[k].active == 0 || Somewhere(s.clients, s.users[k].id)) {
      NameUnique(s, k);
      FoundSomewhere(s.clients, s.users[k].id);
    } else {
      assert FindName(s.users, Sanitize(raw)) < 0;
    }
  }

  /** An empty or overlong name is asked for again. */
  lemma LoginIgnored(s: Server, i: nat, raw: string, now: int)
    requires Reachable(s) && i < |s.clients| && s.clients[i].active && s.clients[i].mode == Login
    requires Sanitize(raw) == "" || |Sanitize(raw)| > 31
    ensures ProcessLine(s, i, raw, now) == (s, true)
  {
    hide Reachable, Inv, Sanitize;
    Linewise(s, i, raw, now);
  }

  // ------------------------------------------------------------ the menu

  /** In a chat with `partner`. */
  predicate InChat(c: Client, d: Client, partner: int) {
    d == c.(mode := Talk, partner := partner)
  }

  predicate Known(users: seq<User>, id: int) {
    exists k :: 0 <= k < |users| && users[k].id == id
  }

  predicate Administrator(users: seq<User>, id: int) {
    exists k :: 0 <= k < |users| && users[k].id == id && users[k].admin != 0
  }

  lemma KnownFound(s: Server, id: int)
    requires Inv(s)
    ensures Known(s.users, id) <==> FindId(s.users, id) >= 0
    ensures Administrator(s.users, id) <==> IsAdmin(s.users, id)
  {
    hide UserOk, AdminThere, IdsLeft, SaveUsers;
    if Administrator(s.users, id) {
      var k :| 0 <= k < |s.users| && s.users[k].id == id && s.users[k].admin != 0;
      assert FindId(s.users, id) == k;
    }
  }

  /** Whom a menu line names: the user with the name, or the one at the place in the list. */
  function Named(s: Server, c: Client, line: string): Option<int> {
    if |line| >= 2 && line[..2] == "n " then
      var k := FindName(s.users, line[2..]);
      if k >= 0 then Some(s.users[k].id) else None
    else
      match ReadInt(line)
      case Some((n, "")) => if 1 <= n <= |c.contacts| then Some(c.contacts[n - 1]) else None
      case _ => None
  }

  lemma MenuQuits(s: Server, i: nat, raw: string, now: int)
    requires Reachable(s) && i < |s.clients| && s.clients[i].active && s.clients[i].mode == Menu && Sanitize(raw) == "q"
    ensures SentAway(s, i, ProcessLine(s, i, raw, now))
  {
    hide Reachable, Inv, Sanitize;
    Linewise(s, i, raw, now);
  }

  /** "r" shows the conversations as they are now. */
  lemma MenuRefreshes(s: Server, i: nat, raw: string, now: int)
    requires Reachable(s) && i < |s.clients| && s.clients[i].active && s.clients[i].mode == Menu && Sanitize(raw) == "r"
    ensures var (r, ok) := ProcessLine(s, i, raw, now);
            && ok && OnlyClient(s, i, r) && InMenu(s.clients[i], r.clients[i], s.clients[i].userId, s.log)
  {
    hide Reachable, Sanitize, Conversations, Ids, UsersOk;
    Linewise(s, i, raw, now);
    assert ClientOk(s.users, s.clients[i]);
  }

  /** "a" leads administrators, and nobody else, to the admin page. */
  lemma MenuToAdmin(s: Server, i: nat, raw: string, now: int)
    requires Reachable(s) && i < |s.clients| && s.clients[i].active && s.clients[i].mode == Menu && Sanitize(raw) == "a"
    ensures var (r, ok) := ProcessLine(s, i, raw, now);
            && ok && OnlyClient(s, i, r)
            && r.clients[i] == if Administrator(s.users, s.clients[i].userId) then s.clients[i].(mode := Admin)
                               else s.clients[i]
  {
    hide Reachable, Inv, Sanitize, IsAdmin, Administrator;
    Linewise(s, i, raw, now);
    KnownFound(s, s.clients[i].userId);
  }

  /** Every other line opens a chat with the user it names, if that is a registered user other than
      oneself, and otherwise does nothing. */
  lemma MenuOpens(s: Server, i: nat, raw: string, now: int)
    requires Reachable(s) && i < |s.clients| && s.clients[i].active && s.clients[i].mode == Menu
    requires Sanitize(raw) != "q" && Sanitize(raw) != "r" && Sanitize(raw) != "a"
    ensures var (r, ok) := ProcessLine(s, i, raw, now);
            var c, whom := s.clients[i], Named(s, s.clients[i], Sanitize(raw));
            && ok && OnlyClient(s, i, r)
            && if whom != None && Known(s.users, whom.value) && whom.value != c.userId then
                 InChat(c, r.clients[i], whom.value)
               else r == s
  {
    hide Reachable, Inv, Sanitize, ReadInt, FindName, Known;
    Linewise(s, i, raw, now);
    var line, c := Sanitize(raw), s.clients[i];
    var whom := Named(s, c, line);
    if whom != None {
      KnownFound(s, whom.value);
    }
    assert |line| >= 2 ==> (line[..2] == "n " <==> line[0] == 'n' && line[1] == ' ');
  }

  // ------------------------------------------------------------ a chat

  /** "q" leads back to the menu. */
  lemma TalkQuits(s: Server, i: nat, raw: string, now: int)
    requires Reachable(s) && i < |s.clients| && s.clients[i].active && s.clients[i].mode == Talk && Sanitize(raw) == "q"
    ensures var (r, ok) := ProcessLine(s, i, raw, now);
            && ok && OnlyClient(s, i, r) && InMenu(s.clients[i], r.clients[i], s.clients[i].userId, s.log)
            && r.clients[i].partner == -1
  {
    hide Reachable, Sanitize, Conversations, Ids, UsersOk;
    Linewise(s, i, raw, now);
    assert ClientOk(s.users, s.clients[i]);
  }

  /** Any other line is a message: it goes to the log if it is not empty and the partner is active, and in
      no case does it change anything else. */
  lemma TalkSends(s: Server, i: nat, raw: string, now: int)
    requires Reachable(s) && i < |s.clients| && s.clients[i].active && s.clients[i].mode == Talk && Sanitize(raw) != "q"
    requires Int64(now)
    ensures var (r, ok) := ProcessLine(s, i, raw, now);
            var c, line := s.clients[i], Sanitize(raw);
            && ok && r.users == s.users && r.file == s.file && r.clients == s.clients
            && if line != "" && ActiveUser(s.users, c.partner) then
                 LogRecords(r.log) == LogRecords(s.log) + [Record(now, c.userId, c.partner, Cut(line, 1023))]
               else r.log == s.log
  {
    hide Reachable, Inv, Sanitize, LogRecords, Append, FindId;
    Linewise(s, i, raw, now);
    MessageLogged(s, i, Sanitize(raw), now);
  }

  // ------------------------------------------------------------ the admin page

  lemma AdminQuits(s: Server, i: nat, raw: string, now: int)
    requires Reachable(s) && i < |s.clients| && s.clients[i].active && s.clients[i].mode == Admin
    requires Sanitize(raw) == "q"
    ensures var (r, ok) := ProcessLine(s, i, raw, now);
            && ok && OnlyClient(s, i, r) && InMenu(s.clients[i], r.clients[i], s.clients[i].userId, s.log)
  {
    hide Reachable, Sanitize, Conversations, Ids, UsersOk;
    Linewise(s, i, raw, now);
    assert ClientOk(s.users, s.clients[i]);
  }

  /** The account that a line of the admin page is about: a character and a number within the table. */
  function Chosen(s: Server, line: string): Option<nat> {
    if line == "" then None
    else
      match ReadInt(line[1..])
      case Some((n, _)) => if 1 <= n <= |s.users| then Some(n - 1) else None
      case None => None
  }

  /** "d" removes an active account that is not an administrator's: it is marked so in the table and in the
      file, and whoever uses it is disconnected; nobody else is. */
  lemma AdminRemoves(s: Server, i: nat, raw: string, now: int, k: nat, j: nat)
    requires Reachable(s) && i < |s.clients| && s.clients[i].active && s.clients[i].mode == Admin && j < |s.clients|
    requires Chosen(s, Sanitize(raw)) == Some(k) && Sanitize(raw)[0] == 'd'
    requires s.users[k].admin == 0 && s.users[k].active != 0
    ensures var (r, ok) := ProcessLine(s, i, raw, now);
            && ok && r.users == s.users[k := s.users[k].(active := 0)] && r.file == SaveUsers(r.users) && r.log == s.log
            && |r.clients| == |s.clients|
            && r.clients[j] ==
                 if s.clients[j].active && s.clients[j].loggedIn && s.clients[j].userId == s.users[k].id then FREE
                 else s.clients[j]
  {
    hide Reachable, Inv, Sanitize, ReadInt, SaveUsers, RemoveUser;
    Linewise(s, i, raw, now);
    RemovalComplete(s, k, j);
    RemovedState(s, k);
  }

  /** "r" restores a removed account. */
  lemma AdminRestores(s: Server, i: nat, raw: string, now: int, k: nat)
    requires Reachable(s) && i < |s.clients| && s.clients[i].active && s.clients[i].mode == Admin
    requires Chosen(s, Sanitize(raw)) == Some(k) && Sanitize(raw)[0] == 'r' && s.users[k].active == 0
    ensures var (r, ok) := ProcessLine(s, i, raw, now);
            && ok && r.users == s.users[k := s.users[k].(active := 1)] && r.file == SaveUsers(r.users) && r.log == s.log
            && r.clients == s.clients
  {
    hide Reachable, Inv, Sanitize, ReadInt, SaveUsers, RemoveUser;
    Linewise(s, i, raw, now);
  }

  /** Every other line of the admin page does nothing. */
  lemma AdminIgnores(s: Server, i: nat, raw: string, now: int)
    requires Reachable(s) && i < |s.clients| && s.clients[i].active && s.clients[i].mode == Admin
    requires Sanitize(raw) != "q"
    requires var line := Sanitize(raw);
             match Chosen(s, line)
             case None => true
             case Some(k) =>
               if line[0] == 'd' then s.users[k].admin != 0 || s.users[k].active == 0
               else line[0] != 'r' || s.users[k].active != 0
    ensures ProcessLine(s, i, raw, now) == (s, true)
  {
    hide Reachable, Inv, Sanitize, ReadInt, SaveUsers, RemoveUser;
    Linewise(s, i, raw, now);
  }

  // ------------------------------------------------------------ events

  /** A new connection gets the first free slot, as a client that has yet to log in. */
  lemma Accepted(s: Server, i: nat)
    requires i < |s.clients| && !s.clients[i].active && forall j :: 0 <= j < i ==> s.clients[j].active
    ensures var r := Step(s, Accept);
            && OnlyClient(s, i, r) && r.clients[i].active && r.clients[i].mode == Login && !r.clients[i].loggedIn
            && r.clients[i].userId == r.clients[i].partner == -1 && r.clients[i].contacts == []
            && r.clients[i].input == r.clients[i].fed == "" && r.clients[i].lines == []
  {}

  /** With none free, it is turned away. */
  lemma TurnedAway(s: Server)
    requires forall j :: 0 <= j < |s.clients| ==> s.clients[j].active
    ensures Step(s, Accept) == s
  {}

  /** A hangup frees the slot, and only that. */
  lemma HungUp(s: Server, i: nat)
    requires i < |s.clients| && s.clients[i].active
    ensures OnlyClient(s, i, Step(s, Hangup(i))) && Step(s, Hangup(i)).clients[i] == FREE
  {}

  /** Too much for the buffer: what it held is lost together with the chunk, and nothing else. */
  lemma Overflowed(s: Server, i: nat, bytes: string, now: int)
    requires i < |s.clients| && s.clients[i].active && 1 <= |bytes| <= 1024
    requires |s.clients[i].input| + |bytes| >= 4096
    ensures var r := Step(s, Chunk(i, bytes, now));
            && OnlyClient(s, i, r) && r.clients[i].input == "" && r.clients[i].lines == s.clients[i].lines
            && r.clients[i] == s.clients[i].(input := "", fed := s.clients[i].fed + bytes)
  {}

  /** Bytes for a slot that is free go nowhere. */
  lemma NobodyThere(s: Server, i: nat, bytes: string, now: int)
    requires !ClientAt(s, i).active
    ensures Step(s, Chunk(i, bytes, now)) == s
  {}
}
