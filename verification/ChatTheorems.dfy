/** What holds of the chat server at every moment, whatever its clients send. */
module ChatTheorems {
  import opened ChatText
  import opened ChatUsers
  import opened ChatLog
  import opened Chat

  // ------------------------------------------------------------ the invariant

  predicate Registered(users: seq<User>, id: int) {
    FindId(users, id) >= 0
  }

  predicate ActiveUser(users: seq<User>, id: int) {
    var k := FindId(users, id);
    k >= 0 && users[k].active != 0
  }

  /** The mode of a client agrees with who is logged in. */
  predicate ClientOk(users: seq<User>, c: Client) {
    if !c.active then c == FREE
    else
      && (c.mode == Login <==> !c.loggedIn)
      && (c.loggedIn ==> ActiveUser(users, c.userId))
      && (c.mode == Admin ==> IsAdmin(users, c.userId))
      && (c.mode == Talk ==> Registered(users, c.partner) && c.partner != c.userId)
  }

  /** Nobody is logged in twice. */
  predicate OnceEach(clients: seq<Client>) {
    forall i, j ::
      0 <= i < j < |clients| && clients[i].active && clients[i].loggedIn && clients[j].active && clients[j].loggedIn ==>
        clients[i].userId != clients[j].userId
  }

  /** There are ids left for all users that may still register. */
  predicate IdsLeft(users: seq<User>) {
    MaxId(users) + (MAX_USERS - |users|) < 0x8000_0000
  }

  ghost predicate UsersOk(users: seq<User>, file: string) {
    TableOk(users) && AdminThere(users) && IdsLeft(users) && file == SaveUsers(users)
  }

  ghost predicate Inv(s: Server) {
    && |s.clients| == MAX_CLIENTS
    && UsersOk(s.users, s.file)
    && (forall i :: 0 <= i < |s.clients| ==> ClientOk(s.users, s.clients[i]))
    && OnceEach(s.clients)
    && Complete(s.log)
  }

  // ------------------------------------------------------------ one client changes

  /** A client may be replaced by one that is right by itself and, if logged in, by somebody who was
      not, or the same user as before. */
  lemma ClientChanges(s: Server, i: nat, c: Client)
    requires Inv(s) && i < |s.clients| && ClientOk(s.users, c)
    requires c.active && c.loggedIn ==> IsUser(s.clients[i], c.userId) || FindClient(s.clients, c.userId) < 0
    ensures Inv(SetClient(s, i, c))
  {
    hide UsersOk, ClientOk;
    var cs := s.clients[i := c];
    forall a, b | 0 <= a < b < |cs| && cs[a].active && cs[a].loggedIn && cs[b].active && cs[b].loggedIn
      ensures cs[a].userId != cs[b].userId
    {
      if a == i || b == i {
        var o := if a == i then b else a;
        assert FindClient(s.clients, c.userId) < 0 ==> !IsUser(s.clients[o], c.userId);
      }
    }
  }

  lemma DisconnectKeeps(s: Server, i: nat)
    requires Inv(s)
    ensures Inv(Disconnect(s, i))
  {
    if i < |s.clients| && s.clients[i].active {
      ClientChanges(s, i, FREE);
    }
  }

  lemma RefreshKeeps(s: Server, i: nat)
    requires Inv(s) && i < |s.clients| && s.clients[i].active
    ensures Inv(Refresh(s, i))
  {
    hide UsersOk, Ids, Conversations;
    var c := s.clients[i];
    ClientChanges(s, i, c.(contacts := Ids(Conversations(s.log, c.userId))));
  }

  lemma OpenChatKeeps(s: Server, i: nat, partner: int)
    requires Inv(s) && i < |s.clients| && s.clients[i].active && s.clients[i].loggedIn
    ensures Inv(OpenChat(s, i, partner))
  {
    hide UsersOk, OnceEach;
    var c := s.clients[i];
    if FindId(s.users, partner) >= 0 && partner != c.userId {
      ClientChanges(s, i, c.(mode := Talk, partner := partner));
    }
  }

  lemma EnterKeeps(s: Server, i: nat, id: int)
    requires Inv(s) && i < |s.clients| && s.clients[i].active && ActiveUser(s.users, id)
    requires FindClient(s.clients, id) < 0
    ensures Inv(Enter(s, i, id))
  {
    hide UsersOk, OnceEach, Ids, Conversations;
    ClientChanges(s, i, s.clients[i].(userId := id, loggedIn := true, mode := Menu));
    RefreshKeeps(SetClient(s, i, s.clients[i].(userId := id, loggedIn := true, mode := Menu)), i);
  }

  // ------------------------------------------------------------ the user table changes

  lemma FindUnique(users: seq<User>, k: nat)
    requires k < |users| && TableOk(users)
    ensures FindId(users, users[k].id) == k
  {
    hide UserOk;
  }

  /** A new user is found, and so are the others. */
  lemma FindMore(users: seq<User>, u: User, id: int)
    ensures FindId(users + [u], id) ==
      if FindId(users, id) >= 0 then FindId(users, id) else if u.id == id then |users| else -1
    ensures FindName(users + [u], u.name) >= 0
  {
    assert (users + [u])[..|users|] == users;
  }

  lemma MoreUsers(users: seq<User>, u: User, c: Client)
    requires ClientOk(users, c)
    ensures ClientOk(users + [u], c)
  {
    FindMore(users, u, c.userId);
    FindMore(users, u, c.partner);
  }

  lemma NewUserOk(users: seq<User>, name: string)
    requires UsersOk(users, SaveUsers(users)) && NameOk(name) && FindName(users, name) < 0 && |users| < MAX_USERS
    ensures var more := users + [User(MaxId(users) + 1, name, 1, 0)];
            UsersOk(more, SaveUsers(more)) && ActiveUser(more, MaxId(users) + 1)
  {
    hide SaveUsers, NameOk;
    var u := User(MaxId(users) + 1, name, 1, 0);
    var more := users + [u];
    assert more[..|users|] == users;
    FindMore(users, u, u.id);
    assert MaxId(more) == MaxId(users) + 1;
    assert FindName(more, ADMIN) == FindName(users, ADMIN);
  }

  lemma RegisterKeeps(s: Server, name: string)
    requires Inv(s) && NameOk(name) && FindName(s.users, name) < 0 && |s.users| < MAX_USERS
    ensures var more := s.users + [User(MaxId(s.users) + 1, name, 1, 0)];
            Inv(s.(users := more, file := SaveUsers(more))) && ActiveUser(more, MaxId(s.users) + 1)
  {
    hide UsersOk, ClientOk, NameOk, FindName, MaxId, SaveUsers, ActiveUser, OnceEach, Complete;
    UsersFile(s);
    NewUserOk(s.users, name);
    var u := User(MaxId(s.users) + 1, name, 1, 0);
    forall i | 0 <= i < |s.clients|
      ensures ClientOk(s.users + [u], s.clients[i])
    {
      MoreUsers(s.users, u, s.clients[i]);
    }
  }

  lemma NobodyYet(s: Server)
    requires Inv(s)
    ensures FindClient(s.clients, MaxId(s.users) + 1) < 0
  {
    hide UsersOk, ClientOk, OnceEach, MaxId;
    var j := FindClient(s.clients, MaxId(s.users) + 1);
    if j >= 0 {
      LoggedInRegistered(s.users, s.clients[j]);
    }
  }

  lemma UsersFile(s: Server)
    requires Inv(s)
    ensures UsersOk(s.users, SaveUsers(s.users))
  {}

  lemma LoggedInRegistered(users: seq<User>, c: Client)
    requires ClientOk(users, c) && c.active && c.loggedIn
    ensures FindId(users, c.userId) >= 0 && c.userId <= MaxId(users)
  {}

  /** Flags may change as long as ids and names stay. */
  lemma FindSame(users: seq<User>, k: nat, u: User, id: int)
    requires k < |users| && u.id == users[k].id && u.name == users[k].name
    ensures FindId(users[k := u], id) == FindId(users, id)
    ensures FindName(users[k := u], ADMIN) == FindName(users, ADMIN)
    ensures MaxId(users[k := u]) == MaxId(users)
  {
    var us := users[k := u];
    forall j | 0 <= j < |users|
      ensures us[j].id == users[j].id && us[j].name == users[j].name
    {}
  }

  lemma FlagOk(users: seq<User>, k: nat, active: int)
    requires UsersOk(users, SaveUsers(users)) && k < |users| && (active == 0 || active == 1)
    requires (active == 0 ==> users[k].admin == 0)
    ensures var us := users[k := users[k].(active := active)]; UsersOk(us, SaveUsers(us))
  {
    hide SaveUsers, NameOk, FindName, MaxId, Int32;
    FlagTable(users, k, active);
    FindSame(users, k, users[k].(active := active), 0);
    var i := FindName(users, ADMIN);
    assert i == k ==> active != 0;
  }

  lemma FlagTable(users: seq<User>, k: nat, active: int)
    requires TableOk(users) && k < |users| && (active == 0 || active == 1) && (active == 0 ==> users[k].admin == 0)
    ensures TableOk(users[k := users[k].(active := active)])
  {
    hide NameOk;
    var us := users[k := users[k].(active := active)];
    forall i | 0 <= i < |us|
      ensures UserOk(us[i]) && (us[i].admin != 0 ==> us[i].active != 0)
    {
      assert UserOk(users[i]);
    }
  }

  lemma FlagClient(users: seq<User>, k: nat, active: int, c: Client)
    requires k < |users| && ClientOk(users, c)
    requires active == 0 ==> !(c.active && c.loggedIn && c.userId == users[k].id)
    ensures ClientOk(users[k := users[k].(active := active)], c)
  {
    FindSame(users, k, users[k].(active := active), c.userId);
    FindSame(users, k, users[k].(active := active), c.partner);
  }

  lemma RestoreKeeps(s: Server, k: nat)
    requires Inv(s) && k < |s.users|
    ensures Inv(SetUser(s, k, s.users[k].(active := 1)))
  {
    hide UsersOk, ClientOk;
    FlagOk(s.users, k, 1) by { UsersFile(s); }
    forall i | 0 <= i < |s.clients|
      ensures ClientOk(s.users[k := s.users[k].(active := 1)], s.clients[i])
    {
      FlagClient(s.users, k, 1, s.clients[i]);
    }
  }

  /** Disconnecting the first client found disconnects everyone there is, because nobody is logged
      in twice. */
  lemma OnlyOneLeaves(s: Server, k: nat, i: nat)
    requires OnceEach(s.clients) && k < |s.users| && i < |s.clients|
    ensures |RemoveUser(s, k).clients| == |s.clients|
    ensures RemoveUser(s, k).clients[i] == if IsUser(s.clients[i], s.users[k].id) then FREE else s.clients[i]
  {
    hide SaveUsers;
  }

  lemma RemoveKeeps(s: Server, k: nat)
    requires Inv(s) && k < |s.users| && s.users[k].admin == 0
    ensures Inv(RemoveUser(s, k)) && FindClient(RemoveUser(s, k).clients, s.users[k].id) < 0
    ensures forall i :: 0 <= i < |s.clients| ==>
              RemoveUser(s, k).clients[i] == if IsUser(s.clients[i], s.users[k].id) then FREE else s.clients[i]
  {
    hide UsersOk, ClientOk, SaveUsers, Complete, RemoveUser;
    var id, us := s.users[k].id, s.users[k := s.users[k].(active := 0)];
    var r := RemoveUser(s, k);
    UsersFile(s);
    FlagOk(s.users, k, 0);
    RemovedState(s, k);
    forall i | 0 <= i < |s.clients|
      ensures r.clients[i] == if IsUser(s.clients[i], id) then FREE else s.clients[i]
      ensures ClientOk(us, r.clients[i])
    {
      OnlyOneLeaves(s, k, i);
      if !IsUser(s.clients[i], id) {
        FlagClient(s.users, k, 0, s.clients[i]);
      } else {
        FreeOk(us);
      }
    }
  }

  lemma RemovedState(s: Server, k: nat)
    requires k < |s.users|
    ensures var r, us := RemoveUser(s, k), s.users[k := s.users[k].(active := 0)];
            r == Server(us, SaveUsers(us), r.clients, s.log) && |r.clients| == |s.clients|
  {
    hide SaveUsers;
  }

  lemma FreeOk(users: seq<User>)
    ensures ClientOk(users, FREE) && !FREE.active
  {}

  // ------------------------------------------------------------ one line

  /** What process_line reports is right: it returns 0 exactly when it disconnected its own caller;
      and as long as the caller stays, its buffer and histories are not touched. */
  ghost predicate LineOk(s: Server, i: nat, r: (Server, bool)) {
    && Inv(r.0) && i < |r.0.clients| == |s.clients|
    && (r.1 <==> r.0.clients[i].active)
    && (r.1 ==> SameBytes(s.clients[i], r.0.clients[i]))
  }

  predicate SameBytes(c: Client, d: Client) {
    d.input == c.input && d.fed == c.fed && d.lines == c.lines
  }

  /** Client i is connected. */
  ghost predicate Live(s: Server, i: nat) {
    Inv(s) && i < |s.clients| && s.clients[i].active
  }

  lemma NameIsOk(line: string)
    ensures Sanitize(line) != "" && |Sanitize(line)| < USERNAME_SIZE ==> NameOk(Sanitize(line))
  {}

  lemma LoginOk(s: Server, i: nat, line: string)
    requires Live(s, i) && s.clients[i].mode == Login
    ensures LineOk(s, i, ProcessLogin(s, i, line))
  {
    hide UsersOk, ClientOk, OnceEach, Sanitize, Conversations, Ids, SaveUsers, NameOk;
    var name := Sanitize(line);
    NameIsOk(line);
    DisconnectKeeps(s, i);
    if name != "" && |name| < USERNAME_SIZE {
      var k := FindName(s.users, name);
      if k >= 0 {
        if s.users[k].active != 0 && FindClient(s.clients, s.users[k].id) < 0 {
          FindUnique(s.users, k) by { UsersTable(s); }
          EnterKeeps(s, i, s.users[k].id);
        }
      } else if |s.users| < MAX_USERS {
        RegisterKeeps(s, name);
        NobodyYet(s);
        var more := s.users + [User(MaxId(s.users) + 1, name, 1, 0)];
        EnterKeeps(s.(users := more, file := SaveUsers(more)), i, MaxId(s.users) + 1);
      }
    }
  }

  lemma UsersTable(s: Server)
    requires Inv(s)
    ensures TableOk(s.users)
  {}

  lemma LoggedIn(s: Server, i: nat)
    requires Live(s, i) && s.clients[i].mode != Login
    ensures s.clients[i].loggedIn && ActiveUser(s.users, s.clients[i].userId)
    ensures s.clients[i].mode == Admin ==> IsAdmin(s.users, s.clients[i].userId)
    ensures ClientOk(s.users, s.clients[i])
  {}

  lemma MenuOk(s: Server, i: nat, line: string)
    requires Live(s, i) && s.clients[i].mode == Menu
    ensures LineOk(s, i, ProcessMenu(s, i, line))
  {
    hide UsersOk, OnceEach, Conversations, Ids, ReadInt, FindName, FindId;
    LoggedIn(s, i);
    DisconnectKeeps(s, i);
    RefreshKeeps(s, i);
    var c := s.clients[i];
    if line == "a" && IsAdmin(s.users, c.userId) {
      ClientChanges(s, i, c.(mode := Admin));
    }
    if |line| >= 2 {
      var k := FindName(s.users, line[2..]);
      if k >= 0 {
        OpenChatKeeps(s, i, s.users[k].id);
      }
    }
    match ReadInt(line)
    case None =>
    case Some((n, _)) =>
      if 1 <= n <= |c.contacts| {
        OpenChatKeeps(s, i, c.contacts[n - 1]);
      }
  }

  lemma TalkOk(s: Server, i: nat, line: string, now: int)
    requires Live(s, i) && s.clients[i].mode == Talk
    ensures LineOk(s, i, ProcessChat(s, i, line, now))
  {
    hide UsersOk, OnceEach, Conversations, Ids, ShowInt, Stored;
    LoggedIn(s, i);
    var c := s.clients[i];
    ClientChanges(s, i, c.(mode := Menu, partner := -1));
    RefreshKeeps(SetClient(s, i, c.(mode := Menu, partner := -1)), i);
  }

  lemma AdminOk(s: Server, i: nat, line: string)
    requires Live(s, i) && s.clients[i].mode == Admin
    ensures LineOk(s, i, ProcessAdmin(s, i, line))
  {
    hide UsersOk, OnceEach, ClientOk, Conversations, Ids, ReadInt, RemoveUser, FindId;
    LoggedIn(s, i);
    BackToMenu(s, i);
    if line != "" && ReadInt(line[1..]).Some? {
      var n := ReadInt(line[1..]).value.0;
      if 1 <= n <= |s.users| {
        RestoreKeeps(s, n - 1);
        if s.users[n - 1].admin == 0 {
          RemoveKeeps(s, n - 1);
          NotOneself(s, i, n - 1);
        }
      }
    }
  }

  lemma BackToMenu(s: Server, i: nat)
    requires Live(s, i) && s.clients[i].mode == Admin
    ensures LineOk(s, i, (Refresh(SetClient(s, i, s.clients[i].(mode := Menu)), i), true))
  {
    hide UsersOk, OnceEach, Conversations, Ids;
    ClientChanges(s, i, s.clients[i].(mode := Menu));
    RefreshKeeps(SetClient(s, i, s.clients[i].(mode := Menu)), i);
  }

  /** An administrator can remove anybody but administrators, so never themselves. */
  lemma NotOneself(s: Server, i: nat, k: nat)
    requires Live(s, i) && s.clients[i].mode == Admin && k < |s.users| && s.users[k].admin == 0
    ensures !IsUser(s.clients[i], s.users[k].id)
  {
    hide OnceEach;
    LoggedIn(s, i);
    FindUnique(s.users, k);
  }

  lemma ProcessLineOk(s: Server, i: nat, raw: string, now: int)
    requires Live(s, i)
    ensures LineOk(s, i, ProcessLine(s, i, raw, now))
  {
    hide Inv, LineOk, ProcessLogin, ProcessMenu, ProcessChat, ProcessAdmin;
    var line := Sanitize(raw);
    match s.clients[i].mode
    case Login => LoginOk(s, i, line);
    case Menu => MenuOk(s, i, line);
    case Talk => TalkOk(s, i, line, now);
    case Admin => AdminOk(s, i, line);
  }
}
