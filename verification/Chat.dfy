/** The chat server: registered users, connected clients in four modes, lines over byte streams.

    Client sockets are named by their place in the client table; prompts are not modelled.  */
module Chat {
  import opened ChatText
  import opened ChatUsers
  import opened ChatLog

  /** MAX_CLIENTS, INPUT_BUFFER_SIZE, and the size of main's receive buffer */
  const MAX_CLIENTS: nat := 100
  const INPUT_SIZE: nat := 4096
  const CHUNK_SIZE: nat := 1024

  datatype Mode = Login | Menu | Talk | Admin

  /** `fed` and `lines` are histories: the bytes received since the client was accepted, and the lines
      that were cut from them and processed. */
  datatype Client = Client(active: bool, loggedIn: bool, userId: int, mode: Mode, partner: int,
                           contacts: seq<int>, input: string, fed: string, lines: seq<string>)

  /** The table of users and its file, the client table, the message log. */
  datatype Server = Server(users: seq<User>, file: string, clients: seq<Client>, log: string)

  /** A zeroed slot, and one just accepted. */
  const FREE := Client(false, false, 0, Login, 0, [], "", "", [])
  const FRESH := Client(true, false, -1, Login, -1, [], "", "", [])

  // ------------------------------------------------------------ clients

  predicate IsUser(c: Client, id: int) {
    c.active && c.loggedIn && c.userId == id
  }

  /** find_client_by_user_id */
  function FindClient(clients: seq<Client>, id: int): (i: int)
    ensures -1 <= i < |clients|
    ensures i >= 0 ==> IsUser(clients[i], id) && forall j :: 0 <= j < i ==> !IsUser(clients[j], id)
    ensures i < 0 ==> forall j :: 0 <= j < |clients| ==> !IsUser(clients[j], id)
    decreases |clients|
  {
    if clients == [] then -1
    else
      var last := |clients| - 1;
      var i := FindClient(clients[..last], id);
      if i >= 0 then i else if IsUser(clients[last], id) then last else -1
  }

  /** find_free_client_slot */
  function FindFree(clients: seq<Client>): (i: int)
    ensures -1 <= i < |clients|
    ensures i >= 0 ==> !clients[i].active && forall j :: 0 <= j < i ==> clients[j].active
    ensures i < 0 ==> forall j :: 0 <= j < |clients| ==> clients[j].active
    decreases |clients|
  {
    if clients == [] then -1
    else
      var last := |clients| - 1;
      var i := FindFree(clients[..last]);
      if i >= 0 then i else if !clients[last].active then last else -1
  }

  /** disconnect_client */
  function Disconnect(s: Server, i: nat): Server {
    if i < |s.clients| && s.clients[i].active then s.(clients := s.clients[i := FREE]) else s
  }

  function SetClient(s: Server, i: nat, c: Client): Server {
    if i < |s.clients| then s.(clients := s.clients[i := c]) else s
  }

  function ClientAt(s: Server, i: nat): Client {
    if i < |s.clients| then s.clients[i] else FREE
  }

  function Ids(cs: seq<Contact>): (ids: seq<int>)
    ensures |ids| == |cs| && forall i :: 0 <= i < |cs| ==> ids[i] == cs[i].id
  {
    if cs == [] then [] else Ids(cs[..|cs| - 1]) + [cs[|cs| - 1].id]
  }

  /** show_conversation_list: the client's numbered contacts. */
  function Refresh(s: Server, i: nat): Server {
    SetClient(s, i, ClientAt(s, i).(contacts := Ids(Conversations(s.log, ClientAt(s, i).userId))))
  }

  // ------------------------------------------------------------ lines, by mode

  /** open_chat */
  function OpenChat(s: Server, i: nat, partner: int): Server {
    if FindId(s.users, partner) == -1 || partner == ClientAt(s, i).userId then s
    else SetClient(s, i, ClientAt(s, i).(mode := Talk, partner := partner))
  }

  /** The user gets in. */
  function Enter(s: Server, i: nat, id: int): Server {
    Refresh(SetClient(s, i, ClientAt(s, i).(userId := id, loggedIn := true, mode := Menu)), i)
  }

  /** process_login; the second result is what process_line returns. */
  function ProcessLogin(s: Server, i: nat, line: string): (Server, bool) {
    var name := Sanitize(line);
    if name == "" || |name| >= USERNAME_SIZE then (s, true)
    else
      var k := FindName(s.users, name);
      if k >= 0 then
        if s.users[k].active == 0 || FindClient(s.clients, s.users[k].id) >= 0 then (Disconnect(s, i), false)
        else (Enter(s, i, s.users[k].id), true)
      else if |s.users| >= MAX_USERS then (Disconnect(s, i), false)
      else
        var users := s.users + [User(MaxId(s.users) + 1, name, 1, 0)];
        (Enter(s.(users := users, file := SaveUsers(users)), i, MaxId(s.users) + 1), true)
  }

  predicate IsAdmin(users: seq<User>, id: int) {
    var k := FindId(users, id);
    k >= 0 && users[k].admin != 0
  }

  /** process_menu */
  function ProcessMenu(s: Server, i: nat, line: string): (Server, bool) {
    if line == "q" then (Disconnect(s, i), false)
    else if line == "r" then (Refresh(s, i), true)
    else if line == "a" then
      (if IsAdmin(s.users, ClientAt(s, i).userId) then SetClient(s, i, ClientAt(s, i).(mode := Admin)) else s, true)
    else if |line| >= 2 && line[0] == 'n' && line[1] == ' ' then
      var k := FindName(s.users, line[2..]);
      (if k == -1 then s else OpenChat(s, i, s.users[k].id), true)
    else
      match ReadInt(line)
      case None => (s, true)
      case Some((n, rest)) =>
        var contacts := ClientAt(s, i).contacts;
        (if rest == "" && 1 <= n <= |contacts| then OpenChat(s, i, contacts[n - 1]) else s, true)
  }

  /** process_chat at time `now` */
  function ProcessChat(s: Server, i: nat, line: string, now: int): (Server, bool) {
    var c := ClientAt(s, i);
    if line == "q" then (Refresh(SetClient(s, i, c.(mode := Menu, partner := -1)), i), true)
    else if line == "" then (s, true)
    else
      var k := FindId(s.users, c.partner);
      if k == -1 || s.users[k].active == 0 then (s, true)
      else (s.(log := Append(s.log, now, c.userId, s.users[k].id, line)), true)
  }

  /** The file follows the table. */
  function SetUser(s: Server, k: nat, u: User): Server
    requires k < |s.users|
  {
    var users := s.users[k := u];
    s.(users := users, file := SaveUsers(users))
  }

  /** Removing an account disconnects the client that is logged in to it. */
  function RemoveUser(s: Server, k: nat): Server
    requires k < |s.users|
  {
    var r := SetUser(s, k, s.users[k].(active := 0));
    var j := FindClient(r.clients, s.users[k].id);
    if j >= 0 then Disconnect(r, j) else r
  }

  /** process_admin; "%c %d" takes any first character. */
  function ProcessAdmin(s: Server, i: nat, line: string): (Server, bool) {
    if line == "q" then (Refresh(SetClient(s, i, ClientAt(s, i).(mode := Menu)), i), true)
    else if line == "" then (s, true)
    else
      match ReadInt(line[1..])
      case None => (s, true)
      case Some((n, _)) =>
        if n < 1 || n > |s.users| then (s, true)
        else
          var u := s.users[n - 1];
          (if line[0] == 'd' && u.admin == 0 && u.active != 0 then RemoveUser(s, n - 1)
           else if line[0] == 'r' && u.active == 0 then SetUser(s, n - 1, u.(active := 1))
           else s, true)
  }

  /** process_line */
  function ProcessLine(s: Server, i: nat, raw: string, now: int): (Server, bool) {
    var line := Sanitize(raw);
    match ClientAt(s, i).mode
    case Login => ProcessLogin(s, i, line)
    case Menu => ProcessMenu(s, i, line)
    case Talk => ProcessChat(s, i, line, now)
    case Admin => ProcessAdmin(s, i, line)
  }

  // ------------------------------------------------------------ bytes

  /** The place of the first line break, or the length. */
  function Break(s: string): (k: nat)
    ensures k <= |s| && (forall j :: 0 <= j < k ==> s[j] != '\n') && (k < |s| ==> s[k] == '\n')
  {
    if s == "" || s[0] == '\n' then 0 else 1 + Break(s[1..])
  }

  /** Cutting the first line off the input buffer. */
  function CutLine(c: Client): Client {
    var k := Break(c.input);
    if k < |c.input| then c.(input := c.input[k + 1..], lines := c.lines + [c.input[..k]]) else c
  }

  /** The loop of main that processes the complete lines in a client's buffer, as often as `fuel`;
      the buffer loses at least one byte each time, so that its length is always enough. */
  function Drain(s: Server, i: nat, now: int, fuel: nat): Server
    decreases fuel
  {
    var c := ClientAt(s, i);
    if fuel == 0 || !c.active || Break(c.input) == |c.input| then s
    else
      var (r, ok) := ProcessLine(SetClient(s, i, CutLine(c)), i, c.input[..Break(c.input)], now);
      if ok then Drain(r, i, now, fuel - 1) else r
  }

  /** A chunk returned by recv: too much for the buffer empties it and is lost. */
  function Feed(s: Server, i: nat, chunk: string, now: int): Server {
    var c := ClientAt(s, i);
    if !c.active then s
    else if |c.input| + |chunk| >= INPUT_SIZE then SetClient(s, i, c.(input := "", fed := c.fed + chunk))
    else
      Drain(SetClient(s, i, c.(input := c.input + chunk, fed := c.fed + chunk)), i, now, |c.input| + |chunk|)
  }

  // ------------------------------------------------------------ runs

  datatype Event = Accept | Chunk(client: nat, bytes: string, now: int) | Hangup(client: nat)

  /** One event of main's loop; `Hangup` is the end of the stream or an error of recv. */
  function Step(s: Server, e: Event): Server {
    match e
    case Accept =>
      var i := FindFree(s.clients);
      if i == -1 then s else SetClient(s, i, FRESH)
    case Chunk(i, bytes, now) => if bytes == "" || |bytes| > CHUNK_SIZE then s else Feed(s, i, bytes, now)
    case Hangup(i) => Disconnect(s, i)
  }

  function Run(s: Server, events: seq<Event>): Server {
    if events == [] then s else Step(Run(s, events[..|events| - 1]), events[|events| - 1])
  }

  /** The server just started on a users file that load_users accepts. */
  function Start(users: seq<User>, log: string): Server {
    Server(users, SaveUsers(users), seq(MAX_CLIENTS, _ => FREE), log)
  }
}
