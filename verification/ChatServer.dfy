/** The chat server as it runs: a table of users and a table of clients, changed in place. */
module ChatServer {
  import opened ChatText
  import opened ChatUsers
  import opened ChatLog
  import opened Chat
  import opened ChatTheorems
  import opened ChatFraming
  import opened ChatQueries

  class ChatServer {
    const users: array<User>
    var userCount: nat
    const clients: array<Client>
    var file: string
    var log: string

    /** Empty tables; the log is what messages.db holds. */
    constructor (log: string)
      ensures Shape() && Abs() == Server([], "", seq(MAX_CLIENTS, _ => FREE), log) && fresh(users) && fresh(clients)
    {
      users := new User[MAX_USERS](_ => User(0, "", 0, 0));
      clients := new Client[MAX_CLIENTS](_ => FREE);
      userCount, file := 0, "";
      this.log := log;
    }

    predicate Shape()
      reads this
    {
      users.Length == MAX_USERS && userCount <= MAX_USERS && clients.Length == MAX_CLIENTS
    }

    function Abs(): Server
      requires Shape()
      reads this, users, clients
    {
      Server(users[..userCount], file, clients[..], log)
    }

    // ---------------------------------------------------------- users

    /** save_users */
    method Save()
      requires Shape()
      modifies this`file
      ensures Shape() && Abs() == old(Abs()).(file := SaveUsers(users[..userCount]))
    {
      file := PrintUsers(users, userCount);
    }

    method AddUser(u: User)
      requires Shape() && userCount < MAX_USERS
      modifies this`userCount, users
      ensures Shape() && Abs() == old(Abs()).(users := old(users[..userCount]) + [u])
    {
      users[userCount] := u;
      userCount := userCount + 1;
    }

    method ChangeUser(k: nat, u: User)
      requires Shape() && k < userCount
      modifies this`file, users
      ensures Shape() && Abs() == SetUser(old(Abs()), k, u)
    {
      users[k] := u;
      assert users[..userCount] == old(users[..userCount])[k := u];
      Save();
    }

    /** load_users on the contents of users.db */
    method Load(text: string) returns (ok: bool)
      requires Shape()
      modifies this, users
      ensures Shape() && (ok <==> LoadUsers(text) != None)
      ensures ok ==> Abs() == old(Abs()).(users := LoadUsers(text).value, file := SaveUsers(LoadUsers(text).value))
    {
      hide ReadUser, FileLines, SaveUsers;
      userCount := 0;
      var lines := FileLines(text, 256);
      var k := 0;
      while k < |lines|
        invariant 0 <= k <= |lines| && Shape() && users[..userCount] == ReadTable(lines[..k])
        invariant file == old(file) && log == old(log) && clients[..] == old(clients[..])
      {
        assert lines[..k + 1][..k] == lines[..k];
        if userCount < MAX_USERS {
          var u := ReadUser(lines[k]);
          if u.Some? {
            AddUser(u.value);
          }
        }
        k := k + 1;
      }
      assert lines[..k] == lines;
      ok := EnsureAdmin();
    }

    /** The end of load_users. */
    method EnsureAdmin() returns (ok: bool)
      requires Shape()
      modifies this, users
      ensures Shape() && (ok <==> ForceAdmin(old(Abs()).users) != None)
      ensures ok ==>
        var us := ForceAdmin(old(Abs()).users).value; Abs() == old(Abs()).(users := us, file := SaveUsers(us))
    {
      hide SaveUsers, MaxId;
      var index := FindUserIndexByName(users, userCount, ADMIN);
      if index == -1 {
        if userCount >= MAX_USERS { return false; }
        var max := GetMaxUserId(users, userCount);
        AddUser(User(max + 1, ADMIN, 1, 1));
        Save();
      } else {
        ChangeUser(index, users[index].(active := 1, admin := 1));
      }
      return true;
    }

    // ---------------------------------------------------------- clients

    /** disconnect_client */
    method DisconnectClient(i: int)
      requires Shape()
      modifies clients
      ensures Abs() == if 0 <= i then Disconnect(old(Abs()), i) else old(Abs())
    {
      if i < 0 || i >= MAX_CLIENTS || !clients[i].active { return; }
      clients[i] := FREE;
    }

    method ChangeClient(i: nat, c: Client)
      requires Shape() && i < MAX_CLIENTS
      modifies clients
      ensures Abs() == SetClient(old(Abs()), i, c)
    {
      clients[i] := c;
    }

    /** show_conversation_list */
    method ShowConversationList(i: nat)
      requires Shape() && i < MAX_CLIENTS
      modifies clients
      ensures Abs() == Refresh(old(Abs()), i)
    {
      hide Conversations, Ids;
      var contacts := ConversationList(log, clients[i].userId);
      clients[i] := clients[i].(contacts := contacts);
    }

    /** open_chat */
    method OpenChatWith(i: nat, partner: int)
      requires Shape() && i < MAX_CLIENTS
      modifies clients
      ensures Abs() == OpenChat(old(Abs()), i, partner)
    {
      var index := FindUserIndexById(users, userCount, partner);
      if index == -1 || partner == clients[i].userId { return; }
      clients[i] := clients[i].(mode := Talk, partner := partner);
    }

    /** append_message: whoever reads the log afterwards finds the records it had, and behind them the
        message, cut and cleaned. */
    method AppendMessage(now: int, sender: int, receiver: int, text: string)
      modifies this`log
      ensures log == Append(old(log), now, sender, receiver, text)
      ensures Complete(old(log)) && Int64(now) && Int32(sender) && Int32(receiver) ==>
        Complete(log) && LogRecords(log) == LogRecords(old(log)) + [Record(now, sender, receiver, Stored(text))]
    {
      hide LogRecords, RecordLine, Stored;
      if Complete(log) && Int64(now) && Int32(sender) && Int32(receiver) {
        AppendedIsRead(log, now, sender, receiver, text);
      }
      var clean := CleanCopy(text);
      log := log + RecordLine(Record(now, sender, receiver, clean));
    }

    // ---------------------------------------------------------- lines

    /** The end of process_login. */
    method EnterMenu(i: nat, id: int)
      requires Shape() && i < MAX_CLIENTS
      modifies clients
      ensures Abs() == Enter(old(Abs()), i, id)
    {
      hide Refresh;
      ChangeClient(i, clients[i].(userId := id, loggedIn := true, mode := Menu));
      ShowConversationList(i);
    }

    /** process_login */
    method LoginLine(i: nat, line: string) returns (stay: bool)
      requires Shape() && i < MAX_CLIENTS
      modifies this, users, clients
      ensures Shape() && (Abs(), stay) == ProcessLogin(old(Abs()), i, line)
    {
      hide Refresh, Sanitize, SaveUsers, Enter, Disconnect, FindName, FindClient, MaxId;
      var name := Sanitize(line);
      if name == "" || |name| >= USERNAME_SIZE { return true; }
      var index := FindUserIndexByName(users, userCount, name);
      if index >= 0 {
        var other := FindClientByUserId(clients, users[index].id);
        if users[index].active == 0 || other >= 0 {
          DisconnectClient(i);
          return false;
        }
        EnterMenu(i, users[index].id);
      } else {
        if userCount >= MAX_USERS {
          DisconnectClient(i);
          return false;
        }
        var max := GetMaxUserId(users, userCount);
        AddUser(User(max + 1, name, 1, 0));
        Save();
        EnterMenu(i, max + 1);
      }
      return true;
    }

    /** Whether a user is an administrator. */
    method CheckAdmin(id: int) returns (admin: bool)
      requires Shape()
      ensures admin == IsAdmin(users[..userCount], id)
    {
      var index := FindUserIndexById(users, userCount, id);
      admin := index >= 0 && users[index].admin != 0;
    }

    /** process_menu */
    method MenuLine(i: nat, line: string) returns (stay: bool)
      requires Shape() && i < MAX_CLIENTS
      modifies clients
      ensures (Abs(), stay) == ProcessMenu(old(Abs()), i, line)
    {
      hide Refresh, OpenChat, Disconnect, ReadInt, IsAdmin;
      stay := true;
      if line == "q" {
        DisconnectClient(i);
        stay := false;
      } else if line == "r" {
        ShowConversationList(i);
      } else if line == "a" {
        var admin := CheckAdmin(clients[i].userId);
        if admin {
          ChangeClient(i, clients[i].(mode := Mode.Admin));
        }
      } else if |line| >= 2 && line[0] == 'n' && line[1] == ' ' {
        var index := FindUserIndexByName(users, userCount, line[2..]);
        if index != -1 {
          OpenChatWith(i, users[index].id);
        }
      } else {
        var number := ReadInt(line);
        if number.Some? && number.value.1 == "" && 1 <= number.value.0 <= |clients[i].contacts| {
          OpenChatWith(i, clients[i].contacts[number.value.0 - 1]);
        }
      }
    }

    /** process_chat */
    method ChatLine(i: nat, line: string, now: int) returns (stay: bool)
      requires Shape() && i < MAX_CLIENTS
      modifies this`log, clients
      ensures (Abs(), stay) == ProcessChat(old(Abs()), i, line, now)
    {
      hide Refresh, Append;
      stay := true;
      if line == "q" {
        ChangeClient(i, clients[i].(mode := Menu, partner := -1));
        ShowConversationList(i);
      } else if line != "" {
        var index := FindUserIndexById(users, userCount, clients[i].partner);
        if index != -1 && users[index].active != 0 {
          AppendMessage(now, clients[i].userId, users[index].id, line);
        }
      }
    }

    /** Removing an account, and disconnecting whoever uses it. */
    method Remove(k: nat)
      requires Shape() && k < userCount
      modifies this`file, users, clients
      ensures Shape() && Abs() == RemoveUser(old(Abs()), k)
    {
      hide SaveUsers, Disconnect;
      ChangeUser(k, users[k].(active := 0));
      var target := FindClientByUserId(clients, users[k].id);
      if target >= 0 {
        DisconnectClient(target);
      }
    }

    /** process_admin */
    method AdminLine(i: nat, line: string) returns (stay: bool)
      requires Shape() && i < MAX_CLIENTS
      modifies this`file, users, clients
      ensures Shape() && (Abs(), stay) == ProcessAdmin(old(Abs()), i, line)
    {
      hide Refresh, ReadInt, RemoveUser, SaveUsers;
      stay := true;
      if line == "q" {
        ChangeClient(i, clients[i].(mode := Menu));
        ShowConversationList(i);
      } else if line != "" {
        var number := ReadInt(line[1..]);
        if number.Some? && 1 <= number.value.0 <= userCount {
          var target := number.value.0 - 1;
          if line[0] == 'd' {
            if users[target].admin == 0 && users[target].active != 0 {
              Remove(target);
            }
          } else if line[0] == 'r' {
            if users[target].active == 0 {
              ChangeUser(target, users[target].(active := 1));
            }
          }
        }
      }
    }

    /** process_line */
    method LineFrom(i: nat, raw: string, now: int) returns (stay: bool)
      requires Shape() && i < MAX_CLIENTS
      modifies this, users, clients
      ensures Shape() && (Abs(), stay) == ProcessLine(old(Abs()), i, raw, now)
    {
      hide ProcessLogin, ProcessMenu, ProcessChat, ProcessAdmin, Sanitize;
      var line := Sanitize(raw);
      match clients[i].mode
      case Login => stay := LoginLine(i, line);
      case Menu => stay := MenuLine(i, line);
      case Talk => stay := ChatLine(i, line, now);
      case Admin => stay := AdminLine(i, line);
    }

    // ---------------------------------------------------------- events

    /** The loop over the complete lines in a client's buffer. */
    method DrainLines(i: nat, now: int)
      requires Shape() && i < MAX_CLIENTS && Inv(Abs())
      modifies this, users, clients
      ensures Shape() && Abs() == Drain(old(Abs()), i, now, |old(clients[i].input)|)
    {
      hide ProcessLine, Inv, Break, CutLine;
      var stay := true;
      ghost var fuel := |clients[i].input|;
      while stay && clients[i].active && Break(clients[i].input) < |clients[i].input|
        invariant Shape() && (stay ==> Inv(Abs()) && |clients[i].input| <= fuel)
        invariant (if stay then Drain(Abs(), i, now, fuel) else Abs())
             == Drain(old(Abs()), i, now, |old(clients[i].input)|)
        decreases stay, fuel
      {
        ghost var s := Abs();
        var k := Break(clients[i].input);
        var line := clients[i].input[..k];
        CutLineSame(clients[i]);
        CutKeeps(s, i);
        ProcessLineOk(SetClient(s, i, CutLine(s.clients[i])), i, line, now);
        ChangeClient(i, CutLine(clients[i]));
        stay := LineFrom(i, line, now);
        fuel := fuel - 1;
      }
    }

    /** A chunk that recv returned for client i. */
    method ReceiveChunk(i: nat, chunk: string, now: int)
      requires Shape() && Inv(Abs())
      modifies this, users, clients
      ensures Shape() && Abs() == Feed(old(Abs()), i, chunk, now)
    {
      hide Drain, Inv;
      if i >= MAX_CLIENTS || !clients[i].active { return; }
      var c := clients[i];
      if |c.input| + |chunk| >= INPUT_SIZE {
        ChangeClient(i, c.(input := "", fed := c.fed + chunk));
        return;
      }
      FillKeeps(Abs(), i, c.(input := c.input + chunk, fed := c.fed + chunk));
      ChangeClient(i, c.(input := c.input + chunk, fed := c.fed + chunk));
      DrainLines(i, now);
    }

    /** One event of main's loop. */
    method HandleEvent(e: Event)
      requires Shape() && AllInv(Abs())
      modifies this, users, clients
      ensures Shape() && Abs() == Step(old(Abs()), e) && AllInv(Abs())
    {
      hide Feed, Disconnect, Inv, BytesOk;
      StepOk(Abs(), e);
      match e
      case Accept =>
        var i := FindFreeClientSlot(clients);
        if i != -1 {
          ChangeClient(i, FRESH);
        }
      case Chunk(i, bytes, now) =>
        if bytes != "" && |bytes| <= CHUNK_SIZE {
          ReceiveChunk(i, bytes, now);
        }
      case Hangup(i) => DisconnectClient(i);
    }

    /** main after load_users: any sequence of events. */
    method Serve(events: seq<Event>)
      requires Shape() && AllInv(Abs())
      modifies this, users, clients
      ensures Shape() && Abs() == Run(old(Abs()), events) && AllInv(Abs())
    {
      hide AllInv, Step;
      var k := 0;
      while k < |events|
        invariant 0 <= k <= |events| && Shape() && Abs() == Run(old(Abs()), events[..k]) && AllInv(Abs())
      {
        HandleEvent(events[k]);
        assert events[..k + 1][..k] == events[..k];
        k := k + 1;
      }
      assert events[..k] == events;
    }
  }
}
