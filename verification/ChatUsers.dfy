/** The user table and its file, users.db. */
module ChatUsers {
  import opened ChatText

  /** MAX_USERS, USERNAME_SIZE */
  const MAX_USERS: nat := 1000
  const USERNAME_SIZE: nat := 32

  const ADMIN := "ahmet"

  datatype User = User(id: int, name: string, active: int, admin: int)

  // ------------------------------------------------------------ looking up

  /** find_user_index_by_id */
  function FindId(users: seq<User>, id: int): (i: int)
    ensures -1 <= i < |users|
    ensures i >= 0 ==> users[i].id == id && forall j :: 0 <= j < i ==> users[j].id != id
    ensures i < 0 ==> forall j :: 0 <= j < |users| ==> users[j].id != id
    decreases |users|
  {
    if users == [] then -1
    else
      var last := |users| - 1;
      var i := FindId(users[..last], id);
      if i >= 0 then i else if users[last].id == id then last else -1
  }

  /** find_user_index_by_name */
  function FindName(users: seq<User>, name: string): (i: int)
    ensures -1 <= i < |users|
    ensures i >= 0 ==> users[i].name == name && forall j :: 0 <= j < i ==> users[j].name != name
    ensures i < 0 ==> forall j :: 0 <= j < |users| ==> users[j].name != name
    decreases |users|
  {
    if users == [] then -1
    else
      var last := |users| - 1;
      var i := FindName(users[..last], name);
      if i >= 0 then i else if users[last].name == name then last else -1
  }

  /** get_max_user_id */
  function MaxId(users: seq<User>): (m: int)
    ensures 0 <= m && forall j :: 0 <= j < |users| ==> users[j].id <= m
    ensures m == 0 || exists j :: 0 <= j < |users| && users[j].id == m
    decreases |users|
  {
    if users == [] then 0
    else
      var last := |users| - 1;
      var m := MaxId(users[..last]);
      if users[last].id > m then users[last].id else m
  }

  // ------------------------------------------------------------ the file

  function UserLine(u: User): string {
    ShowInt(u.id) + "|" + u.name + "|" + ShowInt(u.active) + "|" + ShowInt(u.admin) + "\n"
  }

  /** save_users */
  function SaveUsers(users: seq<User>): string {
    if users == [] then "" else SaveUsers(users[..|users| - 1]) + UserLine(users[|users| - 1])
  }

  /** %31[^|] */
  function UntilBar(s: string, room: nat): (r: string)
    ensures |r| <= |s| && |r| <= room && s[..|r|] == r
    decreases |s|
  {
    if s == "" || room == 0 || s[0] == '|' then "" else [s[0]] + UntilBar(s[1..], room - 1)
  }

  /** %31s */
  function Word(s: string, room: nat): (r: string)
    ensures |r| <= |s| && |r| <= room
    decreases |s|
  {
    if s == "" || room == 0 || IsSpace(s[0]) then "" else [s[0]] + Word(s[1..], room - 1)
  }

  predicate Bar(s: string) {
    s != "" && s[0] == '|'
  }

  /** "%d|%31[^|]|%d|%d" */
  function ReadFull(line: string): Option<User> {
    match ReadInt(line)
    case None => None
    case Some((id, r1)) =>
      if !Bar(r1) then None
      else
        var name := UntilBar(r1[1..], USERNAME_SIZE - 1);
        var r2 := r1[1..][|name|..];
        if name == "" || !Bar(r2) then None
        else
          match ReadInt(r2[1..])
          case None => None
          case Some((active, r3)) =>
            if !Bar(r3) then None
            else
              match ReadInt(r3[1..])
              case None => None
              case Some((admin, _)) => Some(User(id, name, active, admin))
  }

  /** "%d|%31s", the older format. */
  function ReadOld(line: string): Option<User> {
    match ReadInt(line)
    case None => None
    case Some((id, r1)) =>
      if !Bar(r1) then None
      else
        var name := Word(SkipSpace(r1[1..]), USERNAME_SIZE - 1);
        if name == "" then None else Some(User(id, name, 1, if name == ADMIN then 1 else 0))
  }

  function ReadUser(line: string): Option<User> {
    var u := ReadFull(CString(line));
    if u != None then u else ReadOld(CString(line))
  }

  /** The reading loop of load_users. */
  function ReadTable(lines: seq<string>): (users: seq<User>)
    ensures |users| <= MAX_USERS
    decreases |lines|
  {
    if lines == [] then []
    else
      var before, u := ReadTable(lines[..|lines| - 1]), ReadUser(lines[|lines| - 1]);
      if |before| >= MAX_USERS || u == None then before else before + [u.value]
  }

  /** The administrator exists, is active and is one. */
  function ForceAdmin(users: seq<User>): Option<seq<User>> {
    var i := FindName(users, ADMIN);
    if i >= 0 then Some(users[i := users[i].(active := 1, admin := 1)])
    else if |users| >= MAX_USERS then None
    else Some(users + [User(MaxId(users) + 1, ADMIN, 1, 1)])
  }

  /** load_users on the contents of users.db */
  function LoadUsers(text: string): Option<seq<User>> {
    ForceAdmin(ReadTable(FileLines(text, 256)))
  }

  // ------------------------------------------------------------ restarting

  predicate Int32(n: int) {
    -0x8000_0000 <= n < 0x8000_0000
  }

  predicate NameOk(name: string) {
    name != "" && |name| < USERNAME_SIZE && Clean(name)
  }

  predicate UserOk(u: User) {
    Int32(u.id) && NameOk(u.name) && Int32(u.active) && Int32(u.admin)
  }

  ghost predicate TableOk(users: seq<User>) {
    && |users| <= MAX_USERS
    && (forall i :: 0 <= i < |users| ==> UserOk(users[i]))
    && (forall i, j :: 0 <= i < j < |users| ==> users[i].id != users[j].id && users[i].name != users[j].name)
    && (forall i :: 0 <= i < |users| && users[i].admin != 0 ==> users[i].active != 0)
  }

  predicate AdminThere(users: seq<User>) {
    var i := FindName(users, ADMIN);
    i >= 0 && users[i].active == 1 && users[i].admin == 1
  }

  lemma ShortNumber(n: int)
    requires Int32(n)
    ensures |ShowInt(n)| <= 11
    ensures forall i :: 0 <= i < |ShowInt(n)| ==> ShowInt(n)[i] != '\n' && ShowInt(n)[i] != NUL && ShowInt(n)[i] != '|'
  {
    assert Pow10(10) == 10_000_000_000 by { TenDigits(); }
    ShownLength(if n < 0 then -n else n, 10);
  }

  lemma TenDigits()
    ensures Pow10(10) == 10_000_000_000
  {
    assert Pow10(2) == 100;
    assert Pow10(4) == 10000;
    assert Pow10(6) == 1000000;
    assert Pow10(8) == 100000000;
  }

  lemma {:induction false} NameUntilBar(name: string, rest: string, room: nat)
    requires Clean(name) && |name| <= room && Bar(rest)
    ensures UntilBar(name + rest, room) == name
    decreases |name|
  {
    if name == "" {
      assert name + rest == rest;
    } else {
      assert (name + rest)[1..] == name[1..] + rest;
      NameUntilBar(name[1..], rest, room - 1);
      assert name == [name[0]] + name[1..];
    }
  }

  /** A saved user is read back as it was. */
  lemma ReadUserLine(u: User)
    requires UserOk(u)
    ensures ReadUser(UserLine(u)) == Some(u)
  {
    hide ShowInt, ReadInt, UntilBar, CString;
    var l3 := "|" + ShowInt(u.admin) + "\n";
    var l2 := "|" + ShowInt(u.active) + l3;
    var l1 := "|" + u.name + l2;
    assert UserLine(u) == ShowInt(u.id) + l1;
    UserLineShape(u);
    CStringClean(UserLine(u));
    ReadShown(u.id, l1);
    assert l1[1..] == u.name + l2;
    NameUntilBar(u.name, l2, USERNAME_SIZE - 1);
    assert (u.name + l2)[|u.name|..] == l2;
    assert l2[1..] == ShowInt(u.active) + l3;
    ReadShown(u.active, l3);
    assert l3[1..] == ShowInt(u.admin) + "\n";
    ReadShown(u.admin, "\n");
  }

  /** A saved user takes one short line. */
  lemma UserLineShape(u: User)
    requires UserOk(u)
    ensures var l := UserLine(u);
            && l != "" && |l| < 256 && l[|l| - 1] == '\n'
            && (forall i :: 0 <= i < |l| - 1 ==> l[i] != '\n') && (forall i :: 0 <= i < |l| ==> l[i] != NUL)
  {
    hide ShowInt;
    ShortNumber(u.id);
    ShortNumber(u.active);
    ShortNumber(u.admin);
  }

  lemma {:induction false} ReadSaved(users: seq<User>)
    requires |users| <= MAX_USERS && forall i :: 0 <= i < |users| ==> UserOk(users[i])
    ensures Complete(SaveUsers(users)) && ReadTable(FileLines(SaveUsers(users), 256)) == users
    decreases |users|
  {
    hide FileLines, ReadUser, UserLine, UserOk;
    if users != [] {
      var before, u := users[..|users| - 1], users[|users| - 1];
      ReadSaved(before);
      UserLineShape(u);
      ReadUserLine(u);
      OneMoreLine(SaveUsers(before), UserLine(u), 256);
      var lines := FileLines(SaveUsers(before), 256);
      assert (lines + [UserLine(u)])[..|lines|] == lines;
      assert users == before + [u];
    } else {
      NoLines();
    }
  }

  lemma NoLines()
    ensures FileLines("", 256) == []
  {}

  /** Reading back the file that was saved yields the same table exactly if the administrator is in
      it, active and marked as such; otherwise load_users puts that right. */
  lemma RestartLossless(users: seq<User>)
    requires TableOk(users)
    ensures LoadUsers(SaveUsers(users)) == Some(users) <==> AdminThere(users)
  {
    hide FileLines, ReadTable;
    ReadSaved(users);
    var i := FindName(users, ADMIN);
    if i >= 0 {
      var forced := users[i := users[i].(active := 1, admin := 1)];
      assert AdminThere(users) ==> forced == users;
      assert forced[i].active == 1 && forced[i].admin == 1;
    }
  }

  /** Whatever the file holds, the server starts with an active administrator of the fixed name: the first
      account of that name is made one, or one is added, and every other entry stays; it does not start
      exactly if the table is full without that name. */
  lemma LoadsAny(text: string)
    ensures var table := ReadTable(FileLines(text, 256));
            match LoadUsers(text)
            case None => |table| == 1000 && forall k :: 0 <= k < |table| ==> table[k].name != "ahmet"
            case Some(users) =>
              && AdminThere(users) && |table| <= |users| <= 1000
              && (forall k :: 0 <= k < |table| && table[k].name != "ahmet" ==> users[k] == table[k])
              && (forall k :: 0 <= k < |table| ==> users[k].id == table[k].id && users[k].name == table[k].name)
              && if exists k :: 0 <= k < |table| && table[k].name == "ahmet" then |users| == |table|
                 else |users| == |table| + 1 && forall k :: 0 <= k < |table| ==> table[k].id < users[|table|].id
  {
    hide FileLines, ReadTable, MaxId;
    var table := ReadTable(FileLines(text, 256));
    var i := FindName(table, ADMIN);
    if i >= 0 {
      var users := table[i := table[i].(active := 1, admin := 1)];
      assert forall j :: 0 <= j < |table| ==> users[j].name == table[j].name;
      assert users[FindName(users, ADMIN)].name == table[FindName(users, ADMIN)].name == ADMIN;
    } else if |table| < MAX_USERS {
      var users := table + [User(MaxId(table) + 1, ADMIN, 1, 1)];
      assert FindName(users, ADMIN) == |table|;
    }
  }

  /** A line of the older format, an id and a name, is read as an active user, and as the administrator
      if the name is the administrator's. */
  lemma OldLineRead(id: int, name: string)
    requires Int32(id) && NameOk(name) && forall i :: 0 <= i < |name| ==> !IsSpace(name[i])
    ensures ReadUser(ShowInt(id) + "|" + name + "\n") == Some(User(id, name, 1, if name == "ahmet" then 1 else 0))
  {
    hide ShowInt, ReadInt, UntilBar, CString, Word, SkipSpace;
    var l1 := "|" + (name + "\n");
    var line := ShowInt(id) + l1;
    assert line == ShowInt(id) + "|" + name + "\n";
    ShortNumber(id);
    CStringClean(line);
    ReadShown(id, l1);
    assert l1[1..] == name + "\n";
    NoSpace(name + "\n");
    WordThen(name, "\n", USERNAME_SIZE - 1);
    var taken := UntilBar(name + "\n", USERNAME_SIZE - 1);
    assert forall i :: 0 <= i < |name + "\n"| ==> (name + "\n")[i] != '|';
    assert !Bar((name + "\n")[|taken|..]);
  }

  lemma {:induction false} WordThen(name: string, rest: string, room: nat)
    requires |name| <= room && (forall i :: 0 <= i < |name| ==> !IsSpace(name[i])) && rest != "" && IsSpace(rest[0])
    ensures Word(name + rest, room) == name
    decreases |name|
  {
    if name == "" {
      assert name + rest == rest;
    } else {
      assert (name + rest)[1..] == name[1..] + rest;
      WordThen(name[1..], rest, room - 1);
      assert name == [name[0]] + name[1..];
    }
  }

  /** The format of the file, by example. */
  lemma FileFormat()
    ensures UserLine(User(7, "ali", 1, 0)) == "7|ali|1|0\n"
    ensures ShowInt(-120) == "-120"
    ensures ReadInt(" +42x") == Some((42, "x")) && ReadInt("x") == None
  {
    assert ShowNat(120) == "120" by {
      assert ShowNat(1) == "1" && ShowNat(12) == "12";
    }
    var d := "42x";
    assert " +42x"[1..] == "+42x" && "+42x"[1..] == d && d[1..] == "2x" && "2x"[1..] == "x";
    assert DigitsOf("2x") == "2" && DigitsOf(d) == "42";
    assert "42"[..1] == "4" && "4"[..0] == "";
    assert Value("4") == 4 && Value("42") == 42;
    assert SkipSpace(" +42x") == "+42x";
  }
}
