/** The loops of the chat server over its arrays: searches, the history window, the conversation
    table with its sort, and the in-place string and buffer operations. */
module ChatQueries {
  import opened ChatText
  import opened ChatUsers
  import opened ChatLog
  import opened Chat
  import opened ChatFraming

  // ------------------------------------------------------------ searches

  /** find_user_index_by_id */
  method FindUserIndexById(users: array<User>, count: nat, id: int) returns (index: int)
    requires count <= users.Length
    ensures index == FindId(users[..count], id)
  {
    var i := 0;
    while i < count
      invariant 0 <= i <= count && FindId(users[..i], id) < 0
    {
      assert users[..i + 1][..i] == users[..i];
      if users[i].id == id {
        FindIdFirst(users[..count], i, id);
        return i;
      }
      i := i + 1;
    }
    return -1;
  }

  /** The first match decides. */
  lemma {:induction false} FindIdFirst(users: seq<User>, i: nat, id: int)
    requires i < |users| && users[i].id == id && forall j :: 0 <= j < i ==> users[j].id != id
    ensures FindId(users, id) == i
    decreases |users|
  {}

  /** find_user_index_by_name */
  method FindUserIndexByName(users: array<User>, count: nat, name: string) returns (index: int)
    requires count <= users.Length
    ensures index == FindName(users[..count], name)
  {
    var i := 0;
    while i < count
      invariant 0 <= i <= count && forall j :: 0 <= j < i ==> users[j].name != name
    {
      if users[i].name == name { return i; }
      i := i + 1;
    }
    return -1;
  }

  /** get_max_user_id */
  method GetMaxUserId(users: array<User>, count: nat) returns (max: int)
    requires count <= users.Length
    ensures max == MaxId(users[..count])
  {
    max := 0;
    var i := 0;
    while i < count
      invariant 0 <= i <= count && max == MaxId(users[..i])
    {
      assert users[..i + 1][..i] == users[..i];
      if users[i].id > max {
        max := users[i].id;
      }
      i := i + 1;
    }
  }

  /** find_client_by_user_id */
  method FindClientByUserId(clients: array<Client>, id: int) returns (index: int)
    ensures index == FindClient(clients[..], id)
  {
    var i := 0;
    while i < clients.Length
      invariant 0 <= i <= clients.Length && forall j :: 0 <= j < i ==> !IsUser(clients[j], id)
    {
      if clients[i].active && clients[i].loggedIn && clients[i].userId == id { return i; }
      i := i + 1;
    }
    return -1;
  }

  /** find_free_client_slot */
  method FindFreeClientSlot(clients: array<Client>) returns (index: int)
    ensures index == FindFree(clients[..])
  {
    var i := 0;
    while i < clients.Length
      invariant 0 <= i <= clients.Length && forall j :: 0 <= j < i ==> clients[j].active
    {
      if !clients[i].active { return i; }
      i := i + 1;
    }
    return -1;
  }

  // ------------------------------------------------------------ the users file

  /** save_users: the text of the new file. */
  method PrintUsers(users: array<User>, count: nat) returns (text: string)
    requires count <= users.Length
    ensures text == SaveUsers(users[..count])
  {
    text := "";
    var i := 0;
    while i < count
      invariant 0 <= i <= count && text == SaveUsers(users[..i])
    {
      assert users[..i + 1][..i] == users[..i];
      text := text + UserLine(users[i]);
      i := i + 1;
    }
  }

  // ------------------------------------------------------------ show_last_messages

  /** One more line of the log, as the history sees it. */
  lemma HistoryStep(lines: seq<string>, k: nat, me: int, partner: int)
    requires k < |lines|
    ensures var before := Exchanged(Records(lines[..k]), me, partner);
            var after := Exchanged(Records(lines[..k + 1]), me, partner);
            var parsed := ReadRecord(lines[k]);
            LastTen(after) ==
              if parsed.Some? && Between(parsed.value, me, partner) then Slide(LastTen(before), parsed.value)
              else LastTen(before)
  {
    hide ReadRecord, LastTen, Slide;
    assert lines[..k + 1][..k] == lines[..k];
    var parsed, rs := ReadRecord(lines[k]), Records(lines[..k]);
    if parsed.Some? {
      assert (rs + [parsed.value])[..|rs|] == rs;
      SlideKeeps(Exchanged(rs, me, partner), parsed.value);
    }
  }

  /** The last ten messages of a chat, in a window that slides in place. */
  method LastMessages(log: string, me: int, partner: int) returns (window: array<Record>, count: nat)
    ensures fresh(window) && count <= window.Length == 10
    ensures window[..count] == LastTen(Exchanged(LogRecords(log), me, partner))
    ensures forall j :: 0 <= j < count ==> SentBetween(window[j], me, partner)
  {
    hide Records, Exchanged, ReadRecord, FileLines, LastTen, Slide, Between;
    window := new Record[10](_ => Record(0, 0, 0, ""));
    count := 0;
    var lines := FileLines(log, LINE_SIZE);
    var k := 0;
    NoMessages(lines[..0], me, partner);
    while k < |lines|
      invariant 0 <= k <= |lines| && count <= 10 && fresh(window) && window.Length == 10
      invariant window[..count] == LastTen(Exchanged(Records(lines[..k]), me, partner))
    {
      HistoryStep(lines, k, me, partner);
      var parsed := ReadRecord(lines[k]);
      if parsed.Some? && Between(parsed.value, me, partner) {
        count := Push(window, count, parsed.value);
      }
      k := k + 1;
    }
    assert lines[..k] == lines;
    ghost var idx := ExchangedExactly(LogRecords(log), me, partner);
    OnlyTheirs(LogRecords(log), me, partner, idx, window[..count]);
    assert forall j :: 0 <= j < count ==> window[j] == window[..count][j];
  }

  lemma OnlyTheirs(rs: seq<Record>, me: int, partner: int, idx: seq<nat>, shown: seq<Record>)
    requires |idx| == |Exchanged(rs, me, partner)| && shown == LastTen(Exchanged(rs, me, partner))
    requires forall i :: 0 <= i < |idx| ==> idx[i] < |rs| && Exchanged(rs, me, partner)[i] == rs[idx[i]]
    requires forall k :: 0 <= k < |rs| && k in idx ==> SentBetween(rs[k], me, partner)
    ensures forall j :: 0 <= j < |shown| ==> SentBetween(shown[j], me, partner)
  {
    hide Exchanged, SentBetween;
    var all := Exchanged(rs, me, partner);
    forall j | 0 <= j < |shown|
      ensures SentBetween(shown[j], me, partner)
    {
      var i := if |all| <= 10 then j else |all| - 10 + j;
      assert shown[j] == all[i] && idx[i] in idx;
    }
  }

  lemma NoMessages(lines: seq<string>, me: int, partner: int)
    requires lines == []
    ensures LastTen(Exchanged(Records(lines), me, partner)) == []
  {}

  /** One step of the window. */
  method Push(window: array<Record>, count: nat, r: Record) returns (more: nat)
    requires count <= window.Length == 10
    modifies window
    ensures count <= more <= 10 && window[..more] == Slide(old(window[..count]), r)
  {
    if count < 10 {
      window[count] := r;
      more := count + 1;
      assert window[..more] == old(window[..count]) + [r];
    } else {
      ShiftDown(window);
      window[9] := r;
      more := 10;
      assert window[..10] == window[..9] + [r];
      assert window[..9] == old(window[..count])[1..];
    }
  }

  /** memmove of entries 1 to 9 to the front. */
  method ShiftDown(window: array<Record>)
    requires window.Length == 10
    modifies window
    ensures window[..9] == old(window[1..])
  {
    var j := 0;
    while j < 9
      invariant 0 <= j <= 9
      invariant forall k :: 0 <= k < j ==> window[k] == old(window[k + 1])
      invariant forall k :: j <= k < 10 ==> window[k] == old(window[k])
    {
      window[j] := window[j + 1];
      j := j + 1;
    }
  }

  // ------------------------------------------------------------ show_conversation_list

  /** The pairs held in the two parallel arrays. */
  function Zip(ids: seq<int>, times: seq<int>): (cs: seq<Contact>)
    requires |ids| == |times|
    ensures |cs| == |ids| && forall k :: 0 <= k < |ids| ==> cs[k] == Contact(ids[k], times[k])
  {
    if ids == [] then []
    else Zip(ids[..|ids| - 1], times[..|ids| - 1]) + [Contact(ids[|ids| - 1], times[|ids| - 1])]
  }

  lemma ZipIds(ids: seq<int>, times: seq<int>, cs: seq<Contact>)
    requires |ids| == |times| && cs == Zip(ids, times)
    ensures Ids(cs) == ids
  {}

  lemma ZipMore(ids: seq<int>, times: seq<int>, id: int, time: int)
    requires |ids| == |times|
    ensures Zip(ids + [id], times + [time]) == Zip(ids, times) + [Contact(id, time)]
  {}

  /** Find the contact or add it. */
  method Position(ids: array<int>, times: array<int>, count: nat, other: int) returns (position: nat)
    requires ids != times && count <= ids.Length == times.Length
    ensures var found := FindContact(Zip(ids[..count], times[..count]), other);
            position == if found >= 0 then found else count
  {
    position := 0;
    while position < count && ids[position] != other
      invariant 0 <= position <= count && forall k :: 0 <= k < position ==> ids[k] != other
    {
      position := position + 1;
    }
    ghost var cs := Zip(ids[..count], times[..count]);
    assert forall k :: 0 <= k < count ==> cs[k].id == ids[k];
  }

  /** One record: find the contact or add it, and keep its latest time. */
  method CountRecord(ids: array<int>, times: array<int>, count: nat, r: Record, me: int) returns (more: nat)
    requires ids != times && count <= ids.Length == times.Length == MAX_USERS
    requires forall k :: count <= k < times.Length ==> times[k] == 0
    modifies ids, times
    ensures count <= more <= MAX_USERS && forall k :: more <= k < times.Length ==> times[k] == 0
    ensures Zip(ids[..more], times[..more]) == Count(old(Zip(ids[..count], times[..count])), r, me)
  {
    hide FindContact;
    more := count;
    var other := if r.sender == me then r.receiver else if r.receiver == me then r.sender else -1;
    if other == -1 { return; }
    var position := Position(ids, times, count, other);
    if position == count && count >= MAX_USERS { return; }
    if position == count {
      AddContact(ids, times, count, other, r.time);
      more := count + 1;
    } else if r.time > times[position] {
      times[position] := r.time;
      assert Zip(ids[..count], times[..count])
           == old(Zip(ids[..count], times[..count]))[position := Contact(other, r.time)];
    }
  }

  /** A new contact starts from time 0. */
  method AddContact(ids: array<int>, times: array<int>, count: nat, other: int, time: int)
    requires ids != times && count < ids.Length == times.Length && times[count] == 0
    modifies ids, times
    ensures Zip(ids[..count + 1], times[..count + 1])
         == old(Zip(ids[..count], times[..count])) + [Contact(other, if time > 0 then time else 0)]
    ensures forall k :: count < k < times.Length ==> times[k] == old(times[k])
  {
    ids[count] := other;
    if time > times[count] {
      times[count] := time;
    }
    ZipMore(ids[..count], times[..count], ids[count], times[count]);
    assert ids[..count + 1] == ids[..count] + [ids[count]] && times[..count + 1] == times[..count] + [times[count]];
    assert ids[..count] == old(ids[..count]) && times[..count] == old(times[..count]);
  }

  /** Both arrays are exchanged in lockstep. */
  method ExchangeContacts(ids: array<int>, times: array<int>, ghost count: nat, i: nat, j: nat)
    requires ids != times && i < j < count <= ids.Length == times.Length
    modifies ids, times
    ensures Zip(ids[..count], times[..count]) == Exchange(old(Zip(ids[..count], times[..count])), i, j)
  {
    if times[j] > times[i] {
      times[i], times[j] := times[j], times[i];
      ids[i], ids[j] := ids[j], ids[i];
    }
  }

  /** The inner loop. */
  method BringLatest(ids: array<int>, times: array<int>, count: nat, i: nat)
    requires ids != times && i < count <= ids.Length == times.Length
    modifies ids, times
    ensures Zip(ids[..count], times[..count]) == Inner(old(Zip(ids[..count], times[..count])), i, i + 1)
  {
    hide Zip, Exchange;
    var j := i + 1;
    while j < count
      invariant i < j <= count
      invariant Inner(Zip(ids[..count], times[..count]), i, j)
           == Inner(old(Zip(ids[..count], times[..count])), i, i + 1)
    {
      ExchangeContacts(ids, times, count, i, j);
      j := j + 1;
    }
  }

  /** The exchange sort, in place on both arrays. */
  method SortContacts(ids: array<int>, times: array<int>, count: nat)
    requires ids != times && count <= ids.Length == times.Length
    modifies ids, times
    ensures Zip(ids[..count], times[..count]) == Outer(old(Zip(ids[..count], times[..count])), 0)
  {
    hide Zip, Inner;
    var i := 0;
    while i < count
      invariant 0 <= i <= count
      invariant Outer(Zip(ids[..count], times[..count]), i) == Outer(old(Zip(ids[..count], times[..count])), 0)
    {
      BringLatest(ids, times, count, i);
      i := i + 1;
    }
  }

  /** One more line of the log, as the conversation list sees it. */
  lemma TallyLine(lines: seq<string>, k: nat, me: int)
    requires k < |lines|
    ensures var before, after := Tally(Records(lines[..k]), me), Tally(Records(lines[..k + 1]), me);
            var parsed := ReadRecord(lines[k]);
            after == if parsed.Some? then Count(before, parsed.value, me) else before
  {
    hide ReadRecord, Count;
    assert lines[..k + 1][..k] == lines[..k];
    var parsed, rs := ReadRecord(lines[k]), Records(lines[..k]);
    if parsed.Some? {
      assert (rs + [parsed.value])[..|rs|] == rs;
    }
  }

  lemma NothingTallied(lines: seq<string>, me: int)
    requires lines == []
    ensures Tally(Records(lines), me) == [] == Zip([], [])
  {}

  /** The conversation list of a user: contacts gathered from the log and sorted. */
  method ConversationList(log: string, me: int) returns (contacts: seq<int>)
    ensures contacts == Ids(Conversations(log, me))
  {
    hide Records, Tally, ReadRecord, FileLines, Outer, Zip, Count, Ids;
    var ids, times := new int[MAX_USERS](_ => 0), new int[MAX_USERS](_ => 0);
    var count := 0;
    var lines := FileLines(log, LINE_SIZE);
    var k := 0;
    NothingTallied(lines[..0], me);
    assert ids[..0] == [] && times[..0] == [];
    while k < |lines|
      invariant 0 <= k <= |lines| && count <= MAX_USERS && forall p :: count <= p < times.Length ==> times[p] == 0
      invariant Zip(ids[..count], times[..count]) == Tally(Records(lines[..k]), me)
    {
      TallyLine(lines, k, me);
      var parsed := ReadRecord(lines[k]);
      if parsed.Some? {
        count := CountRecord(ids, times, count, parsed.value, me);
      }
      k := k + 1;
    }
    assert lines[..k] == lines;
    SortContacts(ids, times, count);
    ZipIds(ids[..count], times[..count], Zip(ids[..count], times[..count]));
    return ids[..count];
  }

  // ------------------------------------------------------------ strings and buffers in place

  /** sanitize_message on a character array that holds a terminated string. */
  method SanitizeMessage(message: array<char>)
    requires exists k :: 0 <= k < message.Length && message[k] == NUL
    modifies message
    ensures CString(message[..]) == Sanitize(old(message[..]))
  {
    hide Sanitize, CString;
    ghost var s := message[..];
    ghost var end :| 0 <= end < message.Length && message[end] == NUL;
    var i := 0;
    while message[i] != NUL
      invariant 0 <= i <= end && forall j :: i <= j < message.Length ==> message[j] == s[j]
      invariant forall j :: 0 <= j < i ==> !Stops(s[j]) && message[j] == if s[j] == '|' then '/' else s[j]
      decreases end - i
    {
      if message[i] == '|' {
        message[i] := '/';
      }
      if message[i] == '\r' || message[i] == '\n' {
        message[i] := NUL;
        break;
      }
      i := i + 1;
    }
    SanitizedAt(s, i);
    EndsAt(message[..], i);
    assert message[..][..i] == Sanitize(s);
  }

  lemma {:induction false} EndsAt(s: string, i: nat)
    requires i < |s| && s[i] == NUL && forall j :: 0 <= j < i ==> s[j] != NUL
    ensures CString(s) == s[..i]
    decreases i
  {
    if i > 0 {
      EndsAt(s[1..], i - 1);
      assert s[..i] == [s[0]] + s[1..][..i - 1];
    }
  }

  lemma {:induction false} StringStarts(s: string, i: nat)
    requires i <= |s| && forall j :: 0 <= j < i ==> s[j] != NUL
    ensures i <= |CString(s)| && CString(s)[..i] == s[..i]
    ensures i == |s| || s[i] == NUL ==> CString(s) == s[..i]
    decreases i
  {
    if i > 0 {
      StringStarts(s[1..], i - 1);
      assert s[..i] == [s[0]] + s[1..][..i - 1];
    }
  }

  /** Nothing behind the end of a string matters to sanitize_message. */
  lemma {:induction false} SanitizeString(s: string)
    ensures Sanitize(s) == Sanitize(CString(s))
    decreases |s|
  {
    if s != "" && s[0] != NUL {
      SanitizeString(s[1..]);
      assert CString(s)[1..] == CString(s[1..]);
    }
  }

  /** strncpy: the bytes of the string as far as there is room, and zero bytes behind them. */
  method CopyString(into: array<char>, text: string, room: nat)
    requires room <= into.Length
    modifies into
    ensures var t := Cut(CString(text), room);
            && into[..|t|] == t && (forall j :: |t| <= j < room ==> into[j] == NUL)
            && forall j :: 0 <= j < |t| ==> t[j] != NUL
    ensures into[room..] == old(into[room..])
  {
    hide CString;
    var i := 0;
    while i < room && i < |text| && text[i] != NUL
      invariant 0 <= i <= room && i <= |text| && forall j :: 0 <= j < i ==> into[j] == text[j] != NUL
      invariant into[room..] == old(into[room..])
    {
      into[i] := text[i];
      i := i + 1;
    }
    StringStarts(text, i);
    assert into[..i] == text[..i];
    var k := i;
    while k < room
      invariant i <= k <= room && into[..i] == text[..i]
      invariant into[room..] == old(into[room..]) && forall j :: i <= j < k ==> into[j] == NUL
    {
      into[k] := NUL;
      k := k + 1;
    }
  }

  /** The part of append_message that prepares the text: copied, terminated, cleaned in place. */
  method CleanCopy(text: string) returns (clean: string)
    ensures clean == Stored(text)
  {
    hide CString, Sanitize;
    var message := new char[MESSAGE_SIZE];
    CopyString(message, text, MESSAGE_SIZE - 1);
    message[MESSAGE_SIZE - 1] := NUL;
    ghost var t := Cut(CString(text), MESSAGE_SIZE - 1);
    EndsAt(message[..], |t|);
    assert message[..][..|t|] == t;
    SanitizeString(message[..]);
    SanitizeMessage(message);
    clean := CString(message[..]);
  }

  /** The input buffer of a client. */
  class LineBuffer {
    const data: array<char>
    var len: nat

    constructor ()
      ensures Fits() && fresh(data) && Text() == ""
    {
      data := new char[INPUT_SIZE](_ => ' ');
      len := 0;
    }

    predicate Fits()
      reads this
    {
      data.Length == INPUT_SIZE && len < INPUT_SIZE
    }

    function Text(): string
      requires Fits()
      reads this, data
    {
      data[..len]
    }

    /** A chunk is added, or, if it does not fit, lost together with what the buffer held. */
    method Add(chunk: string) returns (ok: bool)
      requires Fits()
      modifies this, data
      ensures Fits() && (ok <==> old(len) + |chunk| < INPUT_SIZE)
      ensures Text() == if ok then old(Text()) + chunk else ""
    {
      if len + |chunk| >= INPUT_SIZE {
        len := 0;
        return false;
      }
      var i := 0;
      while i < |chunk|
        invariant 0 <= i <= |chunk| && len == old(len)
        invariant data[..len] == old(data[..len])
        invariant forall j :: 0 <= j < i ==> data[len + j] == chunk[j]
      {
        data[len + i] := chunk[i];
        i := i + 1;
      }
      len := len + |chunk|;
      return true;
    }

    /** Cutting the first line off: the rest moves to the front, over the place it came from. */
    method NextLine() returns (found: bool, line: string)
      requires Fits()
      modifies this, data
      ensures Fits() && (found <==> Break(old(Text())) < |old(Text())|)
      ensures found ==> line == old(Text())[..Break(old(Text()))] && Text() == old(Text())[Break(old(Text())) + 1..]
      ensures !found ==> Text() == old(Text())
    {
      var k := 0;
      while k < len && data[k] != '\n'
        invariant 0 <= k <= len && forall j :: 0 <= j < k ==> data[j] != '\n'
      {
        k := k + 1;
      }
      BreakOf(data[..len], k);
      if k == len { return false, ""; }
      line := data[..k];
      MoveDown(k + 1);
      return true, line;
    }

    /** memmove */
    method MoveDown(consumed: nat)
      requires Fits() && consumed <= len
      modifies this`len, data
      ensures Fits() && Text() == old(Text())[consumed..]
    {
      var i := 0;
      while i < len - consumed
        invariant 0 <= i <= len - consumed && len == old(len)
        invariant forall j :: 0 <= j < i ==> data[j] == old(data[consumed + j])
        invariant forall j :: i <= j < data.Length ==> data[j] == old(data[j])
      {
        data[i] := data[consumed + i];
        i := i + 1;
      }
      len := len - consumed;
    }

    /** A chunk as main handles it, when process_line disconnects the client, and so zeroes its slot, on
        the line numbered `gone`, if there are that many. */
    method Receive(chunk: string, gone: nat) returns (ok: bool, lines: seq<string>)
      requires Fits()
      modifies this, data
      ensures Fits() && (ok <==> old(len) + |chunk| < INPUT_SIZE)
      ensures var all := LinesOf(old(Text()) + chunk);
              ok ==> if gone < |all| then lines == all[..gone + 1] && Text() == ""
                     else lines == all && Text() == TailOf(old(Text()) + chunk)
      ensures !ok ==> lines == [] && Text() == ""
    {
      hide LinesOf, TailOf, Break;
      lines := [];
      ok := Add(chunk);
      if !ok { return; }
      ghost var all := Text();
      var found := true;
      while found
        invariant Fits() && lines + LinesOf(Text()) == LinesOf(all) && TailOf(Text()) == TailOf(all) && |lines| <= gone
        invariant !found ==> Break(Text()) == |Text()|
        decreases found, len
      {
        ghost var before := Text();
        var line: string;
        found, line := NextLine();
        if found {
          LinesStep(before, Break(before));
          lines := lines + [line];
          if |lines| > gone {
            len := 0;
            return;
          }
        }
      }
      ChatFraming.NoLines(Text());
    }
  }
}
