/** The message log, messages.db, and the two questions asked of it. */
module ChatLog {
  import opened ChatText
  import opened ChatUsers

  /** MESSAGE_SIZE, and the line buffer of both readers */
  const MESSAGE_SIZE: nat := 1024
  const LINE_SIZE: nat := 1400

  datatype Record = Record(time: int, sender: int, receiver: int, text: string)

  // ------------------------------------------------------------ writing and reading records

  function Cut(s: string, k: nat): (r: string)
    ensures |r| <= |s| && r == s[..|r|] && |r| <= k && (|r| < k ==> r == s)
  {
    if |s| <= k then s else s[..k]
  }

  /** What append_message stores of a text: its first 1023 bytes, cleaned. */
  function Stored(text: string): string {
    Sanitize(Cut(CString(text), MESSAGE_SIZE - 1))
  }

  function RecordLine(r: Record): string {
    ShowInt(r.time) + "|" + ShowInt(r.sender) + "|" + ShowInt(r.receiver) + "|" + r.text + "\n"
  }

  /** append_message at time `now` */
  function Append(log: string, now: int, sender: int, receiver: int, text: string): string {
    log + RecordLine(Record(now, sender, receiver, Stored(text)))
  }

  /** %1023[^\n] */
  function UntilBreak(s: string, room: nat): (r: string)
    ensures |r| <= |s| && |r| <= room
    decreases |s|
  {
    if s == "" || room == 0 || s[0] == '\n' then "" else [s[0]] + UntilBreak(s[1..], room - 1)
  }

  /** "%ld|%d|%d|%1023[^\n]"; three numbers are enough. */
  function ReadRecord(line: string): Option<Record> {
    match ReadInt(CString(line))
    case None => None
    case Some((time, r1)) =>
      if !Bar(r1) then None
      else
        match ReadInt(r1[1..])
        case None => None
        case Some((sender, r2)) =>
          if !Bar(r2) then None
          else
            match ReadInt(r2[1..])
            case None => None
            case Some((receiver, r3)) =>
              Some(Record(time, sender, receiver, if Bar(r3) then UntilBreak(r3[1..], MESSAGE_SIZE - 1) else ""))
  }

  /** The records both readers see. */
  function Records(lines: seq<string>): seq<Record>
    decreases |lines|
  {
    if lines == [] then []
    else
      var before, r := Records(lines[..|lines| - 1]), ReadRecord(lines[|lines| - 1]);
      if r == None then before else before + [r.value]
  }

  function LogRecords(log: string): seq<Record> {
    Records(FileLines(log, LINE_SIZE))
  }

  lemma {:induction false} TextUntilBreak(text: string, room: nat)
    requires Clean(text) && |text| <= room
    ensures UntilBreak(text + "\n", room) == text
    decreases |text|
  {
    if text == "" {
      assert text + "\n" == "\n";
    } else {
      assert (text + "\n")[1..] == text[1..] + "\n";
      TextUntilBreak(text[1..], room - 1);
      assert text == [text[0]] + text[1..];
    }
  }

  predicate Int64(n: int) {
    -0x8000_0000_0000_0000 <= n < 0x8000_0000_0000_0000
  }

  predicate RecordOk(r: Record) {
    Int64(r.time) && Int32(r.sender) && Int32(r.receiver) && Clean(r.text) && |r.text| < MESSAGE_SIZE
  }

  lemma ShortTime(n: int)
    requires Int64(n)
    ensures |ShowInt(n)| <= 20
    ensures forall i :: 0 <= i < |ShowInt(n)| ==> ShowInt(n)[i] != '\n' && ShowInt(n)[i] != NUL
  {
    NineteenDigits();
    ShownLength(if n < 0 then -n else n, 19);
  }

  lemma NineteenDigits()
    ensures Pow10(19) == 10_000_000_000_000_000_000
  {
    TenDigits();
    assert Pow10(12) == 1_000_000_000_000;
    assert Pow10(14) == 100_000_000_000_000;
    assert Pow10(16) == 10_000_000_000_000_000;
    assert Pow10(18) == 1_000_000_000_000_000_000;
  }

  lemma RecordLineShape(r: Record)
    requires RecordOk(r)
    ensures var l := RecordLine(r);
            && l != "" && |l| < LINE_SIZE && l[|l| - 1] == '\n'
            && (forall i :: 0 <= i < |l| - 1 ==> l[i] != '\n') && (forall i :: 0 <= i < |l| ==> l[i] != NUL)
  {
    hide ShowInt;
    ShortTime(r.time);
    ShortNumber(r.sender);
    ShortNumber(r.receiver);
  }

  lemma ReadRecordLine(r: Record)
    requires RecordOk(r)
    ensures ReadRecord(RecordLine(r)) == Some(r)
  {
    hide ShowInt, ReadInt, UntilBreak, CString, RecordOk, RecordLine;
    var l3 := "|" + (r.text + "\n");
    var l2 := "|" + (ShowInt(r.receiver) + l3);
    var l1 := "|" + (ShowInt(r.sender) + l2);
    RecordLineParts(r, l1, l2, l3);
    CStringClean(RecordLine(r));
    assert l1[1..] == ShowInt(r.sender) + l2;
    assert l2[1..] == ShowInt(r.receiver) + l3;
    assert l3[1..] == r.text + "\n";
  }

  lemma RecordLineParts(r: Record, l1: string, l2: string, l3: string)
    requires RecordOk(r)
    requires l3 == "|" + (r.text + "\n") && l2 == "|" + (ShowInt(r.receiver) + l3)
    requires l1 == "|" + (ShowInt(r.sender) + l2)
    ensures RecordLine(r) == ShowInt(r.time) + l1 && forall i :: 0 <= i < |RecordLine(r)| ==> RecordLine(r)[i] != NUL
    ensures ReadInt(RecordLine(r)) == Some((r.time, l1))
    ensures ReadInt(ShowInt(r.sender) + l2) == Some((r.sender, l2))
    ensures ReadInt(ShowInt(r.receiver) + l3) == Some((r.receiver, l3))
    ensures UntilBreak(r.text + "\n", MESSAGE_SIZE - 1) == r.text
  {
    hide ShowInt, ReadInt, UntilBreak;
    RecordLineShape(r);
    ReadShown(r.time, l1);
    ReadShown(r.sender, l2);
    ReadShown(r.receiver, l3);
    TextUntilBreak(r.text, MESSAGE_SIZE - 1);
  }

  /** A message appended to any complete log is read back by both readers as one more record, the
      same but for its text being cut at 1023 bytes and cleaned, and nothing else changes. */
  lemma AppendedIsRead(log: string, now: int, sender: int, receiver: int, text: string)
    requires Complete(log) && Int64(now) && Int32(sender) && Int32(receiver)
    ensures Complete(Append(log, now, sender, receiver, text))
    ensures LogRecords(Append(log, now, sender, receiver, text))
         == LogRecords(log) + [Record(now, sender, receiver, Stored(text))]
    ensures Clean(text) ==> Stored(text) == Cut(text, MESSAGE_SIZE - 1)
  {
    hide FileLines, ReadRecord, RecordLine, Sanitize, CString;
    var r := Record(now, sender, receiver, Stored(text));
    RecordLineShape(r);
    ReadRecordLine(r);
    OneMoreLine(log, RecordLine(r), LINE_SIZE);
    var lines := FileLines(log, LINE_SIZE);
    assert (lines + [RecordLine(r)])[..|lines|] == lines;
    if Clean(text) {
      CStringClean(text);
    }
  }

  /** A line with three numbers and no bar behind them is a message without text. */
  lemma NumbersOnly(time: int, sender: int, receiver: int, rest: string)
    requires Int64(time) && Int32(sender) && Int32(receiver)
    requires forall i :: 0 <= i < |rest| ==> rest[i] != NUL
    requires rest == "" || (!IsDigit(rest[0]) && rest[0] != '|')
    ensures ReadRecord(ShowInt(time) + "|" + ShowInt(sender) + "|" + ShowInt(receiver) + rest)
         == Some(Record(time, sender, receiver, ""))
  {
    hide ShowInt, ReadInt, UntilBreak, CString;
    var l2 := "|" + (ShowInt(receiver) + rest);
    var l1 := "|" + (ShowInt(sender) + l2);
    var line := ShowInt(time) + l1;
    assert line == ShowInt(time) + "|" + ShowInt(sender) + "|" + ShowInt(receiver) + rest;
    ShortTime(time);
    ShortNumber(sender);
    ShortNumber(receiver);
    CStringClean(line);
    ReadShown(time, l1);
    ReadShown(sender, l2);
    ReadShown(receiver, rest);
    assert l1[1..] == ShowInt(sender) + l2 && l2[1..] == ShowInt(receiver) + rest;
  }

  /** The format of the log, by example. */
  lemma LogFormat()
    ensures RecordLine(Record(5, 2, 3, "hi")) == "5|2|3|hi\n"
  {}

  // ------------------------------------------------------------ show_last_messages

  predicate Between(r: Record, me: int, other: int) {
    (r.sender == me && r.receiver == other) || (r.sender == other && r.receiver == me)
  }

  /** The messages of one chat, in the order of the log. */
  function Exchanged(rs: seq<Record>, me: int, other: int): seq<Record>
    decreases |rs|
  {
    if rs == [] then []
    else
      var before, r := Exchanged(rs[..|rs| - 1], me, other), rs[|rs| - 1];
      if Between(r, me, other) then before + [r] else before
  }

  /** The last ten of a sequence. */
  function LastTen(rs: seq<Record>): seq<Record> {
    if |rs| <= 10 then rs else rs[|rs| - 10..]
  }

  /** One step of the sliding window: a full window first drops its oldest entry. */
  function Slide(window: seq<Record>, r: Record): seq<Record> {
    if |window| < 10 then window + [r] else window[1..] + [r]
  }

  lemma SlideKeeps(rs: seq<Record>, r: Record)
    ensures Slide(LastTen(rs), r) == LastTen(rs + [r])
  {}

  lemma {:induction false} BothSee(rs: seq<Record>, me: int, other: int)
    ensures Exchanged(rs, me, other) == Exchanged(rs, other, me)
    decreases |rs|
  {
    if rs != [] {
      BothSee(rs[..|rs| - 1], me, other);
    }
  }

  /** One of the two has sent the record to the other. */
  predicate SentBetween(r: Record, me: int, other: int) {
    (r.sender, r.receiver) == (me, other) || (r.sender, r.receiver) == (other, me)
  }

  lemma BetweenIs(r: Record, me: int, other: int)
    ensures Between(r, me, other) <==> SentBetween(r, me, other)
  {}

  /** The records shown to `me` about `other`: `idx` are their places in the log, in order; they are those,
      and only those, that one of the two has sent to the other. */
  lemma {:induction false} ExchangedExactly(rs: seq<Record>, me: int, other: int) returns (idx: seq<nat>)
    ensures |idx| == |Exchanged(rs, me, other)|
    ensures forall i :: 0 <= i < |idx| ==> idx[i] < |rs| && Exchanged(rs, me, other)[i] == rs[idx[i]]
    ensures forall i, j :: 0 <= i < j < |idx| ==> idx[i] < idx[j]
    ensures forall k :: 0 <= k < |rs| ==> (k in idx <==> SentBetween(rs[k], me, other))
    decreases |rs|
  {
    hide Between, SentBetween;
    idx := [];
    if rs != [] {
      var last := |rs| - 1;
      var before := ExchangedExactly(rs[..last], me, other);
      BetweenIs(rs[last], me, other);
      idx := if Between(rs[last], me, other) then before + [last] else before;
      forall k | 0 <= k < last
        ensures k in idx <==> SentBetween(rs[k], me, other)
      {
        assert rs[..last][k] == rs[k];
      }
    }
  }

  /** A message between any other two, even if one of them is one of the two, changes nothing for them. */
  lemma StrangersUnseen(log: string, now: int, sender: int, receiver: int, text: string, me: int, other: int)
    requires Complete(log) && Int64(now) && Int32(sender) && Int32(receiver)
    requires !SentBetween(Record(now, sender, receiver, text), me, other)
    ensures Exchanged(LogRecords(Append(log, now, sender, receiver, text)), me, other)
         == Exchanged(LogRecords(log), me, other)
  {
    hide LogRecords, Append, Stored;
    var r, before := Record(now, sender, receiver, Stored(text)), LogRecords(log);
    AppendedIsRead(log, now, sender, receiver, text);
    assert (before + [r])[..|before|] == before;
  }

  /** Sender and receiver are shown the same history, and a message just sent is its last entry. */
  lemma NewestShown(log: string, now: int, sender: int, receiver: int, text: string)
    requires Complete(log) && Int64(now) && Int32(sender) && Int32(receiver)
    ensures var rs := LogRecords(Append(log, now, sender, receiver, text));
            var shown := LastTen(Exchanged(rs, sender, receiver));
            && shown == LastTen(Exchanged(rs, receiver, sender))
            && shown == Slide(LastTen(Exchanged(LogRecords(log), sender, receiver)),
                              Record(now, sender, receiver, Stored(text)))
            && shown != [] && shown[|shown| - 1] == Record(now, sender, receiver, Stored(text))
  {
    hide LogRecords, Append, Stored;
    var r, before := Record(now, sender, receiver, Stored(text)), LogRecords(log);
    AppendedIsRead(log, now, sender, receiver, text);
    BothSee(before + [r], sender, receiver);
    assert (before + [r])[..|before|] == before;
    SlideKeeps(Exchanged(before, sender, receiver), r);
  }

  // ------------------------------------------------------------ show_conversation_list

  datatype Contact = Contact(id: int, time: int)

  /** The other user of a record, or -1. */
  function Counterpart(r: Record, me: int): int {
    if r.sender == me then r.receiver else if r.receiver == me then r.sender else -1
  }

  function FindContact(cs: seq<Contact>, id: int): (i: int)
    ensures -1 <= i < |cs|
    ensures i >= 0 ==> cs[i].id == id && forall j :: 0 <= j < i ==> cs[j].id != id
    ensures i < 0 ==> forall j :: 0 <= j < |cs| ==> cs[j].id != id
    decreases |cs|
  {
    if cs == [] then -1
    else
      var last := |cs| - 1;
      var i := FindContact(cs[..last], id);
      if i >= 0 then i else if cs[last].id == id then last else -1
  }

  /** One record in the first loop of show_conversation_list. */
  function Count(cs: seq<Contact>, r: Record, me: int): seq<Contact> {
    var id := Counterpart(r, me);
    if id == -1 then cs
    else
      var i := FindContact(cs, id);
      if i >= 0 then
        if r.time > cs[i].time then cs[i := Contact(id, r.time)] else cs
      else if |cs| >= MAX_USERS then cs
      else cs + [Contact(id, if r.time > 0 then r.time else 0)]
  }

  function Tally(rs: seq<Record>, me: int): seq<Contact>
    decreases |rs|
  {
    if rs == [] then [] else Count(Tally(rs[..|rs| - 1], me), rs[|rs| - 1], me)
  }

  predicate Distinct(cs: seq<Contact>) {
    forall i, j :: 0 <= i < j < |cs| ==> cs[i].id != cs[j].id
  }

  /** The latest time at which `me` and `id` exchanged a message; 0 if there is none later. */
  function Latest(rs: seq<Record>, me: int, id: int): (t: int)
    ensures t >= 0
    ensures forall i :: 0 <= i < |rs| && Counterpart(rs[i], me) == id ==> rs[i].time <= t
    ensures t == 0 || exists i :: 0 <= i < |rs| && Counterpart(rs[i], me) == id && rs[i].time == t
    decreases |rs|
  {
    if rs == [] then 0
    else
      var t, r := Latest(rs[..|rs| - 1], me, id), rs[|rs| - 1];
      if Counterpart(r, me) == id && r.time > t then r.time else t
  }

  predicate Met(rs: seq<Record>, me: int, id: int) {
    id != -1 && exists i :: 0 <= i < |rs| && Counterpart(rs[i], me) == id
  }

  /** The table holds each counterpart once, with its latest time; only a full table leaves any out. */
  lemma {:induction false} TallyRight(rs: seq<Record>, me: int)
    ensures TableRight(Tally(rs, me), rs, me)
    decreases |rs|
  {
    hide Count, Met, Latest, FindContact, Distinct;
    if rs != [] {
      var before, r := rs[..|rs| - 1], rs[|rs| - 1];
      TallyRight(before, me);
      TallyStep(before, r, me, Tally(before, me));
      assert before + [r] == rs;
    } else {
      NobodyMet(me);
    }
  }

  lemma NobodyMet(me: int)
    ensures TableRight([], [], me)
  {}

  lemma MetMore(before: seq<Record>, r: Record, me: int, id: int)
    ensures Met(before + [r], me, id) <==> Met(before, me, id) || (id != -1 && Counterpart(r, me) == id)
    ensures Latest(before + [r], me, id) ==
      if Counterpart(r, me) == id && r.time > Latest(before, me, id) then r.time else Latest(before, me, id)
  {
    var rs := before + [r];
    assert rs[..|before|] == before;
    if Met(before, me, id) {
      var i :| 0 <= i < |before| && Counterpart(before[i], me) == id;
      assert Counterpart(rs[i], me) == id;
    }
    assert Counterpart(rs[|before|], me) == Counterpart(r, me);
  }

  lemma NotMet(rs: seq<Record>, me: int, id: int)
    requires id != -1 && !Met(rs, me, id)
    ensures Latest(rs, me, id) == 0
  {}

  /** The table is right for the records `rs`. */
  ghost predicate TableRight(cs: seq<Contact>, rs: seq<Record>, me: int) {
    && |cs| <= MAX_USERS && Distinct(cs)
    && (forall i :: 0 <= i < |cs| ==> EntryRight(cs[i], rs, me))
    && (|cs| < MAX_USERS ==> forall id :: Met(rs, me, id) ==> FindContact(cs, id) >= 0)
  }

  predicate EntryRight(c: Contact, rs: seq<Record>, me: int) {
    Met(rs, me, c.id) && c.time == Latest(rs, me, c.id)
  }

  lemma TallyStep(before: seq<Record>, r: Record, me: int, cs: seq<Contact>)
    requires TableRight(cs, before, me)
    ensures TableRight(Count(cs, r, me), before + [r], me)
  {
    hide Latest, Met, Count, Distinct, EntryRight;
    var ds := Count(cs, r, me);
    CountDistinct(cs, r, me);
    forall i | 0 <= i < |ds|
      ensures EntryRight(ds[i], before + [r], me)
    {
      CountEntry(before, r, me, cs, i);
    }
    forall id | |ds| < MAX_USERS && Met(before + [r], me, id)
      ensures FindContact(ds, id) >= 0
    {
      MetMore(before, r, me, id);
      MetIsNot(before, me, id);
      CountFinds(cs, r, me, id);
    }
  }

  lemma CountDistinct(cs: seq<Contact>, r: Record, me: int)
    requires Distinct(cs) && |cs| <= MAX_USERS
    ensures Distinct(Count(cs, r, me)) && |cs| <= |Count(cs, r, me)| <= MAX_USERS
  {}

  lemma CountFinds(cs: seq<Contact>, r: Record, me: int, id: int)
    requires FindContact(cs, id) >= 0 || (id != -1 && Counterpart(r, me) == id && |cs| < MAX_USERS)
    ensures FindContact(Count(cs, r, me), id) >= 0
  {
    var ds := Count(cs, r, me);
    if FindContact(cs, id) >= 0 {
      assert ds[FindContact(cs, id)].id == id;
    } else {
      assert ds[|ds| - 1].id == id;
    }
  }

  lemma CountEntry(before: seq<Record>, r: Record, me: int, cs: seq<Contact>, i: nat)
    requires TableRight(cs, before, me) && i < |Count(cs, r, me)|
    ensures EntryRight(Count(cs, r, me)[i], before + [r], me)
  {
    hide Latest, Met;
    var id, ds := Counterpart(r, me), Count(cs, r, me);
    MetMore(before, r, me, ds[i].id);
    if i < |cs| {
      assert EntryRight(cs[i], before, me);
      MetIsNot(before, me, cs[i].id);
      assert i == FindContact(cs, id) || cs[i].id != id || id == -1;
    } else {
      assert !Met(before, me, id);
      NotMet(before, me, id);
    }
  }

  lemma MetIsNot(rs: seq<Record>, me: int, id: int)
    ensures Met(rs, me, id) ==> id != -1
  {}

  // ------------------------------------------------------------ the exchange sort

  /** Exchange entries i and j if the later one is more recent. */
  function Exchange(cs: seq<Contact>, i: nat, j: nat): (r: seq<Contact>)
    requires i < j < |cs|
    ensures |r| == |cs|
  {
    if cs[j].time > cs[i].time then cs[i := cs[j]][j := cs[i]] else cs
  }

  /** The inner loop from j on. */
  function Inner(cs: seq<Contact>, i: nat, j: nat): (r: seq<Contact>)
    requires i < j <= |cs|
    ensures |r| == |cs|
    decreases |cs| - j
  {
    if j == |cs| then cs else Inner(Exchange(cs, i, j), i, j + 1)
  }

  /** The outer loop from i on. */
  function Outer(cs: seq<Contact>, i: nat): (r: seq<Contact>)
    requires i <= |cs|
    ensures |r| == |cs|
    decreases |cs| - i
  {
    if i == |cs| then cs else Outer(Inner(cs, i, i + 1), i + 1)
  }

  predicate MostRecentFirst(cs: seq<Contact>) {
    forall i, j :: 0 <= i < j < |cs| ==> cs[i].time >= cs[j].time
  }

  lemma ExchangePermutes(cs: seq<Contact>, i: nat, j: nat)
    requires i < j < |cs|
    ensures multiset(Exchange(cs, i, j)) == multiset(cs)
  {}

  /** No entry from i on is later than t. */
  predicate AtMost(cs: seq<Contact>, i: nat, t: int) {
    forall k :: i <= k < |cs| ==> cs[k].time <= t
  }

  lemma ExchangeAtMost(cs: seq<Contact>, i: nat, j: nat)
    requires i < j < |cs|
    ensures forall t :: AtMost(cs, i, t) ==> AtMost(Exchange(cs, i, j), i, t)
  {}

  /** The inner loop brings the most recent of the entries from i on to place i, and only permutes. */
  lemma {:induction false} InnerRight(cs: seq<Contact>, i: nat, j: nat)
    requires i < j <= |cs|
    requires forall k :: i < k < j ==> cs[i].time >= cs[k].time
    ensures var r := Inner(cs, i, j);
            && multiset(r) == multiset(cs) && r[..i] == cs[..i]
            && (forall k :: i < k < |cs| ==> r[i].time >= r[k].time)
            && (forall t :: AtMost(cs, i, t) ==> AtMost(r, i, t))
    decreases |cs| - j
  {
    hide AtMost;
    if j < |cs| {
      ExchangeAtMost(cs, i, j);
      var ds := Exchange(cs, i, j);
      ExchangePermutes(cs, i, j);
      assert ds[..i] == cs[..i];
      InnerRight(ds, i, j + 1);
    }
  }

  /** Everything before i is in order and no less recent than everything from i on. */
  predicate SortedTo(cs: seq<Contact>, i: nat) {
    forall k, l :: 0 <= k < i && k < l < |cs| ==> cs[k].time >= cs[l].time
  }

  lemma {:induction false} OuterRight(cs: seq<Contact>, i: nat)
    requires i <= |cs| && SortedTo(cs, i)
    ensures multiset(Outer(cs, i)) == multiset(cs) && MostRecentFirst(Outer(cs, i))
    decreases |cs| - i
  {
    if i < |cs| {
      var r := Inner(cs, i, i + 1);
      InnerRight(cs, i, i + 1);
      InnerSorted(cs, i, r);
      OuterRight(r, i + 1);
    }
  }

  lemma InnerSorted(cs: seq<Contact>, i: nat, r: seq<Contact>)
    requires i < |cs| == |r| && SortedTo(cs, i) && r[..i] == cs[..i]
    requires forall k :: i < k < |cs| ==> r[i].time >= r[k].time
    requires forall t :: AtMost(cs, i, t) ==> AtMost(r, i, t)
    ensures SortedTo(r, i + 1)
  {
    forall k, l | 0 <= k < i + 1 && k < l < |r|
      ensures r[k].time >= r[l].time
    {
      if k < i {
        assert r[k] == r[..i][k] == cs[..i][k] == cs[k];
        if l < i {
          assert r[l] == r[..i][l] == cs[..i][l] == cs[l];
        } else {
          assert AtMost(cs, i, cs[k].time);
        }
      }
    }
  }

  /** The conversation list: the counterparts of the user's messages, each once, paired with the
      time of the latest, most recent first. */
  function Conversations(log: string, me: int): seq<Contact> {
    Outer(Tally(LogRecords(log), me), 0)
  }

  lemma ConversationsRight(log: string, me: int)
    ensures var cs, rs := Conversations(log, me), LogRecords(log);
            MostRecentFirst(cs) && TableRight(cs, rs, me)
  {
    hide LogRecords, Tally, Outer, FindContact, EntryRight, Met;
    var rs := LogRecords(log);
    var cs := Tally(rs, me);
    TallyRight(rs, me);
    OuterRight(cs, 0);
    var ds := Outer(cs, 0);
    forall i | 0 <= i < |ds|
      ensures EntryRight(ds[i], rs, me)
    {
      assert ds[i] in multiset(ds);
      assert ds[i] in multiset(cs);
    }
    DistinctPermuted(cs, ds);
    assert |cs| == |multiset(cs)| && |ds| == |multiset(ds)|;
    forall id | |ds| < MAX_USERS && Met(rs, me, id)
      ensures FindContact(ds, id) >= 0
    {
      var i := FindContact(cs, id);
      assert i >= 0;
      StillThere(cs, ds, i);
    }
  }

  lemma CounterpartIs(r: Record, me: int, id: int)
    ensures id != -1 ==> (Counterpart(r, me) == id <==> SentBetween(r, me, id))
  {}

  /** The same in terms of the records: everybody listed has exchanged a message with the user, and the
      time beside them is that of the latest (or 0, if that is earlier); nobody is listed twice; who
      has exchanged messages later stands no later; and only a full table leaves anybody out. */
  lemma ConversationsSpelled(log: string, me: int)
    ensures var cs := Conversations(log, me);
            forall i, j :: 0 <= i < j < |cs| ==> cs[i].id != cs[j].id && cs[i].time >= cs[j].time
    ensures var cs, rs := Conversations(log, me), LogRecords(log);
            forall i :: 0 <= i < |cs| ==> EntrySpelled(cs[i], rs, me)
    ensures var cs, rs := Conversations(log, me), LogRecords(log);
            |cs| < 1000 ==> forall k, id :: 0 <= k < |rs| && id != -1 && SentBetween(rs[k], me, id) ==> Listed(cs, id)
  {
    hide LogRecords, Conversations, Counterpart, SentBetween, EntrySpelled;
    var cs, rs := Conversations(log, me), LogRecords(log);
    ConversationsRight(log, me);
    forall i | 0 <= i < |cs|
      ensures EntrySpelled(cs[i], rs, me)
    {
      EntryIs(cs[i], rs, me);
    }
    forall k, id | 0 <= k < |rs| && SentBetween(rs[k], me, id) && id != -1 && |cs| < 1000
      ensures Listed(cs, id)
    {
      CounterpartIs(rs[k], me, id);
      assert Met(rs, me, id);
      assert cs[FindContact(cs, id)].id == id;
    }
  }

  predicate Listed(cs: seq<Contact>, id: int) {
    exists i :: 0 <= i < |cs| && cs[i].id == id
  }

  /** The user and this one have exchanged messages, and its time is that of the latest, or 0. */
  predicate EntrySpelled(c: Contact, rs: seq<Record>, me: int) {
    && c.id != -1 && (exists k :: 0 <= k < |rs| && SentBetween(rs[k], me, c.id))
    && (forall k :: 0 <= k < |rs| && SentBetween(rs[k], me, c.id) ==> rs[k].time <= c.time)
    && (c.time == 0 || exists k :: 0 <= k < |rs| && SentBetween(rs[k], me, c.id) && rs[k].time == c.time)
  }

  lemma EntryIs(c: Contact, rs: seq<Record>, me: int)
    requires EntryRight(c, rs, me)
    ensures EntrySpelled(c, rs, me)
  {
    hide Counterpart, SentBetween;
    forall k | 0 <= k < |rs|
      ensures Counterpart(rs[k], me) == c.id <==> SentBetween(rs[k], me, c.id)
    {
      CounterpartIs(rs[k], me, c.id);
    }
  }

  lemma StillThere(cs: seq<Contact>, ds: seq<Contact>, i: nat)
    requires multiset(cs) == multiset(ds) && i < |cs|
    ensures FindContact(ds, cs[i].id) >= 0
  {
    assert cs[i] in multiset(cs);
    assert cs[i] in ds;
  }

  lemma DistinctPermuted(cs: seq<Contact>, ds: seq<Contact>)
    requires multiset(cs) == multiset(ds) && Distinct(cs)
    ensures Distinct(ds)
  {
    forall i, j | 0 <= i < j < |ds|
      ensures ds[i].id != ds[j].id
    {
      if ds[i].id == ds[j].id {
        assert ds[i] in multiset(ds) && ds[j] in multiset(ds);
        assert ds[i] in cs && ds[j] in cs;
        assert ds[i] == ds[j];
        TwiceCounted(ds, i, j);
        OnceCounted(cs, ds[i]);
      }
    }
  }

  lemma TwiceCounted(ds: seq<Contact>, i: nat, j: nat)
    requires i < j < |ds| && ds[i] == ds[j]
    ensures multiset(ds)[ds[i]] >= 2
  {
    assert ds == ds[..i] + [ds[i]] + ds[i + 1..j] + [ds[j]] + ds[j + 1..];
  }

  lemma {:induction false} OnceCounted(cs: seq<Contact>, c: Contact)
    requires Distinct(cs)
    ensures multiset(cs)[c] <= 1
    decreases |cs|
  {
    if cs != [] {
      var last := |cs| - 1;
      OnceCounted(cs[..last], c);
      assert cs == cs[..last] + [cs[last]];
      if cs[last] == c {
        assert c !in cs[..last];
      }
    }
  }
}
