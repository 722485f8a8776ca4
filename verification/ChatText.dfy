/** The text the chat server prints and reads back: C strings, decimal numbers, lines.
    A char stands for one byte. */
module ChatText {

  datatype Option<+T> = None | Some(value: T)

  // ------------------------------------------------------------ strings

  const NUL: char := 0 as char

  /** sanitize_message, on the string up to its end: bars become slashes, a line break ends it. */
  function Sanitize(s: string): (r: string)
    ensures Clean(r) && |r| <= |s|
    ensures Clean(s) ==> r == s
    decreases |s|
  {
    if s == "" || s[0] == NUL || s[0] == '\r' || s[0] == '\n' then ""
    else [if s[0] == '|' then '/' else s[0]] + Sanitize(s[1..])
  }

  /** Free of bars, line breaks and zero bytes. */
  predicate Clean(s: string) {
    forall i :: 0 <= i < |s| ==> s[i] != '|' && s[i] != '\r' && s[i] != '\n' && s[i] != NUL
  }

  /** sanitize_message stops at the end of the string and at a line break. */
  predicate Stops(c: char) {
    c == NUL || c == '\r' || c == '\n'
  }

  /** Up to there every character stays, but for bars, which become slashes. */
  lemma {:induction false} SanitizedAt(s: string, i: nat)
    requires i <= |s| && (i < |s| ==> Stops(s[i])) && forall j :: 0 <= j < i ==> !Stops(s[j])
    ensures |Sanitize(s)| == i && forall j :: 0 <= j < i ==> Sanitize(s)[j] == if s[j] == '|' then '/' else s[j]
    decreases i
  {
    if i > 0 {
      SanitizedAt(s[1..], i - 1);
    }
  }

  /** The C string that starts a byte array. */
  function CString(s: string): (r: string)
    ensures |r| <= |s|
    decreases |s|
  {
    if s == "" || s[0] == NUL then "" else [s[0]] + CString(s[1..])
  }

  lemma {:induction false} CStringClean(s: string)
    requires forall i :: 0 <= i < |s| ==> s[i] != NUL
    ensures CString(s) == s
    decreases |s|
  {
    if s != "" {
      CStringClean(s[1..]);
      assert s == [s[0]] + s[1..];
    }
  }

  // ------------------------------------------------------------ decimal numbers

  predicate IsDigit(c: char) {
    '0' <= c <= '9'
  }

  function Digit(n: nat): (c: char)
    requires n < 10
    ensures IsDigit(c) && DigitValue(c) == n
  {
    ('0' as int + n) as char
  }

  /** A natural number as %d and %ld print it. */
  function ShowNat(n: nat): (s: string)
    ensures s != "" && forall i :: 0 <= i < |s| ==> IsDigit(s[i])
    decreases n
  {
    if n < 10 then [Digit(n)] else ShowNat(n / 10) + [Digit(n % 10)]
  }

  function ShowInt(n: int): string {
    if n < 0 then "-" + ShowNat(-n) else ShowNat(n)
  }

  function DigitValue(c: char): nat
    requires IsDigit(c)
  {
    c as int - '0' as int
  }

  function Value(digits: string): nat
    requires forall i :: 0 <= i < |digits| ==> IsDigit(digits[i])
    decreases |digits|
  {
    if digits == "" then 0
    else 10 * Value(digits[..|digits| - 1]) + DigitValue(digits[|digits| - 1])
  }

  lemma {:induction false} ValueOfShown(n: nat)
    ensures Value(ShowNat(n)) == n
    decreases n
  {
    if n >= 10 {
      ValueOfShown(n / 10);
      assert (ShowNat(n / 10) + [Digit(n % 10)])[..|ShowNat(n / 10)|] == ShowNat(n / 10);
    } else {
      assert [Digit(n)][..0] == "";
    }
  }

  function Pow10(k: nat): nat {
    if k == 0 then 1 else 10 * Pow10(k - 1)
  }

  /** A number below 10^k takes at most k characters. */
  lemma {:induction false} ShownLength(n: nat, k: nat)
    requires 0 < k && n < Pow10(k)
    ensures |ShowNat(n)| <= k
    decreases k
  {
    if k == 1 {
      assert Pow10(1) == 10 * Pow10(0);
    } else if n >= 10 {
      ShownLength(n / 10, k - 1);
    }
  }

  // ------------------------------------------------------------ reading numbers

  predicate IsSpace(c: char) {
    c == ' ' || ('\t' <= c <= '\r')
  }

  function SkipSpace(s: string): (r: string)
    ensures |r| <= |s|
    decreases |s|
  {
    if s != "" && IsSpace(s[0]) then SkipSpace(s[1..]) else s
  }

  function DigitsOf(s: string): (d: string)
    ensures |d| <= |s| && s[..|d|] == d
    ensures forall i :: 0 <= i < |d| ==> IsDigit(d[i])
    ensures |d| < |s| ==> !IsDigit(s[|d|])
    decreases |s|
  {
    if s != "" && IsDigit(s[0]) then [s[0]] + DigitsOf(s[1..]) else ""
  }

  /** What %d, %ld and strtol take from the front of a string: blanks, a sign, digits. */
  function ReadInt(s: string): Option<(int, string)> {
    var t := SkipSpace(s);
    var minus := t != "" && t[0] == '-';
    var u := if t != "" && (t[0] == '-' || t[0] == '+') then t[1..] else t;
    var d := DigitsOf(u);
    var v: int := if d == "" then 0 else Value(d);
    if d == "" then None else Some((if minus then -v else v, u[|d|..]))
  }

  lemma {:induction false} DigitsThen(d: string, rest: string)
    requires forall i :: 0 <= i < |d| ==> IsDigit(d[i])
    requires rest == "" || !IsDigit(rest[0])
    ensures DigitsOf(d + rest) == d
    decreases |d|
  {
    if d == "" {
      assert d + rest == rest;
    } else {
      assert (d + rest)[1..] == d[1..] + rest;
      DigitsThen(d[1..], rest);
      assert d == [d[0]] + d[1..];
    }
  }

  lemma NoSpace(s: string)
    requires s == "" || !IsSpace(s[0])
    ensures SkipSpace(s) == s
  {}

  /** Decimal numbers are read back as they were printed. */
  lemma ReadShown(n: int, rest: string)
    requires rest == "" || !IsDigit(rest[0])
    ensures ReadInt(ShowInt(n) + rest) == Some((n, rest))
  {
    hide ShowNat, Value, DigitsOf, SkipSpace;
    var m := if n < 0 then -n else n;
    var d := ShowNat(m);
    var s := ShowInt(n) + rest;
    ValueOfShown(m);
    DigitsThen(d, rest);
    assert d[0] == (d + rest)[0] && IsDigit(d[0]);
    NoSpace(s);
    if n < 0 {
      assert s[1..] == d + rest;
    } else {
      assert s == d + rest;
    }
    assert (d + rest)[|d|..] == rest;
  }

  // ------------------------------------------------------------ lines of a file

  /** How much one fgets into a buffer of `size` bytes takes: up to and including a line break,
      at most size-1 bytes. */
  function LineEnd(text: string, size: nat): (k: nat)
    requires 2 <= size && text != ""
    ensures 0 < k <= |text| && k < size
    ensures forall i :: 0 <= i < k - 1 ==> text[i] != '\n'
    ensures text[k - 1] == '\n' || k == size - 1 || k == |text|
    decreases |text|
  {
    if text[0] == '\n' || size == 2 || |text| == 1 then 1 else 1 + LineEnd(text[1..], size - 1)
  }

  /** All that successive calls of fgets return. */
  function FileLines(text: string, size: nat): seq<string>
    requires 2 <= size
    decreases |text|
  {
    if text == "" then []
    else
      var k := LineEnd(text, size);
      [text[..k]] + FileLines(text[k..], size)
  }

  function Joined(lines: seq<string>): string {
    if lines == [] then "" else lines[0] + Joined(lines[1..])
  }

  /** What one fgets returns: cut behind a line break, where its buffer is full, or at the end of the file. */
  predicate PieceOk(line: string, size: nat, last: bool) {
    && 0 < |line| < size && (forall j :: 0 <= j < |line| - 1 ==> line[j] != '\n')
    && (line[|line| - 1] == '\n' || |line| == size - 1 || last)
  }

  /** fgets loses nothing: what it returns, one after the other, is the file. */
  lemma {:induction false} LinesCover(text: string, size: nat)
    requires 2 <= size
    ensures var lines := FileLines(text, size);
            && Joined(lines) == text
            && forall i :: 0 <= i < |lines| ==> PieceOk(lines[i], size, i == |lines| - 1)
    decreases |text|
  {
    hide PieceOk;
    if text != "" {
      var k := LineEnd(text, size);
      var rest := FileLines(text[k..], size);
      LinesCover(text[k..], size);
      FirstPiece(text, size);
      assert text[..k] + text[k..] == text;
      assert FileLines(text, size) == [text[..k]] + rest;
      assert |rest| == 0 ==> text[k..] == "";
      JoinedMore(text[..k], rest);
    }
  }

  lemma JoinedMore(line: string, rest: seq<string>)
    ensures Joined([line] + rest) == line + Joined(rest)
  {
    assert ([line] + rest)[1..] == rest;
  }

  lemma FirstPiece(text: string, size: nat)
    requires 2 <= size && text != ""
    ensures var k := LineEnd(text, size); PieceOk(text[..k], size, k == |text|)
  {}

  /** The text is empty or ends with a line break. */
  predicate Complete(text: string) {
    text == "" || text[|text| - 1] == '\n'
  }

  lemma {:induction false} LineEndPrefix(text: string, more: string, size: nat)
    requires 2 <= size && text != "" && Complete(text)
    ensures LineEnd(text + more, size) == LineEnd(text, size)
    decreases |text|
  {
    assert (text + more)[0] == text[0];
    if text[0] == '\n' || size == 2 {
    } else {
      assert |text| > 1;
      assert (text + more)[1..] == text[1..] + more;
      LineEndPrefix(text[1..], more, size - 1);
    }
  }

  lemma {:induction false} WholeLine(line: string, size: nat)
    requires line != "" && |line| < size && line[|line| - 1] == '\n'
    requires forall i :: 0 <= i < |line| - 1 ==> line[i] != '\n'
    ensures LineEnd(line, size) == |line|
    decreases |line|
  {
    if |line| > 1 {
      WholeLine(line[1..], size - 1);
    }
  }

  /** A line added to a complete text is read back as one more line. */
  lemma {:induction false} OneMoreLine(text: string, line: string, size: nat)
    requires 2 <= size && Complete(text)
    requires line != "" && |line| < size && line[|line| - 1] == '\n'
    requires forall i :: 0 <= i < |line| - 1 ==> line[i] != '\n'
    ensures FileLines(text + line, size) == FileLines(text, size) + [line]
    ensures Complete(text + line)
    decreases |text|
  {
    hide LineEnd;
    if text == "" {
      WholeLine(line, size);
      OnlyLine(line, size);
      assert text + line == line;
    } else {
      var k := LineEnd(text, size);
      LineEndPrefix(text, line, size);
      assert (text + line)[..k] == text[..k] && (text + line)[k..] == text[k..] + line;
      OneMoreLine(text[k..], line, size);
      assert FileLines(text + line, size) == [text[..k]] + (FileLines(text[k..], size) + [line]);
    }
  }

  lemma OnlyLine(line: string, size: nat)
    requires 2 <= size && line != "" && LineEnd(line, size) == |line|
    ensures FileLines(line, size) == [line]
  {
    assert line[|line|..] == "" && line[..|line|] == line;
  }
}
