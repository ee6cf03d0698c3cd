/** The line format of a recovery binlog: one record per line, written by the
    split and dispatch passes and read back at a byte offset. */
module BinlogText {
  import opened Options
  import opened Sequences

  datatype Record = Record(timestamp: int, op: char, name: string, src: string)

  predicate IsCreateFile(op: char) {
    op == 'C' || op == 'c'
  }

  predicate IsCreateLink(op: char) {
    op == 'L' || op == 'l'
  }

  /** Operations whose line carries a second name. */
  predicate TakesSource(op: char) {
    IsCreateLink(op) || op == 'R' || op == 'r'
  }

  /** The first position at or after `from` that holds `c`, or |s|. */
  function Find(s: string, c: char, from: nat): (i: nat)
    requires from <= |s|
    ensures from <= i <= |s|
    decreases |s| - from
  {
    if from == |s| || s[from] == c then from else Find(s, c, from + 1)
  }

  function Digit(d: nat): (c: char)
    requires d < 10
  {
    ['0', '1', '2', '3', '4', '5', '6', '7', '8', '9'][d]
  }

  predicate IsDigit(c: char) {
    '0' <= c <= '9'
  }

  function DigitValue(c: char): nat
    requires IsDigit(c)
  {
    c as int - '0' as int
  }

  function Digits(n: nat): string {
    if n < 10 then [Digit(n)] else Digits(n / 10) + [Digit(n % 10)]
  }

  /** The value of the digits in s, most significant first. */
  function Value(s: string): nat
    requires forall c | c in s :: IsDigit(c)
  {
    if s == "" then 0 else 10 * Value(s[..|s| - 1]) + DigitValue(s[|s| - 1])
  }

  function DigitPrefix(s: string): (p: string)
    ensures p <= s
    ensures forall c | c in p :: IsDigit(c)
  {
    if s == "" || !IsDigit(s[0]) then "" else [s[0]] + DigitPrefix(s[1..])
  }

  function Decimal(t: int): string {
    if t < 0 then "-" + Digits(-t) else Digits(t)
  }

  function Atoi(s: string): int {
    if s != "" && s[0] == '-' then 0 - Value(DigitPrefix(s[1..]))
    else Value(DigitPrefix(s))
  }

  /** The names in the third column, which a source-taking record splits at a space. */
  function ParseNames(timestamp: int, op: char, rest: string): Record {
    var k := Find(rest, ' ', 0);
    if TakesSource(op) && k < |rest|
    then Record(timestamp, op, rest[..k], rest[k + 1..])
    else Record(timestamp, op, rest, "")
  }

  /** One line without its newline; None when it has fewer than three columns. */
  function ParseLine(line: string): Option<Record> {
    var i := Find(line, ' ', 0);
    if i == |line| then None else
    var j := Find(line, ' ', i + 1);
    if j == |line| then None else
    var op := if j == i + 1 then '\0' else line[i + 1];
    Some(ParseNames(Atoi(line[..i]), op, line[j + 1..]))
  }

  function NamesColumn(r: Record): string {
    if IsCreateFile(r.op) then r.name else r.name + " " + r.src
  }

  /** The line of a record, without its newline. */
  function Line(r: Record): string {
    Decimal(r.timestamp) + (" " + [r.op] + " ") + NamesColumn(r)
  }

  /** The records that survive a trip through a line. */
  predicate Writable(r: Record) {
    && (IsCreateFile(r.op) || TakesSource(r.op))
    && '\n' !in r.name && '\n' !in r.src
    && (IsCreateFile(r.op) ==> r.src == "")
    && (TakesSource(r.op) ==> ' ' !in r.name)
  }

  lemma {:induction false} DigitsRoundTrip(n: nat)
    ensures Digits(n) != ""
    ensures forall c | c in Digits(n) :: IsDigit(c)
    ensures Value(Digits(n)) == n
  {
    if n >= 10 {
      DigitsRoundTrip(n / 10);
      assert Digits(n)[..|Digits(n)| - 1] == Digits(n / 10);
    }
  }

  lemma {:induction false} DigitPrefixAll(s: string)
    requires forall c | c in s :: IsDigit(c)
    ensures DigitPrefix(s) == s
  {
    if s != "" {
      assert IsDigit(s[0]);
      DigitPrefixAll(s[1..]);
      assert s == [s[0]] + s[1..];
    }
  }

  lemma DecimalRoundTrip(t: int)
    ensures Atoi(Decimal(t)) == t
    ensures ' ' !in Decimal(t) && '\n' !in Decimal(t)
  {
    var n := if t < 0 then -t else t;
    DigitsRoundTrip(n);
    DigitPrefixAll(Digits(n));
    assert Decimal(t)[if t < 0 then 1 else 0..] == Digits(n);
  }

  lemma {:induction false} FindAt(s: string, c: char, from: nat, i: nat)
    requires from <= i < |s| && s[i] == c
    requires forall k | from <= k < i :: s[k] != c
    ensures Find(s, c, from) == i
    decreases i - from
  {
    if from < i {
      FindAt(s, c, from + 1, i);
    }
  }

  lemma {:induction false} FindNone(s: string, c: char, from: nat)
    requires from <= |s|
    requires forall k | from <= k < |s| :: s[k] != c
    ensures Find(s, c, from) == |s|
    decreases |s| - from
  {
    if from < |s| {
      FindNone(s, c, from + 1);
    }
  }

  lemma NamesRoundTrip(r: Record)
    requires Writable(r)
    ensures ParseNames(r.timestamp, r.op, NamesColumn(r)) == r
  {
    var rest := NamesColumn(r);
    if TakesSource(r.op) {
      FindAt(rest, ' ', 0, |r.name|);
      assert rest[..|r.name|] == r.name && rest[|r.name| + 1..] == r.src;
    }
  }

  lemma ColumnsSplit(a: string, op: char, rest: string)
    requires ' ' !in a && op != ' '
    ensures ParseLine(a + (" " + [op] + " ") + rest) == Some(ParseNames(Atoi(a), op, rest))
  {
    var line := a + (" " + [op] + " ") + rest;
    FindAt(line, ' ', 0, |a|);
    FindAt(line, ' ', |a| + 1, |a| + 2);
    assert line[..|a|] == a && line[|a| + 3..] == rest;
  }

  lemma LineParses(r: Record)
    requires Writable(r)
    ensures ParseLine(Line(r)) == Some(r)
  {
    var stamp, rest := Decimal(r.timestamp), NamesColumn(r);
    DecimalRoundTrip(r.timestamp);
    ColumnsSplit(stamp, r.op, rest);
    NamesRoundTrip(r);
  }

  lemma LineHasNoNewline(r: Record)
    requires Writable(r)
    ensures '\n' !in Line(r)
  {
    DecimalRoundTrip(r.timestamp);
    NoNewline(Decimal(r.timestamp), r.op, NamesColumn(r));
  }

  lemma LineRoundTrip(r: Record)
    requires Writable(r)
    ensures ParseLine(Line(r)) == Some(r)
    ensures '\n' !in Line(r)
  {
    LineParses(r);
    LineHasNoNewline(r);
  }

  lemma NoNewline(a: string, op: char, rest: string)
    requires '\n' !in a && op != '\n' && '\n' !in rest
    ensures '\n' !in a + (" " + [op] + " ") + rest
  {
  }

  /** The complete lines of a text; a last line without newline is not one. */
  function Lines(text: string): seq<string>
    decreases |text|
  {
    var nl := Find(text, '\n', 0);
    if nl == |text| then [] else [text[..nl]] + Lines(text[nl + 1..])
  }

  /** The records of some lines; None when a line is malformed. */
  function ParseLines(lines: seq<string>): Option<seq<Record>> {
    if lines == [] then Some([]) else
    var first, rest := ParseLine(lines[0]), ParseLines(lines[1..]);
    if first.None? || rest.None? then None else Some([first.value] + rest.value)
  }

  /** What a reader positioned at a byte offset gets, up to the end of the file. */
  function ReadFrom(text: string, offset: nat): Option<seq<Record>>
    requires offset <= |text|
  {
    ParseLines(Lines(text[offset..]))
  }

  function Join(lines: seq<string>): string {
    if lines == [] then "" else lines[0] + "\n" + Join(lines[1..])
  }

  function Mapped(f: Record -> string, rs: seq<Record>): (lines: seq<string>)
    ensures |lines| == |rs| && forall i | 0 <= i < |rs| :: lines[i] == f(rs[i])
  {
    seq(|rs|, i requires 0 <= i < |rs| => f(rs[i]))
  }

  function LinesOf(rs: seq<Record>): seq<string> {
    Mapped(Line, rs)
  }

  /** A log as the split and dispatch passes write it. */
  function Text(rs: seq<Record>): string {
    Join(LinesOf(rs))
  }

  predicate AllWritable(rs: seq<Record>) {
    forall r | r in rs :: Writable(r)
  }

  lemma CutLine(line: string, rest: string)
    requires '\n' !in line
    ensures Lines(line + "\n" + rest) == [line] + Lines(rest)
  {
    var text := line + "\n" + rest;
    FindAt(text, '\n', 0, |line|);
    assert text[..|line|] == line && text[|line| + 1..] == rest;
  }

  lemma {:induction false} LinesOfJoin(lines: seq<string>)
    requires forall line | line in lines :: '\n' !in line
    ensures Lines(Join(lines)) == lines
  {
    if lines != [] {
      CutLine(lines[0], Join(lines[1..]));
      LinesOfJoin(lines[1..]);
      assert [lines[0]] + lines[1..] == lines;
    }
  }

  lemma {:induction false} ParseEach(lines: seq<string>, rs: seq<Record>)
    requires |lines| == |rs| && forall i | 0 <= i < |rs| :: ParseLine(lines[i]) == Some(rs[i])
    ensures ParseLines(lines) == Some(rs)
  {
    if rs != [] {
      ParseEach(lines[1..], rs[1..]);
      assert [rs[0]] + rs[1..] == rs;
    }
  }

  lemma LinesParseBack(rs: seq<Record>)
    requires AllWritable(rs)
    ensures ParseLines(LinesOf(rs)) == Some(rs)
    ensures forall line | line in LinesOf(rs) :: '\n' !in line
  {
    var lines := LinesOf(rs);
    forall i | 0 <= i < |rs| ensures ParseLine(lines[i]) == Some(rs[i]) && '\n' !in lines[i] {
      LineRoundTrip(rs[i]);
    }
    ParseEach(lines, rs);
  }

  lemma {:induction false} JoinConcat(a: seq<string>, b: seq<string>)
    ensures Join(a + b) == Join(a) + Join(b)
  {
    if a == [] {
      assert a + b == b;
    } else {
      assert (a + b)[1..] == a[1..] + b;
      JoinConcat(a[1..], b);
      Regroup(a[0] + "\n", Join(a[1..]), Join(b));
    }
  }

  lemma MappedConcat(f: Record -> string, rs: seq<Record>, us: seq<Record>)
    ensures Mapped(f, rs + us) == Mapped(f, rs) + Mapped(f, us)
    ensures rs != [] ==> Mapped(f, rs)[1..] == Mapped(f, rs[1..])
  {
  }

  lemma TextConcat(rs: seq<Record>, us: seq<Record>)
    ensures Text(rs + us) == Text(rs) + Text(us)
  {
    MappedConcat(Line, rs, us);
    JoinConcat(LinesOf(rs), LinesOf(us));
  }

  /** Reading a written log from the end of its first records gives the others. */
  lemma ReadBack(done: seq<Record>, unread: seq<Record>)
    requires AllWritable(unread)
    ensures |Text(done)| <= |Text(done + unread)|
    ensures ReadFrom(Text(done + unread), |Text(done)|) == Some(unread)
  {
    TextConcat(done, unread);
    assert Text(done + unread)[|Text(done)|..] == Text(unread);
    LinesParseBack(unread);
    LinesOfJoin(LinesOf(unread));
  }
}
