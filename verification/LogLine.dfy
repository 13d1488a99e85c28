/**
 One log line: how the dispatcher prints it (dispatch.go), how the agent's scanner cuts the
 file into lines, and how the agent parses a line back (server/workload.go).
 */
module LogLine {
  import opened Wrappers
  import opened Text
  import opened Rfc3339

  const NEWLINE: char := '\n'
  const MAX_SCAN_TOKEN: nat := 65536 // bufio.MaxScanTokenSize

  /** time.Time{}: what a line without metadata is stamped with. */
  const ZERO_TIME := Timestamp(1, 1, 1, 0, 0, 0, 0)

  datatype ParsedLine = ParsedLine(at: Timestamp, text: string)

  /** The dispatcher's formatter, without the newline it ends in. */
  function FormatLine(at: Timestamp, container: string, text: string): string {
    FormatTime(at) + " " + container + " " + text
  }

  /** parseLine: the parsed line and the container name, absent when the line carries no metadata. */
  function ParseLine(line: string): (ParsedLine, Option<string>) {
    var parts := SplitN(line, ' ', 3);
    if |parts| < 3 then (ParsedLine(ZERO_TIME, line), None)
    else
      var at := ParseTime(parts[0]);
      if at.None? then (ParsedLine(ZERO_TIME, line), None)
      else (ParsedLine(at.value, parts[2]), Some(parts[1]))
  }

  lemma SplitNHead(word: string, rest: string, n: nat)
    requires n >= 2 && forall i | 0 <= i < |word| :: word[i] != ' '
    ensures SplitN(word + " " + rest, ' ', n) == [word] + SplitN(rest, ' ', n - 1)
  {
    var s := word + " " + rest;
    IndexOfUnique(s, ' ', |word|);
    assert s[..|word|] == word && s[|word| + 1..] == rest;
  }

  /** Splitting a printed line: the stamp is always the first part, whatever the container is called. */
  lemma SplitFormatted(at: Timestamp, container: string, text: string)
    ensures SplitN(FormatLine(at, container, text), ' ', 3)
         == [FormatTime(at)] + SplitN(container + " " + text, ' ', 2)
  {
    FormatHasNoSpace(at);
    SplitWords(FormatTime(at), container, text);
  }

  lemma SplitWords(stamp: string, container: string, text: string)
    requires forall i | 0 <= i < |stamp| :: stamp[i] != ' '
    ensures SplitN(stamp + " " + container + " " + text, ' ', 3) == [stamp] + SplitN(container + " " + text, ' ', 2)
  {
    SplitNHead(stamp, container + " " + text, 3);
    assert stamp + " " + container + " " + text == stamp + " " + (container + " " + text);
  }

  lemma RoundTripClean(at: Timestamp, container: string, text: string)
    requires Valid(at) && ' ' !in container
    ensures ParseLine(FormatLine(at, container, text)) == (ParsedLine(at, text), Some(container))
  {
    hide FormatTime, FormatLine, ParseTime;
    ParseFormat(at);
    SplitFormatted(at, container, text);
    SplitNHead(container, text, 2);
    assert SplitN(container + " " + text, ' ', 2) == [container, text];
  }

  /** A container name with a space is cut short. */
  lemma RoundTripTorn(at: Timestamp, container: string, text: string)
    requires ' ' in container
    ensures ParseLine(FormatLine(at, container, text)).1 != Some(container)
  {
    hide FormatTime, FormatLine, ParseTime;
    SplitFormatted(at, container, text);
    var body, k := container + " " + text, IndexOf(container, ' ');
    IndexOfPresent(container, ' ');
    IndexOfUnique(body, ' ', k);
    assert |SplitN(body, ' ', 2)[0]| == k;
  }

  /** Printer/parser round trip: exact for every text, and for exactly the space-free container names. */
  lemma RoundTrip(at: Timestamp, container: string, text: string)
    requires Valid(at)
    ensures ParseLine(FormatLine(at, container, text)) == (ParsedLine(at, text), Some(container)) <==> ' ' !in container
  {
    hide ParseLine, FormatLine;
    if ' ' !in container {
      RoundTripClean(at, container, text);
    } else {
      RoundTripTorn(at, container, text);
    }
  }

  /** bufio.ScanLines drops one carriage return at the end of a line. */
  function DropCR(s: string): string {
    if s != [] && s[|s| - 1] == '\r' then s[..|s| - 1] else s
  }

  /** The tokens a fresh bufio.Scanner delivers, and whether it then gave up on a token that is too long. */
  datatype Scan = Scan(lines: seq<string>, tooLong: bool)

  function ScanLines(s: string): Scan {
    if s == [] then Scan([], false)
    else
      var i := IndexOf(s, NEWLINE);
      if i >= MAX_SCAN_TOKEN then Scan([], true)
      else if i == |s| then Scan([DropCR(s)], false)
      else
        var rest := ScanLines(s[i + 1..]);
        Scan([DropCR(s[..i])] + rest.lines, rest.tooLong)
  }

  /** No line of `s` exceeds the scanner's limit. */
  predicate Scannable(s: string) { !ScanLines(s).tooLong }

  lemma ScanHead(line: string, rest: string)
    requires forall i | 0 <= i < |line| :: line[i] != NEWLINE
    requires |line| < MAX_SCAN_TOKEN
    ensures ScanLines(line + [NEWLINE] + rest) == Scan([DropCR(line)] + ScanLines(rest).lines, ScanLines(rest).tooLong)
  {
    var s := line + [NEWLINE] + rest;
    IndexOfUnique(s, NEWLINE, |line|);
    assert s[..|line|] == line && s[|line| + 1..] == rest;
  }

  /** Somewhere the scanner's limit of characters goes by without a newline. */
  ghost predicate Overlong(s: string) {
    exists i: nat :: OverlongFrom(s, i)
  }

  ghost predicate OverlongFrom(s: string, i: nat) {
    i + 65536 <= |s| && forall j | i <= j < i + 65536 :: s[j] != NEWLINE
  }

  /** The scanner gives up exactly on a text with an overlong line. */
  lemma {:induction false} TooLongIff(s: string)
    ensures ScanLines(s).tooLong <==> Overlong(s)
    decreases |s|
  {
    if s != [] {
      var i := IndexOf(s, NEWLINE);
      if i >= MAX_SCAN_TOKEN {
        assert OverlongFrom(s, 0);
      } else if i < |s| {
        TooLongIff(s[i + 1..]);
        hide ScanLines;
        OverlongRest(s, i);
      }
    }
  }

  lemma OverlongRest(s: string, i: nat)
    requires i < |s| && i < 65536 && s[i] == NEWLINE && forall j | 0 <= j < i :: s[j] != NEWLINE
    ensures Overlong(s) <==> Overlong(s[i + 1..])
  {
    var rest := s[i + 1..];
    if k: nat :| OverlongFrom(s, k) {
      assert k > i;
      assert OverlongFrom(rest, k - i - 1);
    }
    if l: nat :| OverlongFrom(rest, l) {
      assert forall j | l + i + 1 <= j < l + i + 1 + 65536 :: s[j] == rest[j - i - 1];
      assert OverlongFrom(s, l + i + 1);
    }
  }

  predicate EndsInNewline(s: string) { s == [] || s[|s| - 1] == NEWLINE }

  lemma CutLine(a: string, b: string, i: nat)
    requires i < |a| && a[i] == NEWLINE
    ensures a + b == a[..i] + [NEWLINE] + (a[i + 1..] + b)
    ensures EndsInNewline(a) ==> EndsInNewline(a[i + 1..])
    ensures a[i + 1..] == [] ==> EndsInNewline(a)
    ensures EndsInNewline(a[i + 1..]) ==> EndsInNewline(a)
  {
  }

  lemma ScanFirst(a: string, i: nat)
    requires a != [] && EndsInNewline(a) && Scannable(a) && i == IndexOf(a, NEWLINE)
    ensures i < |a| && i < MAX_SCAN_TOKEN
    ensures ScanLines(a) == Scan([DropCR(a[..i])] + ScanLines(a[i + 1..]).lines, false)
    ensures Scannable(a[i + 1..])
  {
    assert a[|a| - 1] == NEWLINE;
  }

  /** Reading a file in two instalments, the first ending at a line end, sees the lines of the whole. */
  lemma {:induction false} ScanAppend(a: string, b: string)
    requires EndsInNewline(a) && Scannable(a)
    ensures ScanLines(a + b) == Scan(ScanLines(a).lines + ScanLines(b).lines, ScanLines(b).tooLong)
    decreases |a|
  {
    if a == [] {
      assert a + b == b;
    } else {
      var i := IndexOf(a, NEWLINE);
      ScanFirst(a, i);
      CutLine(a, b, i);
      ScanAppend(a[i + 1..], b);
      ScanAppendStep(a, b, i);
    }
  }

  lemma ScanAppendStep(a: string, b: string, i: nat)
    requires i < |a| && i < MAX_SCAN_TOKEN && forall k | 0 <= k < i :: a[k] != NEWLINE
    requires a + b == a[..i] + [NEWLINE] + (a[i + 1..] + b)
    requires ScanLines(a).lines == [DropCR(a[..i])] + ScanLines(a[i + 1..]).lines
    requires ScanLines(a[i + 1..] + b) == Scan(ScanLines(a[i + 1..]).lines + ScanLines(b).lines, ScanLines(b).tooLong)
    ensures ScanLines(a + b) == Scan(ScanLines(a).lines + ScanLines(b).lines, ScanLines(b).tooLong)
  {
    hide ScanLines;
    ScanHead(a[..i], a[i + 1..] + b);
    var head, ra, rb := [DropCR(a[..i])], ScanLines(a[i + 1..]).lines, ScanLines(b).lines;
    assert head + (ra + rb) == head + ra + rb;
  }

  /** Cutting in the middle of a line makes one line too many. */
  lemma {:induction false} ScanTorn(a: string, b: string)
    requires !EndsInNewline(a) && b != []
    requires Scannable(a) && Scannable(b) && Scannable(a + b)
    ensures |ScanLines(a + b).lines| + 1 == |ScanLines(a).lines| + |ScanLines(b).lines|
    decreases |a|
  {
    var i := IndexOf(a, NEWLINE);
    if i == |a| {
      TornAtOnce(a, b);
    } else {
      CutLine(a, b, i);
      ScanFirstLine(a, i);
      ScanFirstLine(a + b, i);
      hide ScanLines;
      ScanTorn(a[i + 1..], b);
    }
  }

  lemma ScanFirstLine(a: string, i: nat)
    requires i < |a| && a[i] == NEWLINE && Scannable(a) && forall k | 0 <= k < i :: a[k] != NEWLINE
    ensures Scannable(a[i + 1..]) && |ScanLines(a).lines| == 1 + |ScanLines(a[i + 1..]).lines|
  {
    IndexOfUnique(a, NEWLINE, i);
  }

  lemma NoNewlineBefore(a: string, b: string, j: nat)
    requires j <= |b| && (forall k | 0 <= k < |a| :: a[k] != NEWLINE) && forall k | 0 <= k < j :: b[k] != NEWLINE
    ensures forall k | 0 <= k < |a| + j :: (a + b)[k] != NEWLINE
    ensures j < |b| ==> (a + b)[|a| + j] == b[j] && (a + b)[|a| + j + 1..] == b[j + 1..]
  {
  }

  lemma TornAtOnce(a: string, b: string)
    requires a != [] && b != [] && forall k | 0 <= k < |a| :: a[k] != NEWLINE
    requires Scannable(a) && Scannable(b) && Scannable(a + b)
    ensures |ScanLines(a + b).lines| + 1 == |ScanLines(a).lines| + |ScanLines(b).lines|
  {
    hide ScanLines;
    var j := IndexOf(b, NEWLINE);
    ScanUnterminatedCount(a);
    NoNewlineBefore(a, b, j);
    if j < |b| {
      ScanFirstLine(b, j);
      ScanFirstLine(a + b, |a| + j);
    } else {
      ScanUnterminatedCount(b);
      ScanUnterminatedCount(a + b);
    }
  }

  lemma ScanUnterminatedCount(a: string)
    requires a != [] && Scannable(a) && forall i | 0 <= i < |a| :: a[i] != NEWLINE
    ensures |ScanLines(a).lines| == 1
  {
    IndexOfUnique(a, NEWLINE, |a|);
  }

  /**
   Scanning in two instalments is faithful exactly when the cut falls on a line end (or nothing lies beyond or before
   it).
   */
  lemma ScanInTwo(a: string, b: string)
    requires Scannable(a) && Scannable(b) && Scannable(a + b)
    ensures ScanLines(a + b).lines == ScanLines(a).lines + ScanLines(b).lines <==> EndsInNewline(a) || b == []
  {
    if EndsInNewline(a) {
      ScanAppend(a, b);
    } else if b == [] {
      assert a + b == a;
    } else {
      ScanTorn(a, b);
    }
  }

  /** The lines a request for container `filter` gets to see: its own and those without metadata. */
  predicate Keeps(line: string, filter: string) {
    var container := ParseLine(line).1;
    container.None? || container.value == filter
  }

  /** The first two spaces of the line are at i and j. */
  ghost predicate FirstSpaces(line: string, i: nat, j: nat) {
    && i < j < |line| && line[i] == ' ' && line[j] == ' '
    && forall k | 0 <= k < j && k != i :: line[k] != ' '
  }

  /**
   What a line is: with a stamp before its first space, the container's name between the first two and the text after
   them; otherwise all text, with the zero time and no container.
   */
  lemma ParsedByPosition(line: string, i: nat, j: nat)
    requires FirstSpaces(line, i, j)
    ensures var at := ParseTime(line[..i]);
            ParseLine(line) == if at.Some? then (ParsedLine(at.value, line[j + 1..]), Some(line[i + 1..j]))
                               else (ParsedLine(ZERO_TIME, line), None)
  {
    var rest := line[i + 1..];
    IndexOfUnique(line, ' ', i);
    assert forall k | 0 <= k < |rest| :: rest[k] == line[i + 1 + k];
    IndexOfUnique(rest, ' ', j - i - 1);
    assert rest[..j - i - 1] == line[i + 1..j] && rest[j - i..] == line[j + 1..];
    hide ParseTime;
    SplitTwice(line, i, j);
  }

  lemma SplitTwice(line: string, i: nat, j: nat)
    requires i < j < |line| && IndexOf(line, ' ') == i && IndexOf(line[i + 1..], ' ') == j - i - 1
    requires line[i + 1..][..j - i - 1] == line[i + 1..j] && line[i + 1..][j - i..] == line[j + 1..]
    ensures SplitN(line, ' ', 3) == [line[..i], line[i + 1..j], line[j + 1..]]
  {
    hide IndexOf, SplitN;
    SplitNStep(line, ' ', 3);
    SplitNStep(line[i + 1..], ' ', 2);
    Unsplit(line[j + 1..]);
  }

  lemma Unsplit(s: string)
    ensures SplitN(s, ' ', 1) == [s]
  {
  }

  lemma FewSpaces(line: string)
    ensures ParseLine(line) == (ParsedLine(ZERO_TIME, line), None) || exists i: nat, j: nat :: FirstSpaces(line, i, j)
  {
    var i := IndexOf(line, ' ');
    if i < |line| {
      var rest := line[i + 1..];
      var k := IndexOf(rest, ' ');
      if k < |rest| {
        assert forall l | 0 <= l < |rest| :: rest[l] == line[i + 1 + l];
        assert FirstSpaces(line, i, i + 1 + k);
      }
    }
  }

  /** Carries neither a stamp nor a container name. */
  ghost predicate Unmarked(line: string) {
    forall i: nat, j: nat | FirstSpaces(line, i, j) :: ParseTime(line[..i]).None?
  }

  /**
   A line without metadata is for everyone who asks, whole and with the zero time; any other for its container only.
   */
  lemma WhoGetsALine(line: string)
    ensures Unmarked(line) ==>
              forall filter :: Matching([line], filter) == [ParsedLine(Timestamp(1, 1, 1, 0, 0, 0, 0), line)]
    ensures forall i: nat, j: nat, filter | FirstSpaces(line, i, j) && ParseTime(line[..i]).Some? ::
              Matching([line], filter)
              == if filter == line[i + 1..j] then [ParsedLine(ParseTime(line[..i]).value, line[j + 1..])] else []
  {
    forall i: nat, j: nat | FirstSpaces(line, i, j)
      ensures var at := ParseTime(line[..i]);
              ParseLine(line) == if at.Some? then (ParsedLine(at.value, line[j + 1..]), Some(line[i + 1..j]))
                                 else (ParsedLine(ZERO_TIME, line), None)
    {
      ParsedByPosition(line, i, j);
    }
    FewSpaces(line);
    hide ParseLine, ParseTime, FirstSpaces;
    forall filter ensures Matching([line], filter) == if Keeps(line, filter) then [ParseLine(line).0] else [] {
      OneLine(line, filter);
    }
  }

  lemma OneLine(line: string, filter: string)
    ensures Matching([line], filter) == if Keeps(line, filter) then [ParseLine(line).0] else []
  {
    hide Keeps, ParseLine;
    assert [line][..0] == [];
    assert Matching([], filter) == [];
  }

  function Matching(lines: seq<string>, filter: string): seq<ParsedLine> {
    if lines == [] then []
    else
      var last := lines[|lines| - 1];
      Matching(lines[..|lines| - 1], filter) + if Keeps(last, filter) then [ParseLine(last).0] else []
  }

  lemma {:induction false} MatchingAppend(a: seq<string>, b: seq<string>, filter: string)
    ensures Matching(a + b, filter) == Matching(a, filter) + Matching(b, filter)
    decreases |b|
  {
    hide Keeps, ParseLine;
    if b == [] {
      assert a + b == a;
    } else {
      var b', last := b[..|b| - 1], b[|b| - 1];
      assert (a + b)[..|a + b| - 1] == a + b';
      MatchingAppend(a, b', filter);
      var tail := if Keeps(last, filter) then [ParseLine(last).0] else [];
      assert Matching(a, filter) + Matching(b', filter) + tail == Matching(a, filter) + (Matching(b', filter) + tail);
    }
  }
}
