/**
 The dispatcher's output (dispatch.go): two readers per container, each formatting a line and
 then writing it to the shared standard output under a mutex. A write is modelled as any
 number of partial writes, so that keeping lines whole is the mutex's doing.
 */
module Dispatch {
  import opened Wrappers
  import opened Rfc3339
  import opened LogLine

  datatype Pc =
    | Reading
    | Formatted(at: Timestamp)  // the line is rendered, the mutex not yet taken
    | Writing(rest: string)     // holding the mutex, `rest` still to be written

  /** One readFromStream goroutine: the tokens of its pipe and how many it has taken. */
  datatype Reader = Reader(container: string, input: seq<string>, taken: nat, pc: Pc)

  /** One line handed to writeLine, in the order in which the mutex was taken. */
  datatype Entry = Entry(reader: nat, at: Timestamp, text: string)

  /** `clock` is the latest reading any reader took; the clock does not run backwards. */
  datatype State = State(readers: seq<Reader>, mutex: Option<nat>, file: string, log: seq<Entry>, clock: int)

  datatype Action = Format(i: nat, now: Timestamp) | Lock(i: nat) | Write(i: nat, bytes: nat) | Unlock(i: nat)

  predicate Enabled(s: State, a: Action) {
    && a.i < |s.readers|
    && var r := s.readers[a.i];
       match a
       case Format(_, now) => r.pc.Reading? && r.taken < |r.input| && Valid(now) && s.clock <= Moment(now)
       case Lock(_) => r.pc.Formatted? && s.mutex.None? && 0 < r.taken <= |r.input|
       case Write(_, bytes) => r.pc.Writing? && bytes <= |r.pc.rest|
       case Unlock(_) => r.pc.Writing? && r.pc.rest == []
  }

  function Line(r: Reader): string
    requires r.pc.Formatted? && 0 < r.taken <= |r.input|
  {
    FormatLine(r.pc.at, r.container, r.input[r.taken - 1]) + [NEWLINE]
  }

  /** One step; a step that is not enabled leaves the state alone. */
  function Next(s: State, a: Action): State {
    if !Enabled(s, a) then s
    else
      var i, r := a.i, s.readers[a.i];
      match a
      case Format(_, now) =>
        s.(readers := s.readers[i := r.(taken := r.taken + 1, pc := Formatted(now))], clock := Moment(now))
      case Lock(_) =>
        s.(readers := s.readers[i := r.(pc := Writing(Line(r)))],
           mutex := Some(i),
           log := s.log + [Entry(i, r.pc.at, r.input[r.taken - 1])])
      case Write(_, bytes) =>
        s.(readers := s.readers[i := r.(pc := Writing(r.pc.rest[bytes..]))], file := s.file + r.pc.rest[..bytes])
      case Unlock(_) => s.(readers := s.readers[i := r.(pc := Reading)], mutex := None)
  }

  function After(s: State, actions: seq<Action>): State {
    if actions == [] then s
    else Next(After(s, actions[..|actions| - 1]), actions[|actions| - 1])
  }

  predicate Initial(s: State) {
    && s.mutex.None? && s.file == [] && s.log == []
    && forall i | 0 <= i < |s.readers| :: s.readers[i].taken == 0 && s.readers[i].pc.Reading?
  }

  function Names(s: State): seq<string> {
    seq(|s.readers|, i requires 0 <= i < |s.readers| => s.readers[i].container)
  }

  function EntryLine(names: seq<string>, e: Entry): string {
    FormatLine(e.at, if e.reader < |names| then names[e.reader] else "", e.text)
  }

  function Render(names: seq<string>, log: seq<Entry>): string {
    if log == [] then []
    else Render(names, log[..|log| - 1]) + (EntryLine(names, log[|log| - 1]) + [NEWLINE])
  }

  /** What reader `i` has printed. */
  function Texts(log: seq<Entry>, i: nat): seq<string> {
    if log == [] then []
    else
      var e := log[|log| - 1];
      Texts(log[..|log| - 1], i) + if e.reader == i then [e.text] else []
  }

  function Printed(r: Reader): nat {
    if r.pc.Formatted? && r.taken > 0 then r.taken - 1 else r.taken
  }

  /** Bytes the mutex holder still owes the file. */
  function Owed(s: State): string {
    if s.mutex.Some? && s.mutex.value < |s.readers| && s.readers[s.mutex.value].pc.Writing?
    then s.readers[s.mutex.value].pc.rest
    else []
  }

  ghost predicate ReaderInv(s: State, i: nat)
    requires i < |s.readers|
  {
    var r := s.readers[i];
    && Printed(r) <= r.taken <= |r.input|
    && (r.pc.Formatted? ==> r.taken > 0 && Valid(r.pc.at))
    && (r.pc.Writing? <==> s.mutex == Some(i))
    && Texts(s.log, i) == r.input[..Printed(r)]
  }

  ghost predicate LogInv(s: State) {
    && forall k | 0 <= k < |s.log| :: s.log[k].reader < |s.readers| && Valid(s.log[k].at)
  }

  ghost predicate Inv(s: State) {
    && (s.mutex.Some? ==> s.mutex.value < |s.readers|)
    && (forall i: nat | i < |s.readers| :: ReaderInv(s, i))
    && LogInv(s)
    && s.file + Owed(s) == Render(Names(s), s.log)
  }

  lemma NextKeepsReader(s: State, a: Action, i: nat)
    requires Inv(s) && Enabled(s, a) && i < |s.readers|
    ensures ReaderInv(Next(s, a), i)
  {
    hide FormatLine, Valid, Render;
    var r, s' := s.readers[i], Next(s, a);
    assert ReaderInv(s, i) && ReaderInv(s, a.i);
    if a.Lock? {
      assert s'.log[..|s'.log| - 1] == s.log;
      if a.i == i {
        assert r.input[..r.taken] == r.input[..r.taken - 1] + [r.input[r.taken - 1]];
      }
    }
  }

  lemma NextKeepsNames(s: State, a: Action)
    ensures Names(Next(s, a)) == Names(s)
  {
    hide FormatLine, Valid, Moment;
  }

  lemma NextKeepsFile(s: State, a: Action)
    requires Inv(s) && Enabled(s, a)
    ensures Next(s, a).file + Owed(Next(s, a)) == Render(Names(s), Next(s, a).log)
  {
    assert ReaderInv(s, a.i);
    hide Next, Render, Names, Owed, FormatLine, Valid, LogInv;
    match a
    case Format(_, _) => FormatKeepsFile(s, a);
    case Lock(_) => LockKeepsFile(s, a);
    case Write(_, _) => WriteKeepsFile(s, a);
    case Unlock(_) => UnlockKeepsFile(s, a);
  }

  lemma FormatKeepsFile(s: State, a: Action)
    requires Enabled(s, a) && a.Format? && (s.readers[a.i].pc.Writing? <==> s.mutex == Some(a.i))
    ensures Next(s, a).file == s.file && Next(s, a).log == s.log && Owed(Next(s, a)) == Owed(s)
  {
    hide FormatLine, Valid, Moment;
  }

  lemma LockKeepsFile(s: State, a: Action)
    requires Enabled(s, a) && a.Lock? && s.file + Owed(s) == Render(Names(s), s.log)
    ensures Next(s, a).file + Owed(Next(s, a)) == Render(Names(s), Next(s, a).log)
  {
    hide FormatLine, Moment;
    var t, r := Next(s, a), s.readers[a.i];
    assert t.log[..|t.log| - 1] == s.log;
    assert Owed(s) == [] && s.file + [] == s.file;
    assert Names(s)[a.i] == r.container;
    assert Owed(t) == EntryLine(Names(s), t.log[|s.log|]) + [NEWLINE];
  }

  lemma WriteKeepsFile(s: State, a: Action)
    requires Enabled(s, a) && a.Write? && s.mutex == Some(a.i)
    ensures Next(s, a).log == s.log && Next(s, a).file + Owed(Next(s, a)) == s.file + Owed(s)
  {
    hide FormatLine, Moment;
    var rest := s.readers[a.i].pc.rest;
    assert Owed(s) == rest && Owed(Next(s, a)) == rest[a.bytes..];
    assert rest == rest[..a.bytes] + rest[a.bytes..];
    assert s.file + (rest[..a.bytes] + rest[a.bytes..]) == s.file + rest[..a.bytes] + rest[a.bytes..];
  }

  lemma UnlockKeepsFile(s: State, a: Action)
    requires Enabled(s, a) && a.Unlock? && s.mutex == Some(a.i)
    ensures Next(s, a).log == s.log && Next(s, a).file + Owed(Next(s, a)) == s.file + Owed(s)
  {
    hide FormatLine, Moment;
    assert Owed(s) == [] && Owed(Next(s, a)) == [];
  }

  lemma NextKeepsInv(s: State, a: Action)
    requires Inv(s)
    ensures Inv(Next(s, a)) && Names(Next(s, a)) == Names(s)
  {
    NextKeepsNames(s, a);
    if Enabled(s, a) {
      NextKeepsFile(s, a);
      assert ReaderInv(s, a.i);
      forall i: nat | i < |s.readers| ensures ReaderInv(Next(s, a), i) { NextKeepsReader(s, a, i); }
    }
  }

  lemma {:induction false} Reachable(s: State, actions: seq<Action>)
    requires Initial(s)
    ensures Inv(After(s, actions)) && Names(After(s, actions)) == Names(s)
    decreases |actions|
  {
    if actions != [] {
      Reachable(s, actions[..|actions| - 1]);
      NextKeepsInv(After(s, actions[..|actions| - 1]), actions[|actions| - 1]);
    }
  }

  /** However the readers interleave, between writes the file consists of whole lines in mutex order. */
  lemma WholeLines(s: State, actions: seq<Action>)
    requires Initial(s) && After(s, actions).mutex.None?
    ensures After(s, actions).file == Render(Names(s), After(s, actions).log)
  {
    Reachable(s, actions);
    var t := After(s, actions);
    assert t.file + [] == t.file;
  }

  predicate EndsInCR(text: string) { text != [] && text[|text| - 1] == '\r' }

  lemma LineHasNoNewline(at: Timestamp, container: string, text: string)
    requires NEWLINE !in container
    ensures NEWLINE in FormatLine(at, container, text) <==> NEWLINE in text
  {
    FormatHasNoSpace(at);
    var stamp := FormatTime(at);
    hide FormatTime;
    assert NEWLINE !in stamp;
    assert forall c | c in FormatLine(at, container, text) :: c in stamp || c == ' ' || c in container || c in text;
    assert forall i | 0 <= i < |text| :: FormatLine(at, container, text)[|stamp| + 1 + |container| + 1 + i] == text[i];
  }

  lemma LastOfLine(at: Timestamp, container: string, text: string)
    ensures DropCR(FormatLine(at, container, text)) == FormatLine(at, container, text) <==> !EndsInCR(text)
  {
    var stamp := FormatTime(at);
    hide FormatTime;
    var line := FormatLine(at, container, text);
    assert line == stamp + " " + container + " " + text;
    if text == [] {
      assert line[|line| - 1] == ' ';
    } else {
      assert line[|line| - 1] == text[|text| - 1];
    }
  }

  /**
   The container output that reaches the reader of the file unchanged: no line feed inside, no carriage return at the
   end.
   */
  lemma SurvivesScan(at: Timestamp, container: string, text: string)
    requires NEWLINE !in container && |FormatLine(at, container, text)| < MAX_SCAN_TOKEN
    ensures ScanLines(FormatLine(at, container, text) + [NEWLINE]).lines == [FormatLine(at, container, text)]
       <==> NEWLINE !in text && !EndsInCR(text)
  {
    hide FormatLine;
    LineHasNoNewline(at, container, text);
    LastOfLine(at, container, text);
    var line := FormatLine(at, container, text);
    assert line + [NEWLINE] == line + [NEWLINE] + [];
    if NEWLINE !in text {
      ScanHead(line, []);
      assert [DropCR(line)] + [] == [DropCR(line)];
    } else {
      FirstTokenIsShort(line);
    }
  }

  lemma FirstTokenIsShort(line: string)
    requires NEWLINE in line && |line| < MAX_SCAN_TOKEN
    ensures |ScanLines(line + [NEWLINE]).lines| > 0 && |ScanLines(line + [NEWLINE]).lines[0]| < |line|
  {
    var i := Text.IndexOf(line, NEWLINE);
    Text.IndexOfPresent(line, NEWLINE);
    Text.IndexOfUnique(line + [NEWLINE], NEWLINE, i);
  }

  /** Lines that print and scan without damage. */
  ghost predicate CleanEntry(names: seq<string>, e: Entry) {
    && Valid(e.at)
    && NEWLINE !in e.text && !EndsInCR(e.text)
    && e.reader < |names| && ' ' !in names[e.reader] && NEWLINE !in names[e.reader]
    && |EntryLine(names, e)| < MAX_SCAN_TOKEN
  }

  ghost predicate CleanLog(names: seq<string>, log: seq<Entry>) {
    forall k | 0 <= k < |log| :: CleanEntry(names, log[k])
  }

  function Lines(names: seq<string>, log: seq<Entry>): seq<string> {
    if log == [] then [] else Lines(names, log[..|log| - 1]) + [EntryLine(names, log[|log| - 1])]
  }

  lemma {:induction false} ScanRender(names: seq<string>, log: seq<Entry>)
    requires CleanLog(names, log)
    ensures EndsInNewline(Render(names, log))
    ensures ScanLines(Render(names, log)) == Scan(Lines(names, log), false)
    decreases |log|
  {
    if log != [] {
      var before, e := log[..|log| - 1], log[|log| - 1];
      ScanRender(names, before);
      assert CleanEntry(names, e);
      ScanEntry(names, e);
      ScanAppend(Render(names, before), EntryLine(names, e) + [NEWLINE]);
    }
  }

  lemma ScanEntry(names: seq<string>, e: Entry)
    requires CleanEntry(names, e)
    ensures ScanLines(EntryLine(names, e) + [NEWLINE]) == Scan([EntryLine(names, e)], false)
  {
    hide FormatLine;
    var line := EntryLine(names, e);
    LineHasNoNewline(e.at, names[e.reader], e.text);
    LastOfLine(e.at, names[e.reader], e.text);
    assert line + [NEWLINE] == line + [NEWLINE] + [];
    ScanHead(line, []);
    assert [line] + [] == [line];
  }

  /** The entries of one container, in mutex order. */
  function Named(names: seq<string>, log: seq<Entry>, container: string): seq<ParsedLine> {
    if log == [] then []
    else
      var e := log[|log| - 1];
      Named(names, log[..|log| - 1], container)
      + if e.reader < |names| && names[e.reader] == container then [ParsedLine(e.at, e.text)] else []
  }

  lemma {:induction false} MatchingLines(names: seq<string>, log: seq<Entry>, container: string)
    requires CleanLog(names, log)
    ensures Matching(Lines(names, log), container) == Named(names, log, container)
    decreases |log|
  {
    if log != [] {
      var before, e := log[..|log| - 1], log[|log| - 1];
      assert CleanEntry(names, e);
      MatchingLines(names, before, container);
      var all := Lines(names, log);
      hide FormatLine, ParseLine;
      assert all[..|all| - 1] == Lines(names, before);
      assert EntryLine(names, e) == FormatLine(e.at, names[e.reader], e.text);
      RoundTripClean(e.at, names[e.reader], e.text);
    }
  }

  function TextOf(lines: seq<ParsedLine>): (texts: seq<string>)
    ensures |texts| == |lines|
  {
    seq(|lines|, i requires 0 <= i < |lines| => lines[i].text)
  }

  /** `zs` interleaves `xs` and `ys`, keeping the order of each. */
  ghost predicate IsMerge<T>(xs: seq<T>, ys: seq<T>, zs: seq<T>)
    decreases |zs|
  {
    && |zs| == |xs| + |ys|
    && (zs == [] ||
        (var rest, z := zs[..|zs| - 1], zs[|zs| - 1];
         || (xs != [] && xs[|xs| - 1] == z && IsMerge(xs[..|xs| - 1], ys, rest))
         || (ys != [] && ys[|ys| - 1] == z && IsMerge(xs, ys[..|ys| - 1], rest))))
  }

  lemma MergeLeft<T>(xs: seq<T>, ys: seq<T>, zs: seq<T>, z: T)
    requires IsMerge(xs, ys, zs)
    ensures IsMerge(xs + [z], ys, zs + [z])
  {
    assert (xs + [z])[..|xs|] == xs && (zs + [z])[..|zs|] == zs;
  }

  lemma MergeRight<T>(xs: seq<T>, ys: seq<T>, zs: seq<T>, z: T)
    requires IsMerge(xs, ys, zs)
    ensures IsMerge(xs, ys + [z], zs + [z])
  {
    assert (ys + [z])[..|ys|] == ys && (zs + [z])[..|zs|] == zs;
  }

  /** `i` and `j` are the two readers (stdout and stderr) of `container`, and nobody else is. */
  ghost predicate Pipes(names: seq<string>, container: string, i: nat, j: nat) {
    && i < |names| && j < |names| && i != j
    && forall k | 0 <= k < |names| :: names[k] == container <==> k == i || k == j
  }

  lemma {:induction false} NamedIsMerge(names: seq<string>, log: seq<Entry>, container: string, i: nat, j: nat)
    requires Pipes(names, container, i, j)
    requires forall k | 0 <= k < |log| :: log[k].reader < |names|
    ensures IsMerge(Texts(log, i), Texts(log, j), TextOf(Named(names, log, container)))
    decreases |log|
  {
    if log != [] {
      var before, e := log[..|log| - 1], log[|log| - 1];
      NamedIsMerge(names, before, container, i, j);
      MergeStep(names, before, e, container, i, j);
      assert before + [e] == log;
    }
  }

  lemma MergeStep(names: seq<string>, log: seq<Entry>, e: Entry, container: string, i: nat, j: nat)
    requires Pipes(names, container, i, j) && e.reader < |names|
    requires IsMerge(Texts(log, i), Texts(log, j), TextOf(Named(names, log, container)))
    ensures IsMerge(Texts(log + [e], i), Texts(log + [e], j), TextOf(Named(names, log + [e], container)))
  {
    assert (log + [e])[..|log|] == log;
    var xs, ys, ls := Texts(log, i), Texts(log, j), Named(names, log, container);
    assert xs + [] == xs && ys + [] == ys && ls + [] == ls;
    var line := ParsedLine(e.at, e.text);
    if e.reader == i || e.reader == j {
      assert TextOf(ls + [line]) == TextOf(ls) + [e.text];
      if e.reader == i {
        MergeLeft(xs, ys, TextOf(ls), e.text);
      } else {
        MergeRight(xs, ys, TextOf(ls), e.text);
      }
    }
  }

  /** Every pipe is drained and the last line is out. */
  predicate Drained(s: State) {
    && s.mutex.None?
    && forall i | 0 <= i < |s.readers| :: s.readers[i].pc.Reading? && s.readers[i].taken == |s.readers[i].input|
  }

  /** Container names without spaces or line feeds, and output lines that survive the scanner. */
  ghost predicate CleanInput(s: State) {
    forall i | 0 <= i < |s.readers| ::
      var name := s.readers[i].container;
      && ' ' !in name && NEWLINE !in name
      && forall text | text in s.readers[i].input ::
           NEWLINE !in text && !EndsInCR(text) && 27 + |name| + |text| < MAX_SCAN_TOKEN
  }

  lemma {:induction false} TextsContain(log: seq<Entry>, k: nat)
    requires k < |log|
    ensures log[k].text in Texts(log, log[k].reader)
    decreases |log|
  {
    if k < |log| - 1 {
      TextsContain(log[..|log| - 1], k);
    }
  }

  lemma CleanInputGivesCleanLog(s: State)
    requires Inv(s) && CleanInput(s)
    ensures CleanLog(Names(s), s.log)
  {
    var names := Names(s);
    forall k | 0 <= k < |s.log| ensures CleanEntry(names, s.log[k]) {
      var e := s.log[k];
      TextsContain(s.log, k);
      assert ReaderInv(s, e.reader);
      assert e.text in s.readers[e.reader].input;
      LineLength(e.at, names[e.reader], e.text);
    }
  }

  lemma LineLength(at: Timestamp, container: string, text: string)
    ensures |FormatLine(at, container, text)| <= 27 + |container| + |text|
  {
  }

  /**
   However the stdout and stderr readers of all containers interleave: scanning, parsing and filtering the
   file for one container gives a merge of what its two readers have printed so far, each in its own order.
   */
  lemma Demultiplex(s: State, actions: seq<Action>, container: string, i: nat, j: nat)
    requires Initial(s) && CleanInput(s) && Pipes(Names(s), container, i, j)
    requires After(s, actions).mutex.None?
    ensures var t := After(s, actions);
            && Scannable(t.file) && EndsInNewline(t.file)
            && IsMerge(Texts(t.log, i), Texts(t.log, j), TextOf(Matching(ScanLines(t.file).lines, container)))
            && (forall r: nat | r < |s.readers| :: Texts(t.log, r) <= s.readers[r].input)
  {
    var names, t := Names(s), After(s, actions);
    Reachable(s, actions);
    WholeLines(s, actions);
    PrintedIsPrefix(s, actions);
    hide CleanInput, CleanLog, Initial, After, Names, Render, Lines, Texts, Named, ScanLines, Matching, IsMerge,
      ReaderInv;
    CleanInputStays(s, actions);
    CleanInputGivesCleanLog(t);
    ScanRender(names, t.log);
    MatchingLines(names, t.log, container);
    NamedIsMerge(names, t.log, container, i, j);
  }

  lemma CleanInputStays(s: State, actions: seq<Action>)
    requires CleanInput(s)
    ensures CleanInput(After(s, actions))
  {
    InputsStay(s, actions);
  }

  lemma PrintedIsPrefix(s: State, actions: seq<Action>)
    requires Initial(s)
    ensures forall r: nat | r < |s.readers| :: Texts(After(s, actions).log, r) <= s.readers[r].input
    ensures Drained(After(s, actions)) ==>
              forall r: nat | r < |s.readers| :: Texts(After(s, actions).log, r) == s.readers[r].input
  {
    Reachable(s, actions);
    InputsStay(s, actions);
    forall r: nat | r < |s.readers|
      ensures Texts(After(s, actions).log, r) <= s.readers[r].input
      ensures Drained(After(s, actions)) ==> Texts(After(s, actions).log, r) == s.readers[r].input
    {
      assert ReaderInv(After(s, actions), r);
    }
  }

  /** Once everything is drained the merge is of the two complete streams: nothing lost, nothing foreign. */
  lemma DemultiplexAll(s: State, actions: seq<Action>, container: string, i: nat, j: nat)
    requires Initial(s) && CleanInput(s) && Pipes(Names(s), container, i, j)
    requires Drained(After(s, actions))
    ensures IsMerge(s.readers[i].input, s.readers[j].input,
                    TextOf(Matching(ScanLines(After(s, actions).file).lines, container)))
  {
    PrintedIsPrefix(s, actions);
    hide CleanInput, Initial, After, Texts, ScanLines, Matching, IsMerge;
    Demultiplex(s, actions, container, i, j);
  }

  lemma {:induction false} InputsStay(s: State, actions: seq<Action>)
    ensures var t := After(s, actions);
            && |t.readers| == |s.readers|
            && forall i | 0 <= i < |s.readers| ::
                 t.readers[i].input == s.readers[i].input && t.readers[i].container == s.readers[i].container
    decreases |actions|
  {
    if actions != [] {
      InputsStay(s, actions[..|actions| - 1]);
    }
  }

  // Time order

  /** No stamp is later than the latest reading, and a waiting reader's is not earlier than its own entries. */
  ghost predicate ClockInv(s: State) {
    && (forall k | 0 <= k < |s.log| :: Moment(s.log[k].at) <= s.clock)
    && (forall i | 0 <= i < |s.readers| && s.readers[i].pc.Formatted? :: Moment(s.readers[i].pc.at) <= s.clock)
  }

  ghost predicate OwnOrder(s: State, i: nat)
    requires i < |s.readers|
  {
    && (forall k, l | 0 <= k < l < |s.log| && s.log[k].reader == i && s.log[l].reader == i ::
          Moment(s.log[k].at) <= Moment(s.log[l].at))
    && (s.readers[i].pc.Formatted? ==>
          forall k | 0 <= k < |s.log| && s.log[k].reader == i :: Moment(s.log[k].at) <= Moment(s.readers[i].pc.at))
  }

  lemma NextKeepsClock(s: State, a: Action)
    requires ClockInv(s)
    ensures ClockInv(Next(s, a))
  {
    hide Moment, FormatLine, Valid;
  }

  lemma NextKeepsOwnOrder(s: State, a: Action, i: nat)
    requires ClockInv(s) && i < |s.readers| && OwnOrder(s, i)
    ensures |Next(s, a).readers| == |s.readers| && OwnOrder(Next(s, a), i)
  {
    hide Moment, FormatLine, Valid;
  }

  lemma {:induction false} ClockAlways(s: State, actions: seq<Action>)
    requires Initial(s)
    ensures ClockInv(After(s, actions))
    decreases |actions|
  {
    hide Next, Moment;
    if actions != [] {
      ClockAlways(s, actions[..|actions| - 1]);
      NextKeepsClock(After(s, actions[..|actions| - 1]), actions[|actions| - 1]);
    }
  }

  /** Each reader's own lines are in the file in the order of their stamps. */
  lemma {:induction false} OwnLinesInOrder(s: State, actions: seq<Action>, i: nat)
    requires Initial(s) && i < |s.readers|
    ensures i < |After(s, actions).readers| && OwnOrder(After(s, actions), i)
    decreases |actions|
  {
    hide Next, Moment, ClockInv;
    if actions != [] {
      OwnLinesInOrder(s, actions[..|actions| - 1], i);
      ClockAlways(s, actions[..|actions| - 1]);
      NextKeepsOwnOrder(After(s, actions[..|actions| - 1]), actions[|actions| - 1], i);
    }
  }

  /** Some line stands before one with an earlier stamp. */
  ghost predicate Disordered(log: seq<Entry>) {
    exists k, l :: 0 <= k < l < |log| && Moment(log[k].at) > Moment(log[l].at)
  }

  /** Reader i waits with a stamp earlier than that of a line already written. */
  ghost predicate Overdue(s: State, i: nat) {
    && i < |s.readers| && s.readers[i].pc.Formatted?
    && exists k :: 0 <= k < |s.log| && Moment(s.log[k].at) > Moment(s.readers[i].pc.at)
  }

  ghost predicate SomeOverdue(s: State) { exists i: nat :: Overdue(s, i) }

  /** Reader j has its stamp, and a.i takes the mutex before it with a later one. */
  ghost predicate Overtakes(s: State, a: Action, j: nat) {
    && Enabled(s, a) && a.Lock? && j < |s.readers| && j != a.i && s.readers[j].pc.Formatted?
    && Moment(s.readers[j].pc.at) < Moment(s.readers[a.i].pc.at)
  }

  ghost predicate Overtaking(s: State, a: Action) { exists j: nat :: Overtakes(s, a, j) }

  ghost predicate Late(s: State) { Disordered(s.log) || SomeOverdue(s) }

  lemma DisorderedAppend(log: seq<Entry>, e: Entry)
    ensures Disordered(log + [e])
       <==> Disordered(log) || exists k :: 0 <= k < |log| && Moment(log[k].at) > Moment(e.at)
  {
    hide Moment;
    var longer := log + [e];
    if k, l :| 0 <= k < l < |log| && Moment(log[k].at) > Moment(log[l].at) {
      assert longer[k] == log[k] && longer[l] == log[l];
    } else if k :| 0 <= k < |log| && Moment(log[k].at) > Moment(e.at) {
      assert longer[k] == log[k] && longer[|log|] == e;
    }
  }

  lemma LockedLate(s: State, a: Action)
    requires Enabled(s, a) && a.Lock?
    ensures Disordered(Next(s, a).log) <==> Disordered(s.log) || Overdue(s, a.i)
  {
    DisorderedAppend(s.log, Next(s, a).log[|s.log|]);
    hide Moment, FormatLine, Disordered;
    assert Next(s, a).log == s.log + [Next(s, a).log[|s.log|]];
  }

  lemma LockedOverdue(s: State, a: Action, j: nat)
    requires Enabled(s, a) && a.Lock?
    ensures Overdue(Next(s, a), j) <==> j != a.i && (Overdue(s, j) || Overtakes(s, a, j))
  {
    hide Moment, FormatLine;
    var t := Next(s, a);
    assert forall k | 0 <= k < |s.log| :: t.log[k] == s.log[k];
    if Overtakes(s, a, j) {
      assert t.log[|s.log|].at == s.readers[a.i].pc.at;
    }
  }

  lemma OthersOverdue(s: State, a: Action, j: nat)
    requires ClockInv(s) && !(Enabled(s, a) && a.Lock?)
    ensures Next(s, a).log == s.log && (Overdue(Next(s, a), j) <==> Overdue(s, j))
  {
    hide Moment, FormatLine, Valid;
  }

  lemma LateStep(s: State, a: Action)
    requires ClockInv(s)
    ensures Late(Next(s, a)) <==> Late(s) || Overtaking(s, a)
  {
    hide Next, Enabled, Overdue, Overtakes, Disordered, ClockInv;
    if Enabled(s, a) && a.Lock? {
      LockedLate(s, a);
      forall j: nat ensures Overdue(Next(s, a), j) <==> j != a.i && (Overdue(s, j) || Overtakes(s, a, j)) {
        LockedOverdue(s, a, j);
      }
      assert !Overtakes(s, a, a.i) by { NotItself(s, a); }
    } else {
      OthersOverdue(s, a, 0);
      forall j: nat ensures Overdue(Next(s, a), j) <==> Overdue(s, j) { OthersOverdue(s, a, j); }
      assert forall j: nat :: !Overtakes(s, a, j) by { OnlyLocksOvertake(s, a); }
    }
  }

  lemma NotItself(s: State, a: Action)
    ensures !Overtakes(s, a, a.i)
  {
  }

  lemma OnlyLocksOvertake(s: State, a: Action)
    requires !(Enabled(s, a) && a.Lock?)
    ensures forall j: nat :: !Overtakes(s, a, j)
  {
  }

  ghost predicate EverOvertaken(s: State, actions: seq<Action>) {
    exists m: nat :: m < |actions| && Overtaking(After(s, actions[..m]), actions[m])
  }

  lemma EverOvertakenStep(s: State, actions: seq<Action>)
    requires actions != []
    ensures var n := |actions| - 1;
            EverOvertaken(s, actions)
            <==> EverOvertaken(s, actions[..n]) || Overtaking(After(s, actions[..n]), actions[n])
  {
    hide After, Overtaking;
    var n := |actions| - 1;
    assert forall m: nat | m < n :: actions[..n][..m] == actions[..m] && actions[..n][m] == actions[m];
    if EverOvertaken(s, actions[..n]) {
      var m: nat :| m < n && Overtaking(After(s, actions[..n][..m]), actions[..n][m]);
      assert Overtaking(After(s, actions[..m]), actions[m]);
    }
  }

  /**
   The stamp is taken before the mutex. So the file, or what waits to be written to it, is out of time order exactly if
   at some point a reader took the mutex while another waited with an earlier stamp.
   */
  lemma {:induction false} LateIffOvertaken(s: State, actions: seq<Action>)
    requires Initial(s)
    ensures Late(After(s, actions)) <==> EverOvertaken(s, actions)
    decreases |actions|
  {
    hide Next, ClockInv, Overtaking, EverOvertaken, Disordered, Overdue;
    if actions == [] {
      NeverYet(s);
    } else {
      var n := |actions| - 1;
      LateIffOvertaken(s, actions[..n]);
      ClockAlways(s, actions[..n]);
      LateStep(After(s, actions[..n]), actions[n]);
      EverOvertakenStep(s, actions);
    }
  }

  lemma NeverYet(s: State)
    requires Initial(s)
    ensures !Late(s) && !EverOvertaken(s, [])
  {
  }

  /** When nobody waits, in particular at the end, the file itself is out of time order exactly then. */
  lemma InOrderUnlessOvertaken(s: State, actions: seq<Action>)
    requires Initial(s)
    requires forall i | 0 <= i < |After(s, actions).readers| :: !After(s, actions).readers[i].pc.Formatted?
    ensures Disordered(After(s, actions).log) <==> EverOvertaken(s, actions)
  {
    LateIffOvertaken(s, actions);
    hide After, EverOvertaken, Disordered, Moment;
  }

  /** And that happens: of two stamps two readers got one after the other, the later can be written first. */
  lemma StampsMayGoBackwards(s: State, t1: Timestamp, t2: Timestamp)
    requires Initial(s) && |s.readers| >= 2 && s.readers[0].input != [] && s.readers[1].input != []
    requires Valid(t1) && Valid(t2) && s.clock <= Moment(t1) < Moment(t2)
    ensures exists actions :: OutOfOrder(After(s, actions), t1, t2)
  {
    hide FormatLine, Valid, Moment;
    var s1 := Next(s, Format(0, t1));
    var s2 := Next(s1, Format(1, t2));
    var s3 := Next(s2, Lock(1));
    var line := s3.readers[1].pc.rest;
    var s4 := Next(s3, Write(1, |line|));
    var s5 := Next(s4, Unlock(1));
    var s6 := Next(s5, Lock(0));
    assert s3.mutex == Some(1) && s4.readers[1].pc.rest == [] && s5.mutex == None && s6.mutex == Some(0);
    assert OutOfOrder(s6, t1, t2);
    ghost var run: seq<Action> := [];
    assert After(s, run) == s;
    run := Extend(s, run, Format(0, t1));
    run := Extend(s, run, Format(1, t2));
    run := Extend(s, run, Lock(1));
    run := Extend(s, run, Write(1, |line|));
    run := Extend(s, run, Unlock(1));
    run := Extend(s, run, Lock(0));
    assert After(s, run) == s6;
  }

  lemma Extend(s: State, actions: seq<Action>, a: Action) returns (longer: seq<Action>)
    ensures After(s, longer) == Next(After(s, actions), a)
  {
    longer := actions + [a];
    assert longer[..|longer| - 1] == actions;
  }

  /** Reader 1's later line stands before reader 0's earlier one. */
  ghost predicate OutOfOrder(s: State, t1: Timestamp, t2: Timestamp) {
    && |s.log| == 2
    && s.log[0].reader == 1 && s.log[0].at == t2
    && s.log[1].reader == 0 && s.log[1].at == t1
    && Disordered(s.log)
  }

  // The output can always be completed

  /** Lines still to be taken, and steps still to be made for the ones taken. */
  function Left(readers: seq<Reader>): nat {
    if readers == [] then 0 else Left(readers[..|readers| - 1]) + LeftOf(readers[|readers| - 1])
  }

  function LeftOf(r: Reader): nat {
    var lines := if r.taken <= |r.input| then |r.input| - r.taken else 0;
    4 * lines + match r.pc
                case Reading => 0
                case Formatted(_) => 3
                case Writing(rest) => if rest == [] then 1 else 2
  }

  lemma {:induction false} LeftUpdate(readers: seq<Reader>, i: nat, r: Reader)
    requires i < |readers|
    ensures Left(readers[i := r]) == Left(readers) - LeftOf(readers[i]) + LeftOf(r)
    decreases |readers|
  {
    hide LeftOf;
    var n := |readers| - 1;
    if i < n {
      LeftUpdate(readers[..n], i, r);
      assert readers[i := r][..n] == readers[..n][i := r];
    } else {
      assert readers[i := r][..n] == readers[..n];
    }
  }

  /** Unless everything is drained, some reader can take a step towards it, whatever the clock shows. */
  lemma SomeStep(s: State, now: Timestamp) returns (a: Action)
    requires Inv(s) && !Drained(s) && Valid(now) && s.clock <= Moment(now)
    ensures Enabled(s, a) && Left(Next(s, a).readers) < Left(s.readers) && Next(s, a).clock <= Moment(now)
  {
    hide FormatLine, Moment, Left, Render, Valid, LogInv;
    var i: nat;
    if s.mutex.Some? {
      i := s.mutex.value;
      assert ReaderInv(s, i);
      var rest := s.readers[i].pc.rest;
      a := if rest == [] then Unlock(i) else Write(i, |rest|);
    } else {
      i :| i < |s.readers| && !(s.readers[i].pc.Reading? && s.readers[i].taken == |s.readers[i].input|);
      assert ReaderInv(s, i);
      a := if s.readers[i].pc.Reading? then Format(i, now) else Lock(i);
    }
    LeftUpdate(s.readers, i, Next(s, a).readers[i]);
  }

  /** From every reachable state the readers can go on until every pipe is drained and every line is out. */
  lemma {:induction false} CanDrain(s: State, actions: seq<Action>, now: Timestamp) returns (more: seq<Action>)
    requires Initial(s) && Valid(now) && After(s, actions).clock <= Moment(now)
    ensures Drained(After(s, actions + more))
    decreases Left(After(s, actions).readers)
  {
    hide Next, Inv, Left, Drained, Moment, Enabled, Valid;
    var here := After(s, actions);
    if Drained(here) {
      more := [];
      assert actions + [] == actions;
    } else {
      Reachable(s, actions);
      var a := SomeStep(here, now);
      assert (actions + [a])[..|actions|] == actions;
      assert After(s, actions + [a]) == Next(here, a);
      var rest := CanDrain(s, actions + [a], now);
      more := [a] + rest;
      assert actions + more == actions + [a] + rest;
    }
  }
}
