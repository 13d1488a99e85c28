/**
 tailF (server/workload.go): poll a job's output file, send the lines of one container, at first
 only the last n of them, and with `follow` keep going with whatever is appended.
 */
module Tail {
  import opened Wrappers
  import opened LogLine

  function Last<T>(xs: seq<T>, n: nat): seq<T> {
    if |xs| <= n then xs else xs[|xs| - n..]
  }

  /** container/ring as tailF uses it: a cursor over n slots that starts out empty. */
  class Ring {
    const slots: array<Option<ParsedLine>>
    var pos: nat

    ghost predicate Valid()
      reads this
    {
      pos < slots.Length
    }

    /** The slots in ring order, starting at the cursor. */
    ghost function Contents(): (s: seq<Option<ParsedLine>>)
      requires Valid()
      reads this, slots
      ensures |s| == slots.Length
    {
      slots[pos..] + slots[..pos]
    }

    constructor (n: nat)
      requires n > 0
      ensures Valid() && fresh(slots) && slots.Length == n
      ensures Contents() == Kept([], n)
    {
      slots := new Option<ParsedLine>[n](_ => None);
      pos := 0;
    }

    /** `buffer.Value = line; buffer = buffer.Next()` */
    method Put(line: ParsedLine)
      requires Valid()
      modifies this, slots
      ensures Valid()
      ensures Contents() == old(Contents())[1..] + [Some(line)]
    {
      slots[pos] := Some(line);
      pos := if pos + 1 == slots.Length then 0 else pos + 1;
    }

    /** `buffer.Do`, skipping the slots that were never filled. */
    method Do() returns (lines: seq<ParsedLine>)
      requires Valid()
      ensures lines == Filled(Contents())
    {
      lines := [];
      var at := pos;
      ghost var all := Contents();
      for k := 0 to slots.Length
        invariant at == if pos + k < slots.Length then pos + k else pos + k - slots.Length
        invariant lines == Filled(all[..k])
      {
        assert all[..k + 1][..k] == all[..k];
        assert all[k] == slots[at];
        if slots[at].Some? {
          lines := lines + [slots[at].value];
        }
        at := if at + 1 == slots.Length then 0 else at + 1;
      }
      assert all[..slots.Length] == all;
    }
  }

  function Filled(slots: seq<Option<ParsedLine>>): seq<ParsedLine> {
    if slots == [] then []
    else
      var last := slots[|slots| - 1];
      Filled(slots[..|slots| - 1]) + if last.Some? then [last.value] else []
  }

  /** What a ring of n slots holds after `lines` went through it. */
  function Kept(lines: seq<ParsedLine>, n: nat): (s: seq<Option<ParsedLine>>)
    ensures |s| == n
  {
    seq(n, k requires 0 <= k < n => if |lines| - n + k < 0 then None else Some(lines[|lines| - n + k]))
  }

  lemma KeptPut(lines: seq<ParsedLine>, line: ParsedLine, n: nat)
    requires n > 0
    ensures Kept(lines, n)[1..] + [Some(line)] == Kept(lines + [line], n)
  {
  }

  lemma {:induction false} FilledKept(lines: seq<ParsedLine>, n: nat, k: nat)
    requires k <= n
    ensures Filled(Kept(lines, n)[..k]) == KeptLines(lines, n, k)
    decreases k
  {
    hide Kept, Filled, KeptLines;
    if k == 0 {
      NoneKept(lines, n);
    } else {
      FilledKept(lines, n, k - 1);
      OneMoreKept(lines, n, k);
      FilledNext(Kept(lines, n), k);
    }
  }

  /** The lines in the first k slots of a ring of n. */
  function KeptLines(lines: seq<ParsedLine>, n: nat, k: nat): seq<ParsedLine>
    requires k <= n
  {
    if |lines| <= n then lines[..if |lines| - n + k < 0 then 0 else |lines| - n + k] else lines[|lines| - n..][..k]
  }

  lemma NoneKept(lines: seq<ParsedLine>, n: nat)
    ensures Filled(Kept(lines, n)[..0]) == KeptLines(lines, n, 0)
  {
  }

  lemma OneMoreKept(lines: seq<ParsedLine>, n: nat, k: nat)
    requires 0 < k <= n
    ensures var slot := Kept(lines, n)[k - 1];
            KeptLines(lines, n, k) == KeptLines(lines, n, k - 1) + if slot.Some? then [slot.value] else []
  {
  }

  lemma FilledNext(slots: seq<Option<ParsedLine>>, k: nat)
    requires 0 < k <= |slots|
    ensures Filled(slots[..k]) == Filled(slots[..k - 1]) + if slots[k - 1].Some? then [slots[k - 1].value] else []
  {
    assert slots[..k][..k - 1] == slots[..k - 1];
  }

  /** The ring keeps exactly the last min(n, m) of m lines, oldest first. */
  lemma RingIsLast(lines: seq<ParsedLine>, n: nat)
    ensures Filled(Kept(lines, n)) == Last(lines, n)
  {
    FilledKept(lines, n, n);
    assert Kept(lines, n)[..n] == Kept(lines, n);
  }

  /** The output file as one poll finds it: its identity (inode) and its content. */
  datatype File = File(id: nat, content: string)

  /** What happens when a file has to be opened; the old one, if there is one, is closed first. */
  datatype Opening = Smooth | CloseFails | Vanished | OpenFails | FstatFails

  /** What one turn of the polling loop meets; reading may fail after some characters of what there is to read. */
  datatype Look = Cancelled | Missing | StatFails | Present(file: File, opening: Opening, breaks: Option<nat>)

  datatype Config = Config(filter: string, n: int, follow: bool)

  /** `open` is the identity of the open file and how far it has been read. */
  datatype View = View(open: Option<(nat, nat)>, tailn: bool, sent: seq<ParsedLine>)

  datatype Outcome = Polling | Finished | StatFailed | CloseFailed | OpenFailed | ScanFailed

  function Start(cfg: Config): View { View(None, cfg.n > 0, []) }

  /** The part of the file this poll gets to see: from the start if the file is new or was replaced. */
  function Unread(v: View, file: File): string {
    if v.open.Some? && v.open.value.0 == file.id
    then (if v.open.value.1 <= |file.content| then file.content[v.open.value.1..] else [])
    else file.content
  }

  function Chosen(cfg: Config, v: View, matching: seq<ParsedLine>): seq<ParsedLine> {
    if v.tailn && cfg.n > 0 then Last(matching, cfg.n) else matching
  }

  function ReadUpTo(v: View, file: File): nat {
    if v.open.Some? && v.open.value.0 == file.id && v.open.value.1 > |file.content| then v.open.value.1
      else |file.content|
  }

  /** What the scanner gets to see: up to a read error, whose last piece of a line it still delivers. */
  function Readable(text: string, breaks: Option<nat>): string {
    if breaks.Some? && breaks.value < |text| then text[..breaks.value] else text
  }

  /** The rest of a turn once the file is open. */
  function Scanned(cfg: Config, v: View, file: File, breaks: Option<nat>): (View, Outcome) {
    var scan := ScanLines(Readable(Unread(v, file), breaks));
    var v' := v.(open := Some((file.id, ReadUpTo(v, file))),
                 sent := v.sent + Chosen(cfg, v, Matching(scan.lines, cfg.filter)));
    if scan.tooLong || breaks.Some? then (v', ScanFailed)
    else if !cfg.follow then (v', Finished)
    else (v'.(tailn := false), Polling)
  }

  /** One turn of the polling loop. */
  function Poll(cfg: Config, v: View, look: Look): (View, Outcome) {
    match look
    case Cancelled => (v, Finished)
    case Missing => (v, if v.open.Some? then StatFailed else Polling)
    case StatFails => (v, if v.open.Some? then StatFailed else OpenFailed)
    case Present(file, opening, breaks) =>
      if v.open.Some? && v.open.value.0 == file.id then Scanned(cfg, v, file, breaks)
      else if v.open.Some? && opening.CloseFails? then (v, CloseFailed)
      else if opening.Vanished? then (v.(open := None), Polling)
      else if opening.OpenFails? then (v.(open := None), OpenFailed)
      else if opening.FstatFails? then (v.(open := Some((file.id, 0))), StatFailed)
      else Scanned(cfg, v, file, breaks)
  }

  class Tailer {
    const cfg: Config
    var open: Option<(nat, nat)>
    var tailn: bool
    var sent: seq<ParsedLine>

    ghost function V(): View
      reads this
    {
      View(open, tailn, sent)
    }

    ghost predicate Valid()
      reads this
    {
      tailn ==> cfg.n > 0
    }

    constructor (cfg: Config)
      ensures Valid() && this.cfg == cfg && V() == Start(cfg)
    {
      this.cfg := cfg;
      open, tailn, sent := None, cfg.n > 0, [];
    }

    method Turn(look: Look) returns (outcome: Outcome)
      requires Valid()
      modifies this
      ensures Valid()
      ensures (V(), outcome) == Poll(cfg, old(V()), look)
    {
      hide Scanned;
      if look.Cancelled? {
        return Finished;
      }
      if open.Some? {
        if look.Missing? || look.StatFails? {
          return StatFailed;
        }
        if open.value.0 != look.file.id {
          if look.opening.CloseFails? {
            return CloseFailed;
          }
          Reopened(cfg, V(), look.file, look.breaks);
          open := None;
        }
      }
      if open.None? {
        if look.Missing? || (look.Present? && look.opening.Vanished?) {
          return Polling; // The file is not there (yet)
        }
        if look.StatFails? || look.opening.OpenFails? {
          return OpenFailed;
        }
        Reopened(cfg, V(), look.file, look.breaks);
        open := Some((look.file.id, 0));
        if look.opening.FstatFails? {
          return StatFailed;
        }
      }
      outcome := ScanOn(look.file, look.breaks);
    }

    method ScanOn(file: File, breaks: Option<nat>) returns (outcome: Outcome)
      requires Valid() && open.Some? && open.value.0 == file.id
      modifies this
      ensures Valid()
      ensures (V(), outcome) == Scanned(cfg, old(V()), file, breaks)
    {
      var unread := if open.value.1 <= |file.content| then file.content[open.value.1..] else [];
      assert unread == Unread(V(), file);
      var scan := ScanLines(Readable(unread, breaks));
      open := Some((file.id, if open.value.1 <= |file.content| then |file.content| else open.value.1));
      Drain(scan.lines);
      if scan.tooLong || breaks.Some? {
        return ScanFailed;
      }
      if !cfg.follow {
        return Finished;
      }
      tailn := false;
      return Polling;
    }

    /** The scanner loop: every matching line is sent, or only the last ones. */
    method Drain(lines: seq<string>)
      requires Valid()
      modifies this`sent
      ensures sent == old(sent) + Chosen(cfg, V(), Matching(lines, cfg.filter))
    {
      if tailn {
        var last := TailLines(lines, cfg.filter, cfg.n);
        sent := sent + last;
        return;
      }
      for k := 0 to |lines|
        invariant sent == old(sent) + Matching(lines[..k], cfg.filter)
      {
        MatchingNext(lines, k, cfg.filter);
        if Keeps(lines[k], cfg.filter) {
          sent := sent + [ParseLine(lines[k]).0];
        }
      }
      assert lines[..|lines|] == lines;
    }
  }

  /** A file opened anew is scanned from its start, whatever was open before. */
  lemma Reopened(cfg: Config, v: View, file: File, breaks: Option<nat>)
    requires v.open.Some? ==> v.open.value.0 != file.id
    ensures Scanned(cfg, v.(open := None), file, breaks) == Scanned(cfg, v, file, breaks)
    ensures Scanned(cfg, v.(open := Some((file.id, 0))), file, breaks) == Scanned(cfg, v, file, breaks)
  {
    hide ScanLines, Matching, Readable, Last;
    assert file.content[0..] == file.content;
  }

  /** Tailing a line count: the matching lines run through a ring buffer of n slots, which is then emptied. */
  method TailLines(lines: seq<string>, filter: string, n: nat) returns (last: seq<ParsedLine>)
    requires n > 0
    ensures last == Last(Matching(lines, filter), n)
  {
    hide ParseLine, Keeps, Kept, Filled;
    var buffer := new Ring(n);
    ghost var matched: seq<ParsedLine> := [];
    for k := 0 to |lines|
      invariant buffer.Valid() && fresh(buffer) && fresh(buffer.slots) && buffer.slots.Length == n
      invariant matched == Matching(lines[..k], filter)
      invariant buffer.Contents() == Kept(matched, n)
    {
      MatchingNext(lines, k, filter);
      if Keeps(lines[k], filter) {
        var line := ParseLine(lines[k]).0;
        KeptPut(matched, line, n);
        buffer.Put(line);
        matched := matched + [line];
      }
    }
    assert lines[..|lines|] == lines;
    RingIsLast(matched, n);
    last := buffer.Do();
  }

  lemma MatchingNext(lines: seq<string>, k: nat, filter: string)
    requires k < |lines|
    ensures Matching(lines[..k + 1], filter)
         == Matching(lines[..k], filter) + if Keeps(lines[k], filter) then [ParseLine(lines[k]).0] else []
  {
    hide Keeps, ParseLine;
    assert lines[..k + 1][..k] == lines[..k];
  }

  /**
   A file that was replaced is read from its start, whatever was read of the old one; and what is there of a file at the
   first poll is cut to the last n lines only then.
   */
  lemma ReplacedIsReadWhole(cfg: Config, v: View, file: File)
    requires v.open.Some? && v.open.value.0 != file.id && !v.tailn && Scannable(file.content)
    ensures var (w, outcome) := Poll(cfg, v, Present(file, Smooth, None));
            && w.sent == v.sent + Matching(ScanLines(file.content).lines, cfg.filter)
            && w.open == Some((file.id, |file.content|))
            && outcome == if cfg.follow then Polling else Finished
  {
    hide ScanLines, Matching;
  }

  /** Until the file is there nothing is sent and polling goes on; once it was open, its absence is an error. */
  lemma MissingFile(cfg: Config, v: View)
    ensures Poll(cfg, v, Missing) == (v, if v.open.Some? then StatFailed else Polling)
  {
  }

  /** Nothing is sent in a turn that fails before scanning; a scan that fails has sent the lines before the failure. */
  lemma FailedTurns(cfg: Config, v: View, look: Look)
    ensures var (w, outcome) := Poll(cfg, v, look);
            && (outcome == StatFailed || outcome == CloseFailed || outcome == OpenFailed ==> w.sent == v.sent)
            && (outcome == ScanFailed ==>
                  && look.Present?
                  && var seen := Readable(Unread(v, look.file), look.breaks);
                     && (look.breaks.Some? || !Scannable(seen))
                     && w.sent == v.sent + if v.tailn
                     && cfg.n > 0 then Last(Matching(ScanLines(seen).lines, cfg.filter), cfg.n)
                                           else Matching(ScanLines(seen).lines, cfg.filter))
  {
    hide ScanLines, Matching;
  }

  /** All turns up to the last: the outcome is Polling as long as the loop goes on. */
  function Polls(cfg: Config, found: seq<Look>): (View, Outcome) {
    if found == [] then (Start(cfg), Polling)
    else
      var (v, outcome) := Polls(cfg, found[..|found| - 1]);
      if outcome == Polling then Poll(cfg, v, found[|found| - 1]) else (v, outcome)
  }

  /** The same file throughout, growing by whole lines of acceptable length. */
  ghost predicate Grows(contents: seq<string>) {
    && (forall i | 0 <= i < |contents| :: EndsInNewline(contents[i]) && Scannable(contents[i]))
    && (forall i, j | 0 <= i <= j < |contents| :: contents[i] <= contents[j])
  }

  function Found(waits: nat, id: nat, contents: seq<string>): seq<Look> {
    seq(waits, _ => Missing) + seq(|contents|,
      i requires 0 <= i < |contents| => Present(File(id, contents[i]), Smooth, None))
  }

  lemma GrowsInTwo(a: string, c: string)
    requires a <= c && EndsInNewline(a) && Scannable(a) && Scannable(c)
    ensures ScanLines(c).lines == ScanLines(a).lines + ScanLines(c[|a|..]).lines
    ensures Scannable(c[|a|..])
  {
    assert c == a + c[|a|..];
    ScanAppend(a, c[|a|..]);
  }

  lemma {:induction false} Waiting(cfg: Config, waits: nat)
    ensures Polls(cfg, seq(waits, _ => Missing)) == (Start(cfg), Polling)
  {
    if waits > 0 {
      var found: seq<Look> := seq(waits, _ => Missing);
      assert found[..waits - 1] == seq(waits - 1, _ => Missing);
      Waiting(cfg, waits - 1);
    }
  }

  /** What the tailer is to have sent once it has seen `contents`. */
  function Followed(cfg: Config, first: string, final: string): seq<ParsedLine>
    requires first <= final
  {
    var there, later := Matching(ScanLines(first).lines, cfg.filter),
      Matching(ScanLines(final[|first|..]).lines, cfg.filter);
    (if cfg.n > 0 then Last(there, cfg.n) else there) + later
  }

  /**
   Following: over any number of polls of a file that appears at some point and then grows by whole lines, what
   was sent is the last n (or all) of the lines matching at the first poll, then every matching line appended
   later, each once and in order.
   */
  lemma {:induction false} Follow(cfg: Config, waits: nat, id: nat, contents: seq<string>)
    requires cfg.follow && contents != [] && Grows(contents)
    ensures var final := contents[|contents| - 1];
            Polls(cfg, Found(waits, id, contents))
            == (View(Some((id, |final|)), false, Followed(cfg, contents[0], final)), Polling)
    decreases |contents|
  {
    var before, first, final := contents[..|contents| - 1], contents[0], contents[|contents| - 1];
    if before == [] {
      Waiting(cfg, waits);
      FirstPoll(cfg, id, final);
      FoundLast(waits, id, contents);
      PollsLast(cfg, seq(waits, _ => Missing), Present(File(id, final), Smooth, None), Start(cfg));
    } else {
      Follow(cfg, waits, id, before);
      FollowNext(cfg, waits, id, contents);
    }
  }

  lemma FollowNext(cfg: Config, waits: nat, id: nat, contents: seq<string>)
    requires cfg.follow && |contents| >= 2 && Grows(contents)
    requires var mid := contents[|contents| - 2];
             Polls(cfg, Found(waits, id, contents[..|contents| - 1]))
             == (View(Some((id, |mid|)), false, Followed(cfg, contents[0], mid)), Polling)
    ensures var final := contents[|contents| - 1];
            Polls(cfg, Found(waits, id, contents))
            == (View(Some((id, |final|)), false, Followed(cfg, contents[0], final)), Polling)
  {
    hide ScanLines, Matching, Poll, Chosen, Polls, Found, Followed;
    var first, mid, final := contents[0], contents[|contents| - 2], contents[|contents| - 1];
    assert first <= mid <= final && Scannable(final) && Scannable(mid) && Scannable(first);
    FollowedNext(cfg, first, mid, final);
    FollowPoll(cfg, id, mid, final);
    FoundLast(waits, id, contents);
    var v := View(Some((id, |mid|)), false, Followed(cfg, first, mid));
    PollsLast(cfg, Found(waits, id, contents[..|contents| - 1]), Present(File(id, final), Smooth, None), v);
  }

  lemma FollowedNext(cfg: Config, first: string, mid: string, final: string)
    requires first <= mid <= final && EndsInNewline(first) && EndsInNewline(mid)
    requires Scannable(first) && Scannable(mid) && Scannable(final)
    ensures Scannable(final[|mid|..])
    ensures Followed(cfg, first, final)
         == Followed(cfg, first, mid) + Matching(ScanLines(final[|mid|..]).lines, cfg.filter)
  {
    hide ScanLines, Matching, Chosen;
    FollowStep(first, mid, final, cfg.filter);
    ConcatAssoc(Chosen(cfg, Start(cfg), Matching(ScanLines(first).lines, cfg.filter)),
                Matching(ScanLines(mid[|first|..]).lines, cfg.filter),
                Matching(ScanLines(final[|mid|..]).lines, cfg.filter));
  }

  lemma ConcatAssoc<T>(a: seq<T>, b: seq<T>, c: seq<T>)
    ensures a + b + c == a + (b + c)
  {
  }

  lemma FoundLast(waits: nat, id: nat, contents: seq<string>)
    requires contents != []
    ensures Found(waits, id, contents)
         == Found(waits, id, contents[..|contents| - 1]) + [Present(File(id, contents[|contents| - 1]), Smooth, None)]
    ensures |contents| == 1 ==> Found(waits, id, contents[..0]) == seq(waits, _ => Missing)
  {
  }

  lemma PollsLast(cfg: Config, before: seq<Look>, last: Look, v: View)
    requires Polls(cfg, before) == (v, Polling)
    ensures Polls(cfg, before + [last]) == Poll(cfg, v, last)
  {
    hide Poll;
    assert (before + [last])[..|before|] == before;
  }

  lemma FirstPoll(cfg: Config, id: nat, content: string)
    requires cfg.follow && Scannable(content)
    ensures Poll(cfg, Start(cfg), Present(File(id, content), Smooth, None))
         == (View(Some((id, |content|)), false, Followed(cfg, content, content)), Polling)
  {
    assert content[|content|..] == [];
    var sent := Chosen(cfg, Start(cfg), Matching(ScanLines(content).lines, cfg.filter));
    assert [] + sent == sent + [] == sent;
  }

  lemma FollowStep(first: string, mid: string, final: string, filter: string)
    requires first <= mid <= final && EndsInNewline(first) && EndsInNewline(mid) && Scannable(first) && Scannable(mid)
      && Scannable(final)
    ensures Matching(ScanLines(final[|first|..]).lines, filter)
         == Matching(ScanLines(mid[|first|..]).lines, filter) + Matching(ScanLines(final[|mid|..]).lines, filter)
    ensures Scannable(final[|mid|..])
  {
    hide ScanLines, Matching;
    GrowsInTwo(first, mid);
    GrowsInTwo(mid, final);
    var a, b := mid[|first|..], final[|mid|..];
    assert final[|first|..] == a + b;
    ScanAppend(a, b);
    MatchingAppend(ScanLines(a).lines, ScanLines(b).lines, filter);
  }

  lemma FollowPoll(cfg: Config, id: nat, mid: string, final: string)
    requires cfg.follow && mid <= final && Scannable(final[|mid|..])
    ensures forall sent ::
              Poll(cfg, View(Some((id, |mid|)), false, sent), Present(File(id, final), Smooth, None))
              == (View(Some((id, |final|)), false, sent + Matching(ScanLines(final[|mid|..]).lines, cfg.filter)),
                Polling)
  {
  }

  /** Without a line count, following sends exactly the matching lines of the final file. */
  lemma FollowAll(cfg: Config, waits: nat, id: nat, contents: seq<string>)
    requires cfg.follow && cfg.n <= 0 && contents != [] && Grows(contents)
    ensures var final := contents[|contents| - 1];
            Polls(cfg, Found(waits, id, contents)).0.sent == Matching(ScanLines(final).lines, cfg.filter)
  {
    hide ScanLines, Matching, Poll, Polls, Found;
    var first, final := contents[0], contents[|contents| - 1];
    assert first <= final && EndsInNewline(first) && Scannable(first) && Scannable(final);
    Follow(cfg, waits, id, contents);
    GrowsInTwo(first, final);
    MatchingAppend(ScanLines(first).lines, ScanLines(final[|first|..]).lines, cfg.filter);
  }
}
