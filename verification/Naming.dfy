/** From jobs to Pods (workload/conversion.go): Pod names, labels and one Pod per allocated node. */
module Naming {
  import opened Wrappers
  import opened Text
  import opened Labels
  import PodStatus

  const MAX_LATIN1: int := 0xFF
  const MAX_NAME: int := 63
  const NAMESPACE_WORKLOAD := "supernetes-workload"

  /** unicode.ToLower, exact wherever the result can be a Latin-1 character. */
  function Lower(c: char): char {
    var r := c as int;
    if 'A' <= c <= 'Z' || (0xC0 <= r <= 0xDE && r != 0xD7) then (r + 32) as char
    else if r == 0x130 then 'i'
    else if r == 0x178 then 0xFF as char
    else if r == 0x1E9E then 0xDF as char
    else if r == 0x212A then 'k'
    else if r == 0x212B then 0xE5 as char
    else c
  }

  function LowerAll(s: string): (r: string)
    ensures |r| == |s|
  {
    seq(|s|, i requires 0 <= i < |s| => Lower(s[i]))
  }

  /** A non-ASCII Latin-1 letter in the sense of unicode.IsLetter. */
  predicate Foreign(c: char) {
    var r := c as int;
    r == 0xAA || r == 0xB5 || r == 0xBA || (0xC0 <= r <= MAX_LATIN1 && r != 0xD7 && r != 0xF7)
  }

  predicate AsciiAlnum(c: char) { 'a' <= c <= 'z' || IsDigit(c) }

  /** The characters toLowerRFC1123 keeps after lower-casing. */
  predicate Keep(c: char) { AsciiAlnum(c) || 'A' <= c <= 'Z' || Foreign(c) }

  /** What the loop has collected after `s`, if no length bound stops it: runs of other characters become one dash. */
  function Collapse(s: string): string {
    if s == [] then []
    else Collapsed(Collapse(s[..|s| - 1]), s[|s| - 1])
  }

  function Collapsed(r: string, c: char): string {
    if Keep(c) then r + [c]
    else if r != [] && r[|r| - 1] == '-' then r
    else r + ['-']
  }

  function Cut(s: string, maxLen: int): string {
    if maxLen > 0 && |s| > maxLen then s[..maxLen] else s
  }

  function TrimLeft(s: string): (r: string)
    ensures r == [] || r[0] != '-'
    ensures |r| <= |s| && r == s[|s| - |r|..]
    ensures forall i | 0 <= i < |s| - |r| :: s[i] == '-'
  {
    if s != [] && s[0] == '-' then TrimLeft(s[1..]) else s
  }

  function TrimRight(s: string): (r: string)
    ensures r == [] || r[|r| - 1] != '-'
    ensures |r| <= |s| && r == s[..|r|]
    ensures forall i | |r| <= i < |s| :: s[i] == '-'
  {
    if s != [] && s[|s| - 1] == '-' then TrimRight(s[..|s| - 1]) else s
  }

  function Trim(s: string): string { TrimRight(TrimLeft(s)) }

  /** What toLowerRFC1123 amounts to: trim the first maxLen characters of the collapsed text. */
  function Sanitized(input: string, maxLen: int): string {
    Trim(Cut(Collapse(LowerAll(input)), maxLen))
  }

  lemma {:induction false} CollapsePrefix(s: string, k: nat)
    requires k <= |s|
    ensures Collapse(s[..k]) <= Collapse(s)
    decreases |s| - k
  {
    if k == |s| {
      assert s[..k] == s;
    } else {
      CollapsePrefix(s, k + 1);
      assert s[..k + 1][..k] == s[..k];
    }
  }

  /** toLowerRFC1123: the loop with its early exit. */
  method ToLowerRfc1123(input: string, maxLen: int) returns (name: string)
    ensures name == Sanitized(input, maxLen)
  {
    hide Keep;
    var lower, result := LowerAll(input), "";
    for k := 0 to |lower|
      invariant result == Collapse(lower[..k])
      invariant maxLen > 0 ==> |result| < maxLen
    {
      var c := lower[k];
      assert lower[..k + 1][..k] == lower[..k];
      if Keep(c) {
        result := result + [c];
      } else {
        if |result| > 0 && result[|result| - 1] == '-' {
          continue; // One dash per run
        }
        result := result + ['-'];
      }
      if maxLen > 0 && |result| == maxLen {
        CollapsePrefix(lower, k + 1);
        assert Cut(Collapse(lower), maxLen) == result;
        return Trim(result); // As long as it may get
      }
    }
    assert lower[..|lower|] == lower;
    return Trim(result);
  }

  // What the names look like

  predicate NameChar(c: char) { (AsciiAlnum(c) || Foreign(c)) && Lower(c) == c }

  /** Kept characters and single dashes only. */
  ghost predicate Dashed(s: string) {
    && (forall i | 0 <= i < |s| :: s[i] == '-' || NameChar(s[i]))
    && (forall i | 0 < i < |s| :: s[i - 1] != '-' || s[i] != '-')
  }

  /** Dashed, and no dash at either end. */
  ghost predicate Tidy(s: string) {
    Dashed(s) && (s != [] ==> s[0] != '-' && s[|s| - 1] != '-')
  }

  /** Capital letters of ASCII go to their small ones, everything else of ASCII stays. */
  lemma LowerAlphabet(c: char)
    requires c as int < 0x80
    ensures var small, capital := "abcdefghijklmnopqrstuvwxyz", "ABCDEFGHIJKLMNOPQRSTUVWXYZ";
            && (forall i | 0 <= i < 26 && c == capital[i] :: Lower(c) == small[i])
            && ((forall i | 0 <= i < 26 :: c != capital[i]) ==> Lower(c) == c)
  {
    var small, capital := "abcdefghijklmnopqrstuvwxyz", "ABCDEFGHIJKLMNOPQRSTUVWXYZ";
    assert forall i | 0 <= i < 26 :: capital[i] as int == 'A' as int + i && small[i] as int == 'a' as int + i;
    if 'A' <= c <= 'Z' {
      assert c == capital[c as int - 'A' as int];
    }
  }

  lemma LowerIsFixed(c: char)
    requires Keep(Lower(c))
    ensures NameChar(Lower(c))
  {
  }

  lemma {:induction false} CollapseIsDashed(s: string)
    requires forall i | 0 <= i < |s| :: Keep(s[i]) ==> NameChar(s[i])
    ensures Dashed(Collapse(s))
    decreases |s|
  {
    if s != [] {
      CollapseIsDashed(s[..|s| - 1]);
      hide NameChar, Keep;
    }
  }

  lemma SliceIsDashed(s: string, i: nat, j: nat)
    requires Dashed(s) && i <= j <= |s|
    ensures Dashed(s[i..j])
  {
    hide NameChar;
    assert forall k | 0 <= k < j - i :: s[i..j][k] == s[i + k];
  }

  lemma TrimIsTidy(s: string)
    requires Dashed(s)
    ensures Tidy(Trim(s)) && |Trim(s)| <= |s|
  {
    hide Dashed;
    var l := TrimLeft(s);
    SliceIsDashed(s, |s| - |l|, |s|);
    assert s[|s| - |l|..|s|] == l;
    var r := TrimRight(l);
    SliceIsDashed(l, 0, |r|);
    assert l[0..|r|] == r;
    assert r != [] ==> r[0] == l[0];
  }

  /** No leading, trailing or doubled dash, only lower-case characters, and never longer than a positive bound. */
  lemma SanitizedIsTidy(input: string, maxLen: int)
    ensures Tidy(Sanitized(input, maxLen))
    ensures maxLen > 0 ==> |Sanitized(input, maxLen)| <= maxLen
  {
    var lower := LowerAll(input);
    forall i | 0 <= i < |lower| && Keep(lower[i]) ensures NameChar(lower[i]) {
      LowerIsFixed(input[i]);
    }
    CollapseIsDashed(lower);
    hide NameChar, Collapse, Trim;
    var cut := Cut(Collapse(lower), maxLen);
    assert Dashed(cut);
    TrimIsTidy(cut);
  }

  lemma {:induction false} CollapseTidy(s: string)
    requires Dashed(s)
    ensures Collapse(s) == s
    decreases |s|
  {
    if s != [] {
      var init := s[..|s| - 1];
      CollapseTidy(init);
      assert init + [s[|s| - 1]] == s;
      if |s| > 1 {
        assert s[|s| - 2] == init[|init| - 1];
      }
    }
  }

  lemma TrimTidy(s: string)
    requires Tidy(s)
    ensures Trim(s) == s
  {
    hide Dashed;
    assert TrimLeft(s) == s;
  }

  lemma LowerTidy(s: string)
    requires Dashed(s)
    ensures LowerAll(s) == s
  {
    assert forall i | 0 <= i < |s| :: Lower(s[i]) == s[i];
  }

  lemma TidyIsFixed(s: string, maxLen: int)
    requires Tidy(s) && (maxLen > 0 ==> |s| <= maxLen)
    ensures Sanitized(s, maxLen) == s
  {
    hide Collapse, Trim;
    LowerTidy(s);
    hide NameChar, Dashed, LowerAll;
    CollapseTidy(s);
    TrimTidy(s);
  }

  /** Sanitising a sanitised name changes nothing, whatever the input. */
  lemma SanitizedIsIdempotent(input: string, maxLen: int)
    ensures Sanitized(Sanitized(input, maxLen), maxLen) == Sanitized(input, maxLen)
  {
    hide Sanitized, Tidy;
    SanitizedIsTidy(input, maxLen);
    TidyIsFixed(Sanitized(input, maxLen), maxLen);
  }

  lemma {:induction false} CollapseForeign(s: string)
    requires forall i | 0 <= i < |s| :: Keep(s[i]) ==> NameChar(s[i])
    ensures (exists i :: 0 <= i < |s| && Foreign(s[i]))
      <==> (exists i :: 0 <= i < |Collapse(s)| && Foreign(Collapse(s)[i]))
    decreases |s|
  {
    if s != [] {
      var init, c := s[..|s| - 1], s[|s| - 1];
      CollapseForeign(init);
      var before, after := Collapse(init), Collapse(s);
      assert forall i | 0 <= i < |init| :: init[i] == s[i];
      assert forall i | 0 <= i < |before| :: before[i] == after[i];
      if Foreign(c) {
        assert after[|after| - 1] == c;
        assert s[|s| - 1] == c;
      }
    }
  }

  lemma TrimKeeps(s: string, i: nat)
    requires i < |s| && s[i] != '-'
    ensures exists j :: 0 <= j < |Trim(s)| && Trim(s)[j] == s[i]
  {
    var l := TrimLeft(s);
    var k := i - (|s| - |l|);
    assert l[k] == s[i];
    assert Trim(s)[k] == l[k];
  }

  lemma TrimFrom(s: string, j: nat)
    requires j < |Trim(s)|
    ensures exists i :: 0 <= i < |s| && s[i] == Trim(s)[j]
  {
    var l := TrimLeft(s);
    assert Trim(s)[j] == l[j] == s[|s| - |l| + j];
  }

  /** No non-ASCII Latin-1 letter. */
  ghost predicate NoForeign(s: string) { forall i | 0 <= i < |s| :: !Foreign(s[i]) }

  lemma TrimForeign(s: string)
    ensures NoForeign(Trim(s)) <==> NoForeign(s)
  {
    assert !Foreign('-');
    hide Trim, Foreign;
    if i: nat :| i < |s| && Foreign(s[i]) {
      TrimKeeps(s, i);
    } else {
      forall j: nat | j < |Trim(s)| ensures !Foreign(Trim(s)[j]) {
        TrimFrom(s, j);
      }
    }
  }

  lemma LowerKept(input: string)
    ensures forall i | 0 <= i < |input| && Keep(LowerAll(input)[i]) :: NameChar(LowerAll(input)[i])
  {
    forall i | 0 <= i < |input| && Keep(LowerAll(input)[i]) ensures NameChar(LowerAll(input)[i]) {
      LowerIsFixed(input[i]);
    }
  }

  // What is kept

  /** Everything but dashes. */
  function Letters(s: string): string {
    if s == [] then [] else Letters(s[..|s| - 1]) + if s[|s| - 1] == '-' then [] else [s[|s| - 1]]
  }

  /** The characters that are kept: lower-case letters and digits of ASCII, and Latin-1 letters. */
  function KeptOf(s: string): string {
    if s == [] then []
    else
      var c := s[|s| - 1];
      KeptOf(s[..|s| - 1])
      + if 'a' <= c <= 'z' || 'A' <= c <= 'Z' || '0' <= c <= '9' || Foreign(c) then [c] else []
  }

  lemma {:induction false} LettersOfCollapse(s: string)
    ensures Letters(Collapse(s)) == KeptOf(s)
    decreases |s|
  {
    if s != [] {
      var init, c := s[..|s| - 1], s[|s| - 1];
      LettersOfCollapse(init);
      DashIsNotKept();
      assert Letters(Collapse(init) + [c]) == Letters(Collapse(init)) + if c == '-' then [] else [c] by {
        assert (Collapse(init) + [c])[..|Collapse(init)|] == Collapse(init);
      }
      assert Letters(Collapse(init) + ['-']) == Letters(Collapse(init)) by {
        assert (Collapse(init) + ['-'])[..|Collapse(init)|] == Collapse(init);
      }
      hide Letters, Foreign;
    }
  }

  lemma {:induction false} LettersOfConcat(a: string, b: string)
    ensures Letters(a + b) == Letters(a) + Letters(b)
    decreases |b|
  {
    if b == [] {
      assert a + b == a;
    } else {
      LettersOfConcat(a, b[..|b| - 1]);
      assert (a + b)[..|a + b| - 1] == a + b[..|b| - 1];
    }
  }

  lemma {:induction false} DashesHaveNone(s: string)
    requires forall i | 0 <= i < |s| :: s[i] == '-'
    ensures Letters(s) == []
    decreases |s|
  {
    if s != [] {
      DashesHaveNone(s[..|s| - 1]);
    }
  }

  lemma LettersOfTrimLeft(s: string)
    ensures Letters(TrimLeft(s)) == Letters(s)
  {
    var l := TrimLeft(s);
    var before := s[..|s| - |l|];
    hide Letters, TrimLeft;
    assert s == before + l;
    DashesHaveNone(before);
    LettersOfConcat(before, l);
  }

  lemma LettersOfTrimRight(s: string)
    ensures Letters(TrimRight(s)) == Letters(s)
  {
    hide Letters, TrimRight;
    var r := TrimRight(s);
    var after := s[|r|..];
    assert s == r + after;
    DashesHaveNone(after);
    LettersOfConcat(r, after);
  }

  lemma LettersOfTrim(s: string)
    ensures Letters(Trim(s)) == Letters(s)
  {
    hide Letters, TrimLeft, TrimRight;
    LettersOfTrimLeft(s);
    LettersOfTrimRight(TrimLeft(s));
  }

  /** Without a bound the name spells exactly the kept characters of the lower-cased input, in order, dashes aside. */
  lemma SpellsKept(input: string)
    ensures Letters(Sanitized(input, -1)) == KeptOf(LowerAll(input))
  {
    LettersOfCollapse(LowerAll(input));
    LettersOfTrim(Collapse(LowerAll(input)));
    hide Letters, KeptOf, Collapse, Trim, LowerAll;
  }

  // How long the names are

  function KeptCount(s: string): nat {
    if s == [] then 0 else KeptCount(s[..|s| - 1]) + if Keep(s[|s| - 1]) then 1 else 0
  }

  /** Runs of other characters with a kept one on both sides. */
  function Gaps(s: string): nat {
    if |s| < 2 then 0
    else
      var init, c := s[..|s| - 1], s[|s| - 1];
      Gaps(init) + if Keep(c) && !Keep(init[|init| - 1]) && KeptCount(init) > 0 then 1 else 0
  }

  function DashAt(s: string, i: int): nat { if 0 <= i < |s| && s[i] == '-' then 1 else 0 }

  /** What Collapse has ready after s: its length up to dashes at either end. */
  ghost predicate Measured(s: string) {
    var c := Collapse(s);
    && (KeptCount(s) == 0 ==> Gaps(s) == 0 && (c == [] || c == "-"))
    && (KeptCount(s) > 0 ==> |c| > 0 && |c| == KeptCount(s) + Gaps(s) + DashAt(c, 0) + DashAt(c, |c| - 1))
    && (s == [] <==> c == [])
    && (s != [] ==> (c[|c| - 1] == '-' <==> !Keep(s[|s| - 1])))
  }

  lemma DashIsNotKept()
    ensures !Keep('-')
  {
  }

  lemma MeasureStep(s: string)
    requires s != [] && Measured(s[..|s| - 1])
    ensures Measured(s)
  {
    DashIsNotKept();
    hide Keep;
    var before := Collapse(s[..|s| - 1]);
    assert before <= Collapse(s);
    assert before != [] ==> Collapse(s)[0] == before[0];
  }

  lemma {:induction false} Measure(s: string)
    ensures Measured(s)
    decreases |s|
  {
    if s != [] {
      Measure(s[..|s| - 1]);
      hide Measured;
      MeasureStep(s);
    }
  }

  /** Trimming takes one dash off either end. */
  lemma TrimDashed(c: string)
    requires Dashed(c) && c != [] && c != "-"
    ensures |c| == |Trim(c)| + DashAt(c, 0) + DashAt(c, |c| - 1)
  {
    hide NameChar;
    var l := if c[0] == '-' then c[1..] else c;
    assert TrimLeft(c) == l;
    assert l != [] && l[|l| - 1] == c[|c| - 1];
    if c[|c| - 1] == '-' {
      assert l[|l| - 2] == c[|c| - 2];
    }
  }

  /** Without a bound the result has one character for each one kept and one for each gap between them. */
  lemma SanitizedLength(input: string)
    ensures |Sanitized(input, -1)| == KeptCount(LowerAll(input)) + Gaps(LowerAll(input))
    ensures KeptCount(LowerAll(input)) == 0 ==> Gaps(LowerAll(input)) == 0
  {
    var lower := LowerAll(input);
    Measure(lower);
    LowerKept(input);
    CollapseIsDashed(lower);
    hide LowerAll, KeptCount, Gaps, Dashed, Keep, NameChar, Collapse;
    if Collapse(lower) != [] && Collapse(lower) != "-" {
      TrimDashed(Collapse(lower));
    }
  }

  /** A label in the sense of section 2.1 of RFC 1123. */
  ghost predicate IsLabel(s: string) {
    && 1 <= |s| <= 63
    && (forall i | 0 <= i < |s| :: AsciiAlnum(s[i]) || s[i] == '-')
    && s[0] != '-' && s[|s| - 1] != '-'
  }

  lemma TidyIsLabelIff(s: string)
    requires Tidy(s)
    ensures IsLabel(s) <==> NoForeign(s) && 1 <= |s| <= MAX_NAME
  {
  }

  /**
   The comment promises RFC 1123 names. Without a bound the result is one if and only if the lower-cased input has no
   non-ASCII Latin-1 letter, has at least one character that is kept, and these with the gaps between them are at most
   63.
   */
  lemma CompliantIff(input: string)
    ensures var lower := LowerAll(input);
            IsLabel(Sanitized(input, -1))
            <==> NoForeign(lower) && 1 <= KeptCount(lower) && KeptCount(lower) + Gaps(lower) <= 63
  {
    var lower := LowerAll(input);
    SanitizedIsTidy(input, -1);
    LowerKept(input);
    CollapseForeign(lower);
    TrimForeign(Collapse(lower));
    SanitizedLength(input);
    hide Collapse, Trim, Tidy, KeptCount, Gaps, LowerAll, Keep, NameChar, Foreign, IsLabel;
    TidyIsLabelIff(Sanitized(input, -1));
  }

  // Pod names

  /** len(s) in Go counts bytes: two for a non-ASCII Latin-1 character in UTF-8. */
  function Bytes(s: string): nat {
    if s == [] then 0 else Bytes(s[..|s| - 1]) + if s[|s| - 1] as int < 0x80 then 1 else 2
  }

  /** podName. */
  function PodName(identifier: string, name: string, index: nat): string {
    var prefix, suffix := Sanitized(identifier, -1) + "-", "-" + Dec(index);
    prefix + Sanitized(name, MAX_NAME - Bytes(prefix) - Bytes(suffix)) + suffix
  }

  ghost predicate DashFree(s: string) { forall i | 0 <= i < |s| :: s[i] != '-' }

  /** Text before the first and after the last dash is determined by the whole. */
  lemma EndsDetermined(a: string, m: string, z: string, a': string, m': string, z': string)
    requires DashFree(a) && DashFree(z) && DashFree(a') && DashFree(z')
    requires a + "-" + m + "-" + z == a' + "-" + m' + "-" + z'
    ensures a == a' && z == z'
  {
    FirstDash(a, m + "-" + z, a', m' + "-" + z');
    assert a + "-" + m + "-" + z == a + "-" + (m + "-" + z);
    assert a' + "-" + m' + "-" + z' == a' + "-" + (m' + "-" + z');
    LastDash(a + "-" + m, z, a' + "-" + m', z');
  }

  lemma FirstDash(a: string, rest: string, a': string, rest': string)
    requires DashFree(a) && DashFree(a')
    ensures a + "-" + rest == a' + "-" + rest' ==> a == a'
  {
    var s, s' := a + "-" + rest, a' + "-" + rest';
    if s == s' {
      IndexOfUnique(s, '-', |a|);
      IndexOfUnique(s', '-', |a'|);
      assert s[..|a|] == a && s'[..|a'|] == a';
    }
  }

  lemma LastDash(init: string, z: string, init': string, z': string)
    requires DashFree(z) && DashFree(z') && init + "-" + z == init' + "-" + z'
    ensures z == z'
  {
    var s := init + "-" + z;
    assert s[|init|] == '-' && s[|init'|] == '-';
    assert forall i | |init| < i < |s| :: s[i] == z[i - |init| - 1];
    assert forall i | |init'| < i < |s| :: s[i] == z'[i - |init'| - 1];
    assert |init| == |init'|;
    assert s[|init| + 1..] == z && s[|init'| + 1..] == z';
  }

  lemma DecIsTidy(n: nat)
    ensures DashFree(Dec(n)) && Sanitized(Dec(n), -1) == Dec(n)
  {
    var d := Dec(n);
    assert forall i | 0 <= i < |d| :: NameChar(d[i]);
    TidyIsFixed(d, -1);
  }

  /** Whatever the jobs are called, equal Pod names come from the same job id and the same index. */
  lemma PodNameInjective(id: nat, name: string, index: nat, id': nat, name': string, index': nat)
    ensures PodName(Dec(id), name, index) == PodName(Dec(id'), name', index') ==> id == id' && index == index'
  {
    DecIsTidy(id);
    DecIsTidy(id');
    DecIsTidy(index);
    DecIsTidy(index');
    hide Sanitized, Dec, Bytes;
    var m := Sanitized(name, MAX_NAME - Bytes(Dec(id) + "-") - Bytes("-" + Dec(index)));
    var m' := Sanitized(name', MAX_NAME - Bytes(Dec(id') + "-") - Bytes("-" + Dec(index')));
    assert PodName(Dec(id), name, index) == Dec(id) + "-" + m + "-" + Dec(index);
    assert PodName(Dec(id'), name', index') == Dec(id') + "-" + m' + "-" + Dec(index');
    hide PodName;
    if PodName(Dec(id), name, index) == PodName(Dec(id'), name', index') {
      EndsDetermined(Dec(id), m, Dec(index), Dec(id'), m', Dec(index'));
      DecInjective(id, id');
      DecInjective(index, index');
    }
  }

  lemma {:induction false} AsciiBytes(s: string)
    requires forall i | 0 <= i < |s| :: s[i] as int < 0x80
    ensures Bytes(s) == |s|
    decreases |s|
  {
    if s != [] {
      AsciiBytes(s[..|s| - 1]);
    }
  }

  lemma FixedParts(id: nat, index: nat)
    ensures Sanitized(Dec(id), -1) == Dec(id)
    ensures Bytes(Dec(id) + "-") == |Dec(id)| + 1 && Bytes("-" + Dec(index)) == |Dec(index)| + 1
  {
    hide Sanitized, Bytes, Dec;
    DecIsTidy(id);
    AsciiBytes(Dec(id) + "-");
    AsciiBytes("-" + Dec(index));
  }

  lemma {:induction false} LongNames(n: nat)
    ensures Sanitized(seq(n, _ => 'a'), -1) == seq(n, _ => 'a')
  {
    var s := seq(n, _ => 'a');
    assert NameChar('a');
    TidyIsFixed(s, -1);
  }

  lemma NonPositiveBound(name: string, maxLen: int)
    requires maxLen <= 0
    ensures Sanitized(name, maxLen) == Sanitized(name, -1)
  {
  }

  /** The 63 character limit is met for every job name exactly while the id and index leave room for a character. */
  lemma FitsIffRoom(id: nat, index: nat)
    ensures (forall name :: |PodName(Dec(id), name, index)| <= 63) <==> |Dec(id)| + |Dec(index)| + 2 < 63
  {
    FixedParts(id, index);
    hide Bytes, Dec;
    var room := MAX_NAME - (|Dec(id)| + 1) - (|Dec(index)| + 1);
    if room > 0 {
      forall name ensures |PodName(Dec(id), name, index)| <= MAX_NAME {
        SanitizedIsTidy(name, room);
        hide Sanitized, Tidy;
      }
    } else {
      var long := seq(MAX_NAME, _ => 'a');
      LongNames(MAX_NAME);
      NonPositiveBound(long, room);
      hide Sanitized;
      assert |PodName(Dec(id), long, index)| > MAX_NAME;
    }
  }

  /** Every non-ASCII Latin-1 letter comes after `room` characters are already there. */
  ghost predicate ForeignTooLate(s: string, room: nat) {
    forall k | 0 <= k < |s| && Foreign(s[k]) :: |Collapse(s[..k])| >= room
  }

  lemma ForeignStays(s: string, k: nat)
    requires k < |s| && Foreign(s[k])
    ensures |Collapse(s[..k])| < |Collapse(s)| && Collapse(s)[|Collapse(s[..k])|] == s[k]
  {
    CollapsePrefix(s, k + 1);
    assert s[..k + 1][..k] == s[..k];
  }

  lemma {:induction false} ForeignFrom(s: string, j: nat)
    requires j < |Collapse(s)| && Foreign(Collapse(s)[j])
    ensures exists k :: 0 <= k < |s| && Foreign(s[k]) && |Collapse(s[..k])| == j
    decreases |s|
  {
    var init := s[..|s| - 1];
    assert !Foreign('-');
    hide Foreign, Keep;
    if j < |Collapse(init)| {
      ForeignFrom(init, j);
      var k :| 0 <= k < |init| && Foreign(init[k]) && |Collapse(init[..k])| == j;
      assert init[..k] == s[..k] && init[k] == s[k];
    } else {
      assert s[..|s| - 1] == init && Foreign(s[|s| - 1]);
    }
  }

  lemma CutForeign(name: string, room: nat)
    requires room > 0
    ensures NoForeign(Sanitized(name, room)) <==> ForeignTooLate(LowerAll(name), room)
  {
    var lower := LowerAll(name);
    var all := Collapse(lower);
    TrimForeign(Cut(all, room));
    hide Collapse, Trim, Foreign, LowerAll;
    if !ForeignTooLate(lower, room) {
      var k: nat :| k < |lower| && Foreign(lower[k]) && |Collapse(lower[..k])| < room;
      ForeignStays(lower, k);
      assert Cut(all, room)[|Collapse(lower[..k])|] == lower[k];
    }
    if !NoForeign(Cut(all, room)) {
      var j: nat :| j < |Cut(all, room)| && Foreign(Cut(all, room)[j]);
      ForeignFrom(lower, j);
    }
  }

  /**
   Exactly when a Pod name is a valid label: with room left for the job name, if no non-ASCII Latin-1 letter of it comes
   early enough to be kept; without, only if the id and the index take up the whole name and the job name yields
   nothing.
   */
  lemma PodNameIsLabelIff(id: nat, name: string, index: nat)
    ensures var room := MAX_NAME - |Dec(id)| - |Dec(index)| - 2;
            IsLabel(PodName(Dec(id), name, index))
            <==> if room > 0 then ForeignTooLate(LowerAll(name), room)
                 else room == 0 && KeptCount(LowerAll(name)) == 0
  {
    var room := MAX_NAME - |Dec(id)| - |Dec(index)| - 2;
    PodNameParts(id, name, index);
    SanitizedIsTidy(name, room);
    SanitizedLength(name);
    hide PodName, Sanitized, Bytes, Tidy, NoForeign, Dec, IsLabel, ForeignTooLate, KeptCount, Gaps, LowerAll;
    Glued(Dec(id), Sanitized(name, room), Dec(index));
    if room > 0 {
      CutForeign(name, room);
    } else {
      NonPositiveBound(name, room);
      NothingIsClean();
    }
  }

  lemma NothingIsClean()
    ensures NoForeign([])
  {
  }

  /** In particular for every ASCII job name, if the id and index leave room for it. */
  lemma PodNameIsLabel(id: nat, name: string, index: nat)
    requires |Dec(id)| + |Dec(index)| + 2 < MAX_NAME && forall i | 0 <= i < |name| :: name[i] as int < 0x80
    ensures IsLabel(PodName(Dec(id), name, index))
  {
    hide PodName, IsLabel, Dec;
    PodNameIsLabelIff(id, name, index);
    AsciiIsClean(name, MAX_NAME - |Dec(id)| - |Dec(index)| - 2);
  }

  lemma AsciiIsClean(name: string, room: nat)
    requires forall i | 0 <= i < |name| :: name[i] as int < 0x80
    ensures ForeignTooLate(LowerAll(name), room)
  {
    hide Collapse;
  }

  lemma PodNameParts(id: nat, name: string, index: nat)
    ensures PodName(Dec(id), name, index)
         == Dec(id) + "-" + Sanitized(name, MAX_NAME - |Dec(id)| - |Dec(index)| - 2) + ("-" + Dec(index))
  {
    hide Sanitized, Bytes, Dec;
    FixedParts(id, index);
  }

  lemma Glued(a: string, m: string, z: string)
    requires a != [] && z != [] && Tidy(m)
    requires forall i | 0 <= i < |a| :: IsDigit(a[i])
    requires forall i | 0 <= i < |z| :: IsDigit(z[i])
    ensures IsLabel(a + "-" + m + ("-" + z)) <==> NoForeign(m) && |a| + |m| + |z| + 2 <= MAX_NAME
  {
    var s := a + "-" + m + ("-" + z);
    assert s[0] == a[0] && s[|s| - 1] == z[|z| - 1];
    assert forall i | 0 <= i < |m| :: s[|a| + 1 + i] == m[i];
    forall i | 0 <= i < |s| && NoForeign(m) ensures AsciiAlnum(s[i]) || s[i] == '-' {
      if i < |a| {
        assert s[i] == a[i];
      } else if |a| < i < |a| + 1 + |m| {
        assert s[i] == m[i - |a| - 1];
      } else if i > |a| + |m| + 1 {
        assert s[i] == z[i - |a| - |m| - 2];
      }
    }
  }

  // Pods

  /** A job as the agent reports it; identifiers are decimal job ids. */
  datatype Workload = Workload(id: nat, name: string, extra: LabelMap, phase: PodStatus.Phase, nodes: seq<string>)

  /** The Pod built for one node of a job; no node means a scheduling gate. */
  datatype UntrackedPod = UntrackedPod(name: string, labels: LabelMap, node: Option<string>, phase: PodStatus.Phase) {
    predicate Gated() { node.None? }
  }

  function UntrackedLabels(w: Workload): LabelMap {
    map[LABEL_IDENTIFIER := Dec(w.id), LABEL_KIND := KIND_UNTRACKED] + Scoped(w.extra, SCOPE_EXTRA)
  }

  function ToPod(w: Workload, node: Option<string>, index: nat): UntrackedPod {
    UntrackedPod(PodName(Dec(w.id), w.name, index), UntrackedLabels(w), node, w.phase)
  }

  /** convertToPods: one Pod per allocated node, or a single gated one. */
  function ToPods(w: Workload): (pods: seq<UntrackedPod>)
    ensures |pods| == if w.nodes == [] then 1 else |w.nodes|
  {
    if w.nodes == [] then [ToPod(w, None, 0)]
    else seq(|w.nodes|, i requires 0 <= i < |w.nodes| => ToPod(w, Some(w.nodes[i]), i))
  }

  method ConvertToPods(w: Workload) returns (pods: seq<UntrackedPod>)
    ensures pods == ToPods(w)
  {
    hide ToPod;
    if |w.nodes| == 0 {
      return [ToPod(w, None, 0)];
    }
    pods := [];
    for i := 0 to |w.nodes|
      invariant |pods| == i && forall k | 0 <= k < i :: pods[k] == ToPod(w, Some(w.nodes[k]), k)
    {
      pods := pods + [ToPod(w, Some(w.nodes[i]), i)];
    }
  }

  /**
   The Pods of a job: without nodes a single gated one, otherwise one per node, the i-th on the i-th node; all with the
   job's phase, each name starting with the job id and ending with the index.
   */
  lemma PodsFollowNodes(w: Workload, i: nat)
    requires i < |ToPods(w)|
    ensures var pod := ToPods(w)[i];
            && (if w.nodes == [] then |ToPods(w)| == 1 && pod.Gated()
                else |ToPods(w)| == |w.nodes| && pod.node == Some(w.nodes[i]))
            && pod.phase == w.phase
            && Dec(w.id) + "-" <= pod.name && |pod.name| > |Dec(i)|
            && pod.name[|pod.name| - |Dec(i)| - 1..] == "-" + Dec(i)
  {
    PodNameParts(w.id, w.name, i);
    hide Sanitized, Bytes, Dec, PodName, UntrackedLabels;
    var name, tail := ToPods(w)[i].name, "-" + Dec(i);
    var head := Dec(w.id) + "-" + Sanitized(w.name, MAX_NAME - |Dec(w.id)| - |Dec(i)| - 2);
    assert name == head + tail;
    assert Dec(w.id) + "-" <= head;
  }

  /** Pods of one job are told apart by their index, so a job never collides with itself. */
  lemma PodsOfJobDistinct(w: Workload, i: nat, j: nat)
    requires i < |ToPods(w)| && j < |ToPods(w)|
    ensures ToPods(w)[i].name == ToPods(w)[j].name <==> i == j
  {
    hide PodName;
    if w.nodes != [] {
      PodNameInjective(w.id, w.name, i, w.id, w.name, j);
    }
  }

  /** Nor do two jobs with different ids. */
  lemma PodsOfJobsDistinct(w: Workload, v: Workload, i: nat, j: nat)
    requires w.id != v.id && i < |ToPods(w)| && j < |ToPods(v)|
    ensures ToPods(w)[i].name != ToPods(v)[j].name
  {
    hide PodName;
    PodNameInjective(w.id, w.name, i, v.id, v.name, j);
  }

  /** What the provider reads back from an untracked Pod's labels is what the agent reported for the job. */
  lemma LabelsCarryMeta(w: Workload, i: nat)
    requires i < |ToPods(w)|
    ensures var pod := ToPods(w)[i];
            && Meta(pod.name, pod.labels) == WorkloadMeta(pod.name, Dec(w.id), w.extra)
            && LABEL_KIND in pod.labels && pod.labels[LABEL_KIND] == KIND_UNTRACKED
            && (pod.Gated() <==> w.nodes == [])
  {
    hide Scoped, Unscoped, PodName;
    ManagedNames();
    ScopedHas(w.extra, SCOPE_EXTRA, LABEL_KIND);
    ScopedHas(w.extra, SCOPE_EXTRA, LABEL_IDENTIFIER);
    var labels := UntrackedLabels(w);
    forall n
      ensures n in Unscoped(labels, SCOPE_EXTRA) <==> n in w.extra
      ensures n in w.extra ==> Unscoped(labels, SCOPE_EXTRA)[n] == w.extra[n]
    {
      UnscopedHas(labels, SCOPE_EXTRA, n);
      ScopedHas(w.extra, SCOPE_EXTRA, Scope(SCOPE_EXTRA, n));
    }
  }
}
