/** The string helpers of Go's standard library that the repository leans on. */
module Text {

  /** Index of the first `c` in `s`, or `|s|` if there is none. */
  function IndexOf(s: string, c: char): (i: nat)
    ensures i <= |s|
    ensures forall j | 0 <= j < i :: s[j] != c
    ensures i < |s| ==> s[i] == c
  {
    if s == [] then 0
    else if s[0] == c then 0
    else 1 + IndexOf(s[1..], c)
  }

  lemma IndexOfPresent(s: string, c: char)
    requires c in s
    ensures IndexOf(s, c) < |s|
  {
    if s[0] != c {
      IndexOfPresent(s[1..], c);
    }
  }

  lemma IndexOfUnique(s: string, c: char, i: nat)
    requires i <= |s|
    requires forall j | 0 <= j < i :: s[j] != c
    requires i < |s| ==> s[i] == c
    ensures IndexOf(s, c) == i
  {
    var k := IndexOf(s, c);
  }

  /** strings.SplitN(s, c, n) with a one-character separator and n >= 1. */
  function SplitN(s: string, c: char, n: nat): (parts: seq<string>)
    requires n >= 1
    ensures 1 <= |parts| <= n
    decreases n
  {
    var i := IndexOf(s, c);
    if n == 1 || i == |s| then [s] else [s[..i]] + SplitN(s[i + 1..], c, n - 1)
  }

  /** strings.Split(s, c): no bound on the number of parts. */
  function Split(s: string, c: char): seq<string> {
    SplitN(s, c, |s| + 1)
  }

  /** strings.Join(parts, c). */
  function Join(parts: seq<string>, c: char): string {
    if parts == [] then []
    else if |parts| == 1 then parts[0]
    else parts[0] + [c] + Join(parts[1..], c)
  }

  /** Splitting, whatever the bound, loses nothing: joining the parts gives the input back. */
  lemma {:induction false} JoinSplitN(s: string, c: char, n: nat)
    requires n >= 1
    ensures Join(SplitN(s, c, n), c) == s
    decreases n
  {
    hide SplitN, Join, IndexOf;
    if n > 1 && IndexOf(s, c) < |s| {
      JoinSplitN(s[IndexOf(s, c) + 1..], c, n - 1);
      JoinSplitNStep(s, c, n);
    } else {
      JoinSplitNone(s, c, n);
    }
  }

  lemma JoinSplitNone(s: string, c: char, n: nat)
    requires n == 1 || (n > 1 && IndexOf(s, c) == |s|)
    ensures Join(SplitN(s, c, n), c) == s
  {
    assert SplitN(s, c, n) == [s];
  }

  lemma JoinSplitNStep(s: string, c: char, n: nat)
    requires n > 1 && IndexOf(s, c) < |s|
    requires Join(SplitN(s[IndexOf(s, c) + 1..], c, n - 1), c) == s[IndexOf(s, c) + 1..]
    ensures Join(SplitN(s, c, n), c) == s
  {
    var i := IndexOf(s, c);
    SplitNStep(s, c, n);
    hide SplitN, Join, IndexOf;
    JoinCons(s[..i], SplitN(s[i + 1..], c, n - 1), c);
    CutAt(s, i, c);
  }

  lemma CutAt(s: string, i: nat, c: char)
    requires i < |s| && s[i] == c
    ensures s[..i] + [c] + s[i + 1..] == s
  {
  }

  lemma SplitNStep(s: string, c: char, n: nat)
    requires n > 1 && IndexOf(s, c) < |s|
    ensures SplitN(s, c, n) == [s[..IndexOf(s, c)]] + SplitN(s[IndexOf(s, c) + 1..], c, n - 1)
  {
  }

  lemma JoinCons(head: string, rest: seq<string>, c: char)
    requires rest != []
    ensures Join([head] + rest, c) == head + [c] + Join(rest, c)
  {
    assert ([head] + rest)[1..] == rest;
  }

  /** Splitting with enough room leaves the separator in no part. */
  lemma {:induction false} SplitNParts(s: string, c: char, n: nat)
    requires n > |s|
    ensures forall j | 0 <= j < |SplitN(s, c, n)| :: c !in SplitN(s, c, n)[j]
    decreases n
  {
    var i := IndexOf(s, c);
    if i < |s| {
      SplitNParts(s[i + 1..], c, n - 1);
      SplitNStep(s, c, n);
      hide SplitN;
    }
  }

  lemma SplitParts(s: string, c: char)
    ensures forall j | 0 <= j < |Split(s, c)| :: c !in Split(s, c)[j]
  {
    hide SplitN;
    SplitNParts(s, c, |s| + 1);
  }

  function Digit(d: int): (c: char)
    ensures '0' <= c <= '9'
    ensures 0 <= d < 10 ==> (c as int) - ('0' as int) == d
  {
    ('0' as int + d % 10) as char
  }

  predicate IsDigit(c: char) { '0' <= c <= '9' }

  function DigitValue(c: char): int { c as int - '0' as int }

  /** strconv.Itoa on a natural number. */
  function Dec(n: nat): (s: string)
    ensures s != [] && forall i | 0 <= i < |s| :: IsDigit(s[i])
    ensures |s| == 1 <==> n < 10
  {
    if n < 10 then [Digit(n)] else Dec(n / 10) + [Digit(n % 10)]
  }

  /** The number a string of decimal digits stands for. */
  function Value(s: string): int {
    if s == [] then 0 else 10 * Value(s[..|s| - 1]) + DigitValue(s[|s| - 1])
  }

  /** It is the decimal notation: it stands for the number and has no leading zero. */
  lemma {:induction false} DecIsDecimal(n: nat)
    ensures Value(Dec(n)) == n && (Dec(n)[0] == '0' <==> n == 0)
    decreases n
  {
    if n >= 10 {
      DecIsDecimal(n / 10);
      assert Dec(n)[..|Dec(n)| - 1] == Dec(n / 10);
      assert Dec(n)[0] == Dec(n / 10)[0];
    } else {
      assert Dec(n)[..0] == [];
    }
  }

  lemma {:induction false} DecInjective(a: nat, b: nat)
    requires Dec(a) == Dec(b)
    ensures a == b
    decreases a
  {
    var s, t := Dec(a), Dec(b);
    assert DigitValue(s[|s| - 1]) == a % 10;
    assert DigitValue(t[|t| - 1]) == b % 10;
    if a >= 10 && b >= 10 {
      assert Dec(a / 10) == s[..|s| - 1] == t[..|t| - 1] == Dec(b / 10);
      DecInjective(a / 10, b / 10);
    }
  }
}
