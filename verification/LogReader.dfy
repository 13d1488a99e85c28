/**
 logReader (provider/handler.go): turns the stream of log chunks back into bytes for a caller that
 reads with buffers of its own choosing; what does not fit is kept in a cache.
 */
module LogReader {
  import opened Wrappers
  import opened Rfc3339
  import opened LogLine

  const NANOS: int := 1000000000

  /** `sinceTime` and the clock are in nanoseconds from the start of year 0. */
  datatype Opts = Opts(tail: int, sinceSeconds: int, sinceTime: int, timestamps: bool, limitBytes: int)

  /** A chunk and the clock at the moment Read takes it from the channel. */
  datatype Delivery = Delivery(chunk: ParsedLine, now: int)

  /** What ended the stream, as Recv reported it. */
  datatype End = Eof | Canceled | Broken

  /** `queue` is everything the receiver will still hand over before `end`. */
  datatype View = View(queue: seq<Delivery>, cache: string, count: int, closed: bool)

  datatype Outcome = Returned(n: nat, err: Option<End>) | Panicked

  function Nanos(at: Timestamp): int { NANOS * Moment(at) }

  /** Whether a chunk passes the time filters; tailing a line count overrides them. */
  predicate Passes(opts: Opts, d: Delivery) {
    || opts.tail > 0
    || (&& !(opts.sinceSeconds > 0 && d.now - Nanos(d.chunk.at) > opts.sinceSeconds * NANOS)
        && !(opts.sinceTime > Nanos(d.chunk.at)))
  }

  function Render(opts: Opts, c: ParsedLine): (b: string)
    ensures |b| > 0
  {
    (if opts.timestamps then FormatTime(ToUtc(c.at)) + " " else "") + c.text + "\n"
  }

  /** The bytes a caller should see of `queue`. */
  function RenderAll(opts: Opts, queue: seq<Delivery>): string {
    if queue == [] then []
    else (if Passes(opts, queue[0]) then Render(opts, queue[0].chunk) else []) + RenderAll(opts, queue[1..])
  }

  function FirstPassing(opts: Opts, queue: seq<Delivery>): (i: nat)
    ensures i <= |queue|
    ensures i < |queue| ==> Passes(opts, queue[i])
  {
    if queue == [] then 0
    else if Passes(opts, queue[0]) then 0
    else 1 + FirstPassing(opts, queue[1..])
  }

  function Min(a: nat, b: nat): nat { if a < b then a else b }

  /** Go's copy: overwrite the front of `dst`. */
  function Copied(dst: string, src: string): (r: string)
    ensures |r| == |dst|
  {
    var k := Min(|dst|, |src|);
    src[..k] + dst[k..]
  }

  /** The part of Read before its deferred function: the buffer afterwards, the count and the error. */
  function Body(opts: Opts, end: End, v: View, p: string): (string, View, nat, Option<End>) {
    var n1 := Min(|p|, |v.cache|);
    var p1, v1 := Copied(p, v.cache), v.(cache := v.cache[n1..]);
    if n1 == |p| then (p1, v1, n1, None)
    else
      var i := FirstPassing(opts, v.queue);
      if i == |v.queue| then (p1, v1.(queue := [], cache := []), n1, Some(end))
      else
        var b := Render(opts, v.queue[i].chunk);
        var n2 := Min(|p|, |b|);
        (Copied(p1, b), v1.(queue := v.queue[i + 1..], cache := v1.cache + b[n2..]), n1 + n2, None)
  }

  /**
   The deferred LimitBytes function. Its changes to `n` and `p` are lost; the slice expression may be out of range.
   */
  function Deferred(opts: Opts, v: View, size: nat, n: nat, err: Option<End>): (View, Outcome) {
    var count := v.count + n;
    var delta := count - opts.limitBytes;
    if opts.limitBytes > 0 && delta > 0 then
      if delta > size then (v.(count := count), Panicked)
      else (v.(count := count, closed := true), Returned(n, err))
    else (v.(count := count), Returned(n, err))
  }

  function ReadStep(opts: Opts, end: End, v: View, p: string): (string, View, Outcome) {
    var (p', v', n, err) := Body(opts, end, v, p);
    var (v'', outcome) := Deferred(opts, v', |p|, n, err);
    (p', v'', outcome)
  }

  class Reader {
    const opts: Opts
    const end: End
    var queue: seq<Delivery>
    var cache: string
    var count: int
    var closed: bool

    ghost function V(): View
      reads this
    {
      View(queue, cache, count, closed)
    }

    constructor (opts: Opts, end: End, queue: seq<Delivery>)
      ensures V() == View(queue, [], 0, false) && this.opts == opts && this.end == end
    {
      this.opts, this.end, this.queue := opts, end, queue;
      cache, count, closed := [], 0, false;
    }

    method Read(p: array<char>) returns (outcome: Outcome)
      modifies this, p
      ensures (p[..], V(), outcome) == ReadStep(opts, end, old(V()), old(p[..]))
    {
      hide Passes, FirstPassing, Render, Deferred;
      ghost var v0, p0 := V(), p[..];
      var n := 0;
      if |cache| > 0 {
        n := Copy(p, cache);
        cache := cache[n..];
      }
      assert cache == v0.cache[n..] && p[..] == Copied(p0, v0.cache);
      if n == p.Length {
        outcome := Defer(p.Length, n, None);
        return;
      }
      var i := Receive();
      if i == |queue| {
        queue, cache := [], [];
        outcome := Defer(p.Length, n, Some(end));
        return;
      }
      var b := Render(opts, queue[i].chunk);
      var n2 := Copy(p, b); // At the front of p, whatever the cache has already put there
      queue := queue[i + 1..];
      cache := cache + b[n2..];
      outcome := Defer(p.Length, n + n2, None);
    }

    /** The receiving loop: chunks that do not pass are skipped. */
    method Receive() returns (i: nat)
      ensures i == FirstPassing(opts, queue)
    {
      hide Passes;
      i := 0;
      while i < |queue| && !Passes(opts, queue[i])
        invariant i <= |queue|
        invariant FirstPassing(opts, queue) == i + FirstPassing(opts, queue[i..])
      {
        assert queue[i..][1..] == queue[i + 1..];
        i := i + 1;
      }
    }

    method Defer(size: nat, n: nat, err: Option<End>) returns (outcome: Outcome)
      modifies this`count, this`closed
      ensures (V(), outcome) == Deferred(opts, old(V()), size, n, err)
    {
      count := count + n;
      var delta := count - opts.limitBytes;
      if opts.limitBytes > 0 && delta > 0 {
        if delta > size {
          return Panicked;
        }
        closed := true;
      }
      outcome := Returned(n, err);
    }
  }

  method Copy(p: array<char>, src: string) returns (n: nat)
    modifies p
    ensures n == Min(p.Length, |src|)
    ensures p[..] == Copied(old(p[..]), src)
  {
    n := if p.Length < |src| then p.Length else |src|;
    forall i | 0 <= i < n {
      p[i] := src[i];
    }
  }

  // What a call should do

  /**
   No byte lost, duplicated or reordered: what is returned, cached and still to come is what was cached and to come.
   */
  ghost predicate Lossless(opts: Opts, end: End, v: View, p: string) {
    var (p', v', outcome) := ReadStep(opts, end, v, p);
    && outcome.Returned?
    && outcome.n <= |p|
    && p'[..outcome.n] + v'.cache + RenderAll(opts, v'.queue) == v.cache + RenderAll(opts, v.queue)
  }

  /** The caller's side of the bargain: nothing cached, or at least a buffer full of it. */
  predicate Fits(cache: string, size: nat) {
    cache == [] || |cache| >= size
  }

  lemma {:induction false} SkipToPassing(opts: Opts, queue: seq<Delivery>)
    ensures var i := FirstPassing(opts, queue);
            RenderAll(opts, queue) == if i == |queue| then []
              else Render(opts, queue[i].chunk) + RenderAll(opts, queue[i + 1..])
    decreases |queue|
  {
    hide Passes, Render;
    if queue != [] && !Passes(opts, queue[0]) {
      SkipToPassing(opts, queue[1..]);
      var j := FirstPassing(opts, queue[1..]);
      if j < |queue[1..]| {
        assert queue[1..][j + 1..] == queue[j + 2..];
      }
    }
  }

  lemma ReadFromCache(opts: Opts, end: End, v: View, p: string)
    requires |v.cache| >= |p|
    ensures var (p', v', n, err) := Body(opts, end, v, p);
            p' == v.cache[..|p|] && v' == v.(cache := v.cache[|p|..]) && n == |p| && err.None?
  {
  }

  /** With an empty cache the next passing chunk is cut at the buffer's end. */
  lemma ReadFromStream(opts: Opts, end: End, v: View, p: string)
    requires v.cache == [] && |p| > 0
    ensures var (p', v', n, err) := Body(opts, end, v, p);
            var i := FirstPassing(opts, v.queue);
            if i == |v.queue| then n == 0 && err == Some(end) && v'.cache == [] && v'.queue == []
            else
              var b := Render(opts, v.queue[i].chunk);
              && err.None? && 0 < n <= |p| && n <= |b| && p'[..n] + v'.cache == b && v'.queue == v.queue[i + 1..]
              && (n < |p| ==> v'.cache == [])
  {
    hide Render, Passes, FirstPassing;
    var i := FirstPassing(opts, v.queue);
    if i < |v.queue| {
      var b := Render(opts, v.queue[i].chunk);
      var n2 := Min(|p|, |b|);
      assert b[..n2] + b[n2..] == b;
    }
  }

  lemma FitsIsLossless(opts: Opts, end: End, v: View, p: string)
    requires opts.limitBytes <= 0 && Fits(v.cache, |p|)
    ensures Lossless(opts, end, v, p)
  {
    if |v.cache| >= |p| {
      ReadFromCache(opts, end, v, p);
      assert v.cache[..|p|] + v.cache[|p|..] == v.cache;
    } else {
      ReadFromStream(opts, end, v, p);
      SkipToPassing(opts, v.queue);
      hide Render, RenderAll, FirstPassing, Body;
    }
  }

  /**
   When some but not a buffer full of bytes are cached, the next chunk is copied over them: for every chunk that
   passes there is a text with which bytes are lost.
   */
  lemma OverlapLoses(opts: Opts, end: End, v: View, p: string, d: Delivery) returns (bad: Delivery)
    requires 0 < |v.cache| < |p| && Passes(opts, d) && !opts.timestamps
    ensures bad.now == d.now && bad.chunk.at == d.chunk.at
    ensures !Lossless(opts, end, v.(queue := [bad]), p)
  {
    var c := if v.cache[0] == 'x' then 'y' else 'x';
    bad := d.(chunk := d.chunk.(text := [c]));
    var w := v.(queue := [bad]);
    hide Body, Passes, Lossless;
    OverlapWrites(opts, end, w, p, c);
    LosslessFirst(opts, end, w, p);
  }

  lemma LosslessFirst(opts: Opts, end: End, w: View, p: string)
    requires w.cache != [] && p != [] && Body(opts, end, w, p).2 > 0
    ensures |Body(opts, end, w, p).0| == |p|
    ensures Lossless(opts, end, w, p) ==> Body(opts, end, w, p).0[0] == w.cache[0]
  {
    assert |Body(opts, end, w, p).0| == |p| by { hide RenderAll, Passes, FirstPassing, Render; }
    hide Body, RenderAll;
    if Lossless(opts, end, w, p) {
      var (p', v', n, err) := Body(opts, end, w, p);
      assert (w.cache + RenderAll(opts, w.queue))[0] == w.cache[0];
      assert (p'[..n] + v'.cache + RenderAll(opts, v'.queue))[0] == p'[0];
    }
  }

  lemma OverlapWrites(opts: Opts, end: End, w: View, p: string, c: char)
    requires 0 < |w.cache| < |p| && !opts.timestamps
    requires |w.queue| == 1 && Passes(opts, w.queue[0]) && w.queue[0].chunk.text == [c]
    ensures var (p', v', n, err) := Body(opts, end, w, p); n > 0 && p'[0] == c
  {
    hide Passes;
    assert FirstPassing(opts, w.queue) == 0;
    assert Render(opts, w.queue[0].chunk) == [c, '\n'];
  }

  /** A call keeps the stream intact, whatever is still to come, exactly when its buffer meets the condition. */
  lemma LosslessIffFits(cache: string, count: int, closed: bool, p: string)
    ensures (forall opts: Opts, end: End, queue: seq<Delivery> | opts.limitBytes <= 0 ::
               Lossless(opts, end, View(queue, cache, count, closed), p))
       <==> Fits(cache, |p|)
  {
    hide Lossless;
    if Fits(cache, |p|) {
      forall opts: Opts, end: End, queue: seq<Delivery> | opts.limitBytes <= 0
        ensures Lossless(opts, end, View(queue, cache, count, closed), p)
      {
        FitsIsLossless(opts, end, View(queue, cache, count, closed), p);
      }
    } else {
      var opts := Opts(1, 0, 0, false, 0);
      var v := View([], cache, count, closed);
      var bad := OverlapLoses(opts, Eof, v, p, Delivery(ParsedLine(ZERO_TIME, ""), 0));
      assert !Lossless(opts, Eof, View([bad], cache, count, closed), p);
    }
  }

  // What line 160 was meant to do

  /** Read with the chunk copied behind the cached bytes instead of over them. This is not what the code does. */
  function Intended(opts: Opts, end: End, v: View, p: string): (string, View, nat, Option<End>) {
    var n1 := Min(|p|, |v.cache|);
    var p1, v1 := Copied(p, v.cache), v.(cache := v.cache[n1..]);
    if n1 == |p| then (p1, v1, n1, None)
    else
      var i := FirstPassing(opts, v.queue);
      if i == |v.queue| then (p1, v1.(queue := [], cache := []), n1, Some(end))
      else
        var b := Render(opts, v.queue[i].chunk);
        var n2 := Min(|p| - n1, |b|);
        (p1[..n1] + Copied(p1[n1..], b), v1.(queue := v.queue[i + 1..], cache := v1.cache + b[n2..]), n1 + n2, None)
  }

  /** It differs from the code for no buffer that fits. */
  lemma IntendedAgrees(opts: Opts, end: End, v: View, p: string)
    requires Fits(v.cache, |p|)
    ensures Intended(opts, end, v, p) == Body(opts, end, v, p)
  {
    hide Render, FirstPassing, Passes;
    assert Copied(p, "") == p && p[0..] == p && p[..0] == "";
    assert forall q: string :: "" + q == q;
  }

  lemma IntendedChunk(opts: Opts, end: End, v: View, p: string)
    requires |v.cache| < |p| && FirstPassing(opts, v.queue) < |v.queue|
    ensures var (p', v', n, err) := Intended(opts, end, v, p);
            var i := FirstPassing(opts, v.queue);
            && n <= |p| == |p'| && v'.queue == v.queue[i + 1..]
            && p'[..n] + v'.cache == v.cache + Render(opts, v.queue[i].chunk)
  {
    hide Render, FirstPassing, Passes;
    var p1, b := Copied(p, v.cache), Render(opts, v.queue[FirstPassing(opts, v.queue)].chunk);
    assert p1[..|v.cache|] == v.cache && v.cache[|v.cache|..] == [];
    Spliced(p1, |v.cache|, b, Min(|p| - |v.cache|, |b|));
  }

  lemma IntendedNoChunk(opts: Opts, end: End, v: View, p: string)
    requires |v.cache| >= |p| || FirstPassing(opts, v.queue) == |v.queue|
    ensures var (p', v', n, err) := Intended(opts, end, v, p);
            && n <= |p| == |p'| && p'[..n] + v'.cache == v.cache
            && v'.queue == if |v.cache| >= |p| then v.queue else []
  {
    hide Render, FirstPassing, Passes;
    var n1 := Min(|p|, |v.cache|);
    assert v.cache[..n1] + v.cache[n1..] == v.cache;
  }

  /** And it would be lossless for every buffer. */
  lemma IntendedIsLossless(opts: Opts, end: End, v: View, p: string)
    ensures var (p', v', n, err) := Intended(opts, end, v, p);
            && n <= |p| == |p'|
            && p'[..n] + v'.cache + RenderAll(opts, v'.queue) == v.cache + RenderAll(opts, v.queue)
  {
    hide Intended, Render, RenderAll, FirstPassing, Passes;
    SkipToPassing(opts, v.queue);
    SkipToPassing(opts, []);
    if |v.cache| < |p| && FirstPassing(opts, v.queue) < |v.queue| {
      IntendedChunk(opts, end, v, p);
      Regroup([], v.cache, Render(opts, v.queue[FirstPassing(opts, v.queue)].chunk),
        RenderAll(opts, Intended(opts, end, v, p).1.queue));
    } else {
      IntendedNoChunk(opts, end, v, p);
    }
  }

  lemma Spliced(p: string, n1: nat, b: string, n2: nat)
    requires n1 <= |p| && n2 == Min(|p| - n1, |b|)
    ensures |p[..n1] + Copied(p[n1..], b)| == |p|
    ensures (p[..n1] + Copied(p[n1..], b))[..n1 + n2] + b[n2..] == p[..n1] + b
  {
    assert b[..n2] + b[n2..] == b;
  }

  // Whole runs of calls

  /** Bytes returned by a run of calls, one per buffer, up to a panic; and the state they leave. */
  function Reads(opts: Opts, end: End, v: View, buffers: seq<string>): (string, View) {
    if buffers == [] then ([], v)
    else
      var (out, v1) := Reads(opts, end, v, buffers[..|buffers| - 1]);
      var (p', v2, outcome) := ReadStep(opts, end, v1, buffers[|buffers| - 1]);
      if outcome.Panicked? then (out, v1) else (out + p'[..Min(outcome.n, |p'|)], v2)
  }

  /** The condition, call by call. */
  ghost predicate AllFit(opts: Opts, end: End, v: View, buffers: seq<string>) {
    buffers == [] ||
    (&& AllFit(opts, end, v, buffers[..|buffers| - 1])
     && Fits(Reads(opts, end, v, buffers[..|buffers| - 1]).1.cache, |buffers[|buffers| - 1]|))
  }

  /** Over any run of fitting calls: returned ++ cached ++ still to come is constant. */
  lemma {:induction false} ReadsConserve(opts: Opts, end: End, v: View, buffers: seq<string>)
    requires opts.limitBytes <= 0 && AllFit(opts, end, v, buffers)
    ensures var (out, v') := Reads(opts, end, v, buffers);
            out + v'.cache + RenderAll(opts, v'.queue) == v.cache + RenderAll(opts, v.queue)
    decreases |buffers|
  {
    if buffers != [] {
      var before, p := buffers[..|buffers| - 1], buffers[|buffers| - 1];
      ReadsConserve(opts, end, v, before);
      var (out, v1) := Reads(opts, end, v, before);
      FitsIsLossless(opts, end, v1, p);
      hide RenderAll, ReadStep, Fits, AllFit;
      var (p', v2, outcome) := ReadStep(opts, end, v1, p);
      Regroup(out, p'[..outcome.n], v2.cache, RenderAll(opts, v2.queue));
      Regroup(out, [], v1.cache, RenderAll(opts, v1.queue));
    }
  }

  lemma Regroup(a: string, b: string, c: string, d: string)
    ensures a + b + c + d == a + (b + c + d)
    ensures [] + c + d == c + d && a + [] + c + d == a + c + d
    ensures b + c + d == b + (c + d)
  {
  }

  /** One byte at a time always fits. */
  lemma {:induction false} OneByteFits(opts: Opts, end: End, v: View, buffers: seq<string>)
    requires forall k | 0 <= k < |buffers| :: |buffers[k]| == 1
    ensures AllFit(opts, end, v, buffers)
    decreases |buffers|
  {
    if buffers != [] {
      OneByteFits(opts, end, v, buffers[..|buffers| - 1]);
    }
  }

  /** A one-byte read of a stream with something left returns one byte. */
  lemma OneByteProgress(opts: Opts, end: End, v: View, p: string)
    requires opts.limitBytes <= 0 && |p| == 1
    ensures var (p', v', outcome) := ReadStep(opts, end, v, p);
            && outcome.Returned?
            && outcome.n == if v.cache + RenderAll(opts, v.queue) == [] then 0 else 1
  {
    SkipToPassing(opts, v.queue);
    hide Render, RenderAll;
    if v.cache == [] {
      ReadFromStream(opts, end, v, p);
    } else {
      ReadFromCache(opts, end, v, p);
    }
  }

  /** Reading byte by byte returns everything there is, and no sooner or later than it should. */
  lemma {:induction false} OneByteReadsAll(opts: Opts, end: End, v: View, buffers: seq<string>)
    requires opts.limitBytes <= 0 && forall k | 0 <= k < |buffers| :: |buffers[k]| == 1
    ensures var all := v.cache + RenderAll(opts, v.queue);
            Reads(opts, end, v, buffers).0 == all[..Min(|buffers|, |all|)]
    decreases |buffers|
  {
    if buffers != [] {
      var before, p := buffers[..|buffers| - 1], buffers[|buffers| - 1];
      hide RenderAll, ReadStep, Fits, AllFit;
      OneByteReadsAll(opts, end, v, before);
      OneByteFits(opts, end, v, before);
      OneByteFits(opts, end, v, buffers);
      ReadsConserve(opts, end, v, before);
      ReadsConserve(opts, end, v, buffers);
      var v1 := Reads(opts, end, v, before).1;
      OneByteProgress(opts, end, v1, p);
      var (out, v2) := Reads(opts, end, v, buffers);
      var all := v.cache + RenderAll(opts, v.queue);
      PrefixOf(out, v2.cache, RenderAll(opts, v2.queue), all);
      PrefixOf(Reads(opts, end, v, before).0, v1.cache, RenderAll(opts, v1.queue), all);
    }
  }

  lemma PrefixOf(a: string, b: string, c: string, all: string)
    requires a + b + c == all
    ensures |a| <= |all| && a == all[..|a|] && |b + c| == |all| - |a|
  {
  }

  /** So do buffers that hold any single line of the stream: nothing is ever cached. */
  lemma {:induction false} LongBuffersFit(opts: Opts, end: End, v: View, buffers: seq<string>, size: nat)
    requires v.cache == [] && opts.limitBytes <= 0 && size > 0
    requires forall k | 0 <= k < |v.queue| :: |Render(opts, v.queue[k].chunk)| <= size
    requires forall k | 0 <= k < |buffers| :: |buffers[k]| >= size
    ensures AllFit(opts, end, v, buffers)
    ensures var v' := Reads(opts, end, v, buffers).1;
            && v'.cache == []
            && forall k | 0 <= k < |v'.queue| :: |Render(opts, v'.queue[k].chunk)| <= size
    decreases |buffers|
  {
    if buffers != [] {
      var p := buffers[|buffers| - 1];
      LongBuffersFit(opts, end, v, buffers[..|buffers| - 1], size);
      var v1 := Reads(opts, end, v, buffers[..|buffers| - 1]).1;
      ReadFromStream(opts, end, v1, p);
      hide Render, RenderAll;
    }
  }

  /** How many chunks pass the filters. */
  function PassingCount(opts: Opts, queue: seq<Delivery>): nat {
    if queue == [] then 0 else (if Passes(opts, queue[0]) then 1 else 0) + PassingCount(opts, queue[1..])
  }

  lemma {:induction false} CountFromFirst(opts: Opts, queue: seq<Delivery>)
    ensures var i := FirstPassing(opts, queue);
            PassingCount(opts, queue) == if i == |queue| then 0 else 1 + PassingCount(opts, queue[i + 1..])
    decreases |queue|
  {
    hide Passes;
    if queue != [] && !Passes(opts, queue[0]) {
      CountFromFirst(opts, queue[1..]);
      var j := FirstPassing(opts, queue[1..]);
      if j < |queue[1..]| {
        assert queue[1..][j + 1..] == queue[j + 2..];
      }
    }
  }

  lemma {:induction false} NonePassing(opts: Opts, queue: seq<Delivery>)
    requires PassingCount(opts, queue) == 0
    ensures RenderAll(opts, queue) == []
    decreases |queue|
  {
    hide Passes, Render;
    if queue != [] {
      NonePassing(opts, queue[1..]);
    }
  }

  /** Each call with a long buffer takes one passing chunk. */
  lemma {:induction false} LongBuffersTake(opts: Opts, end: End, v: View, buffers: seq<string>, size: nat)
    requires v.cache == [] && opts.limitBytes <= 0 && size > 0
    requires forall k | 0 <= k < |v.queue| :: |Render(opts, v.queue[k].chunk)| <= size
    requires forall k | 0 <= k < |buffers| :: |buffers[k]| >= size
    ensures var left := PassingCount(opts, Reads(opts, end, v, buffers).1.queue);
            left == if PassingCount(opts, v.queue) <= |buffers| then 0 else PassingCount(opts, v.queue) - |buffers|
    decreases |buffers|
  {
    if buffers != [] {
      var before, p := buffers[..|buffers| - 1], buffers[|buffers| - 1];
      LongBuffersTake(opts, end, v, before, size);
      LongBuffersFit(opts, end, v, before, size);
      var w := Reads(opts, end, v, before).1;
      ReadFromStream(opts, end, w, p);
      CountFromFirst(opts, w.queue);
      hide Render, Body, FirstPassing;
    }
  }

  /** With buffers that hold any single line, as many calls as there are passing chunks return all of them. */
  lemma LongBuffersReadAll(opts: Opts, end: End, v: View, buffers: seq<string>, size: nat)
    requires v.cache == [] && opts.limitBytes <= 0 && size > 0
    requires forall k | 0 <= k < |v.queue| :: |Render(opts, v.queue[k].chunk)| <= size
    requires |buffers| >= PassingCount(opts, v.queue) && forall k | 0 <= k < |buffers| :: |buffers[k]| >= size
    ensures Reads(opts, end, v, buffers).0 == RenderAll(opts, v.queue)
  {
    LongBuffersTake(opts, end, v, buffers, size);
    LongBuffersFit(opts, end, v, buffers, size);
    hide Reads, AllFit, RenderAll, PassingCount, Render;
    ReadsConserve(opts, end, v, buffers);
    var (out, w) := Reads(opts, end, v, buffers);
    NonePassing(opts, w.queue);
    assert out + [] + [] == out && [] + RenderAll(opts, v.queue) == RenderAll(opts, v.queue);
  }

  // Which chunks are returned

  /** Every chunk, rendered. */
  function RenderEach(opts: Opts, queue: seq<Delivery>): string {
    if queue == [] then [] else Render(opts, queue[0].chunk) + RenderEach(opts, queue[1..])
  }

  /** A line count is asked for, which overrides the time options, or those leave out nothing. */
  ghost predicate NoTimeLimit(opts: Opts, queue: seq<Delivery>) {
    || opts.tail > 0
    || (opts.sinceSeconds <= 0 && forall k | 0 <= k < |queue| ::
      opts.sinceTime <= 1000000000 * Moment(queue[k].chunk.at))
  }

  lemma {:induction false} EachRendered(opts: Opts, queue: seq<Delivery>)
    requires NoTimeLimit(opts, queue)
    ensures RenderAll(opts, queue) == RenderEach(opts, queue) && PassingCount(opts, queue) == |queue|
    decreases |queue|
  {
    hide Render, Moment;
    if queue != [] {
      assert queue[0] in queue;
      EachRendered(opts, queue[1..]);
    }
  }

  /** Plain logs: byte by byte or line by line, every chunk is returned. */
  lemma PlainReadsAll(opts: Opts, end: End, v: View, buffers: seq<string>, size: nat)
    requires opts.limitBytes <= 0 && NoTimeLimit(opts, v.queue)
    ensures var all := v.cache + RenderEach(opts, v.queue);
            (forall k | 0 <= k < |buffers| :: |buffers[k]| == 1) ==>
              Reads(opts, end, v, buffers).0 == all[..Min(|buffers|, |all|)]
    ensures v.cache == [] && |buffers| >= |v.queue| && size > 0
            && (forall k | 0 <= k < |v.queue| :: |Render(opts, v.queue[k].chunk)| <= size)
            && (forall k | 0 <= k < |buffers| :: |buffers[k]| >= size) ==>
              Reads(opts, end, v, buffers).0 == RenderEach(opts, v.queue)
  {
    EachRendered(opts, v.queue);
    hide Reads, RenderAll, RenderEach, Render, NoTimeLimit, PassingCount;
    if forall k | 0 <= k < |buffers| :: |buffers[k]| == 1 {
      OneByteReadsAll(opts, end, v, buffers);
    }
    if v.cache == [] && |buffers| >= |v.queue| && size > 0
       && (forall k | 0 <= k < |v.queue| :: |Render(opts, v.queue[k].chunk)| <= size)
       && (forall k | 0 <= k < |buffers| :: |buffers[k]| >= size) {
      LongBuffersReadAll(opts, end, v, buffers, size);
    }
  }

  /** The earliest stamp a chunk taken at `now` may have: the later of the two time options. */
  function Cutoff(opts: Opts, now: int): int {
    var since := now - opts.sinceSeconds * 1000000000;
    if opts.sinceSeconds > 0 && since > opts.sinceTime then since else opts.sinceTime
  }

  predicate YoungEnough(opts: Opts, d: Delivery) { Cutoff(opts, d.now) <= 1000000000 * Moment(d.chunk.at) }

  function Survivors(opts: Opts, queue: seq<Delivery>): seq<Delivery> {
    if queue == [] then [] else (if YoungEnough(opts, queue[0]) then [queue[0]] else []) + Survivors(opts, queue[1..])
  }

  lemma PassesIffYoung(opts: Opts, d: Delivery)
    requires opts.tail <= 0
    ensures Passes(opts, d) <==> YoungEnough(opts, d)
  {
    hide Moment;
  }

  /** Without a line count, exactly the chunks that are young enough are returned, in order. */
  lemma {:induction false} SurvivorsRendered(opts: Opts, queue: seq<Delivery>)
    requires opts.tail <= 0
    ensures RenderAll(opts, queue) == RenderEach(opts, Survivors(opts, queue))
    decreases |queue|
  {
    hide Passes, Render, YoungEnough;
    if queue != [] {
      PassesIffYoung(opts, queue[0]);
      SurvivorsRendered(opts, queue[1..]);
      var rest := Survivors(opts, queue[1..]);
      assert ([queue[0]] + rest)[1..] == rest && [] + rest == rest;
    }
  }

  /** Stamps do not go back along the stream, and ages do not grow. */
  ghost predicate InTimeOrder(queue: seq<Delivery>) {
    forall j, k | 0 <= j < k < |queue| ::
      var a, b := 1000000000 * Moment(queue[j].chunk.at), 1000000000 * Moment(queue[k].chunk.at);
      a <= b && queue[k].now - b <= queue[j].now - a
  }

  lemma YoungStaysYoung(opts: Opts, queue: seq<Delivery>, j: nat, k: nat)
    requires InTimeOrder(queue) && j <= k < |queue| && YoungEnough(opts, queue[j])
    ensures YoungEnough(opts, queue[k])
  {
    hide Moment;
  }

  /** On a stream in time order that is a suffix of it: the chunks from the first young one on. */
  lemma {:induction false} SinceIsSuffix(opts: Opts, queue: seq<Delivery>) returns (m: nat)
    requires opts.tail <= 0 && InTimeOrder(queue)
    ensures m <= |queue| && RenderAll(opts, queue) == RenderEach(opts, queue[m..])
    ensures forall k | 0 <= k < |queue| :: k >= m <==> YoungEnough(opts, queue[k])
    decreases |queue|
  {
    SurvivorsRendered(opts, queue);
    hide YoungEnough, RenderAll, RenderEach;
    if queue == [] {
      m := 0;
    } else if YoungEnough(opts, queue[0]) {
      m := 0;
      forall k: nat | k < |queue| ensures YoungEnough(opts, queue[k]) { YoungStaysYoung(opts, queue, 0, k); }
      AllSurvive(opts, queue);
      assert queue[0..] == queue;
    } else {
      assert InTimeOrder(queue[1..]);
      var rest := SinceIsSuffix(opts, queue[1..]);
      m := rest + 1;
      hide InTimeOrder;
      SurvivorsRendered(opts, queue[1..]);
      assert queue[1..][rest..] == queue[m..];
      assert forall k | 1 <= k < |queue| :: queue[k] == queue[1..][k - 1];
    }
  }

  lemma {:induction false} AllSurvive(opts: Opts, queue: seq<Delivery>)
    requires forall k | 0 <= k < |queue| :: YoungEnough(opts, queue[k])
    ensures Survivors(opts, queue) == queue
    decreases |queue|
  {
    hide YoungEnough;
    if queue != [] {
      AllSurvive(opts, queue[1..]);
    }
  }

  /**
   What a chunk looks like to the caller: its text and a newline, with timestamps asked for after a stamp in UTC that
   reads as the moment of the chunk's, and a space.
   */
  lemma RenderedAs(opts: Opts, c: ParsedLine)
    requires Valid(c.at) && 0 <= ToUtc(c.at).year <= 9999
    ensures !opts.timestamps ==> Render(opts, c) == c.text + "\n"
    ensures opts.timestamps ==>
              var stamp := FormatTime(ToUtc(c.at));
              && Render(opts, c) == stamp + " " + c.text + "\n" && ' ' !in stamp
              && ParseTime(stamp).Some? && ParseTime(stamp).value.offset == 0
              && Moment(ParseTime(stamp).value) == Moment(c.at)
  {
    ToUtcSameInstant(c.at);
    ParseFormat(ToUtc(c.at));
    FormatHasNoSpace(ToUtc(c.at));
    hide FormatTime, ParseTime, ToUtc, Instant;
    assert "" + c.text == c.text;
  }

  /**
   A call reports the end exactly if it is not filled from the cache and nothing that passes is left; the cached bytes
   are returned with it.
   */
  lemma EndIff(opts: Opts, end: End, v: View, p: string)
    ensures var (p', w, n, err) := Body(opts, end, v, p);
            && (err.Some? <==> |v.cache| < |p| && PassingCount(opts, v.queue) == 0)
            && (err.Some? ==>
                  err == Some(end) && n == |v.cache| && p'[..n] == v.cache && w.cache == [] && w.queue == [])
  {
    CountFromFirst(opts, v.queue);
    hide Render, Passes, FirstPassing, PassingCount;
  }

  // LimitBytes

  /**
   LimitBytes changes neither the bytes nor the count nor the error a call returns; it can only make the call panic.
   */
  lemma LimitDoesNotLimit(opts: Opts, end: End, v: View, p: string)
    ensures var (p1, v1, o1) := ReadStep(opts, end, v, p);
            var (p0, v0, o0) := ReadStep(opts.(limitBytes := 0), end, v, p);
            && p1 == p0 && v1.queue == v0.queue && v1.cache == v0.cache && v1.count == v0.count
            && (o1 == o0 || o1.Panicked?)
            && (o1.Panicked? <==> opts.limitBytes > 0 && v1.count > opts.limitBytes + |p|)
  {
    BodyIgnoresLimit(opts, end, v, p);
  }

  lemma BodyIgnoresLimit(opts: Opts, end: End, v: View, p: string)
    ensures Body(opts, end, v, p) == Body(opts.(limitBytes := 0), end, v, p)
  {
    FirstPassingIgnoresLimit(opts, v.queue);
  }

  lemma {:induction false} FirstPassingIgnoresLimit(opts: Opts, queue: seq<Delivery>)
    ensures FirstPassing(opts, queue) == FirstPassing(opts.(limitBytes := 0), queue)
    ensures forall c: ParsedLine :: Render(opts, c) == Render(opts.(limitBytes := 0), c)
    decreases |queue|
  {
    if queue != [] {
      FirstPassingIgnoresLimit(opts, queue[1..]);
    }
  }

  // LimitBytes over whole runs

  /** No call of the run panics. */
  ghost predicate NoPanic(opts: Opts, end: End, v: View, buffers: seq<string>) {
    buffers == [] ||
    (&& NoPanic(opts, end, v, buffers[..|buffers| - 1])
     && ReadStep(opts, end, Reads(opts, end, v, buffers[..|buffers| - 1]).1, buffers[|buffers| - 1]).2.Returned?)
  }

  lemma BodyIgnoresClosed(opts: Opts, end: End, v: View, p: string, closed: bool)
    ensures var (p', v', n, err) := Body(opts, end, v, p);
            Body(opts, end, v.(closed := closed), p) == (p', v'.(closed := closed), n, err)
  {
    hide Render, FirstPassing, Copied;
  }

  /** One call with and without a limit, from states that differ at most in whether the reader is closed. */
  lemma StepIgnoresLimit(opts: Opts, end: End, v: View, w: View, p: string)
    requires v == w.(closed := v.closed) && ReadStep(opts, end, v, p).2.Returned?
    ensures var (p1, v1, o1) := ReadStep(opts, end, v, p);
            var (p0, w1, o0) := ReadStep(opts.(limitBytes := 0), end, w, p);
            p1 == p0 && o1 == o0 && v1 == w1.(closed := v1.closed) && w1.closed == w.closed
  {
    BodyIgnoresClosed(opts, end, w, p, v.closed);
    BodyIgnoresLimit(opts, end, w, p);
    BodyKeepsClosed(opts, end, w, p);
    hide Body;
  }

  lemma BodyKeepsClosed(opts: Opts, end: End, v: View, p: string)
    ensures Body(opts, end, v, p).1.closed == v.closed
  {
    hide Render, FirstPassing, Copied;
  }

  /** Up to the first panic, and as far as the chunks go that are handed over anyway, a limit changes nothing. */
  lemma {:induction false} ReadsIgnoreLimit(opts: Opts, end: End, v: View, buffers: seq<string>)
    requires NoPanic(opts, end, v, buffers)
    ensures var (out, v1) := Reads(opts, end, v, buffers);
            var (out0, v0) := Reads(opts.(limitBytes := 0), end, v, buffers);
            out == out0 && v1 == v0.(closed := v1.closed) && v0.closed == v.closed
    decreases |buffers|
  {
    hide ReadStep;
    if buffers != [] {
      var before := buffers[..|buffers| - 1];
      ReadsIgnoreLimit(opts, end, v, before);
      StepIgnoresLimit(opts, end, Reads(opts, end, v, before).1, Reads(opts.(limitBytes := 0), end, v, before).1,
                       buffers[|buffers| - 1]);
    }
  }

  /** A closed reader has told the agent to stop, so what is still to come may end at any later chunk. */
  function Shortened(v: View, cut: nat): View {
    if v.closed && cut < |v.queue| then v.(queue := v.queue[..cut]) else v
  }

  /** Reads, with the agent stopping at any point once told to: `cuts` says how many chunks more are handed over. */
  function LimitedReads(opts: Opts, end: End, v: View, buffers: seq<string>, cuts: seq<nat>): (string, View)
    requires |cuts| == |buffers|
  {
    if buffers == [] then ([], v)
    else
      var n := |buffers| - 1;
      var (out, v1) := LimitedReads(opts, end, v, buffers[..n], cuts[..n]);
      var (p', v2, outcome) := ReadStep(opts, end, v1, buffers[n]);
      if outcome.Panicked? then (out, v1) else (out + p'[..Min(outcome.n, |p'|)], Shortened(v2, cuts[n]))
  }

  ghost predicate NoLimitedPanic(opts: Opts, end: End, v: View, buffers: seq<string>, cuts: seq<nat>)
    requires |cuts| == |buffers|
  {
    buffers == [] ||
    (var n := |buffers| - 1;
     && NoLimitedPanic(opts, end, v, buffers[..n], cuts[..n])
     && ReadStep(opts, end, LimitedReads(opts, end, v, buffers[..n], cuts[..n]).1, buffers[n]).2.Returned?)
  }

  lemma {:induction false} FirstPassingCut(opts: Opts, queue: seq<Delivery>, m: nat)
    requires FirstPassing(opts, queue) < m <= |queue|
    ensures FirstPassing(opts, queue[..m]) == FirstPassing(opts, queue)
    decreases |queue|
  {
    hide Passes;
    if !Passes(opts, queue[0]) {
      FirstPassingCut(opts, queue[1..], m - 1);
      assert queue[..m][1..] == queue[1..][..m - 1];
    }
  }

  /** Cutting the stream behind what a call takes does not change the call. */
  lemma BodyOfCut(opts: Opts, end: End, v: View, p: string, c: nat)
    requires c <= |Body(opts, end, v, p).1.queue|
    ensures var (p', v', n, err) := Body(opts, end, v, p);
            && |v'.queue| <= |v.queue|
            && Body(opts, end, v.(queue := v.queue[..|v.queue| - |v'.queue| + c]), p)
               == (p', v'.(queue := v'.queue[..c]), n, err)
  {
    hide Render, Copied, Passes, FirstPassing;
    var i, q := FirstPassing(opts, v.queue), v.queue;
    if Min(|p|, |v.cache|) < |p| {
      if i < |q| {
        FirstPassingCut(opts, q, i + 1 + c);
        assert q[..i + 1 + c][i + 1..] == q[i + 1..][..c];
      } else {
        assert q[..|q|] == q;
      }
    }
  }

  /** The same for a run of calls without a limit. */
  lemma {:induction false} ReadsOfCut(opts: Opts, end: End, v: View, buffers: seq<string>, c: nat)
    requires opts.limitBytes <= 0 && c <= |Reads(opts, end, v, buffers).1.queue|
    ensures var (out, v1) := Reads(opts, end, v, buffers);
            && |v1.queue| <= |v.queue|
            && Reads(opts, end, v.(queue := v.queue[..|v.queue| - |v1.queue| + c]), buffers)
               == (out, v1.(queue := v1.queue[..c]))
    decreases |buffers|
  {
    hide Body;
    if buffers == [] {
    } else {
      var before, p := buffers[..|buffers| - 1], buffers[|buffers| - 1];
      var w := Reads(opts, end, v, before).1;
      BodyOfCut(opts, end, w, p, c);
      ReadsOfCut(opts, end, v, before, |w.queue| - |Body(opts, end, w, p).1.queue| + c);
    }
  }

  /**
   All a limit does, short of a panic: whatever run of calls and whenever the agent stops, the bytes returned and the
   state are those of a reader without a limit on a stream that ends m chunks in.
   */
  lemma {:induction false} LimitOnlyEndsSooner(opts: Opts, end: End, v: View, buffers: seq<string>, cuts: seq<nat>)
      returns (m: nat)
    requires |cuts| == |buffers| && NoLimitedPanic(opts, end, v, buffers, cuts)
    ensures m <= |v.queue|
    ensures var (out, v1) := LimitedReads(opts, end, v, buffers, cuts);
            var (out0, v0) := Reads(opts.(limitBytes := 0), end, v.(queue := v.queue[..m]), buffers);
            out == out0 && v1 == v0.(closed := v1.closed)
    decreases |buffers|
  {
    hide ReadStep;
    var free := opts.(limitBytes := 0);
    if buffers == [] {
      m := |v.queue|;
      assert v.queue[..m] == v.queue;
    } else {
      var n := |buffers| - 1;
      var k := LimitOnlyEndsSooner(opts, end, v, buffers[..n], cuts[..n]);
      var short := v.(queue := v.queue[..k]);
      var w, w0 := LimitedReads(opts, end, v, buffers[..n], cuts[..n]).1, Reads(free, end, short, buffers[..n]).1;
      StepIgnoresLimit(opts, end, w, w0, buffers[n]);
      var w', w0' := ReadStep(opts, end, w, buffers[n]).1, Reads(free, end, short, buffers).1;
      var c := if w'.closed && cuts[n] < |w'.queue| then cuts[n] else |w'.queue|;
      ReadsOfCut(free, end, short, buffers, c);
      m := k - |w0'.queue| + c;
      assert v.queue[..k][..m] == v.queue[..m];
      assert w'.queue[..|w'.queue|] == w'.queue;
    }
  }

  /** Byte by byte, what is counted is what is returned. */
  lemma {:induction false} OneByteCounts(opts: Opts, end: End, v: View, buffers: seq<string>)
    requires opts.limitBytes <= 0 && forall k | 0 <= k < |buffers| :: |buffers[k]| == 1
    ensures var (out, v1) := Reads(opts, end, v, buffers);
            v1.count == v.count + |out| && |out| <= |buffers|
    decreases |buffers|
  {
    if buffers != [] {
      var before, p := buffers[..|buffers| - 1], buffers[|buffers| - 1];
      OneByteCounts(opts, end, v, before);
      var v1 := Reads(opts, end, v, before).1;
      OneByteProgress(opts, end, v1, p);
      BodyCounts(opts, end, v1, p);
      hide Body;
    }
  }

  lemma BodyCounts(opts: Opts, end: End, v: View, p: string)
    ensures Body(opts, end, v, p).1.count == v.count && |Body(opts, end, v, p).0| == |p|
  {
    hide Render, FirstPassing;
  }

  lemma {:induction false} OneByteNoPanic(opts: Opts, end: End, v: View, buffers: seq<string>)
    requires opts.limitBytes > 0 && v.count == 0 && |buffers| <= opts.limitBytes + 1
    requires forall k | 0 <= k < |buffers| :: |buffers[k]| == 1
    ensures NoPanic(opts, end, v, buffers)
    decreases |buffers|
  {
    if buffers != [] {
      var before, p := buffers[..|buffers| - 1], buffers[|buffers| - 1];
      OneByteNoPanic(opts, end, v, before);
      ReadsIgnoreLimit(opts, end, v, before);
      OneByteCounts(opts.(limitBytes := 0), end, v, before);
      NextCount(opts, end, Reads(opts, end, v, before).1, p);
      hide Reads, ReadStep;
    }
  }

  /** A one-byte call panics exactly if it takes the count past the limit by more than one. */
  lemma NextCount(opts: Opts, end: End, v: View, p: string)
    requires opts.limitBytes > 0 && |p| == 1
    ensures var next := v.count + if v.cache + RenderAll(opts, v.queue) == [] then 0 else 1;
            ReadStep(opts, end, v, p).2.Panicked? <==> next > opts.limitBytes + 1
  {
    var free := opts.(limitBytes := 0);
    OneByteProgress(free, end, v, p);
    BodyIgnoresLimit(opts, end, v, p);
    BodyCounts(opts, end, v, p);
    RenderAllIgnoresLimit(opts, v.queue);
    hide Body, RenderAll;
  }

  lemma {:induction false} RenderAllIgnoresLimit(opts: Opts, queue: seq<Delivery>)
    ensures RenderAll(opts, queue) == RenderAll(opts.(limitBytes := 0), queue)
    decreases |queue|
  {
    hide Passes, Render;
    FirstPassingIgnoresLimit(opts, queue);
    if queue != [] {
      RenderAllIgnoresLimit(opts, queue[1..]);
      SamePassing(opts, queue[0]);
    }
  }

  lemma SamePassing(opts: Opts, d: Delivery)
    ensures Passes(opts, d) <==> Passes(opts.(limitBytes := 0), d)
  {
    hide Nanos;
  }

  /** Up to as many one-byte calls as the limit the reader stays open, so nothing is cut. */
  lemma {:induction false} OpenWithinLimit(opts: Opts, end: End, v: View, buffers: seq<string>, cuts: seq<nat>)
    requires |cuts| == |buffers| <= opts.limitBytes && v.count == 0 && !v.closed
    requires forall k | 0 <= k < |buffers| :: |buffers[k]| == 1
    ensures NoLimitedPanic(opts, end, v, buffers, cuts) && NoPanic(opts, end, v, buffers)
    ensures LimitedReads(opts, end, v, buffers, cuts) == Reads(opts, end, v, buffers)
    ensures var w := Reads(opts, end, v, buffers).1; !w.closed && 0 <= w.count <= |buffers|
    decreases |buffers|
  {
    if buffers != [] {
      var n := |buffers| - 1;
      OpenWithinLimit(opts, end, v, buffers[..n], cuts[..n]);
      var w := Reads(opts, end, v, buffers[..n]).1;
      NextCount(opts, end, w, buffers[n]);
      NextClosed(opts, end, w, buffers[n]);
      hide ReadStep;
    }
  }

  /** A one-byte call that takes the count past the limit closes the reader, any other leaves it as it was. */
  lemma NextClosed(opts: Opts, end: End, v: View, p: string)
    requires opts.limitBytes > 0 && |p| == 1
    ensures var next := v.count + if v.cache + RenderAll(opts, v.queue) == [] then 0 else 1;
            var (_, w, outcome) := ReadStep(opts, end, v, p);
            && w.count == next
            && (outcome.Returned? ==> (w.closed <==> v.closed || next > opts.limitBytes))
  {
    var free := opts.(limitBytes := 0);
    OneByteProgress(free, end, v, p);
    BodyIgnoresLimit(opts, end, v, p);
    BodyCounts(opts, end, v, p);
    BodyKeepsClosed(opts, end, v, p);
    RenderAllIgnoresLimit(opts, v.queue);
    hide Body, RenderAll;
  }

  /** With nothing left a one-byte call reports the end of the stream. */
  lemma NothingLeft(opts: Opts, end: End, v: View, p: string)
    requires opts.limitBytes > 0 && |p| == 1 && v.cache + RenderAll(opts, v.queue) == []
      && v.count <= opts.limitBytes + 1
    ensures ReadStep(opts, end, v, p).2 == Returned(0, Some(end))
  {
    SkipToPassing(opts, v.queue);
    assert v.cache == [];
    hide Render, RenderAll;
    ReadFromStream(opts, end, v, p);
    BodyCounts(opts, end, v, p);
    hide Body;
  }

  /**
   The limit is overrun for every limit and every longer stream, wherever the agent stops once told to: a byte-by-byte
   reader is given one byte more than the limit. Its next call panics if and only if a byte is still handed over, and
   reports the end of the stream otherwise.
   */
  lemma LimitIsOverrun(opts: Opts, end: End, queue: seq<Delivery>, buffers: seq<string>, cuts: seq<nat>, p: string)
    requires opts.limitBytes > 0 && |RenderAll(opts, queue)| > opts.limitBytes
    requires |cuts| == |buffers| == opts.limitBytes + 1
    requires |p| == 1 && forall k | 0 <= k < |buffers| :: |buffers[k]| == 1
    ensures var v := View(queue, [], 0, false);
            var (out, w) := LimitedReads(opts, end, v, buffers, cuts);
            var next := ReadStep(opts, end, w, p).2;
            && NoLimitedPanic(opts, end, v, buffers, cuts)
            && out == RenderAll(opts, queue)[..opts.limitBytes + 1]
            && (next.Panicked? <==> w.cache + RenderAll(opts, w.queue) != [])
            && (!next.Panicked? ==> next == Returned(0, Some(end)))
  {
    var v, n := View(queue, [], 0, false), opts.limitBytes;
    OverrunByOne(opts, end, queue, buffers, cuts);
    hide Reads, ReadStep, RenderAll, NoPanic, LimitedReads, NoLimitedPanic;
    var w := LimitedReads(opts, end, v, buffers, cuts).1;
    NextCount(opts, end, w, p);
    if w.cache + RenderAll(opts, w.queue) == [] {
      NothingLeft(opts, end, w, p);
    }
  }

  /** The calls up to and including the one over the limit. */
  lemma OverrunByOne(opts: Opts, end: End, queue: seq<Delivery>, buffers: seq<string>, cuts: seq<nat>)
    requires opts.limitBytes > 0 && |RenderAll(opts, queue)| > opts.limitBytes
    requires |cuts| == |buffers| == opts.limitBytes + 1
    requires forall k | 0 <= k < |buffers| :: |buffers[k]| == 1
    ensures var v := View(queue, [], 0, false);
            var (out, w) := LimitedReads(opts, end, v, buffers, cuts);
            && NoLimitedPanic(opts, end, v, buffers, cuts) && w.closed && w.count == opts.limitBytes + 1
            && out == RenderAll(opts, queue)[..opts.limitBytes + 1]
  {
    var v, n := View(queue, [], 0, false), opts.limitBytes;
    WithoutCuts(opts, end, queue, buffers);
    OpenWithinLimit(opts, end, v, buffers[..n], cuts[..n]);
    hide ReadStep, RenderAll;
    assert Reads(opts, end, v, buffers).1 == ReadStep(opts, end, Reads(opts, end, v, buffers[..n]).1, buffers[n]).1;
  }

  /** The same calls if nothing were cut. */
  lemma WithoutCuts(opts: Opts, end: End, queue: seq<Delivery>, buffers: seq<string>)
    requires opts.limitBytes > 0 && |RenderAll(opts, queue)| > opts.limitBytes && |buffers| == opts.limitBytes + 1
    requires forall k | 0 <= k < |buffers| :: |buffers[k]| == 1
    ensures var v := View(queue, [], 0, false);
            && NoPanic(opts, end, v, buffers)
            && Reads(opts, end, v, buffers).0 == RenderAll(opts, queue)[..opts.limitBytes + 1]
            && Reads(opts, end, v, buffers).1.count == opts.limitBytes + 1
            && Reads(opts, end, v, buffers).1.closed
  {
    hide ReadStep, RenderAll, AllFit;
    var v, free, all, n := View(queue, [], 0, false), opts.(limitBytes := 0), RenderAll(opts, queue), opts.limitBytes;
    OneByteNoPanic(opts, end, v, buffers);
    ReadsIgnoreLimit(opts, end, v, buffers);
    RenderAllIgnoresLimit(opts, queue);
    assert [] + all == all;
    OneByteReadsAll(free, end, v, buffers);
    OneByteCounts(free, end, v, buffers);
    NextClosed(opts, end, Reads(opts, end, v, buffers[..n]).1, buffers[n]);
  }
}
