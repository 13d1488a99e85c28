/** The whole way of a container's output: dispatcher, job output file, tailF, log stream, logReader, caller. */
module LogPipeline {
  import opened Wrappers
  import opened LogLine
  import Dispatch
  import Tail
  import LogReader

  /** Text lines as a caller of the log API sees them. */
  function Printed(texts: seq<string>): string {
    if texts == [] then [] else texts[0] + "\n" + Printed(texts[1..])
  }

  /** The server sends one chunk per line, in order; only the receipt times are the environment's. */
  ghost predicate Delivers(queue: seq<LogReader.Delivery>, sent: seq<ParsedLine>) {
    |queue| == |sent| && forall k | 0 <= k < |sent| :: queue[k].chunk == sent[k]
  }

  /** No timestamps and no byte limit are asked for, and no time options that leave lines out, or a line count. */
  ghost predicate Unfiltered(opts: LogReader.Opts, queue: seq<LogReader.Delivery>) {
    !opts.timestamps && opts.limitBytes <= 0 && LogReader.NoTimeLimit(opts, queue)
  }

  lemma RenderIsPrinted(opts: LogReader.Opts, queue: seq<LogReader.Delivery>, sent: seq<ParsedLine>)
    requires Delivers(queue, sent) && Unfiltered(opts, queue)
    ensures LogReader.RenderAll(opts, queue) == Printed(Dispatch.TextOf(sent))
  {
    LogReader.EachRendered(opts, queue);
    EachIsPrinted(opts, queue, sent);
  }

  lemma {:induction false} EachIsPrinted(opts: LogReader.Opts, queue: seq<LogReader.Delivery>, sent: seq<ParsedLine>)
    requires Delivers(queue, sent) && !opts.timestamps
    ensures LogReader.RenderEach(opts, queue) == Printed(Dispatch.TextOf(sent))
    decreases |queue|
  {
    if queue != [] {
      EachIsPrinted(opts, queue[1..], sent[1..]);
      assert Dispatch.TextOf(sent)[1..] == Dispatch.TextOf(sent[1..]);
      assert "" + sent[0].text == sent[0].text;
    }
  }

  lemma TextOfLast(lines: seq<ParsedLine>, n: nat)
    ensures Dispatch.TextOf(Tail.Last(lines, n)) == Tail.Last(Dispatch.TextOf(lines), n)
  {
  }

  lemma OnePoll(cfg: Tail.Config, id: nat, content: string)
    requires !cfg.follow && Scannable(content)
    ensures Tail.Polls(cfg, [Tail.Present(Tail.File(id, content), Tail.Smooth, None)]).0.sent
         == Tail.Chosen(cfg, Tail.Start(cfg), Matching(ScanLines(content).lines, cfg.filter))
    ensures Tail.Polls(cfg, [Tail.Present(Tail.File(id, content), Tail.Smooth, None)]).1 == Tail.Finished
  {
    var found := [Tail.Present(Tail.File(id, content), Tail.Smooth, None)];
    assert found[..0] == [];
    assert Tail.Polls(cfg, found[..0]) == (Tail.Start(cfg), Tail.Polling);
  }

  /**
   What the log stream of a finished job carries, for any interleaving of all readers of all containers: the last n
   lines (or all, n = 0) of some merge of the container's standard output and standard error, and nothing else.
   */
  lemma StreamCarriesMerge(s: Dispatch.State, actions: seq<Dispatch.Action>, container: string, i: nat, j: nat, n: nat,
                           id: nat, opts: LogReader.Opts, queue: seq<LogReader.Delivery>)
    requires Dispatch.Initial(s) && Dispatch.CleanInput(s) && Dispatch.Pipes(Dispatch.Names(s), container, i, j)
    requires Dispatch.Drained(Dispatch.After(s, actions))
    requires Delivers(queue, SentOf(Dispatch.After(s, actions).file, container, n, id)) && Unfiltered(opts, queue)
    ensures exists merged ::
              && Dispatch.IsMerge(s.readers[i].input, s.readers[j].input, merged)
              && LogReader.RenderAll(opts, queue) == Printed(if n > 0 then Tail.Last(merged, n) else merged)
  {
    hide Dispatch.After, Dispatch.Initial, Dispatch.CleanInput, Dispatch.IsMerge, Tail.Polls;
    hide LogReader.RenderAll, ScanLines, Matching, Printed, LogReader.Passes;
    var file := Dispatch.After(s, actions).file;
    Dispatch.Demultiplex(s, actions, container, i, j);
    Dispatch.DemultiplexAll(s, actions, container, i, j);
    var cfg, matching := Tail.Config(container, n, false), Matching(ScanLines(file).lines, container);
    OnePoll(cfg, id, file);
    TextOfLast(matching, n);
    RenderIsPrinted(opts, queue, Tail.Chosen(cfg, Tail.Start(cfg), matching));
    var merged := Dispatch.TextOf(matching);
    assert Dispatch.IsMerge(s.readers[i].input, s.readers[j].input, merged);
  }

  /** What the tailer sends of a finished job's output. */
  function SentOf(file: string, container: string, n: nat, id: nat): seq<ParsedLine> {
    Tail.Polls(Tail.Config(container, n, false), [Tail.Present(Tail.File(id, file), Tail.Smooth, None)]).0.sent
  }

  /**
   End to end: once a job's output is complete, a caller who asks for the last n lines (or all, n = 0) of one container
   gets exactly the last n lines of some merge of that container's standard output and standard error, newline after
   each, and nothing else, if it reads byte by byte ...
   */
  lemma EndToEnd(s: Dispatch.State, actions: seq<Dispatch.Action>, container: string, i: nat, j: nat, n: nat, id: nat,
                 opts: LogReader.Opts, end: LogReader.End, queue: seq<LogReader.Delivery>, buffers: seq<string>)
    requires Dispatch.Initial(s) && Dispatch.CleanInput(s) && Dispatch.Pipes(Dispatch.Names(s), container, i, j)
    requires Dispatch.Drained(Dispatch.After(s, actions))
    requires Delivers(queue, SentOf(Dispatch.After(s, actions).file, container, n, id)) && Unfiltered(opts, queue)
    requires forall k | 0 <= k < |buffers| :: |buffers[k]| == 1
    requires |buffers| >= |LogReader.RenderAll(opts, queue)|
    ensures exists merged ::
              && Dispatch.IsMerge(s.readers[i].input, s.readers[j].input, merged)
              && LogReader.Reads(opts, end, LogReader.View(queue, [], 0, false), buffers).0
                 == Printed(if n > 0 then Tail.Last(merged, n) else merged)
  {
    hide *;
    StreamCarriesMerge(s, actions, container, i, j, n, id, opts, queue);
    assert opts.limitBytes <= 0 by { UnlimitedToo(opts, queue); }
    ReadsEverything(opts, end, queue, buffers);
  }

  /** ... or with buffers that hold any single line. */
  lemma EndToEndByLines(s: Dispatch.State, actions: seq<Dispatch.Action>, container: string, i: nat, j: nat, n: nat,
                        id: nat, opts: LogReader.Opts, end: LogReader.End, queue: seq<LogReader.Delivery>,
                        buffers: seq<string>, size: nat)
    requires Dispatch.Initial(s) && Dispatch.CleanInput(s) && Dispatch.Pipes(Dispatch.Names(s), container, i, j)
    requires Dispatch.Drained(Dispatch.After(s, actions))
    requires Delivers(queue, SentOf(Dispatch.After(s, actions).file, container, n, id)) && Unfiltered(opts, queue)
    requires size > 0 && forall k | 0 <= k < |queue| :: |LogReader.Render(opts, queue[k].chunk)| <= size
    requires |buffers| >= LogReader.PassingCount(opts, queue) && forall k | 0 <= k < |buffers| :: |buffers[k]| >= size
    ensures exists merged ::
              && Dispatch.IsMerge(s.readers[i].input, s.readers[j].input, merged)
              && LogReader.Reads(opts, end, LogReader.View(queue, [], 0, false), buffers).0
                 == Printed(if n > 0 then Tail.Last(merged, n) else merged)
  {
    hide *;
    StreamCarriesMerge(s, actions, container, i, j, n, id, opts, queue);
    assert opts.limitBytes <= 0 by { UnlimitedToo(opts, queue); }
    LogReader.LongBuffersReadAll(opts, end, LogReader.View(queue, [], 0, false), buffers, size);
  }

  lemma UnlimitedToo(opts: LogReader.Opts, queue: seq<LogReader.Delivery>)
    requires Unfiltered(opts, queue)
    ensures opts.limitBytes <= 0
  {
  }

  lemma ReadsEverything(opts: LogReader.Opts, end: LogReader.End, queue: seq<LogReader.Delivery>, buffers: seq<string>)
    requires opts.limitBytes <= 0 && forall k | 0 <= k < |buffers| :: |buffers[k]| == 1
    requires |buffers| >= |LogReader.RenderAll(opts, queue)|
    ensures LogReader.Reads(opts, end, LogReader.View(queue, [], 0, false), buffers).0
      == LogReader.RenderAll(opts, queue)
  {
    hide LogReader.RenderAll, LogReader.Reads;
    LogReader.OneByteReadsAll(opts, end, LogReader.View(queue, [], 0, false), buffers);
    assert [] + LogReader.RenderAll(opts, queue) == LogReader.RenderAll(opts, queue);
  }
}
