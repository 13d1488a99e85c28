/**
 What the interleaved protocol can do: from any moment at which nothing is under way, any thread can carry out any
 provider call or routed report to its end, with exactly the effect of the sequential operation. So what is proved of
 all runs is proved of runs with any history at every provider.
 */
module ProtocolRuns {
  import opened Wrappers
  import opened PodStatus
  import opened Provider
  import opened ProviderHistory
  import opened Protocol
  import opened ProtocolHistory

  predicate Quiet(s: State) {
    && (forall t | 0 <= t < |s.threads| :: s.threads[t].Idle?)
    && (forall p | 0 <= p < |s.nodes| :: s.nodes[p].mutex.None?)
    && s.index.writer.None? && s.index.readers == {}
  }

  /** The same state but for one thread, one provider and the tracker. */
  function Put(s: State, t: nat, p: nat, pc: Pc, n: Node, index: Index): State
    requires t < |s.threads| && p < |s.nodes|
  {
    State(s.threads[t := pc], s.nodes[p := n], index)
  }

  lemma PutTwice(s: State, t: nat, p: nat, pc: Pc, n: Node, index: Index, pc': Pc, n': Node, index': Index)
    requires t < |s.threads| && p < |s.nodes|
    ensures var u := Put(s, t, p, pc, n, index);
            && |u.threads| == |s.threads| && |u.nodes| == |s.nodes| && u.threads[t] == pc && u.nodes[p] == n
            && u.index == index
            && Put(u, t, p, pc', n', index') == Put(s, t, p, pc', n', index')
  {
    assert s.threads[t := pc][t := pc'] == s.threads[t := pc'];
    assert s.nodes[p := n][p := n'] == s.nodes[p := n'];
  }

  lemma PutSame(s: State, t: nat, p: nat, pc: Pc)
    requires t < |s.threads| && p < |s.nodes|
    ensures Put(s, t, p, pc, s.nodes[p], s.index) == s.(threads := s.threads[t := pc])
    ensures s.threads[t] == pc ==> Put(s, t, p, pc, s.nodes[p], s.index) == s
  {
    assert s.nodes[p := s.nodes[p]] == s.nodes;
    assert s.threads[t := s.threads[t]] == s.threads;
  }

  /** A run and one step more. */
  lemma Then(s: State, run: seq<Action>, a: Action) returns (longer: seq<Action>)
    ensures After(s, longer) == Next(After(s, run), a)
  {
    hide Next;
    longer := run + [a];
    assert longer[..|run|] == run;
  }

  lemma Into(s: State, t: nat, p: nat, job: Job)
    requires t < |s.threads| && p < |s.nodes| && s.threads[t] == WantProvider(p, job) && s.nodes[p].mutex.None?
    ensures var n := s.nodes[p];
            Next(s, LockProvider(t))
            == Put(s, t, p, Entered(p, job, EnterPod(n.view, job)),
              n.(mutex := Some(t), view := EnterView(n.view, job)), s.index)
  {
    hide EnterPod, EnterView;
  }

  lemma Call(s: State, t: nat, p: nat, job: Job, pod: PodView, answer: Answer)
    requires t < |s.threads| && p < |s.nodes| && s.threads[t] == Entered(p, job, pod)
    ensures var n, cur := s.nodes[p], CallPod(job, pod, answer);
            Next(s, CallAgent(t, answer))
            == Put(s, t, p,
                   if UsesTracker(n.view, job, cur) then WantTracker(p, job, cur, answer)
                     else Closing(p, job, cur, answer),
                   n.(view := CallView(n.view, n.name, job, pod)), s.index)
  {
    hide CallPod, CallView, UsesTracker;
  }

  lemma Write(s: State, t: nat, p: nat, job: Job, cur: PodView, answer: Answer)
    requires t < |s.threads| && p < |s.nodes| && s.threads[t] == WantTracker(p, job, cur, answer)
    requires s.index.writer.None? && s.index.readers == {}
    ensures Next(Next(s, LockTracker(t)), WriteTracker(t))
         == Put(s, t, p, Closing(p, job, cur, answer), s.nodes[p],
           s.index.(tracked := Written(s.index.tracked, p, job, cur)))
  {
    hide Written;
    assert s.nodes[p := s.nodes[p]] == s.nodes;
  }

  lemma Close(s: State, t: nat, p: nat, job: Job, cur: PodView, answer: Answer, now: int)
    requires t < |s.threads| && p < |s.nodes| && s.threads[t] == Closing(p, job, cur, answer)
    ensures var n := s.nodes[p];
            Next(s, Finish(t, now))
            == Put(s, t, p, Idle, Node(n.name, None, FinishView(n.view, job, cur, now),
              n.history + [OpOf(job, answer, now)]),
                   s.index)
  {
    hide FinishView, OpOf;
  }

  /** What the tracker knows after the call. */
  function TrackedAfter(s: State, p: nat, job: Job, answer: Answer): map<string, Info>
    requires p < |s.nodes|
  {
    var v := s.nodes[p].view;
    var cur := CallPod(job, EnterPod(v, job), answer);
    if UsesTracker(EnterView(v, job), job, cur) then Written(s.index.tracked, p, job, cur) else s.index.tracked
  }

  /**
   The state after one call ran alone: the sequential operation at its provider, the tracker written if it is to be.
   */
  function Done(s: State, p: nat, job: Job, answer: Answer, now: int): State
    requires p < |s.nodes|
  {
    var n, op := s.nodes[p], OpOf(job, answer, now);
    s.(nodes := s.nodes[p := n.(view := Apply(n.name, n.view, op), history := n.history + [op])],
       index := s.index.(tracked := TrackedAfter(s, p, job, answer)))
  }

  /** From wanting the provider to the end. */
  lemma RunsOn(s: State, run: seq<Action>, here: State, t: nat, p: nat, job: Job, answer: Answer, now: int)
      returns (longer: seq<Action>)
    requires After(s, run) == here && t < |here.threads| && p < |here.nodes| && here.threads[t] == WantProvider(p, job)
    requires here.nodes[p].mutex.None? && here.index.writer.None? && here.index.readers == {}
    ensures After(s, longer) == Done(here.(threads := here.threads[t := Idle]), p, job, answer, now)
  {
    hide Next, After, Put, EnterPod, EnterView, CallPod, CallView, UsesTracker, Written, FinishView, OpOf, Apply;
    var n, index := here.nodes[p], here.index;
    var view, pod := EnterView(n.view, job), EnterPod(n.view, job);
    var cur := CallPod(job, pod, answer);
    Into(here, t, p, job);
    longer := Then(s, run, LockProvider(t));
    var n1, pc1 := n.(mutex := Some(t), view := view), Entered(p, job, pod);
    var s1 := Put(here, t, p, pc1, n1, index);
    var n2 := n1.(view := CallView(view, n.name, job, pod));
    var uses := UsesTracker(view, job, cur);
    var pc2 := if uses then WantTracker(p, job, cur, answer) else Closing(p, job, cur, answer);
    PutTwice(here, t, p, pc1, n1, index, pc2, n2, index);
    Call(s1, t, p, job, pod, answer);
    longer := Then(s, longer, CallAgent(t, answer));
    var s2 := Put(here, t, p, pc2, n2, index);
    var pc3, index3 := Closing(p, job, cur, answer),
      index.(tracked := if uses then Written(index.tracked, p, job, cur) else index.tracked);
    PutTwice(here, t, p, pc2, n2, index, pc3, n2, index3);
    if uses {
      Write(s2, t, p, job, cur, answer);
      longer := Then(s, longer, LockTracker(t));
      longer := Then(s, longer, WriteTracker(t));
    }
    var s3 := Put(here, t, p, pc3, n2, index3);
    assert After(s, longer) == s3;
    var n4 := Node(n.name, None, FinishView(n2.view, job, cur, now), n.history + [OpOf(job, answer, now)]);
    PutTwice(here, t, p, pc3, n2, index3, Idle, n4, index3);
    Close(s3, t, p, job, cur, answer, now);
    longer := Then(s, longer, Finish(t, now));
    PartsMakeOp(n.view, n.name, job, answer, now);
    EndsDone(here, t, p, job, answer, now, n4, index3);
  }

  lemma EndsDone(here: State, t: nat, p: nat, job: Job, answer: Answer, now: int, n: Node, index: Index)
    requires t < |here.threads| && p < |here.nodes| && here.nodes[p].mutex.None?
    requires var m, op := here.nodes[p], OpOf(job, answer, now);
             n == Node(m.name, None, Apply(m.name, m.view, op), m.history + [op])
    requires index == here.index.(tracked := TrackedAfter(here, p, job, answer))
    ensures Put(here, t, p, Idle, n, index) == Done(here.(threads := here.threads[t := Idle]), p, job, answer, now)
  {
    hide Apply, OpOf, CallPod, EnterPod, EnterView, UsesTracker, Written;
  }

  /** Any thread can carry out any call at any provider. */
  lemma CallRuns(s: State, t: nat, p: nat, job: Job, answer: Answer, now: int) returns (run: seq<Action>)
    requires Quiet(s) && t < |s.threads| && p < |s.nodes| && (job.ReportJob? ==> job.via.None?)
    ensures After(s, run) == Done(s, p, job, answer, now)
  {
    hide After, Done;
    run := Then(s, [], Begin(t, p, job));
    assert After(s, []) == s by { NothingYet(s); }
    var here := s.(threads := s.threads[t := WantProvider(p, job)]);
    run := RunsOn(s, run, here, t, p, job, answer, now);
    assert here.threads[t := Idle] == s.threads;
    assert here.(threads := here.threads[t := Idle]) == s;
  }

  lemma NothingYet(s: State)
    ensures After(s, []) == s
  {
  }

  /** And any thread can have the tracker route any report: to the Pod it has for the identifier, or nowhere. */
  lemma RouteRuns(s: State, t: nat, id: string, status: Status, cache: bool, now: int) returns (run: seq<Action>)
    requires Quiet(s) && t < |s.threads| && (id in s.index.tracked ==> s.index.tracked[id].provider < |s.nodes|)
    ensures After(s, run)
         == if id !in s.index.tracked then s
            else
              var info := s.index.tracked[id];
              Done(s, info.provider, ReportJob(info.key, status, cache, Some(id), |s.nodes[info.provider].history|),
                Rejected, now)
  {
    hide After, Done, Next;
    NothingYet(s);
    Asked(s, t, id, status, cache);
    run := Then(s, [], BeginRoute(t, id, status, cache));
    run := Then(s, run, LockLookup(t));
    run := Then(s, run, Lookup(t));
    if id in s.index.tracked {
      var info := s.index.tracked[id];
      var job := ReportJob(info.key, status, cache, Some(id), |s.nodes[info.provider].history|);
      var here := s.(threads := s.threads[t := WantProvider(info.provider, job)]);
      run := RunsOn(s, run, here, t, info.provider, job, Rejected, now);
      assert here.(threads := here.threads[t := Idle]) == s by { assert here.threads[t := Idle] == s.threads; }
    } else {
      assert s.threads[t := Idle] == s.threads;
    }
  }

  lemma Asked(s: State, t: nat, id: string, status: Status, cache: bool)
    requires Quiet(s) && t < |s.threads|
    ensures Next(Next(Next(s, BeginRoute(t, id, status, cache)), LockLookup(t)), Lookup(t))
         == s.(threads := s.threads[t := Routed(s, id, status, cache)])
  {
    hide Routed;
    var s1 := s.(threads := s.threads[t := WantLookup(id, status, cache)]);
    var s2 := s.(threads := s.threads[t := HaveLookup(id, status, cache)], index := s.index.(readers := {t}));
    assert s1.threads[t := HaveLookup(id, status, cache)] == s2.threads;
    assert Next(s, BeginRoute(t, id, status, cache)) == s1;
    assert NoWriterWaits(s1) && s.index.readers + {t} == {t};
    assert Next(s1, LockLookup(t)) == s2;
    assert s2.threads[t := Routed(s, id, status, cache)] == s.threads[t := Routed(s, id, status, cache)];
    assert Routed(s2, id, status, cache) == Routed(s, id, status, cache) by { RoutedSame(s, s2, id, status, cache); }
    assert s2.index.readers - {t} == {} == s.index.readers;
  }

  lemma RoutedSame(s: State, u: State, id: string, status: Status, cache: bool)
    requires u.nodes == s.nodes && u.index.tracked == s.index.tracked
    ensures Routed(u, id, status, cache) == Routed(s, id, status, cache)
  {
  }

  function JobOf(op: Op): Job {
    match op
    case Create(pod, _, _) => CreateJob(pod)
    case Update(pod, _) => UpdateJob(pod)
    case Delete(pod, _) => DeleteJob(pod)
    case Report(key, status, cache, _) => ReportJob(key, status, cache, None, 0)
  }

  lemma OpRuns(s: State, t: nat, p: nat, op: Op) returns (run: seq<Action>)
    requires Quiet(s) && t < |s.threads| && p < |s.nodes|
    ensures var u := After(s, run);
            && Quiet(u) && |u.threads| == |s.threads| && |u.nodes| == |s.nodes|
            && u.nodes[p].history == s.nodes[p].history + [op]
            && forall q | 0 <= q < |s.nodes| && q != p :: u.nodes[q] == s.nodes[q]
  {
    var answer := if op.Create? then op.answer else Rejected;
    assert OpOf(JobOf(op), answer, op.now) == op;
    hide Apply, OpOf, After, TrackedAfter;
    run := CallRuns(s, t, p, JobOf(op), answer, op.now);
  }

  /** Every history can happen at every provider, whatever there was before and whoever makes the calls. */
  lemma {:induction false} EveryHistoryHappens(s: State, t: nat, p: nat, ops: seq<Op>) returns (run: seq<Action>)
    requires Quiet(s) && t < |s.threads| && p < |s.nodes|
    ensures var u := After(s, run);
            && Quiet(u) && |u.threads| == |s.threads| && |u.nodes| == |s.nodes|
            && u.nodes[p].history == s.nodes[p].history + ops
            && forall q | 0 <= q < |s.nodes| && q != p :: u.nodes[q] == s.nodes[q]
    decreases |ops|
  {
    hide After, Quiet;
    if ops == [] {
      run := [];
      NothingYet(s);
    } else {
      var n := |ops| - 1;
      var before := EveryHistoryHappens(s, t, p, ops[..n]);
      var more := OpRuns(After(s, before), t, p, ops[n]);
      run := before + more;
      AfterConcat(s, before, more);
      assert ops[..n] + [ops[n]] == ops;
      assert s.nodes[p].history + ops[..n] + [ops[n]] == s.nodes[p].history + (ops[..n] + [ops[n]]);
    }
  }
}
