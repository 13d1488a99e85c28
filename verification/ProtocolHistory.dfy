/**
 The interleaved protocol refines the sequential provider: whatever the threads do, each provider's state is its
 completed operations replayed one at a time in mutex order.
 */
module ProtocolHistory {
  import opened Wrappers
  import opened Labels
  import opened PodStatus
  import opened Provider
  import opened ProviderHistory
  import opened Protocol

  /** What the thread inside provider n has done to it so far, on top of the completed operations. */
  ghost predicate MidWay(n: Node, pc: Pc)
    requires Holding(pc)
  {
    var v := Replay(n.name, n.history);
    var entered, pod := EnterView(v, pc.job), EnterPod(v, pc.job);
    if pc.Entered? then n.view == entered && pc.cur == pod
    else n.view == CallView(entered, n.name, pc.job, pod) && pc.cur == CallPod(pc.job, pod, pc.answer)
  }

  ghost predicate NodeOk(s: State, p: nat)
    requires p < |s.nodes|
  {
    var n := s.nodes[p];
    if n.mutex.None? then n.view == Replay(n.name, n.history)
    else n.mutex.value < |s.threads| && Holds(s.threads[n.mutex.value], p) && MidWay(n, s.threads[n.mutex.value])
  }

  /** The three parts of a method, run without interruption, are the sequential operation. */
  lemma PartsMakeOp(v: View, nodeName: string, job: Job, answer: Answer, now: int)
    ensures FinishView(CallView(EnterView(v, job), nodeName, job, EnterPod(v, job)), job,
                       CallPod(job, EnterPod(v, job), answer), now)
         == Apply(nodeName, v, OpOf(job, answer, now))
  {
    hide Changed, Told, Applied, Converted, IsTracked, Identified, Meta, NeedsDispatch;
    match job
    case CreateJob(_) =>
    case UpdateJob(_) =>
      assert v.calls + [] == v.calls;
    case DeleteJob(_) =>
      assert v.calls + [] == v.calls;
    case ReportJob(_, _, _, _, _) =>
      assert v.calls + [] == v.calls;
  }

  lemma FinishAppends(nodeName: string, history: seq<Op>, op: Op)
    ensures Replay(nodeName, history + [op]) == Apply(nodeName, Replay(nodeName, history), op)
  {
    assert (history + [op])[..|history|] == history;
  }

  lemma NextKeepsNode(s: State, a: Action, p: nat)
    requires Locks(s) && Enabled(s, a) && p < |s.nodes| && NodeOk(s, p)
    ensures |Next(s, a).nodes| == |s.nodes| && NodeOk(Next(s, a), p)
  {
    hide MidWay, Locks;
    if AtNode(s, a, p) {
      InsideKeepsNode(s, a, p);
    } else {
      OutsideKeepsNode(s, a, p);
    }
  }

  /** The action is by the thread inside provider p, or by one entering it. */
  predicate AtNode(s: State, a: Action, p: nat)
    requires a.t < |s.threads|
  {
    Holds(s.threads[a.t], p) || (a.LockProvider? && s.threads[a.t].WantProvider? && s.threads[a.t].p == p)
  }

  lemma OutsideKeepsNode(s: State, a: Action, p: nat)
    requires Locks(s) && Enabled(s, a) && p < |s.nodes| && NodeOk(s, p) && !AtNode(s, a, p)
    ensures |Next(s, a).nodes| == |s.nodes| && NodeOk(Next(s, a), p)
  {
    assert ThreadLocks(s, a.t) && NodeLocks(s, p);
    hide EnterView, EnterPod, CallView, CallPod, FinishView, UsesTracker, Written, OpOf, NoWriterWaits, Replay, MidWay,
      Locks;
  }

  lemma InsideKeepsNode(s: State, a: Action, p: nat)
    requires Locks(s) && Enabled(s, a) && p < |s.nodes| && NodeOk(s, p) && AtNode(s, a, p)
    ensures |Next(s, a).nodes| == |s.nodes| && NodeOk(Next(s, a), p)
  {
    assert ThreadLocks(s, a.t) && NodeLocks(s, p);
    hide Locks, NodeOk, Next;
    match a
    case LockProvider(_) => EnterOk(s, a, p);
    case CallAgent(_, _) => CallOk(s, a, p);
    case LockTracker(_) => TrackerOk(s, a, p);
    case WriteTracker(_) => TrackerOk(s, a, p);
    case Finish(_, _) => FinishOk(s, a, p);
  }

  lemma EnterOk(s: State, a: Action, p: nat)
    requires Enabled(s, a) && p < |s.nodes| && NodeOk(s, p) && a.LockProvider? && s.threads[a.t].p == p
    ensures |Next(s, a).nodes| == |s.nodes| && NodeOk(Next(s, a), p)
  {
    hide EnterView, EnterPod, Replay;
  }

  lemma CallOk(s: State, a: Action, p: nat)
    requires Enabled(s, a) && p < |s.nodes| && NodeOk(s, p) && a.CallAgent?
    requires s.threads[a.t].p == p && s.nodes[p].mutex == Some(a.t)
    ensures |Next(s, a).nodes| == |s.nodes| && NodeOk(Next(s, a), p)
  {
    hide EnterView, EnterPod, CallView, CallPod, UsesTracker, Replay;
  }

  lemma TrackerOk(s: State, a: Action, p: nat)
    requires Enabled(s, a) && p < |s.nodes| && NodeOk(s, p) && (a.LockTracker? || a.WriteTracker?)
    requires s.threads[a.t].p == p && s.nodes[p].mutex == Some(a.t)
    ensures |Next(s, a).nodes| == |s.nodes| && NodeOk(Next(s, a), p)
  {
    hide EnterView, EnterPod, CallView, CallPod, Written, Replay;
  }

  lemma FinishOk(s: State, a: Action, p: nat)
    requires Enabled(s, a) && p < |s.nodes| && NodeOk(s, p) && a.Finish?
    requires s.threads[a.t].p == p && s.nodes[p].mutex == Some(a.t)
    ensures |Next(s, a).nodes| == |s.nodes| && NodeOk(Next(s, a), p)
  {
    hide EnterView, EnterPod, CallView, CallPod, FinishView, OpOf, Replay;
    var pc, n := s.threads[a.t], s.nodes[p];
    PartsMakeOp(Replay(n.name, n.history), n.name, pc.job, pc.answer, a.now);
    FinishAppends(n.name, n.history, OpOf(pc.job, pc.answer, a.now));
  }

  /**
   Refinement: in every reachable state of every interleaving, a provider nobody is inside of is exactly its completed
   operations replayed in order; one somebody is inside of differs only by that thread's own half-done operation.
   */
  lemma {:induction false} Linearizable(s: State, run: seq<Action>, p: nat)
    requires Initial(s) && p < |s.nodes|
    ensures |After(s, run).nodes| == |s.nodes| && After(s, run).nodes[p].name == s.nodes[p].name
    ensures NodeOk(After(s, run), p)
    decreases |run|
  {
    hide Next, NodeOk, Enabled;
    if run == [] {
      InitiallyOk(s, p);
    } else {
      var before, a := After(s, run[..|run| - 1]), run[|run| - 1];
      Linearizable(s, run[..|run| - 1], p);
      LocksAlways(s, run[..|run| - 1]);
      NextKeepsSizes(before, a);
      if Enabled(before, a) {
        NextKeepsNode(before, a, p);
      } else {
        DisabledStays(before, a);
      }
    }
  }

  lemma InitiallyOk(s: State, p: nat)
    requires Initial(s) && p < |s.nodes|
    ensures NodeOk(s, p)
  {
  }

  lemma QuietIsReplay(s: State, run: seq<Action>, p: nat)
    requires Initial(s) && p < |s.nodes|
    ensures var t := After(s, run);
            && p < |t.nodes|
            && (t.nodes[p].mutex.None? ==> t.nodes[p].view == Replay(s.nodes[p].name, t.nodes[p].history))
  {
    Linearizable(s, run, p);
  }

  /** Hence everything proved of histories holds under every interleaving, for instance: */
  lemma ConcurrentStateIsHistory(s: State, run: seq<Action>, p: nat, k: Key)
    requires Initial(s) && p < |s.nodes| && p < |After(s, run).nodes| && After(s, run).nodes[p].mutex.None?
    ensures var n := After(s, run).nodes[p];
            Agrees(n.view, n.history, k) && ToldTruth(n.view, k)
  {
    hide Agrees, ToldTruth;
    QuietIsReplay(s, run, p);
    var n := After(s, run).nodes[p];
    StateIsHistory(s.nodes[p].name, n.history, k);
    NotifierIsCurrent(s.nodes[p].name, n.history, k);
  }

  // No resurrection

  /** Callers of the tracker's UpdateStatus ask for no caching, as the workload reconciler does. */
  predicate UncachedRoutes(run: seq<Action>) { forall k | 0 <= k < |run| :: run[k].BeginRoute? ==> !run[k].cache }

  /** No report that goes through the tracker is cacheable, from the call to its delivery. */
  ghost predicate RoutedUncached(s: State) {
    forall t | 0 <= t < |s.threads| ::
      var pc := s.threads[t];
      && (pc.WantLookup? || pc.HaveLookup? ==> !pc.cache)
      && ((pc.WantProvider? || Holding(pc)) && pc.job.ReportJob? && pc.job.via.Some? ==> !pc.job.cache)
  }

  lemma NextKeepsUncached(s: State, a: Action)
    requires RoutedUncached(s) && (a.BeginRoute? ==> !a.cache)
    ensures RoutedUncached(Next(s, a))
  {
    hide EnterView, EnterPod, CallView, CallPod, FinishView, UsesTracker, Written, OpOf, NoWriterWaits;
  }

  lemma {:induction false} RoutedNeverCached(s: State, run: seq<Action>)
    requires Initial(s) && UncachedRoutes(run)
    ensures RoutedUncached(After(s, run))
    decreases |run|
  {
    if run != [] {
      RoutedNeverCached(s, run[..|run| - 1]);
      NextKeepsUncached(After(s, run[..|run| - 1]), run[|run| - 1]);
    }
  }

  /** The operations a provider completed between two points of a run. */
  ghost predicate Grown(before: seq<Op>, after: seq<Op>) { before <= after }

  lemma {:induction false} HistoryGrows(s: State, run: seq<Action>, k: nat, p: nat)
    requires k <= |run| && p < |s.nodes|
    ensures |After(s, run).nodes| == |After(s, run[..k]).nodes| == |s.nodes|
    ensures Grown(After(s, run[..k]).nodes[p].history, After(s, run).nodes[p].history)
    decreases |run|
  {
    if k == |run| {
      assert run[..k] == run;
      SizesAlways(s, run);
    } else {
      var before := run[..|run| - 1];
      HistoryGrows(s, before, k, p);
      assert before[..k] == run[..k];
      StepGrows(After(s, before), run[|run| - 1], p);
    }
  }

  lemma {:induction false} SizesAlways(s: State, run: seq<Action>)
    ensures |After(s, run).threads| == |s.threads| && |After(s, run).nodes| == |s.nodes|
    decreases |run|
  {
    if run != [] {
      SizesAlways(s, run[..|run| - 1]);
      NextKeepsSizes(After(s, run[..|run| - 1]), run[|run| - 1]);
    }
  }

  lemma StepGrows(s: State, a: Action, p: nat)
    requires p < |s.nodes|
    ensures |Next(s, a).nodes| == |s.nodes| && s.nodes[p].history <= Next(s, a).nodes[p].history
  {
    hide EnterView, EnterPod, CallView, CallPod, FinishView, UsesTracker, Written, OpOf, NoWriterWaits;
  }

  lemma {:induction false} StaysAbsent(ops: seq<Op>, k: Key, n: nat)
    requires n <= |ops| && !IsStored(ops[..n], k)
    requires forall i | n <= i < |ops| :: KeyOf(ops[i]) == k ==> !ops[i].Create? && !ops[i].Update?
    ensures !IsStored(ops, k)
    decreases |ops|
  {
    if n == |ops| {
      assert ops[..n] == ops;
    } else {
      assert ops[..|ops| - 1][..n] == ops[..n];
      StaysAbsent(ops[..|ops| - 1], k, n);
    }
  }

  /**
   No resurrection, under every interleaving: a Pod that is gone at one moment is still gone at any later one unless
   the provider completed a creation (or an update, which Virtual Kubelet does not send for it) of that very Pod in
   between. Status reports, routed or not, in flight or not, never bring it back.
   */
  lemma NoResurrection(s: State, run: seq<Action>, m: nat, p: nat, k: Key)
    requires Initial(s) && m <= |run| && p < |s.nodes|
    requires |After(s, run[..m]).nodes| == |After(s, run).nodes| == |s.nodes|
    requires After(s, run[..m]).nodes[p].mutex.None? && k !in After(s, run[..m]).nodes[p].view.pods
    requires After(s, run).nodes[p].mutex.None?
    requires var h := After(s, run).nodes[p].history;
             forall i | |After(s, run[..m]).nodes[p].history| <= i < |h| ::
               KeyOf(h[i]) == k ==> !h[i].Create? && !h[i].Update?
    ensures k !in After(s, run).nodes[p].view.pods
  {
    HistoryGrows(s, run, m, p);
    ConcurrentStateIsHistory(s, run[..m], p, k);
    ConcurrentStateIsHistory(s, run, p, k);
    var h0, h := After(s, run[..m]).nodes[p].history, After(s, run).nodes[p].history;
    assert h[..|h0|] == h0;
    StaysAbsent(h, k, |h0|);
  }

  /** And delivering a routed report adds no key to either map, whether or not its Pod was deleted since the lookup. */
  lemma RoutedAddsNothing(s: State, run: seq<Action>, t: nat, now: int)
    requires Initial(s) && UncachedRoutes(run) && t < |After(s, run).threads|
    requires var pc := After(s, run).threads[t];
             pc.Closing? && pc.p < |After(s, run).nodes| && pc.job.ReportJob? && pc.job.via.Some?
    ensures var b, pc := After(s, run), After(s, run).threads[t];
            var n := b.nodes[pc.p];
            var n' := Next(b, Finish(t, now)).nodes[pc.p];
            && n'.view.pods.Keys == n.view.pods.Keys && n'.view.pending == n.view.pending
  {
    RoutedNeverCached(s, run);
    var pc := After(s, run).threads[t];
    ReportEffect(After(s, run).nodes[pc.p].view, pc.job.key, pc.job.status, false, now);
    hide After;
  }
}
