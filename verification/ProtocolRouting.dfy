/**
 Where a routed status report ends up. The tracker releases its lock between finding the Pod and calling the provider,
 and the provider only looks at the key: the report is delivered to a Pod that bears the identifier looked up unless the
 last Pod of that name created since bears another.
 */
module ProtocolRouting {
  import opened Wrappers
  import opened Labels
  import opened PodStatus
  import opened Provider
  import opened ProviderHistory
  import opened Protocol
  import opened ProtocolHistory
  import opened ProtocolIndex

  /** A Pod named k has been created since the history had length `since`. */
  ghost predicate Recreated(history: seq<Op>, since: nat, k: Key) {
    exists i: nat :: since <= i < |history| && history[i].Create? && KeyOf(history[i]) == k
  }

  predicate Routing(pc: Pc) {
    (pc.WantProvider? || Holding(pc)) && pc.job.ReportJob? && pc.job.via.Some?
  }

  /** The labels a creation stores: those of the Pod, with the agent's answer if the job was submitted. */
  function CreatedLabels(op: Op): LabelMap
    requires op.Create?
  {
    Dispatched(op.pod, op.answer).labels
  }

  /** The labels the last Pod named k was created with since the history had length `since`, if one was. */
  function LastCreated(history: seq<Op>, since: nat, k: Key): Option<LabelMap> {
    if |history| <= since then None
    else
      var op := history[|history| - 1];
      if op.Create? && op.pod.key == k then Some(CreatedLabels(op)) else LastCreated(history[..|history| - 1], since, k)
  }

  /** No Pod of the report's name was created since the lookup, or the last one bears the very identifier looked up. */
  predicate StillMeant(n: Node, job: Job)
    requires job.ReportJob? && job.via.Some?
  {
    var created := LastCreated(n.history, job.since, job.key);
    created.None? || TrackedAs(created.value, job.via.value)
  }

  /**
   The Pod now under the key of a routed report bears the identifier looked up exactly if it is still the one meant.
   */
  predicate RightPod(n: Node, job: Job)
    requires job.ReportJob? && job.via.Some?
  {
    && job.since <= |n.history|
    && (job.key in n.view.pods ==>
          (TrackedAs(n.view.pods[job.key].labels, job.via.value) <==> StillMeant(n, job)))
  }

  ghost predicate RouteOk(s: State, t: nat)
    requires t < |s.threads|
  {
    var pc := s.threads[t];
    Routing(pc) && pc.p < |s.nodes| ==> RightPod(s.nodes[pc.p], pc.job)
  }

  lemma RecreatedLater(history: seq<Op>, op: Op, since: nat, k: Key)
    requires since <= |history|
    ensures Recreated(history + [op], since, k) <==> Recreated(history, since, k) || (op.Create? && KeyOf(op) == k)
  {
    var longer := history + [op];
    if Recreated(history, since, k) {
      var i: nat :| since <= i < |history| && history[i].Create? && KeyOf(history[i]) == k;
      assert longer[i] == history[i];
    }
    if op.Create? && KeyOf(op) == k {
      assert longer[|history|] == op;
    }
  }

  lemma LastCreatedNext(history: seq<Op>, op: Op, since: nat, k: Key)
    requires since <= |history|
    ensures LastCreated(history + [op], since, k)
         == if op.Create? && op.pod.key == k then Some(CreatedLabels(op)) else LastCreated(history, since, k)
  {
    hide CreatedLabels;
    assert (history + [op])[..|history|] == history;
  }

  /** What a finishing operation leaves under key k. */
  lemma FinishLabels(s: State, a: Action, p: nat, k: Key)
    requires p < |s.nodes| && Locks(s) && Enabled(s, a) && a.Finish? && Site(s, a) == Some(p) && MidOk(s, p)
      && NodeOk(s, p)
    ensures |Next(s, a).nodes| == |s.nodes| && |Next(s, a).nodes[p].history| == |s.nodes[p].history| + 1
    ensures var n, n' := s.nodes[p], Next(s, a).nodes[p];
            var op := n'.history[|n.history|];
            && n'.history == n.history + [op]
            && (k in n'.view.pods ==>
                  if op.Create? && op.pod.key == k then n'.view.pods[k].labels == CreatedLabels(op)
                  else k in n.view.pods && SameIdentity(n'.view.pods[k].labels, n.view.pods[k].labels))
  {
    Here(s, a, p);
    var n, pc := s.nodes[p], s.threads[a.t];
    assert pc.job.CreateJob? ==> pc.cur == CallPod(pc.job, EnterPod(Replay(n.name, n.history), pc.job), pc.answer);
    hide Locks, NodeOk, NoWriterWaits, SameIdentity, Dispatched, Loaded, Told, CallPod, EnterPod, FinishView;
    FinishViewLabels(n.view, pc.job, pc.cur, a.now, k);
    EnteredLabels(Replay(n.name, n.history), pc.job, pc.answer);
  }

  lemma EnteredLabels(v: View, job: Job, answer: Answer)
    ensures job.CreateJob? ==> CallPod(job, EnterPod(v, job), answer).labels == Dispatched(job.pod, answer).labels
  {
    hide Applied, IsTracked, Identified;
  }

  lemma FinishViewLabels(v: View, job: Job, cur: PodView, now: int, k: Key)
    requires !job.ReportJob? ==> cur.key == job.pod.key
    requires job.UpdateJob? ==> job.pod.key in v.pods && SameIdentity(cur.labels, v.pods[job.pod.key].labels)
    ensures var w := FinishView(v, job, cur, now);
            k in w.pods ==>
              if job.CreateJob? && job.pod.key == k then w.pods[k].labels == cur.labels
              else k in v.pods && SameIdentity(w.pods[k].labels, v.pods[k].labels)
  {
    hide Changed, Told, IsTracked, Identified, IdentifierOf;
  }

  lemma SameTracked(a: LabelMap, b: LabelMap, id: string)
    requires SameIdentity(a, b)
    ensures TrackedAs(a, id) <==> TrackedAs(b, id)
  {
    hide IsTracked, Identified, IdentifierOf;
  }

  /** An operation finishing at a provider keeps the account of every routed report under way there. */
  lemma FinishKeepsRight(s: State, a: Action, p: nat, job: Job)
    requires p < |s.nodes| && Locks(s) && Enabled(s, a) && a.Finish? && Site(s, a) == Some(p) && MidOk(s, p)
      && NodeOk(s, p)
    requires job.ReportJob? && job.via.Some? && RightPod(s.nodes[p], job)
    ensures |Next(s, a).nodes| == |s.nodes| && RightPod(Next(s, a).nodes[p], job)
  {
    FinishLabels(s, a, p, job.key);
    hide Next, Locks, MidOk, NodeOk, SameIdentity, TrackedAs, CreatedLabels, LastCreated, Enabled;
    var n, n' := s.nodes[p], Next(s, a).nodes[p];
    LastCreatedNext(n.history, n'.history[|n.history|], job.since, job.key);
    if job.key in n'.view.pods && job.key in n.view.pods
       && SameIdentity(n'.view.pods[job.key].labels, n.view.pods[job.key].labels) {
      SameTracked(n'.view.pods[job.key].labels, n.view.pods[job.key].labels, job.via.value);
    }
  }

  lemma OthersKeepRight(s: State, a: Action, p: nat, job: Job)
    requires p < |s.nodes| && Locks(s) && Enabled(s, a) && !a.Finish?
    requires job.ReportJob? && job.via.Some? && RightPod(s.nodes[p], job)
    ensures |Next(s, a).nodes| == |s.nodes| && RightPod(Next(s, a).nodes[p], job)
  {
    hide CallPod, UsesTracker, Written, NoWriterWaits, LastCreated, TrackedAs, CallsFor, Locks, Meta;
  }

  /** A lookup starts a report at the Pod the identifier belongs to at that moment. */
  lemma LookupStartsRight(s: State, a: Action)
    requires IndexInv(s) && Enabled(s, a) && a.Lookup?
    ensures a.t < |Next(s, a).threads| && RouteOk(Next(s, a), a.t)
  {
    var pc := s.threads[a.t];
    if pc.id in s.index.tracked {
      var info := s.index.tracked[pc.id];
      assert Points(s, info.provider, info.key, pc.id);
      assert Indexed(s, info.provider, info.key, pc.id);
      assert MidOk(s, info.provider);
      assert LastCreated(s.nodes[info.provider].history, |s.nodes[info.provider].history|, info.key) == None;
      hide TrackedAs, SameIdentity, Registers, LastCreated;
    }
  }

  lemma NextKeepsRoute(s: State, a: Action, t: nat)
    requires IndexInv(s) && Enabled(s, a) && t < |s.threads| && RouteOk(s, t)
    requires forall p: nat | p < |s.nodes| :: NodeOk(s, p)
    ensures |Next(s, a).threads| == |s.threads| && RouteOk(Next(s, a), t)
  {
    NextKeepsSizes(s, a);
    if a.Lookup? && a.t == t {
      LookupStartsRight(s, a);
    } else {
      RoutesPersist(s, a, t);
      var pc := Next(s, a).threads[t];
      if Routing(pc) && pc.p < |s.nodes| {
        hide Next, Unique, NonEmpty, Exact, RightPod, Routing, NodeOk;
        if a.Finish? && Site(s, a) == Some(pc.p) {
          assert MidOk(s, pc.p);
          FinishKeepsRight(s, a, pc.p, pc.job);
        } else if a.Finish? {
          Elsewhere(s, a, pc.p);
        } else {
          OthersKeepRight(s, a, pc.p, pc.job);
        }
      }
    }
  }

  /** Only a lookup begins a routed report; from then on its target stays the same. */
  lemma RoutesPersist(s: State, a: Action, t: nat)
    requires Enabled(s, a) && t < |s.threads| && !(a.Lookup? && a.t == t)
    ensures |Next(s, a).threads| == |s.threads|
    ensures var pc, pc' := s.threads[t], Next(s, a).threads[t];
            Routing(pc') ==> Routing(pc) && pc'.p == pc.p && pc'.job == pc.job
  {
    hide EnterView, EnterPod, CallView, CallPod, FinishView, Written, OpOf, NoWriterWaits, Registers;
  }

  lemma {:induction false} RoutesAlways(s: State, run: seq<Action>, t: nat)
    requires Initial(s) && AllRelied(s, run) && t < |s.threads|
    ensures |After(s, run).threads| == |s.threads| && RouteOk(After(s, run), t)
    decreases |run|
  {
    hide IndexInv, Next, AllRelied, Relied, RouteOk, Enabled, NodeOk;
    if run == [] {
      InitiallyRouted(s, t);
    } else {
      var before := After(s, run[..|run| - 1]);
      ReliedPrefix(s, run);
      RoutesAlways(s, run[..|run| - 1], t);
      IndexAlways(s, run[..|run| - 1]);
      SizesAlways(s, run[..|run| - 1]);
      forall p: nat | p < |before.nodes| ensures NodeOk(before, p) { Linearizable(s, run[..|run| - 1], p); }
      if Enabled(before, run[|run| - 1]) {
        NextKeepsRoute(before, run[|run| - 1], t);
      } else {
        DisabledStays(before, run[|run| - 1]);
      }
    }
  }

  lemma InitiallyRouted(s: State, t: nat)
    requires Initial(s) && t < |s.threads|
    ensures RouteOk(s, t)
  {
  }

  /**
   Delivery: at the moment a routed report takes effect, the Pod stored under its key, if any, bears the identifier the
   report was looked up by if and only if no Pod of that name was created since the lookup, or the last one created
   bears it too.
   */
  lemma DeliveredToTheRightPod(s: State, run: seq<Action>, t: nat)
    requires Initial(s) && AllRelied(s, run) && t < |s.threads| == |After(s, run).threads|
    requires Routing(After(s, run).threads[t]) && After(s, run).threads[t].p < |After(s, run).nodes|
    ensures var pc := After(s, run).threads[t];
            var n := After(s, run).nodes[pc.p];
            pc.job.key in n.view.pods ==>
              (TrackedAs(n.view.pods[pc.job.key].labels, pc.job.via.value) <==> StillMeant(n, pc.job))
  {
    RoutesAlways(s, run, t);
    hide After;
  }

  // Gone until created again

  lemma LawfulExtends(nodeName: string, ops: seq<Op>, op: Op)
    requires Lawful(nodeName, ops) && (op.Update? ==> op.pod.key in Replay(nodeName, ops).pods)
    ensures Lawful(nodeName, ops + [op])
  {
    hide Replay;
    var longer := ops + [op];
    forall i | 0 <= i < |longer| && longer[i].Update? ensures longer[i].pod.key in Replay(nodeName, longer[..i]).pods {
      if i < |ops| {
        assert longer[..i] == ops[..i];
      } else {
        assert longer[..i] == ops;
      }
    }
  }

  lemma LawfulStep(s: State, a: Action, p: nat)
    requires IndexInv(s) && Enabled(s, a) && p < |s.nodes| && NodeOk(s, p)
    requires Lawful(s.nodes[p].name, s.nodes[p].history)
    ensures |Next(s, a).nodes| == |s.nodes| && Next(s, a).nodes[p].name == s.nodes[p].name
    ensures Lawful(s.nodes[p].name, Next(s, a).nodes[p].history)
  {
    NextKeepsSizes(s, a);
    assert MidOk(s, p) && NodeLocks(s, p) && ThreadLocks(s, a.t);
    hide EnterPod, CallPod, UsesTracker, Written, NoWriterWaits, Replay, Lawful, SameIdentity, Exact, Unique, NonEmpty,
      CallsFor;
    if a.Finish? && s.threads[a.t].p == p {
      var pc, n := s.threads[a.t], s.nodes[p];
      LawfulExtends(n.name, n.history, OpOf(pc.job, pc.answer, a.now));
    }
  }

  /** Under every interleaving the updates a provider completes are of Pods it had stored. */
  lemma {:induction false} LawfulAlways(s: State, run: seq<Action>, p: nat)
    requires Initial(s) && AllRelied(s, run) && p < |s.nodes|
    ensures |After(s, run).nodes| == |s.nodes|
    ensures Lawful(s.nodes[p].name, After(s, run).nodes[p].history)
    decreases |run|
  {
    hide IndexInv, Next, AllRelied, Relied, Enabled, NodeOk, Lawful;
    if run == [] {
      EmptyIsLawful(s, p);
    } else {
      var before, a := After(s, run[..|run| - 1]), run[|run| - 1];
      ReliedPrefix(s, run);
      LawfulAlways(s, run[..|run| - 1], p);
      IndexAlways(s, run[..|run| - 1]);
      Linearizable(s, run[..|run| - 1], p);
      if Enabled(before, a) {
        LawfulStep(before, a, p);
      } else {
        DisabledStays(before, a);
      }
    }
  }

  lemma EmptyIsLawful(s: State, p: nat)
    requires Initial(s) && p < |s.nodes|
    ensures Lawful(s.nodes[p].name, s.nodes[p].history)
  {
  }

  /** A Pod and a cached status for it never coexist in a provider nobody is inside of. */
  lemma AlwaysDisjointConcurrently(s: State, run: seq<Action>, p: nat)
    requires Initial(s) && AllRelied(s, run) && p < |s.nodes|
    ensures var t := After(s, run);
            p < |t.nodes| && (t.nodes[p].mutex.None? ==> Disjoint(t.nodes[p].view))
  {
    LawfulAlways(s, run, p);
    QuietIsReplay(s, run, p);
    hide After, Lawful;
    AlwaysDisjoint(s.nodes[p].name, After(s, run).nodes[p].history);
  }

  lemma AppearsByCreation(nodeName: string, ops: seq<Op>, k: Key)
    requires ops != [] && Lawful(nodeName, ops) && !IsStored(ops[..|ops| - 1], k) && IsStored(ops, k)
    ensures ops[|ops| - 1].Create? && KeyOf(ops[|ops| - 1]) == k
  {
    LawfulPrefix(nodeName, ops);
    StateIsHistory(nodeName, ops[..|ops| - 1], k);
    hide Replay, Lawful, Given, Cached;
  }

  lemma {:induction false} AbsentUnlessCreated(nodeName: string, ops: seq<Op>, n: nat, k: Key)
    requires n <= |ops| && Lawful(nodeName, ops) && !IsStored(ops[..n], k)
    ensures IsStored(ops, k) ==> Recreated(ops, n, k)
    decreases |ops|
  {
    hide Lawful, IsStored, Recreated;
    if n == |ops| {
      assert ops[..n] == ops;
    } else {
      var before, op := ops[..|ops| - 1], ops[|ops| - 1];
      assert before + [op] == ops && before[..n] == ops[..n];
      RecreatedLater(before, op, n, k);
      LawfulPrefix(nodeName, ops);
      AbsentUnlessCreated(nodeName, before, n, k);
      if IsStored(ops, k) && !IsStored(before, k) {
        AppearsByCreation(nodeName, ops, k);
      }
    }
  }

  lemma LawfulPrefix(nodeName: string, ops: seq<Op>)
    requires ops != [] && Lawful(nodeName, ops)
    ensures Lawful(nodeName, ops[..|ops| - 1])
    ensures ops[|ops| - 1].Update? ==> ops[|ops| - 1].pod.key in Replay(nodeName, ops[..|ops| - 1]).pods
  {
    hide Replay;
    var before := ops[..|ops| - 1];
    forall i | 0 <= i < |before| && before[i].Update? ensures before[i].pod.key in Replay(nodeName, before[..i]).pods {
      assert before[..i] == ops[..i];
    }
  }

  /**
   With Virtual Kubelet keeping to its part: a Pod that is gone at one moment and there at a later one has been created
   in between. No report, no update, nothing in flight brings it back.
   */
  lemma GoneUntilCreated(s: State, run: seq<Action>, m: nat, p: nat, k: Key)
    requires Initial(s) && AllRelied(s, run) && m <= |run| && p < |s.nodes|
    requires |After(s, run[..m]).nodes| == |After(s, run).nodes| == |s.nodes|
    requires After(s, run[..m]).nodes[p].mutex.None? && k !in After(s, run[..m]).nodes[p].view.pods
    requires After(s, run).nodes[p].mutex.None? && k in After(s, run).nodes[p].view.pods
    ensures Recreated(After(s, run).nodes[p].history, |After(s, run[..m]).nodes[p].history|, k)
  {
    HistoryGrows(s, run, m, p);
    ConcurrentStateIsHistory(s, run[..m], p, k);
    ConcurrentStateIsHistory(s, run, p, k);
    LawfulAlways(s, run, p);
    hide After, Lawful, Recreated, AllRelied;
    var h0, h := After(s, run[..m]).nodes[p].history, After(s, run).nodes[p].history;
    assert h[..|h0|] == h0;
    AbsentUnlessCreated(s.nodes[p].name, h, |h0|, k);
  }

  // The exception happens

  lemma ReliedConcat(s: State, first: seq<Action>, second: seq<Action>)
    requires AllRelied(s, first) && AllRelied(After(s, first), second)
    ensures AllRelied(s, first + second)
  {
    hide Relied, After, AllRelied;
    var run := first + second;
    forall k: nat | k < |run| ensures Relied(After(s, run[..k]), run[k]) {
      if k < |first| {
        ReliedInFirst(s, first, second, k);
      } else {
        ReliedInSecond(s, first, second, k - |first|);
      }
    }
    ReliedThroughout(s, run);
  }

  lemma ReliedInFirst(s: State, first: seq<Action>, second: seq<Action>, k: nat)
    requires AllRelied(s, first) && k < |first|
    ensures Relied(After(s, (first + second)[..k]), (first + second)[k])
  {
    hide Relied, After;
    assert (first + second)[..k] == first[..k] && (first + second)[k] == first[k];
  }

  lemma ReliedInSecond(s: State, first: seq<Action>, second: seq<Action>, k: nat)
    requires AllRelied(After(s, first), second) && k < |second|
    ensures Relied(After(s, (first + second)[..|first| + k]), (first + second)[|first| + k])
  {
    hide Relied, After;
    assert (first + second)[..|first| + k] == first + second[..k] && (first + second)[|first| + k] == second[k];
    AfterConcat(s, first, second[..k]);
  }

  lemma ReliedThroughout(s: State, run: seq<Action>)
    requires forall k: nat | k < |run| :: Relied(After(s, run[..k]), run[k])
    ensures AllRelied(s, run)
  {
    hide Relied, After;
  }

  /** One provider, nobody inside of it, tracker free, thread 0 idle. */
  predicate Calm(s: State) {
    && |s.nodes| == 1 && |s.threads| == 2 && s.threads[0].Idle?
    && s.nodes[0].mutex.None? && s.index.writer.None? && s.index.readers == {}
  }

  /** The provider's next state when thread 0 runs one operation without interruption. */
  function Done(s: State, op: Op, tracked: map<string, Info>): State
    requires |s.nodes| == 1
  {
    var n := s.nodes[0];
    State(s.threads, [n.(view := Apply(n.name, n.view, op), history := n.history + [op])], s.index.(tracked := tracked))
  }

  lemma EmptyOwnsNothing(s: State, id: string)
    requires |s.nodes| == 1 && s.nodes[0].view.pods == map[] && id != ""
    requires Holding(Inside(s, 0)) && Inside(s, 0).job.CreateJob? ==> !Registers(Inside(s, 0).cur.labels)
    ensures Unclaimed(s, id)
  {
  }

  /** The same state with thread t elsewhere, the one provider changed, and another index. */
  function With(s: State, t: nat, pc: Pc, n: Node, index: Index): State
    requires t < |s.threads|
  {
    State(s.threads[t := pc], [n], index)
  }

  lemma StepInto(s: State, t: nat, job: Job)
    requires |s.nodes| == 1 && t < |s.threads| && s.threads[t] == WantProvider(0, job) && s.nodes[0].mutex.None?
    ensures Next(s, LockProvider(t))
         == With(s, t, Entered(0, job, EnterPod(s.nodes[0].view, job)),
                 s.nodes[0].(mutex := Some(t), view := EnterView(s.nodes[0].view, job)), s.index)
  {
    hide EnterPod, EnterView;
  }

  lemma StepCall(s: State, t: nat, job: Job, pod: PodView, answer: Answer)
    requires |s.nodes| == 1 && t < |s.threads| && s.threads[t] == Entered(0, job, pod)
    ensures var n, cur := s.nodes[0], CallPod(job, pod, answer);
            Next(s, CallAgent(t, answer))
            == With(s, t, if UsesTracker(n.view, job, cur) then WantTracker(0, job, cur, answer)
              else Closing(0, job, cur, answer),
                    n.(view := CallView(n.view, n.name, job, pod)), s.index)
  {
    hide CallPod, CallView, UsesTracker;
  }

  lemma StepWrite(s: State, t: nat, job: Job, cur: PodView, answer: Answer)
    requires |s.nodes| == 1 && t < |s.threads| && s.threads[t] == WantTracker(0, job, cur, answer)
    requires s.index.writer.None? && s.index.readers == {}
    ensures Enabled(s, LockTracker(t)) && Enabled(Next(s, LockTracker(t)), WriteTracker(t))
    ensures Next(Next(s, LockTracker(t)), WriteTracker(t))
         == With(s, t, Closing(0, job, cur, answer), s.nodes[0],
           s.index.(tracked := Written(s.index.tracked, 0, job, cur)))
  {
    hide Written;
    assert s.nodes == [s.nodes[0]];
  }

  lemma StepFinish(s: State, t: nat, job: Job, cur: PodView, answer: Answer, now: int)
    requires |s.nodes| == 1 && t < |s.threads| && s.threads[t] == Closing(0, job, cur, answer)
    ensures var n := s.nodes[0];
            Next(s, Finish(t, now))
            == With(s, t, Idle, Node(n.name, None, FinishView(n.view, job, cur, now),
              n.history + [OpOf(job, answer, now)]), s.index)
  {
    hide FinishView, OpOf;
  }

  /** Steps that are relied on for nothing. */
  lemma FreeSteps(s: State, a: Action)
    requires !a.LockProvider? && !a.CallAgent?
    ensures Relied(s, a)
  {
  }

  /** The actions of one operation of thread 0, with and without the tracker. */
  function Solo(job: Job, answer: Answer, now: int): seq<Action> {
    [Begin(0, 0, job), LockProvider(0), CallAgent(0, answer), LockTracker(0), WriteTracker(0), Finish(0, now)]
  }

  lemma WithTwice(s: State, t: nat, pc: Pc, n: Node, index: Index, pc': Pc, n': Node, index': Index)
    requires t < |s.threads|
    ensures With(With(s, t, pc, n, index), t, pc', n', index') == With(s, t, pc', n', index')
  {
    assert s.threads[t := pc][t := pc'] == s.threads[t := pc'];
  }

  /** The first half: up to waiting for the tracker. */
  lemma SoloEnter(s: State, job: Job, answer: Answer)
    requires Calm(s)
    requires var v := s.nodes[0].view;
             UsesTracker(EnterView(v, job), job, CallPod(job, EnterPod(v, job), answer))
    requires !job.ReportJob?
    requires Relied(s.(threads := s.threads[0 := WantProvider(0, job)]), LockProvider(0))
    requires var v := s.nodes[0].view;
             Relied(With(s, 0, Entered(0, job, EnterPod(v, job)),
               s.nodes[0].(mutex := Some(0), view := EnterView(v, job)),
                         s.index), CallAgent(0, answer))
    ensures var n, run := s.nodes[0], [Begin(0, 0, job), LockProvider(0), CallAgent(0, answer)];
            var view, pod := EnterView(n.view, job), EnterPod(n.view, job);
            && AllRelied(s, run)
            && After(s, run) == With(s, 0, WantTracker(0, job, CallPod(job, pod, answer), answer),
                                     n.(mutex := Some(0), view := CallView(view, n.name, job, pod)), s.index)
  {
    hide EnterPod, EnterView, CallPod, CallView, UsesTracker, Relied, With, AllRelied, After;
    var n, run := s.nodes[0], [Begin(0, 0, job), LockProvider(0), CallAgent(0, answer)];
    var view, pod := EnterView(n.view, job), EnterPod(n.view, job);
    var s1 := s.(threads := s.threads[0 := WantProvider(0, job)]);
    WantIsWith(s, WantProvider(0, job));
    StepInto(s1, 0, job);
    var n2 := n.(mutex := Some(0), view := view);
    WithTwice(s, 0, WantProvider(0, job), n, s.index, Entered(0, job, pod), n2, s.index);
    var s2 := With(s, 0, Entered(0, job, pod), n2, s.index);
    WithIs(s, 0, Entered(0, job, pod), n2, s.index);
    StepCall(s2, 0, job, pod, answer);
    var cur := CallPod(job, pod, answer);
    var n3 := n.(mutex := Some(0), view := CallView(view, n.name, job, pod));
    WithTwice(s, 0, Entered(0, job, pod), n2, s.index, WantTracker(0, job, cur, answer), n3, s.index);
    FreeSteps(s, run[0]);
    BeginsAlone(s, job);
    hide Next;
    ThreeSteps(s, run, s1, s2, With(s, 0, WantTracker(0, job, cur, answer), n3, s.index));
  }

  lemma BeginsAlone(s: State, job: Job)
    requires Calm(s) && !job.ReportJob?
    ensures Next(s, Begin(0, 0, job)) == s.(threads := s.threads[0 := WantProvider(0, job)])
  {
  }

  lemma WithIs(s: State, t: nat, pc: Pc, n: Node, index: Index)
    requires t < |s.threads|
    ensures var w := With(s, t, pc, n, index);
            |w.threads| == |s.threads| && w.threads[t] == pc && w.nodes == [n] && w.index == index
  {
  }

  lemma WantIsWith(s: State, pc: Pc)
    requires |s.nodes| == 1 && |s.threads| > 0
    ensures s.(threads := s.threads[0 := pc]) == With(s, 0, pc, s.nodes[0], s.index)
  {
    assert s.nodes == [s.nodes[0]];
  }

  /** The second half: from there to the end. */
  lemma SoloLeave(s: State, job: Job, cur: PodView, answer: Answer, now: int)
    requires |s.nodes| == 1 && |s.threads| > 0 && s.threads[0] == WantTracker(0, job, cur, answer)
    requires s.index.writer.None? && s.index.readers == {}
    ensures var n, run := s.nodes[0], [LockTracker(0), WriteTracker(0), Finish(0, now)];
            && AllRelied(s, run)
            && After(s, run)
               == With(s, 0, Idle, Node(n.name, None, FinishView(n.view, job, cur, now),
                 n.history + [OpOf(job, answer, now)]),
                       s.index.(tracked := Written(s.index.tracked, 0, job, cur)))
  {
    hide Written, FinishView, OpOf, Relied, With, AllRelied, After;
    var n, run := s.nodes[0], [LockTracker(0), WriteTracker(0), Finish(0, now)];
    var index := s.index.(tracked := Written(s.index.tracked, 0, job, cur));
    StepWrite(s, 0, job, cur, answer);
    var s1 := Next(s, run[0]);
    var s2 := With(s, 0, Closing(0, job, cur, answer), n, index);
    WithIs(s, 0, Closing(0, job, cur, answer), n, index);
    StepFinish(s2, 0, job, cur, answer, now);
    var n' := Node(n.name, None, FinishView(n.view, job, cur, now), n.history + [OpOf(job, answer, now)]);
    WithTwice(s, 0, Closing(0, job, cur, answer), n, index, Idle, n', index);
    FreeSteps(s, run[0]);
    FreeSteps(s1, run[1]);
    FreeSteps(s2, run[2]);
    hide Next;
    ThreeSteps(s, run, s1, s2, With(s, 0, Idle, n', index));
  }

  lemma SoloRun(s: State, job: Job, answer: Answer, now: int)
    requires Calm(s) && !job.ReportJob?
    requires var v := s.nodes[0].view;
             UsesTracker(EnterView(v, job), job, CallPod(job, EnterPod(v, job), answer))
    requires Relied(s.(threads := s.threads[0 := WantProvider(0, job)]), LockProvider(0))
    requires var v := s.nodes[0].view;
             Relied(With(s, 0, Entered(0, job, EnterPod(v, job)),
               s.nodes[0].(mutex := Some(0), view := EnterView(v, job)),
                         s.index), CallAgent(0, answer))
    ensures AllRelied(s, Solo(job, answer, now))
    ensures var pod := CallPod(job, EnterPod(s.nodes[0].view, job), answer);
            After(s, Solo(job, answer, now)) == Done(s, OpOf(job, answer, now), Written(s.index.tracked, 0, job, pod))
  {
    hide EnterPod, EnterView, CallPod, CallView, UsesTracker, Written, FinishView, OpOf, Relied, Apply, After,
      AllRelied, Next;
    var n := s.nodes[0];
    var enter, leave := [Begin(0, 0, job), LockProvider(0), CallAgent(0, answer)],
                        [LockTracker(0), WriteTracker(0), Finish(0, now)];
    var pod := EnterPod(n.view, job);
    var cur := CallPod(job, pod, answer);
    var n3 := n.(mutex := Some(0), view := CallView(EnterView(n.view, job), n.name, job, pod));
    SoloEnter(s, job, answer);
    var s3 := With(s, 0, WantTracker(0, job, cur, answer), n3, s.index);
    SoloLeave(s3, job, cur, answer, now);
    PartsMakeOp(n.view, n.name, job, answer, now);
    AfterConcat(s, enter, leave);
    ReliedConcat(s, enter, leave);
    assert enter + leave == Solo(job, answer, now);
    assert s.threads[0 := WantTracker(0, job, cur, answer)][0 := Idle] == s.threads;
  }

  lemma ThreeSteps(s: State, run: seq<Action>, s1: State, s2: State, s3: State)
    requires |run| == 3 && Next(s, run[0]) == s1 && Next(s1, run[1]) == s2 && Next(s2, run[2]) == s3
    requires Relied(s, run[0]) && Relied(s1, run[1]) && Relied(s2, run[2])
    ensures After(s, run) == s3 && AllRelied(s, run)
  {
    hide Next, Relied;
    assert run[..2][..1] == run[..1] && run[..1][..0] == [] && run[..0] == [];
    assert After(s, run[..0]) == s;
    assert After(s, run[..1]) == s1;
    assert After(s, run[..2]) == s2;
  }

  /** Thread 0 creates a user's Pod at an empty provider and the agent gives it a job id. */
  lemma CreateAlone(s: State, pod: PodView, meta: WorkloadMeta, now: int)
    requires Calm(s) && s.nodes[0].view.pods == map[] && s.nodes[0].view.pending == map[]
    requires NeedsDispatch(pod.labels) && meta.identifier != ""
    ensures var labels, run := Applied(meta, pod.labels), Solo(CreateJob(pod), Accepted(meta), now);
            && AllRelied(s, run)
            && After(s, run) == Done(s, Create(pod, Accepted(meta), now),
                                     s.index.tracked[meta.identifier := Info(pod.key, labels, 0)])
  {
    var answer, job, n := Accepted(meta), CreateJob(pod), s.nodes[0];
    AppliedKeepsKind(answer, pod.labels);
    hide IsTracked, Identified, IdentifierOf, Applied, Converted, Meta;
    var entered := With(s, 0, Entered(0, job, pod), n.(mutex := Some(0), view := EnterView(n.view, job)), s.index);
    EmptyOwnsNothing(entered, meta.identifier);
    assert Relied(s.(threads := s.threads[0 := WantProvider(0, job)]), LockProvider(0));
    assert Relied(entered, CallAgent(0, answer));
    assert UsesTracker(EnterView(n.view, job), job, CallPod(job, pod, answer));
    assert OpOf(job, answer, now) == Create(pod, answer, now);
    assert Written(s.index.tracked, 0, job, CallPod(job, pod, answer))
        == s.index.tracked[meta.identifier := Info(pod.key, Applied(meta, pod.labels), 0)];
    hide Relied, Done, Solo, After, AllRelied, Unclaimed, UsesTracker, Written, OpOf;
    SoloRun(s, job, answer, now);
  }

  /** Thread 0 deletes the provider's only Pod. */
  lemma DeleteAlone(s: State, pod: PodView, now: int)
    requires Calm(s) && s.nodes[0].view.pods.Keys == {pod.key} && s.nodes[0].view.pods[pod.key].labels == pod.labels
    requires Registers(pod.labels)
    ensures var run := Solo(DeleteJob(pod), Rejected, now);
            && AllRelied(s, run)
            && After(s, run) == Done(s, Delete(pod, now), s.index.tracked - {IdentifierOf(pod.labels)})
  {
    var job := DeleteJob(pod);
    hide IsTracked, Identified, IdentifierOf, Meta;
    assert Relied(s.(threads := s.threads[0 := WantProvider(0, job)]), LockProvider(0));
    assert OpOf(job, Rejected, now) == Delete(pod, now);
    SoloRun(s, job, Rejected, now);
  }

  /** Thread 1 looks an identifier up and is then about to call the provider. */
  lemma RouteAlone(s: State, id: string, status: Status)
    requires Calm(s) && s.threads[1].Idle? && id in s.index.tracked && s.index.tracked[id].provider == 0
    ensures var run := Ask(id, status);
            && AllRelied(s, run)
            && After(s, run) == s.(threads := s.threads[1 := WantProvider(0,
                 ReportJob(s.index.tracked[id].key, status, false, Some(id), |s.nodes[0].history|))])
  {
    var run, index := Ask(id, status), s.index;
    var s1 := s.(threads := s.threads[1 := WantLookup(id, status, false)]);
    var s2 := s.(threads := s.threads[1 := HaveLookup(id, status, false)], index := index.(readers := {1}));
    var s3 := s.(threads := s.threads[1 := Routed(s, id, status, false)]);
    assert Next(s, run[0]) == s1;
    StepReadLock(s1, id, status);
    StepRead(s2, id, status);
    assert Routed(s2, id, status, false) == Routed(s, id, status, false);
    assert s2.index.(readers := {}) == index;
    assert s1.threads[1 := s2.threads[1]] == s2.threads && s2.threads[1 := s3.threads[1]] == s3.threads;
    FreeSteps(s, run[0]);
    FreeSteps(s1, run[1]);
    FreeSteps(s2, run[2]);
    hide Next, Routed;
    ThreeSteps(s, run, s1, s2, s3);
  }

  /** Thread 1 calls the tracker. */
  function Ask(id: string, status: Status): seq<Action> {
    [BeginRoute(1, id, status, false), LockLookup(1), Lookup(1)]
  }

  lemma StepReadLock(s: State, id: string, status: Status)
    requires |s.threads| == 2 && s.threads[0].Idle? && s.threads[1] == WantLookup(id, status, false)
    requires s.index.writer.None? && s.index.readers == {}
    ensures Next(s, LockLookup(1))
         == s.(threads := s.threads[1 := HaveLookup(id, status, false)], index := s.index.(readers := {1}))
  {
    assert NoWriterWaits(s);
    assert s.index.readers + {1} == {1};
  }

  lemma StepRead(s: State, id: string, status: Status)
    requires |s.threads| == 2 && s.threads[1] == HaveLookup(id, status, false) && s.index.readers == {1}
    ensures Next(s, Lookup(1))
         == s.(threads := s.threads[1 := Routed(s, id, status, false)], index := s.index.(readers := {}))
  {
    hide Routed;
    assert s.index.readers - {1} == {};
  }

  /** Thread 1 delivers. */
  lemma DeliverAlone(s: State, job: Job, now: int)
    requires Calm(s) && s.threads[1] == WantProvider(0, job) && job.ReportJob?
    ensures var run, n := [LockProvider(1), CallAgent(1, Rejected), Finish(1, now)], s.nodes[0];
            && AllRelied(s, run)
            && After(s, run) == State(s.threads[1 := Idle],
                 [n.(view := Reported(n.view, job.key, job.status, job.cache, now),
                     history := n.history + [Report(job.key, job.status, job.cache, now)])], s.index)
  {
    hide Changed, Told, With, AllRelied, After, Reported;
    var run, n := [LockProvider(1), CallAgent(1, Rejected), Finish(1, now)], s.nodes[0];
    var pod, busy := JobPod(job), n.(mutex := Some(1));
    StepInto(s, 1, job);
    WithIs(s, 1, Entered(0, job, pod), busy, s.index);
    var s1 := With(s, 1, Entered(0, job, pod), busy, s.index);
    StepCall(s1, 1, job, pod, Rejected);
    assert n.view.calls + [] == n.view.calls;
    WithTwice(s, 1, Entered(0, job, pod), busy, s.index, Closing(0, job, pod, Rejected), busy, s.index);
    WithIs(s, 1, Closing(0, job, pod, Rejected), busy, s.index);
    var s2 := With(s, 1, Closing(0, job, pod, Rejected), busy, s.index);
    StepFinish(s2, 1, job, pod, Rejected, now);
    var n' := n.(view := Reported(n.view, job.key, job.status, job.cache, now),
                 history := n.history + [Report(job.key, job.status, job.cache, now)]);
    WithTwice(s, 1, Closing(0, job, pod, Rejected), busy, s.index, Idle, n', s.index);
    DeliveryIsRelied(s, s1, job);
    FreeSteps(s2, run[2]);
    hide Next;
    ThreeSteps(s, run, s1, s2, With(s, 1, Idle, n', s.index));
    LastWith(s, n');
  }

  lemma LastWith(s: State, n: Node)
    requires |s.threads| == 2
    ensures With(s, 1, Idle, n, s.index) == State(s.threads[1 := Idle], [n], s.index)
  {
  }

  lemma DeliveryIsRelied(s: State, s1: State, job: Job)
    requires job.ReportJob? && |s.threads| == 2 && s.threads[1] == WantProvider(0, job)
    requires |s1.threads| == 2 && s1.threads[1] == Entered(0, job, JobPod(job))
    ensures Relied(s, LockProvider(1)) && Relied(s1, CallAgent(1, Rejected))
  {
  }

  const FRESH := State([Idle, Idle], [Node("n", None, EMPTY, [])], Index(None, {}, map[]))

  /** What a provider knows after creating a user's Pod while empty. */
  lemma CreatedAlone(v: View, nodeName: string, pod: PodView, meta: WorkloadMeta, now: int)
    requires v.pods == map[] && v.pending == map[] && NeedsDispatch(pod.labels)
    ensures var w := Apply(nodeName, v, Create(pod, Accepted(meta), now));
            && w.pods.Keys == {pod.key} && w.pending == map[]
            && w.pods[pod.key].key == pod.key && w.pods[pod.key].labels == Applied(meta, pod.labels)
            && w.pods[pod.key].status.phase == pod.status.phase
  {
    hide IsTracked, Identified, Applied, Converted, Meta;
  }

  /** Up to the delivery: created with job `a`, looked up, deleted, created again with job `b`. */
  lemma Prepare(first: PodView, second: PodView, a: WorkloadMeta, b: WorkloadMeta, status: Status, now: int)
      returns (run: seq<Action>, end: State)
    requires NeedsDispatch(first.labels) && NeedsDispatch(second.labels) && first.key == second.key
    requires a.identifier != "" && b.identifier != ""
    ensures AllRelied(FRESH, run) && After(FRESH, run) == end && Calm(end)
    ensures end.threads[1] == WantProvider(0, ReportJob(first.key, status, false, Some(a.identifier), 1))
    ensures var v := end.nodes[0].view;
            && v.pods.Keys == {first.key} && v.pods[first.key].labels == Applied(b, second.labels)
            && v.pods[first.key].status.phase == second.status.phase
  {
    hide IsTracked, Identified, IdentifierOf, Applied, Converted, Meta, Apply, Solo, AllRelied, After, NeedsDispatch;
    AppliedKeepsKind(Accepted(a), first.labels);
    CreateAlone(FRESH, first, a, now);
    CreatedAlone(EMPTY, "n", first, a, now);
    var r1 := Solo(CreateJob(first), Accepted(a), now);
    var s1 := After(FRESH, r1);
    var bearer := s1.nodes[0].view.pods[first.key];
    RouteAlone(s1, a.identifier, status);
    var r2 := Ask(a.identifier, status);
    var s2 := After(s1, r2);
    TrackedIfDispatched(first.labels, a);
    DeleteAlone(s2, bearer, now);
    DeletedAlone(s2.nodes[0].view, "n", bearer, now);
    var r3 := Solo(DeleteJob(bearer), Rejected, now);
    var s3 := After(s2, r3);
    CreateAlone(s3, second, b, now);
    CreatedAlone(s3.nodes[0].view, "n", second, b, now);
    var r4 := Solo(CreateJob(second), Accepted(b), now);
    end := After(s3, r4);
    run := Chain(FRESH, r1, s1, r2, s2, r3, s3, r4);
  }

  lemma TrackedIfDispatched(labels: LabelMap, meta: WorkloadMeta)
    requires NeedsDispatch(labels)
    ensures Registers(Applied(meta, labels))
  {
    AppliedKeepsKind(Accepted(meta), labels);
  }

  lemma DeletedAlone(v: View, nodeName: string, pod: PodView, now: int)
    requires v.pods.Keys == {pod.key} && v.pending == map[]
    ensures var w := Apply(nodeName, v, Delete(pod, now)); w.pods == map[] && w.pending == map[]
  {
    hide IsTracked, Changed, Meta;
  }

  lemma Chain(s: State, r1: seq<Action>, s1: State, r2: seq<Action>, s2: State, r3: seq<Action>, s3: State,
    r4: seq<Action>)
      returns (run: seq<Action>)
    requires AllRelied(s, r1) && After(s, r1) == s1 && AllRelied(s1, r2) && After(s1, r2) == s2
    requires AllRelied(s2, r3) && After(s2, r3) == s3 && AllRelied(s3, r4)
    ensures AllRelied(s, run) && After(s, run) == After(s3, r4)
  {
    hide AllRelied, After;
    AfterConcat(s, r1, r2);
    ReliedConcat(s, r1, r2);
    AfterConcat(s, r1 + r2, r3);
    ReliedConcat(s, r1 + r2, r3);
    AfterConcat(s, r1 + r2 + r3, r4);
    ReliedConcat(s, r1 + r2 + r3, r4);
    run := r1 + r2 + r3 + r4;
  }

  /**
   The exception is real, with everyone keeping to what is relied on: a status looked up for job `a` is applied to a new
   Pod of the same name that belongs to job `b`.
   */
  lemma StaleDelivery(first: PodView, second: PodView, a: WorkloadMeta, b: WorkloadMeta, status: Status, now: int)
      returns (run: seq<Action>, deliver: seq<Action>)
    requires NeedsDispatch(first.labels) && NeedsDispatch(second.labels) && first.key == second.key
    requires a.identifier != "" && b.identifier != "" && a.identifier != b.identifier
    requires status.phase != second.status.phase
    ensures Initial(FRESH) && AllRelied(FRESH, run + deliver)
    ensures var before, end := After(FRESH, run), After(FRESH, run + deliver);
            && |before.threads| == 2 && Routing(before.threads[1]) && before.threads[1].job.via == Some(a.identifier)
            && !before.threads[1].job.cache
            && |end.threads| == 2 && end.threads[1] == Idle && |end.nodes| == 1
            && first.key in end.nodes[0].view.pods
            && IdentifierOf(end.nodes[0].view.pods[first.key].labels) == b.identifier
            && end.nodes[0].view.pods[first.key].status.phase == status.phase
  {
    AppliedKeepsKind(Accepted(b), second.labels);
    hide IsTracked, Identified, IdentifierOf, Applied, After, AllRelied, NeedsDispatch, Changed;
    var mid: State;
    run, mid := Prepare(first, second, a, b, status, now);
    deliver := [LockProvider(1), CallAgent(1, Rejected), Finish(1, now)];
    DeliverAlone(mid, mid.threads[1].job, now);
    ReportEffect(mid.nodes[0].view, first.key, status, false, now);
    AfterConcat(FRESH, run, deliver);
    ReliedConcat(FRESH, run, deliver);
  }
}
