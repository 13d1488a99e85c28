/**
 What a container's status keeps and what it loses over a Pod's life. changePhase carries restart counts and start times
 over from the status the Pod has when it is called; but a creation, an update and a report each put another status
 there first, so what counts is the status that was last given, not the one the provider had.
 */
module StatusHistory {
  import opened Wrappers
  import opened PodStatus
  import opened Provider
  import opened ProviderHistory

  /** `j` is the last status for a container of that name. */
  ghost predicate LastOf(statuses: seq<ContainerStatus>, name: string, j: nat) {
    && j < |statuses| && statuses[j].name == name
    && forall l | j < l < |statuses| :: statuses[l].name != name
  }

  /** Container `name` was running since t, as far as these statuses say. */
  ghost predicate RanSince(statuses: seq<ContainerStatus>, name: string, t: int) {
    exists j: nat :: LastOf(statuses, name, j) && statuses[j].state == RunningSince(Some(t))
  }

  ghost predicate Mentions(statuses: seq<ContainerStatus>, name: string) {
    exists j | 0 <= j < |statuses| :: statuses[j].name == name
  }

  predicate Terminal(phase: Phase) { phase == Succeeded || phase == Failed }

  /** What is carried over for a name is what its last status says. */
  lemma {:induction false} CarriedFrom(statuses: seq<ContainerStatus>, name: string)
    ensures name in Carried(statuses) <==> Mentions(statuses, name)
    ensures forall j: nat | LastOf(statuses, name, j) ::
              && name in Carried(statuses)
              && Carried(statuses)[name]
                 == (if statuses[j].state.RunningSince? then statuses[j].state.startedAt
                   else None, statuses[j].restarts)
    decreases |statuses|
  {
    if statuses != [] {
      var before, last := statuses[..|statuses| - 1], statuses[|statuses| - 1];
      CarriedFrom(before, name);
      if last.name != name {
        forall j: nat ensures LastOf(statuses, name, j) <==> LastOf(before, name, j) {
        }
        assert Mentions(statuses, name) <==> Mentions(before, name) by {
          if j :| 0 <= j < |statuses| && statuses[j].name == name {
            assert before[j].name == name;
          }
        }
      }
    }
  }

  lemma {:induction false} MentionedHasLast(statuses: seq<ContainerStatus>, name: string) returns (j: nat)
    requires Mentions(statuses, name)
    ensures LastOf(statuses, name, j)
    decreases |statuses|
  {
    var n := |statuses| - 1;
    if statuses[n].name == name {
      j := n;
    } else {
      var before := statuses[..n];
      var i :| 0 <= i < |statuses| && statuses[i].name == name;
      assert before[i].name == name;
      j := MentionedHasLast(before, name);
    }
  }

  lemma StartCarried(statuses: seq<ContainerStatus>, name: string, t: int)
    ensures (name in Carried(statuses) && Carried(statuses)[name].0 == Some(t)) <==> RanSince(statuses, name, t)
  {
    CarriedFrom(statuses, name);
    hide Carried;
    if name in Carried(statuses) {
      var j := MentionedHasLast(statuses, name);
    }
  }

  /** Container i of a stored Pod, in terms of the status last given. */
  lemma ContainerMade(nodeName: string, ops: seq<Op>, k: Key, i: nat)
    requires k in Replay(nodeName, ops).pods && i < |Replay(nodeName, ops).pods[k].status.containers|
    ensures Given(ops, k).Some?
    ensures var g := Given(ops, k).value;
            && i < |g.containers|
            && Replay(nodeName, ops).pods[k].status.containers[i]
               == ContainerIn(g.status.phase, g.containers[i], Carried(g.status.containers), g.at)
  {
    StateIsHistory(nodeName, ops, k);
    hide Replay, Given, Carried, IsStored, Cached;
  }

  /**
   Over every history: a stored Pod's container is terminated exactly in a terminal phase, and then its start time is t
   if and only if the status last given said that container was running since t.
   */
  lemma StartKnownIff(nodeName: string, ops: seq<Op>, k: Key, i: nat, t: int)
    requires k in Replay(nodeName, ops).pods && i < |Replay(nodeName, ops).pods[k].status.containers|
    ensures var c := Replay(nodeName, ops).pods[k].status.containers[i];
            && Given(ops, k).Some?
            && var g := Given(ops, k).value;
               && (c.state.Terminated? <==> Terminal(g.status.phase))
               && (c.state.Terminated? ==>
                     c.state.finishedAt == g.at
                       && (c.state.startedAt == Some(t) <==> RanSince(g.status.containers, c.name, t)))
  {
    ContainerMade(nodeName, ops, k, i);
    var g := Given(ops, k).value;
    StartCarried(g.status.containers, g.containers[i].name, t);
    hide Replay, Given, Carried, RanSince;
  }

  /** And its restart count is the one the status last given has for the container, zero if it has none. */
  lemma RestartsAreGiven(nodeName: string, ops: seq<Op>, k: Key, i: nat)
    requires k in Replay(nodeName, ops).pods && i < |Replay(nodeName, ops).pods[k].status.containers|
    ensures var c := Replay(nodeName, ops).pods[k].status.containers[i];
            && Given(ops, k).Some?
            && var given := Given(ops, k).value.status.containers;
               && (!Mentions(given, c.name) ==> c.restarts == 0)
               && (forall j: nat | LastOf(given, c.name, j) :: c.restarts == given[j].restarts)
  {
    ContainerMade(nodeName, ops, k, i);
    var g := Given(ops, k).value;
    CarriedFrom(g.status.containers, g.containers[i].name);
    hide Replay, Given, Carried, Mentions, LastOf;
  }

  /** A container no status speaks of, put into a phase. */
  function Fresh(phase: Phase, c: Container, now: int): ContainerStatus { ContainerIn(phase, c, map[], now) }

  lemma BareReport(v: View, k: Key, phase: Phase, message: string, conditions: seq<Condition>, cache: bool, now: int,
    i: nat)
    requires k in v.pods && v.pods[k].status.phase != phase && i < |v.pods[k].containers|
    ensures var w := Reported(v, k, Status(phase, message, conditions, []), cache, now);
            && k in w.pods && i < |w.pods[k].status.containers|
            && w.pods[k].status.containers[i] == Fresh(phase, v.pods[k].containers[i], now)
  {
    hide ContainerIn, ConditionsIn;
  }

  lemma FreshContainer(phase: Phase, c: Container, now: int)
    ensures var s := Fresh(phase, c, now);
            && s.restarts == 0
            && (Terminal(phase) ==>
                  s.state == if phase == Succeeded then Terminated(0, "Completed", None, now)
                    else Terminated(1, "Error", None, now))
  {
  }

  lemma ReplayNext(nodeName: string, ops: seq<Op>, op: Op)
    ensures Replay(nodeName, ops + [op]) == Apply(nodeName, Replay(nodeName, ops), op)
  {
    hide Apply;
    assert (ops + [op])[..|ops|] == ops;
  }

  /**
   A report without container statuses, as the workload reconciler makes them, that changes the phase forgets both.
   */
  lemma BareReportForgets(nodeName: string, ops: seq<Op>, k: Key, phase: Phase, message: string,
    conditions: seq<Condition>,
                          cache: bool, now: int, i: nat)
    requires k in Replay(nodeName, ops).pods && Replay(nodeName, ops).pods[k].status.phase != phase
    requires i < |Replay(nodeName, ops).pods[k].containers|
    ensures var v := Replay(nodeName, ops + [Report(k, Status(phase, message, conditions, []), cache, now)]);
            && k in v.pods && i < |v.pods[k].status.containers|
            && var c := v.pods[k].status.containers[i];
               && c.restarts == 0
               && (Terminal(phase) ==>
                     c.state == if phase == Succeeded then Terminated(0, "Completed", None, now)
                       else Terminated(1, "Error", None, now))
  {
    hide Replay, Reported, Fresh;
    var v := Replay(nodeName, ops);
    ReplayNext(nodeName, ops, Report(k, Status(phase, message, conditions, []), cache, now));
    BareReport(v, k, phase, message, conditions, cache, now, i);
    FreshContainer(phase, v.pods[k].containers[i], now);
  }

  /** CreatePod of a Pod whose phase is Running, whoever gave that phase. */
  lemma CreatedRunning(nodeName: string, before: seq<Op>, pod: PodView, answer: Answer, now: int, i: nat)
    requires i < |pod.containers| && !(NeedsDispatch(pod.labels) && answer.Rejected?)
    requires (if Cached(before, pod.key).Some? then Cached(before, pod.key).value else pod.status).phase == Running
    ensures var v := Replay(nodeName, before + [Create(pod, answer, now)]);
            && pod.key in v.pods && v.pods[pod.key].status.phase == Running
            && v.pods[pod.key].containers == pod.containers
            && i < |v.pods[pod.key].status.containers|
            && v.pods[pod.key].status.containers[i].state == RunningSince(Some(now))
  {
    var ops := before + [Create(pod, answer, now)];
    assert ops[..|before|] == before;
    StateIsHistory(nodeName, ops, pod.key);
    hide Replay, Carried, IsStored;
    assert Given(ops, pod.key).value.status.phase == Running;
    assert IsStored(ops, pod.key) by { StoredByCreation(before, pod, answer, now); }
  }

  lemma StoredByCreation(before: seq<Op>, pod: PodView, answer: Answer, now: int)
    ensures IsStored(before + [Create(pod, answer, now)], pod.key)
  {
    assert (before + [Create(pod, answer, now)])[..|before|] == before;
  }

  /**
   So the ordinary end of a job forgets when its containers started: whatever came before, a Pod created running at t0
   whose success is then reported without container statuses has its containers running since t0 before the report, and
   terminated without a start time after it.
   */
  lemma OrdinaryEndForgetsStart(nodeName: string, before: seq<Op>, pod: PodView, answer: Answer, t0: int, cache: bool,
                                t1: int, i: nat)
    requires i < |pod.containers| && !(NeedsDispatch(pod.labels) && answer.Rejected?)
    requires (if Cached(before, pod.key).Some? then Cached(before, pod.key).value else pod.status).phase == Running
    ensures var created := before + [Create(pod, answer, t0)];
            var v := Replay(nodeName, created);
            var w := Replay(nodeName, created + [Report(pod.key, Status(Succeeded, "", [], []), cache, t1)]);
            && pod.key in v.pods && i < |v.pods[pod.key].status.containers|
            && v.pods[pod.key].status.containers[i].state == RunningSince(Some(t0))
            && pod.key in w.pods && i < |w.pods[pod.key].status.containers|
            && w.pods[pod.key].status.containers[i].state == Terminated(0, "Completed", None, t1)
  {
    hide Replay;
    CreatedRunning(nodeName, before, pod, answer, t0, i);
    BareReportForgets(nodeName, before + [Create(pod, answer, t0)], pod.key, Succeeded, "", [], cache, t1, i);
  }

  lemma MadeIsCoherent(s: Status, containers: seq<Container>, phase: Phase, message: string, now: int)
    ensures Coherent(Told(s, containers, phase, message, now))
      && Told(s, containers, phase, message, now).phase == phase
  {
    ChangedIsCoherent(s, containers, phase, now);
    hide Changed, ConditionsFollow, StateFollows;
  }

  lemma {:induction false} NotedIsCoherent(nodeName: string, ops: seq<Op>, n: nat)
    requires n < |Replay(nodeName, ops).notes|
    ensures Coherent(Replay(nodeName, ops).notes[n].status)
    decreases |ops|
  {
    hide Coherent, Told;
    if ops != [] {
      var v, op := Replay(nodeName, ops[..|ops| - 1]), ops[|ops| - 1];
      if n < |v.notes| {
        NotedIsCoherent(nodeName, ops[..|ops| - 1], n);
      }
      NotedByOne(nodeName, v, op, n);
    }
  }

  lemma NotedByOne(nodeName: string, v: View, op: Op, n: nat)
    requires n < |Apply(nodeName, v, op).notes|
    ensures if n < |v.notes| then Apply(nodeName, v, op).notes[n] == v.notes[n]
            else Coherent(Apply(nodeName, v, op).notes[n].status)
  {
    hide Coherent, Told, IsTracked, Labels.Meta, Converted, Dispatched, Loaded;
    if n >= |v.notes| {
      match op {
        case Create(pod, answer, now) =>
          var d := Dispatched(Loaded(v.pending, pod), answer);
          MadeIsCoherent(d.status, d.containers, d.status.phase, CREATED, now);
        case Update(pod, now) => MadeIsCoherent(pod.status, pod.containers, pod.status.phase, UPDATED, now);
        case Delete(pod, now) => MadeIsCoherent(pod.status, pod.containers, Succeeded, DELETED, now);
        case Report(key, status, _, now) =>
          MadeIsCoherent(status, v.pods[key].containers, status.phase, STATUS_UPDATED, now);
      }
    }
  }

  /**
   Over every history, every stored status and every one Virtual Kubelet was ever told of is coherent: Ready and the
   containers say what the phase says, a queued Pod is never Ready.
   */
  lemma AlwaysCoherent(nodeName: string, ops: seq<Op>)
    ensures var v := Replay(nodeName, ops);
            && (forall k | k in v.pods :: Coherent(v.pods[k].status))
            && (forall n | 0 <= n < |v.notes| :: Coherent(v.notes[n].status))
  {
    hide Replay, Coherent;
    var v := Replay(nodeName, ops);
    forall k | k in v.pods ensures Coherent(v.pods[k].status) {
      StateIsHistory(nodeName, ops, k);
      var g := Given(ops, k).value;
      MadeIsCoherent(g.status, g.containers, g.status.phase, g.message, g.at);
    }
    forall n | 0 <= n < |v.notes| ensures Coherent(v.notes[n].status) {
      NotedIsCoherent(nodeName, ops, n);
    }
  }

  /** What Virtual Kubelet is told of a deleted Pod follows the status it hands over with the deletion. */
  lemma DeletionKeepsStartIff(nodeName: string, v: View, pod: PodView, now: int, i: nat, t: int)
    requires pod.key in v.pods && i < |pod.containers|
    ensures var notes := Apply(nodeName, v, Delete(pod, now)).notes;
            && |notes| == |v.notes| + 1 && i < |notes[|v.notes|].status.containers|
            && var state := notes[|v.notes|].status.containers[i].state;
               && state.Terminated? && state.finishedAt == now
               && (state.startedAt == Some(t) <==> RanSince(pod.status.containers, pod.containers[i].name, t))
  {
    StartCarried(pod.status.containers, pod.containers[i].name, t);
    hide IsTracked, Labels.Meta, Carried, RanSince;
  }
}
