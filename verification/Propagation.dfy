/**
 From a committed workload pass to the Pods' phases: the status pushes of the pass (workload/reconciler.go) go through
 the node reconciler to the providers of untracked Pods, and through the tracker to the providers of tracked ones.
 */
module Propagation {
  import opened Wrappers
  import opened Text
  import opened PodStatus
  import opened Provider
  import opened Naming
  import Nodes
  import Protocol
  import ProtocolIndex
  import ProviderHistory
  import Pass = WorkloadReconciler

  /** The providers by their number, which is that of their node's instance. */
  datatype World = World(nodes: Nodes.State, tracked: map<string, Info>, providers: map<nat, View>)

  /** Where a push ends up and what it says there. */
  datatype Aim = Aim(provider: nat, key: Key, status: Status, cache: bool)

  function PodKey(pod: UntrackedPod): Key { Key(pod.name, NAMESPACE_WORKLOAD) }

  function StatusOf(pod: UntrackedPod): Status { Status(pod.phase, "", [], []) }

  function AimOf(w: World, push: Pass.Push): Option<Aim> {
    match push
    case ToProvider(pod) =>
      var route := Nodes.Route(w.nodes, if pod.node.Some? then pod.node.value else "");
      if route.None? then None else Some(Aim(route.value, PodKey(pod), StatusOf(pod), true))
    case ToTracker(pod) =>
      var id := IdentifierOf(pod.labels);
      if id !in w.tracked then None else Some(Aim(w.tracked[id].provider, w.tracked[id].key, StatusOf(pod), false))
  }

  function Delivered(w: World, push: Pass.Push, now: int): World {
    var aim := AimOf(w, push);
    if aim.None? || aim.value.provider !in w.providers then w
    else
      var a := aim.value;
      w.(providers := w.providers[a.provider := Reported(w.providers[a.provider], a.key, a.status, a.cache, now)])
  }

  /** All pushes in order, the k-th at the clock's k-th reading, and nothing else meanwhile. */
  function AllDelivered(w: World, pushes: seq<Pass.Push>, clock: nat -> int): World {
    if pushes == [] then w
    else Delivered(AllDelivered(w, pushes[..|pushes| - 1], clock), pushes[|pushes| - 1], clock(|pushes| - 1))
  }

  predicate IsStored(w: World, provider: nat, key: Key) {
    provider in w.providers && key in w.providers[provider].pods
  }

  /** The phase the provider has for a Pod, stored or cached. */
  function PhaseAt(w: World, provider: nat, key: Key): Option<Phase> {
    if provider !in w.providers then None
    else
      var v := w.providers[provider];
      if key in v.pods then Some(v.pods[key].status.phase)
      else if key in v.pending then Some(v.pending[key].phase)
      else None
  }

  /** The push changes what the provider has for the Pod, or would if it differed. */
  predicate Hits(w: World, push: Pass.Push, provider: nat, key: Key) {
    var aim := AimOf(w, push);
    && aim.Some? && aim.value.provider == provider && aim.value.key == key
    && provider in w.providers && (aim.value.cache || IsStored(w, provider, key))
  }

  /** What deliveries leave alone. */
  ghost predicate SameShape(w: World, u: World) {
    && u.nodes == w.nodes && u.tracked == w.tracked && u.providers.Keys == w.providers.Keys
    && forall p | p in w.providers :: u.providers[p].pods.Keys == w.providers[p].pods.Keys
  }

  lemma OneDelivery(w: World, push: Pass.Push, now: int, provider: nat, key: Key)
    ensures var u := Delivered(w, push, now);
            && SameShape(w, u)
            && PhaseAt(u, provider, key)
               == if Hits(w, push, provider, key) then Some(push.pod.phase) else PhaseAt(w, provider, key)
  {
    hide Changed;
    var aim := AimOf(w, push);
    if aim.Some? && aim.value.provider in w.providers {
      var a := aim.value;
      assert a.status.phase == push.pod.phase;
      ProviderHistory.ReportEffect(w.providers[a.provider], a.key, a.status, a.cache, now);
      ReportedElsewhere(w.providers[a.provider], a.key, a.status, a.cache, now, key);
    }
    hide Reported, IdentifierOf, Nodes.Route;
  }

  lemma ReportedElsewhere(v: View, key: Key, status: Status, cache: bool, now: int, other: Key)
    ensures var u := Reported(v, key, status, cache, now);
            && u.pods.Keys == v.pods.Keys
            && (other != key ==>
                  && (other in v.pods ==> u.pods[other] == v.pods[other])
                  && (other in u.pending <==> other in v.pending)
                  && (other in v.pending ==> u.pending[other] == v.pending[other]))
            && (other == key && key !in v.pods ==>
                  u.pending == if cache then v.pending[key := status] else v.pending)
  {
    hide Changed;
  }

  lemma HitsStay(w: World, u: World, push: Pass.Push, provider: nat, key: Key)
    requires SameShape(w, u)
    ensures Hits(u, push, provider, key) <==> Hits(w, push, provider, key)
  {
    hide Nodes.Route, IdentifierOf;
  }

  /** After all deliveries a Pod has the phase the pushes that hit it agree on, or the one it had if none does. */
  lemma {:induction false} PhaseAfter(w: World, pushes: seq<Pass.Push>, clock: nat -> int, provider: nat, key: Key,
    phase: Phase)
    requires forall push | push in pushes && Hits(w, push, provider, key) :: push.pod.phase == phase
    ensures var u := AllDelivered(w, pushes, clock);
            && SameShape(w, u)
            && PhaseAt(u, provider, key)
               == if exists push :: push in pushes && Hits(w, push, provider, key) then Some(phase)
                  else PhaseAt(w, provider, key)
    decreases |pushes|
  {
    hide Hits, Delivered, PhaseAt;
    if pushes != [] {
      var before, last := pushes[..|pushes| - 1], pushes[|pushes| - 1];
      assert pushes == before + [last];
      PhaseAfter(w, before, clock, provider, key, phase);
      var mid := AllDelivered(w, before, clock);
      OneDelivery(mid, last, clock(|pushes| - 1), provider, key);
      HitsStay(w, mid, last, provider, key);
    }
  }

  // The pushes of a committed pass

  ghost predicate PushedBySome(items: seq<Pass.Item>, push: Pass.Push) {
    exists k :: 0 <= k < |items| && PushedBy(items[k], push)
  }

  lemma PushedBySomeNext(items: seq<Pass.Item>, push: Pass.Push)
    requires items != []
    ensures PushedBySome(items, push)
       <==> PushedBySome(items[..|items| - 1], push) || PushedBy(items[|items| - 1], push)
  {
    hide PushedBy;
    var before := items[..|items| - 1];
    if k :| 0 <= k < |before| && PushedBy(before[k], push) {
      assert PushedBy(items[k], push);
    } else if k :| 0 <= k < |items| && PushedBy(items[k], push) {
      assert k < |before| ==> PushedBy(before[k], push);
    }
  }

  lemma StreamedLast(items: seq<Pass.Item>)
    requires items != [] && (forall k | 0 <= k < |items| :: Pass.Matched(items[k])) && Pass.Streamed(items).ok
    ensures Pass.Streamed(items[..|items| - 1]).ok && Pass.Alone(items[|items| - 1]).ok
    ensures Pass.Streamed(items).pushed
         == Pass.Streamed(items[..|items| - 1]).pushed + Pass.Alone(items[|items| - 1]).pushed
  {
    hide Pass.Alone, Pass.Matched;
  }

  lemma {:induction false} PushesOfStream(items: seq<Pass.Item>, push: Pass.Push)
    requires (forall k | 0 <= k < |items| :: Pass.Matched(items[k])) && Pass.Streamed(items).ok
    ensures push in Pass.Streamed(items).pushed <==> PushedBySome(items, push)
    decreases |items|
  {
    hide PushedBySome, Pass.Alone, Pass.Matched;
    if items == [] {
      NobodyPushed(push);
    } else {
      StreamedLast(items);
      PushesOfStream(items[..|items| - 1], push);
      PushesOfItem(items[|items| - 1], push);
      PushedBySomeNext(items, push);
    }
  }

  lemma NobodyPushed(push: Pass.Push)
    ensures !PushedBySome([], push)
  {
  }

  predicate PushedBy(item: Pass.Item, push: Pass.Push) {
    && item.apply.Applied? && Pass.Matched(item)
    && push in Pass.Pushes(ToPods(item.workload), item.apply.actions, |item.apply.actions|)
  }

  lemma PushesOfItem(item: Pass.Item, push: Pass.Push)
    requires Pass.Matched(item) && Pass.Alone(item).ok
    ensures item.apply.Applied? && (push in Pass.Alone(item).pushed <==> PushedBy(item, push))
  {
    hide Pass.Pushes, Pass.Ids, ToPods;
  }

  /** What a push of one job is: one of its Pods, or its primary Pod for the tracker, with the job's phase. */
  lemma PushIsOfJob(item: Pass.Item, push: Pass.Push)
    requires PushedBy(item, push)
    ensures exists i: nat :: i < |ToPods(item.workload)| && ToPods(item.workload)[i] == push.pod
    ensures push.pod.phase == item.workload.phase && IdentifierOf(push.pod.labels) == Dec(item.workload.id)
  {
    var pods, actions := ToPods(item.workload), item.apply.actions;
    Pass.PushedExactly(pods, actions, |actions|, push);
    var i: nat :| i < |pods| && pods[i] == push.pod;
    LabelsCarryMeta(item.workload, i);
    hide Pass.Pushes, PodName, Labels.Scoped, Dec;
  }

  /** The jobs of one listing have different ids. */
  ghost predicate DistinctJobs(items: seq<Pass.Item>) {
    forall j, k | 0 <= j < k < |items| :: items[j].workload.id != items[k].workload.id
  }

  /** Kubernetes names are unique: no tracked Pod has the name of a listed job's Pod. */
  ghost predicate Apart(w: World, items: seq<Pass.Item>) {
    forall id, k, i | id in w.tracked && 0 <= k < |items| && 0 <= i < |ToPods(items[k].workload)| ::
      w.tracked[id].key != PodKey(ToPods(items[k].workload)[i])
  }

  lemma KeysTellJobs(items: seq<Pass.Item>, j: nat, i: nat, k: nat, l: nat)
    requires DistinctJobs(items) && j < |items| && k < |items|
    requires i < |ToPods(items[j].workload)| && l < |ToPods(items[k].workload)|
    requires PodKey(ToPods(items[j].workload)[i]) == PodKey(ToPods(items[k].workload)[l])
    ensures j == k
  {
    hide ToPods;
    if j != k {
      PodsOfJobsDistinct(items[j].workload, items[k].workload, i, l);
    }
  }

  /** A push that hits a listed Pod's key is its own job's. */
  lemma HitsOwnPod(w: World, items: seq<Pass.Item>, j: nat, i: nat, k: nat, push: Pass.Push, provider: nat)
    requires DistinctJobs(items) && Apart(w, items) && j < |items| && k < |items| && i < |ToPods(items[j].workload)|
    requires PushedBy(items[k], push) && Hits(w, push, provider, PodKey(ToPods(items[j].workload)[i]))
    ensures push.pod.phase == items[j].workload.phase
  {
    PushIsOfJob(items[k], push);
    hide ToPods, PushedBy, IdentifierOf, Nodes.Route, DistinctJobs;
    var l: nat :| l < |ToPods(items[k].workload)| && ToPods(items[k].workload)[l] == push.pod;
    if push.ToProvider? {
      KeysTellJobs(items, j, i, k, l);
    }
  }

  /**
   After a committed pass with all its pushes delivered, every Pod that was not reconfigured and whose node has a
   provider is there, stored or awaiting its creation, with the phase of its job.
   */
  lemma PhasesPropagate(v: Pass.View, s: Pass.Script, w: World, clock: nat -> int, j: nat, i: nat)
    requires Pass.AllMatched(s) && Pass.Pass(v, s).1.ok && DistinctJobs(s.items) && Apart(w, s.items) && j < |s.items|
    requires s.items[j].apply.Applied? && i < |ToPods(s.items[j].workload)| && !s.items[j].apply.actions[i].Configured?
    requires var aim := AimOf(w, Pass.ToProvider(ToPods(s.items[j].workload)[i]));
             aim.Some? && aim.value.provider in w.providers
    ensures var pod := ToPods(s.items[j].workload)[i];
            var provider := AimOf(w, Pass.ToProvider(pod)).value.provider;
            PhaseAt(AllDelivered(w, Pass.Pass(v, s).1.pushed, clock), provider, PodKey(pod))
              == Some(s.items[j].workload.phase)
  {
    var item, pushes := s.items[j], Pass.Pass(v, s).1.pushed;
    var pod := ToPods(item.workload)[i];
    var mine := Pass.ToProvider(pod);
    var provider := AimOf(w, mine).value.provider;
    CommittedPushes(v, s);
    Pass.PushedExactly(ToPods(item.workload), item.apply.actions, |item.apply.actions|, mine);
    PushesOfStream(s.items, mine);
    hide Pass.Streamed, Pass.Pass, Pass.Pushes, AllDelivered, ToPods, DistinctJobs, Apart, PhaseAt;
    assert PushedBy(item, mine);
    assert Hits(w, mine, provider, PodKey(pod));
    forall push | push in pushes && Hits(w, push, provider, PodKey(pod)) ensures push.pod.phase == item.workload.phase {
      PushesOfStream(s.items, push);
      var k :| 0 <= k < |s.items| && PushedBy(s.items[k], push);
      HitsOwnPod(w, s.items, j, i, k, push, provider);
    }
    PhaseAfter(w, pushes, clock, provider, PodKey(pod), item.workload.phase);
  }

  lemma CommittedPushes(v: Pass.View, s: Pass.Script)
    requires Pass.AllMatched(s) && Pass.Pass(v, s).1.ok
    ensures Pass.Streamed(s.items).ok && Pass.Pass(v, s).1.pushed == Pass.Streamed(s.items).pushed
  {
    hide Pass.Streamed, Pass.Populated;
  }

  /** A push that hits a tracked Pod was made for the very job it is. */
  lemma HitsOwnTracked(w: World, items: seq<Pass.Item>, j: nat, k: nat, push: Pass.Push, id: string)
    requires DistinctJobs(items) && Apart(w, items) && j < |items| && k < |items| && id in w.tracked
    requires id == Dec(items[j].workload.id)
    requires forall other | other in w.tracked && other != id ::
               w.tracked[other].provider != w.tracked[id].provider || w.tracked[other].key != w.tracked[id].key
    requires PushedBy(items[k], push) && Hits(w, push, w.tracked[id].provider, w.tracked[id].key)
    ensures push.pod.phase == items[j].workload.phase
  {
    PushIsOfJob(items[k], push);
    hide ToPods, PushedBy, IdentifierOf, Dec, Apart, DistinctJobs, Hits;
    if push.ToTracker? {
      TrackerAim(w, push, id);
      DecInjective(items[k].workload.id, items[j].workload.id);
      SameJob(items, j, k);
    } else {
      var l: nat :| l < |ToPods(items[k].workload)| && ToPods(items[k].workload)[l] == push.pod;
      NotTracked(w, items, k, l, id);
      ProviderAim(w, push, w.tracked[id].provider, w.tracked[id].key);
    }
  }

  lemma TrackerAim(w: World, push: Pass.Push, id: string)
    requires push.ToTracker? && id in w.tracked && Hits(w, push, w.tracked[id].provider, w.tracked[id].key)
    requires forall other | other in w.tracked && other != id ::
               w.tracked[other].provider != w.tracked[id].provider || w.tracked[other].key != w.tracked[id].key
    ensures IdentifierOf(push.pod.labels) == id
  {
    hide IdentifierOf;
  }

  lemma ProviderAim(w: World, push: Pass.Push, provider: nat, key: Key)
    requires push.ToProvider? && Hits(w, push, provider, key)
    ensures key == PodKey(push.pod)
  {
    hide Nodes.Route;
  }

  lemma NotTracked(w: World, items: seq<Pass.Item>, k: nat, l: nat, id: string)
    requires Apart(w, items) && k < |items| && l < |ToPods(items[k].workload)| && id in w.tracked
    ensures w.tracked[id].key != PodKey(ToPods(items[k].workload)[l])
  {
    hide ToPods;
  }

  lemma SameJob(items: seq<Pass.Item>, j: nat, k: nat)
    requires DistinctJobs(items) && j < |items| && k < |items| && items[j].workload.id == items[k].workload.id
    ensures j == k
  {
  }

  /**
   And a tracked Pod stored where the tracker says has the phase of its job, if the job's primary Pod was not
   reconfigured; `id` is its identifier, and identifiers point at different Pods.
   */
  lemma TrackedFollows(v: Pass.View, s: Pass.Script, w: World, clock: nat -> int, j: nat, id: string)
    requires Pass.AllMatched(s) && Pass.Pass(v, s).1.ok && DistinctJobs(s.items) && Apart(w, s.items) && j < |s.items|
    requires s.items[j].apply.Applied? && !s.items[j].apply.actions[0].Configured? && id == Dec(s.items[j].workload.id)
    requires id in w.tracked && IsStored(w, w.tracked[id].provider, w.tracked[id].key)
    requires forall other | other in w.tracked && other != id ::
               w.tracked[other].provider != w.tracked[id].provider || w.tracked[other].key != w.tracked[id].key
    ensures var info := w.tracked[id];
            var u := AllDelivered(w, Pass.Pass(v, s).1.pushed, clock);
            && IsStored(u, info.provider, info.key)
            && PhaseAt(u, info.provider, info.key) == Some(s.items[j].workload.phase)
  {
    var item, pushes, info := s.items[j], Pass.Pass(v, s).1.pushed, w.tracked[id];
    var mine := Pass.ToTracker(ToPods(item.workload)[0]);
    CommittedPushes(v, s);
    Pass.PushedExactly(ToPods(item.workload), item.apply.actions, |item.apply.actions|, mine);
    PushesOfStream(s.items, mine);
    hide Pass.Streamed, Pass.Pass, Pass.Pushes, AllDelivered, ToPods, DistinctJobs, Apart, PhaseAt, IdentifierOf, Dec;
    assert PushedBy(item, mine);
    PushIsOfJob(item, mine);
    assert Hits(w, mine, info.provider, info.key);
    forall push | push in pushes && Hits(w, push, info.provider, info.key)
      ensures push.pod.phase == item.workload.phase
    {
      PushesOfStream(s.items, push);
      var k :| 0 <= k < |s.items| && PushedBy(s.items[k], push);
      HitsOwnTracked(w, s.items, j, k, push, id);
    }
    PhaseAfter(w, pushes, clock, info.provider, info.key, item.workload.phase);
  }

  // With the providers and the tracker as they are in a run

  /** The providers and the tracker of a protocol state, with the nodes the node reconciler has. */
  function WorldOf(nodes: Nodes.State, t: Protocol.State): World {
    World(nodes, t.index.tracked, map p | 0 <= p < |t.nodes| :: t.nodes[p].view)
  }

  lemma PointsElsewhere(t: Protocol.State, p: nat, k: Key, id: string, other: string)
    requires p < |t.nodes| && ProtocolIndex.StoredAs(t.nodes[p], k, id) && other != id && other in t.index.tracked
    requires ProtocolIndex.Points(t, t.index.tracked[other].provider, t.index.tracked[other].key, other)
         ==> t.index.tracked[other].provider < |t.nodes|
             && ProtocolIndex.StoredAs(t.nodes[t.index.tracked[other].provider], t.index.tracked[other].key, other)
    ensures t.index.tracked[other].provider != p || t.index.tracked[other].key != k
  {
    hide Registers, IdentifierOf;
  }

  /** The identifier of a stored tracked Pod is bound to it, and no other identifier is. */
  lemma OnlyPoints(start: Protocol.State, run: seq<Protocol.Action>, p: nat, k: Key, id: string)
    requires Protocol.Initial(start) && ProtocolIndex.AllRelied(start, run)
    requires forall q | 0 <= q < |Protocol.After(start, run).nodes| :: Protocol.After(start, run).nodes[q].mutex.None?
    requires p < |Protocol.After(start, run).nodes|
      && ProtocolIndex.StoredAs(Protocol.After(start, run).nodes[p], k, id)
    ensures var tracked := Protocol.After(start, run).index.tracked;
            && id in tracked && tracked[id].provider == p && tracked[id].key == k
            && forall other | other in tracked && other != id :: tracked[other].provider != p || tracked[other].key != k
  {
    var t := Protocol.After(start, run);
    hide Protocol.After, Protocol.Initial, ProtocolIndex.AllRelied, ProtocolIndex.StoredAs;
    ProtocolIndex.IndexIsExact(start, run, p, k, id);
    forall other | other in t.index.tracked && other != id
      ensures t.index.tracked[other].provider != p || t.index.tracked[other].key != k
    {
      ProtocolIndex.IndexIsExact(start, run, t.index.tracked[other].provider, t.index.tracked[other].key, other);
      PointsElsewhere(t, p, k, id, other);
    }
  }

  /**
   From any state of any interleaving of provider operations in which none is mid-way: after a committed pass with its
   pushes delivered, the tracked Pod that bears a listed job's id, wherever it is stored, has the job's phase, if the
   job's primary Pod was not reconfigured. That the tracker points there, and nothing else does, is the index's
   exactness.
   */
  lemma TrackedFollowsRun(v: Pass.View, s: Pass.Script, nodes: Nodes.State, clock: nat -> int, j: nat,
                          start: Protocol.State, run: seq<Protocol.Action>, p: nat, k: Key)
    requires Protocol.Initial(start) && ProtocolIndex.AllRelied(start, run)
    requires forall q | 0 <= q < |Protocol.After(start, run).nodes| :: Protocol.After(start, run).nodes[q].mutex.None?
    requires Pass.AllMatched(s) && Pass.Pass(v, s).1.ok && DistinctJobs(s.items) && j < |s.items|
    requires Apart(WorldOf(nodes, Protocol.After(start, run)), s.items)
    requires s.items[j].apply.Applied? && !s.items[j].apply.actions[0].Configured?
    requires p < |Protocol.After(start, run).nodes|
    requires ProtocolIndex.StoredAs(Protocol.After(start, run).nodes[p], k, Dec(s.items[j].workload.id))
    ensures var u := AllDelivered(WorldOf(nodes, Protocol.After(start, run)), Pass.Pass(v, s).1.pushed, clock);
            IsStored(u, p, k) && PhaseAt(u, p, k) == Some(s.items[j].workload.phase)
  {
    var t, id := Protocol.After(start, run), Dec(s.items[j].workload.id);
    OnlyPoints(start, run, p, k, id);
    hide *;
    WorldHas(nodes, t, p, k, id);
    TrackedFollows(v, s, WorldOf(nodes, t), clock, j, id);
  }

  lemma WorldHas(nodes: Nodes.State, t: Protocol.State, p: nat, k: Key, id: string)
    requires p < |t.nodes| && ProtocolIndex.StoredAs(t.nodes[p], k, id)
    ensures WorldOf(nodes, t).tracked == t.index.tracked && IsStored(WorldOf(nodes, t), p, k)
  {
    hide ProtocolIndex.TrackedAs;
  }
}
