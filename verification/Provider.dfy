/**
 The Pod provider of one node and the tracker it shares with the others (provider/provider.go, tracker/tracker.go).
 Each provider method runs under the provider's mutex; here it is a function from state to state, split where the
 method calls out, and the classes are proved to compute these functions. Protocol.dfy interleaves them.
 */
module Provider {
  import opened Wrappers
  import opened Labels
  import opened PodStatus

  /** A job submission, and the agent's answer to it. */
  datatype Submission = Submission(meta: WorkloadMeta, containers: seq<Container>, nodes: seq<string>,
    options: LabelMap)

  datatype Answer = Accepted(meta: WorkloadMeta) | Rejected

  datatype Call = Dispatch(submission: Submission) | Cancel(meta: WorkloadMeta)

  /** One call of Virtual Kubelet's notifier. */
  datatype Note = Note(key: Key, status: Status)

  /** `calls` and `notes` are the provider's outward effects, in order. */
  datatype View = View(pods: map<Key, PodView>, pending: map<Key, Status>, calls: seq<Call>, notes: seq<Note>)

  const EMPTY := View(map[], map[], [], [])
  const CREATED := "Supernetes workload was created"
  const UPDATED := "Supernetes workload was updated"
  const DELETED := "Supernetes workload was deleted"
  const STATUS_UPDATED := "Supernetes workload status was updated"

  /** No untracked label: a Pod some user created. */
  predicate IsTracked(labels: LabelMap) { !(LABEL_KIND in labels && labels[LABEL_KIND] == KIND_UNTRACKED) }

  predicate Identified(labels: LabelMap) { LABEL_IDENTIFIER in labels }

  /** A missing label reads as the empty string. */
  function IdentifierOf(labels: LabelMap): string { if Identified(labels) then labels[LABEL_IDENTIFIER] else "" }

  predicate NeedsDispatch(labels: LabelMap) { IsTracked(labels) && !Identified(labels) }

  predicate Registers(labels: LabelMap) { IsTracked(labels) && Identified(labels) }

  /** convertToWorkload. */
  function Converted(pod: PodView, nodeName: string): Submission {
    Submission(Meta(pod.key.name, pod.labels), pod.containers, Nodes(pod.labels, nodeName),
      Unscoped(pod.labels, SCOPE_OPTION))
  }

  /** CreatePod, first part: a cached status replaces the Pod's own. */
  function Loaded(pending: map<Key, Status>, pod: PodView): PodView {
    if pod.key in pending then pod.(status := pending[pod.key]) else pod
  }

  /** CreatePod, middle part: dispatch if nobody has yet. */
  function Dispatched(pod: PodView, answer: Answer): PodView {
    if !NeedsDispatch(pod.labels) then pod
    else
      match answer
      case Rejected => pod.(status := pod.status.(phase := Failed))
      case Accepted(meta) => pod.(labels := Applied(meta, pod.labels))
  }

  function Told(status: Status, containers: seq<Container>, phase: Phase, message: string, now: int): Status {
    Changed(status, containers, phase, now).(message := message)
  }

  /** CreatePod and UpdatePod, last part: rewrite the status, store, notify. */
  function Stored(v: View, pod: PodView, message: string, now: int): View {
    var stored := pod.(status := Told(pod.status, pod.containers, pod.status.phase, message, now));
    v.(pods := v.pods[pod.key := stored], notes := v.notes + [Note(pod.key, stored.status)])
  }

  function CallsFor(pod: PodView, nodeName: string): seq<Call> {
    if NeedsDispatch(pod.labels) then [Dispatch(Converted(pod, nodeName))] else []
  }

  function Created(v: View, nodeName: string, pod: PodView, answer: Answer, now: int): View {
    var loaded := Loaded(v.pending, pod);
    Stored(v.(pending := v.pending - {pod.key}, calls := v.calls + CallsFor(loaded, nodeName)),
           Dispatched(loaded, answer), CREATED, now)
  }

  function Updated(v: View, pod: PodView, now: int): View { Stored(v, pod, UPDATED, now) }

  function Deleted(v: View, pod: PodView, now: int): View {
    if pod.key !in v.pods then v
    else
      View(v.pods - {pod.key}, v.pending,
           v.calls + (if IsTracked(pod.labels) then [Cancel(Meta(pod.key.name, pod.labels))] else []),
           v.notes + [Note(pod.key, Told(pod.status, pod.containers, Succeeded, DELETED, now))])
  }

  function Reported(v: View, key: Key, status: Status, cache: bool, now: int): View {
    if key !in v.pods then (if cache then v.(pending := v.pending[key := status]) else v)
    else
      var pod := v.pods[key];
      if pod.status.phase == status.phase then v
      else
        var stored := pod.(status := Told(status, pod.containers, status.phase, STATUS_UPDATED, now));
        v.(pods := v.pods[key := stored], notes := v.notes + [Note(key, stored.status)])
  }

  lemma AppliedKeepsKind(answer: Answer, labels: LabelMap)
    ensures answer.Accepted? ==>
              && (IsTracked(Applied(answer.meta, labels)) <==> IsTracked(labels))
              && Identified(Applied(answer.meta, labels))
              && IdentifierOf(Applied(answer.meta, labels)) == answer.meta.identifier
  {
    if answer.Accepted? {
      MetaRoundTrip(answer.meta, "", labels);
    }
  }

  lemma SameButFor(a: map<Key, PodView>, b: map<Key, PodView>, key: Key, pod: PodView)
    requires a.Keys == b.Keys && forall k | k in a && k != key :: a[k] == b[k]
    ensures a[key := pod] == b[key := pod]
  {
  }

  lemma CreatedParts(v: View, nodeName: string, pod: PodView, answer: Answer, now: int, w: View, admitted: PodView)
    requires admitted == Dispatched(Loaded(v.pending, pod), answer)
    requires w.pods == v.pods[pod.key := admitted.(status :=
      Told(admitted.status, admitted.containers, admitted.status.phase, CREATED, now))]
    requires w.pending == v.pending - {pod.key} && w.calls == v.calls + CallsFor(Loaded(v.pending, pod), nodeName)
    requires w.notes == v.notes + [Note(pod.key, w.pods[pod.key].status)]
    ensures w == Created(v, nodeName, pod, answer, now)
  {
  }

  // The tracker

  /** A tracked Pod's metadata and the provider (by number) that updates its status. */
  datatype Info = Info(key: Key, labels: LabelMap, provider: nat)

  /** The call tracker.UpdateStatus makes after releasing its lock. */
  datatype Delivery = Delivery(provider: nat, key: Key, status: Status)

  class Tracker {
    var tracked: map<string, Info>

    constructor ()
      ensures tracked == map[]
    {
      tracked := map[];
    }

    method Track(pod: Pod, provider: nat)
      modifies this
      ensures tracked == old(tracked)[IdentifierOf(pod.labels) := Info(pod.key, pod.labels, provider)]
    {
      tracked := tracked[IdentifierOf(pod.labels) := Info(pod.key, pod.labels, provider)];
    }

    method Untrack(pod: Pod)
      modifies this
      ensures tracked == old(tracked) - {IdentifierOf(pod.labels)}
    {
      tracked := tracked - {IdentifierOf(pod.labels)};
    }

    /**
     First phase of UpdateStatus: the lookup. The status is bound to the tracked Pod's key, not the reporting Pod's.
     */
    method Lookup(labels: LabelMap, status: Status) returns (d: Option<Delivery>)
      ensures d == if IdentifierOf(labels) in tracked
                   then Some(Delivery(tracked[IdentifierOf(labels)].provider, tracked[IdentifierOf(labels)].key,
                     status))
                   else None
    {
      var id := IdentifierOf(labels);
      if id !in tracked {
        return None;
      }
      return Some(Delivery(tracked[id].provider, tracked[id].key, status));
    }
  }

  class PodProvider {
    const id: nat
    const nodeName: string
    const tracker: Tracker
    var pods: map<Key, Pod>
    var pending: map<Key, Status>
    var calls: seq<Call>
    var notes: seq<Note>

    ghost predicate Valid()
      reads this, pods.Values
    {
      forall k | k in pods :: pods[k].key == k
    }

    ghost function PodsV(): (m: map<Key, PodView>)
      reads this, pods.Values
      ensures m.Keys == pods.Keys
    {
      map k | k in pods :: pods[k].V()
    }

    ghost function V(): View
      reads this, pods.Values
    {
      View(PodsV(), pending, calls, notes)
    }

    constructor (id: nat, nodeName: string, tracker: Tracker)
      ensures Valid() && V() == EMPTY && this.id == id && this.nodeName == nodeName && this.tracker == tracker
    {
      this.id, this.nodeName, this.tracker := id, nodeName, tracker;
      pods, pending, calls, notes := map[], map[], [], [];
    }

    /** The caller's Pod object itself is stored; its labels and status are changed in place. */
    method CreatePod(pod: Pod, answer: Answer, now: int)
      requires Valid()
      modifies this, pod, tracker
      ensures Valid() && V() == Created(old(V()), nodeName, old(pod.V()), answer, now)
      ensures pod.key in pods && pods[pod.key] == pod
      ensures forall k | k in pods && k != pod.key :: k in old(pods) && pods[k] == old(pods[k])
      ensures var labels := Dispatched(Loaded(old(pending), old(pod.V())), answer).labels;
              tracker.tracked == if Registers(labels)
                then old(tracker.tracked)[IdentifierOf(labels) := Info(pod.key, labels, id)]
                                 else old(tracker.tracked)
    {
      hide IsTracked, Identified, IdentifierOf, Applied, Converted, Told, Changed, Meta;
      hide Dispatched, Loaded, CallsFor, Registers;
      Load(pod);
      Admit(pod, answer);
      ghost var admitted := pod.V();
      assert forall k | k in pods && k != pod.key :: pods[k].V() == old(pods[k].V());
      ghost var mid := PodsV();
      Store(pod, CREATED, now);
      SameButFor(old(PodsV()), mid, pod.key, pod.V());
      CreatedParts(old(V()), nodeName, old(pod.V()), answer, now, V(), admitted);
    }

    /** Consume a cached status. */
    method Load(pod: Pod)
      modifies this`pending, pod`status
      ensures pod.V() == Loaded(old(pending), old(pod.V()))
      ensures pending == old(pending) - {pod.key}
    {
      if pod.key in pending {
        pod.status := pending[pod.key];
        pending := pending - {pod.key};
      }
    }

    /**
     A tracked Pod is dispatched unless it already is, and registered with the tracker if it then has an identifier.
     */
    method Admit(pod: Pod, answer: Answer)
      modifies this`calls, pod, tracker
      ensures pod.V() == Dispatched(old(pod.V()), answer)
      ensures calls == old(calls) + CallsFor(old(pod.V()), nodeName)
      ensures tracker.tracked == if Registers(pod.labels)
        then old(tracker.tracked)[IdentifierOf(pod.labels) := Info(pod.key, pod.labels, id)]
                                 else old(tracker.tracked)
    {
      hide IsTracked, Identified, IdentifierOf, Applied, Converted, Told, Changed, Meta;
      if IsTracked(pod.labels) {
        AppliedKeepsKind(answer, pod.labels);
        if !Identified(pod.labels) {
          calls := calls + [Dispatch(Converted(pod.V(), nodeName))];
          match answer {
            case Rejected => pod.status := pod.status.(phase := Failed);
            case Accepted(meta) => pod.labels := ApplyMeta(meta, pod.labels);
          }
        }
        if Identified(pod.labels) {
          tracker.Track(pod, id);
        }
      }
    }

    method Store(pod: Pod, message: string, now: int)
      requires Valid()
      modifies this`pods, this`notes, pod`status
      ensures Valid() && pods == old(pods)[pod.key := pod]
      ensures pod.status == Told(old(pod.status), pod.containers, old(pod.status.phase), message, now)
      ensures notes == old(notes) + [Note(pod.key, pod.status)]
      ensures PodsV() == old(PodsV())[pod.key := pod.V()]
    {
      hide Changed;
      pod.ChangePhase(pod.status.phase, now);
      pod.status := pod.status.(message := message);
      pods := pods[pod.key := pod];
      notes := notes + [Note(pod.key, pod.status)];
    }

    method UpdatePod(pod: Pod, now: int)
      requires Valid()
      modifies this`pods, this`notes, pod`status
      ensures Valid() && V() == Updated(old(V()), old(pod.V()), now)
      ensures pod.key in pods && pods[pod.key] == pod
    {
      Store(pod, UPDATED, now);
    }

    method DeletePod(pod: Pod, now: int) returns (found: bool)
      requires Valid()
      modifies this, pod`status, tracker
      ensures Valid() && V() == Deleted(old(V()), old(pod.V()), now)
      ensures found <==> pod.key in old(pods)
      ensures tracker.tracked == if found && IsTracked(pod.labels)
        then old(tracker.tracked) - {IdentifierOf(pod.labels)}
                                 else old(tracker.tracked)
    {
      hide IsTracked, Identified, IdentifierOf, Applied, Converted, Told, Changed, Meta;
      hide PodsV;
      if pod.key !in pods {
        return false;
      }
      Release(pod);
      Remove(pod, now);
      return true;
    }

    /** A tracked Pod's job is cancelled, opportunistically, and the Pod leaves the tracker. */
    method Release(pod: Pod)
      modifies this`calls, tracker
      ensures PodsV() == old(PodsV())
      ensures calls == old(calls) + if IsTracked(pod.labels) then [Cancel(Meta(pod.key.name, pod.labels))] else []
      ensures tracker.tracked == if IsTracked(pod.labels) then old(tracker.tracked) - {IdentifierOf(pod.labels)}
                                 else old(tracker.tracked)
    {
      hide IsTracked, Identified, IdentifierOf, Meta;
      if IsTracked(pod.labels) {
        calls := calls + [Cancel(Meta(pod.key.name, pod.labels))];
        tracker.Untrack(pod);
      }
    }

    method Remove(pod: Pod, now: int)
      requires Valid() && pod.key in pods
      modifies this`pods, this`notes, pod`status
      ensures Valid() && PodsV() == old(PodsV()) - {pod.key}
      ensures notes == old(notes) + [Note(pod.key, Told(old(pod.status), pod.containers, Succeeded, DELETED, now))]
    {
      hide Changed;
      pod.ChangePhase(Succeeded, now);
      pod.status := pod.status.(message := DELETED);
      pods := pods - {pod.key};
      notes := notes + [Note(pod.key, pod.status)];
    }

    method UpdateStatus(key: Key, status: Status, cache: bool, now: int)
      requires Valid()
      modifies this`pending, this`notes, if key in pods then {pods[key]} else {}
      ensures Valid() && V() == Reported(old(V()), key, status, cache, now)
    {
      hide Told;
      if key !in pods {
        if !cache {
          return;
        }
        pending := pending[key := status];
        return;
      }
      assert PodsV()[key] == pods[key].V();
      hide PodsV;
      if pods[key].status.phase != status.phase {
        Overwrite(key, status, now);
      }
    }

    /** The reported status as a whole replaces the stored Pod's. */
    method Overwrite(key: Key, status: Status, now: int)
      requires Valid() && key in pods
      modifies this`notes, pods[key]
      ensures Valid() && PodsV() == old(PodsV())[key :=
        old(PodsV())[key].(status := Told(status, pods[key].containers, status.phase, STATUS_UPDATED, now))]
      ensures notes == old(notes) + [Note(key, Told(status, pods[key].containers, status.phase, STATUS_UPDATED, now))]
    {
      hide Changed;
      var pod := pods[key];
      pod.status := status;
      pod.ChangePhase(status.phase, now);
      pod.status := pod.status.(message := STATUS_UPDATED);
      notes := notes + [Note(key, pod.status)];
    }
  }
}
