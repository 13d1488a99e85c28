/** What a provider's history of operations, in mutex order, says about its state. */
module ProviderHistory {
  import opened Wrappers
  import opened Labels
  import opened PodStatus
  import opened Provider

  datatype Op =
    | Create(pod: PodView, answer: Answer, now: int)
    | Update(pod: PodView, now: int)
    | Delete(pod: PodView, now: int)
    | Report(key: Key, status: Status, cache: bool, now: int)

  function KeyOf(op: Op): Key { if op.Report? then op.key else op.pod.key }

  function Apply(nodeName: string, v: View, op: Op): View {
    match op
    case Create(pod, answer, now) => Created(v, nodeName, pod, answer, now)
    case Update(pod, now) => Updated(v, pod, now)
    case Delete(pod, now) => Deleted(v, pod, now)
    case Report(key, status, cache, now) => Reported(v, key, status, cache, now)
  }

  function Replay(nodeName: string, ops: seq<Op>): View {
    if ops == [] then EMPTY else Apply(nodeName, Replay(nodeName, ops[..|ops| - 1]), ops[|ops| - 1])
  }

  // The same facts read off the history alone

  /** The last creation, update or deletion of `k` was not a deletion. */
  predicate IsStored(ops: seq<Op>, k: Key) {
    ops != [] &&
    (var op, before := ops[|ops| - 1], ops[..|ops| - 1];
     if KeyOf(op) != k || op.Report? then IsStored(before, k) else !op.Delete?)
  }

  /** The last cacheable report of `k` that found it absent, unless it was created since. */
  function Cached(ops: seq<Op>, k: Key): Option<Status> {
    if ops == [] then None
    else
      var op, before := ops[|ops| - 1], ops[..|ops| - 1];
      if KeyOf(op) != k then Cached(before, k)
      else if op.Create? then None
      else if op.Report? && op.cache && !IsStored(before, k) then Some(op.status)
      else Cached(before, k)
  }

  /** A status handed to changePhase, for which containers, with which message afterwards, and when. */
  datatype Giving = Giving(status: Status, containers: seq<Container>, message: string, at: int)

  /** The status this leaves the Pod with. */
  function Made(g: Giving): Status { Told(g.status, g.containers, g.status.phase, g.message, g.at) }

  /**
   The status that was last given for `k`: at creation the cached one has precedence, and a refused dispatch means
   failure; a report gives one if the phase differs.
   */
  function Given(ops: seq<Op>, k: Key): Option<Giving> {
    if ops == [] then None
    else
      var op, before := ops[|ops| - 1], ops[..|ops| - 1];
      if KeyOf(op) != k then Given(before, k)
      else
        match op
        case Create(pod, answer, now) =>
          var loaded := if Cached(before, k).Some? then Cached(before, k).value else pod.status;
          var status := if NeedsDispatch(pod.labels) && answer.Rejected? then loaded.(phase := Failed) else loaded;
          Some(Giving(status, pod.containers, CREATED, now))
        case Update(pod, now) => Some(Giving(pod.status, pod.containers, UPDATED, now))
        case Delete(_, _) => None
        case Report(_, status, _, now) =>
          var g := Given(before, k);
          if g.None? || g.value.status.phase == status.phase then g
          else Some(Giving(status, g.value.containers, STATUS_UPDATED, now))
  }

  ghost predicate Agrees(v: View, ops: seq<Op>, k: Key) {
    && (k in v.pods <==> IsStored(ops, k))
    && (if k in v.pending then Cached(ops, k) == Some(v.pending[k]) else Cached(ops, k) == None)
    && (if k in v.pods then
          && v.pods[k].key == k && Given(ops, k).Some?
          && v.pods[k].containers == Given(ops, k).value.containers && v.pods[k].status == Made(Given(ops, k).value)
        else Given(ops, k) == None)
  }

  lemma AgreesStep(nodeName: string, v: View, ops: seq<Op>, k: Key)
    requires ops != [] && Agrees(v, ops[..|ops| - 1], k)
    ensures Agrees(Apply(nodeName, v, ops[|ops| - 1]), ops, k)
  {
    hide Changed, Applied, Converted, IsTracked, Identified, Meta;
    var op := ops[|ops| - 1];
    if KeyOf(op) != k {
      ApplyIsLocal(nodeName, v, v, op, k);
    } else {
      match op
      case Create(_, _, _) =>
      case Update(_, _) =>
      case Delete(_, _) =>
      case Report(_, _, _, _) =>
    }
  }

  /**
   Whether a Pod is stored, what is cached for it and its whole status are, for every history, what the history says.
   */
  lemma {:induction false} StateIsHistory(nodeName: string, ops: seq<Op>, k: Key)
    ensures Agrees(Replay(nodeName, ops), ops, k)
    decreases |ops|
  {
    if ops != [] {
      StateIsHistory(nodeName, ops[..|ops| - 1], k);
      AgreesStep(nodeName, Replay(nodeName, ops[..|ops| - 1]), ops, k);
    }
  }

  // What operations on other Pods cannot do

  /** Everything the provider knows about one Pod. */
  datatype About = About(pod: Option<PodView>, pending: Option<Status>)

  function At(v: View, k: Key): About {
    About(if k in v.pods then Some(v.pods[k]) else None, if k in v.pending then Some(v.pending[k]) else None)
  }

  function OpsOn(ops: seq<Op>, k: Key): seq<Op> {
    if ops == [] then []
    else OpsOn(ops[..|ops| - 1], k) + if KeyOf(ops[|ops| - 1]) == k then [ops[|ops| - 1]] else []
  }

  lemma ApplyIsLocal(nodeName: string, v: View, w: View, op: Op, k: Key)
    requires At(v, k) == At(w, k)
    ensures KeyOf(op) != k ==> At(Apply(nodeName, v, op), k) == At(w, k)
    ensures KeyOf(op) == k ==> At(Apply(nodeName, v, op), k) == At(Apply(nodeName, w, op), k)
  {
    hide Changed, Applied, Converted, IsTracked, Identified, Meta;
  }

  /** Operations on other Pods are invisible: the provider's knowledge of a Pod is that Pod's own history replayed. */
  lemma {:induction false} PodsAreIndependent(nodeName: string, ops: seq<Op>, k: Key)
    ensures At(Replay(nodeName, ops), k) == At(Replay(nodeName, OpsOn(ops, k)), k)
    decreases |ops|
  {
    if ops != [] {
      var before, op := ops[..|ops| - 1], ops[|ops| - 1];
      PodsAreIndependent(nodeName, before, k);
      ApplyIsLocal(nodeName, Replay(nodeName, before), Replay(nodeName, OpsOn(before, k)), op, k);
      hide Apply, At;
      var mine := OpsOn(before, k);
      if KeyOf(op) == k {
        assert (mine + [op])[..|mine|] == mine;
        assert Replay(nodeName, mine + [op]) == Apply(nodeName, Replay(nodeName, mine), op);
      } else {
        assert mine + [] == mine;
      }
    }
  }

  // Stored and cached

  ghost predicate Disjoint(v: View) { v.pods.Keys !! v.pending.Keys }

  /** Virtual Kubelet updates only Pods the provider has. */
  ghost predicate Lawful(nodeName: string, ops: seq<Op>) {
    forall i | 0 <= i < |ops| :: ops[i].Update? ==> ops[i].pod.key in Replay(nodeName, ops[..i]).pods
  }

  /**
   An update is the one operation that can break the disjointness, and does so exactly for a Pod with a cached status.
   */
  lemma DisjointUnless(nodeName: string, v: View, op: Op)
    requires Disjoint(v)
    ensures Disjoint(Apply(nodeName, v, op)) <==> !(op.Update? && op.pod.key in v.pending)
  {
    hide Changed, Applied, Converted, IsTracked, Identified, Meta;
  }

  lemma {:induction false} AlwaysDisjoint(nodeName: string, ops: seq<Op>)
    requires Lawful(nodeName, ops)
    ensures Disjoint(Replay(nodeName, ops))
    decreases |ops|
  {
    if ops != [] {
      var n := |ops| - 1;
      forall i | 0 <= i < n && ops[..n][i].Update?
        ensures ops[..n][i].pod.key in Replay(nodeName, ops[..n][..i]).pods
      {
        assert ops[..n][..i] == ops[..i];
      }
      AlwaysDisjoint(nodeName, ops[..n]);
      DisjointUnless(nodeName, Replay(nodeName, ops[..n]), ops[n]);
    }
  }

  // The notifier

  function LastNote(notes: seq<Note>, k: Key): Option<Status> {
    if notes == [] then None
    else if notes[|notes| - 1].key == k then Some(notes[|notes| - 1].status)
    else LastNote(notes[..|notes| - 1], k)
  }

  lemma LastNoteOf(notes: seq<Note>, note: Note, k: Key)
    ensures LastNote(notes + [note], k) == if note.key == k then Some(note.status) else LastNote(notes, k)
  {
    assert (notes + [note])[..|notes|] == notes;
  }

  /** What Virtual Kubelet was last told about a Pod is what the provider stores, or that it is gone. */
  ghost predicate ToldTruth(v: View, k: Key) {
    if k in v.pods then LastNote(v.notes, k) == Some(v.pods[k].status)
    else LastNote(v.notes, k).Some? ==>
           LastNote(v.notes, k).value.phase == Succeeded && LastNote(v.notes, k).value.message == DELETED
  }

  lemma ApplyTells(nodeName: string, v: View, op: Op, k: Key)
    requires ToldTruth(v, k)
    ensures ToldTruth(Apply(nodeName, v, op), k)
  {
    hide Applied, Converted, IsTracked, Identified, Meta, LastNote;
    var w := Apply(nodeName, v, op);
    if |w.notes| > |v.notes| {
      assert w.notes == v.notes + [w.notes[|v.notes|]];
      LastNoteOf(v.notes, w.notes[|v.notes|], k);
    }
  }

  /** Whatever the history, Virtual Kubelet's picture of every Pod is up to date after every operation. */
  lemma {:induction false} NotifierIsCurrent(nodeName: string, ops: seq<Op>, k: Key)
    ensures ToldTruth(Replay(nodeName, ops), k)
    decreases |ops|
  {
    if ops != [] {
      NotifierIsCurrent(nodeName, ops[..|ops| - 1], k);
      ApplyTells(nodeName, Replay(nodeName, ops[..|ops| - 1]), ops[|ops| - 1], k);
    }
  }

  /** A status report notifies exactly when it changes the phase of a stored Pod, and never resurrects an absent one. */
  lemma ReportEffect(v: View, key: Key, status: Status, cache: bool, now: int)
    ensures var w := Reported(v, key, status, cache, now);
            && w.pods.Keys == v.pods.Keys
            && w.pending.Keys == v.pending.Keys + (if cache && key !in v.pods then {key} else {})
            && (key in v.pods ==> w.pods[key].status.phase == status.phase && w.pods[key].labels == v.pods[key].labels)
            && (|w.notes| == |v.notes| + 1 <==> key in v.pods && v.pods[key].status.phase != status.phase)
            && (|w.notes| == |v.notes| + 1 ==> w.pods[key].status.message == "Supernetes workload status was updated")
            && (w.notes == v.notes || w.notes == v.notes + [Note(key, w.pods[key].status)])
  {
    hide Changed;
  }

  // Dispatching

  /**
   A job is submitted exactly for a tracked Pod without an identifier; if accepted, the stored Pod bears the returned
   one and is never submitted again.
   */
  lemma DispatchedOnce(nodeName: string, v: View, pod: PodView, answer: Answer, now: int)
    ensures var w := Created(v, nodeName, pod, answer, now);
            && (w.calls != v.calls <==> NeedsDispatch(pod.labels))
            && pod.key in w.pods
            && (NeedsDispatch(pod.labels) && answer.Accepted? ==>
                  && Registers(w.pods[pod.key].labels) && !NeedsDispatch(w.pods[pod.key].labels)
                  && IdentifierOf(w.pods[pod.key].labels) == answer.meta.identifier)
            && (!NeedsDispatch(pod.labels) ==> w.pods[pod.key].labels == pod.labels)
  {
    AppliedKeepsKind(answer, pod.labels);
    hide Changed, Applied, Converted, IsTracked, Identified, IdentifierOf, Meta;
    var call := CallsFor(Loaded(v.pending, pod), nodeName);
    assert |v.calls + call| == |v.calls| + |call|;
  }
}
