/**
 The tracker's index against the providers' maps, under every interleaving: what it points at, and when it is
 exact.
 */
module ProtocolIndex {
  import opened Wrappers
  import opened Labels
  import opened PodStatus
  import opened Provider
  import opened Protocol

  predicate TrackedAs(labels: LabelMap, id: string) { Registers(labels) && IdentifierOf(labels) == id }

  /** Same tracked/untracked kind and same identifier label. */
  predicate SameIdentity(a: LabelMap, b: LabelMap) {
    && (IsTracked(a) <==> IsTracked(b)) && (Identified(a) <==> Identified(b)) && IdentifierOf(a) == IdentifierOf(b)
  }

  /** The thread inside provider p, if any. */
  function Inside(s: State, p: nat): Pc
    requires p < |s.nodes|
  {
    var m := s.nodes[p].mutex;
    if m.Some? && m.value < |s.threads| then s.threads[m.value] else Idle
  }

  predicate StoredAs(n: Node, k: Key, id: string) { k in n.view.pods && TrackedAs(n.view.pods[k].labels, id) }

  /** A creation under way for a Pod that bears `id`. */
  predicate Creating(pc: Pc, k: Key, id: string) {
    Holding(pc) && pc.job.CreateJob? && pc.cur.key == k && TrackedAs(pc.cur.labels, id)
  }

  /** A deletion under way that has already left the tracker. */
  predicate Leaving(n: Node, pc: Pc, k: Key) { pc.Closing? && Cancels(n.view, pc.job) && pc.job.pod.key == k }

  /** Provider p has, or is creating, a tracked Pod k that bears `id`. */
  predicate Owns(s: State, p: nat, k: Key, id: string) {
    p < |s.nodes| && (StoredAs(s.nodes[p], k, id) || Creating(Inside(s, p), k, id))
  }

  /** ... and the tracker is to point at it: from the write in CreatePod to the write in DeletePod. */
  predicate Indexed(s: State, p: nat, k: Key, id: string) {
    && p < |s.nodes|
    && var n, pc := s.nodes[p], Inside(s, p);
       || (StoredAs(n, k, id) && !Leaving(n, pc, k))
       || (pc.Closing? && Creating(pc, k, id))
  }

  predicate Points(s: State, p: nat, k: Key, id: string) {
    id in s.index.tracked && s.index.tracked[id].provider == p && s.index.tracked[id].key == k
  }

  ghost predicate Unclaimed(s: State, id: string) {
    id != "" && forall p: nat, k: Key :: !Owns(s, p, k, id)
  }

  /**
   What Virtual Kubelet and the agent are relied on for: only unknown Pods are created, only known ones updated; updates
   and deletions keep the identifier label; job ids, returned or already on a Pod, are non-empty and not in use.
   */
  ghost predicate Relied(s: State, a: Action) {
    Enabled(s, a) ==>
      var pc := s.threads[a.t];
      match a
      case LockProvider(_) =>
        var n := s.nodes[pc.p];
        (match pc.job
         case CreateJob(pod) =>
           pod.key !in n.view.pods && (Registers(pod.labels) ==> Unclaimed(s, IdentifierOf(pod.labels)))
         case UpdateJob(pod) => pod.key in n.view.pods && SameIdentity(pod.labels, n.view.pods[pod.key].labels)
         case DeleteJob(pod) => pod.key in n.view.pods ==> SameIdentity(pod.labels, n.view.pods[pod.key].labels)
         case ReportJob(_, _, _, _, _) => true)
      case CallAgent(_, answer) =>
        pc.job.CreateJob? && NeedsDispatch(pc.cur.labels) && answer.Accepted? ==> Unclaimed(s, answer.meta.identifier)
      case _ => true
  }

  /** What the thread inside a provider may rely on until it leaves. */
  ghost predicate MidOk(s: State, p: nat)
    requires p < |s.nodes|
  {
    var n, pc := s.nodes[p], Inside(s, p);
    Holding(pc) ==>
      match pc.job
      case CreateJob(pod) => pc.cur.key == pod.key && pod.key !in n.view.pods
        && (pc.Closing? || pc.Entered? || Registers(pc.cur.labels))
      case UpdateJob(pod) =>
        && pod.key in n.view.pods && SameIdentity(pod.labels, n.view.pods[pod.key].labels)
        && pc.cur == pod && (pc.Entered? || pc.Closing?)
      case DeleteJob(pod) =>
        && (pod.key in n.view.pods ==> SameIdentity(pod.labels, n.view.pods[pod.key].labels))
        && pc.cur == pod && (pc.Entered? || pc.Closing? || Cancels(n.view, pc.job))
      case ReportJob(_, _, _, _, _) => pc.Entered? || pc.Closing?
  }

  ghost predicate Unique(s: State) {
    forall p: nat, k: Key, q: nat, l: Key, id: string ::
      Owns(s, p, k, id) && Owns(s, q, l, id) ==> p == q && k == l
  }

  ghost predicate NonEmpty(s: State) {
    forall p: nat, k: Key, id: string :: Owns(s, p, k, id) ==> id != ""
  }

  ghost predicate Exact(s: State) {
    forall p: nat, k: Key, id: string :: Points(s, p, k, id) <==> Indexed(s, p, k, id)
  }

  ghost predicate IndexInv(s: State) {
    && Locks(s) && Unique(s) && NonEmpty(s) && Exact(s)
    && forall p: nat | p < |s.nodes| :: MidOk(s, p)
  }

  /** The provider an action works inside of, if any. */
  function Site(s: State, a: Action): Option<nat> {
    if a.t >= |s.threads| then None
    else
      var pc := s.threads[a.t];
      if (a.LockProvider? && pc.WantProvider?) || Holding(pc) then Some(pc.p) else None
  }

  /** Nothing changes at providers the action does not work inside of. */
  lemma Elsewhere(s: State, a: Action, q: nat)
    requires Locks(s) && Enabled(s, a) && q < |s.nodes| && Site(s, a) != Some(q)
    ensures |Next(s, a).nodes| == |s.nodes|
    ensures Next(s, a).nodes[q] == s.nodes[q] && Inside(Next(s, a), q) == Inside(s, q)
  {
    hide EnterView, EnterPod, CallView, CallPod, FinishView, UsesTracker, Written, OpOf, NoWriterWaits;
    assert ThreadLocks(s, a.t) && NodeLocks(s, q);
  }

  /**
   At the action's own provider the thread inside is the acting one, before (unless it is just entering) and after
   (unless it leaves).
   */
  lemma Here(s: State, a: Action, p: nat)
    requires Locks(s) && Enabled(s, a) && Site(s, a) == Some(p)
    ensures p < |s.nodes| == |Next(s, a).nodes|
    ensures Inside(s, p) == if a.LockProvider? then Idle else s.threads[a.t]
    ensures Inside(Next(s, a), p) == if a.Finish? then Idle else Next(s, a).threads[a.t]
    ensures !a.Begin? && !a.BeginRoute? && !a.LockLookup? && !a.Lookup?
  {
    hide EnterView, EnterPod, CallView, CallPod, FinishView, UsesTracker, Written, OpOf, NoWriterWaits;
    assert ThreadLocks(s, a.t) && NodeLocks(s, s.threads[a.t].p);
  }

  /** The Pod for which an entering or dispatching thread may claim an identifier. */
  function ClaimKey(s: State, a: Action): Key
    requires a.t < |s.threads| && (s.threads[a.t].WantProvider? || Holding(s.threads[a.t]))
  {
    JobPod(s.threads[a.t].job).key
  }

  // What each action does to Owns and Indexed at its own provider

  lemma EnterKeeps(s: State, a: Action, p: nat, k: Key, id: string)
    requires p < |s.nodes| && Locks(s) && Enabled(s, a) && Relied(s, a) && a.LockProvider? && Site(s, a) == Some(p)
    ensures Indexed(Next(s, a), p, k, id) <==> Indexed(s, p, k, id)
    ensures Owns(Next(s, a), p, k, id) ==> Owns(s, p, k, id) || Unclaimed(s, id)
    ensures Owns(Next(s, a), p, k, id) && !Owns(s, p, k, id) ==> k == ClaimKey(s, a)
    ensures |Next(s, a).nodes| == |s.nodes| && MidOk(Next(s, a), p)
  {
    Here(s, a, p);
    hide IsTracked, Identified, IdentifierOf, Registers, SameIdentity, Locks;
  }

  lemma CallKeeps(s: State, a: Action, p: nat, k: Key, id: string)
    requires p < |s.nodes| && Locks(s) && Enabled(s, a) && Relied(s, a) && a.CallAgent? && Site(s, a) == Some(p)
      && MidOk(s, p)
    ensures Indexed(Next(s, a), p, k, id) <==> Indexed(s, p, k, id)
    ensures Owns(Next(s, a), p, k, id) ==> Owns(s, p, k, id) || Unclaimed(s, id)
    ensures Owns(Next(s, a), p, k, id) && !Owns(s, p, k, id) ==> k == ClaimKey(s, a)
    ensures |Next(s, a).nodes| == |s.nodes| && MidOk(Next(s, a), p)
  {
    Here(s, a, p);
    AppliedKeepsKind(a.answer, s.threads[a.t].cur.labels);
    hide IsTracked, Identified, IdentifierOf, SameIdentity, Locks, Applied, Converted, Meta;
  }

  lemma TrackerSteps(s: State, a: Action, p: nat, k: Key, id: string)
    requires p < |s.nodes| && Locks(s) && Enabled(s, a) && a.LockTracker? && Site(s, a) == Some(p) && MidOk(s, p)
    ensures Indexed(Next(s, a), p, k, id) <==> Indexed(s, p, k, id)
    ensures Owns(Next(s, a), p, k, id) <==> Owns(s, p, k, id)
    ensures |Next(s, a).nodes| == |s.nodes| && MidOk(Next(s, a), p)
  {
    Here(s, a, p);
    hide IsTracked, Identified, IdentifierOf, Registers, SameIdentity, Locks, NoWriterWaits;
  }

  lemma WriteChanges(s: State, a: Action, p: nat, k: Key, id: string)
    requires p < |s.nodes| && Locks(s) && Enabled(s, a) && a.WriteTracker? && Site(s, a) == Some(p) && MidOk(s, p)
    ensures Owns(Next(s, a), p, k, id) <==> Owns(s, p, k, id)
    ensures |Next(s, a).nodes| == |s.nodes| && MidOk(Next(s, a), p)
    ensures var pc := s.threads[a.t];
            && (pc.job.CreateJob? || pc.job.DeleteJob?)
            && (pc.job.CreateJob? ==>
                  && Registers(pc.cur.labels) && Owns(s, p, pc.cur.key, IdentifierOf(pc.cur.labels))
                  && (Indexed(Next(s, a), p, k, id)
                      <==> Indexed(s, p, k, id) || (k == pc.cur.key && id == IdentifierOf(pc.cur.labels))))
            && (pc.job.DeleteJob? ==>
                  && Cancels(s.nodes[p].view, pc.job) && pc.cur == pc.job.pod
                  && (Indexed(Next(s, a), p, k, id) <==> Indexed(s, p, k, id) && k != pc.cur.key)
                  && (StoredAs(s.nodes[p], pc.cur.key, id)
                      <==> Identified(pc.cur.labels) && id == IdentifierOf(pc.cur.labels)))
  {
    Here(s, a, p);
    hide IsTracked, Identified, IdentifierOf, Locks, NoWriterWaits;
  }

  lemma FinishKeeps(s: State, a: Action, p: nat, k: Key, id: string)
    requires p < |s.nodes| && Locks(s) && Enabled(s, a) && a.Finish? && Site(s, a) == Some(p) && MidOk(s, p)
    ensures Indexed(Next(s, a), p, k, id) <==> Indexed(s, p, k, id)
    ensures Owns(Next(s, a), p, k, id) ==> Owns(s, p, k, id)
    ensures |Next(s, a).nodes| == |s.nodes| && MidOk(Next(s, a), p)
  {
    Here(s, a, p);
    hide Changed, Told, IsTracked, Identified, IdentifierOf, Locks, NoWriterWaits;
  }

  // Put together

  lemma IndexedIsOwned(s: State, p: nat, k: Key, id: string)
    ensures Indexed(s, p, k, id) ==> Owns(s, p, k, id)
  {
    hide TrackedAs;
  }

  lemma OwnsStep(s: State, a: Action, p: nat, k: Key, id: string)
    requires p < |s.nodes| && Locks(s) && MidOk(s, p) && Enabled(s, a) && Relied(s, a)
    ensures |Next(s, a).nodes| == |s.nodes| && MidOk(Next(s, a), p)
    ensures Owns(Next(s, a), p, k, id) && !Owns(s, p, k, id) ==>
              (Unclaimed(s, id) && Site(s, a) == Some(p) && k == ClaimKey(s, a))
    ensures !a.WriteTracker? ==> (Indexed(Next(s, a), p, k, id) <==> Indexed(s, p, k, id))
  {
    if Site(s, a) == Some(p) {
      Here(s, a, p);
      hide Owns, Indexed, MidOk, Locks, Relied, Unclaimed, Next;
      match a {
        case LockProvider(_) => EnterKeeps(s, a, p, k, id);
        case CallAgent(_, _) => CallKeeps(s, a, p, k, id);
        case LockTracker(_) => TrackerSteps(s, a, p, k, id);
        case WriteTracker(_) => WriteChanges(s, a, p, k, id);
        case Finish(_, _) => FinishKeeps(s, a, p, k, id);
        case _ => assert false;
      }
    } else {
      Elsewhere(s, a, p);
      hide TrackedAs, Locks, Relied, Unclaimed, Next, SameIdentity, Cancels;
    }
  }

  lemma UniqueStep(s: State, a: Action)
    requires IndexInv(s) && Enabled(s, a) && Relied(s, a)
    ensures Unique(Next(s, a)) && NonEmpty(Next(s, a))
  {
    var s' := Next(s, a);
    NextKeepsSizes(s, a);
    hide Next, Locks, MidOk, Relied, Exact, Indexed;
    forall p: nat, k: Key, id: string | Owns(s', p, k, id)
      ensures p < |s.nodes| && id != ""
      ensures Owns(s, p, k, id) || (Unclaimed(s, id) && Site(s, a) == Some(p) && k == ClaimKey(s, a))
    {
      OwnsStep(s, a, p, k, id);
      hide Owns;
    }
    hide Owns;
    forall p: nat, k: Key, q: nat, l: Key, id: string | Owns(s', p, k, id) && Owns(s', q, l, id)
      ensures p == q && k == l
    {
    }
  }

  lemma ExactElsewhere(s: State, a: Action)
    requires IndexInv(s) && Enabled(s, a) && Relied(s, a) && !a.WriteTracker?
    ensures Exact(Next(s, a))
  {
    var s' := Next(s, a);
    NextKeepsSizes(s, a);
    assert s'.index.tracked == s.index.tracked by {
      hide EnterView, EnterPod, CallView, CallPod, FinishView, UsesTracker, Written, OpOf, NoWriterWaits, IndexInv,
        Relied;
    }
    hide Next, Locks, MidOk, Relied, Unique, NonEmpty, Owns;
    forall p: nat, k: Key, id: string
      ensures Points(s', p, k, id) <==> Indexed(s', p, k, id)
    {
      if p < |s.nodes| {
        OwnsStep(s, a, p, k, id);
        hide Indexed;
        assert Points(s, p, k, id) <==> Indexed(s, p, k, id);
      } else {
        assert !Indexed(s', p, k, id) && !Indexed(s, p, k, id);
      }
    }
  }

  lemma WriteSite(s: State, a: Action) returns (p: nat)
    requires Locks(s) && Enabled(s, a) && a.WriteTracker?
    ensures p < |s.nodes| && Site(s, a) == Some(p) && p == s.threads[a.t].p
    ensures Next(s, a).index.tracked == Written(s.index.tracked, p, s.threads[a.t].job, s.threads[a.t].cur)
  {
    hide Written, NoWriterWaits;
    p := s.threads[a.t].p;
    assert ThreadLocks(s, a.t);
  }

  lemma WriteAt(s: State, a: Action, p: nat, q: nat, k: Key, id: string)
    requires IndexInv(s) && Enabled(s, a) && a.WriteTracker?
    requires p < |s.nodes| && Site(s, a) == Some(p) && p == s.threads[a.t].p
    requires Next(s, a).index.tracked == Written(s.index.tracked, p, s.threads[a.t].job, s.threads[a.t].cur)
    ensures Points(Next(s, a), q, k, id) <==> Indexed(Next(s, a), q, k, id)
  {
    NextKeepsSizes(s, a);
    assert MidOk(s, p);
    WriteChanges(s, a, p, k, id);
    IndexedIsOwned(s, q, k, id);
    if q < |s.nodes| && q != p {
      Elsewhere(s, a, q);
      assert Indexed(Next(s, a), q, k, id) <==> Indexed(s, q, k, id);
    }
    assert q >= |s.nodes| ==> !Indexed(Next(s, a), q, k, id) && !Indexed(s, q, k, id);
    assert Points(s, q, k, id) <==> Indexed(s, q, k, id);
    OwnsStored(s, p, s.threads[a.t].cur.key, id);
    hide Next, Locks, MidOk, Relied, Owns, Indexed, TrackedAs, IsTracked, Identified, IdentifierOf, Registers;
    WriteCases(s, a, p, q, k, id);
  }

  lemma OwnsStored(s: State, p: nat, k: Key, id: string)
    requires p < |s.nodes|
    ensures StoredAs(s.nodes[p], k, id) ==> Owns(s, p, k, id)
  {
    hide TrackedAs;
  }

  /** The case analysis behind WriteAt, in terms of the facts established there. */
  lemma WriteCases(s: State, a: Action, p: nat, q: nat, k: Key, id: string)
    requires Enabled(s, a) && a.WriteTracker? && p < |s.nodes| && p == s.threads[a.t].p
    requires Unique(s) && NonEmpty(s)
    requires Next(s, a).index.tracked == Written(s.index.tracked, p, s.threads[a.t].job, s.threads[a.t].cur)
    requires Points(s, q, k, id) <==> Indexed(s, q, k, id)
    requires Indexed(s, q, k, id) ==> Owns(s, q, k, id)
    requires q != p ==> (Indexed(Next(s, a), q, k, id) <==> Indexed(s, q, k, id))
    requires var pc := s.threads[a.t];
             && (pc.job.CreateJob? || pc.job.DeleteJob?)
             && (pc.job.CreateJob? ==>
                   && Owns(s, p, pc.cur.key, IdentifierOf(pc.cur.labels))
                   && (q == p ==> (Indexed(Next(s, a), p, k, id)
                       <==> Indexed(s, p, k, id) || (k == pc.cur.key && id == IdentifierOf(pc.cur.labels)))))
             && (pc.job.DeleteJob? ==>
                   && (q == p ==> (Indexed(Next(s, a), p, k, id) <==> Indexed(s, p, k, id) && k != pc.cur.key))
                   && (StoredAs(s.nodes[p], pc.cur.key, id)
                       <==> Identified(pc.cur.labels) && id == IdentifierOf(pc.cur.labels))
                   && (StoredAs(s.nodes[p], pc.cur.key, id) ==> Owns(s, p, pc.cur.key, id))
                   && (Indexed(s, p, pc.cur.key, id) ==> StoredAs(s.nodes[p], pc.cur.key, id)))
    ensures Points(Next(s, a), q, k, id) <==> Indexed(Next(s, a), q, k, id)
  {
    hide Next, Owns, Indexed, StoredAs, IsTracked, Registers;
    var pc := s.threads[a.t];
    var id0 := IdentifierOf(pc.cur.labels);
    if pc.job.CreateJob? {
      if id == id0 && Indexed(s, q, k, id) {
        assert q == p && k == pc.cur.key;
      }
    } else if id == id0 && Indexed(s, q, k, id) {
      assert id != "";
      assert Identified(pc.cur.labels);
      assert q == p && k == pc.cur.key;
    }
  }

  lemma ExactWrite(s: State, a: Action)
    requires IndexInv(s) && Enabled(s, a) && a.WriteTracker?
    ensures Exact(Next(s, a))
  {
    hide Next, Locks, Unique, NonEmpty, MidOk, Site, Written;
    var p := WriteSite(s, a);
    forall q: nat, k: Key, id: string ensures Points(Next(s, a), q, k, id) <==> Indexed(Next(s, a), q, k, id) {
      WriteAt(s, a, p, q, k, id);
      hide Points, Indexed;
    }
  }

  lemma NextKeepsIndex(s: State, a: Action)
    requires IndexInv(s) && Relied(s, a)
    ensures IndexInv(Next(s, a))
  {
    hide Next, Locks, Unique, NonEmpty, Exact, MidOk, Relied;
    NextKeepsLocks(s, a);
    NextKeepsSizes(s, a);
    if Enabled(s, a) {
      UniqueStep(s, a);
      if a.WriteTracker? {
        ExactWrite(s, a);
      } else {
        ExactElsewhere(s, a);
      }
      forall p: nat | p < |s.nodes| ensures MidOk(Next(s, a), p) {
        OwnsStep(s, a, p, Key("", ""), "");
      }
    } else {
      DisabledStays(s, a);
    }
  }

  ghost predicate AllRelied(s: State, run: seq<Action>) {
    forall k | 0 <= k < |run| :: Relied(After(s, run[..k]), run[k])
  }

  lemma {:induction false} IndexAlways(s: State, run: seq<Action>)
    requires Initial(s) && AllRelied(s, run)
    ensures IndexInv(After(s, run))
    decreases |run|
  {
    hide Relied, IndexInv, Next, Initial, AllRelied;
    if run == [] {
      InitiallyExact(s);
    } else {
      ReliedPrefix(s, run);
      IndexAlways(s, run[..|run| - 1]);
      NextKeepsIndex(After(s, run[..|run| - 1]), run[|run| - 1]);
    }
  }

  lemma ReliedPrefix(s: State, run: seq<Action>)
    requires run != [] && AllRelied(s, run)
    ensures AllRelied(s, run[..|run| - 1]) && Relied(After(s, run[..|run| - 1]), run[|run| - 1])
  {
    hide Relied, After;
    var n := |run| - 1;
    forall k | 0 <= k < n ensures Relied(After(s, run[..n][..k]), run[..n][k]) {
      assert run[..n][..k] == run[..k];
    }
  }

  lemma InitiallyExact(s: State)
    requires Initial(s)
    ensures IndexInv(s)
  {
    hide TrackedAs;
    assert Locks(s);
    assert forall p: nat, k: Key, id: string :: !Owns(s, p, k, id);
    assert forall p: nat, k: Key, id: string :: !Indexed(s, p, k, id);
  }

  /**
   Whenever no provider operation is mid-way, the tracker maps an identifier to a Pod exactly if that Pod is stored at
   that provider, tracked, and bears the identifier; and no identifier is borne twice.
   */
  lemma IndexIsExact(s: State, run: seq<Action>, p: nat, k: Key, id: string)
    requires Initial(s) && AllRelied(s, run)
    requires forall q | 0 <= q < |After(s, run).nodes| :: After(s, run).nodes[q].mutex.None?
    ensures var t := After(s, run);
            && (Points(t, p, k, id) <==> p < |t.nodes| && StoredAs(t.nodes[p], k, id))
            && (forall q: nat, l: Key | p < |t.nodes| && q < |t.nodes| && StoredAs(t.nodes[p], k, id)
              && StoredAs(t.nodes[q], l, id)
                  :: p == q && k == l)
  {
    IndexAlways(s, run);
    hide TrackedAs, Locks, MidOk, After;
    var t := After(s, run);
    assert Points(t, p, k, id) <==> Indexed(t, p, k, id);
    forall q: nat, l: Key | p < |t.nodes| && q < |t.nodes| && StoredAs(t.nodes[p], k, id) && StoredAs(t.nodes[q], l, id)
      ensures p == q && k == l
    {
      assert Owns(t, p, k, id) && Owns(t, q, l, id);
    }
  }
}
