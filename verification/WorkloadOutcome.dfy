/**
 What a workload pass comes to, read off what happened to it alone: when it commits, what it applies, lists, pushes and
 deletes, and what it leaves untouched (workload/reconciler.go).
 */
module WorkloadOutcome {
  import opened Inventory
  import opened Naming
  import opened WorkloadReconciler

  // Pushes

  /** How many of the first k changes were not reconfigurations. */
  function Unconfigured(actions: seq<Action>, k: nat): nat
    requires k <= |actions|
  {
    if k == 0 then 0 else Unconfigured(actions, k - 1) + if actions[k - 1].Configured? then 0 else 1
  }

  /** How many pushes the first k changes call for: one each, and one more for the primary Pod. */
  function Due(actions: seq<Action>, k: nat): nat
    requires k <= |actions|
  {
    Unconfigured(actions, k) + if k > 0 && !actions[0].Configured? then 1 else 0
  }

  lemma {:induction false} PushesCount(pods: seq<UntrackedPod>, actions: seq<Action>, k: nat)
    requires k <= |pods| && k <= |actions|
    ensures |Pushes(pods, actions, k)| == Due(actions, k)
    decreases k
  {
    if k > 0 {
      PushesCount(pods, actions, k - 1);
      PushesForLength(pods[k - 1], actions[k - 1], k - 1);
      hide PushesFor;
    }
  }

  /**
   The pushes of one job in order: each Pod that was not reconfigured has its own, after those of the Pods before it,
   and the tracker's comes right after the primary Pod's.
   */
  lemma PushPositions(pods: seq<UntrackedPod>, actions: seq<Action>, k: nat, i: nat)
    requires i < k <= |pods| && k <= |actions| && !actions[i].Configured?
    ensures var pushes := Pushes(pods, actions, k);
            && |pushes| == Due(actions, k) > Due(actions, i)
            && pushes[Due(actions, i)] == ToProvider(pods[i])
            && (i == 0 ==> |pushes| > 1 && pushes[1] == ToTracker(pods[0]))
  {
    PushesCount(pods, actions, i);
    PushesCount(pods, actions, i + 1);
    PushesCount(pods, actions, k);
    PushesGrow(pods, actions, i + 1, k);
    assert Pushes(pods, actions, i + 1) == Pushes(pods, actions, i) + PushesFor(pods[i], actions[i], i);
  }

  /** The job's Pods were applied and no push of theirs failed. */
  predicate GoesThrough(item: Item) {
    item.apply.Applied? && (item.pushFails.None?
      || item.pushFails.value >= Due(item.apply.actions, |item.apply.actions|))
  }

  /** A push that fails has been made, and is the last one. */
  lemma PushedUpToFailure(item: Item)
    requires Matched(item)
    ensures Alone(item).ok <==> GoesThrough(item)
    ensures !item.apply.Applied? ==> Alone(item).pushed == []
    ensures item.apply.Applied? ==>
              var all := Pushes(ToPods(item.workload), item.apply.actions, |item.apply.actions|);
              && Alone(item).pushed <= all
              && |Alone(item).pushed| == if GoesThrough(item) then |all| else item.pushFails.value + 1
  {
    hide Ids, Pushes, ToPods;
    if item.apply.Applied? {
      PushesCount(ToPods(item.workload), item.apply.actions, |item.apply.actions|);
    }
  }

  // The stream

  ghost predicate AllGoThrough(items: seq<Item>) { forall k | 0 <= k < |items| :: GoesThrough(items[k]) }

  lemma {:induction false} StreamGoesThrough(items: seq<Item>)
    requires forall k | 0 <= k < |items| :: Matched(items[k])
    ensures Streamed(items).ok <==> AllGoThrough(items)
    decreases |items|
  {
    hide Alone, GoesThrough;
    if items != [] {
      var n := |items| - 1;
      StreamGoesThrough(items[..n]);
      PushedUpToFailure(items[n]);
      assert forall k | 0 <= k < n :: items[..n][k] == items[k];
    }
  }

  /** The stream stops at the first job that does not go through, with that job's share done. */
  lemma StreamStopsAt(items: seq<Item>, k: nat)
    requires k < |items| && (forall i | 0 <= i < |items| :: Matched(items[i]))
    requires AllGoThrough(items[..k]) && !GoesThrough(items[k])
    ensures Streamed(items) == Then(Streamed(items[..k]), Alone(items[k])) && !Streamed(items).ok
  {
    hide Alone, GoesThrough, Streamed;
    StreamGoesThrough(items[..k]);
    StreamedNext(items, k);
    PushedUpToFailure(items[k]);
    StreamedStops(items, k + 1);
  }

  /** The job puts the id into the cluster. */
  predicate Touches(item: Item, id: Id) {
    match item.apply
    case ConvertFails => false
    case ApplyFails(done) => id in done && id in Ids(item.workload)
    case Applied(_) => id in Ids(item.workload)
  }

  /** Some job that was reached, all before it having gone through, puts it there. */
  ghost predicate Applies(items: seq<Item>, id: Id) {
    exists k: nat :: k < |items| && AllGoThrough(items[..k]) && Touches(items[k], id)
  }

  /** Some job that was reached was applied in full and has this id. */
  ghost predicate Lists(items: seq<Item>, id: Id) {
    exists k: nat :: k < |items| && AllGoThrough(items[..k]) && items[k].apply.Applied? && id in Ids(items[k].workload)
  }

  lemma ReachedNext(items: seq<Item>, id: Id)
    requires items != []
    ensures var n := |items| - 1;
            && (Applies(items, id) <==> Applies(items[..n], id) || (AllGoThrough(items[..n]) && Touches(items[n], id)))
            && (Lists(items, id) <==>
                  Lists(items[..n], id)
                  || (AllGoThrough(items[..n]) && items[n].apply.Applied? && id in Ids(items[n].workload)))
  {
    hide AllGoThrough, Touches, Ids;
    var n := |items| - 1;
    assert forall k: nat | k < n :: items[..n][..k] == items[..k] && items[..n][k] == items[k];
    if k: nat :| k < n && AllGoThrough(items[..n][..k]) && Touches(items[..n][k], id) {
      assert AllGoThrough(items[..k]) && Touches(items[k], id);
    }
    if k: nat :|
         k < n && AllGoThrough(items[..n][..k]) && items[..n][k].apply.Applied? && id in Ids(items[..n][k].workload) {
      assert AllGoThrough(items[..k]) && items[k].apply.Applied? && id in Ids(items[k].workload);
    }
  }

  lemma AloneTouches(item: Item, id: Id)
    requires Matched(item)
    ensures id in Alone(item).applied <==> Touches(item, id)
    ensures id in Alone(item).listed <==> item.apply.Applied? && id in Ids(item.workload)
  {
    hide Ids, Pushes;
  }

  /** What a stream applies and lists, exactly. */
  lemma {:induction false} AppliedExactly(items: seq<Item>, id: Id)
    requires forall k | 0 <= k < |items| :: Matched(items[k])
    ensures id in Streamed(items).applied <==> Applies(items, id)
    ensures id in Streamed(items).listed <==> Lists(items, id)
    decreases |items|
  {
    hide Alone, Applies, Lists, AllGoThrough, Touches, Ids;
    if items == [] {
      NothingApplied(id);
    } else {
      var n := |items| - 1;
      AppliedExactly(items[..n], id);
      StreamGoesThrough(items[..n]);
      AloneTouches(items[n], id);
      ReachedNext(items, id);
    }
  }

  lemma NothingApplied(id: Id)
    ensures !Applies([], id) && !Lists([], id)
  {
  }

  /** The ids of a job: one Pod each, under its name in the workload namespace. */
  lemma IdsAre(w: Workload, id: Id)
    ensures id in Ids(w)
       <==> exists i: nat :: i < |ToPods(w)| && id == ObjMeta("supernetes-workload", ToPods(w)[i].name, "", "Pod")
  {
    hide ToPods;
    var ids := IdSeq(ToPods(w));
    assert forall i | 0 <= i < |ids| :: ids[i] == ObjMeta("supernetes-workload", ToPods(w)[i].name, "", "Pod");
    if id in Ids(w) {
      var i :| 0 <= i < |ids| && ids[i] == id;
    }
  }

  // The pass

  /** A pass whose List call fails, the agent being out of reach, changes nothing at all. */
  lemma UnreachableChangesNothing(v: View, s: Script)
    requires AllMatched(s) && !s.opens
    ensures var (w, r) := Pass(v, s);
            w == v && !r.ok && r.applied == {} && r.listed == {} && r.stale == {} && r.pushed == []
  {
  }

  /** The first pass is over once taking stock fails: only what was listed up to there is remembered. */
  lemma FailedStockTaking(v: View, s: Script)
    requires AllMatched(s) && s.opens && v.inventory.None?
    requires s.populate.PodList? ==> s.populate.badGvk.Some? && s.populate.badGvk.value < |s.populate.pods|
    ensures var (w, r) := Pass(v, s);
            && w.cluster == v.cluster && !r.ok && r.applied == {} && r.listed == {} && r.stale == {} && r.pushed == []
            && w.inventory.Some?
            && forall id :: id in w.inventory.value
                            <==> s.populate.PodList? && id in s.populate.pods[..s.populate.badGvk.value]
  {
  }

  /** An inventory is there, or taking stock went through. */
  predicate Stocked(v: View, s: Script) {
    v.inventory.Some?
    || (s.populate.PodList? && (s.populate.badGvk.None? || s.populate.badGvk.value >= |s.populate.pods|))
  }

  /** What the pass starts from. */
  predicate Known(v: View, s: Script, id: Id) {
    if v.inventory.Some? then id in v.inventory.value else s.populate.PodList? && id in s.populate.pods
  }

  /** The stream went through to its end, so stale Pods are looked for. */
  ghost predicate Sweeps(v: View, s: Script) {
    s.opens && Stocked(v, s) && AllGoThrough(s.items) && s.end.Eof?
  }

  /**
   A pass commits if and only if the list call succeeded, an inventory was there or could be made, every job was applied
   and pushed, the stream ended properly, and the stale Pods were deleted.
   */
  lemma CommitsIff(v: View, s: Script)
    requires AllMatched(s)
    ensures Pass(v, s).1.ok <==> Sweeps(v, s) && s.delete.DeleteOk?
  {
    StreamGoesThrough(s.items);
    hide Streamed, AllGoThrough, Elements;
  }

  /** What a pass deletes and what is in the cluster afterwards, whatever happened to it. */
  lemma ClusterAfter(v: View, s: Script, id: Id)
    requires AllMatched(s)
    ensures var (w, r) := Pass(v, s);
            && (id in r.applied <==> s.opens && Stocked(v, s) && Applies(s.items, id))
            && (id in r.stale <==> Sweeps(v, s) && Known(v, s, id) && !Lists(s.items, id))
            && (id in w.cluster <==>
                  && (id in v.cluster || id in r.applied)
                  && !(id in r.stale && (s.delete.DeleteOk? || id in s.delete.done)))
  {
    StreamGoesThrough(s.items);
    AppliedExactly(s.items, id);
    hide Streamed, AllGoThrough, Applies, Lists;
  }

  /** The inventory afterwards: the listed Pods if it commits, otherwise what it was, or what was taken stock of. */
  lemma InventoryAfter(v: View, s: Script, id: Id)
    requires AllMatched(s) && s.opens && Stocked(v, s)
    ensures var (w, r) := Pass(v, s);
            && w.inventory.Some?
            && (id in w.inventory.value <==> if r.ok then Lists(s.items, id) else Known(v, s, id))
  {
    StreamGoesThrough(s.items);
    AppliedExactly(s.items, id);
    hide Streamed, AllGoThrough, Applies, Lists;
  }
}
