/**
 Workload reconciliation with garbage collection (workload/reconciler.go). Every call out of the process
 (list, populate, apply, status push, delete) has its outcome given by a script, so that a pass can succeed,
 fail or half-fail at any point; the claims are about all runs of such passes.
 */
module WorkloadReconciler {
  import opened Wrappers
  import opened Inventory
  import opened Naming

  type Id = ObjMeta

  /** What ApplyAll did to one object. */
  datatype Action = Created | Configured | Unchanged

  /** ApplyAll: one change per Pod, in order; or an error after applying some of them. */
  datatype Apply = ConvertFails | Applied(actions: seq<Action>) | ApplyFails(done: set<Id>)

  /** One workload of the stream; `pushFails` is the position of a status push that returns an error. */
  datatype Item = Item(workload: Workload, apply: Apply, pushFails: Option<nat>)

  datatype StreamEnd = Eof | Broken

  datatype Populate = ListFails | PodList(pods: seq<Id>, badGvk: Option<nat>)

  datatype Delete = DeleteOk | DeleteFails(done: set<Id>)

  datatype Script = Script(opens: bool, populate: Populate, items: seq<Item>, end: StreamEnd, delete: Delete)

  /** Status pushes: to the node's provider (cacheable), or through the tracker (not cacheable). */
  datatype Push = ToProvider(pod: UntrackedPod) | ToTracker(pod: UntrackedPod)

  function IdOf(pod: UntrackedPod): Id { PodMeta(NAMESPACE_WORKLOAD, pod.name) }

  function IdSeq(pods: seq<UntrackedPod>): (ids: seq<Id>)
    ensures |ids| == |pods|
  {
    seq(|pods|, i requires 0 <= i < |pods| => IdOf(pods[i]))
  }

  function Ids(w: Workload): set<Id> { Elements(IdSeq(ToPods(w))) }

  /** The library reports one change per object it was given. */
  predicate Matched(item: Item) {
    item.apply.Applied? ==> |item.apply.actions| == |ToPods(item.workload)|
  }

  predicate AllMatched(s: Script) { forall i | 0 <= i < |s.items| :: Matched(s.items[i]) }

  /** A created or unchanged Pod is pushed to its provider; the primary one also to the tracker. */
  function PushesFor(pod: UntrackedPod, action: Action, index: nat): seq<Push> {
    if action.Configured? then []
    else if index == 0 then [ToProvider(pod), ToTracker(pod)]
    else [ToProvider(pod)]
  }

  /** The pushes of the first k changes. */
  function Pushes(pods: seq<UntrackedPod>, actions: seq<Action>, k: nat): seq<Push>
    requires k <= |pods| && k <= |actions|
  {
    if k == 0 then [] else Pushes(pods, actions, k - 1) + PushesFor(pods[k - 1], actions[k - 1], k - 1)
  }

  /** State of the stream loop: what was applied, what the new inventory lists, what was pushed. */
  datatype Progress = Progress(ok: bool, applied: set<Id>, listed: set<Id>, pushed: seq<Push>)

  function UpTo(pushes: seq<Push>, fails: Option<nat>): seq<Push> {
    if fails.Some? && fails.value < |pushes| then pushes[..fails.value + 1] else pushes
  }

  const START := Progress(true, {}, {}, [])

  /** What one workload contributes. */
  function Alone(item: Item): Progress
    requires Matched(item)
  {
    var ids := Ids(item.workload);
    match item.apply
    case ConvertFails => START.(ok := false)
    case ApplyFails(done) => START.(ok := false, applied := done * ids)
    case Applied(actions) =>
      var pushes := Pushes(ToPods(item.workload), actions, |actions|);
      Progress(item.pushFails.None? || item.pushFails.value >= |pushes|, ids, ids, UpTo(pushes, item.pushFails))
  }

  function Then(p: Progress, q: Progress): Progress {
    Progress(q.ok, p.applied + q.applied, p.listed + q.listed, p.pushed + q.pushed)
  }

  /** The loop over the stream, which stops at the first workload that fails. */
  function Streamed(items: seq<Item>): Progress
    requires forall i | 0 <= i < |items| :: Matched(items[i])
  {
    if items == [] then START
    else
      var p := Streamed(items[..|items| - 1]);
      if p.ok then Then(p, Alone(items[|items| - 1])) else p
  }

  /** The untracked Pods in the cluster and what the reconciler believes it has put there. */
  datatype View = View(cluster: set<Id>, inventory: Option<set<Id>>)

  datatype Report = Report(ok: bool, applied: set<Id>, listed: set<Id>, stale: set<Id>, pushed: seq<Push>)

  const NOTHING := Report(false, {}, {}, {}, [])

  function PopulateOk(p: Populate): bool {
    p.PodList? && (p.badGvk.Some? ==> p.badGvk.value >= |p.pods|)
  }

  function Populated(p: Populate): set<Id> {
    if p.ListFails? then {} else Elements(if PopulateOk(p) then p.pods else p.pods[..p.badGvk.value])
  }

  /** One pass. */
  function Pass(v: View, s: Script): (View, Report)
    requires AllMatched(s)
  {
    if !s.opens then (v, NOTHING)
    else if v.inventory.None? && !PopulateOk(s.populate) then (v.(inventory := Some(Populated(s.populate))), NOTHING)
    else
      var inventory := if v.inventory.None? then Populated(s.populate) else v.inventory.value;
      var p := Streamed(s.items);
      var cluster := v.cluster + p.applied;
      if !p.ok || s.end.Broken? then (View(cluster, Some(inventory)), Report(false, p.applied, p.listed, {}, p.pushed))
      else
        var stale := inventory - p.listed;
        match s.delete
        case DeleteFails(done) =>
          (View(cluster - done * stale, Some(inventory)), Report(false, p.applied, p.listed, stale, p.pushed))
        case DeleteOk =>
          (View(cluster - stale, Some(p.listed)), Report(true, p.applied, p.listed, stale, p.pushed))
  }

  class Reconciler {
    var cluster: set<Id> // The API server's untracked Pods
    var inventory: Inventory?
    var pushed: seq<Push>

    ghost predicate Valid()
      reads this, inventory
    {
      inventory != null ==> AllEncoded(inventory.entries)
    }

    ghost function V(): View
      reads this, inventory
    {
      View(cluster, if inventory == null then None else Some(Metas(inventory.entries)))
    }

    constructor (cluster: set<Id>)
      ensures Valid() && V() == View(cluster, None) && pushed == []
    {
      this.cluster, inventory, pushed := cluster, null, [];
    }

    method Reconcile(s: Script) returns (ok: bool)
      requires Valid() && AllMatched(s)
      modifies this
      ensures Valid()
      ensures V() == Pass(old(V()), s).0
      ensures ok == Pass(old(V()), s).1.ok
      ensures pushed == old(pushed) + Pass(old(V()), s).1.pushed
    {
      if !s.opens {
        return false;
      }
      if inventory == null {
        ok := Initialize(s.populate);
        if !ok {
          return false;
        }
      }
      var newInventory := new Inventory();
      ok := Stream(s.items, newInventory);
      if !ok || s.end.Broken? {
        return false;
      }
      var diff := inventory.Diff(newInventory);
      if diff.Err? {
        assert false;
        return false;
      }
      ok := DeleteAll(diff.value, s.delete, Metas(inventory.entries) - Metas(newInventory.entries), inventory.entries);
      if !ok {
        return false;
      }
      // The commit
      inventory := newInventory;
      return true;
    }

    /** The first pass takes stock of what is in the cluster; if that fails the inventory stays as far as it got. */
    method Initialize(p: Populate) returns (ok: bool)
      requires inventory == null
      modifies this`inventory
      ensures inventory != null && fresh(inventory) && Valid()
      ensures ok == PopulateOk(p) && Metas(inventory.entries) == Populated(p)
    {
      inventory := new Inventory();
      ok := inventory.Populate(if p.PodList? then Some(p.pods) else None, if p.PodList? then p.badGvk else None);
      MetasOfRefs([], if p.ListFails? then [] else if ok then p.pods else p.pods[..p.badGvk.value]);
    }

    method Stream(items: seq<Item>, newInventory: Inventory) returns (ok: bool)
      requires forall i | 0 <= i < |items| :: Matched(items[i])
      requires newInventory.entries == [] && newInventory != inventory
      modifies this`cluster, this`pushed, newInventory
      ensures ok == Streamed(items).ok && pushed == old(pushed) + Streamed(items).pushed
      ensures cluster == old(cluster) + Streamed(items).applied
      ensures AllEncoded(newInventory.entries) && Metas(newInventory.entries) == Streamed(items).listed
    {
      assert AllEncoded([]) && Metas([]) == {};
      hide Streamed, Alone, AllEncoded, Metas, Matched;
      StreamedNone(items);
      ghost var p := START;
      for k := 0 to |items|
        invariant p == Streamed(items[..k]) && p.ok
        invariant pushed == old(pushed) + p.pushed && cluster == old(cluster) + p.applied
        invariant AllEncoded(newInventory.entries) && Metas(newInventory.entries) == p.listed
      {
        StreamedNext(items, k);
        ThenAdds(old(cluster), old(pushed), p, Alone(items[k]));
        ok := Process(items[k], newInventory);
        p := Then(p, Alone(items[k]));
        if !ok {
          StreamedStops(items, k + 1);
          return false;
        }
      }
      assert items[..|items|] == items;
      return true;
    }

    /** Body of the stream loop: convert, apply, record, push. */
    method Process(item: Item, newInventory: Inventory) returns (ok: bool)
      requires Matched(item) && AllEncoded(newInventory.entries)
      modifies this`cluster, this`pushed, newInventory
      ensures var p := Alone(item);
              && ok == p.ok && pushed == old(pushed) + p.pushed && cluster == old(cluster) + p.applied
              && AllEncoded(newInventory.entries)
              && Metas(newInventory.entries) == Metas(old(newInventory.entries)) + p.listed
    {
      if item.apply.ConvertFails? {
        return false;
      }
      var pods := ConvertToPods(item.workload);
      var ids := IdSeq(pods);
      if item.apply.ApplyFails? {
        cluster := cluster + item.apply.done * Elements(ids);
        return false;
      }
      cluster := cluster + Elements(ids);
      MetasOfRefs(newInventory.entries, ids);
      newInventory.AddChangeSet(Some(ids));
      ok := PushAll(pods, item.apply.actions, item.pushFails);
    }

    method PushAll(pods: seq<UntrackedPod>, actions: seq<Action>, fails: Option<nat>) returns (ok: bool)
      requires |pods| == |actions|
      modifies this`pushed
      ensures var pushes := Pushes(pods, actions, |actions|);
              && pushed == old(pushed) + UpTo(pushes, fails)
              && ok == (fails.None? || fails.value >= |pushes|)
    {
      hide Pushes, PushesFor, UpTo;
      var sent := 0;
      NothingPushed(pods, actions);
      for i := 0 to |actions|
        invariant pushed == old(pushed) + Pushes(pods, actions, i)
        invariant sent == |Pushes(pods, actions, i)| && (fails.Some? ==> sent <= fails.value)
      {
        ghost var before, mine := Pushes(pods, actions, i), PushesFor(pods[i], actions[i], i);
        PushesNext(pods, actions, i);
        PushesGrow(pods, actions, i + 1, |actions|);
        PushesForLength(pods[i], actions[i], i);
        var left := if fails.Some? then Some(fails.value - sent) else None;
        ok := PushChange(pods[i], actions[i], i, left);
        if !ok {
          CutShort(old(pushed), before, mine, Pushes(pods, actions, |actions|), fails.value);
          return false;
        }
        NotCut(mine, left);
        sent := sent + if actions[i].Configured? then 0 else if i == 0 then 2 else 1;
        assert old(pushed) + before + mine == old(pushed) + (before + mine);
      }
      NotCut(Pushes(pods, actions, |actions|), fails);
      return true;
    }

    method PushChange(pod: UntrackedPod, action: Action, index: nat, fails: Option<nat>) returns (ok: bool)
      modifies this`pushed
      ensures pushed == old(pushed) + UpTo(PushesFor(pod, action, index), fails)
      ensures ok == (fails.None? || fails.value >= |PushesFor(pod, action, index)|)
    {
      if action.Created? || action.Unchanged? {
        pushed := pushed + [ToProvider(pod)];
        if fails == Some(0) {
          return false;
        }
        if index == 0 {
          pushed := pushed + [ToTracker(pod)];
          if fails == Some(1) {
            return false;
          }
        }
      }
      return true;
    }

    method DeleteAll(objects: seq<Object>, outcome: Delete, ghost stale: set<Id>,
      ghost entries: seq<Ref>) returns (ok: bool)
      requires Enumerates(objects, stale, entries)
      modifies this`cluster
      ensures ok == outcome.DeleteOk?
      ensures cluster == old(cluster) - if ok then stale else outcome.done * stale
    {
      var ids := set i | 0 <= i < |objects| :: objects[i].meta;
      assert ids == stale by {
        forall m | m in stale ensures m in ids { assert Contains(objects, m); }
      }
      match outcome
      case DeleteOk => cluster := cluster - ids; return true;
      case DeleteFails(done) => cluster := cluster - done * ids; return false;
    }
  }

  lemma {:induction false} PushesGrow(pods: seq<UntrackedPod>, actions: seq<Action>, k: nat, n: nat)
    requires k <= n <= |pods| && n <= |actions|
    ensures Pushes(pods, actions, k) <= Pushes(pods, actions, n)
    decreases n - k
  {
    if k < n {
      PushesGrow(pods, actions, k, n - 1);
    }
  }

  lemma NothingPushed(pods: seq<UntrackedPod>, actions: seq<Action>)
    ensures Pushes(pods, actions, 0) == []
  {
  }

  lemma PushesNext(pods: seq<UntrackedPod>, actions: seq<Action>, k: nat)
    requires k < |pods| && k < |actions|
    ensures Pushes(pods, actions, k + 1) == Pushes(pods, actions, k) + PushesFor(pods[k], actions[k], k)
  {
    hide PushesFor;
  }

  lemma NotCut(pushes: seq<Push>, fails: Option<nat>)
    requires fails.Some? ==> fails.value >= |pushes|
    ensures UpTo(pushes, fails) == pushes
  {
  }

  lemma PushesForLength(pod: UntrackedPod, action: Action, index: nat)
    ensures |PushesFor(pod, action, index)| == if action.Configured? then 0 else if index == 0 then 2 else 1
  {
  }

  lemma CutShort(old_: seq<Push>, before: seq<Push>, mine: seq<Push>, all: seq<Push>, fails: nat)
    requires before + mine <= all && |before| <= fails < |before| + |mine|
    ensures old_ + before + UpTo(mine, Some(fails - |before|)) == old_ + UpTo(all, Some(fails))
  {
    assert all[..fails + 1] == before + mine[..fails - |before| + 1];
  }

  lemma StreamedNone(items: seq<Item>)
    ensures Streamed(items[..0]) == START
  {
  }

  lemma ThenAdds(cluster: set<Id>, pushed: seq<Push>, p: Progress, q: Progress)
    ensures cluster + p.applied + q.applied == cluster + Then(p, q).applied
    ensures pushed + p.pushed + q.pushed == pushed + Then(p, q).pushed
  {
  }

  lemma StreamedNext(items: seq<Item>, k: nat)
    requires k < |items| && forall i | 0 <= i < |items| :: Matched(items[i])
    requires Streamed(items[..k]).ok
    ensures Streamed(items[..k + 1]) == Then(Streamed(items[..k]), Alone(items[k]))
  {
    hide Alone;
    assert items[..k + 1][..k] == items[..k];
  }

  lemma {:induction false} StreamedStops(items: seq<Item>, k: nat)
    requires k <= |items| && (forall i | 0 <= i < |items| :: Matched(items[i])) && !Streamed(items[..k]).ok
    ensures Streamed(items) == Streamed(items[..k])
    decreases |items| - k
  {
    if k == |items| {
      assert items[..k] == items;
    } else {
      hide Alone;
      assert items[..k + 1][..k] == items[..k];
      StreamedStops(items, k + 1);
    }
  }

  // Accounting over runs

  /** The state after any run of passes, each with its own fate. */
  function After(v: View, run: seq<Script>): View
    requires forall i | 0 <= i < |run| :: AllMatched(run[i])
  {
    if run == [] then v else Pass(After(v, run[..|run| - 1]), run[|run| - 1]).0
  }

  ghost predicate Matching(run: seq<Script>) { forall i | 0 <= i < |run| :: AllMatched(run[i]) }

  function ReportAt(v: View, run: seq<Script>, k: nat): Report
    requires k < |run| && forall i | 0 <= i < |run| :: AllMatched(run[i])
  {
    Pass(After(v, run[..k]), run[k]).1
  }

  /** Untracked Pods no inventory accounts for: nothing will ever delete them unless they are listed again. */
  function Leaked(v: View): set<Id> {
    if v.inventory.Some? then v.cluster - v.inventory.value else {}
  }

  /** Pods a pass leaves behind: applied by a pass that did not commit, or missed by a failed Populate. */
  function LeakedBy(v: View, s: Script): set<Id>
    requires AllMatched(s)
  {
    var (v', r) := Pass(v, s);
    if r.ok || v'.inventory.None? then {}
    else if v.inventory.Some? then r.applied - v.inventory.value
    else v.cluster + r.applied - v'.inventory.value
  }

  /** The list call that initialises the inventory reports the untracked Pods there are. */
  ghost predicate Accurate(v: View, s: Script) {
    v.inventory.None? && PopulateOk(s.populate) ==> Populated(s.populate) == v.cluster
  }

  lemma CommittedListsAll(items: seq<Item>)
    requires (forall i | 0 <= i < |items| :: Matched(items[i])) && Streamed(items).ok
    ensures Streamed(items).applied == Streamed(items).listed == ListedBy(items)
  {
    hide Ids, Pushes;
    if items != [] {
      CommittedListsAll(items[..|items| - 1]);
    }
  }

  /** The Pods of all jobs of a listing. */
  function ListedBy(items: seq<Item>): set<Id> {
    if items == [] then {} else ListedBy(items[..|items| - 1]) + Ids(items[|items| - 1].workload)
  }

  /**
   What one pass does, exactly: a pass that commits leaves the Pods of the listed jobs plus what had leaked before, and
   reclaims any of those it lists; a pass that fails anywhere adds precisely its own leak.
   */
  lemma PassAccounts(v: View, s: Script)
    requires AllMatched(s) && Accurate(v, s)
    ensures var (v', r) := Pass(v, s);
            if r.ok then
              && v'.inventory == Some(ListedBy(s.items)) && r.listed == r.applied == ListedBy(s.items)
              && v'.cluster == ListedBy(s.items) + Leaked(v)
              && Leaked(v') == Leaked(v) - ListedBy(s.items)
            else Leaked(v') == Leaked(v) + LeakedBy(v, s)
  {
    hide Streamed, Elements;
    if Pass(v, s).1.ok {
      CommittedListsAll(s.items);
    }
  }

  /** Garbage collection only ever touches what an inventory held and never what the pass itself applied. */
  lemma DeletesOnlyStale(v: View, s: Script)
    requires AllMatched(s)
    ensures var (v', r) := Pass(v, s);
            && r.stale !! r.applied
            && v.cluster + r.applied - r.stale <= v'.cluster <= v.cluster + r.applied
            && (r.stale != {} ==> v.inventory.Some? || PopulateOk(s.populate))
            && r.stale <= (if v.inventory.Some? then v.inventory.value else Populated(s.populate))
  {
    hide Streamed, Elements;
    if Pass(v, s).1.stale != {} {
      StreamedApplied(s.items);
    }
  }

  lemma StreamedApplied(items: seq<Item>)
    requires (forall i | 0 <= i < |items| :: Matched(items[i])) && Streamed(items).ok
    ensures Streamed(items).applied == Streamed(items).listed
  {
    CommittedListsAll(items);
  }

  ghost predicate AllAccurate(v: View, run: seq<Script>)
    requires Matching(run)
  {
    forall k | 0 <= k < |run| :: Accurate(After(v, run[..k]), run[k])
  }

  /** Left behind by pass k and listed by no pass that committed later. */
  ghost predicate LeaksFrom(v: View, run: seq<Script>, id: Id, k: nat)
    requires k < |run| && Matching(run)
  {
    && id in LeakedBy(After(v, run[..k]), run[k])
    && forall j | k < j < |run| :: ReportAt(v, run, j).ok ==> id !in ListedBy(run[j].items)
  }

  lemma LeaksFromExtends(v: View, run: seq<Script>, id: Id, k: nat)
    requires |run| > 0 && k < |run| - 1 && Matching(run)
    ensures Matching(run[..|run| - 1])
    ensures LeaksFrom(v, run, id, k)
       <==> LeaksFrom(v, run[..|run| - 1], id, k)
            && (ReportAt(v, run, |run| - 1).ok ==> id !in ListedBy(run[|run| - 1].items))
  {
    hide After, Pass, ListedBy, LeakedBy;
    var before := run[..|run| - 1];
    assert forall j | 0 <= j < |before| :: before[j] == run[j];
    assert before[..k] == run[..k];
    forall j | k < j < |before| ensures ReportAt(v, before, j) == ReportAt(v, run, j) {
      assert before[..j] == run[..j];
    }
  }

  lemma AccuratePrefix(v: View, run: seq<Script>)
    requires |run| > 0 && Matching(run) && AllAccurate(v, run)
    ensures Matching(run[..|run| - 1]) && AllAccurate(v, run[..|run| - 1])
    ensures Accurate(After(v, run[..|run| - 1]), run[|run| - 1])
  {
    hide After, Accurate;
    var before := run[..|run| - 1];
    forall k | 0 <= k < |before| ensures Accurate(After(v, before[..k]), before[k]) {
      assert before[..k] == run[..k];
    }
  }

  /** Some pass left `id` behind and no later committed pass listed it. */
  ghost predicate EverLeaks(v: View, run: seq<Script>, id: Id)
    requires Matching(run)
  {
    exists k: nat :: k < |run| && LeaksFrom(v, run, id, k)
  }

  lemma EverLeaksOn(v: View, run: seq<Script>, id: Id)
    requires |run| > 0 && Matching(run) && EverLeaks(v, run, id)
    ensures Matching(run[..|run| - 1])
    ensures var n := |run| - 1;
            id in LeakedBy(After(v, run[..n]), run[n])
            || (EverLeaks(v, run[..n], id) && (ReportAt(v, run, n).ok ==> id !in ListedBy(run[n].items)))
  {
    var k: nat :| k < |run| && LeaksFrom(v, run, id, k);
    if k < |run| - 1 {
      hide After, ListedBy, LeakedBy, ReportAt, LeaksFrom;
      LeaksFromExtends(v, run, id, k);
    }
  }

  lemma EverLeaksOff(v: View, run: seq<Script>, id: Id)
    requires |run| > 0 && Matching(run) && Matching(run[..|run| - 1])
    requires var n := |run| - 1;
             id in LeakedBy(After(v, run[..n]), run[n])
             || (EverLeaks(v, run[..n], id) && (ReportAt(v, run, n).ok ==> id !in ListedBy(run[n].items)))
    ensures EverLeaks(v, run, id)
  {
    var n := |run| - 1;
    if id in LeakedBy(After(v, run[..n]), run[n]) {
      assert LeaksFrom(v, run, id, n);
    } else {
      hide After, ListedBy, LeakedBy, ReportAt, LeaksFrom;
      var k: nat :| k < n && LeaksFrom(v, run[..n], id, k);
      LeaksFromExtends(v, run, id, k);
      assert LeaksFrom(v, run, id, k);
    }
  }

  lemma EverLeaksStep(v: View, run: seq<Script>, id: Id)
    requires |run| > 0 && Matching(run)
    ensures Matching(run[..|run| - 1])
    ensures var n := |run| - 1;
            EverLeaks(v, run, id)
            <==> id in LeakedBy(After(v, run[..n]), run[n])
                 || (EverLeaks(v, run[..n], id) && (ReportAt(v, run, n).ok ==> id !in ListedBy(run[n].items)))
  {
    hide After, ListedBy, LeakedBy, ReportAt, EverLeaks;
    var n := |run| - 1;
    if EverLeaks(v, run, id) {
      EverLeaksOn(v, run, id);
    } else if id in LeakedBy(After(v, run[..n]), run[n])
              || (EverLeaks(v, run[..n], id) && (ReportAt(v, run, n).ok ==> id !in ListedBy(run[n].items))) {
      EverLeaksOff(v, run, id);
    }
  }

  /**
   Over every run from a fresh start, whichever passes fail and wherever: a Pod is unaccounted for exactly if some pass
   left it behind and no later committed pass listed it.
   */
  lemma {:induction false} LeakHistory(v: View, run: seq<Script>, id: Id)
    requires v.inventory.None? && Matching(run) && AllAccurate(v, run)
    ensures id in Leaked(After(v, run)) <==> EverLeaks(v, run, id)
    decreases |run|
  {
    if run != [] {
      AccuratePrefix(v, run);
      LeakHistory(v, run[..|run| - 1], id);
      PassAccounts(After(v, run[..|run| - 1]), run[|run| - 1]);
      EverLeaksStep(v, run, id);
      LastPass(v, run);
      hide Pass, ListedBy, LeakedBy, EverLeaks, After, ReportAt, Leaked;
      assert id in Leaked(After(v, run)) <==> EverLeaks(v, run, id);
    }
  }

  lemma LastPass(v: View, run: seq<Script>)
    requires |run| > 0 && Matching(run)
    ensures var n := |run| - 1;
            && (After(v, run), ReportAt(v, run, n)) == Pass(After(v, run[..n]), run[n])
            && (ReportAt(v, run, n).ok ==> LeakedBy(After(v, run[..n]), run[n]) == {})
  {
  }

  /**
   Convergence: when the last pass commits, the cluster holds exactly the Pods of the jobs just listed if and only if
   every Pod an earlier pass left behind is among them.
   */
  lemma ConvergesIff(v: View, run: seq<Script>)
    requires v.inventory.None? && |run| > 0 && Matching(run) && AllAccurate(v, run)
    requires ReportAt(v, run, |run| - 1).ok
    ensures Matching(run[..|run| - 1])
    ensures var listed := ListedBy(run[|run| - 1].items);
            After(v, run).cluster == listed <==> forall id | EverLeaks(v, run[..|run| - 1], id) :: id in listed
  {
    hide Pass, ListedBy, EverLeaks, After, ReportAt, Leaked, LeakedBy, Accurate, AllMatched;
    var n := |run| - 1;
    var before, listed := run[..n], ListedBy(run[n].items);
    AccuratePrefix(v, run);
    PassAccounts(After(v, before), run[n]);
    LastPass(v, run);
    forall id ensures id in Leaked(After(v, before)) <==> EverLeaks(v, before, id) {
      LeakHistory(v, before, id);
    }
    UnionIff(After(v, run).cluster, listed, Leaked(After(v, before)));
  }

  lemma UnionIff(cluster: set<Id>, listed: set<Id>, leaked: set<Id>)
    requires cluster == listed + leaked
    ensures cluster == listed <==> forall id | id in leaked :: id in listed
  {
  }

  /** A failed pass leaves nothing behind exactly when it applied nothing the inventory did not already have. */
  lemma LeavesNothingIff(v: View, s: Script)
    requires AllMatched(s) && Accurate(v, s) && !Pass(v, s).1.ok
    requires v.inventory.Some? || PopulateOk(s.populate)
    ensures LeakedBy(v, s) == {}
       <==> Pass(v, s).1.applied <= if v.inventory.Some? then v.inventory.value else v.cluster
  {
    hide Streamed, Elements, Populated;
    var applied := Pass(v, s).1.applied;
    var known := if v.inventory.Some? then v.inventory.value else v.cluster;
    assert LeakedBy(v, s) == applied - known;
    if applied - known == {} {
      forall id | id in applied ensures id in known { assert id !in applied - known; }
    }
  }

  /** So if no failing pass got past the Pods it already knew, every committed pass leaves exactly the listed Pods. */
  lemma CleanRunConverges(v: View, run: seq<Script>)
    requires v.inventory.None? && |run| > 0 && Matching(run) && AllAccurate(v, run)
    requires ReportAt(v, run, |run| - 1).ok
    requires forall k | 0 <= k < |run| :: LeakedBy(After(v, run[..k]), run[k]) == {}
    ensures After(v, run).cluster == ListedBy(run[|run| - 1].items)
  {
    hide After, ListedBy, LeakedBy, ReportAt;
    ConvergesIff(v, run);
    var before := run[..|run| - 1];
    forall id ensures !EverLeaks(v, before, id) {
      forall k: nat | k < |before| ensures !LeaksFrom(v, before, id, k) {
        assert before[..k] == run[..k];
      }
    }
  }

  /** What has leaked stays in the cluster, whatever passes follow, until a committed pass lists it. */
  lemma {:induction false} LeaksForever(v: View, run: seq<Script>, id: Id)
    requires v.inventory.Some? && id in Leaked(v) && Matching(run)
    requires forall k | 0 <= k < |run| :: ReportAt(v, run, k).ok ==> id !in ListedBy(run[k].items)
    ensures id in Leaked(After(v, run)) && After(v, run).inventory.Some?
    decreases |run|
  {
    if run != [] {
      var n := |run| - 1;
      var before := run[..n];
      forall k | 0 <= k < |before| ensures ReportAt(v, before, k) == ReportAt(v, run, k) {
        assert before[..k] == run[..k];
      }
      LeaksForever(v, before, id);
      PassAccounts(After(v, before), run[n]);
      LastPass(v, run);
      PassKeepsInventory(After(v, before), run[n]);
      hide Pass, ListedBy, After, ReportAt, Leaked, LeakedBy;
      assert id in Leaked(After(v, run)) && After(v, run).inventory.Some?;
    }
  }

  lemma PassKeepsInventory(v: View, s: Script)
    requires AllMatched(s) && v.inventory.Some?
    ensures Pass(v, s).0.inventory.Some?
  {
  }

  /**
   Eventual consistency fails for a job that ends between a failed pass and the next one: its Pods are applied by a pass
   whose stream breaks, the next pass lists no jobs and commits, and the Pods are still there.
   */
  lemma LeakWitness(w: Workload) returns (run: seq<Script>)
    ensures Matching(run) && |run| == 2 && AllAccurate(View({}, None), run)
    ensures ReportAt(View({}, None), run, 1).ok && run[1].items == []
    ensures After(View({}, None), run).cluster == Ids(w) != {}
  {
    run := [Torn(w), QUIET];
    hide Pass, Accurate, Ids, Torn, AllMatched, After, ReportAt, AllAccurate;
    TornPass(w);
    QuietPass(Ids(w));
    RunOfTwo(View({}, None), Torn(w), QUIET);
  }

  /**
   So does a failed initial list, whatever is in the cluster: the empty inventory it leaves is taken for the real one,
   and a committed pass that lists no jobs deletes nothing.
   */
  lemma ListFailureLeaks(cluster: set<Id>) returns (run: seq<Script>)
    ensures Matching(run) && |run| == 2 && AllAccurate(View(cluster, None), run)
    ensures ReportAt(View(cluster, None), run, 1).ok && run[1].items == []
    ensures After(View(cluster, None), run).cluster == cluster
  {
    run := [UNLISTED, QUIET];
    hide Pass, Accurate, AllMatched, After, ReportAt, AllAccurate;
    UnlistedPass(cluster);
    QuietPass(cluster);
    RunOfTwo(View(cluster, None), UNLISTED, QUIET);
  }

  const UNLISTED := Script(true, ListFails, [], Eof, DeleteOk)

  lemma UnlistedPass(cluster: set<Id>)
    ensures AllMatched(UNLISTED) && Accurate(View(cluster, None), UNLISTED)
    ensures Pass(View(cluster, None), UNLISTED).0 == View(cluster, Some({}))
  {
  }

  /** A stream that delivers one job, whose Pods are created, and then breaks. */
  function Torn(w: Workload): Script {
    Script(true, PodList([], None), [Item(w, Applied(seq(|ToPods(w)|, _ => Created)), None)], Broken, DeleteOk)
  }

  const QUIET := Script(true, PodList([], None), [], Eof, DeleteOk)

  lemma TornPass(w: Workload)
    ensures AllMatched(Torn(w)) && Accurate(View({}, None), Torn(w)) && Ids(w) != {}
    ensures Pass(View({}, None), Torn(w)).0 == View(Ids(w), Some({}))
  {
    var pods := ToPods(w);
    assert IdOf(pods[0]) in Ids(w) by { assert IdSeq(pods)[0] == IdOf(pods[0]); }
    hide Ids, Pushes, ToPods;
    assert Elements([]) == {};
    StreamedOne(Torn(w).items[0]);
  }

  lemma QuietPass(left: set<Id>)
    ensures AllMatched(QUIET) && Accurate(View(left, Some({})), QUIET)
    ensures var (v, r) := Pass(View(left, Some({})), QUIET);
            v == View(left, Some({})) && r.ok
  {
  }

  lemma RunOfTwo(v: View, a: Script, b: Script)
    requires AllMatched(a) && AllMatched(b)
    ensures var run := [a, b];
            && After(v, run) == Pass(Pass(v, a).0, b).0
            && ReportAt(v, run, 1) == Pass(Pass(v, a).0, b).1
            && (AllAccurate(v, run) <==> Accurate(v, a) && Accurate(Pass(v, a).0, b))
  {
    hide Pass, Accurate, AllMatched;
    var run := [a, b];
    assert run[..0] == [] && run[..1] == [a] && [a][..0] == [];
    assert After(v, run[..0]) == v && After(v, run[..1]) == Pass(v, a).0;
    if Accurate(v, a) && Accurate(Pass(v, a).0, b) {
      forall k | 0 <= k < |run| ensures Accurate(After(v, run[..k]), run[k]) {
        assert k == 0 || k == 1;
      }
    }
  }

  lemma StreamedOne(item: Item)
    requires Matched(item) && item.apply.Applied? && item.pushFails.None?
    ensures Streamed([item]).applied == Ids(item.workload) && Streamed([item]).ok
  {
    hide Ids, Pushes;
    assert [item][..0] == [];
    assert Streamed([item]) == Then(START, Alone(item));
  }

  /** An id the inventory holds was listed by an earlier committed pass, or by the list call that initialised it. */
  ghost predicate Entered(v: View, run: seq<Script>, id: Id)
    requires Matching(run)
  {
    || (exists j: nat :: j < |run| && ReportAt(v, run, j).ok && id in ListedBy(run[j].items))
    || (exists j: nat :: j < |run| && After(v, run[..j]).inventory.None? && id in Populated(run[j].populate))
  }

  lemma EnteredGrows(v: View, run: seq<Script>, id: Id)
    requires |run| > 0 && Matching(run) && Matching(run[..|run| - 1]) && Entered(v, run[..|run| - 1], id)
    ensures Entered(v, run, id)
  {
    hide After, ListedBy, Populated, Pass;
    var before := run[..|run| - 1];
    if j: nat :| j < |before| && ReportAt(v, before, j).ok && id in ListedBy(before[j].items) {
      assert before[..j] == run[..j];
      assert ReportAt(v, run, j).ok && id in ListedBy(run[j].items);
    } else {
      var j: nat :| j < |before| && After(v, before[..j]).inventory.None? && id in Populated(before[j].populate);
      assert before[..j] == run[..j];
      assert After(v, run[..j]).inventory.None? && id in Populated(run[j].populate);
    }
  }

  lemma {:induction false} InventoryEntered(v: View, run: seq<Script>, id: Id)
    requires v.inventory.None? && Matching(run)
    requires After(v, run).inventory.Some? && id in After(v, run).inventory.value
    ensures Entered(v, run, id)
    decreases |run|
  {
    if run != [] {
      var n := |run| - 1;
      var w := After(v, run[..n]);
      LastPass(v, run);
      PassEnters(w, run[n]);
      hide Pass, ListedBy, Populated;
      if ReportAt(v, run, n).ok && id in ListedBy(run[n].items) {
        assert Entered(v, run, id);
      } else if w.inventory.None? && id in Populated(run[n].populate) {
        assert Entered(v, run, id);
      } else {
        InventoryEntered(v, run[..n], id);
        EnteredGrows(v, run, id);
      }
    }
  }

  lemma PassEnters(v: View, s: Script)
    requires AllMatched(s)
    ensures var (v', r) := Pass(v, s);
            if r.ok then v'.inventory == Some(ListedBy(s.items))
            else if v.inventory.None? && v'.inventory.Some? then v'.inventory == Some(Populated(s.populate))
            else v'.inventory == v.inventory
  {
    hide Elements, Populated, Streamed;
    if Pass(v, s).1.ok {
      CommittedListsAll(s.items);
    }
  }

  /**
   Whatever fails, an object handed to DeleteAll was entered by an earlier committed pass or by the initial list call,
   and is not one the current pass applied.
   */
  lemma StaleWasEntered(v: View, run: seq<Script>, id: Id)
    requires v.inventory.None? && |run| > 0 && Matching(run)
    requires id in ReportAt(v, run, |run| - 1).stale
    ensures Matching(run[..|run| - 1])
    ensures id !in ReportAt(v, run, |run| - 1).applied
    ensures Entered(v, run[..|run| - 1], id)
         || (After(v, run[..|run| - 1]).inventory.None? && id in Populated(run[|run| - 1].populate))
  {
    var n := |run| - 1;
    var w := After(v, run[..n]);
    DeletesOnlyStale(w, run[n]);
    LastPass(v, run);
    hide Pass, Populated, After, Entered;
    if w.inventory.Some? {
      InventoryEntered(v, run[..n], id);
    }
  }

  /**
   Status pushes, exactly: every Pod created or unchanged goes to its provider, the primary one also to the tracker.
   */
  lemma {:induction false} PushedExactly(pods: seq<UntrackedPod>, actions: seq<Action>, k: nat, push: Push)
    requires k <= |pods| && k <= |actions|
    ensures push in Pushes(pods, actions, k)
       <==> match push
            case ToProvider(pod) => exists i: nat :: i < k && pods[i] == pod && !actions[i].Configured?
            case ToTracker(pod) => k > 0 && pods[0] == pod && !actions[0].Configured?
  {
    if k > 0 {
      PushedExactly(pods, actions, k - 1, push);
      if push.ToProvider? && pods[k - 1] == push.pod && !actions[k - 1].Configured? {
        assert k - 1 < k;
      }
    }
  }
}
