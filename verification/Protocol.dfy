/**
 Any number of threads calling any number of providers that share one tracker (provider.go, tracker.go), interleaved
 lock by lock: a mutex per provider, a reader/writer lock in the tracker where a waiting writer holds up new readers,
 and a lookup that releases the tracker's lock before it calls the provider. Calls to the agent and to the notifier
 are assumed to return.
 */
module Protocol {
  import opened Wrappers
  import opened Labels
  import opened PodStatus
  import opened Provider
  import opened ProviderHistory

  /** A provider method call. A report routed by the tracker carries the identifier it was looked up by. */
  datatype Job =
    | CreateJob(pod: PodView)
    | UpdateJob(pod: PodView)
    | DeleteJob(pod: PodView)
    | ReportJob(key: Key, status: Status, cache: bool, via: Option<string>, since: nat)

  datatype Pc =
    | Idle
    | WantProvider(p: nat, job: Job)
    | Entered(p: nat, job: Job, cur: PodView)                      // holding the provider's mutex
    | WantTracker(p: nat, job: Job, cur: PodView, answer: Answer)  // ... and waiting to write the tracker
    | HaveTracker(p: nat, job: Job, cur: PodView, answer: Answer)  // ... and holding its write lock
    | Closing(p: nat, job: Job, cur: PodView, answer: Answer)      // ... and about to store, notify and release
    | WantLookup(id: string, status: Status, cache: bool)
    | HaveLookup(id: string, status: Status, cache: bool)

  /** `history` is auxiliary: the completed operations, in mutex order. */
  datatype Node = Node(name: string, mutex: Option<nat>, view: View, history: seq<Op>)

  datatype Index = Index(writer: Option<nat>, readers: set<nat>, tracked: map<string, Info>)

  datatype State = State(threads: seq<Pc>, nodes: seq<Node>, index: Index)

  datatype Action =
    | Begin(t: nat, p: nat, job: Job)
    | BeginRoute(t: nat, id: string, status: Status, cache: bool)
    | LockProvider(t: nat)
    | CallAgent(t: nat, answer: Answer)
    | LockTracker(t: nat)
    | WriteTracker(t: nat)
    | Finish(t: nat, now: int)
    | LockLookup(t: nat)
    | Lookup(t: nat)

  predicate Holding(pc: Pc) { pc.Entered? || pc.WantTracker? || pc.HaveTracker? || pc.Closing? }

  predicate Holds(pc: Pc, p: nat) { Holding(pc) && pc.p == p }

  function JobPod(job: Job): PodView {
    if job.ReportJob? then PodView(job.key, map[], [], job.status) else job.pod
  }

  /** The local Pod after the first part of a method, and the provider's state by then. */
  function EnterPod(v: View, job: Job): PodView {
    if job.CreateJob? then Loaded(v.pending, job.pod) else JobPod(job)
  }

  function EnterView(v: View, job: Job): View {
    if job.CreateJob? then v.(pending := v.pending - {job.pod.key}) else v
  }

  predicate Cancels(v: View, job: Job) { job.DeleteJob? && job.pod.key in v.pods && IsTracked(job.pod.labels) }

  /** The middle part: the call to the agent, if there is one. */
  function CallPod(job: Job, cur: PodView, answer: Answer): PodView {
    if job.CreateJob? then Dispatched(cur, answer) else cur
  }

  function CallView(v: View, nodeName: string, job: Job, cur: PodView): View {
    v.(calls := v.calls + if job.CreateJob? then CallsFor(cur, nodeName)
                          else if Cancels(v, job) then [Cancel(Meta(cur.key.name, cur.labels))]
                          else [])
  }

  predicate UsesTracker(v: View, job: Job, cur: PodView) {
    (job.CreateJob? && Registers(cur.labels)) || Cancels(v, job)
  }

  function Written(tracked: map<string, Info>, p: nat, job: Job, cur: PodView): map<string, Info> {
    if job.CreateJob? then tracked[IdentifierOf(cur.labels) := Info(cur.key, cur.labels, p)]
    else tracked - {IdentifierOf(cur.labels)}
  }

  /** The last part. */
  function FinishView(v: View, job: Job, cur: PodView, now: int): View {
    match job
    case CreateJob(_) => Stored(v, cur, CREATED, now)
    case UpdateJob(_) => Stored(v, cur, UPDATED, now)
    case DeleteJob(pod) =>
      if pod.key !in v.pods then v
      else v.(pods := v.pods - {pod.key},
              notes := v.notes + [Note(pod.key, Told(pod.status, pod.containers, Succeeded, DELETED, now))])
    case ReportJob(key, status, cache, _, _) => Reported(v, key, status, cache, now)
  }

  function OpOf(job: Job, answer: Answer, now: int): Op {
    match job
    case CreateJob(pod) => Create(pod, answer, now)
    case UpdateJob(pod) => Update(pod, now)
    case DeleteJob(pod) => Delete(pod, now)
    case ReportJob(key, status, cache, _, _) => Report(key, status, cache, now)
  }

  predicate NoWriterWaits(s: State) { forall t | 0 <= t < |s.threads| :: !s.threads[t].WantTracker? }

  predicate Enabled(s: State, a: Action) {
    && a.t < |s.threads|
    && var pc := s.threads[a.t];
       match a
       case Begin(_, p, job) => pc.Idle? && p < |s.nodes| && (job.ReportJob? ==> job.via.None?)
       case BeginRoute(_, _, _, _) => pc.Idle?
       case LockProvider(_) => pc.WantProvider? && pc.p < |s.nodes| && s.nodes[pc.p].mutex.None?
       case CallAgent(_, _) => pc.Entered? && pc.p < |s.nodes|
       case LockTracker(_) => pc.WantTracker? && s.index.writer.None? && s.index.readers == {}
       case WriteTracker(_) => pc.HaveTracker?
       case Finish(_, _) => pc.Closing? && pc.p < |s.nodes|
       case LockLookup(_) => pc.WantLookup? && s.index.writer.None? && NoWriterWaits(s)
       case Lookup(_) => pc.HaveLookup?
  }

  function SetPc(s: State, t: nat, pc: Pc): State
    requires t < |s.threads|
  {
    s.(threads := s.threads[t := pc])
  }

  function SetNode(s: State, p: nat, n: Node): State
    requires p < |s.nodes|
  {
    s.(nodes := s.nodes[p := n])
  }

  /** Where the lookup leads: to the provider found, outside the tracker's lock. */
  function Routed(s: State, id: string, status: Status, cache: bool): Pc {
    if id !in s.index.tracked then Idle
    else
      var info := s.index.tracked[id];
      if info.provider >= |s.nodes| then Idle
      else WantProvider(info.provider, ReportJob(info.key, status, cache, Some(id), |s.nodes[info.provider].history|))
  }

  /** One step; a step that is not enabled leaves the state alone. */
  function Next(s: State, a: Action): State {
    if !Enabled(s, a) then s
    else
      var t, pc := a.t, s.threads[a.t];
      match a
      case Begin(_, p, job) => SetPc(s, t, WantProvider(p, job))
      case BeginRoute(_, id, status, cache) => SetPc(s, t, WantLookup(id, status, cache))
      case LockProvider(_) =>
        var n := s.nodes[pc.p];
        SetPc(SetNode(s, pc.p, n.(mutex := Some(t), view := EnterView(n.view, pc.job))),
              t, Entered(pc.p, pc.job, EnterPod(n.view, pc.job)))
      case CallAgent(_, answer) =>
        var n := s.nodes[pc.p];
        var cur := CallPod(pc.job, pc.cur, answer);
        SetPc(SetNode(s, pc.p, n.(view := CallView(n.view, n.name, pc.job, pc.cur))), t,
              if UsesTracker(n.view, pc.job, cur) then WantTracker(pc.p, pc.job, cur, answer)
              else Closing(pc.p, pc.job, cur, answer))
      case LockTracker(_) =>
        SetPc(s, t, HaveTracker(pc.p, pc.job, pc.cur, pc.answer)).(index := s.index.(writer := Some(t)))
      case WriteTracker(_) =>
        SetPc(s, t, Closing(pc.p, pc.job, pc.cur, pc.answer))
        .(index := s.index.(writer := None, tracked := Written(s.index.tracked, pc.p, pc.job, pc.cur)))
      case Finish(_, now) =>
        var n := s.nodes[pc.p];
        SetPc(SetNode(s, pc.p, Node(n.name, None, FinishView(n.view, pc.job, pc.cur, now),
                                    n.history + [OpOf(pc.job, pc.answer, now)])),
              t, Idle)
      case LockLookup(_) =>
        SetPc(s, t, HaveLookup(pc.id, pc.status, pc.cache)).(index := s.index.(readers := s.index.readers + {t}))
      case Lookup(_) =>
        SetPc(s, t, Routed(s, pc.id, pc.status, pc.cache)).(index := s.index.(readers := s.index.readers - {t}))
  }

  function After(s: State, run: seq<Action>): State {
    if run == [] then s else Next(After(s, run[..|run| - 1]), run[|run| - 1])
  }

  lemma {:induction false} AfterConcat(s: State, first: seq<Action>, second: seq<Action>)
    ensures After(s, first + second) == After(After(s, first), second)
    decreases |second|
  {
    hide Next;
    if second == [] {
      assert first + second == first;
    } else {
      var init := second[..|second| - 1];
      AfterConcat(s, first, init);
      assert (first + second)[..|first + second| - 1] == first + init;
    }
  }

  predicate Initial(s: State) {
    && s.index == Index(None, {}, map[])
    && (forall t | 0 <= t < |s.threads| :: s.threads[t].Idle?)
    && (forall p | 0 <= p < |s.nodes| :: s.nodes[p].mutex.None? && s.nodes[p].view == EMPTY && s.nodes[p].history == [])
  }

  // Locks

  ghost predicate ThreadLocks(s: State, t: nat)
    requires t < |s.threads|
  {
    var pc := s.threads[t];
    && (pc.WantProvider? || Holding(pc) ==> pc.p < |s.nodes|)
    && (Holding(pc) && pc.p < |s.nodes| ==> s.nodes[pc.p].mutex == Some(t))
    && (pc.HaveTracker? <==> s.index.writer == Some(t))
    && (pc.HaveLookup? <==> t in s.index.readers)
  }

  ghost predicate NodeLocks(s: State, p: nat)
    requires p < |s.nodes|
  {
    var m := s.nodes[p].mutex;
    m.Some? ==> m.value < |s.threads| && Holds(s.threads[m.value], p)
  }

  ghost predicate IndexLocks(s: State) {
    && (s.index.writer.Some? ==> s.index.writer.value < |s.threads| && s.index.readers == {})
    && (forall t | t in s.index.readers :: t < |s.threads|)
    && (forall id | id in s.index.tracked :: s.index.tracked[id].provider < |s.nodes|)
  }

  /** Every lock is held by exactly the threads whose program counter says so. */
  ghost predicate Locks(s: State) {
    && (forall t: nat | t < |s.threads| :: ThreadLocks(s, t))
    && (forall p: nat | p < |s.nodes| :: NodeLocks(s, p))
    && IndexLocks(s)
  }

  lemma NextKeepsThreadLocks(s: State, a: Action, t: nat)
    requires Locks(s) && Enabled(s, a) && t < |s.threads|
    ensures |Next(s, a).threads| == |s.threads| && ThreadLocks(Next(s, a), t)
  {
    hide EnterView, EnterPod, CallView, CallPod, FinishView, UsesTracker, Written, OpOf, NoWriterWaits, NodeLocks;
    assert ThreadLocks(s, t) && ThreadLocks(s, a.t);
  }

  lemma NextKeepsNodeLocks(s: State, a: Action, p: nat)
    requires Locks(s) && Enabled(s, a) && p < |s.nodes|
    ensures |Next(s, a).nodes| == |s.nodes| && |Next(s, a).threads| == |s.threads| && NodeLocks(Next(s, a), p)
  {
    hide EnterView, EnterPod, CallView, CallPod, FinishView, UsesTracker, Written, OpOf, NoWriterWaits;
    assert ThreadLocks(s, a.t) && NodeLocks(s, p);
  }

  lemma NextKeepsIndexLocks(s: State, a: Action)
    requires Locks(s) && Enabled(s, a)
    ensures IndexLocks(Next(s, a))
  {
    hide EnterView, EnterPod, CallView, CallPod, FinishView, UsesTracker, OpOf, NoWriterWaits, IdentifierOf;
    assert ThreadLocks(s, a.t);
  }

  lemma NextKeepsLocks(s: State, a: Action)
    requires Locks(s)
    ensures Locks(Next(s, a))
  {
    hide Next, ThreadLocks, NodeLocks, IndexLocks;
    if Enabled(s, a) {
      NextKeepsIndexLocks(s, a);
      NextKeepsSizes(s, a);
      forall t: nat | t < |s.threads| ensures ThreadLocks(Next(s, a), t) { NextKeepsThreadLocks(s, a, t); }
      forall p: nat | p < |s.nodes| ensures NodeLocks(Next(s, a), p) { NextKeepsNodeLocks(s, a, p); }
    } else {
      DisabledStays(s, a);
    }
  }

  lemma DisabledStays(s: State, a: Action)
    requires !Enabled(s, a)
    ensures Next(s, a) == s
  {
  }

  lemma NextKeepsSizes(s: State, a: Action)
    ensures |Next(s, a).threads| == |s.threads| && |Next(s, a).nodes| == |s.nodes|
    ensures forall p | 0 <= p < |s.nodes| :: Next(s, a).nodes[p].name == s.nodes[p].name
  {
    hide EnterView, EnterPod, CallView, CallPod, FinishView, UsesTracker, Written, OpOf, NoWriterWaits;
  }

  lemma {:induction false} LocksAlways(s: State, run: seq<Action>)
    requires Initial(s)
    ensures Locks(After(s, run))
    decreases |run|
  {
    if run != [] {
      LocksAlways(s, run[..|run| - 1]);
      NextKeepsLocks(After(s, run[..|run| - 1]), run[|run| - 1]);
    }
  }

  /** At most one thread is inside a provider, and nobody reads the tracker's map while it is written. */
  lemma MutualExclusion(s: State, run: seq<Action>, t: nat, u: nat)
    requires Initial(s) && t < u < |After(s, run).threads|
    ensures var pcs := After(s, run).threads;
            && !(Holding(pcs[t]) && Holding(pcs[u]) && pcs[t].p == pcs[u].p)
            && !(pcs[t].HaveTracker? && (pcs[u].HaveTracker? || pcs[u].HaveLookup?))
            && !(pcs[u].HaveTracker? && pcs[t].HaveLookup?)
  {
    LocksAlways(s, run);
    assert ThreadLocks(After(s, run), t) && ThreadLocks(After(s, run), u);
  }

  // Progress

  predicate Starts(a: Action) { a.Begin? || a.BeginRoute? }

  /** The step thread t is waiting to take. */
  function Pending(s: State, t: nat): Action
    requires t < |s.threads| && !s.threads[t].Idle?
  {
    match s.threads[t]
    case WantProvider(_, _) => LockProvider(t)
    case Entered(_, _, _) => CallAgent(t, Rejected)
    case WantTracker(_, _, _, _) => LockTracker(t)
    case HaveTracker(_, _, _, _) => WriteTracker(t)
    case Closing(_, _, _, _) => Finish(t, 0)
    case WantLookup(_, _, _) => LockLookup(t)
    case HaveLookup(_, _, _) => Lookup(t)
  }

  predicate CanStep(s: State, t: nat) {
    t < |s.threads| && !s.threads[t].Idle? && Enabled(s, Pending(s, t))
  }

  predicate AtTracker(pc: Pc) { pc.WantTracker? || pc.HaveTracker? || pc.HaveLookup? || pc.WantLookup? }

  lemma TrackerMoves(s: State)
    requires Locks(s) && exists t: nat :: t < |s.threads| && AtTracker(s.threads[t])
    ensures exists t: nat :: CanStep(s, t)
  {
    if s.index.writer.Some? {
      assert ThreadLocks(s, s.index.writer.value);
      assert CanStep(s, s.index.writer.value);
    } else if s.index.readers != {} {
      var r :| r in s.index.readers;
      assert ThreadLocks(s, r);
      assert CanStep(s, r);
    } else if t: nat :| t < |s.threads| && s.threads[t].WantTracker? {
      assert CanStep(s, t);
    } else {
      var t: nat :| t < |s.threads| && AtTracker(s.threads[t]);
      assert ThreadLocks(s, t);
      assert NoWriterWaits(s);
      assert CanStep(s, t);
    }
  }

  /** No deadlock: as long as any operation is unfinished, some thread can take its next step. */
  lemma NoDeadlock(s: State, run: seq<Action>)
    requires Initial(s) && exists t: nat :: t < |After(s, run).threads| && !After(s, run).threads[t].Idle?
    ensures exists t: nat :: CanStep(After(s, run), t)
  {
    LocksAlways(s, run);
    SomeoneMoves(After(s, run));
  }

  lemma SomeoneMoves(s: State)
    requires Locks(s) && exists t: nat :: t < |s.threads| && !s.threads[t].Idle?
    ensures exists t: nat :: CanStep(s, t)
  {
    var t: nat :| t < |s.threads| && !s.threads[t].Idle?;
    assert ThreadLocks(s, t);
    var pc := s.threads[t];
    if pc.WantProvider? {
      var m := s.nodes[pc.p].mutex;
      assert NodeLocks(s, pc.p);
      if m.None? {
        assert CanStep(s, t);
      } else {
        assert ThreadLocks(s, m.value);
        HolderMoves(s, m.value);
      }
    } else if Holding(pc) {
      HolderMoves(s, t);
    } else {
      TrackerMoves(s);
    }
  }

  lemma HolderMoves(s: State, t: nat)
    requires Locks(s) && t < |s.threads| && Holding(s.threads[t])
    ensures exists u: nat :: CanStep(s, u)
  {
    assert ThreadLocks(s, t);
    if s.threads[t].Entered? || s.threads[t].Closing? {
      assert CanStep(s, t);
    } else {
      TrackerMoves(s);
    }
  }

  /** Steps a thread is away from being done. */
  function Distance(pc: Pc): nat {
    match pc
    case Idle => 0
    case Closing(_, _, _, _) => 1
    case HaveTracker(_, _, _, _) => 2
    case WantTracker(_, _, _, _) => 3
    case Entered(_, _, _) => 4
    case WantProvider(_, _) => 5
    case HaveLookup(_, _, _) => 6
    case WantLookup(_, _, _) => 7
  }

  function Total(pcs: seq<Pc>): nat {
    if pcs == [] then 0 else Total(pcs[..|pcs| - 1]) + Distance(pcs[|pcs| - 1])
  }

  lemma {:induction false} TotalUpdate(pcs: seq<Pc>, t: nat, pc: Pc)
    requires t < |pcs|
    ensures Total(pcs[t := pc]) == Total(pcs) - Distance(pcs[t]) + Distance(pc)
    decreases |pcs|
  {
    hide Distance;
    var n := |pcs| - 1;
    if t < n {
      TotalUpdate(pcs[..n], t, pc);
      assert pcs[t := pc][..n] == pcs[..n][t := pc];
    } else {
      assert pcs[t := pc][..n] == pcs[..n];
    }
  }

  lemma {:induction false} TotalBound(pcs: seq<Pc>)
    ensures Total(pcs) <= 7 * |pcs|
    decreases |pcs|
  {
    if pcs != [] {
      TotalBound(pcs[..|pcs| - 1]);
    }
  }

  lemma StepsCountDown(s: State, a: Action)
    requires Enabled(s, a) && !Starts(a)
    ensures Total(Next(s, a).threads) < Total(s.threads)
  {
    hide EnterView, EnterPod, CallView, CallPod, FinishView, UsesTracker, Written, OpOf, NoWriterWaits, Total;
    TotalUpdate(s.threads, a.t, Next(s, a).threads[a.t]);
  }

  /** Every step of `run` from s on is enabled. */
  ghost predicate AllEnabled(s: State, run: seq<Action>) {
    forall k | 0 <= k < |run| :: Enabled(After(s, run[..k]), run[k])
  }

  /**
   Every operation ends: with no new ones starting, n threads take at most 7 n steps in whatever order, and (no
   deadlock) they stop only when all are done.
   */
  lemma {:induction false} OperationsEnd(s: State, run: seq<Action>)
    requires AllEnabled(s, run) && forall k | 0 <= k < |run| :: !Starts(run[k])
    ensures |run| + Total(After(s, run).threads) <= Total(s.threads) <= 7 * |s.threads|
    decreases |run|
  {
    TotalBound(s.threads);
    if run != [] {
      var n := |run| - 1;
      forall k | 0 <= k < n ensures Enabled(After(s, run[..n][..k]), run[..n][k]) {
        assert run[..n][..k] == run[..k];
      }
      OperationsEnd(s, run[..n]);
      StepsCountDown(After(s, run[..n]), run[n]);
    }
  }
}
