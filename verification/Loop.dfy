/**
 The life of a reconciliation loop (reconciler/reconciler.go): Start and Stop, called by any number of threads, share a
 mutex, a running flag, a cancel function and a wait group with the goroutine Start spawns. Contexts derive from the one
 the reconciler was made with, which may be cancelled at any time. A reconciliation pass is assumed to return.
 */
module Loop {
  import opened Wrappers

  datatype Caller =
    | Away
    | WantStart | InStart // InStart: holding the mutex
    | WantStop | InStop   // InStop: holding the mutex, nothing done yet
    | Waiting             // cancelled, flag cleared, in wg.Wait with the mutex still held

  /** Loop goroutine i runs with context i. */
  datatype Goroutine = Spawned | InPass | Selecting | Leaving | Gone

  /** `current` is what r.cancel cancels; None is the initial no-op. */
  datatype State = State(
    callers: seq<Caller>, mutex: Option<nat>, running: bool, current: Option<nat>,
    cancelled: seq<bool>, parentCancelled: bool, loops: seq<Goroutine>, wg: nat)

  datatype Action =
    | CallStart(c: nat) | CallStop(c: nat) | Lock(c: nat) | RunStart(c: nat) | Cancel(c: nat) | Return(c: nat)
    | BeginPass(i: nat) | EndPass(i: nat) | Tick(i: nat) | SeeDone(i: nat) | Finish(i: nat)
    | CancelParent

  predicate Done(s: State, i: nat) { i < |s.cancelled| && (s.cancelled[i] || s.parentCancelled) }

  predicate Enabled(s: State, a: Action) {
    match a
    case CallStart(c) => c < |s.callers| && s.callers[c].Away?
    case CallStop(c) => c < |s.callers| && s.callers[c].Away?
    case Lock(c) => c < |s.callers| && (s.callers[c].WantStart? || s.callers[c].WantStop?) && s.mutex.None?
    case RunStart(c) => c < |s.callers| && s.callers[c].InStart?
    case Cancel(c) => c < |s.callers| && s.callers[c].InStop?
    case Return(c) => c < |s.callers| && s.callers[c].Waiting? && s.wg == 0
    case BeginPass(i) => i < |s.loops| && s.loops[i].Spawned?
    case EndPass(i) => i < |s.loops| && s.loops[i].InPass?
    case Tick(i) => i < |s.loops| && s.loops[i].Selecting?
    case SeeDone(i) => i < |s.loops| && s.loops[i].Selecting? && Done(s, i)
    case Finish(i) => i < |s.loops| && s.loops[i].Leaving? && s.wg > 0
    case CancelParent => true
  }

  function Next(s: State, a: Action): State {
    if !Enabled(s, a) then s
    else
      match a
      case CallStart(c) => s.(callers := s.callers[c := WantStart])
      case CallStop(c) => s.(callers := s.callers[c := WantStop])
      case Lock(c) => s.(callers := s.callers[c := if s.callers[c].WantStart? then InStart else InStop],
        mutex := Some(c))
      case RunStart(c) =>
        var back := s.(callers := s.callers[c := Away], mutex := None);
        if s.running then back // The flag is up: nothing to do
        else back.(running := true, current := Some(|s.loops|), cancelled := s.cancelled + [false],
                   loops := s.loops + [Spawned], wg := s.wg + 1)
      case Cancel(c) =>
        s.(callers := s.callers[c := Waiting], running := false,
           cancelled := if s.current.Some? && s.current.value < |s.cancelled| then s.cancelled[s.current.value := true]
             else s.cancelled)
      case Return(c) => s.(callers := s.callers[c := Away], mutex := None)
      case BeginPass(i) => s.(loops := s.loops[i := InPass])
      case EndPass(i) => s.(loops := s.loops[i := Selecting])
      case Tick(i) => s.(loops := s.loops[i := InPass])
      case SeeDone(i) => s.(loops := s.loops[i := Leaving])
      case Finish(i) => s.(loops := s.loops[i := Gone], wg := s.wg - 1)
      case CancelParent => s.(parentCancelled := true)
  }

  function After(s: State, run: seq<Action>): State {
    if run == [] then s else Next(After(s, run[..|run| - 1]), run[|run| - 1])
  }

  predicate Initial(s: State) {
    && (forall c | 0 <= c < |s.callers| :: s.callers[c].Away?)
    && s.mutex.None? && !s.running && s.current.None? && s.cancelled == [] && !s.parentCancelled && s.loops == []
    && s.wg == 0
  }

  /** Goroutines that have not called wg.Done yet. */
  function Live(loops: seq<Goroutine>): nat {
    if loops == [] then 0 else Live(loops[..|loops| - 1]) + if loops[|loops| - 1].Gone? then 0 else 1
  }

  predicate AllGone(loops: seq<Goroutine>) { forall i | 0 <= i < |loops| :: loops[i].Gone? }

  predicate Inside(c: Caller) { c.InStart? || c.InStop? || c.Waiting? }

  ghost predicate MutexInv(s: State) {
    && (s.mutex.Some? ==> s.mutex.value < |s.callers| && Inside(s.callers[s.mutex.value]))
    && (forall c: nat | c < |s.callers| :: Inside(s.callers[c]) ==> s.mutex == Some(c))
  }

  predicate StopWaits(s: State) {
    s.mutex.Some? && s.mutex.value < |s.callers| && s.callers[s.mutex.value].Waiting?
  }

  /** Only the youngest goroutine can be alive, and r.cancel is its. */
  ghost predicate LoopInv(s: State) {
    && |s.cancelled| == |s.loops|
    && (forall i: nat | i + 1 < |s.loops| :: s.loops[i].Gone?)
    && s.current == (if s.loops == [] then None else Some(|s.loops| - 1))
    && s.wg == (if s.loops == [] || s.loops[|s.loops| - 1].Gone? then 0 else 1)
    && (forall i: nat | i < |s.loops| :: s.loops[i].Leaving? || s.loops[i].Gone? ==> Done(s, i))
  }

  ghost predicate FlagInv(s: State) {
    && (s.running ==> s.loops != [] && |s.cancelled| == |s.loops| && !s.cancelled[|s.loops| - 1])
    && (StopWaits(s) ==> !s.running && forall i | 0 <= i < |s.cancelled| :: i == |s.cancelled| - 1 ==> s.cancelled[i])
    && (!s.running && !StopWaits(s) ==> AllGone(s.loops))
  }

  ghost predicate Inv(s: State) { MutexInv(s) && LoopInv(s) && FlagInv(s) }

  lemma NextKeepsMutex(s: State, a: Action)
    requires Inv(s)
    ensures MutexInv(Next(s, a))
  {
    hide LoopInv, FlagInv, Done;
  }

  lemma NextKeepsLoop(s: State, a: Action)
    requires Inv(s)
    ensures LoopInv(Next(s, a))
  {
  }

  lemma NextKeepsFlag(s: State, a: Action)
    requires Inv(s)
    ensures FlagInv(Next(s, a))
  {
    hide Done;
  }

  lemma {:induction false} Reachable(s: State, run: seq<Action>)
    requires Initial(s)
    ensures Inv(After(s, run))
    decreases |run|
  {
    hide Next, MutexInv, LoopInv, FlagInv;
    if run == [] {
      InitiallyInv(s);
    } else {
      var before := After(s, run[..|run| - 1]);
      Reachable(s, run[..|run| - 1]);
      NextKeepsMutex(before, run[|run| - 1]);
      NextKeepsLoop(before, run[|run| - 1]);
      NextKeepsFlag(before, run[|run| - 1]);
    }
  }

  lemma InitiallyInv(s: State)
    requires Initial(s)
    ensures Inv(s)
  {
  }

  lemma {:induction false} LiveWhenGone(loops: seq<Goroutine>)
    requires AllGone(loops)
    ensures Live(loops) == 0
    decreases |loops|
  {
    if loops != [] {
      LiveWhenGone(loops[..|loops| - 1]);
    }
  }

  /**
   In every reachable state the live loop goroutines are as many as the wait group counts, and at most one; so passes
   never overlap.
   */
  lemma AtMostOneLoop(s: State, run: seq<Action>)
    requires Initial(s)
    ensures var t := After(s, run);
            && Live(t.loops) == t.wg <= 1
            && forall i, j | 0 <= i < j < |t.loops| :: !(t.loops[i].InPass? && t.loops[j].InPass?)
  {
    Reachable(s, run);
    var t := After(s, run);
    hide After, MutexInv, FlagInv;
    if t.loops != [] {
      LiveWhenGone(t.loops[..|t.loops| - 1]);
    }
  }

  /** When Stop returns, no loop goroutine is alive. */
  lemma NoneAliveWhenStopReturns(s: State, run: seq<Action>, c: nat)
    requires Initial(s) && Enabled(After(s, run), Return(c))
    ensures AllGone(Next(After(s, run), Return(c)).loops) && !Next(After(s, run), Return(c)).running
  {
    Reachable(s, run);
    var t := After(s, run);
    assert StopWaits(t) by { hide LoopInv, FlagInv, After; }
    GoneWhenUncounted(t);
    hide After, Done, LoopInv, FlagInv, MutexInv;
    assert Next(t, Return(c)).loops == t.loops && Next(t, Return(c)).running == t.running;
  }

  lemma GoneWhenUncounted(t: State)
    requires LoopInv(t) && FlagInv(t) && t.wg == 0 && StopWaits(t)
    ensures AllGone(t.loops) && !t.running
  {
    hide Done;
  }

  /** From then on none begins a pass until a Start gets as far as its body. */
  lemma {:induction false} NoneBeginsBeforeStart(t: State, run: seq<Action>)
    requires AllGone(t.loops) && forall k | 0 <= k < |run| :: !run[k].RunStart?
    ensures After(t, run).loops == t.loops
    decreases |run|
  {
    if run != [] {
      NoneBeginsBeforeStart(t, run[..|run| - 1]);
      hide After, Done;
    }
  }

  // Passes

  /** Goroutine i begins a pass: its first, or one for a tick. */
  predicate Begins(s: State, a: Action, i: nat) { Enabled(s, a) && (a == BeginPass(i) || a == Tick(i)) }

  /** Goroutine i's pass returns. */
  predicate Ends(s: State, a: Action, i: nat) { Enabled(s, a) && a == EndPass(i) }

  /** How often goroutine i began a pass, and ended one, in a run. */
  function Begun(s: State, run: seq<Action>, i: nat): nat {
    if run == [] then 0
    else
      var n := |run| - 1;
      Begun(s, run[..n], i) + if Begins(After(s, run[..n]), run[n], i) then 1 else 0
  }

  function Ended(s: State, run: seq<Action>, i: nat): nat {
    if run == [] then 0
    else
      var n := |run| - 1;
      Ended(s, run[..n], i) + if Ends(After(s, run[..n]), run[n], i) then 1 else 0
  }

  /**
   A spawned goroutine does nothing before it begins a pass, a tick begins one, and a pass that has begun goes on until
   it ends, after which the goroutine selects.
   */
  lemma PassStep(s: State, a: Action, i: nat)
    requires i < |s.loops|
    ensures |Next(s, a).loops| >= |s.loops|
    ensures var before, after := s.loops[i], Next(s, a).loops[i];
            && (Begins(s, a, i) ==> after.InPass? && (before.Spawned? || before.Selecting?))
            && (Ends(s, a, i) ==> before.InPass? && after.Selecting?)
            && (before.Spawned? ==> after.Spawned? || Begins(s, a, i))
            && (before.InPass? ==> after.InPass? || Ends(s, a, i))
            && (before.Selecting? || before.Leaving? || before.Gone? ==>
                  !after.Spawned? && (after.InPass? ==> Begins(s, a, i)))
  {
    hide Done;
  }

  lemma BeforeSpawn(s: State, a: Action, i: nat)
    requires i >= |s.loops|
    ensures !Begins(s, a, i) && !Ends(s, a, i) && (i < |Next(s, a).loops| ==> Next(s, a).loops[i].Spawned?)
  {
  }

  /**
   Every loop reconciles: over every run a goroutine has begun one pass more than it has ended while it is in one, and
   as many otherwise; and it has begun none exactly while it is still to take its first step.
   */
  lemma {:induction false} PassesBalance(s: State, run: seq<Action>, i: nat)
    requires Initial(s)
    ensures var loops := After(s, run).loops;
            && Begun(s, run, i) == Ended(s, run, i) + (if i < |loops| && loops[i].InPass? then 1 else 0)
            && (Begun(s, run, i) == 0 <==> i >= |loops| || loops[i].Spawned?)
    decreases |run|
  {
    hide Next, Begins, Ends;
    if run != [] {
      var n := |run| - 1;
      var before := After(s, run[..n]);
      PassesBalance(s, run[..n], i);
      if i < |before.loops| {
        PassStep(before, run[n], i);
        BeginsOrEnds(before, run[n], i);
      } else {
        BeforeSpawn(before, run[n], i);
      }
    }
  }

  lemma BeginsOrEnds(s: State, a: Action, i: nat)
    ensures !(Begins(s, a, i) && Ends(s, a, i))
  {
  }

  /** So one that selects, leaves or is gone has completed its last pass, and has had one. */
  lemma {:induction false} LastPassEnded(s: State, run: seq<Action>, i: nat)
    requires Initial(s) && i < |After(s, run).loops|
    requires After(s, run).loops[i].Selecting? || After(s, run).loops[i].Leaving? || After(s, run).loops[i].Gone?
    ensures exists m: nat :: m < |run| && EndsLast(s, run, i, m)
    decreases |run|
  {
    hide Next, Begins, Ends;
    if run != [] {
      var n := |run| - 1;
      var before := After(s, run[..n]);
      if Ends(before, run[n], i) {
        assert EndsLast(s, run, i, n);
      } else {
        if i < |before.loops| {
          PassStep(before, run[n], i);
        } else {
          BeforeSpawn(before, run[n], i);
        }
        hide After;
        LastPassEnded(s, run[..n], i);
        var m: nat :| m < n && EndsLast(s, run[..n], i, m);
        EndsLastLater(s, run, i, m);
      }
    }
  }

  /** Step m ends goroutine i's pass, and none begins after it. */
  ghost predicate EndsLast(s: State, run: seq<Action>, i: nat, m: nat) {
    && m < |run| && Ends(After(s, run[..m]), run[m], i)
    && forall k | m < k < |run| :: !Begins(After(s, run[..k]), run[k], i)
  }

  lemma EndsLastLater(s: State, run: seq<Action>, i: nat, m: nat)
    requires m < |run| - 1 && EndsLast(s, run[..|run| - 1], i, m)
    requires !Begins(After(s, run[..|run| - 1]), run[|run| - 1], i)
    ensures EndsLast(s, run, i, m)
  {
    hide After, Begins, Ends;
    var n := |run| - 1;
    assert forall k | 0 <= k < n :: run[..n][..k] == run[..k] && run[..n][k] == run[k];
  }

  // Progress

  predicate Internal(a: Action) { !a.CallStart? && !a.CallStop? && !a.CancelParent? }

  /** While any call is unfinished some step is possible: Stop is never stuck for want of the loop. */
  lemma NoDeadlock(s: State, run: seq<Action>, c: nat)
    requires Initial(s) && c < |After(s, run).callers| && !After(s, run).callers[c].Away?
    ensures exists a :: Internal(a) && Enabled(After(s, run), a)
  {
    Reachable(s, run);
    var t := After(s, run);
    hide After;
    if t.mutex.None? {
      assert Enabled(t, Lock(c));
    } else {
      var h := t.mutex.value;
      if t.callers[h].InStart? {
        assert Enabled(t, RunStart(h));
      } else if t.callers[h].InStop? {
        assert Enabled(t, Cancel(h));
      } else if t.wg == 0 {
        assert Enabled(t, Return(h));
      } else {
        var i := |t.loops| - 1;
        var a := match t.loops[i]
                 case Spawned => BeginPass(i)
                 case InPass => EndPass(i)
                 case Selecting => SeeDone(i)
                 case Leaving => Finish(i)
                 case Gone => CancelParent;
        assert Internal(a) && Enabled(t, a);
      }
    }
  }

  /** While Stop waits the remaining goroutine's context is done, so each time it selects it may leave. */
  lemma WaitingStopHasCancelled(s: State, run: seq<Action>, i: nat)
    requires Initial(s) && StopWaits(After(s, run)) && i < |After(s, run).loops| && !After(s, run).loops[i].Gone?
    ensures Done(After(s, run), i) && i == |After(s, run).loops| - 1
  {
    Reachable(s, run);
    hide After;
  }

  // The running flag

  /** Between calls a lowered flag means no loop; a raised one without a loop, that the outer context is cancelled. */
  lemma FlagIsTruthful(s: State, run: seq<Action>)
    requires Initial(s) && After(s, run).mutex.None?
    ensures var t := After(s, run);
            && (!t.running ==> t.wg == 0)
            && (t.running && t.wg == 0 ==> t.parentCancelled)
  {
    Reachable(s, run);
    hide After;
  }

  /** The flag is up, nobody is inside Start or Stop, and there is no loop. */
  predicate RunningWithoutLoop(s: State) { s.running && s.mutex.None? && AllGone(s.loops) && s.wg == 0 }

  /** A step of the loop goroutine itself. */
  predicate OfLoop(a: Action) { a.BeginPass? || a.EndPass? || a.Tick? || a.SeeDone? || a.Finish? }

  predicate AllOfLoop(run: seq<Action>) { forall k | 0 <= k < |run| :: OfLoop(run[k]) }

  /** How far a goroutine is from its end. */
  function ToGo(g: Goroutine): nat {
    match g
    case Spawned => 4
    case InPass => 3
    case Selecting => 2
    case Leaving => 1
    case Gone => 0
  }

  /** The step that takes goroutine i towards its end. */
  function Onward(s: State, i: nat): Action
    requires i < |s.loops| && !s.loops[i].Gone?
  {
    match s.loops[i]
    case Spawned => BeginPass(i)
    case InPass => EndPass(i)
    case Selecting => SeeDone(i)
    case Leaving => Finish(i)
  }

  lemma OnwardStep(s: State)
    requires Inv(s) && s.mutex.None? && s.running && s.parentCancelled && s.loops != [] && !s.loops[|s.loops| - 1].Gone?
    ensures var i := |s.loops| - 1;
            var t := Next(s, Onward(s, i));
            && OfLoop(Onward(s, i)) && |t.loops| == |s.loops| && ToGo(t.loops[i]) < ToGo(s.loops[i])
            && t.mutex.None? && t.running && t.parentCancelled
  {
    hide MutexInv, FlagInv;
  }

  /**
   With the outer context cancelled the loop can always run to its end by its own steps, and nobody lowers the flag.
   */
  lemma {:induction false} LoopDies(s: State) returns (run: seq<Action>)
    requires Inv(s) && s.mutex.None? && s.running && s.parentCancelled
    ensures AllOfLoop(run) && RunningWithoutLoop(After(s, run))
    decreases if s.loops == [] then 0 else ToGo(s.loops[|s.loops| - 1])
  {
    if s.wg == 0 {
      run := [];
      NobodyLeft(s);
    } else {
      assert s.loops != [] && !s.loops[|s.loops| - 1].Gone? by { hide MutexInv, FlagInv; }
      var a := Onward(s, |s.loops| - 1);
      OnwardStep(s);
      NextKeepsMutex(s, a);
      NextKeepsLoop(s, a);
      NextKeepsFlag(s, a);
      hide Next, MutexInv, LoopInv, FlagInv, AllGone;
      var rest := LoopDies(Next(s, a));
      run := [a] + rest;
      AfterConcat(s, [a], rest);
      OneStep(s, a);
    }
  }

  lemma OneStep(s: State, a: Action)
    ensures After(s, [a]) == Next(s, a)
  {
    hide Next;
    assert [a][..0] == [];
    assert After(s, []) == s;
  }

  lemma NobodyLeft(s: State)
    requires Inv(s) && s.wg == 0
    ensures AllGone(s.loops)
  {
    hide MutexInv, FlagInv, Done;
  }

  lemma {:induction false} LoopKeepsParent(s: State, run: seq<Action>)
    requires AllOfLoop(run)
    ensures After(s, run).parentCancelled == s.parentCancelled
    decreases |run|
  {
    if run != [] {
      LoopKeepsParent(s, run[..|run| - 1]);
      hide After, Done;
    }
  }

  /**
   The flag can outlive the loop, from every reachable state between calls: the loop can end by its own steps with the
   flag still up if and only if the outer context is cancelled.
   */
  lemma FlagLiesIff(s: State, run: seq<Action>)
    requires Initial(s) && After(s, run).mutex.None? && After(s, run).running
    ensures var t := After(s, run);
            (exists more :: AllOfLoop(more) && RunningWithoutLoop(After(t, more))) <==> t.parentCancelled
  {
    Reachable(s, run);
    var t := After(s, run);
    hide After, Inv, RunningWithoutLoop;
    if t.parentCancelled {
      var more := LoopDies(t);
      assert AllOfLoop(more) && RunningWithoutLoop(After(t, more));
    }
    forall more | AllOfLoop(more) && RunningWithoutLoop(After(t, more)) ensures t.parentCancelled {
      AfterConcat(s, run, more);
      LoopKeepsParent(t, more);
      FlagIsTruthfulThere(s, run + more);
    }
  }

  lemma FlagIsTruthfulThere(s: State, run: seq<Action>)
    requires Initial(s) && RunningWithoutLoop(After(s, run))
    ensures After(s, run).parentCancelled
  {
    hide After;
    FlagIsTruthful(s, run);
  }

  lemma CallsStop(s: State, c: nat)
    requires Inv(s) && s.mutex.None? && c < |s.callers| && s.callers[c].Away?
    ensures var t := After(s, [CallStop(c), Lock(c), Cancel(c)]);
            && |t.callers| == |s.callers| && t.callers[c] == Waiting && t.mutex == Some(c) && Inv(t)
            && forall d | 0 <= d < |s.callers| && d != c :: t.callers[d] == s.callers[d]
  {
    var run := [CallStop(c), Lock(c), Cancel(c)];
    var s1, s2, s3 := Next(s, run[0]), Next(Next(s, run[0]), run[1]), Next(Next(Next(s, run[0]), run[1]), run[2]);
    KeepsInv(s, run[0]);
    KeepsInv(s1, run[1]);
    KeepsInv(s2, run[2]);
    ThreeSteps(s, run, s1, s2, s3);
    hide Inv, After;
  }

  lemma KeepsInv(s: State, a: Action)
    requires Inv(s)
    ensures Inv(Next(s, a))
  {
    hide Next, MutexInv, LoopInv, FlagInv;
    NextKeepsMutex(s, a);
    NextKeepsLoop(s, a);
    NextKeepsFlag(s, a);
  }

  /** While a Stop waits the loop can always run to its end by its own steps. */
  lemma {:induction false} LoopEnds(s: State) returns (run: seq<Action>)
    requires Inv(s) && StopWaits(s)
    ensures AllOfLoop(run)
    ensures var t := After(s, run);
            Inv(t) && t.wg == 0 && t.callers == s.callers && t.mutex == s.mutex
    decreases if s.loops == [] then 0 else ToGo(s.loops[|s.loops| - 1])
  {
    if s.wg == 0 {
      run := [];
    } else {
      assert s.loops != [] && !s.loops[|s.loops| - 1].Gone? by { hide MutexInv, FlagInv; }
      var a := Onward(s, |s.loops| - 1);
      OnwardInStop(s);
      KeepsInv(s, a);
      hide Next, Inv;
      var rest := LoopEnds(Next(s, a));
      run := [a] + rest;
      AfterConcat(s, [a], rest);
      OneStep(s, a);
    }
  }

  lemma OnwardInStop(s: State)
    requires Inv(s) && StopWaits(s) && s.loops != [] && !s.loops[|s.loops| - 1].Gone?
    ensures var i := |s.loops| - 1;
            var t := Next(s, Onward(s, i));
            && OfLoop(Onward(s, i)) && |t.loops| == |s.loops| && ToGo(t.loops[i]) < ToGo(s.loops[i])
            && t.callers == s.callers && t.mutex == s.mutex
  {
    hide MutexInv;
  }

  /**
   A Stop can always be carried through: from every reachable state between calls, any caller's Stop and the loop's own
   steps lead to its return, with the flag down and no loop left.
   */
  lemma StopFinishes(s: State, run: seq<Action>, c: nat) returns (more: seq<Action>)
    requires Initial(s) && After(s, run).mutex.None?
    requires c < |After(s, run).callers| && After(s, run).callers[c].Away?
    ensures |more| >= 4 && more[..3] == [CallStop(c), Lock(c), Cancel(c)] && more[|more| - 1] == Return(c)
    ensures AllOfLoop(more[3..|more| - 1])
    ensures var t := After(After(s, run), more);
            && AllGone(t.loops) && t.wg == 0 && !t.running && t.mutex.None? && t.callers == After(s, run).callers
  {
    Reachable(s, run);
    var here := After(s, run);
    hide After, Inv, Next, AllGone;
    var call := [CallStop(c), Lock(c), Cancel(c)];
    CallsStop(here, c);
    var waiting := After(here, call);
    var ends := LoopEnds(waiting);
    var last := After(waiting, ends);
    Returns(last, c);
    more := call + ends + [Return(c)];
    AfterConcat(here, call, ends);
    AfterConcat(here, call + ends, [Return(c)]);
    OneStep(last, Return(c));
    assert last.callers[c := Away] == here.callers;
    assert more[..3] == call && more[3..|more| - 1] == ends;
  }

  lemma Returns(s: State, c: nat)
    requires Inv(s) && s.wg == 0 && c < |s.callers| && s.callers[c].Waiting? && s.mutex == Some(c)
    ensures var t := Next(s, Return(c));
            && AllGone(t.loops) && t.wg == 0 && !t.running && t.mutex.None? && t.callers == s.callers[c := Away]
  {
    GoneWhenUncounted(s);
    hide Inv, AllGone;
  }

  /** One whole call of Start by thread c, undisturbed. */
  function StartBy(c: nat): seq<Action> { [CallStart(c), Lock(c), RunStart(c)] }

  /** A Start that finds the flag down spawns a loop; one that finds it up changes nothing, loop or no loop. */
  lemma StartAlone(s: State, c: nat)
    requires c < |s.callers| && s.callers[c].Away? && s.mutex.None?
    ensures After(s, StartBy(c))
         == if s.running then s
            else s.(running := true, current := Some(|s.loops|), cancelled := s.cancelled + [false],
                    loops := s.loops + [Spawned], wg := s.wg + 1)
  {
    var run := StartBy(c);
    var s1 := s.(callers := s.callers[c := WantStart]);
    var s2 := s.(callers := s.callers[c := InStart], mutex := Some(c));
    assert s1.callers[c := InStart] == s2.callers && s2.callers[c := Away] == s.callers;
    assert Next(s, run[0]) == s1;
    assert Next(s1, run[1]) == s2;
    ThreeSteps(s, run, s1, s2, Next(s2, run[2]));
  }

  lemma ThreeSteps(s: State, run: seq<Action>, s1: State, s2: State, s3: State)
    requires |run| == 3 && Next(s, run[0]) == s1 && Next(s1, run[1]) == s2 && Next(s2, run[2]) == s3
    ensures After(s, run) == s3
  {
    hide Next;
    assert run[..2][..1] == run[..1] && run[..1][..0] == [] && run[..0] == [];
    assert After(s, run[..1]) == s1;
    assert After(s, run[..2]) == s2;
  }

  lemma AfterConcat(s: State, first: seq<Action>, second: seq<Action>)
    ensures After(s, first + second) == After(After(s, first), second)
    decreases |second|
  {
    hide Next;
    if second == [] {
      assert first + second == first;
    } else {
      AfterConcat(s, first, second[..|second| - 1]);
      assert (first + second)[..|first + second| - 1] == first + second[..|second| - 1];
    }
  }
}
