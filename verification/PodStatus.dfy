/** Pods as the provider holds them, and changePhase (provider/phase.go), which rewrites a Pod's status in place. */
module PodStatus {
  import opened Wrappers
  import opened Labels

  datatype Phase = Pending | Running | Succeeded | Failed | Unknown | Unset

  /** podKey (provider/key.go). */
  datatype Key = Key(name: string, namespace: string)

  datatype Container = Container(name: string, image: string, command: seq<string>, args: seq<string>)

  /** Times are clock readings; None is the zero time. */
  datatype ContainerState =
    | NoState
    | Waiting
    | RunningSince(startedAt: Option<int>)
    | Terminated(exitCode: int, reason: string, startedAt: Option<int>, finishedAt: int)

  datatype ContainerStatus = ContainerStatus(name: string, image: string, ready: bool, restarts: int,
    state: ContainerState)

  datatype Condition = Condition(kind: string, holds: bool)

  datatype Status = Status(phase: Phase, message: string, conditions: seq<Condition>, containers: seq<ContainerStatus>)

  datatype PodView = PodView(key: Key, labels: LabelMap, containers: seq<Container>, status: Status)

  /** What is carried over for a container name; of several statuses with one name the last counts. */
  function Carried(statuses: seq<ContainerStatus>): map<string, (Option<int>, int)> {
    if statuses == [] then map[]
    else
      var s := statuses[|statuses| - 1];
      Carried(statuses[..|statuses| - 1])[s.name :=
        (if s.state.RunningSince? then s.state.startedAt else None, s.restarts)]
  }

  function StateIn(phase: Phase, startedAt: Option<int>, now: int): ContainerState {
    match phase
    case Pending => Waiting
    case Running => RunningSince(Some(now))
    case Succeeded => Terminated(0, "Completed", startedAt, now)
    case Failed => Terminated(1, "Error", startedAt, now)
    case Unknown => NoState
    case Unset => NoState
  }

  function ContainerIn(phase: Phase, c: Container, carried: map<string, (Option<int>, int)>,
    now: int): ContainerStatus {
    var (startedAt, restarts) := if c.name in carried then carried[c.name] else (None, 0);
    ContainerStatus(c.name, c.image, phase == Running, restarts, StateIn(phase, startedAt, now))
  }

  function ConditionsIn(phase: Phase): seq<Condition> {
    [Condition("ContainersReady", phase == Running), Condition("Initialized", true),
     Condition("Ready", phase == Running), Condition("PodScheduled", true)]
  }

  /** The status changePhase leaves. */
  function Changed(old_: Status, containers: seq<Container>, phase: Phase, now: int): (s: Status)
    ensures s.phase == phase && |s.containers| == |containers|
  {
    var carried := Carried(old_.containers);
    Status(phase, old_.message, ConditionsIn(phase),
           seq(|containers|, i requires 0 <= i < |containers| => ContainerIn(phase, containers[i], carried, now)))
  }

  class Pod {
    const key: Key
    const containers: seq<Container>
    var labels: LabelMap
    var status: Status

    function V(): PodView
      reads this
    {
      PodView(key, labels, containers, status)
    }

    constructor (key: Key, labels: LabelMap, containers: seq<Container>, status: Status)
      ensures V() == PodView(key, labels, containers, status)
    {
      this.key, this.labels, this.containers, this.status := key, labels, containers, status;
    }

    method ChangePhase(phase: Phase, now: int)
      modifies this`status
      ensures status == Changed(old(status), containers, phase, now)
    {
      var condition := phase == Running;
      ghost var before := status;
      status := status.(phase := phase, conditions :=
        [Condition("ContainersReady", condition), Condition("Initialized", true),
         Condition("Ready", condition), Condition("PodScheduled", true)]);
      var carried: map<string, (Option<int>, int)> := map[];
      var statuses := status.containers;
      for i := 0 to |statuses|
        invariant carried == Carried(statuses[..i])
      {
        assert statuses[..i + 1][..i] == statuses[..i];
        var s := statuses[i];
        carried := carried[s.name := (if s.state.RunningSince? then s.state.startedAt else None, s.restarts)];
      }
      assert statuses[..|statuses|] == statuses;
      var fresh_: seq<ContainerStatus> := [];
      for i := 0 to |containers|
        invariant |fresh_| == i
        invariant forall k | 0 <= k < i :: fresh_[k] == ContainerIn(phase, containers[k], carried, now)
      {
        var c := containers[i];
        var startedAt, restarts := None, 0;
        if c.name in carried {
          startedAt, restarts := carried[c.name].0, carried[c.name].1;
        }
        var state := NoState;
        match phase {
          case Pending => state := Waiting;
          case Running => state := RunningSince(Some(now));
          case Succeeded => state := Terminated(0, "Completed", startedAt, now);
          case Failed => state := Terminated(1, "Error", startedAt, now);
          case Unknown =>
          case Unset =>
        }
        fresh_ := fresh_ + [ContainerStatus(c.name, c.image, phase == Running, restarts, state)];
      }
      status := status.(containers := fresh_);
    }
  }

  /** Containers appear in spec order under their own names, and readiness is the Running phase everywhere. */
  lemma ReadyIffRunning(s: Status, containers: seq<Container>, phase: Phase, now: int)
    ensures var c := Changed(s, containers, phase, now);
            && (forall i | 0 <= i < |containers| ::
                  c.containers[i].name == containers[i].name && c.containers[i].image == containers[i].image
                  && (c.containers[i].ready <==> phase == Running)
                  && (c.containers[i].state.RunningSince? <==> phase == Running))
            && (forall k | 0 <= k < |c.conditions| :: c.conditions[k].holds <==> phase == Running || k % 2 == 1)
  {
  }

  /** The conditions have one of this kind, with this value, and no other of the kind. */
  ghost predicate Says(conditions: seq<Condition>, kind: string, holds: bool) {
    exists j | 0 <= j < |conditions| ::
      conditions[j] == Condition(kind, holds) && forall l | 0 <= l < |conditions|
        && l != j :: conditions[l].kind != kind
  }

  /** Ready and ContainersReady follow the phase, Initialized and PodScheduled always hold; there are no others. */
  ghost predicate ConditionsFollow(conditions: seq<Condition>, phase: Phase) {
    && |conditions| == 4
    && Says(conditions, "ContainersReady", phase == Running) && Says(conditions, "Ready", phase == Running)
    && Says(conditions, "Initialized", true) && Says(conditions, "PodScheduled", true)
  }

  /** What each phase makes of a container. */
  predicate StateFollows(c: ContainerStatus, phase: Phase) {
    && (c.ready <==> phase == Running)
    && (c.state == Waiting <==> phase == Pending)
    && (c.state == NoState <==> phase == Unknown || phase == Unset)
    && (c.state.RunningSince? <==> phase == Running)
    && (c.state.Terminated? && c.state.exitCode == 0 && c.state.reason == "Completed" <==> phase == Succeeded)
    && (c.state.Terminated? && c.state.exitCode == 1 && c.state.reason == "Error" <==> phase == Failed)
  }

  /** A status whose conditions and containers say what its phase does. */
  ghost predicate Coherent(s: Status) {
    ConditionsFollow(s.conditions, s.phase) && forall i | 0 <= i < |s.containers| ::
      StateFollows(s.containers[i], s.phase)
  }

  /** Whatever the status was, changePhase leaves one that is coherent. */
  lemma ChangedIsCoherent(s: Status, containers: seq<Container>, phase: Phase, now: int)
    ensures Coherent(Changed(s, containers, phase, now))
  {
    ConditionsByKind(phase);
    hide ConditionsFollow, ConditionsIn, Carried;
  }

  lemma ConditionsByKind(phase: Phase)
    ensures ConditionsFollow(ConditionsIn(phase), phase)
  {
    var c := ConditionsIn(phase);
    assert c[0] == Condition("ContainersReady", phase == Running) && c[2] == Condition("Ready", phase == Running);
    assert c[1] == Condition("Initialized", true) && c[3] == Condition("PodScheduled", true);
    var kinds := [c[0].kind, c[1].kind, c[2].kind, c[3].kind];
    assert |kinds[0]| == 15 && |kinds[1]| == 11 && |kinds[2]| == 5 && |kinds[3]| == 12;
  }
}
