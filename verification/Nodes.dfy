/**
 Node reconciliation (node/reconciler.go): one Virtual Kubelet instance per node of the agent, kept by mark and sweep.
 Each instance runs under a context derived from the reconciliation loop's. Any context may be cancelled at any time,
 by the instance itself or with the loop, so a pass is interleaved with such cancellations.
 */
module Nodes {
  import opened Wrappers

  datatype Node = Node(name: string, status: string)

  /** A context some instance was started with; it is done when cancelled itself or when its loop's is. */
  datatype Ctx = Ctx(name: string, loop: nat, cancelled: bool)

  /** `id` is the object's identity. */
  datatype Inst = Inst(id: nat, tracked: bool, status: string, ctx: Option<nat>)

  /** `made` objects were ever created; `ctxs` and `loops` hold every context ever made, `loops` as cancelled or not. */
  datatype State = State(instances: map<string, Inst>, made: nat, ctxs: seq<Ctx>, loops: seq<bool>)

  const EMPTY := State(map[], 0, [], [])

  /** Contexts cancelled from outside: instances' own and loops'. */
  datatype Cancels = Cancels(own: set<nat>, loops: set<nat>)

  datatype StreamEnd = Eof | Broken

  /**
   How one pass goes: GetNodes opens a stream or not; what it yields; what gets cancelled before each start or stop.
   */
  datatype Script = Script(opens: bool, nodes: seq<Node>, end: StreamEnd, cancels: seq<Cancels>)

  predicate Succeeds(script: Script) { script.opens && script.end.Eof? }

  predicate Live(ctxs: seq<Ctx>, loops: seq<bool>, c: nat) {
    c < |ctxs| && !ctxs[c].cancelled && ctxs[c].loop < |loops| && !loops[ctxs[c].loop]
  }

  function Names(nodes: seq<Node>): set<string> { set i | 0 <= i < |nodes| :: nodes[i].name }

  // What a pass computes

  function Untracked(instances: map<string, Inst>): map<string, Inst> {
    map n | n in instances :: instances[n].(tracked := false)
  }

  /** One node of the stream: mark it or create it, then update its status. */
  function Seen(s: State, node: Node): State {
    if node.name in s.instances then
      s.(instances := s.instances[node.name := s.instances[node.name].(tracked := true, status := node.status)])
    else
      s.(instances := s.instances[node.name := Inst(s.made, true, node.status, None)], made := s.made + 1)
  }

  function Received(s: State, nodes: seq<Node>): State {
    if nodes == [] then s else Seen(Received(s, nodes[..|nodes| - 1]), nodes[|nodes| - 1])
  }

  function Interfered(s: State, x: Cancels): State {
    s.(ctxs := seq(|s.ctxs|, i requires 0 <= i < |s.ctxs| =>
      s.ctxs[i].(cancelled := s.ctxs[i].cancelled || i in x.own)),
       loops := seq(|s.loops|, i requires 0 <= i < |s.loops| => s.loops[i] || i in x.loops))
  }

  /** Start a tracked instance unless its context is live, stop an untracked one. */
  function Visited(s: State, loop: nat, n: string): State {
    if n !in s.instances then s
    else
      var i := s.instances[n];
      var running := i.ctx.Some? && Live(s.ctxs, s.loops, i.ctx.value);
      if i.tracked then
        if running then s
        else s.(instances := s.instances[n := i.(ctx := Some(|s.ctxs|))], ctxs := s.ctxs + [Ctx(n, loop, false)])
      else if i.ctx.Some? && i.ctx.value < |s.ctxs| then
        s.(ctxs := s.ctxs[i.ctx.value := s.ctxs[i.ctx.value].(cancelled := true)])
      else s
  }

  const UNDISTURBED := Cancels({}, {})

  function CancelsBefore(script: Script, k: nat): Cancels {
    if k < |script.cancels| then script.cancels[k] else UNDISTURBED
  }

  /** Visits in the order the map happens to be iterated in. */
  function Swept(s: State, loop: nat, script: Script, order: seq<string>): State {
    if order == [] then s
    else
      var k := |order| - 1;
      Visited(Interfered(Swept(s, loop, script, order[..k]), CancelsBefore(script, k)), loop, order[k])
  }

  function Collected(instances: map<string, Inst>): map<string, Inst> {
    map n | n in instances && instances[n].tracked :: instances[n]
  }

  function Marked(s: State, script: Script): State {
    Received(s.(instances := Untracked(s.instances)), script.nodes)
  }

  function Pass(s: State, loop: nat, script: Script, order: seq<string>): State {
    if !script.opens then s
    else if script.end.Broken? then Marked(s, script)
    else
      var swept := Swept(Marked(s, script), loop, script, order);
      swept.(instances := Collected(swept.instances))
  }

  ghost predicate Enumerates(order: seq<string>, keys: set<string>) {
    && (forall i, j | 0 <= i < j < |order| :: order[i] != order[j])
    && (forall n :: n in keys <==> n in order)
  }

  /** The instance a Pod's status goes to; none if the Pod is not scheduled or its node is unknown. */
  function Route(s: State, nodeName: string): Option<nat> {
    if nodeName == "" || nodeName !in s.instances then None else Some(s.instances[nodeName].id)
  }

  // The program

  /** The context tree. */
  class Contexts {
    var ctxs: seq<Ctx>
    var loops: seq<bool>

    constructor ()
      ensures ctxs == [] && loops == []
    {
      ctxs, loops := [], [];
    }

    method Interfere(x: Cancels, ghost s: State)
      requires s.ctxs == ctxs && s.loops == loops
      modifies this
      ensures ctxs == Interfered(s, x).ctxs && loops == Interfered(s, x).loops
    {
      ctxs := seq(|ctxs|, i requires 0 <= i < |ctxs| reads this =>
        ctxs[i].(cancelled := ctxs[i].cancelled || i in x.own));
      loops := seq(|loops|, i requires 0 <= i < |loops| reads this => loops[i] || i in x.loops);
    }
  }

  class Instance {
    const id: nat
    const name: string
    var tracked: bool
    var status: string
    var ctx: Option<nat>

    function V(): Inst
      reads this
    {
      Inst(id, tracked, status, ctx)
    }

    /** An instance is made for a node just seen, so it starts out tracked; it has no context yet. */
    constructor (id: nat, name: string)
      ensures this.name == name && V() == Inst(id, true, "", None)
    {
      this.id, this.name := id, name;
      tracked, status, ctx := true, "", None;
    }

    method Start(contexts: Contexts, loop: nat)
      modifies this`ctx, contexts`ctxs
      ensures if old(ctx.Some? && Live(contexts.ctxs, contexts.loops, ctx.value))
              then ctx == old(ctx) && contexts.ctxs == old(contexts.ctxs)
              else ctx == Some(|old(contexts.ctxs)|) && contexts.ctxs == old(contexts.ctxs) + [Ctx(name, loop, false)]
    {
      if ctx.None? || !Live(contexts.ctxs, contexts.loops, ctx.value) {
        ctx := Some(|contexts.ctxs|);
        contexts.ctxs := contexts.ctxs + [Ctx(name, loop, false)];
      } else {
        return; // Its context is live
      }
    }

    method Stop(contexts: Contexts)
      modifies contexts`ctxs
      ensures contexts.ctxs
           == if ctx.Some? && ctx.value < |old(contexts.ctxs)|
              then old(contexts.ctxs)[ctx.value := old(contexts.ctxs)[ctx.value].(cancelled := true)]
              else old(contexts.ctxs)
    {
      if ctx.Some? && ctx.value < |contexts.ctxs| {
        contexts.ctxs := contexts.ctxs[ctx.value := contexts.ctxs[ctx.value].(cancelled := true)];
      }
    }
  }

  class Reconciler {
    const contexts: Contexts
    var instances: map<string, Instance>
    var made: nat

    ghost predicate Valid()
      reads this, instances.Values
    {
      forall n | n in instances :: instances[n].name == n
    }

    ghost function InstancesV(): map<string, Inst>
      reads this, instances.Values
    {
      map n | n in instances :: instances[n].V()
    }

    ghost function V(): State
      reads this, instances.Values, contexts
    {
      State(InstancesV(), made, contexts.ctxs, contexts.loops)
    }

    constructor (contexts: Contexts)
      ensures Valid() && this.contexts == contexts && V() == EMPTY.(ctxs := contexts.ctxs, loops := contexts.loops)
    {
      this.contexts := contexts;
      instances, made := map[], 0;
    }

    method Reconcile(loop: nat, script: Script) returns (ok: bool, ghost order: seq<string>)
      requires Valid()
      modifies this, instances.Values, contexts
      ensures Valid() && V() == Pass(old(V()), loop, script, order)
      ensures ok == Succeeds(script)
      ensures ok ==> Enumerates(order, Marked(old(V()), script).instances.Keys)
    {
      order := [];
      if !script.opens {
        return false, order;
      }
      hide Received, Seen, Swept, Visited, Interfered;
      UntrackAll();
      Receive(script.nodes);
      if script.end.Broken? {
        return false, order;
      }
      ghost var marked := V();
      order := StartAndStop(loop, script);
      assert Enumerates(order, marked.instances.Keys);
      Collect();
      return true, order;
    }

    method UntrackAll()
      requires Valid()
      modifies instances.Values
      ensures V() == old(V()).(instances := Untracked(old(InstancesV())))
    {
      var left := instances.Keys;
      while left != {}
        invariant left <= instances.Keys
        invariant forall n | n in instances ::
          instances[n].V() == if n in left then old(instances[n].V()) else old(instances[n].V()).(tracked := false)
      {
        var n :| n in left;
        instances[n].tracked := false;
        left := left - {n};
      }
    }

    method Receive(nodes: seq<Node>)
      requires Valid()
      modifies this`instances, this`made, instances.Values
      ensures Valid() && V() == Received(old(V()), nodes)
      ensures forall n | n in instances :: fresh(instances[n]) || instances[n] in old(instances.Values)
    {
      hide Received, Seen;
      ReceivedNone(V());
      for k := 0 to |nodes|
        invariant Valid() && V() == Received(old(V()), nodes[..k])
        invariant forall n | n in instances :: fresh(instances[n]) || instances[n] in old(instances.Values)
      {
        ReceivedNext(old(V()), nodes, k);
        See(nodes[k]);
      }
      assert nodes[..|nodes|] == nodes;
    }

    method See(node: Node)
      requires Valid()
      modifies this`instances, this`made, instances.Values
      ensures Valid() && V() == Seen(old(V()), node)
      ensures forall n | n in instances ::
                fresh(instances[n]) || (n in old(instances) && instances[n] == old(instances[n]))
    {
      if node.name in instances {
        // Seen in an earlier pass: the object stays
        instances[node.name].tracked := true;
      } else {
        // Not seen before (or dropped since)
        var i := new Instance(made, node.name);
        instances := instances[node.name := i];
        made := made + 1;
      }
      instances[node.name].status := node.status;
    }

    method StartAndStop(loop: nat, script: Script) returns (ghost order: seq<string>)
      requires Valid()
      modifies contexts, instances.Values
      ensures Valid() && V() == Swept(old(V()), loop, script, order) && Enumerates(order, instances.Keys)
    {
      hide Swept, Visited, Interfered;
      order := [];
      SweptNone(V(), loop, script);
      var left := instances.Keys;
      var k := 0;
      while left != {}
        invariant Valid() && V() == Swept(old(V()), loop, script, order)
        invariant k == |order| && left <= instances.Keys && Enumerates(order, instances.Keys - left)
        decreases left
      {
        var n :| n in left;
        SweptNext(old(V()), loop, script, order, n);
        order := order + [n];
        VisitOne(loop, n, CancelsBefore(script, k));
        left := left - {n};
        k := k + 1;
      }
    }

    method VisitOne(loop: nat, n: string, x: Cancels)
      requires Valid() && n in instances
      modifies contexts, instances.Values
      ensures Valid() && V() == Visited(Interfered(old(V()), x), loop, n)
    {
      hide Interfered;
      InterferedKeeps(V(), x);
      contexts.Interfere(x, V());
      StartOrStop(loop, n);
    }

    method StartOrStop(loop: nat, n: string)
      requires Valid() && n in instances
      modifies contexts`ctxs, instances[n]
      ensures Valid() && V() == Visited(old(V()), loop, n)
    {
      hide Live;
      var i := instances[n];
      if i.tracked {
        i.Start(contexts, loop);
      } else {
        i.Stop(contexts);
      }
    }

    method Collect()
      requires Valid()
      modifies this`instances
      ensures Valid() && V() == old(V()).(instances := Collected(old(InstancesV())))
    {
      instances := map n | n in instances && instances[n].tracked :: instances[n];
    }

    /** Where a status push for a Pod on the given node ends up. */
    method UpdateStatus(nodeName: string) returns (instance: Instance?)
      requires Valid()
      ensures Route(V(), nodeName) == if instance == null then None else Some(instance.id)
    {
      if nodeName == "" {
        return null; // Unscheduled
      }
      if nodeName in instances {
        return instances[nodeName];
      }
      return null; // No such node
    }
  }

  lemma ReceivedNone(s: State)
    ensures Received(s, []) == s
  {
  }

  lemma ReceivedNext(s: State, nodes: seq<Node>, k: nat)
    requires k < |nodes|
    ensures Received(s, nodes[..k + 1]) == Seen(Received(s, nodes[..k]), nodes[k])
  {
    hide Seen;
    assert nodes[..k + 1][..k] == nodes[..k];
  }

  lemma SweptNone(s: State, loop: nat, script: Script)
    ensures Swept(s, loop, script, []) == s
  {
  }

  lemma SweptNext(s: State, loop: nat, script: Script, order: seq<string>, n: string)
    ensures Swept(s, loop, script, order + [n])
         == Visited(Interfered(Swept(s, loop, script, order), CancelsBefore(script, |order|)), loop, n)
  {
    hide Visited, Interfered;
    assert (order + [n])[..|order|] == order;
  }

  lemma InterferedKeeps(s: State, x: Cancels)
    ensures Interfered(s, x).instances == s.instances && Interfered(s, x).made == s.made
  {
  }

  // Marking

  /** Marking adds the nodes it sees, and touches nothing of an instance but its flag and its status. */
  ghost predicate Marks(s: State, t: State, names: set<string>) {
    && t.ctxs == s.ctxs && t.loops == s.loops && t.made >= s.made
    && t.instances.Keys == s.instances.Keys + names
    && forall n | n in t.instances ::
         && t.instances[n].tracked == (n in names || s.instances[n].tracked)
         && (if n in s.instances then t.instances[n].id == s.instances[n].id && t.instances[n].ctx == s.instances[n].ctx
             else s.made <= t.instances[n].id < t.made && t.instances[n].ctx == None)
  }

  lemma SeenMarks(s: State, t: State, names: set<string>, node: Node)
    requires Marks(s, t, names)
    ensures Marks(s, Seen(t, node), names + {node.name})
  {
  }

  lemma {:induction false} ReceivedMarks(s: State, nodes: seq<Node>)
    ensures Marks(s, Received(s, nodes), Names(nodes))
    decreases |nodes|
  {
    if nodes != [] {
      ReceivedMarks(s, nodes[..|nodes| - 1]);
      NamesNext(nodes);
      hide Marks, Seen, Names;
      SeenMarks(s, Received(s, nodes[..|nodes| - 1]), Names(nodes[..|nodes| - 1]), nodes[|nodes| - 1]);
    }
  }

  lemma NamesNext(nodes: seq<Node>)
    requires nodes != []
    ensures Names(nodes) == Names(nodes[..|nodes| - 1]) + {nodes[|nodes| - 1].name}
  {
    forall n | n in Names(nodes) ensures n in Names(nodes[..|nodes| - 1]) + {nodes[|nodes| - 1].name} {
      var i :| 0 <= i < |nodes| && nodes[i].name == n;
      if i < |nodes| - 1 {
        assert nodes[..|nodes| - 1][i].name == n;
      }
    }
    forall n | n in Names(nodes[..|nodes| - 1]) ensures n in Names(nodes) {
      var i :| 0 <= i < |nodes| - 1 && nodes[..|nodes| - 1][i].name == n;
      assert nodes[i].name == n;
    }
  }

  // Contexts over whole runs

  /** An instance's context bears its name. */
  ghost predicate Owned(s: State) {
    forall n | n in s.instances && s.instances[n].ctx.Some? ::
      s.instances[n].ctx.value < |s.ctxs| && s.ctxs[s.instances[n].ctx.value].name == n
  }

  /** A live context is the current one of an instance in the map. */
  ghost predicate Accounted(s: State) {
    forall c: nat | Live(s.ctxs, s.loops, c) ::
      s.ctxs[c].name in s.instances && s.instances[s.ctxs[c].name].ctx == Some(c)
  }

  ghost predicate Numbered(s: State) {
    && (forall n | n in s.instances :: s.instances[n].id < s.made)
    && (forall m, n | m in s.instances && n in s.instances && m != n :: s.instances[m].id != s.instances[n].id)
  }

  ghost predicate Rooted(s: State) { forall c: nat | c < |s.ctxs| :: s.ctxs[c].loop < |s.loops| }

  ghost predicate Inv(s: State) { Owned(s) && Accounted(s) && Numbered(s) && Rooted(s) }

  predicate Idle(s: State, n: string) {
    n in s.instances && s.instances[n].ctx.Some? ==> !Live(s.ctxs, s.loops, s.instances[n].ctx.value)
  }

  lemma UntrackedKeeps(s: State)
    requires Inv(s)
    ensures Inv(s.(instances := Untracked(s.instances)))
  {
    hide Live;
  }

  lemma SeenKeeps(s: State, node: Node)
    requires Inv(s)
    ensures Inv(Seen(s, node))
  {
    hide Live;
  }

  lemma {:induction false} ReceivedKeeps(s: State, nodes: seq<Node>)
    requires Inv(s)
    ensures Inv(Received(s, nodes))
    decreases |nodes|
  {
    hide Inv, Seen;
    if nodes != [] {
      ReceivedKeeps(s, nodes[..|nodes| - 1]);
      SeenKeeps(Received(s, nodes[..|nodes| - 1]), nodes[|nodes| - 1]);
    }
  }

  lemma InterferedDims(s: State, x: Cancels)
    ensures var t := Interfered(s, x);
            && |t.ctxs| == |s.ctxs| && |t.loops| == |s.loops|
            && (forall c: nat :: Live(t.ctxs, t.loops, c) ==> Live(s.ctxs, s.loops, c))
            && (forall c: nat | c < |s.ctxs| :: t.ctxs[c].name == s.ctxs[c].name && t.ctxs[c].loop == s.ctxs[c].loop)
  {
  }

  lemma InterferedKeepsInv(s: State, x: Cancels)
    requires Inv(s)
    ensures Inv(Interfered(s, x))
  {
    InterferedKeeps(s, x);
    InterferedDims(s, x);
    hide Interfered, Live;
  }

  lemma StartKeeps(s: State, loop: nat, n: string)
    requires Inv(s) && loop < |s.loops| && n in s.instances && Idle(s, n)
    ensures Inv(s.(instances := s.instances[n := s.instances[n].(ctx := Some(|s.ctxs|))],
      ctxs := s.ctxs + [Ctx(n, loop, false)]))
  {
  }

  lemma StopKeeps(s: State, c: nat)
    requires Inv(s) && c < |s.ctxs|
    ensures Inv(s.(ctxs := s.ctxs[c := s.ctxs[c].(cancelled := true)]))
  {
  }

  lemma VisitedKeeps(s: State, loop: nat, n: string)
    requires Inv(s) && loop < |s.loops|
    ensures Inv(Visited(s, loop, n))
  {
    hide Inv, Live;
    if n in s.instances {
      var i := s.instances[n];
      if i.tracked && Idle(s, n) {
        StartKeeps(s, loop, n);
      } else if !i.tracked && i.ctx.Some? && i.ctx.value < |s.ctxs| {
        StopKeeps(s, i.ctx.value);
      }
    }
  }

  lemma VisitedLoops(s: State, loop: nat, n: string)
    ensures Visited(s, loop, n).loops == s.loops
  {
  }

  lemma {:induction false} SweptKeeps(s: State, loop: nat, script: Script, order: seq<string>)
    requires Inv(s) && loop < |s.loops|
    ensures Inv(Swept(s, loop, script, order)) && |Swept(s, loop, script, order).loops| == |s.loops|
    decreases |order|
  {
    hide Inv, Visited, Interfered;
    if order != [] {
      var k := |order| - 1;
      var before := Swept(s, loop, script, order[..k]);
      SweptKeeps(s, loop, script, order[..k]);
      InterferedKeepsInv(before, CancelsBefore(script, k));
      InterferedDims(before, CancelsBefore(script, k));
      VisitedKeeps(Interfered(before, CancelsBefore(script, k)), loop, order[k]);
      VisitedLoops(Interfered(before, CancelsBefore(script, k)), loop, order[k]);
    }
  }

  /** Sweeping neither adds nor removes instances nor touches their marks. */
  ghost predicate SameMarks(s: State, t: State) {
    && t.instances.Keys == s.instances.Keys && t.made == s.made
    && (forall n | n in s.instances ::
          && t.instances[n].id == s.instances[n].id && t.instances[n].tracked == s.instances[n].tracked
          && t.instances[n].status == s.instances[n].status)
  }

  lemma {:induction false} SweptMarks(s: State, loop: nat, script: Script, order: seq<string>)
    ensures SameMarks(s, Swept(s, loop, script, order))
    decreases |order|
  {
    hide Interfered, Live;
    if order != [] {
      var k := |order| - 1;
      SweptMarks(s, loop, script, order[..k]);
      InterferedKeeps(Swept(s, loop, script, order[..k]), CancelsBefore(script, k));
    }
  }

  lemma VisitedKeepsIdle(s: State, loop: nat, m: string, n: string)
    requires Inv(s) && n in s.instances && !s.instances[n].tracked && (Idle(s, n) || m == n)
    ensures Idle(Visited(s, loop, m), n)
  {
  }

  lemma {:induction false} SweptStops(s: State, loop: nat, script: Script, order: seq<string>, n: string)
    requires Inv(s) && loop < |s.loops| && n in s.instances && !s.instances[n].tracked && n in order
    ensures Idle(Swept(s, loop, script, order), n)
    decreases |order|
  {
    var k := |order| - 1;
    var before := Swept(s, loop, script, order[..k]);
    var mid := Interfered(before, CancelsBefore(script, k));
    SweptMarks(s, loop, script, order[..k]);
    SweptKeeps(s, loop, script, order[..k]);
    InterferedKeepsInv(before, CancelsBefore(script, k));
    InterferedKeeps(before, CancelsBefore(script, k));
    InterferedDims(before, CancelsBefore(script, k));
    hide Interfered, Visited, Live, Inv;
    if n != order[k] {
      SweptStops(s, loop, script, order[..k], n);
      assert Idle(mid, n);
    }
    VisitedKeepsIdle(mid, loop, order[k], n);
  }

  lemma CollectedKeeps(s: State)
    requires Inv(s) && forall n | n in s.instances && !s.instances[n].tracked :: Idle(s, n)
    ensures Inv(s.(instances := Collected(s.instances)))
  {
    hide Live;
  }

  lemma MarkedIs(s: State, script: Script)
    ensures var t := Marked(s, script);
            && t.ctxs == s.ctxs && t.loops == s.loops && t.made >= s.made
            && t.instances.Keys == s.instances.Keys + Names(script.nodes)
    ensures var t := Marked(s, script);
            forall n | n in t.instances ::
              && (t.instances[n].tracked <==> n in Names(script.nodes))
              && (if n in s.instances then t.instances[n].id == s.instances[n].id
                && t.instances[n].ctx == s.instances[n].ctx
                  else s.made <= t.instances[n].id < t.made && t.instances[n].ctx == None)
  {
    hide Received, Names;
    ReceivedMarks(s.(instances := Untracked(s.instances)), script.nodes);
  }

  lemma MarkedKeeps(s: State, script: Script)
    requires Inv(s)
    ensures Inv(Marked(s, script))
  {
    hide Inv, Received;
    UntrackedKeeps(s);
    ReceivedKeeps(s.(instances := Untracked(s.instances)), script.nodes);
  }

  lemma PassKeeps(s: State, loop: nat, script: Script, order: seq<string>)
    requires Inv(s) && loop < |s.loops| && (Succeeds(script) ==> Enumerates(order, Marked(s, script).instances.Keys))
    ensures Inv(Pass(s, loop, script, order))
  {
    hide Inv, Marked, Swept, Idle, Collected;
    MarkedKeeps(s, script);
    if Succeeds(script) {
      var marked := Marked(s, script);
      MarkedIs(s, script);
      var swept := Swept(marked, loop, script, order);
      SweptKeeps(marked, loop, script, order);
      SweptMarks(marked, loop, script, order);
      forall n | n in swept.instances && !swept.instances[n].tracked ensures Idle(swept, n) {
        SweptStops(marked, loop, script, order, n);
      }
      CollectedKeeps(swept);
    }
  }

  /** A pass by a loop in some order of its map, cancellations between passes, a new loop. */
  datatype Event = Reconciled(loop: nat, script: Script, order: seq<string>) | Cancelled(x: Cancels) | LoopMade

  ghost predicate Enabled(s: State, e: Event) {
    e.Reconciled? ==>
      && e.loop < |s.loops|
      && (Succeeds(e.script) ==> Enumerates(e.order, Marked(s, e.script).instances.Keys))
  }

  ghost function Next(s: State, e: Event): State {
    if !Enabled(s, e) then s
    else
      match e
      case Reconciled(loop, script, order) => Pass(s, loop, script, order)
      case Cancelled(x) => Interfered(s, x)
      case LoopMade => s.(loops := s.loops + [false])
  }

  ghost function After(s: State, run: seq<Event>): State {
    if run == [] then s else Next(After(s, run[..|run| - 1]), run[|run| - 1])
  }

  lemma NextKeeps(s: State, e: Event)
    requires Inv(s)
    ensures Inv(Next(s, e))
  {
    hide Pass, Interfered, Enumerates;
    if Enabled(s, e) {
      match e
      case Reconciled(loop, script, order) => PassKeeps(s, loop, script, order);
      case Cancelled(x) => InterferedKeepsInv(s, x);
      case LoopMade => LoopMadeKeeps(s);
    }
  }

  lemma LoopMadeKeeps(s: State)
    requires Inv(s)
    ensures Inv(s.(loops := s.loops + [false]))
    ensures forall c: nat :: Live(s.ctxs, s.loops + [false], c) <==> Live(s.ctxs, s.loops, c)
  {
  }

  lemma {:induction false} Reachable(s: State, run: seq<Event>)
    requires Inv(s)
    ensures Inv(After(s, run))
    decreases |run|
  {
    hide Inv, Next;
    if run != [] {
      Reachable(s, run[..|run| - 1]);
      NextKeeps(After(s, run[..|run| - 1]), run[|run| - 1]);
    }
  }

  /** Of all the contexts ever made for a node's name, by whatever instances, at most one is live: the current one. */
  lemma OneLiveContextPerName(run: seq<Event>, c: nat, d: nat)
    ensures var s := After(EMPTY, run);
            Live(s.ctxs, s.loops, c) && Live(s.ctxs, s.loops, d) && s.ctxs[c].name == s.ctxs[d].name ==>
              c == d && s.ctxs[c].name in s.instances && s.instances[s.ctxs[c].name].ctx == Some(c)
  {
    assert Inv(EMPTY);
    Reachable(EMPTY, run);
    hide After, Live;
  }

  /** Distinct nodes never share an instance. */
  lemma InstancesAreDistinct(run: seq<Event>, m: string, n: string)
    ensures var s := After(EMPTY, run);
            m in s.instances && n in s.instances && s.instances[m].id == s.instances[n].id ==> m == n
  {
    assert Inv(EMPTY);
    Reachable(EMPTY, run);
    hide After, Live;
  }

  // One pass

  /** A pass that fails starts, stops and removes nothing. */
  lemma FailedPassOnlyAdds(s: State, loop: nat, script: Script, order: seq<string>)
    requires !Succeeds(script)
    ensures var t := Pass(s, loop, script, order);
            && t.ctxs == s.ctxs && t.loops == s.loops
            && t.instances.Keys == s.instances.Keys + (if script.opens then Names(script.nodes) else {})
            && (forall n | n in s.instances ::
                  t.instances[n].id == s.instances[n].id && t.instances[n].ctx == s.instances[n].ctx)
            && (forall n | n in t.instances && n !in s.instances :: t.instances[n].ctx == None)
  {
    hide Marked, Names;
    MarkedIs(s, script);
  }

  /**
   A pass that succeeds leaves exactly the streamed nodes; those that were there keep their instance, the others get a
   new one.
   */
  lemma PassMatchesStream(s: State, loop: nat, script: Script, order: seq<string>)
    requires Succeeds(script)
    ensures var t := Pass(s, loop, script, order);
            && t.instances.Keys == Names(script.nodes)
            && forall n | n in t.instances ::
                 if n in s.instances then t.instances[n].id == s.instances[n].id else t.instances[n].id >= s.made
  {
    hide Marked, Names, Swept;
    MarkedIs(s, script);
    SweptMarks(Marked(s, script), loop, script, order);
  }

  /**
   After it, whatever was cancelled meanwhile, every live context belongs to a streamed node: the others' have been
   stopped.
   */
  lemma NothingElseRuns(s: State, loop: nat, script: Script, order: seq<string>, c: nat)
    requires Inv(s) && loop < |s.loops| && Succeeds(script) && Enumerates(order, Marked(s, script).instances.Keys)
    ensures var t := Pass(s, loop, script, order);
            Live(t.ctxs, t.loops, c) ==> t.ctxs[c].name in Names(script.nodes)
  {
    PassKeeps(s, loop, script, order);
    PassMatchesStream(s, loop, script, order);
    hide Pass, Marked, Names, Live;
  }

  lemma {:induction false} LatestStatus(s: State, nodes: seq<Node>, k: nat)
    requires k < |nodes| && forall j | k < j < |nodes| :: nodes[j].name != nodes[k].name
    ensures var t := Received(s, nodes);
            nodes[k].name in t.instances && t.instances[nodes[k].name].status == nodes[k].status
    decreases |nodes|
  {
    if k < |nodes| - 1 {
      var nodes' := nodes[..|nodes| - 1];
      assert nodes'[k] == nodes[k];
      LatestStatus(s, nodes', k);
    }
  }

  /** A streamed node has the status it was last streamed with, even if the stream breaks later. */
  lemma StatusIsLatest(s: State, loop: nat, script: Script, order: seq<string>, k: nat)
    requires script.opens && k < |script.nodes|
    requires forall j | k < j < |script.nodes| :: script.nodes[j].name != script.nodes[k].name
    ensures var t := Pass(s, loop, script, order);
            script.nodes[k].name in t.instances && t.instances[script.nodes[k].name].status == script.nodes[k].status
  {
    MarkedIs(s, script);
    LatestStatus(s.(instances := Untracked(s.instances)), script.nodes, k);
    SweptMarks(Marked(s, script), loop, script, order);
    hide Swept, Received;
    assert script.nodes[k].name in Names(script.nodes);
  }

  // A pass nobody disturbs

  predicate Undisturbed(s: State, loop: nat, script: Script) {
    loop < |s.loops| && !s.loops[loop] && script.cancels == []
  }

  predicate Runs(s: State, n: string) {
    n in s.instances && s.instances[n].ctx.Some? && Live(s.ctxs, s.loops, s.instances[n].ctx.value)
  }

  lemma NoInterference(s: State)
    ensures Interfered(s, UNDISTURBED) == s
  {
    assert Interfered(s, UNDISTURBED).ctxs == s.ctxs && Interfered(s, UNDISTURBED).loops == s.loops;
  }

  lemma VisitStarts(s: State, loop: nat, n: string)
    requires loop < |s.loops| && !s.loops[loop] && n in s.instances && s.instances[n].tracked
    ensures Runs(Visited(s, loop, n), n) && (Runs(s, n) ==> Visited(s, loop, n) == s)
  {
  }

  lemma VisitOfOther(s: State, loop: nat, m: string, n: string)
    requires Inv(s) && n in s.instances && m != n
    ensures var t := Visited(s, loop, m);
            n in t.instances && t.instances[n] == s.instances[n] && (Runs(s, n) ==> Runs(t, n))
  {
  }

  lemma {:induction false} SweptStarts(s: State, loop: nat, script: Script, order: seq<string>, n: string)
    requires Inv(s) && Undisturbed(s, loop, script) && n in s.instances && s.instances[n].tracked
    ensures var t := Swept(s, loop, script, order);
            && n in t.instances && t.loops == s.loops
            && (n in order ==> Runs(t, n))
            && (Runs(s, n) ==> Runs(t, n) && t.instances[n].ctx == s.instances[n].ctx)
    decreases |order|
  {
    if order != [] {
      var k := |order| - 1;
      var before := Swept(s, loop, script, order[..k]);
      SweptStarts(s, loop, script, order[..k], n);
      SweptMarks(s, loop, script, order[..k]);
      SweptKeeps(s, loop, script, order[..k]);
      NoInterference(before);
      VisitedLoops(before, loop, order[k]);
      hide Interfered, Visited, Live, Inv, Runs;
      assert Swept(s, loop, script, order) == Visited(before, loop, order[k]);
      if order[k] == n {
        VisitStarts(before, loop, n);
      } else {
        VisitOfOther(before, loop, order[k], n);
      }
    }
  }

  /**
   A successful pass of a live loop that nobody disturbs leaves running exactly the nodes it was sent, one context each.
   Those that ran already are not restarted.
   */
  lemma UndisturbedPassConverges(s: State, loop: nat, script: Script, order: seq<string>, n: string)
    requires Inv(s) && Undisturbed(s, loop, script) && Succeeds(script)
    requires Enumerates(order, Marked(s, script).instances.Keys)
    ensures var t := Pass(s, loop, script, order);
            && (Runs(t, n) <==> n in Names(script.nodes))
            && ((exists c: nat :: Live(t.ctxs, t.loops, c) && t.ctxs[c].name == n) <==> n in Names(script.nodes))
            && (Runs(s, n) && n in Names(script.nodes) ==> t.instances[n].ctx == s.instances[n].ctx)
  {
    var marked := Marked(s, script);
    var t := Pass(s, loop, script, order);
    PassMatchesStream(s, loop, script, order);
    PassKeeps(s, loop, script, order);
    MarkedIs(s, script);
    MarkedKeeps(s, script);
    if n in Names(script.nodes) {
      SweptStarts(marked, loop, script, order, n);
      SweptMarks(marked, loop, script, order);
      hide Marked, Names, Swept, Inv, Live;
      assert Runs(t, n);
    }
    hide Pass, Marked, Names, Live;
  }

  // Whole runs

  /** The step is a pass that succeeds without the node. */
  ghost predicate Drops(s: State, e: Event, n: string) {
    e.Reconciled? && Enabled(s, e) && Succeeds(e.script) && n !in Names(e.script.nodes)
  }

  /** No object enters the map twice: an instance in the map was there before or is newer than all before. */
  lemma NextIdentities(s: State, e: Event)
    ensures var t := Next(s, e);
            && t.made >= s.made
            && forall n | n in t.instances ::
                 (n in s.instances && t.instances[n].id == s.instances[n].id) || t.instances[n].id >= s.made
    ensures forall n | n in s.instances :: KeepsInstance(s, Next(s, e), n) <==> !Drops(s, e, n)
  {
    if Enabled(s, e) {
      match e
      case Reconciled(loop, script, order) =>
        if Succeeds(script) {
          PassMatchesStream(s, loop, script, order);
        } else {
          FailedPassOnlyAdds(s, loop, script, order);
        }
        PassIdentities(s, loop, script, order);
      case Cancelled(x) => InterferedKeeps(s, x);
      case LoopMade =>
    }
    hide Pass, Interfered, Enabled, Names, Marked;
  }

  lemma PassIdentities(s: State, loop: nat, script: Script, order: seq<string>)
    ensures var t := Pass(s, loop, script, order);
            && t.made >= s.made
            && forall n | n in t.instances && n !in s.instances :: t.instances[n].id >= s.made
  {
    hide Marked, Names, Swept;
    MarkedIs(s, script);
    SweptMarks(Marked(s, script), loop, script, order);
  }

  predicate KeepsInstance(s: State, t: State, n: string) {
    n in s.instances && n in t.instances && t.instances[n].id == s.instances[n].id
  }

  /**
   A node has the instance it started with exactly if no successful pass since left the node out; a dropped instance
   never returns.
   */
  lemma {:induction false} KeepsInstanceIff(s: State, run: seq<Event>, n: string)
    requires Inv(s) && n in s.instances
    ensures KeepsInstance(s, After(s, run), n) <==> forall k: nat | k < |run| :: !Drops(After(s, run[..k]), run[k], n)
    ensures After(s, run).made >= s.made
    decreases |run|
  {
    if run != [] {
      var before, last := run[..|run| - 1], run[|run| - 1];
      KeepsInstanceIff(s, before, n);
      NextIdentities(After(s, before), last);
      hide After, Next, Drops, Live;
      DropsSplit(s, run, n);
      assert After(s, run) == Next(After(s, before), last) by { AfterNext(s, run); }
    }
  }

  lemma AfterNext(s: State, run: seq<Event>)
    requires run != []
    ensures After(s, run) == Next(After(s, run[..|run| - 1]), run[|run| - 1])
  {
  }

  lemma DropsSplit(s: State, run: seq<Event>, n: string)
    requires run != []
    ensures var before := run[..|run| - 1];
            (forall k: nat | k < |run| :: !Drops(After(s, run[..k]), run[k], n))
              <==> (forall k: nat | k < |before| :: !Drops(After(s, before[..k]), before[k], n))
                   && !Drops(After(s, before), run[|run| - 1], n)
  {
    hide After, Drops;
    var before := run[..|run| - 1];
    assert forall k: nat | k < |before| :: before[..k] == run[..k] && before[k] == run[k];
  }

  /** Contexts only die: one that was done, or whose loop's was, is never live again. */
  predicate OnlyDie(s: State, t: State) {
    && |s.ctxs| <= |t.ctxs| && |s.loops| <= |t.loops|
    && (forall i | 0 <= i < |s.loops| :: s.loops[i] ==> t.loops[i])
    && (forall c | 0 <= c < |s.ctxs| ::
          t.ctxs[c].name == s.ctxs[c].name && t.ctxs[c].loop == s.ctxs[c].loop
            && (s.ctxs[c].cancelled ==> t.ctxs[c].cancelled))
  }

  lemma OnlyDieThrough(s: State, t: State, u: State)
    requires OnlyDie(s, t) && OnlyDie(t, u)
    ensures OnlyDie(s, u)
  {
  }

  lemma VisitedOnlyDie(s: State, loop: nat, n: string)
    ensures OnlyDie(s, Visited(s, loop, n))
  {
    hide Live;
  }

  lemma InterferedOnlyDie(s: State, x: Cancels)
    ensures OnlyDie(s, Interfered(s, x))
  {
  }

  lemma {:induction false} SweptOnlyDie(s: State, loop: nat, script: Script, order: seq<string>)
    ensures OnlyDie(s, Swept(s, loop, script, order))
    decreases |order|
  {
    if order != [] {
      var k := |order| - 1;
      var before := Swept(s, loop, script, order[..k]);
      var mid := Interfered(before, CancelsBefore(script, k));
      SweptOnlyDie(s, loop, script, order[..k]);
      InterferedOnlyDie(before, CancelsBefore(script, k));
      VisitedOnlyDie(mid, loop, order[k]);
      hide OnlyDie, Interfered, Visited;
      OnlyDieThrough(s, before, mid);
      OnlyDieThrough(s, mid, Visited(mid, loop, order[k]));
    }
  }

  lemma NextOnlyDie(s: State, e: Event)
    ensures OnlyDie(s, Next(s, e))
  {
    hide Marked, Swept, Interfered, Enabled;
    match e
    case Reconciled(loop, script, order) =>
      MarkedIs(s, script);
      SweptOnlyDie(Marked(s, script), loop, script, order);
    case Cancelled(x) => InterferedOnlyDie(s, x);
    case LoopMade =>
  }

  lemma {:induction false} RunOnlyDie(s: State, run: seq<Event>)
    ensures OnlyDie(s, After(s, run))
    decreases |run|
  {
    hide OnlyDie, Next;
    if run == [] {
      OnlyDieItself(s);
    } else {
      RunOnlyDie(s, run[..|run| - 1]);
      NextOnlyDie(After(s, run[..|run| - 1]), run[|run| - 1]);
      OnlyDieThrough(s, After(s, run[..|run| - 1]), After(s, run));
    }
  }

  lemma OnlyDieItself(s: State)
    ensures OnlyDie(s, s)
  {
  }

  /**
   Once a loop's context is cancelled, no instance it started, or is still to start, is ever live again under it; and a
   context that is done stays done, so only a new start under a live loop revives a node.
   */
  lemma NeverRevives(first: seq<Event>, rest: seq<Event>, c: nat)
    ensures var s := After(EMPTY, first);
            var t := After(s, rest);
            && (c < |s.ctxs| && !Live(s.ctxs, s.loops, c) ==> !Live(t.ctxs, t.loops, c))
            && (c < |t.ctxs| && t.ctxs[c].loop < |s.loops| && s.loops[t.ctxs[c].loop] ==> !Live(t.ctxs, t.loops, c))
  {
    var s := After(EMPTY, first);
    assert Inv(EMPTY);
    Reachable(EMPTY, first);
    RunOnlyDie(s, rest);
    hide After;
  }

  // Routing of status updates

  /**
   After a successful pass a Pod's status finds an instance exactly if its node was streamed, and the same one as long
   as it stays.
   */
  lemma RoutesToStreamed(s: State, loop: nat, script: Script, order: seq<string>, nodeName: string)
    requires Succeeds(script)
    ensures var t := Pass(s, loop, script, order);
            && (Route(t, nodeName).Some? <==> nodeName != "" && nodeName in Names(script.nodes))
            && (Route(s, nodeName).Some? && Route(t, nodeName).Some? ==> Route(t, nodeName) == Route(s, nodeName))
  {
    PassMatchesStream(s, loop, script, order);
    hide Pass, Names;
  }
}
