/** Job metadata as Pod labels (provider/conversion.go) and the label names both sides share. */
module Labels {
  import opened Text

  const SCOPE_EXTRA := "supernetes-extra"
  const SCOPE_OPTION := "supernetes-option"
  const LABEL_KIND := "supernetes-workload/kind"
  const LABEL_IDENTIFIER := "supernetes-workload/idenfitier" // The repository's spelling
  const LABEL_ADDITIONAL_NODES := "supernetes-workload/additional-nodes"
  const KIND_UNTRACKED := "untracked"

  type LabelMap = map<string, string>

  datatype WorkloadMeta = WorkloadMeta(name: string, identifier: string, extra: LabelMap)

  predicate InScope(key: string, scope: string) {
    |key| > |scope| && key[..|scope| + 1] == scope + "/"
  }

  function Scope(scope: string, name: string): (key: string)
    ensures InScope(key, scope) && key[|scope| + 1..] == name
  {
    var key := scope + "/" + name;
    assert key[..|scope| + 1] == scope + "/";
    key
  }

  lemma ScopeOfRest(key: string, scope: string)
    requires InScope(key, scope)
    ensures Scope(scope, key[|scope| + 1..]) == key
  {
    assert key[..|scope| + 1] + key[|scope| + 1..] == key;
  }

  /** The names under `scope`, stripped of it. */
  function Unscoped(labels: LabelMap, scope: string): LabelMap {
    map name | name in (set k | k in labels && InScope(k, scope) :: k[|scope| + 1..]) && Scope(scope, name) in labels
      :: labels[Scope(scope, name)]
  }

  /** The same names put under `scope`. */
  function Scoped(names: LabelMap, scope: string): LabelMap {
    map key | key in (set name | name in names :: Scope(scope, name)) && InScope(key, scope)
      && key[|scope| + 1..] in names
      :: names[key[|scope| + 1..]]
  }

  lemma UnscopedHas(labels: LabelMap, scope: string, name: string)
    ensures name in Unscoped(labels, scope) <==> Scope(scope, name) in labels
    ensures name in Unscoped(labels, scope) ==> Unscoped(labels, scope)[name] == labels[Scope(scope, name)]
  {
    if Scope(scope, name) in labels {
      var key := Scope(scope, name);
      assert InScope(key, scope) && key[|scope| + 1..] == name;
    }
  }

  lemma ScopedHas(names: LabelMap, scope: string, key: string)
    ensures key in Scoped(names, scope) <==> InScope(key, scope) && key[|scope| + 1..] in names
    ensures key in Scoped(names, scope) ==> Scoped(names, scope)[key] == names[key[|scope| + 1..]]
  {
    if InScope(key, scope) && key[|scope| + 1..] in names {
      ScopeOfRest(key, scope);
    }
  }

  /** getLabels: the loop over the labels, in whatever order the map yields them. */
  method GetLabels(labels: LabelMap, scope: string) returns (found: LabelMap)
    ensures found == Unscoped(labels, scope)
  {
    found := map[];
    var left := labels.Keys;
    while left != {}
      invariant left <= labels.Keys
      invariant forall name | name in found ::
                  && Scope(scope, name) in labels && Scope(scope, name) !in left
                  && found[name] == labels[Scope(scope, name)]
      invariant forall k | k in labels && k !in left && InScope(k, scope) :: k[|scope| + 1..] in found
      decreases |left|
    {
      var k :| k in left;
      left := left - {k};
      if InScope(k, scope) {
        ScopeOfRest(k, scope);
        found := found[k[|scope| + 1..] := labels[k]];
      }
    }
    forall name
      ensures name in found <==> name in Unscoped(labels, scope)
      ensures name in found ==> found[name] == Unscoped(labels, scope)[name]
    {
      UnscopedHas(labels, scope, name);
      if Scope(scope, name) in labels {
        assert Scope(scope, name)[|scope| + 1..] == name;
      }
    }
  }

  /** workloadMeta. */
  function Meta(name: string, labels: LabelMap): WorkloadMeta {
    WorkloadMeta(name,
                 if LABEL_IDENTIFIER in labels then labels[LABEL_IDENTIFIER] else "",
                 Unscoped(labels, SCOPE_EXTRA))
  }

  /** The labels after applyWorkloadMeta. */
  function Applied(meta: WorkloadMeta, labels: LabelMap): LabelMap {
    (labels + Scoped(meta.extra, SCOPE_EXTRA))[LABEL_IDENTIFIER := meta.identifier]
  }

  /** applyWorkloadMeta's loop. */
  method ApplyMeta(meta: WorkloadMeta, labels: LabelMap) returns (applied: LabelMap)
    ensures applied == Applied(meta, labels)
  {
    hide PartlyApplied, Scope;
    applied := labels;
    NoneApplied(meta.extra, labels);
    var left := meta.extra.Keys;
    while left != {}
      invariant left <= meta.extra.Keys
      invariant PartlyApplied(meta.extra, labels, applied, left)
      decreases |left|
    {
      var name :| name in left;
      OneMoreExtra(meta.extra, labels, applied, left, name);
      applied := applied[Scope(SCOPE_EXTRA, name) := meta.extra[name]];
      left := left - {name};
    }
    LoopIsUnion(meta.extra, labels, applied);
    applied := applied[LABEL_IDENTIFIER := meta.identifier];
  }

  /** applyWorkloadMeta's loop with the extras in `left` still to come. */
  ghost predicate PartlyApplied(extra: LabelMap, labels: LabelMap, applied: LabelMap, left: set<string>) {
    && labels.Keys <= applied.Keys <= labels.Keys + Scoped(extra, SCOPE_EXTRA).Keys
    && (forall name | name in extra && name !in left :: Scope(SCOPE_EXTRA, name) in applied)
    && (forall key | key in applied ::
          if InScope(key, SCOPE_EXTRA) && key[|SCOPE_EXTRA| + 1..] in extra && key[|SCOPE_EXTRA| + 1..] !in left
          then applied[key] == extra[key[|SCOPE_EXTRA| + 1..]]
          else key in labels && applied[key] == labels[key])
  }

  lemma NoneApplied(extra: LabelMap, labels: LabelMap)
    ensures PartlyApplied(extra, labels, labels, extra.Keys)
  {
  }

  lemma OneMoreExtra(extra: LabelMap, labels: LabelMap, applied: LabelMap, left: set<string>, name: string)
    requires name in extra && name in left && PartlyApplied(extra, labels, applied, left)
    ensures PartlyApplied(extra, labels, applied[Scope(SCOPE_EXTRA, name) := extra[name]], left - {name})
  {
    hide Scoped;
    var before, after := applied, applied[Scope(SCOPE_EXTRA, name) := extra[name]];
    ScopedHas(extra, SCOPE_EXTRA, Scope(SCOPE_EXTRA, name));
    forall key | key in after
      ensures if InScope(key, SCOPE_EXTRA) && key[|SCOPE_EXTRA| + 1..] in extra
        && key[|SCOPE_EXTRA| + 1..] !in left - {name}
              then after[key] == extra[key[|SCOPE_EXTRA| + 1..]]
              else key in labels && after[key] == labels[key]
    {
      if InScope(key, SCOPE_EXTRA) {
        ScopeOfRest(key, SCOPE_EXTRA);
      }
    }
  }

  lemma LoopIsUnion(extra: LabelMap, labels: LabelMap, applied: LabelMap)
    requires PartlyApplied(extra, labels, applied, {})
    ensures applied == labels + Scoped(extra, SCOPE_EXTRA)
  {
    forall key
      ensures key in applied <==> key in labels + Scoped(extra, SCOPE_EXTRA)
      ensures key in applied ==> applied[key] == (labels + Scoped(extra, SCOPE_EXTRA))[key]
    {
      ScopedHas(extra, SCOPE_EXTRA, key);
      if key in Scoped(extra, SCOPE_EXTRA) {
        ScopeOfRest(key, SCOPE_EXTRA);
      }
    }
  }

  lemma InScopeStarts(key: string, scope: string, i: nat)
    requires i < |scope|
    ensures InScope(key, scope) ==> key[i] == scope[i]
  {
    if InScope(key, scope) {
      assert key[i] == key[..|scope| + 1][i];
    }
  }

  /** Where the managed label names lie relative to the two scopes. */
  lemma ManagedNames()
    ensures !InScope(LABEL_IDENTIFIER, SCOPE_EXTRA) && !InScope(LABEL_IDENTIFIER, SCOPE_OPTION)
    ensures !InScope(LABEL_KIND, SCOPE_EXTRA) && !InScope(LABEL_KIND, SCOPE_OPTION)
    ensures !InScope(LABEL_ADDITIONAL_NODES, SCOPE_EXTRA) && LABEL_ADDITIONAL_NODES != LABEL_IDENTIFIER
    ensures LABEL_KIND != LABEL_IDENTIFIER
  {
    assert LABEL_IDENTIFIER[11] == 'w' && LABEL_KIND[11] == 'w' && LABEL_ADDITIONAL_NODES[11] == 'w';
    assert SCOPE_EXTRA[11] == 'e' && SCOPE_OPTION[11] == 'o';
    assert LABEL_KIND[20] != LABEL_IDENTIFIER[20] && LABEL_ADDITIONAL_NODES[20] != LABEL_IDENTIFIER[20];
    forall key: string, scope | key in {LABEL_IDENTIFIER, LABEL_KIND, LABEL_ADDITIONAL_NODES}
      && scope in {SCOPE_EXTRA, SCOPE_OPTION}
      ensures !InScope(key, scope)
    {
      InScopeStarts(key, scope, 11);
    }
  }

  lemma ScopesApart(name: string)
    ensures !InScope(Scope(SCOPE_OPTION, name), SCOPE_EXTRA)
    ensures Scope(SCOPE_OPTION, name) != LABEL_IDENTIFIER && Scope(SCOPE_EXTRA, name) != LABEL_IDENTIFIER
  {
    ManagedNames();
    var key := Scope(SCOPE_OPTION, name);
    assert key[11] == SCOPE_OPTION[11] == 'o';
    InScopeStarts(key, SCOPE_EXTRA, 11);
  }

  /**
   Metadata survives the trip through labels: afterwards the Pod reports the given identifier and its old extras
   overridden by the new ones, while options, kind and additional nodes are untouched.
   */
  lemma MetaRoundTrip(meta: WorkloadMeta, name: string, labels: LabelMap)
    ensures Meta(name, Applied(meta, labels))
         == WorkloadMeta(name, meta.identifier, Unscoped(labels, SCOPE_EXTRA) + meta.extra)
    ensures Unscoped(Applied(meta, labels), SCOPE_OPTION) == Unscoped(labels, SCOPE_OPTION)
    ensures SameAt(Applied(meta, labels), labels, LABEL_KIND)
    ensures SameAt(Applied(meta, labels), labels, LABEL_ADDITIONAL_NODES)
  {
    hide Scoped, Unscoped;
    ManagedNames();
    ScopedHas(meta.extra, SCOPE_EXTRA, LABEL_KIND);
    ScopedHas(meta.extra, SCOPE_EXTRA, LABEL_ADDITIONAL_NODES);
    var after := Applied(meta, labels);
    forall n
      ensures n in Unscoped(after, SCOPE_EXTRA) <==> n in Unscoped(labels, SCOPE_EXTRA) + meta.extra
      ensures n in Unscoped(after, SCOPE_EXTRA) ==>
                Unscoped(after, SCOPE_EXTRA)[n] == (Unscoped(labels, SCOPE_EXTRA) + meta.extra)[n]
      ensures n in Unscoped(after, SCOPE_OPTION) <==> n in Unscoped(labels, SCOPE_OPTION)
      ensures n in Unscoped(after, SCOPE_OPTION)
        ==> Unscoped(after, SCOPE_OPTION)[n] == Unscoped(labels, SCOPE_OPTION)[n]
    {
      AppliedAt(meta, labels, n);
    }
  }

  lemma AppliedAt(meta: WorkloadMeta, labels: LabelMap, n: string)
    ensures var after := Applied(meta, labels);
            && (n in Unscoped(after, SCOPE_EXTRA) <==> n in Unscoped(labels, SCOPE_EXTRA) || n in meta.extra)
            && (n in meta.extra ==> Unscoped(after, SCOPE_EXTRA)[n] == meta.extra[n])
            && (n in Unscoped(labels, SCOPE_EXTRA) && n !in meta.extra ==>
                  Unscoped(after, SCOPE_EXTRA)[n] == Unscoped(labels, SCOPE_EXTRA)[n])
            && SameAt(Unscoped(after, SCOPE_OPTION), Unscoped(labels, SCOPE_OPTION), n)
  {
    hide Scoped, Unscoped;
    var after := Applied(meta, labels);
    ScopesApart(n);
    UnscopedHas(labels, SCOPE_EXTRA, n);
    UnscopedHas(after, SCOPE_EXTRA, n);
    UnscopedHas(labels, SCOPE_OPTION, n);
    UnscopedHas(after, SCOPE_OPTION, n);
    ScopedHas(meta.extra, SCOPE_EXTRA, Scope(SCOPE_EXTRA, n));
    ScopedHas(meta.extra, SCOPE_EXTRA, Scope(SCOPE_OPTION, n));
  }

  /** Labels that are neither extras nor the identifier are not touched. */
  lemma OtherLabelsStay(meta: WorkloadMeta, labels: LabelMap, key: string)
    requires key != LABEL_IDENTIFIER && !InScope(key, SCOPE_EXTRA)
    ensures SameAt(Applied(meta, labels), labels, key)
  {
    ScopedHas(meta.extra, SCOPE_EXTRA, key);
    hide Scoped;
  }

  predicate SameAt(a: LabelMap, b: LabelMap, key: string) {
    (key in a <==> key in b) && (key in a ==> a[key] == b[key])
  }

  /**
   The agent answers with the metadata it was sent plus a job id, so dispatching changes the identifier label only.
   */
  lemma DispatchOnlyIdentifies(labels: LabelMap, name: string, jobId: string)
    ensures Applied(Meta(name, labels).(identifier := jobId), labels) == labels[LABEL_IDENTIFIER := jobId]
  {
    hide Scoped, Unscoped;
    ScopedAgain(labels, SCOPE_EXTRA);
    AlreadyIn(labels, Scoped(Unscoped(labels, SCOPE_EXTRA), SCOPE_EXTRA));
  }

  /** Taking the names out of a scope and putting them back gives labels that were there. */
  lemma ScopedAgain(labels: LabelMap, scope: string)
    ensures forall key | key in Scoped(Unscoped(labels, scope), scope) ::
              key in labels && Scoped(Unscoped(labels, scope), scope)[key] == labels[key]
  {
    hide Scoped, Unscoped, Scope;
    var names := Unscoped(labels, scope);
    forall key | key in Scoped(names, scope) ensures key in labels && Scoped(names, scope)[key] == labels[key] {
      ScopedHas(names, scope, key);
      ScopeOfRest(key, scope);
      UnscopedHas(labels, scope, key[|scope| + 1..]);
    }
  }

  lemma AlreadyIn(labels: LabelMap, some: LabelMap)
    requires forall key | key in some :: key in labels && some[key] == labels[key]
    ensures labels + some == labels
  {
  }

  /** getNodes: the primary node first, then those of the additional nodes label. */
  function Nodes(labels: LabelMap, nodeName: string): seq<string> {
    [nodeName] + if LABEL_ADDITIONAL_NODES in labels then Split(labels[LABEL_ADDITIONAL_NODES], ',') else []
  }

  /** The nodelist option is the node name followed by the label verbatim. */
  lemma NodelistIsVerbatim(labels: LabelMap, nodeName: string)
    ensures Join(Nodes(labels, nodeName), ',')
         == if LABEL_ADDITIONAL_NODES in labels then nodeName + "," + labels[LABEL_ADDITIONAL_NODES] else nodeName
  {
    if LABEL_ADDITIONAL_NODES in labels {
      var listed := labels[LABEL_ADDITIONAL_NODES];
      JoinSplitN(listed, ',', |listed| + 1);
      assert Nodes(labels, nodeName)[1..] == Split(listed, ',');
    }
  }
}
