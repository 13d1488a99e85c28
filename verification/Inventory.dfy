/** The inventory of applied objects (inventory.go) from which stale Pods are found. */
module Inventory {
  import opened Wrappers

  datatype ObjMeta = ObjMeta(namespace: string, name: string, group: string, kind: string)

  /** The ID string of an entry: an encoded ObjMeta, or text that ParseObjMetadata rejects. */
  datatype RefId = Encoded(meta: ObjMeta) | Malformed(text: string)

  datatype Ref = Ref(id: RefId, version: string)

  /** What an object is deleted by. */
  datatype Object = Object(meta: ObjMeta, version: string)

  const POD_VERSION := "v1"

  function PodMeta(namespace: string, name: string): ObjMeta { ObjMeta(namespace, name, "", "Pod") }

  function Metas(entries: seq<Ref>): set<ObjMeta> {
    set i | 0 <= i < |entries| && entries[i].id.Encoded? :: entries[i].id.meta
  }

  predicate AllEncoded(entries: seq<Ref>) {
    forall i | 0 <= i < |entries| :: entries[i].id.Encoded?
  }

  /** The version of the first entry for `meta`, empty if there is none. */
  function FirstVersion(entries: seq<Ref>, meta: ObjMeta): string {
    if entries == [] then ""
    else if entries[0].id == Encoded(meta) then entries[0].version
    else FirstVersion(entries[1..], meta)
  }

  /** It is that: the version of the entry for `meta` that has none before it, and empty exactly without one. */
  lemma {:induction false} FirstVersionIs(entries: seq<Ref>, meta: ObjMeta)
    ensures forall k | 0 <= k < |entries| && entries[k].id == Encoded(meta)
      && (forall j | 0 <= j < k :: entries[j].id != Encoded(meta)) ::
              FirstVersion(entries, meta) == entries[k].version
    ensures meta !in Metas(entries) ==> FirstVersion(entries, meta) == ""
    decreases |entries|
  {
    if entries != [] && entries[0].id != Encoded(meta) {
      FirstVersionIs(entries[1..], meta);
      assert forall k | 1 <= k < |entries| :: entries[k] == entries[1..][k - 1];
      if meta in Metas(entries[1..]) {
        var i :| 0 <= i < |entries[1..]| && entries[1..][i].id == Encoded(meta);
        assert entries[i + 1].id == Encoded(meta);
      }
    }
  }

  function Refs(metas: seq<ObjMeta>): (refs: seq<Ref>)
    ensures |refs| == |metas|
  {
    seq(|metas|, i requires 0 <= i < |metas| => Ref(Encoded(metas[i]), POD_VERSION))
  }

  function Elements(metas: seq<ObjMeta>): set<ObjMeta> { set i | 0 <= i < |metas| :: metas[i] }

  lemma MetasOfRefs(entries: seq<Ref>, metas: seq<ObjMeta>)
    ensures Metas(entries + Refs(metas)) == Metas(entries) + Elements(metas)
    ensures AllEncoded(entries) ==> AllEncoded(entries + Refs(metas))
  {
    var all := entries + Refs(metas);
    assert forall i | 0 <= i < |entries| :: all[i] == entries[i];
    assert forall i | 0 <= i < |metas| :: all[|entries| + i] == Refs(metas)[i];
    forall m ensures m in Metas(all) <==> m in Metas(entries) + Elements(metas) {
      if i :| 0 <= i < |entries| && entries[i].id == Encoded(m) {
        assert all[i].id == Encoded(m);
      }
      if i :| 0 <= i < |metas| && metas[i] == m {
        assert all[|entries| + i].id == Encoded(m);
      }
    }
  }

  /** `objects` has each of `metas` once, with the version of its first entry, and nothing else. */
  ghost predicate Enumerates(objects: seq<Object>, metas: set<ObjMeta>, entries: seq<Ref>) {
    && (forall i | 0 <= i < |objects| ::
          objects[i].meta in metas && objects[i].version == FirstVersion(entries, objects[i].meta))
    && (forall i, j | 0 <= i < j < |objects| :: objects[i].meta != objects[j].meta)
    && (forall m | m in metas :: Contains(objects, m))
  }

  ghost predicate Contains(objects: seq<Object>, m: ObjMeta) {
    exists i :: 0 <= i < |objects| && objects[i].meta == m
  }

  lemma EnumeratesOneMore(objects: seq<Object>, metas: set<ObjMeta>, entries: seq<Ref>, meta: ObjMeta)
    requires Enumerates(objects, metas, entries) && meta !in metas
    ensures Enumerates(objects + [Object(meta, FirstVersion(entries, meta))], metas + {meta}, entries)
  {
    var more := objects + [Object(meta, FirstVersion(entries, meta))];
    forall m | m in metas + {meta} ensures Contains(more, m) {
      if m == meta {
        assert more[|objects|].meta == m;
      } else {
        assert Contains(objects, m);
        var i :| 0 <= i < |objects| && objects[i].meta == m;
        assert more[i].meta == m;
      }
    }
  }

  /** Everything that was listed or applied is deleted as a version "v1" object. */
  lemma VersionsAreV1(metas: seq<ObjMeta>, stale: set<ObjMeta>, objects: seq<Object>)
    requires stale <= Elements(metas) && Enumerates(objects, stale, Refs(metas))
    ensures forall i | 0 <= i < |objects| :: objects[i].version == "v1"
  {
    forall i | 0 <= i < |objects| ensures objects[i].version == "v1" {
      var j: nat :| j < |metas| && metas[j] == objects[i].meta;
      VersionWhere(Refs(metas), objects[i].meta, j);
    }
  }

  lemma {:induction false} VersionWhere(entries: seq<Ref>, meta: ObjMeta, j: nat)
    requires j < |entries| && entries[j].id == Encoded(meta)
    requires forall i | 0 <= i < |entries| :: entries[i].version == "v1"
    ensures FirstVersion(entries, meta) == "v1"
    decreases |entries|
  {
    if entries[0].id != Encoded(meta) {
      VersionWhere(entries[1..], meta, j - 1);
    }
  }

  class Inventory {
    var entries: seq<Ref>

    constructor ()
      ensures entries == []
    {
      entries := [];
    }

    /** `listed` is the answer of the list call; entry `badGvk` of it, if any, has no known kind. */
    method Populate(listed: Option<seq<ObjMeta>>, badGvk: Option<nat>) returns (ok: bool)
      modifies this
      ensures ok <==> listed.Some? && (badGvk.Some? ==> badGvk.value >= |listed.value|)
      ensures listed.None? ==> entries == old(entries)
      ensures listed.Some? ==>
                entries == old(entries) + Refs(if ok then listed.value else listed.value[..badGvk.value])
    {
      if listed.None? {
        return false;
      }
      var pods := listed.value;
      for j := 0 to |pods|
        invariant entries == old(entries) + Refs(pods[..j])
        invariant badGvk.Some? ==> j <= badGvk.value
      {
        if badGvk == Some(j) {
          return false;
        }
        assert Refs(pods[..j + 1]) == Refs(pods[..j]) + [Ref(Encoded(pods[j]), POD_VERSION)];
        entries := entries + [Ref(Encoded(pods[j]), POD_VERSION)];
      }
      assert pods[..|pods|] == pods;
      return true;
    }

    /** A missing change set adds nothing. */
    method AddChangeSet(changes: Option<seq<ObjMeta>>)
      modifies this
      ensures entries == old(entries) + if changes.Some? then Refs(changes.value) else []
    {
      if changes.None? {
        return;
      }
      var metas := changes.value;
      for k := 0 to |metas|
        invariant entries == old(entries) + Refs(metas[..k])
      {
        assert Refs(metas[..k + 1]) == Refs(metas[..k]) + [Ref(Encoded(metas[k]), POD_VERSION)];
        entries := entries + [Ref(Encoded(metas[k]), POD_VERSION)];
      }
      assert metas[..|metas|] == metas;
    }

    method ListMetadata() returns (r: Result<seq<ObjMeta>, string>)
      ensures r.Ok? <==> AllEncoded(entries)
      ensures r.Ok? ==> Elements(r.value) == Metas(entries)
    {
      var metas := [];
      for k := 0 to |entries|
        invariant AllEncoded(entries[..k]) && |metas| == k
        invariant forall i | 0 <= i < k :: entries[i].id == Encoded(metas[i])
      {
        if entries[k].id.Malformed? {
          assert !AllEncoded(entries);
          return Err(entries[k].id.text);
        }
        metas := metas + [entries[k].id.meta];
      }
      assert AllEncoded(entries) by { assert entries[..|entries|] == entries; }
      return Ok(metas);
    }

    method VersionOf(meta: ObjMeta) returns (version: string)
      ensures version == FirstVersion(entries, meta)
    {
      for k := 0 to |entries|
        invariant FirstVersion(entries, meta) == FirstVersion(entries[k..], meta)
      {
        if entries[k].id == Encoded(meta) {
          return entries[k].version;
        }
        assert entries[k..][1..] == entries[k + 1..];
      }
      return "";
    }

    /** The objects of this inventory that `target` does not have: each once, with the version of its first entry. */
    method Diff(target: Inventory) returns (r: Result<seq<Object>, string>)
      ensures r.Ok? <==> AllEncoded(entries) && AllEncoded(target.entries)
      ensures r.Ok? ==> Enumerates(r.value, Metas(entries) - Metas(target.entries), entries)
    {
      var a := ListMetadata();
      if a.Err? {
        return Err(a.error);
      }
      var b := target.ListMetadata();
      if b.Err? {
        return Err(b.error);
      }
      var left := Elements(a.value) - Elements(b.value);
      ghost var all := left;
      var objects: seq<Object> := [];
      while left != {}
        invariant left <= all
        invariant Enumerates(objects, all - left, entries)
        decreases |left|
      {
        hide Enumerates;
        var meta :| meta in left;
        var version := VersionOf(meta);
        EnumeratesOneMore(objects, all - left, entries, meta);
        assert all - (left - {meta}) == all - left + {meta};
        objects := objects + [Object(meta, version)];
        left := left - {meta};
      }
      assert all - left == all;
      return Ok(objects);
    }
  }
}
