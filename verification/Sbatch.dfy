/** composeScript (sbatch.go): the options of the batch script a tracked Pod is submitted with. */
module Sbatch {
  import opened Wrappers
  import opened Text

  const NODELIST := "nodelist"

  datatype Config = Config(account: string, partition: string, output: string)

  datatype Workload = Workload(name: string, nodes: seq<string>, options: map<string, string>)

  datatype Failure = Overrides(option: string) | NoAgentPath

  /** The `#SBATCH --key value` lines in the order written, and the binary the script runs. */
  datatype Script = Script(lines: seq<(string, string)>, binary: string)

  /** The options Supernetes sets itself. */
  function Managed(c: Config, w: Workload): map<string, string> {
    map["job-name" := w.name, "account" := c.account, "partition" := c.partition, "output" := c.output,
        NODELIST := Join(w.nodes, ',')]
  }

  /** The options of an accepted script: an empty node list is not passed on. */
  function Options(c: Config, w: Workload): map<string, string> {
    (if w.nodes == [] then Managed(c, w) - {NODELIST} else Managed(c, w)) + w.options
  }

  /** `lines` lists exactly the entries of `options`, each key once. */
  ghost predicate Lists(lines: seq<(string, string)>, options: map<string, string>) {
    && (forall i | 0 <= i < |lines| :: lines[i].0 in options && options[lines[i].0] == lines[i].1)
    && (forall i, j | 0 <= i < j < |lines| :: lines[i].0 != lines[j].0)
    && (forall k | k in options :: Listed(lines, k, options[k]))
  }

  ghost predicate Listed(lines: seq<(string, string)>, k: string, v: string) {
    exists i :: 0 <= i < |lines| && lines[i] == (k, v)
  }

  /** Whatever order the two maps are walked in: a managed key is refused, anything else is listed exactly once. */
  method ComposeScript(c: Config, w: Workload, agentPath: Option<string>) returns (r: Result<Script, Failure>)
    ensures r.Err? && r.error.Overrides? ==> r.error.option in w.options && r.error.option in Managed(c, w)
    ensures (r.Err? && r.error.Overrides?) <==> !(w.options.Keys !! Managed(c, w).Keys)
    ensures r.Err? && r.error.NoAgentPath? <==> w.options.Keys !! Managed(c, w).Keys && agentPath.None?
    ensures r.Ok? ==> Lists(r.value.lines, Options(c, w)) && Some(r.value.binary) == agentPath
  {
    var managed, extra := Managed(c, w), map[];
    var left := w.options.Keys;
    while left != {}
      invariant left <= w.options.Keys
      invariant extra == map k | k in w.options && k !in left :: w.options[k]
      invariant extra.Keys !! managed.Keys
      decreases |left|
    {
      var option :| option in left;
      if option in managed {
        return Err(Overrides(option));
      }
      extra := extra[option := w.options[option]];
      left := left - {option};
    }
    if w.nodes == [] {
      managed := managed - {NODELIST};
    }
    assert extra == w.options;
    var lines := Walk(managed + extra);
    if agentPath.None? {
      return Err(NoAgentPath);
    }
    return Ok(Script(lines, agentPath.value));
  }

  method Walk(options: map<string, string>) returns (lines: seq<(string, string)>)
    ensures Lists(lines, options)
  {
    lines := [];
    var left := options.Keys;
    while left != {}
      invariant left <= options.Keys
      invariant Lists(lines, map k | k in options && k !in left :: options[k])
      decreases |left|
    {
      ghost var before, done := lines, map k | k in options && k !in left :: options[k];
      var k :| k in left;
      lines := lines + [(k, options[k])];
      left := left - {k};
      ListsOneMore(before, done, k, options[k]);
      assert done[k := options[k]] == map k' | k' in options && k' !in left :: options[k'];
    }
    assert options == map k | k in options && k !in left :: options[k];
  }

  lemma ListsOneMore(lines: seq<(string, string)>, done: map<string, string>, k: string, v: string)
    requires Lists(lines, done) && k !in done
    ensures Lists(lines + [(k, v)], done[k := v])
  {
    var more, all := lines + [(k, v)], done[k := v];
    forall key | key in all ensures Listed(more, key, all[key]) {
      if key == k {
        assert more[|lines|] == (k, v);
      } else {
        assert Listed(lines, key, done[key]);
        var i :| 0 <= i < |lines| && lines[i] == (key, done[key]);
        assert more[i] == lines[i];
      }
    }
  }

  /**
   What an accepted script says: the job's name, the configured account, partition and output file, the nodes joined by
   commas if there are any, and each option the Pod was labelled with.
   */
  lemma ScriptSays(c: Config, w: Workload, lines: seq<(string, string)>)
    requires w.options.Keys !! Managed(c, w).Keys && Lists(lines, Options(c, w))
    ensures Listed(lines, "job-name", w.name) && Listed(lines, "account", c.account)
    ensures Listed(lines, "partition", c.partition) && Listed(lines, "output", c.output)
    ensures w.nodes != [] ==> Listed(lines, "nodelist", Join(w.nodes, ','))
    ensures w.nodes == [] ==> forall i | 0 <= i < |lines| :: lines[i].0 != "nodelist"
    ensures forall k | k in w.options :: Listed(lines, k, w.options[k])
    ensures forall i | 0 <= i < |lines| ::
              lines[i].0 in {"job-name", "account", "partition", "output", "nodelist"} || lines[i].0 in w.options
  {
    AcceptedIsDisjointUnion(c, w);
    hide Listed;
    var m := Managed(c, w);
    Apart();
    assert m["job-name"] == w.name && m["account"] == c.account && m["partition"] == c.partition
      && m["output"] == c.output;
    assert m["nodelist"] == Join(w.nodes, ',');
  }

  lemma Apart()
    ensures var keys := ["job-name", "account", "partition", "output", "nodelist"];
            forall i, j | 0 <= i < j < 5 :: keys[i] != keys[j]
  {
    var keys := ["job-name", "account", "partition", "output", "nodelist"];
    assert keys[0][0] == 'j' && keys[1][0] == 'a' && keys[2][0] == 'p' && keys[3][0] == 'o' && keys[4][0] == 'n';
  }

  /** An accepted script keeps every user option as given and every managed one, minus an empty node list. */
  lemma AcceptedIsDisjointUnion(c: Config, w: Workload)
    requires w.options.Keys !! Managed(c, w).Keys
    ensures forall k | k in w.options :: k in Options(c, w) && Options(c, w)[k] == w.options[k]
    ensures forall k | k in Managed(c, w) && (k != NODELIST || w.nodes != []) ::
              k in Options(c, w) && Options(c, w)[k] == Managed(c, w)[k]
    ensures NODELIST in Options(c, w) <==> w.nodes != []
    ensures Options(c, w).Keys <= Managed(c, w).Keys + w.options.Keys
  {
    assert NODELIST in Managed(c, w);
  }
}
