/** Removing stored states no plan uses any more (planner/manifest.go). */
module Prune {
  import opened Base
  import Plans
  import opened State
  import opened Apply
  import opened ApplyFacts

  /** The state directory and the keys being gathered. */
  class StateDir {
    var files: Store
    var keys: set<string>

    constructor (store: Store)
      ensures files == store && keys == {}
    {
      files, keys := store, {};
    }

    /** The first loop of gatherOpKeys. */
    method AddKeys(ops: seq<Plans.Operation>)
      modifies this`keys
      ensures keys == old(keys) + OpKeys(ops)
    {
      for i := 0 to |ops|
        invariant keys == old(keys) + OpKeys(ops[..i])
      {
        assert ops[..i + 1] == ops[..i] + [ops[i]];
        if ops[i].key != "" { keys := keys + {ops[i].key}; }
      }
      assert ops[..|ops|] == ops;
    }

    /** gatherOpKeys: the keys of every operation of every plan below `p`. */
    method GatherOpKeys(g: Plans.Graph, p: Plans.Name)
      requires Plans.Acyclic(g) && p in g
      modifies this`keys
      ensures keys == old(keys) + KeysBelow(g, p)
      decreases Plans.RankOf(g)(p), 1
    {
      AddKeys(g[p].operations);
      GatherEach(g, p, g[p].dependencies);
      GatherEach(g, p, g[p].plans);
      KeysSplit(g, p);
    }

    /** The loops of gatherOpKeys over the dependencies and over the plans of `p`. */
    method GatherEach(g: Plans.Graph, p: Plans.Name, cs: seq<Plans.Name>)
      requires Plans.Acyclic(g) && p in g && forall c :: c in cs ==> c in Plans.Children(g[p])
      modifies this`keys
      ensures keys == old(keys) + KeysBelowAll(g, p, cs)
      decreases Plans.RankOf(g)(p), 0
    {
      for i := 0 to |cs|
        invariant keys == old(keys) + KeysBelowAll(g, p, cs[..i])
      {
        NextChild(g, p, cs, i);
        ghost var before := keys;
        GatherOpKeys(g, cs[i]);
        assert keys == before + KeysBelow(g, cs[i]);
      }
      assert cs[..|cs|] == cs;
    }

    /** pruneState: nothing is removed unless a whole manifest is being applied. */
    method PruneState(g: Plans.Graph, root: Plans.Name, planDir: string, planFile: string, manifestDir: Result<string>) returns (failed: bool)
      requires Plans.Acyclic(g) && root in g
      modifies this
      ensures failed <==> manifestDir.Err?
      ensures files == if WholeManifest(planDir, planFile, manifestDir) then Pruned(old(files), KeysBelow(g, root)) else old(files)
      ensures manifestDir != Ok(planDir) || (planFile != "" && planFile != "polyester.sh") ==> files == old(files)
      ensures manifestDir == Ok(planDir) && (planFile == "" || planFile == "polyester.sh") ==>
                forall k :: k in files <==> k in old(files) && (k == "checksum" || Used(g, root, k))
      ensures forall k :: k in files ==> k in old(files) && files[k] == old(files)[k]
    {
      PrunedExactly(g, root, files);
      if manifestDir.Err? { return true; }
      if manifestDir.value != planDir || (planFile != "polyester.sh" && planFile != "") { return false; }
      keys := {};
      GatherOpKeys(g, root);
      var todo := files.Keys;
      while todo != {}
        invariant todo <= files.Keys && keys == KeysBelow(g, root)
        invariant files.Keys == todo + (set k | k in old(files) && k !in todo && Kept(keys, k))
        invariant forall k :: k in files ==> k in old(files) && files[k] == old(files)[k]
      {
        var name :| name in todo;
        todo := todo - {name};
        if !Kept(keys, name) {
          files := files - {name};
        }
      }
      return false;
    }
  }

  /** The plan's directory is that of the manifest, and no other script than the manifest's was asked for. */
  predicate WholeManifest(planDir: string, planFile: string, manifestDir: Result<string>) {
    manifestDir == Ok(planDir) && (planFile == "" || planFile == "polyester.sh")
  }

  /** Plans have a key for each operation; an empty key stands for none. */
  function OpKeys(ops: seq<Plans.Operation>): set<string> {
    set op | op in ops && op.key != "" :: op.key
  }

  ghost function KeysBelow(g: Plans.Graph, p: Plans.Name): set<string>
    requires Plans.Acyclic(g) && p in g
  {
    set q, k | q in Plans.Reachable(g, p) && q in g && k in OpKeys(g[q].operations) :: k
  }

  ghost function KeysBelowAll(g: Plans.Graph, p: Plans.Name, cs: seq<Plans.Name>): set<string>
    requires Plans.Acyclic(g) && p in g
  {
    set c, k | c in cs && c in Plans.Children(g[p]) && k in KeysBelow(g, c) :: k
  }

  lemma NextChild(g: Plans.Graph, p: Plans.Name, cs: seq<Plans.Name>, i: nat)
    requires Plans.Acyclic(g) && p in g && i < |cs| && forall c :: c in cs ==> c in Plans.Children(g[p])
    ensures cs[i] in g && Plans.RankOf(g)(cs[i]) < Plans.RankOf(g)(p)
    ensures KeysBelowAll(g, p, cs[..i + 1]) == KeysBelowAll(g, p, cs[..i]) + KeysBelow(g, cs[i])
  {
    assert cs[..i + 1] == cs[..i] + [cs[i]];
    assert cs[i] in cs;
  }

  lemma KeysSplit(g: Plans.Graph, p: Plans.Name)
    requires Plans.Acyclic(g) && p in g
    ensures KeysBelow(g, p) ==
              OpKeys(g[p].operations) + KeysBelowAll(g, p, g[p].dependencies) + KeysBelowAll(g, p, g[p].plans)
  {
    Plans.ReachableIsClosed(g, p);
    var parts := OpKeys(g[p].operations) + KeysBelowAll(g, p, g[p].dependencies) + KeysBelowAll(g, p, g[p].plans);
    forall k | k in KeysBelow(g, p) ensures k in parts {
      var q :| q in Plans.Reachable(g, p) && q in g && k in OpKeys(g[q].operations);
      if q != p {
        var c :| c in Plans.Children(g[p]) && q in Plans.Reachable(g, c);
        assert k in KeysBelow(g, c);
      }
    }
    forall c, k | c in Plans.Children(g[p]) && k in KeysBelow(g, c) ensures k in KeysBelow(g, p) {
      var q :| q in Plans.Reachable(g, c) && q in g && k in OpKeys(g[q].operations);
      assert q in Plans.Reachable(g, p);
    }
  }

  /** Some operation of a plan below `p`, or of `p`, is stored under the key. */
  ghost predicate Used(g: Plans.Graph, p: Plans.Name, k: string)
    requires Plans.Acyclic(g) && p in g
  {
    k != "" && exists q, op :: q in Plans.Reachable(g, p) && q in g && op in g[q].operations && op.key == k
  }

  /** What is left is the checksum of the manifest and the states that reachable operations use. */
  lemma PrunedExactly(g: Plans.Graph, root: Plans.Name, files: Store)
    requires Plans.Acyclic(g) && root in g
    ensures forall k :: k in Pruned(files, KeysBelow(g, root)) <==> k in files && (k == "checksum" || Used(g, root, k))
  {
    forall k ensures k in KeysBelow(g, root) <==> Used(g, root, k) { KeyUsed(g, root, k); }
  }

  lemma KeyUsed(g: Plans.Graph, p: Plans.Name, k: string)
    requires Plans.Acyclic(g) && p in g
    ensures k in KeysBelow(g, p) <==> Used(g, p, k)
  {
    if k in KeysBelow(g, p) {
      var q :| q in Plans.Reachable(g, p) && q in g && k in OpKeys(g[q].operations);
      var op :| op in g[q].operations && op.key != "" && op.key == k;
    }
    if Used(g, p, k) {
      var q, op :| q in Plans.Reachable(g, p) && q in g && op in g[q].operations && op.key == k;
      assert k in OpKeys(g[q].operations);
    }
  }

  /** The file named checksum is not a stored state. */
  predicate Kept(keys: set<string>, name: string) {
    name == "checksum" || name in keys
  }

  function Pruned(files: Store, keys: set<string>): Store {
    map k | k in files && Kept(keys, k) :: files[k]
  }

  // ---- Pruning does not change what the next apply does ----------------------------------------

  ghost predicate UsesKeys(ops: seq<Operator>, keys: set<string>) {
    forall i :: 0 <= i < |ops| && !IsPlanOp(ops[i]) ==> ops[i].key in keys
  }

  /** The same run over the pruned store. */
  ghost predicate SameRun(keys: set<string>, a: Outcome, b: Outcome) {
    && a.ok == b.ok && a.results == b.results && a.dirty == b.dirty && a.host.env == b.host.env
    && b.host.store == Pruned(a.host.store, keys)
  }

  lemma PrunedRead(store: Store, keys: set<string>, key: string)
    requires key in keys
    ensures Read(Pruned(store, keys), key) == Read(store, key)
  {
  }

  lemma PrunedSave(store: Store, keys: set<string>, key: string, st: State)
    requires key in keys
    ensures Save(Pruned(store, keys), key, st) == Pruned(Save(store, key, st), keys)
  {
    var a, b := Save(Pruned(store, keys), key, st), Pruned(Save(store, key, st), keys);
    assert a.Keys == b.Keys;
    assert forall k :: k in a ==> a[k] == b[k];
  }

  lemma {:induction false} PrunedReads(ops: seq<Operator>, host: Host, keys: set<string>)
    requires UsesKeys(ops, keys)
    ensures ReadAll(ops, Host(host.env, Pruned(host.store, keys))) == ReadAll(ops, host)
  {
    if ops != [] {
      var m := |ops| - 1;
      PrunedReads(ops[..m], host, keys);
      if !IsPlanOp(ops[m]) { PrunedRead(host.store, keys, ops[m].key); }
    }
  }

  lemma PrunedStep(op: Operator, host: Host, dryrun: bool, wasDirty: bool, r: Reading, keys: set<string>)
    requires Carries(r.prev) && (IsPlanOp(op) || op.key in keys)
    ensures var a := ExecuteOp(op, host, dryrun, wasDirty, r);
            var b := ExecuteOp(op, Host(host.env, Pruned(host.store, keys)), dryrun, wasDirty, r);
            a.outcome == b.outcome && b.host == Host(a.host.env, Pruned(a.host.store, keys))
  {
    var final := op.getState(op.run(host.env).env);
    if op.key in keys && final.Ok? { PrunedSave(host.store, keys, op.key, final.value); }
  }

  lemma PrunedAdvance(op: Operator, a: Outcome, b: Outcome, dryrun: bool, r: Reading, keys: set<string>)
    requires SameRun(keys, a, b) && Carries(r.prev) && (IsPlanOp(op) || op.key in keys)
    ensures SameRun(keys, Advance(a, ExecuteOp(op, a.host, dryrun, a.dirty, r)), Advance(b, ExecuteOp(op, b.host, dryrun, b.dirty, r)))
  {
    PrunedStep(op, a.host, dryrun, a.dirty, r, keys);
    assert b.host == Host(a.host.env, Pruned(a.host.store, keys));
  }

  lemma {:induction false} PrunedOps(ops: seq<Operator>, rs: seq<Reading>, host: Host, dryrun: bool, keys: set<string>)
    requires UsesKeys(ops, keys) && |ops| == |rs| && CarriesReadings(rs)
    ensures SameRun(keys, RunOps(ops, rs, host, dryrun), RunOps(ops, rs, Host(host.env, Pruned(host.store, keys)), dryrun))
    decreases |ops|
  {
    if ops != [] {
      var m := |ops| - 1;
      PrunedOps(ops[..m], rs[..m], host, dryrun, keys);
      var a := RunOps(ops[..m], rs[..m], host, dryrun);
      var b := RunOps(ops[..m], rs[..m], Host(host.env, Pruned(host.store, keys)), dryrun);
      PrunedAdvance(ops[m], a, b, dryrun, rs[m], keys);
    }
  }

  /** After pruning for a root, the next apply of any plan below it decides, runs and reports exactly
      what it would have, and stores the same states under the keys that are kept. */
  lemma PruningKeepsDecisions(g: Plans.Graph, root: Plans.Name, p: Plans.Name, ops: seq<Operator>, host: Host, dryrun: bool)
    requires Plans.Acyclic(g) && root in g && p in Plans.Reachable(g, root) && CarriesAll(host.store)
    requires p in g && |ops| == |g[p].operations|
    requires forall i :: 0 <= i < |ops| ==> ops[i].key != "" && ops[i].key == g[p].operations[i].key
    ensures CarriesAll(Pruned(host.store, KeysBelow(g, root)))
    ensures SameRun(KeysBelow(g, root), PlanOutcome(ops, host, dryrun),
                    PlanOutcome(ops, Host(host.env, Pruned(host.store, KeysBelow(g, root))), dryrun))
  {
    var keys := KeysBelow(g, root);
    forall i | 0 <= i < |ops| ensures ops[i].key in keys {
      assert g[p].operations[i] in g[p].operations;
      assert ops[i].key in OpKeys(g[p].operations);
    }
    PrunedReads(ops, host, keys);
    if ReadAll(ops, host).Ok? {
      ReadAllCarries(ops, host);
      PrunedOps(ops, ReadAll(ops, host).value, host, dryrun, keys);
    }
  }
}
