/** Linking the plans that were read into one graph (resolveOnePlan and readPlan in compiler/plan.go). */
module Linking {
  import opened Base
  import opened Plans
  import Resolve

  const ROOT_SCRIPT := "polyester.sh"
  const MAIN := "main"

  /** An operation as read: `args` are the plans that a "plan" or a "dependency" operation names. */
  datatype ReadOp = ReadOp(op: Operation, args: seq<Name>)

  /** The pointers that a plan is given; None is a nil pointer. */
  datatype Linked = Linked(operations: seq<Operation>, plans: seq<Option<Name>>, dependencies: seq<Option<Name>>)

  function Lookup(all: set<Name>, n: Name): Option<Name> {
    if n in all then Some(n) else None
  }

  function Lookups(all: set<Name>, names: seq<Name>): seq<Option<Name>> {
    seq(|names|, i requires 0 <= i < |names| => Lookup(all, names[i]))
  }

  /** What the operations of one kind refer to, in order. */
  function Refs(ops: seq<ReadOp>, kind: string, all: set<Name>): seq<Option<Name>> {
    if ops == [] then []
    else
      var n := |ops| - 1;
      Refs(ops[..n], kind, all) + if ops[n].op.name == kind then Lookups(all, ops[n].args) else []
  }

  /** A plan is named by an operation of the given kind. */
  ghost predicate Mentions(ops: seq<ReadOp>, kind: string, n: Name) {
    exists i :: 0 <= i < |ops| && ops[i].op.name == kind && n in ops[i].args
  }

  lemma LookupsExactly(all: set<Name>, names: seq<Name>)
    ensures forall n :: Some(n) in Lookups(all, names) <==> n in all && n in names
    ensures None in Lookups(all, names) <==> exists n :: n in names && n !in all
  {
    var refs := Lookups(all, names);
    forall n | n in names ensures Lookup(all, n) in refs {
      var i :| 0 <= i < |names| && names[i] == n;
      assert refs[i] == Lookup(all, n);
    }
    forall r | r in refs ensures exists n :: n in names && r == Lookup(all, n) {
      var i :| 0 <= i < |refs| && refs[i] == r;
      assert names[i] in names;
    }
  }

  /** The pointers are exactly the named plans that exist, and nil for the others. */
  lemma {:induction false} RefsExactly(ops: seq<ReadOp>, kind: string, all: set<Name>)
    ensures forall n :: Some(n) in Refs(ops, kind, all) <==> n in all && Mentions(ops, kind, n)
    ensures None in Refs(ops, kind, all) <==> exists n :: n !in all && Mentions(ops, kind, n)
  {
    if ops != [] {
      var k := |ops| - 1;
      RefsExactly(ops[..k], kind, all);
      LookupsExactly(all, ops[k].args);
      forall n ensures Mentions(ops, kind, n) <==> Mentions(ops[..k], kind, n) || (ops[k].op.name == kind && n in ops[k].args) {
        MentionsLast(ops, kind, n);
      }
    }
  }

  lemma MentionsLast(ops: seq<ReadOp>, kind: string, n: Name)
    requires ops != []
    ensures Mentions(ops, kind, n) <==>
            Mentions(ops[..|ops| - 1], kind, n) || (ops[|ops| - 1].op.name == kind && n in ops[|ops| - 1].args)
  {
    var k := |ops| - 1;
    if Mentions(ops[..k], kind, n) {
      var i :| 0 <= i < k && ops[..k][i].op.name == kind && n in ops[..k][i].args;
      assert ops[i] == ops[..k][i];
    }
    if Mentions(ops, kind, n) {
      var i :| 0 <= i < |ops| && ops[i].op.name == kind && n in ops[i].args;
      if i < k { assert ops[..k][i] == ops[i]; }
    }
  }

  lemma {:induction false} RefsJoin(xs: seq<ReadOp>, ys: seq<ReadOp>, kind: string, all: set<Name>)
    ensures Refs(xs + ys, kind, all) == Refs(xs, kind, all) + Refs(ys, kind, all)
    decreases |ys|
  {
    if ys == [] {
      assert xs + ys == xs;
    } else {
      var n := |ys| - 1;
      assert (xs + ys)[..|xs + ys| - 1] == xs + ys[..n];
      RefsJoin(xs, ys[..n], kind, all);
    }
  }

  /** The pointers for an operation's arguments stand where the operation stands, in the order of the
      arguments, one each. */
  lemma RefsInOrder(xs: seq<ReadOp>, op: ReadOp, ys: seq<ReadOp>, kind: string, all: set<Name>) returns (own: seq<Option<Name>>)
    ensures Refs(xs + [op] + ys, kind, all) == Refs(xs, kind, all) + own + Refs(ys, kind, all)
    ensures Refs([], kind, all) == [] && |own| == if op.op.name == kind then |op.args| else 0
    ensures forall i :: 0 <= i < |own| ==> own[i] == if op.args[i] in all then Some(op.args[i]) else None
  {
    own := if op.op.name == kind then Lookups(all, op.args) else [];
    RefsOne(op, kind, all);
    RefsJoin(xs, [op], kind, all);
    RefsJoin(xs + [op], ys, kind, all);
  }

  lemma RefsOne(op: ReadOp, kind: string, all: set<Name>)
    ensures Refs([op], kind, all) == if op.op.name == kind then Lookups(all, op.args) else []
  {
    assert [op][..0] == [];
    assert Refs([op][..0], kind, all) == [];
  }

  function OpsOf(ops: seq<ReadOp>): seq<Operation> {
    seq(|ops|, i requires 0 <= i < |ops| => ops[i].op)
  }

  function Link(ops: seq<ReadOp>, all: set<Name>): Linked {
    Linked(OpsOf(ops), Refs(ops, "plan", all), Refs(ops, "dependency", all))
  }

  /** resolveOnePlan. */
  method ResolveOnePlan(ops: seq<ReadOp>, all: set<Name>) returns (linked: Linked)
    ensures linked == Link(ops, all)
    ensures |linked.operations| == |ops| && forall i :: 0 <= i < |ops| ==> linked.operations[i] == ops[i].op
  {
    var deps: seq<Option<Name>>, plans: seq<Option<Name>> := [], [];
    for i := 0 to |ops|
      invariant plans == Refs(ops[..i], "plan", all) && deps == Refs(ops[..i], "dependency", all)
    {
      assert ops[..i + 1][..i] == ops[..i];
      var args := ops[i].args;
      if ops[i].op.name == "plan" {
        for j := 0 to |args|
          invariant plans == Refs(ops[..i], "plan", all) + Lookups(all, args[..j])
        {
          LookupsNext(all, args, j);
          plans := plans + [Lookup(all, args[j])];
        }
        assert args[..|args|] == args;
      } else if ops[i].op.name == "dependency" {
        for j := 0 to |args|
          invariant deps == Refs(ops[..i], "dependency", all) + Lookups(all, args[..j])
        {
          LookupsNext(all, args, j);
          deps := deps + [Lookup(all, args[j])];
        }
        assert args[..|args|] == args;
      }
    }
    assert ops[..|ops|] == ops;
    return Linked(OpsOf(ops), plans, deps);
  }

  lemma LookupsNext(all: set<Name>, names: seq<Name>, j: nat)
    requires j < |names|
    ensures Lookups(all, names[..j + 1]) == Lookups(all, names[..j]) + [Lookup(all, names[j])]
  {
  }

  /** The operations that were read, each in its place. */
  ghost predicate SameOps(operations: seq<Operation>, ops: seq<ReadOp>) {
    |operations| == |ops| && forall i :: 0 <= i < |ops| ==> operations[i] == ops[i].op
  }

  /** readPlan: every plan is linked, whatever the order of the map; the plan of the root script is
      copied under the name "main". Without a root script a nil pointer is dereferenced. */
  method ReadPlan(compiled: map<Name, seq<ReadOp>>) returns (all: map<Name, Linked>, main: Option<Linked>, panics: bool)
    ensures all.Keys == compiled.Keys && forall n :: n in compiled ==> all[n] == Link(compiled[n], compiled.Keys)
    ensures panics <==> ROOT_SCRIPT !in compiled
    ensures !panics ==> main == Some(Link(compiled[ROOT_SCRIPT], compiled.Keys))
    ensures forall n :: n in compiled ==> SameOps(all[n].operations, compiled[n])
    ensures !panics ==> SameOps(main.value.operations, compiled["polyester.sh"])
  {
    all := map[];
    var rest := compiled.Keys;
    while rest != {}
      invariant rest <= compiled.Keys && all.Keys == compiled.Keys - rest
      invariant forall n :: n in all ==> all[n] == Link(compiled[n], compiled.Keys) && SameOps(all[n].operations, compiled[n])
      decreases |rest|
    {
      var n :| n in rest;
      var linked := ResolveOnePlan(compiled[n], compiled.Keys);
      all := all[n := linked];
      rest := rest - {n};
    }
    if ROOT_SCRIPT !in all { return all, None, true; }
    return all, Some(all[ROOT_SCRIPT]), false;
  }

  // ---- The graph -------------------------------------------------------------------------------

  ghost predicate NoNil(refs: seq<Option<Name>>) {
    None !in refs
  }

  ghost predicate Whole(l: Linked) {
    NoNil(l.plans) && NoNil(l.dependencies)
  }

  function Names(refs: seq<Option<Name>>): seq<Name> {
    seq(|refs|, i requires 0 <= i < |refs| => if refs[i].Some? then refs[i].value else "")
  }

  function PlanOf(l: Linked): Plan {
    Plan(l.operations, Names(l.plans), Names(l.dependencies))
  }

  /** Every plan under its name, and the copy of the root script's plan. */
  ghost function GraphOf(compiled: map<Name, seq<ReadOp>>): Graph
    requires ROOT_SCRIPT in compiled
  {
    var all := map n | n in compiled :: PlanOf(Link(compiled[n], compiled.Keys));
    all[MAIN := all[ROOT_SCRIPT]]
  }

  lemma NamesExactly(refs: seq<Option<Name>>)
    requires NoNil(refs)
    ensures forall n :: n in Names(refs) <==> Some(n) in refs
    ensures |Names(refs)| == |refs| && forall i :: 0 <= i < |refs| ==> refs[i] == Some(Names(refs)[i])
  {
    forall i | 0 <= i < |refs| ensures refs[i].Some? { assert refs[i] in refs; }
    forall n | Some(n) in refs ensures n in Names(refs) {
      var i :| 0 <= i < |refs| && refs[i] == Some(n);
      assert Names(refs)[i] == n;
    }
    forall n | n in Names(refs) ensures Some(n) in refs {
      var i :| 0 <= i < |refs| && Names(refs)[i] == n;
      assert refs[i] in refs;
    }
  }

  /** Reading never reports a plan that does not exist: a nil pointer is left in its place, exactly
      when some operation names such a plan. */
  lemma NilExactly(ops: seq<ReadOp>, all: set<Name>)
    ensures !Whole(Link(ops, all)) <==> exists n :: n !in all && (Mentions(ops, "plan", n) || Mentions(ops, "dependency", n))
  {
    RefsExactly(ops, "plan", all);
    RefsExactly(ops, "dependency", all);
  }

  /** The edges of the graph are exactly what the operations say. */
  lemma EdgesExactly(compiled: map<Name, seq<ReadOp>>, p: Name, n: Name)
    requires ROOT_SCRIPT in compiled && MAIN !in compiled && p in compiled && Whole(Link(compiled[p], compiled.Keys))
    ensures n in GraphOf(compiled)[p].dependencies <==> Mentions(compiled[p], "dependency", n)
    ensures n in GraphOf(compiled)[p].plans <==> Mentions(compiled[p], "plan", n)
    ensures n in Children(GraphOf(compiled)[p]) ==> n in compiled
    ensures SameOps(GraphOf(compiled)[p].operations, compiled[p])
    ensures GraphOf(compiled)["main"] == GraphOf(compiled)["polyester.sh"] && GraphOf(compiled).Keys == compiled.Keys + {"main"}
  {
    var l := Link(compiled[p], compiled.Keys);
    NilExactly(compiled[p], compiled.Keys);
    RefsExactly(compiled[p], "plan", compiled.Keys);
    RefsExactly(compiled[p], "dependency", compiled.Keys);
    NamesExactly(l.plans);
    NamesExactly(l.dependencies);
  }

  /** In a graph that was read nothing depends on "main", so that sortPlans may move it to the end. */
  lemma NothingNeedsMain(compiled: map<Name, seq<ReadOp>>)
    requires ROOT_SCRIPT in compiled && MAIN !in compiled
    requires forall p :: p in compiled ==> Whole(Link(compiled[p], compiled.Keys))
    ensures forall p :: p in GraphOf(compiled) ==> MAIN !in Children(GraphOf(compiled)[p])
    ensures forall p, c :: p in GraphOf(compiled) && c in Children(GraphOf(compiled)[p]) ==> c in GraphOf(compiled)
  {
    var g := GraphOf(compiled);
    assert g[MAIN] == g[ROOT_SCRIPT];
    forall p, c | p in g && c in Children(g[p]) ensures c in compiled {
      EdgesExactly(compiled, if p == MAIN then ROOT_SCRIPT else p, c);
    }
  }

  /** Reading and ordering together: for a manifest without cycles and without missing plans the order
      lists every plan below the root once, dependencies first. */
  method Ordered(compiled: map<Name, seq<ReadOp>>) returns (order: seq<Name>)
    requires ROOT_SCRIPT in compiled && MAIN !in compiled && Acyclic(GraphOf(compiled))
    requires forall p :: p in compiled ==> Whole(Link(compiled[p], compiled.Keys))
    ensures Resolve.Distinct(order) && Resolve.Names(order) == Reachable(GraphOf(compiled), MAIN)
    ensures DepsBefore(GraphOf(compiled), order)
  {
    var all, main, _ := ReadPlan(compiled);
    var g := (map n | n in all :: PlanOf(all[n]))[MAIN := PlanOf(main.value)];
    assert g == GraphOf(compiled);
    NothingNeedsMain(compiled);
    ReachableIsClosed(g, MAIN);
    var r, _ := Resolve.All(g, MAIN);
    order := r.plans;
  }
}
