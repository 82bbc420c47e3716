/** Compiled plans (compiler/plan.go): what a plan runs, which plans it contains, which it depends on.

    The program links plans by pointer. Here a plan is identified by its name and looked up in a
    graph, which is the same thing because plan names are unique. */
module Plans {

  type Name = string

  /** One operation of a plan: the operator's name and the key its state is stored under. */
  datatype Operation = Operation(name: string, key: string)

  datatype Plan = Plan(operations: seq<Operation>, plans: seq<Name>, dependencies: seq<Name>)

  type Graph = map<Name, Plan>

  /** "plan" and "dependency" only shape the graph; every other operation acts on the host. */
  predicate IsPlanOp(op: Operation) {
    op.name == "plan" || op.name == "dependency"
  }

  predicate HasRealOps(p: Plan) {
    exists op :: op in p.operations && !IsPlanOp(op)
  }

  /** Plan.RealOps keeps exactly the acting operations, in order. */
  method RealOps(p: Plan) returns (res: seq<Operation>)
    ensures res == Acting(p.operations)
    ensures |res| > 0 <==> HasRealOps(p)
    ensures forall op :: op in res <==> op in p.operations && op.name != "plan" && op.name != "dependency"
  {
    res := [];
    var i := 0;
    while i < |p.operations|
      invariant 0 <= i <= |p.operations|
      invariant res == Acting(p.operations[..i])
      invariant |res| > 0 <==> exists k :: 0 <= k < i && !IsPlanOp(p.operations[k])
    {
      assert p.operations[..i + 1][..i] == p.operations[..i];
      if !IsPlanOp(p.operations[i]) {
        res := res + [p.operations[i]];
      }
      i := i + 1;
    }
    assert p.operations[..i] == p.operations;
    ActingIn(p.operations);
  }

  function Acting(ops: seq<Operation>): seq<Operation> {
    if ops == [] then []
    else
      var init := Acting(ops[..|ops| - 1]);
      var last := ops[|ops| - 1];
      if IsPlanOp(last) then init else init + [last]
  }

  lemma {:induction false} ActingIn(ops: seq<Operation>)
    ensures forall op :: op in Acting(ops) <==> op in ops && op.name != "plan" && op.name != "dependency"
  {
    if ops != [] {
      ActingIn(ops[..|ops| - 1]);
      assert ops == ops[..|ops| - 1] + [ops[|ops| - 1]];
    }
  }

  lemma {:induction false} ActingJoin(xs: seq<Operation>, ys: seq<Operation>)
    ensures Acting(xs + ys) == Acting(xs) + Acting(ys)
    decreases |ys|
  {
    if ys == [] {
      assert xs + ys == xs;
    } else {
      var n := |ys| - 1;
      assert (xs + ys)[..|xs + ys| - 1] == xs + ys[..n];
      ActingJoin(xs, ys[..n]);
    }
  }

  /** An acting operation stays where it stands among the acting ones, and the others leave no trace. */
  lemma ActingExactly(xs: seq<Operation>, op: Operation, ys: seq<Operation>)
    ensures Acting(xs + [op] + ys)
         == Acting(xs) + (if op.name == "plan" || op.name == "dependency" then [] else [op]) + Acting(ys)
    ensures Acting([]) == []
  {
    ActingJoin(xs + [op], ys);
    ActingJoin(xs, [op]);
    assert [op][..0] == [];
  }

  /** The plans a walk enters from `p`, in the order the program enters them. */
  function Children(p: Plan): seq<Name> {
    p.dependencies + p.plans
  }

  /** Every plan named exists, and `rank` falls along every edge. */
  ghost predicate Ranked(g: Graph, rank: Name -> nat) {
    forall p, c :: p in g && c in Children(g[p]) ==> c in g && rank(c) < rank(p)
  }

  ghost predicate Acyclic(g: Graph) {
    exists rank: Name -> nat :: Ranked(g, rank)
  }

  ghost function RankOf(g: Graph): (rank: Name -> nat)
    requires Acyclic(g)
    ensures Ranked(g, rank)
  {
    var rank: Name -> nat :| Ranked(g, rank);
    rank
  }

  /** `p` and everything it contains or depends on, directly or not. */
  ghost function Reachable(g: Graph, p: Name): set<Name>
    requires Acyclic(g) && p in g
    decreases RankOf(g)(p)
  {
    {p} + set c, q | c in Children(g[p]) && q in Reachable(g, c) :: q
  }

  /** The plans that must have succeeded before `p` may start. */
  ghost function Needs(g: Graph, p: Name): set<Name>
    requires Acyclic(g) && p in g
    decreases RankOf(g)(p)
  {
    (set d | d in g[p].dependencies) +
    set d, q | d in g[p].dependencies && d in Children(g[p]) && q in Needs(g, d) :: q
  }

  ghost predicate Closed(g: Graph, s: set<Name>) {
    forall p, c :: p in s && p in g && c in Children(g[p]) ==> c in s
  }

  /** Reachable is the least set that holds `p` and is closed under both kinds of edge. */
  lemma {:induction false} ReachableIsLeast(g: Graph, p: Name, s: set<Name>)
    requires Acyclic(g) && p in g && p in s && Closed(g, s)
    ensures Reachable(g, p) <= s
    decreases RankOf(g)(p)
  {
    forall c | c in Children(g[p]) ensures Reachable(g, c) <= s {
      ReachableIsLeast(g, c, s);
    }
  }

  lemma {:induction false} ReachableIsClosed(g: Graph, p: Name)
    requires Acyclic(g) && p in g
    ensures p in Reachable(g, p) && Reachable(g, p) <= g.Keys && Closed(g, Reachable(g, p))
    decreases RankOf(g)(p)
  {
    forall x, y | x in Reachable(g, p) && x in g && y in Children(g[x]) ensures y in Reachable(g, p) {
      if x == p {
        ReachableIsClosed(g, y);
        assert y in Children(g[p]) && y in Reachable(g, y);
      } else {
        var c :| c in Children(g[p]) && x in Reachable(g, c);
        ReachableIsClosed(g, c);
        assert c in Children(g[p]) && y in Reachable(g, c);
      }
    }
    forall x | x in Reachable(g, p) ensures x in g {
      if x != p {
        var c :| c in Children(g[p]) && x in Reachable(g, c);
        ReachableIsClosed(g, c);
      }
    }
  }

  lemma {:induction false} ReachableTransitive(g: Graph, p: Name, q: Name)
    requires Acyclic(g) && p in g && q in Reachable(g, p)
    ensures q in g && Reachable(g, q) <= Reachable(g, p)
  {
    ReachableIsClosed(g, p);
    ReachableIsLeast(g, q, Reachable(g, p));
  }

  lemma {:induction false} NeedsReachable(g: Graph, p: Name)
    requires Acyclic(g) && p in g
    ensures Needs(g, p) <= Reachable(g, p)
    decreases RankOf(g)(p)
  {
    forall d | d in g[p].dependencies ensures d in Reachable(g, p) && Needs(g, d) <= Reachable(g, p) {
      assert d in Children(g[p]);
      NeedsReachable(g, d);
      ReachableIsClosed(g, p);
      ReachableTransitive(g, p, d);
    }
  }

  /** What is needed by something needed is needed. */
  lemma {:induction false} NeedsTransitive(g: Graph, p: Name, q: Name)
    requires Acyclic(g) && p in g && q in Needs(g, p)
    ensures q in g && RankOf(g)(q) < RankOf(g)(p) && Needs(g, q) <= Needs(g, p)
    decreases RankOf(g)(p)
  {
    var d :| d in g[p].dependencies && d in Children(g[p]) && (q == d || q in Needs(g, d));
    if q != d { NeedsTransitive(g, d, q); }
  }

  /** The order the executor and the resolver must both respect: no plan before one it depends on. */
  ghost predicate DepsBefore(g: Graph, order: seq<Name>) {
    forall i, d :: 0 <= i < |order| && order[i] in g && d in g[order[i]].dependencies ==> d in order[..i]
  }

  /** What DepsBefore asks of direct dependencies it gives for all of them. */
  lemma {:induction false} NeedsBefore(g: Graph, order: seq<Name>, i: nat, q: Name)
    requires Acyclic(g) && DepsBefore(g, order)
    requires i < |order| && order[i] in g && q in Needs(g, order[i])
    ensures q in order[..i]
    decreases RankOf(g)(order[i])
  {
    var p := order[i];
    var d :| d in g[p].dependencies && d in Children(g[p]) && (q == d || q in Needs(g, d));
    var j :| 0 <= j < i && order[j] == d;
    if q != d {
      NeedsBefore(g, order, j, q);
      assert order[..j] <= order[..i];
    }
  }
}
