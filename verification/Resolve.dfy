/** Dependency resolution (compiler/resolve.go and Plan.All in compiler/plan.go). */
module Resolve {
  import opened Base
  import opened Plans

  // ---- allPlans --------------------------------------------------------------------------------

  /** What allPlans returns: the seen set and the plans it appended. */
  ghost function Visit(g: Graph, p: Name, seen: set<Name>): (set<Name>, seq<Name>)
    requires Acyclic(g) && p in g
    decreases RankOf(g)(p), 1, 0
  {
    var (seen', plans) := VisitAll(g, p, Children(g[p]), seen);
    if p in seen' then (seen', plans) else (seen' + {p}, plans + [p])
  }

  ghost function VisitAll(g: Graph, p: Name, cs: seq<Name>, seen: set<Name>): (set<Name>, seq<Name>)
    requires Acyclic(g) && p in g && forall c :: c in cs ==> c in Children(g[p])
    decreases RankOf(g)(p), 0, |cs|
  {
    if cs == [] then (seen, [])
    else
      var init, last := cs[..|cs| - 1], cs[|cs| - 1];
      var (seen1, plans1) := VisitAll(g, p, init, seen);
      assert last in Children(g[p]);
      var (seen2, plans2) := Visit(g, last, seen1);
      (seen2, plans1 + plans2)
  }

  lemma VisitNext(g: Graph, p: Name, cs: seq<Name>, i: nat, seen: set<Name>)
    requires Acyclic(g) && p in g && (forall c :: c in cs ==> c in Children(g[p])) && i < |cs|
    ensures cs[i] in cs && cs[i] in g && RankOf(g)(cs[i]) < RankOf(g)(p)
    ensures var (seen1, plans1) := VisitAll(g, p, cs[..i], seen);
            var (seen2, plans2) := Visit(g, cs[i], seen1);
            VisitAll(g, p, cs[..i + 1], seen) == (seen2, plans1 + plans2)
  {
    var longer := cs[..i + 1];
    assert longer[..|longer| - 1] == cs[..i] && longer[|longer| - 1] == cs[i];
    assert cs[i] in Children(g[p]);
  }

  /** The walk below the first `i` dependencies and plans of `p`. */
  ghost function VisitFirst(g: Graph, p: Name, i: nat, seen: set<Name>): (set<Name>, seq<Name>)
    requires Acyclic(g) && p in g && i <= |Children(g[p])|
  {
    VisitAll(g, p, Children(g[p])[..i], seen)
  }

  lemma VisitFirstNext(g: Graph, p: Name, i: nat, seen: set<Name>)
    requires Acyclic(g) && p in g && i < |Children(g[p])|
    ensures var c := Children(g[p])[i];
            c in g && RankOf(g)(c) < RankOf(g)(p)
            && var (seen1, plans1) := VisitFirst(g, p, i, seen);
               var (seen2, plans2) := Visit(g, c, seen1);
               VisitFirst(g, p, i + 1, seen) == (seen2, plans1 + plans2)
  {
    VisitNext(g, p, Children(g[p]), i, seen);
  }

  lemma VisitFirstAll(g: Graph, p: Name, seen: set<Name>)
    requires Acyclic(g) && p in g
    ensures VisitFirst(g, p, 0, seen) == (seen, [])
    ensures VisitFirst(g, p, |Children(g[p])|, seen) == VisitAll(g, p, Children(g[p]), seen)
  {
    assert Children(g[p])[..|Children(g[p])|] == Children(g[p]);
  }

  lemma SubAt(p: Plan, i: nat)
    requires i < |p.plans|
    ensures Children(p)[|p.dependencies| + i] == p.plans[i]
  {
  }

  method AllPlans(g: Graph, p: Name, seen: set<Name>) returns (seen': set<Name>, plans: seq<Name>)
    requires Acyclic(g) && p in g
    ensures (seen', plans) == Visit(g, p, seen)
    decreases RankOf(g)(p)
  {
    seen', plans := seen, [];
    var deps, subs := g[p].dependencies, g[p].plans;
    VisitFirstAll(g, p, seen);
    for i := 0 to |deps|
      invariant (seen', plans) == VisitFirst(g, p, i, seen)
    {
      VisitFirstNext(g, p, i, seen);
      var next;
      seen', next := AllPlans(g, deps[i], seen');
      plans := plans + next;
    }
    for i := 0 to |subs|
      invariant (seen', plans) == VisitFirst(g, p, |deps| + i, seen)
    {
      VisitFirstNext(g, p, |deps| + i, seen);
      SubAt(g[p], i);
      var next;
      seen', next := AllPlans(g, subs[i], seen');
      plans := plans + next;
    }
    if p !in seen' {
      plans := plans + [p];
      seen' := seen' + {p};
    }
  }

  /** One child after the other. */
  lemma VisitAllNext(g: Graph, p: Name, cs: seq<Name>, c: Name, seen: set<Name>)
    requires Acyclic(g) && p in g && (forall d :: d in cs ==> d in Children(g[p])) && c in Children(g[p])
    ensures c in g && VisitAll(g, p, [], seen) == (seen, [])
    ensures var (seen1, plans1) := VisitAll(g, p, cs, seen);
            var (seen2, plans2) := Visit(g, c, seen1);
            VisitAll(g, p, cs + [c], seen) == (seen2, plans1 + plans2)
  {
    assert (cs + [c])[..|cs|] == cs;
  }

  /** The two lists one after the other. */
  ghost predicate Joins(g: Graph, p: Name, a: seq<Name>, b: seq<Name>, seen: set<Name>)
    requires Acyclic(g) && p in g && (forall c :: c in a ==> c in Children(g[p])) && forall c :: c in b ==> c in Children(g[p])
  {
    var (seen1, plans1) := VisitAll(g, p, a, seen);
    var (seen2, plans2) := VisitAll(g, p, b, seen1);
    VisitAll(g, p, a + b, seen) == (seen2, plans1 + plans2)
  }

  lemma JoinsNext(g: Graph, p: Name, a: seq<Name>, b: seq<Name>, c: Name, seen: set<Name>)
    requires Acyclic(g) && p in g && (forall d :: d in a ==> d in Children(g[p])) && (forall d :: d in b ==> d in Children(g[p]))
    requires c in Children(g[p]) && Joins(g, p, a, b, seen)
    ensures Joins(g, p, a, b + [c], seen)
  {
    var (seen1, plans1) := VisitAll(g, p, a, seen);
    var (seen2, plans2) := VisitAll(g, p, b, seen1);
    VisitAllNext(g, p, b, c, seen1);
    VisitAllNext(g, p, a + b, c, seen);
    assert a + (b + [c]) == a + b + [c];
    Regroup(plans1, plans2, Visit(g, c, seen2).1);
  }

  lemma Regroup<T>(a: seq<T>, b: seq<T>, c: seq<T>)
    ensures a + (b + c) == a + b + c
  {
  }

  lemma {:induction false} VisitAllJoin(g: Graph, p: Name, a: seq<Name>, b: seq<Name>, seen: set<Name>)
    requires Acyclic(g) && p in g && (forall c :: c in a ==> c in Children(g[p])) && forall c :: c in b ==> c in Children(g[p])
    ensures Joins(g, p, a, b, seen)
    decreases |b|
  {
    if b == [] {
      assert a + b == a && VisitAll(g, p, a, seen).1 + [] == VisitAll(g, p, a, seen).1;
    } else {
      var n := |b| - 1;
      VisitAllJoin(g, p, a, b[..n], seen);
      JoinsNext(g, p, a, b[..n], b[n], seen);
      assert b == b[..n] + [b[n]];
    }
  }

  /** What the walk lists: first what the dependencies bring in, then what the plans bring in, then the
      plan itself, each only if it has not been listed before. */
  lemma VisitParts(g: Graph, p: Name, seen: set<Name>)
    requires Acyclic(g) && p in g
    ensures (forall d :: d in g[p].dependencies ==> d in Children(g[p])) && forall c :: c in g[p].plans ==> c in Children(g[p])
    ensures var (seen1, plans1) := VisitAll(g, p, g[p].dependencies, seen);
            var (seen2, plans2) := VisitAll(g, p, g[p].plans, seen1);
            Visit(g, p, seen) == if p in seen2 then (seen2, plans1 + plans2) else (seen2 + {p}, plans1 + plans2 + [p])
  {
    VisitAllJoin(g, p, g[p].dependencies, g[p].plans, seen);
    assert Children(g[p]) == g[p].dependencies + g[p].plans;
  }

  ghost predicate Distinct(xs: seq<Name>) {
    forall i, j :: 0 <= i < j < |xs| ==> xs[i] != xs[j]
  }

  function Names(xs: seq<Name>): set<Name> {
    set x | x in xs
  }

  /** Everything a plan contains or depends on is in `seen` or listed before it. */
  ghost predicate PostOrder(g: Graph, seen: set<Name>, xs: seq<Name>) {
    forall i, c :: 0 <= i < |xs| && xs[i] in g && c in Children(g[xs[i]]) ==> c in seen || c in xs[..i]
  }

  /** What a walk adds to an already closed `seen`: the rest of `all`, once each, in post-order. */
  ghost predicate Adds(g: Graph, seen: set<Name>, all: set<Name>, r: (set<Name>, seq<Name>)) {
    && r.0 == seen + all && Names(r.1) == all - seen && Distinct(r.1) && PostOrder(g, seen, r.1)
  }

  ghost function ReachableAll(g: Graph, p: Name, cs: seq<Name>): set<Name>
    requires Acyclic(g) && p in g && forall c :: c in cs ==> c in Children(g[p])
  {
    set c, q | c in cs && c in Children(g[p]) && q in Reachable(g, c) :: q
  }

  lemma AddsAppend(g: Graph, seen: set<Name>, a: set<Name>, b: set<Name>, r: (set<Name>, seq<Name>), s: (set<Name>, seq<Name>))
    requires Adds(g, seen, a, r) && Adds(g, r.0, b, s)
    ensures Adds(g, seen, a + b, (s.0, r.1 + s.1))
  {
    var xs := r.1 + s.1;
    assert Names(xs) == Names(r.1) + Names(s.1);
    forall i, j | 0 <= i < j < |xs| ensures xs[i] != xs[j] {
      if i < |r.1| && j >= |r.1| {
        assert xs[i] in Names(r.1) && xs[j] in Names(s.1);
      }
    }
    forall i, c | 0 <= i < |xs| && xs[i] in g && c in Children(g[xs[i]]) ensures c in seen || c in xs[..i] {
      if i < |r.1| {
        assert xs[..i] == r.1[..i];
      } else {
        assert xs[..i] == r.1 + s.1[..i - |r.1|];
        if c in r.0 && c !in seen { assert c in Names(r.1); }
      }
    }
  }

  lemma {:induction false} VisitAllAdds(g: Graph, p: Name, cs: seq<Name>, seen: set<Name>)
    requires Acyclic(g) && p in g && (forall c :: c in cs ==> c in Children(g[p])) && Closed(g, seen)
    ensures var r := VisitAll(g, p, cs, seen);
            Closed(g, r.0) && Adds(g, seen, ReachableAll(g, p, cs), r)
    decreases RankOf(g)(p), 0, |cs|
  {
    if cs != [] {
      var init, last := cs[..|cs| - 1], cs[|cs| - 1];
      assert last in Children(g[p]);
      VisitAllAdds(g, p, init, seen);
      var r := VisitAll(g, p, init, seen);
      VisitAdds(g, last, r.0);
      AddsAppend(g, seen, ReachableAll(g, p, init), Reachable(g, last), r, Visit(g, last, r.0));
      assert ReachableAll(g, p, cs) == ReachableAll(g, p, init) + Reachable(g, last) by {
        assert cs == init + [last];
      }
    }
  }

  /** allPlans lists exactly the reachable plans not yet seen, each once, after all it contains or
      depends on. */
  lemma {:induction false} VisitAdds(g: Graph, p: Name, seen: set<Name>)
    requires Acyclic(g) && p in g && Closed(g, seen)
    ensures Closed(g, Visit(g, p, seen).0) && Adds(g, seen, Reachable(g, p), Visit(g, p, seen))
    decreases RankOf(g)(p), 1, 0
  {
    var cs := Children(g[p]);
    VisitAllAdds(g, p, cs, seen);
    var r := VisitAll(g, p, cs, seen);
    var below := ReachableAll(g, p, cs);
    assert Reachable(g, p) == {p} + below;
    OnlyAbove(g, p);
    if p in r.0 {
      assert p in seen;
      assert seen + Reachable(g, p) == r.0 && Reachable(g, p) - seen == below - seen;
    } else {
      forall c | c in cs ensures c in r.0 {
        ReachableIsClosed(g, c);
        assert c in below;
      }
      LastAdds(g, p, r.0);
      AddsAppend(g, seen, below, {p}, r, (r.0 + {p}, [p]));
      assert below + {p} == Reachable(g, p);
    }
  }

  lemma LastAdds(g: Graph, p: Name, seen: set<Name>)
    requires p in g && p !in seen && forall c :: c in Children(g[p]) ==> c in seen
    ensures Adds(g, seen, {p}, (seen + {p}, [p]))
  {
  }

  /** A plan is not among what it contains or depends on. */
  lemma {:induction false} OnlyAbove(g: Graph, p: Name)
    requires Acyclic(g) && p in g
    ensures p !in ReachableAll(g, p, Children(g[p]))
  {
    forall c | c in Children(g[p]) ensures p !in Reachable(g, c) {
      RanksBelow(g, c);
    }
  }

  lemma {:induction false} RanksBelow(g: Graph, p: Name)
    requires Acyclic(g) && p in g
    ensures forall q :: q in Reachable(g, p) ==> RankOf(g)(q) <= RankOf(g)(p)
    decreases RankOf(g)(p)
  {
    forall q | q in Reachable(g, p) ensures RankOf(g)(q) <= RankOf(g)(p) {
      if q != p {
        var c :| c in Children(g[p]) && q in Reachable(g, c);
        RanksBelow(g, c);
      }
    }
  }

  // ---- sortPlans -------------------------------------------------------------------------------

  datatype Sorted = Ordered(plans: seq<Name>) | Circular(names: seq<Name>)

  function DepsOf(g: Graph, p: Name): set<Name> {
    if p in g then set d | d in g[p].dependencies else {}
  }

  /** `p` is still unresolved after `k` rounds: some chain of `k` dependencies starts at `p`, or one
      that leaves the list earlier. */
  ghost predicate Blocked(g: Graph, names: set<Name>, p: Name, k: nat)
    decreases k
  {
    p in names && (k == 0 || exists d :: d in DepsOf(g, p) && (d !in names || Blocked(g, names, d, k - 1)))
  }

  /** `p` is never resolved. */
  ghost predicate Stuck(g: Graph, names: set<Name>, p: Name) {
    forall k: nat :: Blocked(g, names, p, k)
  }

  ghost function BlockedSet(g: Graph, names: set<Name>, k: nat): set<Name> {
    set p | p in names && Blocked(g, names, p, k)
  }

  lemma {:induction false} BlockedEarlier(g: Graph, names: set<Name>, p: Name, j: nat, k: nat)
    requires Blocked(g, names, p, k) && j <= k
    ensures Blocked(g, names, p, j)
    decreases k
  {
    if 0 < j {
      var d :| d in DepsOf(g, p) && (d !in names || Blocked(g, names, d, k - 1));
      if d in names { BlockedEarlier(g, names, d, j - 1, k - 1); }
    }
  }

  /** The plans are listed once each, never one before another that is resolved in an earlier round. */
  ghost predicate ByRound(g: Graph, names: set<Name>, order: seq<Name>) {
    && Distinct(order)
    && forall i, j, k: nat :: 0 <= i < j < |order| && Blocked(g, names, order[i], k) ==> Blocked(g, names, order[j], k)
  }

  /** The `k`-th round resolves exactly the plans whose longest dependency chain has `k` steps. */
  ghost predicate Rounds(g: Graph, names: set<Name>, rounds: seq<set<Name>>) {
    forall k :: 0 <= k < |rounds| ==>
      rounds[k] != {} && rounds[k] == BlockedSet(g, names, k) - BlockedSet(g, names, k + 1)
  }

  function MainIndex(order: seq<Name>): nat {
    if order == [] || order[0] == "main" then 0 else 1 + MainIndex(order[1..])
  }

  /** The list with its first plan named main moved to the end. */
  function MainLast(order: seq<Name>): seq<Name> {
    var idx := MainIndex(order);
    if idx < |order| then order[..idx] + order[idx + 1..] + [order[idx]] else order
  }

  /** The dependency table a list of plans starts from, and what is left of it after `k` rounds. */
  ghost predicate Table(g: Graph, names: set<Name>, k: nat, deps: map<Name, set<Name>>) {
    && deps.Keys == BlockedSet(g, names, k)
    && forall p :: p in deps ==> deps[p] == set d | d in DepsOf(g, p) && (d !in names || Blocked(g, names, d, k))
  }

  method BuildTable(g: Graph, plans: seq<Name>) returns (deps: map<Name, set<Name>>)
    requires forall p :: p in plans ==> p in g
    ensures Table(g, Names(plans), 0, deps)
  {
    deps := map[];
    for i := 0 to |plans|
      invariant deps.Keys == Names(plans[..i])
      invariant forall p :: p in deps ==> deps[p] == DepsOf(g, p)
    {
      assert plans[..i + 1] == plans[..i] + [plans[i]];
      var depm := {};
      var ds := g[plans[i]].dependencies;
      for j := 0 to |ds|
        invariant depm == set d | d in ds[..j]
      {
        assert ds[..j + 1] == ds[..j] + [ds[j]];
        depm := depm + {ds[j]};
      }
      assert ds[..|ds|] == ds;
      deps := deps[plans[i] := depm];
    }
    assert plans[..|plans|] == plans;
  }

  method ReadyPlans(deps: map<Name, set<Name>>) returns (ready: set<Name>)
    ensures ready == set p | p in deps && deps[p] == {}
  {
    ready := {};
    var todo := deps.Keys;
    while todo != {}
      invariant todo <= deps.Keys
      invariant ready == set p | p in deps.Keys - todo && deps[p] == {}
    {
      var p :| p in todo;
      todo := todo - {p};
      if deps[p] == {} { ready := ready + {p}; }
    }
  }

  /** A range loop over a map's keys, in any order. */
  method Listed(keys: set<Name>) returns (xs: seq<Name>)
    ensures Distinct(xs) && Names(xs) == keys
  {
    xs := [];
    var todo := keys;
    while todo != {}
      invariant Distinct(xs) && todo <= keys && Names(xs) == keys - todo
    {
      var p :| p in todo;
      assert p !in Names(xs);
      assert Names(xs + [p]) == Names(xs) + {p};
      todo := todo - {p};
      xs := xs + [p];
    }
  }

  method WithoutReady(deps: map<Name, set<Name>>, ready: set<Name>) returns (rest: map<Name, set<Name>>)
    ensures rest.Keys == deps.Keys - ready
    ensures forall p :: p in rest ==> rest[p] == deps[p] - ready
  {
    rest := deps - ready;
    var todo := rest.Keys;
    while todo != {}
      invariant rest.Keys == deps.Keys - ready && todo <= rest.Keys
      invariant forall p :: p in rest ==> rest[p] == if p in todo then deps[p] else deps[p] - ready
    {
      var p :| p in todo;
      todo := todo - {p};
      var diffm := {};
      var left := rest[p];
      while left != {}
        invariant left <= deps[p] && diffm == (deps[p] - left) - ready
      {
        var d :| d in left;
        left := left - {d};
        if d !in ready { diffm := diffm + {d}; }
      }
      rest := rest[p := diffm];
    }
  }

  lemma StillBlocked(g: Graph, names: set<Name>, k: nat, deps: map<Name, set<Name>>, p: Name)
    requires Table(g, names, k, deps) && p in names
    ensures Blocked(g, names, p, k + 1) <==> p in deps && deps[p] != {}
  {
    if Blocked(g, names, p, k + 1) {
      BlockedEarlier(g, names, p, k, k + 1);
      var d :| d in DepsOf(g, p) && (d !in names || Blocked(g, names, d, k));
      assert d in deps[p];
    }
    if p in deps && deps[p] != {} {
      var d :| d in deps[p];
      assert d in DepsOf(g, p) && (d !in names || Blocked(g, names, d, k));
    }
  }

  lemma RoundStep(g: Graph, names: set<Name>, k: nat, deps: map<Name, set<Name>>, ready: set<Name>, rest: map<Name, set<Name>>)
    requires Table(g, names, k, deps) && ready == set p | p in deps && deps[p] == {}
    requires rest.Keys == deps.Keys - ready && forall p :: p in rest ==> rest[p] == deps[p] - ready
    ensures ready == BlockedSet(g, names, k) - BlockedSet(g, names, k + 1) && Table(g, names, k + 1, rest)
  {
    forall p | p in names ensures Blocked(g, names, p, k + 1) <==> p in deps && deps[p] != {} { StillBlocked(g, names, k, deps, p); }
    forall d | d in names && Blocked(g, names, d, k + 1) ensures Blocked(g, names, d, k) { BlockedEarlier(g, names, d, k, k + 1); }
  }

  lemma ByRoundAppend(g: Graph, names: set<Name>, k: nat, before: seq<Name>, ready: set<Name>, next: seq<Name>)
    requires ByRound(g, names, before) && Names(before) == names - BlockedSet(g, names, k)
    requires Distinct(next) && Names(next) == ready && ready == BlockedSet(g, names, k) - BlockedSet(g, names, k + 1)
    ensures ByRound(g, names, before + next) && Names(before + next) == names - BlockedSet(g, names, k + 1)
  {
    var xs := before + next;
    assert Names(xs) == Names(before) + Names(next);
    forall p | p in BlockedSet(g, names, k + 1) ensures p in BlockedSet(g, names, k) {
      BlockedEarlier(g, names, p, k, k + 1);
    }
    forall i, j, m: nat | 0 <= i < j < |xs| && Blocked(g, names, xs[i], m) ensures Blocked(g, names, xs[j], m) {
      if j >= |before| {
        assert xs[j] in Names(next);
        assert xs[i] in Names(xs);
        if m > k { BlockedEarlier(g, names, xs[i], k + 1, m); }
        BlockedEarlier(g, names, xs[j], m, k);
      }
    }
    forall i, j | 0 <= i < j < |xs| ensures xs[i] != xs[j] {
      if i < |before| && j >= |before| {
        assert xs[i] in Names(before) && xs[j] in Names(next);
      }
    }
  }

  /** Nothing ready in round `k` means nothing will ever be. */
  lemma {:induction false} NeverReady(g: Graph, names: set<Name>, k: nat, j: nat)
    requires BlockedSet(g, names, k) <= BlockedSet(g, names, k + 1)
    ensures BlockedSet(g, names, k) <= BlockedSet(g, names, j)
    decreases j
  {
    if j <= k {
      forall p | p in BlockedSet(g, names, k) { BlockedEarlier(g, names, p, j, k); }
    } else {
      NeverReady(g, names, k, j - 1);
      forall p | p in BlockedSet(g, names, k) ensures Blocked(g, names, p, j) {
        var d :| d in DepsOf(g, p) && (d !in names || Blocked(g, names, d, k));
        assert d in names ==> d in BlockedSet(g, names, k);
      }
    }
  }

  lemma ForeverBlocked(g: Graph, names: set<Name>, k: nat, p: Name)
    requires BlockedSet(g, names, k) <= BlockedSet(g, names, k + 1)
    ensures p in BlockedSet(g, names, k) <==> p in names && Stuck(g, names, p)
  {
    if p in BlockedSet(g, names, k) {
      forall j: nat ensures Blocked(g, names, p, j) {
        NeverReady(g, names, k, j);
        assert p in BlockedSet(g, names, j);
      }
    }
    if Stuck(g, names, p) && p in names {
      assert Blocked(g, names, p, k);
    }
  }

  /** What sortPlans may return for a list of plans. `rounds` are the ready sets, in order; within a
      round any order is possible. */
  ghost predicate SortResult(g: Graph, plans: seq<Name>, r: Sorted, rounds: seq<set<Name>>) {
    var names := Names(plans);
    match r
    case Circular(circs) =>
      circs != [] && Distinct(circs) && forall p :: p in circs <==> p in plans && Stuck(g, names, p)
    case Ordered(sorted) =>
      && Rounds(g, names, rounds) && BlockedSet(g, names, |rounds|) == {}
      && exists order :: ByRound(g, names, order) && Names(order) == names && sorted == MainLast(order)
  }

  lemma CircularResult(g: Graph, plans: seq<Name>, deps: map<Name, set<Name>>, circs: seq<Name>, rounds: seq<set<Name>>)
    requires Table(g, Names(plans), |rounds|, deps) && deps != map[] && forall p :: p in deps ==> deps[p] != {}
    requires Distinct(circs) && Names(circs) == deps.Keys
    ensures SortResult(g, plans, Circular(circs), rounds)
  {
    var names, k := Names(plans), |rounds|;
    RoundStep(g, names, k, deps, {}, deps);
    forall p ensures p in circs <==> p in plans && Stuck(g, names, p) {
      assert p in circs <==> p in Names(circs);
      assert p in plans <==> p in names;
      ForeverBlocked(g, names, k, p);
    }
    assert circs != [] by { assert Names([]) == {} && deps.Keys != {}; }
  }

  /** After |rounds| rounds: what is left of the table and what has been resolved. */
  ghost predicate Progress(g: Graph, names: set<Name>, rounds: seq<set<Name>>, deps: map<Name, set<Name>>, resolved: seq<Name>) {
    && Table(g, names, |rounds|, deps) && Rounds(g, names, rounds)
    && ByRound(g, names, resolved) && Names(resolved) == names - deps.Keys
  }

  lemma ProgressStep(g: Graph, names: set<Name>, rounds: seq<set<Name>>, deps: map<Name, set<Name>>, resolved: seq<Name>,
                     ready: set<Name>, next: seq<Name>, rest: map<Name, set<Name>>)
    requires Progress(g, names, rounds, deps, resolved)
    requires ready == (set p | p in deps && deps[p] == {}) && ready != {} && Distinct(next) && Names(next) == ready
    requires rest.Keys == deps.Keys - ready && forall p :: p in rest ==> rest[p] == deps[p] - ready
    ensures Progress(g, names, rounds + [ready], rest, resolved + next)
  {
    RoundStep(g, names, |rounds|, deps, ready, rest);
    ByRoundAppend(g, names, |rounds|, resolved, ready, next);
  }

  /** What sortPlans promises for a list of plans that is closed under dependencies. */
  ghost predicate Promised(g: Graph, plans: seq<Name>, r: Sorted) {
    match r
    case Circular(circs) =>
      circs != [] && Distinct(circs) && forall p :: p in circs <==> p in plans && ReachesCycle(g, p)
    case Ordered(sorted) =>
      && Distinct(sorted) && Names(sorted) == Names(plans) && (forall p :: p in plans ==> !ReachesCycle(g, p))
      && (DepsBefore(g, sorted) <==> forall p :: p in plans ==> "main" !in DepsOf(g, p))
  }

  lemma PromisedHolds(g: Graph, plans: seq<Name>, r: Sorted, rounds: seq<set<Name>>)
    requires ClosedList(g, Names(plans)) && SortResult(g, plans, r, rounds)
    ensures Promised(g, plans, r)
  {
    SortExactly(g, plans, r, rounds);
  }

  method SortPlans(g: Graph, plans: seq<Name>) returns (r: Sorted, ghost rounds: seq<set<Name>>)
    requires forall p :: p in plans ==> p in g
    ensures ClosedList(g, Names(plans)) ==> Promised(g, plans, r)
    ensures SortResult(g, plans, r, rounds)
  {
    r, rounds := SortRounds(g, plans);
    if ClosedList(g, Names(plans)) { PromisedHolds(g, plans, r, rounds); }
  }

  /** The body of sortPlans: one round of the loop resolves the plans without open dependencies. */
  method SortRounds(g: Graph, plans: seq<Name>) returns (r: Sorted, ghost rounds: seq<set<Name>>)
    requires forall p :: p in plans ==> p in g
    ensures SortResult(g, plans, r, rounds)
  {
    ghost var names := Names(plans);
    var deps := BuildTable(g, plans);
    var resolved: seq<Name> := [];
    rounds := [];
    while deps != map[]
      invariant Progress(g, names, rounds, deps, resolved)
      decreases deps.Keys
    {
      var ready := ReadyPlans(deps);
      if ready == {} {
        var circs := Listed(deps.Keys);
        assert forall p :: p in deps && deps[p] == {} ==> p in ready;
        CircularResult(g, plans, deps, circs, rounds);
        return Circular(circs), rounds;
      }
      var next := Listed(ready);
      var rest := WithoutReady(deps, ready);
      ProgressStep(g, names, rounds, deps, resolved, ready, next, rest);
      resolved := resolved + next;
      deps := rest;
      rounds := rounds + [ready];
    }
    var moved := MoveMain(resolved);
    r := Ordered(moved);
  }

  method MoveMain(resolved: seq<Name>) returns (moved: seq<Name>)
    ensures moved == MainLast(resolved)
  {
    moved := resolved;
    var i := 0;
    while i < |resolved| && resolved[i] != "main"
      invariant 0 <= i <= |resolved|
      invariant MainIndex(resolved) == i + MainIndex(resolved[i..])
    {
      assert resolved[i..][1..] == resolved[i + 1..];
      i := i + 1;
    }
    if i < |resolved| {
      var main := resolved[i];
      moved := resolved[..i] + resolved[i + 1..];
      moved := moved + [main];
    }
  }

  // ---- What a chain of dependencies has to do with it ------------------------------------------

  /** Each plan of the path depends on the next. */
  ghost predicate Chain(g: Graph, path: seq<Name>) {
    forall i :: 0 <= i < |path| - 1 ==> path[i + 1] in DepsOf(g, path[i])
  }

  ghost predicate ClosedList(g: Graph, names: set<Name>) {
    forall p, d :: p in names && d in DepsOf(g, p) ==> d in names
  }

  /** A dependency cycle can be reached from `p`: some chain from `p` visits a plan twice. */
  ghost predicate ReachesCycle(g: Graph, p: Name) {
    exists path, i, j :: Chain(g, path) && 0 <= i < j < |path| && path[0] == p && path[i] == path[j]
  }

  lemma {:induction false} ChainInside(g: Graph, names: set<Name>, path: seq<Name>, i: nat)
    requires ClosedList(g, names) && Chain(g, path) && i < |path| && path[0] in names
    ensures path[i] in names
  {
    if i > 0 { ChainInside(g, names, path, i - 1); }
  }

  /** In a closed list a plan outlasts `k` rounds exactly when a chain of `k` dependencies starts at
      it; so the round that resolves it is the length of its longest chain. */
  lemma {:induction false} BlockedIsChain(g: Graph, names: set<Name>, p: Name, k: nat)
    requires ClosedList(g, names) && p in names
    ensures Blocked(g, names, p, k) <==> exists path :: |path| == k + 1 && path[0] == p && Chain(g, path)
    decreases k
  {
    if k == 0 {
      assert |[p]| == 1 && Chain(g, [p]);
    } else {
      if Blocked(g, names, p, k) {
        var d :| d in DepsOf(g, p) && (d !in names || Blocked(g, names, d, k - 1));
        BlockedIsChain(g, names, d, k - 1);
        var tail :| |tail| == k && tail[0] == d && Chain(g, tail);
        var path := [p] + tail;
        assert forall i :: 0 < i < |path| ==> path[i] == tail[i - 1];
        assert Chain(g, path) && |path| == k + 1 && path[0] == p;
      }
      if path :| |path| == k + 1 && path[0] == p && Chain(g, path) {
        var d, tail := path[1], path[1..];
        assert d in DepsOf(g, path[0]);
        assert forall i :: 0 <= i < |tail| ==> tail[i] == path[i + 1];
        assert |tail| == k - 1 + 1 && tail[0] == d && Chain(g, tail);
        BlockedIsChain(g, names, d, k - 1);
      }
    }
  }

  /** More positions than values: two positions hold the same value. */
  lemma {:induction false} Pigeonhole(path: seq<Name>, names: set<Name>) returns (i: nat, j: nat)
    requires |path| > |names| && forall k :: 0 <= k < |path| ==> path[k] in names
    ensures i < j < |path| && path[i] == path[j]
    decreases |path|
  {
    var m := |path| - 1;
    if k :| 0 <= k < m && path[k] == path[m] {
      i, j := k, m;
    } else {
      i, j := Pigeonhole(path[..m], names - {path[m]});
    }
  }

  lemma {:induction false} CycleBlocks(g: Graph, names: set<Name>, path: seq<Name>, i: nat, j: nat, at: nat, k: nat)
    requires ClosedList(g, names) && Chain(g, path) && i < j < |path| && path[i] == path[j] && path[0] in names && at < j
    ensures Blocked(g, names, path[at], k)
    decreases k
  {
    ChainInside(g, names, path, at);
    if k > 0 {
      var next := if at + 1 == j then i else at + 1;
      assert path[next] == path[at + 1] && path[at + 1] in DepsOf(g, path[at]);
      CycleBlocks(g, names, path, i, j, next, k - 1);
    }
  }

  /** The plans sortPlans reports are exactly those from which a dependency cycle can be reached. */
  lemma StuckExactlyOnCycle(g: Graph, names: set<Name>, p: Name)
    requires ClosedList(g, names) && p in names
    ensures Stuck(g, names, p) <==> ReachesCycle(g, p)
  {
    if Stuck(g, names, p) {
      assert Blocked(g, names, p, |names|);
      BlockedIsChain(g, names, p, |names|);
      var path :| |path| == |names| + 1 && path[0] == p && Chain(g, path);
      forall k | 0 <= k < |path| ensures path[k] in names { ChainInside(g, names, path, k); }
      var i, j := Pigeonhole(path, names);
      assert Chain(g, path) && 0 <= i < j < |path| && path[0] == p && path[i] == path[j];
    }
    if path, i, j :| Chain(g, path) && 0 <= i < j < |path| && path[0] == p && path[i] == path[j] {
      forall k: nat ensures Blocked(g, names, p, k) { CycleBlocks(g, names, path, i, j, 0, k); }
    }
  }

  lemma StuckPlans(g: Graph, plans: seq<Name>, rounds: nat)
    requires ClosedList(g, Names(plans)) && BlockedSet(g, Names(plans), rounds) == {}
    ensures forall p :: p in plans ==> !ReachesCycle(g, p)
  {
    var names := Names(plans);
    forall p | p in plans ensures !ReachesCycle(g, p) {
      assert p in names && p !in BlockedSet(g, names, rounds);
      assert !Blocked(g, names, p, rounds);
      StuckExactlyOnCycle(g, names, p);
    }
  }

  /** What the order of resolution gives once main is moved to the end. */
  lemma SortedOrder(g: Graph, plans: seq<Name>, rounds: nat, sorted: seq<Name>)
    requires ClosedList(g, Names(plans)) && BlockedSet(g, Names(plans), rounds) == {}
    requires exists order :: ByRound(g, Names(plans), order) && Names(order) == Names(plans) && sorted == MainLast(order)
    ensures Distinct(sorted) && Names(sorted) == Names(plans)
    ensures DepsBefore(g, sorted) <==> forall p :: p in plans ==> "main" !in DepsOf(g, p)
  {
    var order :| ByRound(g, Names(plans), order) && Names(order) == Names(plans) && sorted == MainLast(order);
    ByRoundOrdered(g, Names(plans), order, rounds);
    MainLastKeeps(order);
    MainLastOrdered(g, order);
    assert forall p :: p in order <==> p in Names(order);
    assert forall p :: p in plans <==> p in Names(plans);
  }

  /** sortPlans fails exactly when there is a dependency cycle, and names exactly the plans that
      reach one; otherwise every plan is returned once, its dependencies first unless one of them is
      main. */
  lemma SortExactly(g: Graph, plans: seq<Name>, r: Sorted, rounds: seq<set<Name>>)
    requires ClosedList(g, Names(plans)) && SortResult(g, plans, r, rounds)
    ensures r.Circular? <==> exists p :: p in plans && ReachesCycle(g, p)
    ensures r.Circular? ==> Distinct(r.names) && forall p :: p in r.names <==> p in plans && ReachesCycle(g, p)
    ensures r.Ordered? ==> Distinct(r.plans) && Names(r.plans) == Names(plans)
    ensures r.Ordered? ==> (DepsBefore(g, r.plans) <==> forall p :: p in plans ==> "main" !in DepsOf(g, p))
  {
    if r.Circular? {
      forall p | p in plans ensures p in r.names <==> ReachesCycle(g, p) {
        assert p in Names(plans);
        StuckExactlyOnCycle(g, Names(plans), p);
      }
      assert r.names[0] in r.names;
    } else {
      StuckPlans(g, plans, |rounds|);
      SortedOrder(g, plans, |rounds|, r.plans);
    }
  }

  /** `k` dependencies in a row, starting at `p`. */
  ghost predicate HasChain(g: Graph, p: Name, k: nat) {
    exists path :: |path| == k + 1 && path[0] == p && Chain(g, path)
  }

  lemma HasChainExactly(g: Graph, names: set<Name>, p: Name, k: nat)
    requires ClosedList(g, names) && p in names
    ensures HasChain(g, p, k) <==> p in BlockedSet(g, names, k)
  {
    BlockedIsChain(g, names, p, k);
  }

  /** A plan is resolved in the round that is the length of its longest chain. */
  lemma RoundIsLongestChain(g: Graph, plans: seq<Name>, r: Sorted, rounds: seq<set<Name>>, k: nat, p: Name)
    requires ClosedList(g, Names(plans)) && SortResult(g, plans, r, rounds) && r.Ordered?
    requires k < |rounds| && p in plans
    ensures p in rounds[k] <==> HasChain(g, p, k) && !HasChain(g, p, k + 1)
  {
    assert p in Names(plans);
    HasChainExactly(g, Names(plans), p, k);
    HasChainExactly(g, Names(plans), p, k + 1);
  }

  /** The number of rounds is one more than the length of the longest chain there is. */
  lemma RoundCount(g: Graph, plans: seq<Name>, r: Sorted, rounds: seq<set<Name>>)
    requires ClosedList(g, Names(plans)) && SortResult(g, plans, r, rounds) && r.Ordered?
    ensures forall p :: p in plans ==> !HasChain(g, p, |rounds|)
    ensures plans != [] ==> rounds != [] && exists p :: p in plans && HasChain(g, p, |rounds| - 1)
  {
    var names := Names(plans);
    forall p | p in plans ensures !HasChain(g, p, |rounds|) {
      assert p in names && p !in BlockedSet(g, names, |rounds|);
      HasChainExactly(g, names, p, |rounds|);
    }
    if plans != [] {
      assert plans[0] in names;
      assert rounds == [] ==> plans[0] in BlockedSet(g, names, 0);
      var k := |rounds| - 1;
      assert rounds[k] != {};
      var p :| p in rounds[k];
      assert p in BlockedSet(g, names, k);
      HasChainExactly(g, names, p, k);
    }
  }

  lemma ByRoundOrdered(g: Graph, names: set<Name>, order: seq<Name>, rounds: nat)
    requires ClosedList(g, names) && ByRound(g, names, order) && Names(order) == names && BlockedSet(g, names, rounds) == {}
    ensures DepsBefore(g, order)
  {
    forall j, d | 0 <= j < |order| && order[j] in g && d in g[order[j]].dependencies ensures d in order[..j] {
      var p := order[j];
      assert p in Names(order) && d in DepsOf(g, p);
      var k := LastBlocked(g, names, d, rounds);
      assert Blocked(g, names, p, k + 1);
      assert d in Names(order);
      var i :| 0 <= i < |order| && order[i] == d;
      assert i < j;
    }
  }

  lemma {:induction false} LastBlocked(g: Graph, names: set<Name>, d: Name, rounds: nat) returns (k: nat)
    requires d in names && BlockedSet(g, names, rounds) == {}
    ensures Blocked(g, names, d, k) && !Blocked(g, names, d, k + 1)
  {
    assert d !in BlockedSet(g, names, rounds);
    k := 0;
    while Blocked(g, names, d, k + 1)
      invariant Blocked(g, names, d, k)
      decreases rounds - k
    {
      if k + 1 >= rounds { BlockedEarlier(g, names, d, rounds, k + 1); }
      k := k + 1;
    }
  }

  lemma {:induction false} MainIndexFirst(order: seq<Name>)
    ensures MainIndex(order) <= |order|
    ensures MainIndex(order) < |order| ==> order[MainIndex(order)] == "main"
    ensures forall i :: 0 <= i < MainIndex(order) ==> order[i] != "main"
  {
    if order != [] && order[0] != "main" { MainIndexFirst(order[1..]); }
  }

  lemma MainLastKeeps(order: seq<Name>)
    requires Distinct(order)
    ensures Distinct(MainLast(order)) && Names(MainLast(order)) == Names(order)
  {
    MainIndexFirst(order);
    var idx := MainIndex(order);
    if idx < |order| {
      assert order == order[..idx] + [order[idx]] + order[idx + 1..];
      OneToEnd(order[..idx], order[idx], order[idx + 1..]);
    }
  }

  lemma OneToEnd(a: seq<Name>, x: Name, b: seq<Name>)
    requires Distinct(a + [x] + b)
    ensures Distinct(a + b + [x]) && Names(a + b + [x]) == Names(a + [x] + b)
  {
    var s, t := a + [x] + b, a + b + [x];
    forall i | 0 <= i < |t| ensures t[i] == s[if i < |a| then i else if i == |a| + |b| then |a| else i + 1] {}
  }

  /** "main" goes to the end and everything else stays in order. */
  lemma MainLastExactly(a: seq<Name>, b: seq<Name>)
    requires "main" !in a
    ensures MainLast(a + ["main"] + b) == a + b + ["main"] && MainLast(a) == a
  {
    MainPlace(a, b);
    var order := a + ["main"] + b;
    assert order[..|a|] == a && order[|a| + 1..] == b && order[|a|] == "main";
  }

  lemma {:induction false} MainPlace(a: seq<Name>, b: seq<Name>)
    requires "main" !in a
    ensures MainIndex(a + ["main"] + b) == |a| && MainIndex(a) == |a|
  {
    if a != [] {
      assert a[0] in a;
      assert (a + ["main"] + b)[1..] == a[1..] + ["main"] + b;
      MainPlace(a[1..], b);
    }
  }

  /** Where the plan at position `i` of the moved list was before. */
  function Origin(order: seq<Name>, i: nat): nat {
    var idx := MainIndex(order);
    if idx >= |order| || i < idx then i else if i == |order| - 1 then idx else i + 1
  }

  lemma MovedFrom(order: seq<Name>, i: nat)
    requires i < |order|
    ensures |MainLast(order)| == |order| && Origin(order, i) < |order| && MainLast(order)[i] == order[Origin(order, i)]
  {
    MainIndexFirst(order);
    if MainIndex(order) < |order| { MovedAt(order, MainIndex(order), i); }
  }

  lemma MovedAt(order: seq<Name>, idx: nat, i: nat)
    requires idx < |order| && i < |order|
    ensures var moved := order[..idx] + order[idx + 1..] + [order[idx]];
            |moved| == |order| && moved[i] == order[if i < idx then i else if i == |order| - 1 then idx else i + 1]
  {
  }

  /** What stood before a name and is not "main" still stands before it. */
  lemma MovesTo(order: seq<Name>, i: nat, e: nat)
    requires Distinct(order) && i < |order| && e < Origin(order, i) < |order| && order[e] != "main"
    ensures order[e] in MainLast(order)[..i]
  {
    var to := OriginBack(order, i, e);
    MovedFrom(order, to);
    InPrefix(MainLast(order), to, i);
  }

  /** Where a name other than "main" has gone. */
  lemma OriginBack(order: seq<Name>, i: nat, e: nat) returns (to: nat)
    requires i < |order| && e < Origin(order, i) < |order| && order[e] != "main"
    ensures to < i && Origin(order, to) == e
  {
    MainIndexFirst(order);
    to := if e < MainIndex(order) then e else e - 1;
  }

  lemma InPrefix(xs: seq<Name>, to: nat, i: nat)
    requires to < i <= |xs|
    ensures xs[to] in xs[..i]
  {
    assert xs[..i][to] == xs[to];
  }

  lemma MainFreeAt(g: Graph, order: seq<Name>, i: nat, d: Name)
    requires Distinct(order) && DepsBefore(g, order) && forall p :: p in order ==> "main" !in DepsOf(g, p)
    requires i < |order| && MainLast(order)[i] in g && d in g[MainLast(order)[i]].dependencies
    ensures d in MainLast(order)[..i]
  {
    MovedFrom(order, i);
    var at := Origin(order, i);
    assert order[at] in order && d in DepsOf(g, order[at]) && d in order[..at];
    var e :| 0 <= e < at && order[e] == d;
    MovesTo(order, i, e);
  }

  lemma MainFree(g: Graph, order: seq<Name>)
    requires Distinct(order) && DepsBefore(g, order) && forall p :: p in order ==> "main" !in DepsOf(g, p)
    ensures DepsBefore(g, MainLast(order))
  {
    var moved := MainLast(order);
    forall i, d | 0 <= i < |moved| && moved[i] in g && d in g[moved[i]].dependencies ensures d in moved[..i] {
      MainFreeAt(g, order, i, d);
    }
  }

  /** Moving main to the end keeps the order legal exactly when nothing depends on main. */
  lemma MainLastOrdered(g: Graph, order: seq<Name>)
    requires Distinct(order) && DepsBefore(g, order)
    ensures DepsBefore(g, MainLast(order)) <==> forall p :: p in order ==> "main" !in DepsOf(g, p)
  {
    if p :| p in order && "main" in DepsOf(g, p) {
      MainNeeded(g, order, p);
    } else {
      MainFree(g, order);
    }
  }

  lemma MainNeeded(g: Graph, order: seq<Name>, p: Name)
    requires Distinct(order) && DepsBefore(g, order) && p in order && "main" in DepsOf(g, p)
    ensures !DepsBefore(g, MainLast(order))
  {
    var at :| 0 <= at < |order| && order[at] == p;
    assert "main" in order[..at];
    MainMoves(order, at);
    assert "main" in g[MainLast(order)[at - 1]].dependencies;
  }

  /** What stood behind "main" stands one place further in front, with "main" behind it. */
  lemma MainMoves(order: seq<Name>, at: nat)
    requires Distinct(order) && at < |order| && "main" in order[..at]
    ensures 0 < at <= |MainLast(order)| && MainLast(order)[at - 1] == order[at] && "main" !in MainLast(order)[..at - 1]
  {
    MainBefore(order, at);
    MovedFrom(order, at - 1);
    forall j: nat | j < at - 1 ensures MainLast(order)[j] != "main" {
      MovedFrom(order, j);
      assert order[Origin(order, j)] != order[MainIndex(order)];
    }
  }

  lemma MainBefore(order: seq<Name>, at: nat)
    requires at < |order| && "main" in order[..at]
    ensures MainIndex(order) < at && order[MainIndex(order)] == "main"
  {
    MainIndexFirst(order);
    var e :| 0 <= e < at && order[e] == "main";
  }

  // ---- Plan.All --------------------------------------------------------------------------------

  /** Acyclic plans: Plan.All returns no error and does not panic; it lists every reachable plan once. */
  method All(g: Graph, root: Name) returns (r: Sorted, panics: bool)
    requires Acyclic(g) && root in g
    ensures r.Ordered? && !panics
    ensures Distinct(r.plans) && Names(r.plans) == Reachable(g, root)
    ensures DepsBefore(g, r.plans) <==> forall p :: p in Reachable(g, root) ==> "main" !in DepsOf(g, p)
  {
    var seen, all := AllPlans(g, root, {});
    VisitAdds(g, root, {});
    ReachableIsClosed(g, root);
    assert Names(all) == Reachable(g, root);
    ListClosed(g, all);
    ghost var rounds;
    r, rounds := SortPlans(g, all);
    SortExactly(g, all, r, rounds);
    if p :| p in all && ReachesCycle(g, p) { NoCycle(g, p); }
    SameLength(r.plans, all);
    panics := r.Ordered? && |r.plans| != |all|;
  }

  lemma ListClosed(g: Graph, all: seq<Name>)
    requires Names(all) <= g.Keys && Closed(g, Names(all))
    ensures ClosedList(g, Names(all)) && forall p :: p in all ==> p in g
  {
    forall p | p in all ensures p in g { assert p in Names(all); }
    forall p, d | p in Names(all) && d in DepsOf(g, p) ensures d in Names(all) {
      assert d in Children(g[p]);
    }
  }

  lemma {:induction false} ChainFalls(g: Graph, path: seq<Name>, i: nat, j: nat)
    requires Acyclic(g) && Chain(g, path) && i < j < |path|
    ensures path[i] in g && RankOf(g)(path[j]) < RankOf(g)(path[i])
    decreases j
  {
    assert path[j] in DepsOf(g, path[j - 1]);
    assert path[j] in Children(g[path[j - 1]]);
    if i < j - 1 { ChainFalls(g, path, i, j - 1); }
  }

  lemma NoCycle(g: Graph, p: Name)
    requires Acyclic(g)
    ensures !ReachesCycle(g, p)
  {
    if path, i, j :| Chain(g, path) && 0 <= i < j < |path| && path[0] == p && path[i] == path[j] {
      ChainFalls(g, path, i, j);
    }
  }

  lemma {:induction false} SameLength(xs: seq<Name>, ys: seq<Name>)
    requires Distinct(xs) && Distinct(ys) && Names(xs) == Names(ys)
    ensures |xs| == |ys|
  {
    NamesSize(xs);
    NamesSize(ys);
  }

  lemma {:induction false} NamesSize(xs: seq<Name>)
    requires Distinct(xs)
    ensures |Names(xs)| == |xs|
  {
    if xs != [] {
      var m := |xs| - 1;
      NamesSize(xs[..m]);
      assert xs == xs[..m] + [xs[m]];
      assert Names(xs) == Names(xs[..m]) + {xs[m]};
    }
  }
}
