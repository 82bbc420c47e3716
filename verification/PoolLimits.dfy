/** Which plans run, and which never do: read off the graph. */
module PoolLimits {
  import opened Base
  import opened Plans
  import opened PoolModel
  import opened PoolInvariant
  import opened PoolCoverage
  import opened PoolSafety

  // ---- At rest, when nothing failed ------------------------------------------------------------

  /** When nothing has failed, what runs can be read off the graph: at rest a reachable plan has run if
      and only if everything it depends on, directly or not, has acting operations. */
  lemma NothingFailedExactly(g: Graph, root: Name, conc: nat, s: State, p: Name)
    requires Acyclic(g) && root in g && Occurs(g, root, conc, s) && Quiescent(root, s) && p in Reachable(g, root)
    requires forall q :: PlanResult(q, Failed) !in s.results
    ensures p in g
    ensures p in Origins(s.results) <==> forall q :: q in Needs(g, p) ==> q in g && HasRealOps(g[q])
  {
    RestExactly(g, root, conc, s, p);
    if p in Origins(s.results) {
      InvOccurs(g, root, conc, s);
      forall q | q in Needs(g, p) ensures q in g && HasRealOps(g[q]) {
        assert PlanResult(q, Succeeded) in s.results;
      }
    } else if forall q :: q in Needs(g, p) ==> q in g && HasRealOps(g[q]) {
      RunsWhenReal(g, root, conc, s, p);
    }
  }

  lemma {:induction false} RunsWhenReal(g: Graph, root: Name, conc: nat, s: State, p: Name)
    requires Acyclic(g) && root in g && Occurs(g, root, conc, s) && Quiescent(root, s) && p in Reachable(g, root) && p in g
    requires forall q :: PlanResult(q, Failed) !in s.results
    requires forall q :: q in Needs(g, p) ==> q in g && HasRealOps(g[q])
    ensures p in Origins(s.results)
    decreases RankOf(g)(p)
  {
    forall q | q in Needs(g, p) ensures PlanResult(q, Succeeded) in s.results {
      NeedsTransitive(g, p, q);
      NeedsReachable(g, p);
      ReachableTransitive(g, root, p);
      RunsWhenReal(g, root, conc, s, q);
      RealSucceeds(g, root, conc, s, q);
    }
    RestExactly(g, root, conc, s, p);
  }

  lemma RealSucceeds(g: Graph, root: Name, conc: nat, s: State, q: Name)
    requires Acyclic(g) && root in g && Occurs(g, root, conc, s) && q in g && HasRealOps(g[q])
    requires q in Origins(s.results) && PlanResult(q, Failed) !in s.results
    ensures PlanResult(q, Succeeded) in s.results
  {
    InvOccurs(g, root, conc, s);
    var k :| 0 <= k < |s.results| && Origins(s.results)[k] == q;
    assert s.results[k] in s.results && s.results[k].origin == q;
    assert s.results[k] == PlanResult(q, s.results[k].outcome);
  }

  // ---- After the counter was zero --------------------------------------------------------------

  /** The only reachable plan without dependencies. */
  ghost predicate OnlySource(g: Graph, root: Name, a: Name)
    requires Acyclic(g) && root in g
  {
    forall p :: p in Reachable(g, root) && p in g && g[p].dependencies == [] ==> p == a
  }

  /** Before the counter is zero nothing but the source has been seen, and only its result closes it. */
  ghost predicate SourceOnly(a: Name, s: State) {
    && (s.sealed.None? ==> s.results == [])
    && (s.sealed.Some? ==> Origins(s.results) == [a])
  }

  lemma SeenOnResults(g: Graph, root: Name, s: State, p: Name)
    requires Acyclic(g) && root in g && Inv(g, root, s) && p in s.seen && p in g && g[p].dependencies != []
    ensures s.results != []
  {
    var d := g[p].dependencies[0];
    assert d in Children(g[p]) && d in Needs(g, p);
    SeenNeeds(g, s, p, d);
  }

  lemma SourceSeen(g: Graph, root: Name, a: Name, s: State, p: Name)
    requires Acyclic(g) && root in g && Inv(g, root, s) && OnlySource(g, root, a) && s.results == [] && p in s.seen
    ensures p == a
  {
    ReachableIsClosed(g, root);
    assert p in Reachable(g, root) && p in g;
    if g[p].dependencies != [] { SeenOnResults(g, root, s, p); }
  }

  /** Only gathering adds a result. */
  lemma ResultsKept(g: Graph, s: State, act: Action)
    requires Enabled(g, s, act) && !act.Gather?
    ensures Next(g, s, act).results == s.results && Next(g, s, act).sealed == s.sealed
  {
    if act.FeederStep? { WorkFrame(g, s, act.pick); }
  }

  lemma SourceOnlyStep(g: Graph, root: Name, a: Name, s: State, act: Action)
    requires Acyclic(g) && root in g && Inv(g, root, s) && OnlySource(g, root, a) && SourceOnly(a, s) && Enabled(g, s, act)
    ensures SourceOnly(a, Next(g, s, act))
  {
    if act.Gather? {
      SourceGathered(g, root, a, s, act.w);
    } else {
      ResultsKept(g, s, act);
    }
  }

  lemma SourceGathered(g: Graph, root: Name, a: Name, s: State, w: nat)
    requires Acyclic(g) && root in g && Inv(g, root, s) && OnlySource(g, root, a) && SourceOnly(a, s) && Enabled(g, s, Gather(w))
    ensures SourceOnly(a, Next(g, s, Gather(w)))
  {
    var p := s.workers[w].phase.res.origin;
    TallyUpdate(StartedOf, s.workers, w, s.workers[w], p);
    InSeen(s, p);
    assert Sealed(s);
    SourceSeen(g, root, a, s, p);
    forall q | q in s.seen ensures q == a { SourceSeen(g, root, a, s, q); }
    assert s.seen == {a};
    assert Origins([s.workers[w].phase.res]) == [p];
  }

  lemma {:induction false} SourceOnlyAfter(g: Graph, root: Name, a: Name, s: State, run: seq<Action>)
    requires Acyclic(g) && root in g && Inv(g, root, s) && OnlySource(g, root, a) && SourceOnly(a, s) && Legal(g, s, run)
    ensures SourceOnly(a, After(g, s, run))
    decreases |run|
  {
    if run != [] {
      SourceOnlyStep(g, root, a, s, run[0]);
      InvStep(g, root, s, run[0]);
      SourceOnlyAfter(g, root, a, Next(g, s, run[0]), run[1..]);
    }
  }

  /** When only one reachable plan has no dependencies, its result brings the counter to zero, and then
      nothing more is gathered: no run gathers any other plan, and no plan that needs another one ever
      starts. */
  lemma OneSourceStops(g: Graph, root: Name, conc: nat, a: Name, s: State, p: Name)
    requires Acyclic(g) && root in g && Occurs(g, root, conc, s) && OnlySource(g, root, a)
    ensures |s.results| <= 1 && forall r :: r in s.results ==> r.origin == a
    ensures Started(p) in s.log && p in g ==> Needs(g, p) <= {a}
  {
    var run :| Legal(g, Init(conc, root), run) && After(g, Init(conc, root), run) == s;
    InvInit(g, root, conc);
    InvOccurs(g, root, conc, s);
    SourceOnlyAfter(g, root, a, Init(conc, root), run);
    OnlyResult(a, s);
    if Started(p) in s.log && p in g {
      StartedSeen(g, root, conc, s, p);
      forall q | q in Needs(g, p) ensures q == a { SeenNeeds(g, s, p, q); }
    }
  }

  lemma OnlyResult(a: Name, s: State)
    requires SourceOnly(a, s)
    ensures |s.results| <= 1 && forall r :: r in s.results ==> r.origin == a
  {
    forall r | r in s.results ensures r.origin == a {
      var i :| 0 <= i < |s.results| && s.results[i] == r;
      assert Origins(s.results)[i] == r.origin;
    }
  }

  lemma StartedSeen(g: Graph, root: Name, conc: nat, s: State, p: Name)
    requires Acyclic(g) && root in g && Occurs(g, root, conc, s) && Started(p) in s.log
    ensures p in s.seen
  {
    var k :| 0 <= k < |s.log| && s.log[k] == Started(p);
    RunsOnce(g, root, conc, s, p);
    OneStart(s.log, p, k);
  }

  /** In a chain of three plans, each depending on the next, the third never starts. */
  lemma ChainOfThreeStops(g: Graph, root: Name, conc: nat, a: Name, s: State, b: Name, c: Name)
    requires Acyclic(g) && root in g && Occurs(g, root, conc, s) && OnlySource(g, root, a)
    requires b in g && c in g && a in g[b].dependencies && b in g[c].dependencies
    ensures Started(c) !in s.log
  {
    OneSourceStops(g, root, conc, a, s, c);
    assert b in Children(g[c]) && a in Children(g[b]);
    assert b in Needs(g, c);
    var rank := RankOf(g);
    assert rank(a) < rank(b);
  }
}
