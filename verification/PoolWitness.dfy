/** A Result that does not cover every plan, and when it always does. */
module PoolWitness {
  import opened Base
  import opened Plans
  import opened PoolModel
  import opened PoolInvariant
  import opened PoolCoverage
  import opened PoolSafety
  import opened PoolProgress

  lemma Extend(g: Graph, s0: State, run: seq<Action>, a: Action) returns (longer: seq<Action>, t: State)
    requires Legal(g, s0, run) && Enabled(g, After(g, s0, run), a)
    ensures longer == run + [a] && t == Next(g, After(g, s0, run), a)
    ensures Legal(g, s0, longer) && After(g, s0, longer) == t
  {
    longer := run + [a];
    t := Next(g, After(g, s0, run), a);
    var s := After(g, s0, run);
    var one := [a];
    assert one[1..] == [] && Legal(g, t, one[1..]) && After(g, t, one[1..]) == t;
    LegalAppend(g, s0, run, [a]);
  }

  // ---- The Result does not cover the dependents ------------------------------------------------

  lemma HasElement<T>(xs: seq<T>)
    requires xs != []
    ensures exists x :: x in xs
  {
    assert xs[0] in xs;
  }

  /** While nothing has been seen nothing but the feeder is active. */
  lemma Quiet(g: Graph, root: Name, conc: nat, s: State)
    requires Acyclic(g) && root in g && Occurs(g, root, conc, s) && s.seen == {}
    ensures s.results == [] && s.planDoneC == [] && s.n == 0 && s.gatherer.Collecting? && s.emitted.None?
    ensures forall w :: 0 <= w < |s.workers| ==> s.workers[w] == Worker(None, Idle)
  {
    InvOccurs(g, root, conc, s);
    CounterConserves(g, root, conc, s);
    assert |s.results| == 0;
    assert forall r :: r in s.planDoneC ==> r in s.results;
    if s.planDoneC != [] { HasElement(s.planDoneC); }
    forall w | 0 <= w < |s.workers| ensures s.workers[w] == Worker(None, Idle) {
      var wrk := s.workers[w];
      if wrk.inbox.Some? {
        TallyUpdate(InboxOf, s.workers, w, wrk, wrk.inbox.value);
        InSeen(s, wrk.inbox.value);
      } else if !wrk.phase.Idle? {
        TallyUpdate(StartedOf, s.workers, w, wrk, StartedOf(wrk).value);
        InSeen(s, StartedOf(wrk).value);
      }
    }
  }

  /** The feeder has just marked its first plan and is about to offer it to the first worker. */
  ghost predicate FirstMarked(conc: nat, s: State) {
    && s.feeder != [] && s.feeder[0].Scan? && s.feeder[0].next == 0
    && s.n == 1 && s.results == [] && s.planDoneC == [] && s.gatherer.Collecting? && s.emitted.None?
    && |s.workers| == conc && forall w :: 0 <= w < |s.workers| ==> s.workers[w] == Worker(None, Idle)
  }

  lemma QuietAction(g: Graph, root: Name, conc: nat, s: State) returns (a: Action)
    requires Acyclic(g) && root in g && Occurs(g, root, conc, s) && s.seen == {}
    ensures Enabled(g, s, a) && (a.ReceiveStart? || a.FeederStep?)
  {
    InvOccurs(g, root, conc, s);
    ReachableIsClosed(g, root);
    if s.feeder == [] {
      a := ReceiveStart;
      if s.planStartC == [] { NothingForgotten(g, root, conc, s, root); }
    } else {
      FeederCanMove(g, root, s);
      var pick :| Enabled(g, s, FeederStep(pick));
      a := FeederStep(pick);
    }
  }

  lemma QuietWork(g: Graph, s: State, pick: Name)
    requires Shaped(s) && s.seen == {} && Enabled(g, s, FeederStep(pick))
    ensures var t := Work(g, s, pick);
            && t.workers == s.workers
            && (t.seen == {} || (t.n == s.n + 1 && t.feeder != [] && t.feeder[0].Scan? && t.feeder[0].next == 0))
  {
  }

  lemma QuietNext(g: Graph, root: Name, conc: nat, s: State, a: Action)
    requires Acyclic(g) && root in g && Occurs(g, root, conc, s) && s.seen == {}
    requires Enabled(g, s, a) && (a.ReceiveStart? || a.FeederStep?)
    ensures var t := Next(g, s, a); t.seen == {} || FirstMarked(conc, t)
  {
    InvOccurs(g, root, conc, s);
    Quiet(g, root, conc, s);
    if a.FeederStep? {
      WorkFrame(g, s, a.pick);
      QuietWork(g, s, a.pick);
    }
  }

  /** From any state in which nothing has been seen the feeder gets to mark a first plan. */
  lemma {:induction false} FirstSeen(g: Graph, root: Name, conc: nat, run: seq<Action>) returns (longer: seq<Action>)
    requires Acyclic(g) && root in g && Legal(g, Init(conc, root), run) && After(g, Init(conc, root), run).seen == {}
    ensures Legal(g, Init(conc, root), longer) && FirstMarked(conc, After(g, Init(conc, root), longer))
    decreases Measure(g, root, After(g, Init(conc, root), run))
  {
    var s := After(g, Init(conc, root), run);
    InvOccurs(g, root, conc, s);
    var a := QuietAction(g, root, conc, s);
    QuietNext(g, root, conc, s, a);
    MeasureStep(g, root, s, a);
    var t;
    longer, t := Extend(g, Init(conc, root), run, a);
    if t.seen == {} {
      longer := FirstSeen(g, root, conc, longer);
    }
  }

  lemma RunFirst(g: Graph, s0: State, run: seq<Action>, p: Name, o: Outcome) returns (longer: seq<Action>, s: State)
    requires Legal(g, s0, run) && FirstMarked(|After(g, s0, run).workers|, After(g, s0, run))
    requires |After(g, s0, run).workers| > 0 && After(g, s0, run).feeder[0].plan == p && MayEnd(g, p, o)
    ensures Legal(g, s0, longer) && After(g, s0, longer) == s
    ensures s.workers != [] && s.workers[0].phase == Sending(PlanResult(p, o))
    ensures s.n == 1 && s.gatherer.Collecting? && s.results == [] && s.planDoneC == [] && s.emitted.None?
  {
    longer, s := Extend(g, s0, run, FeederStep(p));
    longer, s := Extend(g, s0, longer, Take(0));
    longer, s := Extend(g, s0, longer, Finish(0, o));
  }

  lemma GatherFirst(g: Graph, s0: State, run: seq<Action>, p: Name, o: Outcome) returns (longer: seq<Action>, s: State)
    requires Legal(g, s0, run)
    requires var s := After(g, s0, run);
             && s.workers != [] && s.workers[0].phase == Sending(PlanResult(p, o))
             && s.n == 1 && s.gatherer.Collecting? && s.results == [] && s.planDoneC == []
    ensures Legal(g, s0, longer) && After(g, s0, longer) == s
    ensures s.emitted == Some([PlanResult(p, o)])
  {
    longer, s := Extend(g, s0, run, Gather(0));
    assert s.gatherer == Delivering(PlanResult(p, o), true) && s.results == [PlanResult(p, o)];
    longer, s := Extend(g, s0, longer, Deliver);
    assert s.gatherer == Waking(true) && s.results == [PlanResult(p, o)];
    longer, s := Extend(g, s0, longer, Wake);
    assert s.gatherer == Emitting && s.results == [PlanResult(p, o)];
    longer, s := Extend(g, s0, longer, Emit);
  }

  /** A worker and the gatherer can finish with the first plan before the feeder goes on: the counter
      is then zero and the Result holds that plan only. */
  lemma FirstPlanAlone(g: Graph, root: Name, conc: nat) returns (s: State)
    requires Acyclic(g) && root in g && conc > 0
    ensures Occurs(g, root, conc, s) && s.emitted.Some? && |s.emitted.value| == 1 && !s.emitted.value[0].outcome.Failed?
  {
    var s0 := Init(conc, root);
    var run := FirstSeen(g, root, conc, []);
    s := After(g, s0, run);
    var p := s.feeder[0].plan;
    InvOccurs(g, root, conc, s);
    ReachableIsClosed(g, root);
    assert TaskIn(Reachable(g, root), s.feeder[0]);
    var o := if HasRealOps(g[p]) then Succeeded else Nothing;
    run, s := RunFirst(g, s0, run, p, o);
    run, s := GatherFirst(g, s0, run, p, o);
  }

  ghost predicate Complete(g: Graph, root: Name, results: seq<PlanResult>)
    requires Acyclic(g) && root in g
  {
    forall p :: p in Reachable(g, root) ==> p in Origins(results)
  }

  /** Every Result that Execute can return covers every plan if and only if the root contains and
      depends on no other plan. */
  lemma ResultCompleteExactly(g: Graph, root: Name, conc: nat)
    requires Acyclic(g) && root in g && conc > 0
    ensures (forall s :: Occurs(g, root, conc, s) && s.emitted.Some? ==> Complete(g, root, s.emitted.value))
            <==> Children(g[root]) == []
  {
    if Children(g[root]) == [] {
      forall s | Occurs(g, root, conc, s) && s.emitted.Some? ensures Complete(g, root, s.emitted.value) {
        OnlyRoot(g, root, conc, s);
      }
    } else {
      var s := FirstPlanAlone(g, root, conc);
      var c := Children(g[root])[0];
      assert c in Children(g[root]) && c != root;
      ReachableIsClosed(g, root);
      TwoAreMissing(g, root, s.emitted.value, c);
    }
  }

  lemma TwoAreMissing(g: Graph, root: Name, results: seq<PlanResult>, c: Name)
    requires Acyclic(g) && root in g && {root, c} <= Reachable(g, root) && c != root && |results| == 1
    ensures !Complete(g, root, results)
  {
    assert Origins(results) == [results[0].origin];
    assert root !in Origins(results) || c !in Origins(results);
  }

  lemma OnlyRoot(g: Graph, root: Name, conc: nat, s: State)
    requires Acyclic(g) && root in g && Children(g[root]) == [] && Occurs(g, root, conc, s) && s.emitted.Some?
    ensures Complete(g, root, s.emitted.value)
  {
    InvOccurs(g, root, conc, s);
    assert Reachable(g, root) == {root};
    var first := Origins(s.results)[0];
    assert first in multiset(Origins(s.results));
    assert first in s.sealed.value;
  }
}
