/** The feeder's bookkeeping as the program writes it (planCache, enqueueOnePlan, runPending, feedPlan
    and finishPlan in planner/execute/worker.go), and why the step relation's list of tasks does the
    same. Giving a plan to a worker is one append here: how a worker is found and waited for is what
    PoolModel is about. */
module PoolFeeder {
  import opened Base
  import opened Plans
  import opened PoolModel

  /** The order in which feedPlan comes to its main part, for a plan and everything below it. */
  ghost function Visits(g: Graph, p: Name): seq<Name>
    requires Acyclic(g) && p in g
    decreases RankOf(g)(p), 1
  {
    VisitsBelow(g, p, |Children(g[p])|) + [p]
  }

  /** The same for the first `i` dependencies and plans of `p`. */
  ghost function VisitsBelow(g: Graph, p: Name, i: nat): seq<Name>
    requires Acyclic(g) && p in g && i <= |Children(g[p])|
    decreases RankOf(g)(p), 0, i
  {
    if i == 0 then [] else VisitsBelow(g, p, i - 1) + Visits(g, Children(g[p])[i - 1])
  }

  /** feedPlan comes to exactly the plans that the plan contains or depends on. */
  lemma {:induction false} VisitsReachable(g: Graph, p: Name)
    requires Acyclic(g) && p in g
    ensures forall q :: q in Visits(g, p) <==> q in Reachable(g, p)
    decreases RankOf(g)(p), 1
  {
    VisitsOfChildren(g, p, |Children(g[p])|);
    forall q ensures q in Visits(g, p) <==> q in Reachable(g, p) {
      if q in Reachable(g, p) && q != p {
        var c :| c in Children(g[p]) && q in Reachable(g, c);
      }
    }
  }

  lemma {:induction false} VisitsOfChildren(g: Graph, p: Name, i: nat)
    requires Acyclic(g) && p in g && i <= |Children(g[p])|
    ensures forall q :: q in VisitsBelow(g, p, i) <==> exists c :: c in Children(g[p])[..i] && q in Reachable(g, c)
    decreases RankOf(g)(p), 0, i
  {
    if i > 0 {
      var cs, c := Children(g[p]), Children(g[p])[i - 1];
      VisitsOfChildren(g, p, i - 1);
      VisitsReachable(g, c);
      assert cs[..i] == cs[..i - 1] + [c];
      forall q | q in VisitsBelow(g, p, i) ensures exists b :: b in cs[..i] && q in Reachable(g, b) {
        if q in VisitsBelow(g, p, i - 1) {
          var b :| b in cs[..i - 1] && q in Reachable(g, b);
          assert b in cs[..i];
        } else {
          assert c in cs[..i] && q in Reachable(g, c);
        }
      }
    }
  }

  /** What the feeder remembers, and the plans it has given out, in order. */
  datatype Cache = Cache(seen: set<Name>, pending: set<Name>, given: seq<Name>)

  function Given(c: Cache, p: Name): Cache {
    if p in c.seen then c else c.(seen := c.seen + {p}, given := c.given + [p])
  }

  /** The main part of feedPlan. */
  predicate Ready(g: Graph, done: set<Name>, p: Name) {
    p in g && HasRealOps(g[p]) && DepsComplete(g, done, p)
  }

  function Main(g: Graph, done: set<Name>, c: Cache, p: Name): Cache {
    if Ready(g, done, p) then Given(c, p) else c.(pending := c.pending + {p})
  }

  function Mains(g: Graph, done: set<Name>, c: Cache, ps: seq<Name>): Cache {
    if ps == [] then c else Main(g, done, Mains(g, done, c, ps[..|ps| - 1]), ps[|ps| - 1])
  }

  lemma {:induction false} MainsJoin(g: Graph, done: set<Name>, c: Cache, ps: seq<Name>, qs: seq<Name>)
    ensures Mains(g, done, c, ps + qs) == Mains(g, done, Mains(g, done, c, ps), qs)
  {
    if qs == [] {
      assert ps + qs == ps;
    } else {
      var n := |qs| - 1;
      MainsJoin(g, done, c, ps, qs[..n]);
      assert (ps + qs)[..|ps + qs| - 1] == ps + qs[..n];
    }
  }

  /** Each plan that is ready ends up seen, every other one pending, and nothing is given out twice. */
  lemma {:induction false} MainsExactly(g: Graph, done: set<Name>, c: Cache, ps: seq<Name>)
    ensures var r := Mains(g, done, c, ps);
            && (forall q :: q in r.seen <==> q in c.seen || (q in ps && Ready(g, done, q)))
            && (forall q :: q in r.pending <==> q in c.pending || (q in ps && !Ready(g, done, q)))
            && c.given <= r.given && (forall q :: q in r.given[|c.given|..] <==> q in r.seen && q !in c.seen)
            && |r.given| - |c.given| == |r.seen| - |c.seen|
  {
    if ps != [] {
      var n := |ps| - 1;
      MainsExactly(g, done, c, ps[..n]);
      assert ps == ps[..n] + [ps[n]];
      var before, r := Mains(g, done, c, ps[..n]), Mains(g, done, c, ps);
      if Ready(g, done, ps[n]) && ps[n] !in before.seen {
        assert r.given[|c.given|..] == before.given[|c.given|..] + [ps[n]];
      }
    }
  }

  /** What one call of feedPlan does: of the plans below, the ready ones are given out unless seen,
      the others become pending. */
  lemma FeedsExactly(g: Graph, done: set<Name>, c: Cache, p: Name)
    requires Acyclic(g) && p in g
    ensures var r := Mains(g, done, c, Visits(g, p));
            && (forall q :: q in r.seen <==> q in c.seen || (q in Reachable(g, p) && Ready(g, done, q)))
            && (forall q :: q in r.pending <==> q in c.pending || (q in Reachable(g, p) && !Ready(g, done, q)))
            && c.given <= r.given && (forall q :: q in r.given[|c.given|..] <==> q in r.seen && q !in c.seen)
            && |r.given| - |c.given| == |r.seen| - |c.seen|
  {
    VisitsReachable(g, p);
    MainsExactly(g, done, c, Visits(g, p));
  }

  lemma TailGrows(xs: seq<Name>, ys: seq<Name>, n: nat, p: Name)
    requires n <= |xs| && (ys == xs || ys == xs + [p])
    ensures ys[n..] == if ys == xs then xs[n..] else xs[n..] + [p]
  {
  }

  lemma ChildLower(g: Graph, p: Name, i: nat)
    requires Acyclic(g) && p in g && i < |Children(g[p])|
    ensures Children(g[p])[i] in g && RankOf(g)(Children(g[p])[i]) < RankOf(g)(p)
  {
    assert Children(g[p])[i] in Children(g[p]);
  }

  /** The cache after each child of a plan. */
  ghost function Steps(g: Graph, done: set<Name>, c: Cache, p: Name): (steps: seq<Cache>)
    requires Acyclic(g) && p in g
    ensures |steps| == |Children(g[p])| + 1 && steps[0] == c
  {
    seq(|Children(g[p])| + 1, i requires 0 <= i <= |Children(g[p])| => Mains(g, done, c, VisitsBelow(g, p, i)))
  }

  /** One more child fed. */
  ghost predicate StepAt(g: Graph, done: set<Name>, steps: seq<Cache>, i: nat, child: Name)
    requires Acyclic(g) && child in g
  {
    i + 1 < |steps| && steps[i + 1] == Mains(g, done, steps[i], Visits(g, child))
  }

  lemma StepsStep(g: Graph, done: set<Name>, c: Cache, p: Name, i: nat)
    requires Acyclic(g) && p in g && i < |Children(g[p])| && Children(g[p])[i] in g
    ensures StepAt(g, done, Steps(g, done, c, p), i, Children(g[p])[i])
  {
    MainsJoin(g, done, c, VisitsBelow(g, p, i), Visits(g, Children(g[p])[i]));
  }

  /** The steps for a list of children that begins at some place. */
  ghost predicate StepsFor(g: Graph, p: Name, done: set<Name>, steps: seq<Cache>, below: seq<Name>, start: nat)
    requires Acyclic(g) && p in g
  {
    forall i :: 0 <= i < |below| ==> StepFor(g, p, done, steps, below[i], start + i)
  }

  ghost predicate StepFor(g: Graph, p: Name, done: set<Name>, steps: seq<Cache>, child: Name, i: nat)
    requires Acyclic(g) && p in g
  {
    child in g && RankOf(g)(child) < RankOf(g)(p) && StepAt(g, done, steps, i, child)
  }

  lemma ChildrenParts(p: Plan)
    ensures |Children(p)| == |p.dependencies| + |p.plans|
    ensures forall i :: 0 <= i < |p.dependencies| ==> Children(p)[i] == p.dependencies[i]
    ensures forall i :: 0 <= i < |p.plans| ==> Children(p)[|p.dependencies| + i] == p.plans[i]
  {
  }

  lemma StepForChild(g: Graph, done: set<Name>, c: Cache, p: Name, k: nat)
    requires Acyclic(g) && p in g && k < |Children(g[p])|
    ensures StepFor(g, p, done, Steps(g, done, c, p), Children(g[p])[k], k)
  {
    ChildLower(g, p, k);
    StepsStep(g, done, c, p, k);
  }

  lemma StepsForDependencies(g: Graph, done: set<Name>, c: Cache, p: Name)
    requires Acyclic(g) && p in g
    ensures StepsFor(g, p, done, Steps(g, done, c, p), g[p].dependencies, 0)
  {
    forall i | 0 <= i < |g[p].dependencies| ensures StepFor(g, p, done, Steps(g, done, c, p), g[p].dependencies[i], i) {
      ChildrenParts(g[p]);
      StepForChild(g, done, c, p, i);
    }
  }

  lemma StepForPlan(g: Graph, done: set<Name>, c: Cache, p: Name, i: nat)
    requires Acyclic(g) && p in g && i < |g[p].plans|
    ensures StepFor(g, p, done, Steps(g, done, c, p), g[p].plans[i], |g[p].dependencies| + i)
  {
    var k := |g[p].dependencies| + i;
    ChildrenParts(g[p]);
    assert Children(g[p])[k] == g[p].plans[i];
    StepForChild(g, done, c, p, k);
  }

  lemma StepsForPlans(g: Graph, done: set<Name>, c: Cache, p: Name)
    requires Acyclic(g) && p in g
    ensures StepsFor(g, p, done, Steps(g, done, c, p), g[p].plans, |g[p].dependencies|)
  {
    forall i | 0 <= i < |g[p].plans|
      ensures StepFor(g, p, done, Steps(g, done, c, p), g[p].plans[i], |g[p].dependencies| + i) {
      StepForPlan(g, done, c, p, i);
    }
  }

  /** All children fed, and then the plan itself. */
  lemma MainsLast(g: Graph, done: set<Name>, c: Cache, p: Name, n: nat)
    requires Acyclic(g) && p in g && n == |g[p].dependencies| + |g[p].plans|
    ensures n + 1 == |Steps(g, done, c, p)| && Main(g, done, Steps(g, done, c, p)[n], p) == Mains(g, done, c, Visits(g, p))
  {
    MainsJoin(g, done, c, VisitsBelow(g, p, |Children(g[p])|), [p]);
    assert [p][..0] == [];
  }

  class PlanCache {
    var seen: set<Name>
    var pending: set<Name>
    var done: set<Name>
    var given: seq<Name>

    constructor ()
      ensures Now() == Cache({}, {}, []) && done == {}
    {
      seen, pending, done, given := {}, {}, {}, [];
    }

    function Now(): Cache
      reads this
    {
      Cache(seen, pending, given)
    }

    method AreDepsComplete(g: Graph, p: Name) returns (complete: bool)
      requires p in g
      ensures complete == DepsComplete(g, done, p)
    {
      var deps := g[p].dependencies;
      for i := 0 to |deps|
        invariant forall j :: 0 <= j < i ==> deps[j] in done
      {
        if deps[i] !in done { return false; }
      }
      return true;
    }

    method EnqueueOnePlan(p: Name)
      modifies this`seen, this`given
      ensures Now() == Given(old(Now()), p)
    {
      if p in seen { return; }
      seen := seen + {p};
      given := given + [p];
    }

    method FeedPlan(g: Graph, p: Name)
      requires Acyclic(g) && p in g
      modifies this`seen, this`pending, this`given
      ensures Now() == Mains(g, done, old(Now()), Visits(g, p))
      decreases RankOf(g)(p), 1
    {
      ghost var before, d, m := Now(), done, |g[p].dependencies|;
      ghost var steps, n := Steps(g, d, before, p), m + |g[p].plans|;
      StepsForDependencies(g, d, before, p);
      StepsForPlans(g, d, before, p);
      MainsLast(g, d, before, p, n);
      FeedEach(g, p, g[p].dependencies, steps, 0, m);
      FeedEach(g, p, g[p].plans, steps, m, n);
      FeedMain(g, p);
    }

    /** What feedPlan does after its two loops. */
    method FeedMain(g: Graph, p: Name)
      requires p in g
      modifies this`seen, this`pending, this`given
      ensures Now() == Main(g, done, old(Now()), p)
    {
      var acting := RealOps(g[p]);
      var complete := AreDepsComplete(g, p);
      if |acting| > 0 && complete {
        EnqueueOnePlan(p);
      } else {
        pending := pending + {p};
      }
    }

    /** One of the two loops of feedPlan. */
    method FeedEach(g: Graph, p: Name, below: seq<Name>, ghost steps: seq<Cache>, ghost start: nat, ghost end: nat)
      requires Acyclic(g) && p in g && start + |below| == end < |steps| && StepsFor(g, p, done, steps, below, start)
      requires Now() == steps[start]
      modifies this`seen, this`pending, this`given
      ensures Now() == steps[end]
      decreases RankOf(g)(p), 0
    {
      for i := 0 to |below|
        invariant Now() == steps[start + i]
      {
        assert StepFor(g, p, done, steps, below[i], start + i);
        FeedPlan(g, below[i]);
      }
    }

    /** runPending: whatever the order of the map, the ready plans are given out and leave. */
    method RunPending(g: Graph)
      requires pending <= g.Keys
      modifies this`seen, this`pending, this`given
      ensures forall q :: q in seen <==> q in old(seen) || (q in old(pending) && DepsComplete(g, done, q))
      ensures forall q :: q in pending <==> q in old(pending) && !DepsComplete(g, done, q)
      ensures old(given) <= given && forall q :: q in given[|old(given)|..] <==> q in seen && q !in old(seen)
    {
      var todo := pending;
      while todo != {}
        invariant todo <= pending <= old(pending)
        invariant forall q :: q in old(pending) ==> (q in pending <==> q in todo || !DepsComplete(g, done, q))
        invariant forall q :: q in seen <==> q in old(seen) || (q in old(pending) && q !in todo && DepsComplete(g, done, q))
        invariant old(given) <= given && forall q :: q in given[|old(given)|..] <==> q in seen && q !in old(seen)
        decreases |todo|
      {
        var p :| p in todo;
        var complete := AreDepsComplete(g, p);
        if complete {
          ghost var before := given;
          EnqueueOnePlan(p);
          pending := pending - {p};
          TailGrows(before, given, |old(given)|, p);
        }
        todo := todo - {p};
      }
    }

    /** finishPlan: only a result with its plan set counts. */
    method FinishPlan(g: Graph, res: PoolModel.PlanResult)
      requires Acyclic(g) && (res.outcome.Succeeded? ==> res.origin in g)
      modifies this
      ensures !res.outcome.Succeeded? ==> Now() == old(Now()) && done == old(done)
      ensures res.outcome.Succeeded? ==>
                done == old(done) + {res.origin} && Now() == Mains(g, done, old(Now()), Visits(g, res.origin))
    {
      if !res.outcome.Succeeded? { return; }
      done := done + {res.origin};
      FeedPlan(g, res.origin);
    }
  }

  // ---- The same by single steps ----------------------------------------------------------------

  /** The main parts that a list of tasks still comes to. */
  ghost function Ahead(g: Graph, tasks: seq<Task>): seq<Name>
    requires Acyclic(g) && forall i :: 0 <= i < |tasks| && (tasks[i].Feed? || tasks[i].FeedMain?) ==> tasks[i].plan in g
  {
    if tasks == [] then []
    else
      (match tasks[0]
       case Feed(p) => Visits(g, p)
       case FeedMain(p) => [p]
       case _ => [])
      + Ahead(g, tasks[1..])
  }

  ghost predicate Known(g: Graph, tasks: seq<Task>) {
    forall i :: 0 <= i < |tasks| && (tasks[i].Feed? || tasks[i].FeedMain?) ==> tasks[i].plan in g
  }

  lemma {:induction false} AheadJoin(g: Graph, a: seq<Task>, b: seq<Task>)
    requires Acyclic(g) && Known(g, a) && Known(g, b)
    ensures Known(g, a + b) && Ahead(g, a + b) == Ahead(g, a) + Ahead(g, b)
  {
    if a == [] {
      assert a + b == b;
    } else {
      assert (a + b)[1..] == a[1..] + b;
      AheadJoin(g, a[1..], b);
    }
  }

  lemma {:induction false} AheadFeeds(g: Graph, p: Name, i: nat)
    requires Acyclic(g) && p in g && i <= |Children(g[p])|
    ensures Known(g, Feeds(Children(g[p])[..i])) && Ahead(g, Feeds(Children(g[p])[..i])) == VisitsBelow(g, p, i)
  {
    if i == 0 {
      assert Feeds([]) == [];
    } else {
      var cs, c := Children(g[p]), Children(g[p])[i - 1];
      AheadFeeds(g, p, i - 1);
      FeedsNext(cs, i - 1);
      assert c in cs;
      AheadFeed(g, c);
      AheadJoin(g, Feeds(cs[..i - 1]), [Feed(c)]);
    }
  }

  lemma FeedsNext(cs: seq<Name>, i: nat)
    requires i < |cs|
    ensures Feeds(cs[..i + 1]) == Feeds(cs[..i]) + [Feed(cs[i])]
  {
  }

  lemma AheadFeed(g: Graph, p: Name)
    requires Acyclic(g) && p in g
    ensures Known(g, [Feed(p)]) && Ahead(g, [Feed(p)]) == Visits(g, p)
  {
    assert [Feed(p)][1..] == [];
  }

  /** Unfolding a feedPlan call changes nothing of what lies ahead. */
  lemma FeedAgrees(g: Graph, s: State, pick: Name)
    requires Acyclic(g) && Known(g, s.feeder) && Enabled(g, s, FeederStep(pick)) && s.feeder[0].Feed?
    ensures var t := Work(g, s, pick);
            Known(g, t.feeder) && Ahead(g, t.feeder) == Ahead(g, s.feeder) && t == s.(feeder := t.feeder)
  {
    assert s.feeder[0].plan in g && Known(g, s.feeder[1..]);
    AheadUnfolds(g, s.feeder[0].plan, s.feeder[1..]);
  }

  lemma AheadMain(g: Graph, p: Name)
    requires Acyclic(g) && p in g
    ensures Known(g, [FeedMain(p)]) && Ahead(g, [FeedMain(p)]) == [p]
  {
    assert [FeedMain(p)][1..] == [];
  }

  lemma AheadChildren(g: Graph, p: Name)
    requires Acyclic(g) && p in g
    ensures Known(g, Feeds(Children(g[p]))) && Ahead(g, Feeds(Children(g[p]))) == VisitsBelow(g, p, |Children(g[p])|)
  {
    var cs := Children(g[p]);
    AheadFeeds(g, p, |cs|);
    assert cs[..|cs|] == cs;
  }

  lemma AheadUnfolds(g: Graph, p: Name, rest: seq<Task>)
    requires Acyclic(g) && p in g && Known(g, rest)
    ensures var cs := Children(g[p]);
            Known(g, Feeds(cs) + [FeedMain(p)] + rest) && Ahead(g, Feeds(cs) + [FeedMain(p)] + rest) == Visits(g, p) + Ahead(g, rest)
  {
    AheadChildren(g, p);
    AheadMain(g, p);
    AheadJoin(g, Feeds(Children(g[p])), [FeedMain(p)]);
    AheadJoin(g, Feeds(Children(g[p])) + [FeedMain(p)], rest);
  }

  /** The main part of the next plan ahead gives it to enqueueOnePlan or leaves it pending. */
  lemma MainAgrees(g: Graph, s: State, pick: Name)
    requires Acyclic(g) && Known(g, s.feeder) && Enabled(g, s, FeederStep(pick)) && s.feeder[0].FeedMain?
    ensures var t := Work(g, s, pick); var p := s.feeder[0].plan;
            && Known(g, t.feeder) && Ahead(g, s.feeder) == [p] + Ahead(g, t.feeder)
            && t == if Ready(g, s.done, p) then s.(feeder := [Enqueue(p)] + s.feeder[1..])
                    else s.(pending := s.pending + {p}, feeder := s.feeder[1..])
  {
    var rest, p := s.feeder[1..], s.feeder[0].plan;
    assert Known(g, rest);
    assert ([Enqueue(p)] + rest)[1..] == rest;
  }

  /** A plan from planStartC is fed after a call of runPending and before another; of a result only the
      successful ones are marked done and fed. */
  lemma ReceiveAgrees(g: Graph, s: State)
    requires Acyclic(g)
    ensures Enabled(g, s, ReceiveStart) && s.planStartC[0] in g ==> var t := Next(g, s, ReceiveStart);
              && t == s.(planStartC := s.planStartC[1..], feeder := t.feeder)
              && Known(g, t.feeder) && Ahead(g, t.feeder) == Visits(g, s.planStartC[0])
              && |t.feeder| == 3 && t.feeder[0] == RunPending && t.feeder[2] == RunPending
    ensures Enabled(g, s, ReceiveDone) && s.planDoneC[0].outcome.Succeeded? && s.planDoneC[0].origin in g ==> var t := Next(g, s, ReceiveDone);
              && t == s.(planDoneC := s.planDoneC[1..], done := s.done + {s.planDoneC[0].origin}, feeder := t.feeder)
              && Known(g, t.feeder) && Ahead(g, t.feeder) == Visits(g, s.planDoneC[0].origin)
              && |t.feeder| == 2 && t.feeder[1] == RunPending
    ensures Enabled(g, s, ReceiveDone) && !s.planDoneC[0].outcome.Succeeded? ==>
              Next(g, s, ReceiveDone) == s.(planDoneC := s.planDoneC[1..], feeder := [RunPending])
  {
    if Enabled(g, s, ReceiveStart) && s.planStartC[0] in g { AheadReceived(g, s.planStartC[0]); }
    if Enabled(g, s, ReceiveDone) && s.planDoneC[0].origin in g { AheadReceived(g, s.planDoneC[0].origin); }
  }

  lemma AheadReceived(g: Graph, p: Name)
    requires Acyclic(g) && p in g
    ensures Known(g, [Feed(p), RunPending]) && Ahead(g, [Feed(p), RunPending]) == Visits(g, p)
    ensures Known(g, [RunPending, Feed(p), RunPending]) && Ahead(g, [RunPending, Feed(p), RunPending]) == Visits(g, p)
  {
    assert [RunPending][1..] == [] && Ahead(g, [RunPending]) == [];
    assert [Feed(p), RunPending][1..] == [RunPending];
    assert Visits(g, p) + [] == Visits(g, p);
    assert [RunPending, Feed(p), RunPending][1..] == [Feed(p), RunPending];
  }

  /** The visits of a list of plans, one after the other. */
  ghost function VisitsOf(g: Graph, ps: seq<Name>): seq<Name>
    requires Acyclic(g) && forall i :: 0 <= i < |ps| ==> ps[i] in g
  {
    if ps == [] then [] else Visits(g, ps[0]) + VisitsOf(g, ps[1..])
  }

  lemma {:induction false} VisitsOfNext(g: Graph, ps: seq<Name>, p: Name)
    requires Acyclic(g) && p in g && forall i :: 0 <= i < |ps| ==> ps[i] in g
    ensures VisitsOf(g, ps + [p]) == VisitsOf(g, ps) + Visits(g, p)
  {
    if ps == [] {
      assert [] + [p] == [p] && [p][1..] == [];
    } else {
      assert (ps + [p])[1..] == ps[1..] + [p];
      VisitsOfNext(g, ps[1..], p);
    }
  }

  lemma {:induction false} VisitsOfJoin(g: Graph, ps: seq<Name>, qs: seq<Name>)
    requires Acyclic(g) && (forall i :: 0 <= i < |ps| ==> ps[i] in g) && forall i :: 0 <= i < |qs| ==> qs[i] in g
    ensures VisitsOf(g, ps + qs) == VisitsOf(g, ps) + VisitsOf(g, qs)
  {
    if ps == [] {
      assert [] + qs == qs;
    } else {
      assert (ps + qs)[1..] == ps[1..] + qs;
      VisitsOfJoin(g, ps[1..], qs);
    }
  }

  lemma {:induction false} VisitsBelowOf(g: Graph, p: Name, i: nat)
    requires Acyclic(g) && p in g && i <= |Children(g[p])|
    ensures forall j :: 0 <= j < i ==> Children(g[p])[j] in g
    ensures VisitsBelow(g, p, i) == VisitsOf(g, Children(g[p])[..i])
  {
    forall j | 0 <= j < i ensures Children(g[p])[j] in g { assert Children(g[p])[j] in Children(g[p]); }
    if i > 0 {
      VisitsBelowOf(g, p, i - 1);
      assert Children(g[p])[..i] == Children(g[p])[..i - 1] + [Children(g[p])[i - 1]];
      VisitsOfNext(g, Children(g[p])[..i - 1], Children(g[p])[i - 1]);
    }
  }

  /** The dependencies of a plan come first, in order, then its plans, in order, then the plan. */
  lemma VisitsParts(g: Graph, p: Name)
    requires Acyclic(g) && p in g
    ensures (forall d :: d in g[p].dependencies ==> d in g) && (forall c :: c in g[p].plans ==> c in g)
    ensures Visits(g, p) == VisitsOf(g, g[p].dependencies) + VisitsOf(g, g[p].plans) + [p]
  {
    ChildrenIn(g, p);
    VisitsBelowOf(g, p, |Children(g[p])|);
    VisitsOfJoin(g, g[p].dependencies, g[p].plans);
  }

  lemma ChildrenIn(g: Graph, p: Name)
    requires Acyclic(g) && p in g
    ensures (forall d :: d in g[p].dependencies ==> d in g) && (forall c :: c in g[p].plans ==> c in g)
    ensures Children(g[p])[..|Children(g[p])|] == g[p].dependencies + g[p].plans
  {
    forall d | d in g[p].dependencies || d in g[p].plans ensures d in g { assert d in Children(g[p]); }
  }
}
