/** What holds of every run of the executor, for every acyclic plan graph, worker count and
    interleaving. */
module PoolSafety {
  import opened Base
  import opened Plans
  import opened PoolModel
  import opened PoolInvariant
  import opened PoolCoverage

  ghost predicate Inv(g: Graph, root: Name, s: State)
    requires Acyclic(g) && root in g
  {
    && Shaped(s) && Named(Reachable(g, root), s)
    && Located(s) && Counted(s) && Delivered(s) && Honest(g, s)
    && DepsDone(g, s) && DepsBefore(g, Origins(s.results))
    && LogCounts(s) && Logged(s) && LogOrdered(g, s.log)
    && Covered(g, root, s) && Swept(g, s) && Sealed(s)
    && StartQueued(root, s) && DoneQueued(s)
  }

  /** A plan without acting operations never counts as a success. */
  ghost predicate Honest(g: Graph, s: State) {
    && (forall r :: r in s.results ==> MayEnd(g, r.origin, r.outcome))
    && (forall w :: 0 <= w < |s.workers| && s.workers[w].phase.Sending? ==>
          MayEnd(g, s.workers[w].phase.res.origin, s.workers[w].phase.res.outcome))
  }

  lemma HonestStep(g: Graph, s: State, a: Action)
    requires Honest(g, s) && Enabled(g, s, a)
    ensures Honest(g, Next(g, s, a))
  {
  }

  lemma {:induction false} IdleWorkers(ws: seq<Worker>, p: Name)
    requires forall i :: 0 <= i < |ws| ==> ws[i] == Worker(None, Idle)
    ensures Tally(InboxOf, ws, p) == Tally(StartedOf, ws, p) == Tally(FinishedOf, ws, p) == 0
    ensures Occupied(InboxOf, ws) == Occupied(StartedOf, ws) == 0
  {
    if ws != [] { IdleWorkers(ws[1..], p); }
  }

  lemma CountsInit(s: State, conc: nat, root: Name)
    requires s == Init(conc, root)
    ensures Located(s) && Counted(s) && LogCounts(s) && DoneQueued(s) && StartQueued(root, s)
  {
    forall p { IdleWorkers(s.workers, p); }
    IdleWorkers(s.workers, root);
    assert Origins(s.results) == [] && Origins(s.planDoneC) == [];
  }

  lemma InvInit(g: Graph, root: Name, conc: nat)
    requires Acyclic(g) && root in g
    ensures Inv(g, root, Init(conc, root))
  {
    CountsInit(Init(conc, root), conc, root);
    ReachableIsClosed(g, root);
    assert Origins([]) == [];
  }

  lemma InvStep(g: Graph, root: Name, s: State, a: Action)
    requires Acyclic(g) && root in g && Inv(g, root, s) && Enabled(g, s, a)
    ensures Inv(g, root, Next(g, s, a))
  {
    ReachableIsClosed(g, root);
    ShapedStep(g, s, a);
    NamedStep(g, Reachable(g, root), s, a);
    LocatedStep(g, s, a);
    DeliveredStep(g, s, a);
    HonestStep(g, s, a);
    DepsDoneStep(g, s, a);
    ResultsOrderedStep(g, s, a);
    LogCountsStep(g, s, a);
    LoggedStep(g, s, a);
    LogOrderedStep(g, s, a);
    CoveredStep(g, root, s, a);
    SweptStep(g, s, a);
    SealedStep(g, s, a);
    StartQueuedStep(g, root, s, a);
    DoneQueuedStep(g, s, a);
  }

  lemma WorkersKept(g: Graph, s: State, a: Action)
    requires Enabled(g, s, a)
    ensures |Next(g, s, a).workers| == |s.workers|
  {
  }

  lemma {:induction false} InvAfter(g: Graph, root: Name, s: State, run: seq<Action>)
    requires Acyclic(g) && root in g && Inv(g, root, s) && Legal(g, s, run)
    ensures Inv(g, root, After(g, s, run)) && |After(g, s, run).workers| == |s.workers|
    decreases |run|
  {
    if run != [] {
      InvStep(g, root, s, run[0]);
      WorkersKept(g, s, run[0]);
      InvAfter(g, root, Next(g, s, run[0]), run[1..]);
    }
  }

  /** `s` can occur in a run of Execute on `root` with `conc` workers. */
  ghost predicate Occurs(g: Graph, root: Name, conc: nat, s: State) {
    exists run :: Legal(g, Init(conc, root), run) && After(g, Init(conc, root), run) == s
  }

  lemma InvOccurs(g: Graph, root: Name, conc: nat, s: State)
    requires Acyclic(g) && root in g && Occurs(g, root, conc, s)
    ensures Inv(g, root, s) && |s.workers| == conc
  {
    var run :| Legal(g, Init(conc, root), run) && After(g, Init(conc, root), run) == s;
    InvInit(g, root, conc);
    InvAfter(g, root, Init(conc, root), run);
  }

  // ---- Dependencies ----------------------------------------------------------------------------

  /** execute.go's second promise: all that a plan depends on, directly or not, has succeeded
      before it starts. */
  lemma StartsAfterNeeds(g: Graph, root: Name, conc: nat, s: State, k: nat, p: Name, q: Name)
    requires Acyclic(g) && root in g && Occurs(g, root, conc, s)
    requires k < |s.log| && s.log[k] == Started(p) && p in g && q in Needs(g, p)
    ensures Finished(q, Succeeded) in s.log[..k]
  {
    InvOccurs(g, root, conc, s);
    LogNeeds(g, s.log, k, p, q);
  }

  lemma {:induction false} LogNeeds(g: Graph, log: seq<Event>, k: nat, p: Name, q: Name)
    requires Acyclic(g) && LogOrdered(g, log)
    requires k < |log| && log[k] == Started(p) && p in g && q in Needs(g, p)
    ensures Finished(q, Succeeded) in log[..k]
    decreases RankOf(g)(p)
  {
    var d :| d in g[p].dependencies && d in Children(g[p]) && (q == d || q in Needs(g, d));
    assert Finished(d, Succeeded) in log[..k];
    var j :| 0 <= j < k && log[j] == Finished(d, Succeeded);
    if q != d {
      assert Started(d) in log[..j];
      var i :| 0 <= i < j && log[i] == Started(d);
      LogNeeds(g, log, i, d, q);
      assert log[..i] <= log[..k];
    }
  }

  /** execute.go's first promise: no plan is started twice, or ends twice. */
  lemma RunsOnce(g: Graph, root: Name, conc: nat, s: State, p: Name)
    requires Acyclic(g) && root in g && Occurs(g, root, conc, s)
    ensures Starts(s.log, p) <= (if p in s.seen then 1 else 0)
    ensures Ends(s.log, p) <= Starts(s.log, p)
  {
    InvOccurs(g, root, conc, s);
    assert Copies(s, p) == if p in s.seen then 1 else 0;
    FinishedWithinStarted(s.workers, p);
  }

  lemma {:induction false} FinishedWithinStarted(ws: seq<Worker>, p: Name)
    ensures Tally(FinishedOf, ws, p) <= Tally(StartedOf, ws, p)
  {
    if ws != [] { FinishedWithinStarted(ws[1..], p); }
  }

  lemma {:induction false} TwoEnds(log: seq<Event>, p: Name, i: nat, j: nat)
    requires i < |log| && j < |log| && i != j
    requires log[i].Finished? && log[i].plan == p && log[j].Finished? && log[j].plan == p
    ensures Ends(log, p) >= 2
    decreases |log|
  {
    var m := |log| - 1;
    if i == m { OneEnd(log[..m], p, j); }
    else if j == m { OneEnd(log[..m], p, i); }
    else { TwoEnds(log[..m], p, i, j); }
  }

  lemma {:induction false} OneEnd(log: seq<Event>, p: Name, i: nat)
    requires i < |log| && log[i].Finished? && log[i].plan == p
    ensures Ends(log, p) >= 1
    decreases |log|
  {
    if i != |log| - 1 { OneEnd(log[..|log| - 1], p, i); }
  }

  /** A plan and one it depends on never run at the same time: every ending of the dependency
      comes before the start. Hence nothing that depends on a failed plan starts. */
  lemma NeverOverlap(g: Graph, root: Name, conc: nat, s: State, k: nat, i: nat, p: Name, q: Name)
    requires Acyclic(g) && root in g && Occurs(g, root, conc, s)
    requires k < |s.log| && s.log[k] == Started(p) && p in g && q in Needs(g, p)
    requires i < |s.log| && s.log[i].Finished? && s.log[i].plan == q
    ensures i < k && s.log[i].outcome == Succeeded
  {
    InvOccurs(g, root, conc, s);
    LogNeeds(g, s.log, k, p, q);
    var j :| 0 <= j < k && s.log[j] == Finished(q, Succeeded);
    if i != j {
      TwoEnds(s.log, q, i, j);
      RunsOnce(g, root, conc, s, q);
      assert false;
    }
  }

  /** The names of the plans in the order their executions ended. */
  function EndOrder(log: seq<Event>): seq<Name> {
    if log == [] then []
    else EndOrder(log[..|log| - 1]) + if log[|log| - 1].Finished? then [log[|log| - 1].plan] else []
  }

  lemma {:induction false} EndOrderHas(log: seq<Event>, k: nat)
    requires k < |log| && log[k].Finished?
    ensures log[k].plan in EndOrder(log)
    decreases |log|
  {
    if k < |log| - 1 { EndOrderHas(log[..|log| - 1], k); }
  }

  lemma LogOrderedPrefix(g: Graph, log: seq<Event>, m: nat)
    requires LogOrdered(g, log) && m <= |log|
    ensures LogOrdered(g, log[..m])
  {
    assert forall k :: 0 <= k <= m ==> log[..m][..k] == log[..k];
  }

  lemma {:induction false} EndOrderOrdered(g: Graph, log: seq<Event>)
    requires LogOrdered(g, log)
    ensures DepsBefore(g, EndOrder(log))
    decreases |log|
  {
    if log != [] {
      var m := |log| - 1;
      LogOrderedPrefix(g, log, m);
      EndOrderOrdered(g, log[..m]);
      if log[m].Finished? {
        var p := log[m].plan;
        forall d | p in g && d in g[p].dependencies ensures d in EndOrder(log[..m]) {
          EndsAfterDependency(g, log, m, d);
        }
        AppendOrdered(g, EndOrder(log[..m]), p);
      } else {
        assert EndOrder(log) == EndOrder(log[..m]);
      }
    }
  }

  lemma EndsAfterDependency(g: Graph, log: seq<Event>, m: nat, d: Name)
    requires LogOrdered(g, log) && m < |log| && log[m].Finished? && log[m].plan in g && d in g[log[m].plan].dependencies
    ensures d in EndOrder(log[..m])
  {
    assert Started(log[m].plan) in log[..m];
    var j :| 0 <= j < m && log[j] == Started(log[m].plan);
    assert Finished(d, Succeeded) in log[..j];
    var e :| 0 <= e < j && log[e] == Finished(d, Succeeded);
    EndOrderHas(log[..m], e);
  }

  lemma AppendOrdered(g: Graph, order: seq<Name>, p: Name)
    requires DepsBefore(g, order) && (p in g ==> forall d :: d in g[p].dependencies ==> d in order)
    ensures DepsBefore(g, order + [p])
  {
    var after := order + [p];
    forall i, d | 0 <= i < |after| && after[i] in g && d in g[after[i]].dependencies ensures d in after[..i] {
      assert after[..i] == order[..i];
      if i == |order| { assert order[..i] == order; }
    }
  }

  /** Executions end, and results are gathered, in an order the resolver would accept. */
  lemma OrderRespectsDependencies(g: Graph, root: Name, conc: nat, s: State)
    requires Acyclic(g) && root in g && Occurs(g, root, conc, s)
    ensures DepsBefore(g, EndOrder(s.log)) && DepsBefore(g, Origins(s.results))
  {
    InvOccurs(g, root, conc, s);
    EndOrderOrdered(g, s.log);
  }

  // ---- The counter and the Result --------------------------------------------------------------

  lemma {:induction false} OccupiedBound(f: Worker -> Option<Name>, ws: seq<Worker>)
    ensures Occupied(f, ws) <= |ws|
  {
    if ws != [] { OccupiedBound(f, ws[1..]); }
  }

  /** The counter is the number of plans seen and not yet gathered, at most one per worker, one per
      worker channel and one in the feeder's hand; no plan is gathered twice or before it is seen. */
  lemma CounterConserves(g: Graph, root: Name, conc: nat, s: State)
    requires Acyclic(g) && root in g && Occurs(g, root, conc, s)
    ensures s.n == |s.seen| - |s.results| && 0 <= s.n <= 2 * conc + 1
    ensures multiset(Origins(s.results)) <= multiset(s.seen)
  {
    InvOccurs(g, root, conc, s);
    OccupiedBound(InboxOf, s.workers);
    OccupiedBound(StartedOf, s.workers);
    forall p ensures multiset(Origins(s.results))[p] <= multiset(s.seen)[p] {
      assert Copies(s, p) == if p in s.seen then 1 else 0;
    }
  }

  /** A Result is emitted only after the counter was zero, and it then holds exactly one entry for
      each plan that had been seen at that moment. */
  lemma EmittedExactly(g: Graph, root: Name, conc: nat, s: State)
    requires Acyclic(g) && root in g && Occurs(g, root, conc, s) && s.emitted.Some?
    ensures s.sealed.Some? && s.sealed.value <= s.seen && s.emitted.value == s.results
    ensures multiset(Origins(s.emitted.value)) == multiset(s.sealed.value)
  {
    InvOccurs(g, root, conc, s);
  }

  /** `sealed` is what its name says: it is set by the step that brings the counter to zero. */
  lemma SealedAtZero(g: Graph, s: State, a: Action)
    requires Enabled(g, s, a)
    ensures var t := Next(g, s, a); t.sealed != s.sealed ==> a.Gather? && t.n == 0 && t.sealed == Some(t.seen)
    ensures a.Gather? && Next(g, s, a).n == 0 ==> Next(g, s, a).sealed == Some(s.seen)
  {
    if a.FeederStep? { WorkFrame(g, s, a.pick); }
  }

  // ---- No plan is forgotten --------------------------------------------------------------------

  /** The feeder has taken the root and waits for a message. */
  predicate FeederWaits(root: Name, s: State) {
    s.feeder == [] && (s.planStartC == [root] ==> s.seen != {})
  }

  lemma WaitsCovered(g: Graph, root: Name, conc: nat, s: State, p: Name)
    requires Acyclic(g) && root in g && Occurs(g, root, conc, s) && FeederWaits(root, s) && p in Reachable(g, root)
    ensures p in s.seen || (p in s.pending && !DepsComplete(g, s.done, p))
  {
    InvOccurs(g, root, conc, s);
    assert Accounted(g, s, p);
  }

  /** If every plan seen so far has been processed as a success while the feeder waits, then every
      reachable plan has run. */
  lemma {:induction false} NothingForgotten(g: Graph, root: Name, conc: nat, s: State, p: Name)
    requires Acyclic(g) && root in g && Occurs(g, root, conc, s) && FeederWaits(root, s) && s.seen <= s.done
    requires p in Reachable(g, root)
    ensures p in s.seen && PlanResult(p, Succeeded) in s.results
    decreases RankOf(g)(p)
  {
    InvOccurs(g, root, conc, s);
    ReachableIsClosed(g, root);
    WaitsCovered(g, root, conc, s, p);
    if p !in s.seen {
      forall d | d in g[p].dependencies ensures d in s.done {
        assert d in Children(g[p]);
        NothingForgotten(g, root, conc, s, d);
      }
      assert false;
    }
  }

  /** Nothing is under way. */
  predicate Quiescent(root: Name, s: State) {
    && FeederWaits(root, s) && s.planDoneC == [] && !s.gatherer.Delivering? && !s.gatherer.Panicked?
    && forall w :: 0 <= w < |s.workers| ==> s.workers[w] == Worker(None, Idle)
  }

  /** At rest a reachable plan has run if and only if everything it depends on, directly or not, has
      succeeded. */
  lemma RestExactly(g: Graph, root: Name, conc: nat, s: State, p: Name)
    requires Acyclic(g) && root in g && Occurs(g, root, conc, s) && Quiescent(root, s) && p in Reachable(g, root)
    ensures p in g
    ensures p in Origins(s.results) <==> forall q :: q in Needs(g, p) ==> PlanResult(q, Succeeded) in s.results
  {
    InvOccurs(g, root, conc, s);
    ReachableIsClosed(g, root);
    WaitsCovered(g, root, conc, s, p);
    IdleWorkers(s.workers, p);
    assert Copies(s, p) == if p in s.seen then 1 else 0;
    if p in s.seen {
      forall q | q in Needs(g, p) ensures PlanResult(q, Succeeded) in s.results {
        SeenNeeds(g, s, p, q);
      }
    } else {
      var d :| d in g[p].dependencies && d !in s.done;
      assert d in Children(g[p]) && d in Needs(g, p);
      assert PlanResult(d, Succeeded) !in s.results;
    }
  }

  lemma {:induction false} SeenNeeds(g: Graph, s: State, p: Name, q: Name)
    requires Acyclic(g) && Located(s) && DepsDone(g, s) && Delivered(s) && p in s.seen && p in g && q in Needs(g, p)
    ensures q in s.done && PlanResult(q, Succeeded) in s.results
    decreases RankOf(g)(p)
  {
    var d :| d in g[p].dependencies && d in Children(g[p]) && (q == d || q in Needs(g, d));
    if q != d {
      var k :| 0 <= k < |s.results| && s.results[k] == PlanResult(d, Succeeded);
      assert Origins(s.results)[k] == d;
      InSeen(s, d);
      SeenNeeds(g, s, d, q);
    }
  }

  /** A dependency without acting operations is never marked done, so nothing above it ever starts. */
  lemma EmptyDependencyBlocks(g: Graph, root: Name, conc: nat, s: State, p: Name, q: Name)
    requires Acyclic(g) && root in g && Occurs(g, root, conc, s)
    requires p in g && q in Needs(g, p) && q in g && !HasRealOps(g[q])
    ensures p !in s.seen && Started(p) !in s.log
  {
    InvOccurs(g, root, conc, s);
    if p in s.seen {
      SeenNeeds(g, s, p, q);
      assert false;
    }
    if Started(p) in s.log {
      var k :| 0 <= k < |s.log| && s.log[k] == Started(p);
      StartsAfterNeeds(g, root, conc, s, k, p, q);
      assert Finished(q, Succeeded) in s.log;
      RunsOnce(g, root, conc, s, p);
      OneStart(s.log, p, k);
      assert false;
    }
  }

  lemma {:induction false} OneStart(log: seq<Event>, p: Name, i: nat)
    requires i < |log| && log[i] == Started(p)
    ensures Starts(log, p) >= 1
    decreases |log|
  {
    if i != |log| - 1 { OneStart(log[..|log| - 1], p, i); }
  }

  // ---- Queue bounds ----------------------------------------------------------------------------

  lemma WithinSize<T>(xs: seq<T>, ys: seq<T>)
    requires multiset(xs) <= multiset(ys)
    ensures |xs| <= |ys|
  {
    assert multiset(ys) == multiset(xs) + (multiset(ys) - multiset(xs));
    assert |multiset(ys)| == |multiset(xs)| + |multiset(ys) - multiset(xs)|;
  }

  /** However often plans are fed again, planStartC never holds more than the reachable plans. */
  lemma StartBounded(g: Graph, root: Name, conc: nat, s: State)
    requires Acyclic(g) && root in g && Occurs(g, root, conc, s)
    ensures |s.planStartC| + Full(Unnotified(s.feeder)) <= |Reachable(g, root)|
  {
    InvOccurs(g, root, conc, s);
    ReachableIsClosed(g, root);
    if Unfed(root, s) {
      Subsets({root}, Reachable(g, root));
    } else {
      StartOnce(s);
      Subsets(s.seen, Reachable(g, root));
    }
  }

  lemma StartOnce(s: State)
    requires NotifiedOnce(s)
    ensures |s.planStartC| + Full(Unnotified(s.feeder)) <= |s.seen|
  {
    forall p ensures multiset(s.planStartC)[p] + Has(Unnotified(s.feeder), p) <= if p in s.seen then 1 else 0 {
      assert OnceAt(s, p);
    }
    QueuedOnce(s.planStartC, Unnotified(s.feeder), s.seen);
  }

  /** A queue and a slot that together hold each member of a set at most once. */
  lemma QueuedOnce(queue: seq<Name>, slot: Option<Name>, s: set<Name>)
    requires forall p :: multiset(queue)[p] + Has(slot, p) <= if p in s then 1 else 0
    ensures |queue| + Full(slot) <= |s|
  {
    var all := queue + if slot.Some? then [slot.value] else [];
    forall p ensures multiset(all)[p] <= multiset(s)[p] {
      assert multiset(queue)[p] + Has(slot, p) <= if p in s then 1 else 0;
    }
    WithinSet(all, s);
  }

  /** The same for planDoneC, together with the result about to be sent on it. */
  lemma DoneBounded(g: Graph, root: Name, conc: nat, s: State)
    requires Acyclic(g) && root in g && Occurs(g, root, conc, s)
    ensures |s.planDoneC| + Full(Undelivered(s.gatherer)) <= |Reachable(g, root)|
  {
    InvOccurs(g, root, conc, s);
    CounterConserves(g, root, conc, s);
    Subsets(s.seen, Reachable(g, root));
    QueuedWithin(Origins(s.planDoneC), Undelivered(s.gatherer), Origins(s.results));
  }

  lemma QueuedWithin(queue: seq<Name>, slot: Option<Name>, xs: seq<Name>)
    requires forall p :: multiset(queue)[p] + Has(slot, p) <= multiset(xs)[p]
    ensures |queue| + Full(slot) <= |xs|
  {
    var out := queue + if slot.Some? then [slot.value] else [];
    forall p ensures multiset(out)[p] <= multiset(xs)[p] {
      assert multiset(queue)[p] + Has(slot, p) <= multiset(xs)[p];
    }
    WithinSize(out, xs);
  }

  lemma Subsets<T>(a: set<T>, b: set<T>)
    requires a <= b
    ensures |a| <= |b|
  {
    assert b == a + (b - a);
  }

  lemma WithinSet<T>(xs: seq<T>, s: set<T>)
    requires multiset(xs) <= multiset(s)
    ensures |xs| <= |s|
  {
    assert multiset(s) == multiset(xs) + (multiset(s) - multiset(xs));
    assert |multiset(s)| == |multiset(xs)| + |multiset(s) - multiset(xs)|;
  }

  /** With at most 100 plans the sends on planStartC and planDoneC never find the channel full:
      the feeder is not blocked there, and the gatherer's panic cannot happen. */
  lemma {:induction false} NeverFull(g: Graph, root: Name, conc: nat, run: seq<Action>)
    requires Acyclic(g) && root in g && |Reachable(g, root)| <= QUEUE_SIZE && Legal(g, Init(conc, root), run)
    ensures var s := After(g, Init(conc, root), run);
            && !s.gatherer.Panicked?
            && (s.feeder != [] && s.feeder[0].Notify? ==> |s.planStartC| < QUEUE_SIZE)
            && (s.gatherer.Delivering? ==> |s.planDoneC| < QUEUE_SIZE)
    decreases |run|
  {
    var s := After(g, Init(conc, root), run);
    StartBounded(g, root, conc, s);
    DoneBounded(g, root, conc, s);
    if run != [] {
      var m := |run| - 1;
      LegalPrefix(g, Init(conc, root), run, m);
      NeverFull(g, root, conc, run[..m]);
      PanicsWhenFull(g, After(g, Init(conc, root), run[..m]), run[m]);
    }
  }

  lemma PanicsWhenFull(g: Graph, s: State, a: Action)
    requires Enabled(g, s, a) && !s.gatherer.Panicked? && (s.gatherer.Delivering? ==> |s.planDoneC| < QUEUE_SIZE)
    ensures !Next(g, s, a).gatherer.Panicked?
  {
    if a.FeederStep? { WorkFrame(g, s, a.pick); }
  }

  lemma {:induction false} LegalPrefix(g: Graph, s: State, run: seq<Action>, m: nat)
    requires Legal(g, s, run) && m < |run| && m == |run| - 1
    ensures Legal(g, s, run[..m]) && Enabled(g, After(g, s, run[..m]), run[m])
    ensures After(g, s, run) == Next(g, After(g, s, run[..m]), run[m])
    decreases |run|
  {
    if m > 0 {
      LegalPrefix(g, Next(g, s, run[0]), run[1..], m - 1);
      assert run[..m][1..] == run[1..][..m - 1];
      assert run[..m][0] == run[0];
    }
  }
}
