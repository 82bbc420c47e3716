/** What every step of the executor keeps. */
module PoolInvariant {
  import opened Base
  import opened Plans
  import opened PoolModel

  // ---- Where the plans are -------------------------------------------------------------------

  function InboxOf(w: Worker): Option<Name> {
    w.inbox
  }

  /** The plan a worker has started and not yet handed over. */
  function StartedOf(w: Worker): Option<Name> {
    match w.phase
    case Idle => None
    case Running(p) => Some(p)
    case Sending(r) => Some(r.origin)
  }

  function FinishedOf(w: Worker): Option<Name> {
    if w.phase.Sending? then Some(w.phase.res.origin) else None
  }

  function Has(slot: Option<Name>, p: Name): nat {
    if slot == Some(p) then 1 else 0
  }

  function Full(slot: Option<Name>): nat {
    if slot.Some? then 1 else 0
  }

  /** How many workers hold `p` in the given place, and how many hold anything there. */
  function Tally(f: Worker -> Option<Name>, ws: seq<Worker>, p: Name): nat {
    if ws == [] then 0 else Has(f(ws[0]), p) + Tally(f, ws[1..], p)
  }

  function Occupied(f: Worker -> Option<Name>, ws: seq<Worker>): nat {
    if ws == [] then 0 else Full(f(ws[0])) + Occupied(f, ws[1..])
  }

  lemma {:induction false} TallyUpdate(f: Worker -> Option<Name>, ws: seq<Worker>, i: nat, w: Worker, p: Name)
    requires i < |ws|
    ensures Tally(f, ws[i := w], p) == Tally(f, ws, p) - Has(f(ws[i]), p) + Has(f(w), p)
    ensures Has(f(ws[i]), p) <= Tally(f, ws, p)
  {
    if i == 0 {
      assert ws[i := w][1..] == ws[1..];
    } else {
      assert ws[i := w][1..] == ws[1..][i - 1 := w];
      TallyUpdate(f, ws[1..], i - 1, w, p);
    }
  }

  lemma {:induction false} OccupiedUpdate(f: Worker -> Option<Name>, ws: seq<Worker>, i: nat, w: Worker)
    requires i < |ws|
    ensures Occupied(f, ws[i := w]) == Occupied(f, ws) - Full(f(ws[i])) + Full(f(w))
  {
    if i == 0 {
      assert ws[i := w][1..] == ws[1..];
    } else {
      assert ws[i := w][1..] == ws[1..][i - 1 := w];
      OccupiedUpdate(f, ws[1..], i - 1, w);
    }
  }

  function Origins(rs: seq<PlanResult>): (names: seq<Name>)
    ensures |names| == |rs| && forall i :: 0 <= i < |rs| ==> names[i] == rs[i].origin
  {
    seq(|rs|, i requires 0 <= i < |rs| => rs[i].origin)
  }

  /** The plan in the feeder's hand: marked seen, not yet given to a worker. */
  function Hand(feeder: seq<Task>): Option<Name> {
    if feeder != [] && (feeder[0].Scan? || feeder[0].Park?) then Some(feeder[0].plan) else None
  }

  /** In how many places `p` is: the feeder's hand, a worker's channel, a worker, the results. */
  ghost function Copies(s: State, p: Name): nat {
    Has(Hand(s.feeder), p) + Tally(InboxOf, s.workers, p) + Tally(StartedOf, s.workers, p) + multiset(Origins(s.results))[p]
  }

  ghost predicate Located(s: State) {
    forall p :: Copies(s, p) == if p in s.seen then 1 else 0
  }

  /** What the atomic counter counts. */
  ghost predicate Counted(s: State) {
    && s.n == |s.seen| - |s.results|
    && s.n == Full(Hand(s.feeder)) + Occupied(InboxOf, s.workers) + Occupied(StartedOf, s.workers)
  }

  lemma LocatedScan(g: Graph, s: State, pick: Name)
    requires Located(s) && Counted(s) && Enabled(g, s, FeederStep(pick)) && Shaped(s) && s.feeder[0].Scan?
    ensures var t := Work(g, s, pick); Located(t) && Counted(t)
  {
    var k := s.feeder[0].next;
    var t := Work(g, s, pick);
    if k < |s.workers| && s.workers[k].inbox.None? {
      LocatedPlacing(s, t, k);
    } else {
      assert forall p :: Copies(t, p) == Copies(s, p);
    }
  }

  lemma LocatedPlacing(s: State, t: State, k: nat)
    requires Located(s) && Counted(s) && s.feeder != [] && s.feeder[0].Scan? && Hand(t.feeder) == None
    requires k < |s.workers| && s.workers[k].inbox.None? && t.seen == s.seen && t.results == s.results && t.n == s.n
    requires t.workers == s.workers[k := s.workers[k].(inbox := Some(s.feeder[0].plan))]
    ensures Located(t) && Counted(t)
  {
    forall p ensures Copies(t, p) == if p in t.seen then 1 else 0 {
      assert Copies(s, p) == if p in s.seen then 1 else 0;
      TallyUpdate(InboxOf, s.workers, k, t.workers[k], p);
      TallyUpdate(StartedOf, s.workers, k, t.workers[k], p);
    }
    OccupiedUpdate(InboxOf, s.workers, k, t.workers[k]);
    OccupiedUpdate(StartedOf, s.workers, k, t.workers[k]);
  }

  lemma HandAfter(g: Graph, s: State, pick: Name)
    requires Enabled(g, s, FeederStep(pick)) && Shaped(s) && !s.feeder[0].Scan?
    ensures var t := Work(g, s, pick);
            && t.workers == s.workers && t.results == s.results
            && Hand(s.feeder) == None
            && Hand(t.feeder) == (if s.feeder[0].Enqueue? && s.feeder[0].plan !in s.seen then Some(s.feeder[0].plan) else None)
            && t.seen == s.seen + (if s.feeder[0].Enqueue? then {s.feeder[0].plan} else {})
            && t.n == s.n + Full(Hand(t.feeder))
  {
  }

  lemma LocatedWork(g: Graph, s: State, pick: Name)
    requires Located(s) && Counted(s) && Enabled(g, s, FeederStep(pick)) && Shaped(s)
    ensures var t := Work(g, s, pick); Located(t) && Counted(t)
  {
    if s.feeder[0].Scan? {
      LocatedScan(g, s, pick);
    } else {
      var t := Work(g, s, pick);
      HandAfter(g, s, pick);
      forall p ensures Copies(t, p) == if p in t.seen then 1 else 0 {
        assert Copies(s, p) == if p in s.seen then 1 else 0;
      }
    }
  }

  /** What a worker's step moves. */
  lemma WorkerMoves(g: Graph, s: State, a: Action)
    requires Enabled(g, s, a) && (a.Take? || a.Finish? || a.Gather?)
    ensures var t := Next(g, s, a); var v, w := s.workers[a.w], t.workers[a.w];
            && t.workers == s.workers[a.w := w] && t.feeder == s.feeder && t.seen == s.seen
            && Origins(t.results) == Origins(s.results) + (if a.Gather? then [v.phase.res.origin] else [])
            && t.n == s.n - |t.results| + |s.results| == s.n - (if a.Gather? then 1 else 0)
            && (a.Gather? ==> StartedOf(v) == Some(v.phase.res.origin))
            && (if a.Gather? then InboxOf(w) == InboxOf(v) && StartedOf(w) == None
                else if a.Take? then InboxOf(w) == None && StartedOf(v) == None && StartedOf(w) == InboxOf(v)
                else InboxOf(w) == InboxOf(v) && StartedOf(w) == StartedOf(v))
  {
    if a.Gather? { assert Origins(Next(g, s, a).results) == Origins(s.results) + [s.workers[a.w].phase.res.origin]; }
  }

  /** One worker changes: a plan stays with it, moves on in it, or leaves it for the results. */
  lemma LocatedMove(s: State, t: State, i: nat, w: Worker, gathered: seq<Name>)
    requires Located(s) && Counted(s) && i < |s.workers| && t.workers == s.workers[i := w] && t.feeder == s.feeder && t.seen == s.seen
    requires Origins(t.results) == Origins(s.results) + gathered && |gathered| <= 1 && t.n == s.n - |gathered| == |t.seen| - |t.results|
    requires forall p :: Has(InboxOf(w), p) + Has(StartedOf(w), p) + multiset(gathered)[p] == Has(InboxOf(s.workers[i]), p) + Has(StartedOf(s.workers[i]), p)
    requires Full(InboxOf(w)) + Full(StartedOf(w)) + |gathered| == Full(InboxOf(s.workers[i])) + Full(StartedOf(s.workers[i]))
    ensures Located(t) && Counted(t)
  {
    forall p ensures Copies(t, p) == if p in t.seen then 1 else 0 {
      assert Copies(s, p) == if p in s.seen then 1 else 0;
      TallyUpdate(InboxOf, s.workers, i, w, p);
      TallyUpdate(StartedOf, s.workers, i, w, p);
    }
    OccupiedUpdate(InboxOf, s.workers, i, w);
    OccupiedUpdate(StartedOf, s.workers, i, w);
  }

  lemma LocatedWorker(g: Graph, s: State, a: Action)
    requires Located(s) && Counted(s) && Enabled(g, s, a) && (a.Take? || a.Finish? || a.Gather?)
    ensures var t := Next(g, s, a); Located(t) && Counted(t)
  {
    var t := Next(g, s, a);
    WorkerMoves(g, s, a);
    LocatedMove(s, t, a.w, t.workers[a.w], if a.Gather? then [s.workers[a.w].phase.res.origin] else []);
  }

  lemma LocatedFrame(s: State, t: State)
    requires Located(s) && Counted(s) && t.workers == s.workers && t.results == s.results && t.seen == s.seen && t.n == s.n
    requires Hand(t.feeder) == Hand(s.feeder)
    ensures Located(t) && Counted(t)
  {
    forall p ensures Copies(t, p) == if p in t.seen then 1 else 0 {
      assert Copies(s, p) == if p in s.seen then 1 else 0;
    }
  }

  lemma LocatedStep(g: Graph, s: State, a: Action)
    requires Located(s) && Counted(s) && Enabled(g, s, a) && Shaped(s)
    ensures var t := Next(g, s, a); Located(t) && Counted(t)
  {
    if a.FeederStep? {
      LocatedWork(g, s, a.pick);
    } else if a.Take? || a.Finish? || a.Gather? {
      LocatedWorker(g, s, a);
    } else {
      LocatedFrame(s, Next(g, s, a));
    }
  }

  // ---- The feeder's call stack ---------------------------------------------------------------

  predicate Calm(t: Task) {
    t.RunPending? || t.Sweep? || t.Feed? || t.FeedMain?
  }

  ghost predicate Shaped(s: State) {
    && (forall i :: 0 < i < |s.feeder| ==> Calm(s.feeder[i]) || (i == 1 && s.feeder[i].Drop?))
    && (|s.feeder| > 0 && (s.feeder[0].Drop? || s.feeder[0].Notify? || s.feeder[0].Scan? || s.feeder[0].Park?) ==> s.feeder[0].plan in s.seen)
    && (|s.feeder| > 1 && s.feeder[1].Drop? ==>
          || s.feeder[0] == Enqueue(s.feeder[1].plan)
          || ((s.feeder[0].Scan? || s.feeder[0].Park? || s.feeder[0].Notify?) && s.feeder[1].plan in s.seen))
  }

  predicate AllCalm(ts: seq<Task>) {
    forall i :: 0 <= i < |ts| ==> Calm(ts[i])
  }

  lemma ShapedCalm(g: Graph, s: State, pick: Name)
    requires Shaped(s) && Enabled(g, s, FeederStep(pick)) && (Calm(s.feeder[0]) || s.feeder[0].Drop?) && !s.feeder[0].Feed?
    ensures Shaped(Work(g, s, pick))
  {
    var rest := s.feeder[1..];
    assert forall i :: 0 <= i < |rest| ==> rest[i] == s.feeder[i + 1];
    assert Work(g, s, pick).seen == s.seen;
  }

  lemma ShapedFeed(g: Graph, s: State, pick: Name)
    requires Shaped(s) && Enabled(g, s, FeederStep(pick)) && s.feeder[0].Feed?
    ensures Shaped(Work(g, s, pick))
  {
    var head, rest := s.feeder[0], s.feeder[1..];
    assert forall i :: 0 <= i < |rest| ==> rest[i] == s.feeder[i + 1];
    assert AllCalm(Work(g, s, pick).feeder) by { FeedsCalm(Children(g[head.plan]), head.plan, rest); }
  }

  lemma FeedsCalm(cs: seq<Name>, p: Name, rest: seq<Task>)
    requires AllCalm(rest)
    ensures AllCalm(Feeds(cs) + [FeedMain(p)] + rest)
  {
  }

  lemma ShapedPlacing(g: Graph, s: State, pick: Name)
    requires Shaped(s) && Enabled(g, s, FeederStep(pick)) && !Calm(s.feeder[0]) && !s.feeder[0].Drop?
    ensures Shaped(Work(g, s, pick))
  {
    var rest, t := s.feeder[1..], Work(g, s, pick);
    assert forall i :: 0 <= i < |rest| ==> rest[i] == s.feeder[i + 1];
    assert t.feeder == rest || (t.feeder == [t.feeder[0]] + rest && !Calm(t.feeder[0]));
  }

  lemma ShapedWork(g: Graph, s: State, pick: Name)
    requires Shaped(s) && Enabled(g, s, FeederStep(pick))
    ensures Shaped(Work(g, s, pick))
  {
    if s.feeder[0].Feed? {
      ShapedFeed(g, s, pick);
    } else if Calm(s.feeder[0]) || s.feeder[0].Drop? {
      ShapedCalm(g, s, pick);
    } else {
      ShapedPlacing(g, s, pick);
    }
  }

  lemma ShapedStep(g: Graph, s: State, a: Action)
    requires Shaped(s) && Enabled(g, s, a)
    ensures Shaped(Next(g, s, a))
  {
    if a.FeederStep? {
      ShapedWork(g, s, a.pick);
    } else if a.Wake? || a.ReceiveStart? || a.ReceiveDone? {
    } else {
      assert Next(g, s, a).feeder == s.feeder && Next(g, s, a).seen == s.seen;
    }
  }

  // ---- Names ---------------------------------------------------------------------------------

  predicate TaskIn(names: set<Name>, t: Task) {
    match t
    case RunPending => true
    case Sweep(todo) => todo <= names
    case _ => t.plan in names
  }

  /** Only plans reachable from the root are ever handled. */
  ghost predicate Named(names: set<Name>, s: State) {
    && s.seen <= names && s.pending <= names
    && (forall t :: t in s.feeder ==> TaskIn(names, t))
    && (forall p :: p in s.planStartC ==> p in names)
  }

  lemma InSeen(s: State, p: Name)
    requires Located(s)
    requires Hand(s.feeder) == Some(p) || Tally(InboxOf, s.workers, p) > 0 || Tally(StartedOf, s.workers, p) > 0 || p in Origins(s.results)
    ensures p in s.seen
  {
    assert Copies(s, p) > 0;
  }

  lemma NamedWork(g: Graph, names: set<Name>, s: State, pick: Name)
    requires Named(names, s) && Closed(g, names) && Enabled(g, s, FeederStep(pick))
    ensures Named(names, Work(g, s, pick))
  {
    var t := Work(g, s, pick);
    var head := s.feeder[0];
    assert TaskIn(names, head);
    if head.Feed? {
      forall u | u in Feeds(Children(g[head.plan])) ensures TaskIn(names, u) {
        assert u.plan in Children(g[head.plan]);
      }
    }
    assert forall u :: u in s.feeder[1..] ==> TaskIn(names, u);
  }

  lemma NamedStep(g: Graph, names: set<Name>, s: State, a: Action)
    requires Named(names, s) && Closed(g, names) && Located(s) && Delivered(s) && Enabled(g, s, a)
    ensures Named(names, Next(g, s, a))
  {
    var t := Next(g, s, a);
    if a.FeederStep? {
      NamedWork(g, names, s, a.pick);
    } else if a.ReceiveDone? {
      var r := s.planDoneC[0];
      assert r in s.results;
      var k :| 0 <= k < |s.results| && s.results[k] == r;
      assert Origins(s.results)[k] == r.origin;
      InSeen(s, r.origin);
    } else if a.ReceiveStart? || a.Wake? {
      assert a.Wake? && s.feeder != [] ==> TaskIn(names, s.feeder[0]);
    } else {
      assert t.feeder == s.feeder && t.seen == s.seen && t.pending == s.pending && t.planStartC == s.planStartC;
    }
  }

  // ---- Results reach the feeder ----------------------------------------------------------------

  ghost predicate Delivered(s: State) {
    && (forall r :: r in s.planDoneC ==> r in s.results)
    && (s.gatherer.Delivering? ==> s.gatherer.res in s.results)
    && (forall r :: r in s.results && r.outcome.Succeeded? ==>
          r.origin in s.done || r in s.planDoneC || s.gatherer.Panicked? || (s.gatherer.Delivering? && s.gatherer.res == r))
    && (forall p :: p in s.done ==> PlanResult(p, Succeeded) in s.results)
  }

  lemma DeliveredStep(g: Graph, s: State, a: Action)
    requires Delivered(s) && Enabled(g, s, a)
    ensures Delivered(Next(g, s, a))
  {
    var t := Next(g, s, a);
    if a.FeederStep? {
      WorkFrame(g, s, a.pick);
      DeliveredFrame(s, t);
    } else if a.ReceiveDone? {
      assert s.planDoneC == [s.planDoneC[0]] + t.planDoneC;
    } else if a.ReceiveStart? || a.Take? || a.Finish? {
      DeliveredFrame(s, t);
    }
  }

  lemma DeliveredFrame(s: State, t: State)
    requires Delivered(s) && t.results == s.results && t.planDoneC == s.planDoneC && t.done == s.done && t.gatherer == s.gatherer
    ensures Delivered(t)
  {
  }

  // ---- Dependencies first ----------------------------------------------------------------------

  /** A plan is only ever marked seen when all it depends on has succeeded. */
  ghost predicate DepsDone(g: Graph, s: State) {
    && (forall p :: p in s.seen ==> DepsComplete(g, s.done, p))
    && (s.feeder != [] && s.feeder[0].Enqueue? ==> DepsComplete(g, s.done, s.feeder[0].plan))
  }

  lemma DepsDoneStep(g: Graph, s: State, a: Action)
    requires DepsDone(g, s) && Shaped(s) && Enabled(g, s, a)
    ensures DepsDone(g, Next(g, s, a))
  {
  }

  /** The results are gathered in dependency order. */
  lemma ResultsOrderedStep(g: Graph, s: State, a: Action)
    requires DepsBefore(g, Origins(s.results)) && DepsDone(g, s) && Located(s) && Delivered(s) && Enabled(g, s, a)
    ensures DepsBefore(g, Origins(Next(g, s, a).results))
  {
    var t := Next(g, s, a);
    if a.Gather? {
      var p := s.workers[a.w].phase.res.origin;
      TallyUpdate(StartedOf, s.workers, a.w, s.workers[a.w], p);
      InSeen(s, p);
      var before, after := Origins(s.results), Origins(t.results);
      assert after == before + [p];
      forall i, d | 0 <= i < |after| && after[i] in g && d in g[after[i]].dependencies ensures d in after[..i] {
        if i < |before| {
          assert after[..i] == before[..i];
        } else {
          assert after[..i] == before;
          var k :| 0 <= k < |s.results| && s.results[k] == PlanResult(d, Succeeded);
          assert before[k] == d;
        }
      }
    }
  }

  // ---- The log of executions -------------------------------------------------------------------

  function Starts(log: seq<Event>, p: Name): nat {
    if log == [] then 0 else Starts(log[..|log| - 1], p) + if log[|log| - 1] == Started(p) then 1 else 0
  }

  function Ends(log: seq<Event>, p: Name): nat {
    if log == [] then 0
    else Ends(log[..|log| - 1], p) + if log[|log| - 1].Finished? && log[|log| - 1].plan == p then 1 else 0
  }

  /** Executions begin after everything they depend on directly has ended in success. */
  ghost predicate LogOrdered(g: Graph, log: seq<Event>) {
    && (forall k, d :: 0 <= k < |log| && log[k].Started? && log[k].plan in g && d in g[log[k].plan].dependencies ==>
          Finished(d, Succeeded) in log[..k])
    && (forall k :: 0 <= k < |log| && log[k].Finished? ==> Started(log[k].plan) in log[..k])
  }

  ghost predicate LogCounts(s: State) {
    && (forall p :: Starts(s.log, p) == Tally(StartedOf, s.workers, p) + multiset(Origins(s.results))[p])
    && (forall p :: Ends(s.log, p) == Tally(FinishedOf, s.workers, p) + multiset(Origins(s.results))[p])
  }

  ghost predicate Logged(s: State) {
    && (forall w :: 0 <= w < |s.workers| && s.workers[w].phase.Running? ==> Started(s.workers[w].phase.plan) in s.log)
    && (forall w :: 0 <= w < |s.workers| && s.workers[w].phase.Sending? ==>
          Finished(s.workers[w].phase.res.origin, s.workers[w].phase.res.outcome) in s.log)
    && (forall r :: r in s.results ==> Finished(r.origin, r.outcome) in s.log)
  }

  lemma LoggedStep(g: Graph, s: State, a: Action)
    requires Logged(s) && Enabled(g, s, a)
    ensures Logged(Next(g, s, a))
  {
    var t := Next(g, s, a);
    if a.Gather? {
      assert Finished(s.workers[a.w].phase.res.origin, s.workers[a.w].phase.res.outcome) in s.log;
    }
  }

  lemma LogCountsStep(g: Graph, s: State, a: Action)
    requires LogCounts(s) && Enabled(g, s, a)
    ensures LogCounts(Next(g, s, a))
  {
    var t := Next(g, s, a);
    if a.Gather? {
      LogCountsGather(g, s, a.w);
    } else if a.Take? || a.Finish? {
      LogCountsEvent(g, s, a);
    } else if a.FeederStep? {
      LogCountsWork(g, s, a.pick);
    } else {
      assert t.log == s.log && t.workers == s.workers && t.results == s.results;
    }
  }

  lemma LogCountsWork(g: Graph, s: State, pick: Name)
    requires LogCounts(s) && Enabled(g, s, FeederStep(pick))
    ensures LogCounts(Work(g, s, pick))
  {
    var t := Work(g, s, pick);
    WorkFrame(g, s, pick);
    if t.workers != s.workers {
      var k := s.feeder[0].next;
      var filled := s.workers[k].(inbox := Some(s.feeder[0].plan));
      assert t.workers == s.workers[k := filled];
      forall p ensures Tally(StartedOf, t.workers, p) == Tally(StartedOf, s.workers, p)
                    && Tally(FinishedOf, t.workers, p) == Tally(FinishedOf, s.workers, p) {
        TallyUpdate(StartedOf, s.workers, k, filled, p);
        TallyUpdate(FinishedOf, s.workers, k, filled, p);
      }
    }
  }

  lemma LogCountsGather(g: Graph, s: State, w: nat)
    requires LogCounts(s) && Enabled(g, s, Gather(w))
    ensures LogCounts(Next(g, s, Gather(w)))
  {
    var t := Next(g, s, Gather(w));
    var idle := s.workers[w].(phase := Idle);
    assert t.workers == s.workers[w := idle] && t.log == s.log;
    assert Origins(t.results) == Origins(s.results) + [s.workers[w].phase.res.origin];
    forall p ensures Starts(t.log, p) == Tally(StartedOf, t.workers, p) + multiset(Origins(t.results))[p]
                  && Ends(t.log, p) == Tally(FinishedOf, t.workers, p) + multiset(Origins(t.results))[p] {
      TallyUpdate(StartedOf, s.workers, w, idle, p);
      TallyUpdate(FinishedOf, s.workers, w, idle, p);
    }
  }

  lemma LogCountsEvent(g: Graph, s: State, a: Action)
    requires LogCounts(s) && Enabled(g, s, a) && (a.Take? || a.Finish?)
    ensures LogCounts(Next(g, s, a))
  {
    var t := Next(g, s, a);
    var wrk := t.workers[a.w];
    assert t.workers == s.workers[a.w := wrk] && t.results == s.results;
    assert t.log[..|t.log| - 1] == s.log;
    forall p ensures Starts(t.log, p) == Tally(StartedOf, t.workers, p) + multiset(Origins(t.results))[p]
                  && Ends(t.log, p) == Tally(FinishedOf, t.workers, p) + multiset(Origins(t.results))[p] {
      TallyUpdate(StartedOf, s.workers, a.w, wrk, p);
      TallyUpdate(FinishedOf, s.workers, a.w, wrk, p);
    }
  }

  lemma LogOrderedStep(g: Graph, s: State, a: Action)
    requires LogOrdered(g, s.log) && Logged(s) && DepsDone(g, s) && Located(s) && Delivered(s) && Enabled(g, s, a)
    ensures LogOrdered(g, Next(g, s, a).log)
  {
    var t := Next(g, s, a);
    if a.Take? {
      var p := s.workers[a.w].inbox.value;
      TallyUpdate(InboxOf, s.workers, a.w, s.workers[a.w], p);
      InSeen(s, p);
      forall d | d in g[p].dependencies ensures Finished(d, Succeeded) in s.log {
        assert PlanResult(d, Succeeded) in s.results;
      }
    }
    if |t.log| > |s.log| {
      assert t.log[..|s.log|] == s.log;
      assert forall k :: 0 <= k <= |s.log| ==> t.log[..k] == s.log[..k];
    }
  }
}
