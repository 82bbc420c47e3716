/** No plan is forgotten, the queues stay short, and what the emitted Result holds. */
module PoolCoverage {
  import opened Base
  import opened Plans
  import opened PoolModel
  import opened PoolInvariant

  // ---- Coverage --------------------------------------------------------------------------------

  /** Whether task `t`, once carried out, will have put `q` into `seen` or `pending`. */
  ghost predicate Handles(g: Graph, t: Task, q: Name)
    requires Acyclic(g)
  {
    match t
    case Feed(p) => p in g && q in Reachable(g, p)
    case FeedMain(p) => q == p
    case Enqueue(p) => q == p
    case _ => false
  }

  /** Nothing has happened yet: the root still waits in planStartC. */
  ghost predicate Unfed(root: Name, s: State) {
    && s.planStartC == [root] && s.seen == {} && s.pending == {} && s.planDoneC == [] && s.results == []
    && (s.feeder == [] || s.feeder == [RunPending] || s.feeder == [Sweep({})])
    && s.gatherer == Collecting && s.emitted == None
  }

  ghost predicate Accounted(g: Graph, s: State, q: Name)
    requires Acyclic(g)
  {
    q in s.seen || q in s.pending || exists t :: t in s.feeder && Handles(g, t, q)
  }

  ghost predicate Covered(g: Graph, root: Name, s: State)
    requires Acyclic(g) && root in g
  {
    Unfed(root, s) || forall q :: q in Reachable(g, root) ==> Accounted(g, s, q)
  }

  lemma UnfedStep(g: Graph, root: Name, s: State, a: Action)
    requires Acyclic(g) && root in g && Unfed(root, s) && Located(s) && Enabled(g, s, a)
    ensures Unfed(root, Next(g, s, a)) || (a.ReceiveStart? && Next(g, s, a).feeder == [RunPending, Feed(root), RunPending])
  {
    if a.Take? || a.Finish? || a.Gather? {
      var w := s.workers[a.w];
      var p := if a.Take? then w.inbox.value else if a.Finish? then w.phase.plan else w.phase.res.origin;
      TallyUpdate(InboxOf, s.workers, a.w, w, p);
      TallyUpdate(StartedOf, s.workers, a.w, w, p);
      InSeen(s, p);
      assert false;
    }
  }

  lemma AccountedFeed(g: Graph, s: State, pick: Name, q: Name)
    requires Acyclic(g) && Enabled(g, s, FeederStep(pick)) && s.feeder[0].Feed? && Handles(g, s.feeder[0], q)
    ensures exists u :: u in Work(g, s, pick).feeder && Handles(g, u, q)
  {
    var t, p := Work(g, s, pick), s.feeder[0].plan;
    if q != p {
      var c :| c in Children(g[p]) && q in Reachable(g, c);
      var i :| 0 <= i < |Children(g[p])| && Children(g[p])[i] == c;
      assert t.feeder[i] == Feed(c) && Handles(g, Feed(c), q);
    } else {
      assert t.feeder[|Children(g[p])|] == FeedMain(q) && Handles(g, FeedMain(q), q);
    }
  }

  lemma AccountedWork(g: Graph, s: State, pick: Name, q: Name)
    requires Acyclic(g) && Shaped(s) && Accounted(g, s, q) && Enabled(g, s, FeederStep(pick))
    ensures Accounted(g, Work(g, s, pick), q)
  {
    var t := Work(g, s, pick);
    var head := s.feeder[0];
    if q !in t.seen && q !in t.pending {
      assert q !in s.pending || head == Drop(q);
      var u :| u in s.feeder && Handles(g, u, q);
      if u in s.feeder[1..] {
        assert u in t.feeder;
      } else if head.Feed? {
        AccountedFeed(g, s, pick, q);
      } else {
        assert head == FeedMain(q) && t.feeder[0] == Enqueue(q) && Handles(g, Enqueue(q), q);
      }
    }
  }

  lemma CoveredStep(g: Graph, root: Name, s: State, a: Action)
    requires Acyclic(g) && root in g && Covered(g, root, s) && Shaped(s) && Located(s) && Enabled(g, s, a)
    ensures Covered(g, root, Next(g, s, a))
  {
    var t := Next(g, s, a);
    if Unfed(root, s) {
      UnfedStep(g, root, s, a);
      if !Unfed(root, t) {
        assert t.feeder[1] == Feed(root);
        assert forall q :: q in Reachable(g, root) ==> Handles(g, Feed(root), q);
      }
    } else {
      forall q | q in Reachable(g, root) ensures Accounted(g, t, q) {
        assert Accounted(g, s, q);
        if a.FeederStep? {
          AccountedWork(g, s, a.pick, q);
        } else if q !in s.seen && q !in s.pending {
          var u :| u in s.feeder && Handles(g, u, q);
          assert u in t.feeder;
        }
      }
    }
  }

  // ---- After runPending ------------------------------------------------------------------------

  function Last(feeder: seq<Task>): Task
    requires feeder != []
  {
    feeder[|feeder| - 1]
  }

  predicate Placing(t: Task) {
    t.Enqueue? || t.Scan? || t.Park? || t.Notify? || t.Drop?
  }

  /** When runPending has finished and the feeder waits, no pending plan could have been started. */
  ghost predicate Swept(g: Graph, s: State) {
    && (s.feeder == [] ==> forall q :: q in s.pending ==> !DepsComplete(g, s.done, q))
    && (s.feeder != [] ==> Last(s.feeder).RunPending? || Last(s.feeder).Sweep?)
    && (s.feeder != [] && Last(s.feeder).Sweep? ==>
          && (forall i :: 0 <= i < |s.feeder| - 1 ==> Placing(s.feeder[i]))
          && (forall q :: q in s.pending && DepsComplete(g, s.done, q) ==> q in Last(s.feeder).todo || Drop(q) in s.feeder))
  }

  lemma SweptLast(g: Graph, s: State, pick: Name)
    requires Swept(g, s) && Enabled(g, s, FeederStep(pick)) && |s.feeder| == 1
    ensures Swept(g, Work(g, s, pick))
  {
    var t := Work(g, s, pick);
    assert s.feeder[0] == Last(s.feeder);
    if s.feeder[0].Sweep? && s.feeder[0].todo != {} && DepsComplete(g, s.done, pick) {
      assert t.feeder[1] == Drop(pick);
    }
  }

  /** A step inside a call made by the range loop keeps the tasks below it. */
  lemma InnerTasks(g: Graph, s: State, pick: Name)
    requires Enabled(g, s, FeederStep(pick)) && Placing(s.feeder[0])
    ensures var t := Work(g, s, pick); var rest := s.feeder[1..];
            && (t.feeder == rest || (t.feeder == [t.feeder[0]] + rest && Placing(t.feeder[0])))
            && t.done == s.done && t.pending <= s.pending && forall q :: q in t.pending ==> s.feeder[0] != Drop(q)
  {
  }

  lemma SweptInner(g: Graph, s: State, pick: Name)
    requires Swept(g, s) && Enabled(g, s, FeederStep(pick)) && |s.feeder| > 1 && Last(s.feeder).Sweep?
    ensures Swept(g, Work(g, s, pick))
  {
    var t := Work(g, s, pick);
    var rest := s.feeder[1..];
    assert Placing(s.feeder[0]) && s.feeder == [s.feeder[0]] + rest;
    InnerTasks(g, s, pick);
    assert Last(t.feeder) == Last(s.feeder);
    assert forall i :: 0 <= i < |rest| - 1 ==> rest[i] == s.feeder[i + 1];
    assert forall u :: u in rest ==> u in t.feeder;
  }

  lemma SweptWork(g: Graph, s: State, pick: Name)
    requires Swept(g, s) && Enabled(g, s, FeederStep(pick))
    ensures Swept(g, Work(g, s, pick))
  {
    if |s.feeder| == 1 {
      SweptLast(g, s, pick);
    } else if Last(s.feeder).Sweep? {
      SweptInner(g, s, pick);
    } else {
      assert Last(Work(g, s, pick).feeder) == Last(s.feeder);
    }
  }

  lemma SweptStep(g: Graph, s: State, a: Action)
    requires Swept(g, s) && Enabled(g, s, a)
    ensures Swept(g, Next(g, s, a))
  {
    var t := Next(g, s, a);
    if a.FeederStep? {
      SweptWork(g, s, a.pick);
    } else if a.Wake? && s.feeder != [] && s.feeder[0].Park? {
      SweptWake(g, s, t);
    }
  }

  lemma SweptWake(g: Graph, s: State, t: State)
    requires Swept(g, s) && s.feeder != [] && s.feeder[0].Park? && t.pending == s.pending && t.done == s.done
    requires t.feeder == [Scan(s.feeder[0].plan, 0)] + s.feeder[1..]
    ensures Swept(g, t)
  {
    assert |t.feeder| == |s.feeder| && forall i :: 0 < i < |s.feeder| ==> t.feeder[i] == s.feeder[i];
    assert forall q :: Drop(q) in s.feeder ==> Drop(q) in t.feeder;
  }

  // ---- The counter reaching zero ---------------------------------------------------------------

  predicate Closing(gt: Gatherer) {
    match gt
    case Collecting => false
    case Delivering(_, last) => last
    case Waking(last) => last
    case Panicked(last) => last
    case Emitting => true
    case Stopped => true
  }

  /** From the moment the counter is zero the results hold one entry for each plan seen by then,
      and nothing is added to them; that is what is emitted. */
  ghost predicate Sealed(s: State) {
    && (Closing(s.gatherer) <==> s.sealed.Some?)
    && (s.gatherer.Collecting? && s.results != [] ==> s.n > 0)
    && (!Closing(s.gatherer) && !s.gatherer.Collecting? ==> s.n > 0)
    && (s.sealed.Some? ==> s.sealed.value <= s.seen && multiset(Origins(s.results)) == multiset(s.sealed.value) && s.results != [])
    && (s.gatherer.Stopped? <==> s.emitted.Some?)
    && (s.emitted.Some? ==> s.emitted.value == s.results)
  }

  lemma {:induction false} NoneOccupied(f: Worker -> Option<Name>, ws: seq<Worker>, p: Name)
    requires Occupied(f, ws) == 0
    ensures Tally(f, ws, p) == 0
  {
    if ws != [] {
      NoneOccupied(f, ws[1..], p);
    }
  }

  lemma CounterZero(s: State)
    requires Located(s) && Counted(s) && s.n == 0
    ensures multiset(Origins(s.results)) == multiset(s.seen)
  {
    forall p ensures multiset(Origins(s.results))[p] == multiset(s.seen)[p] {
      NoneOccupied(InboxOf, s.workers, p);
      NoneOccupied(StartedOf, s.workers, p);
      assert Copies(s, p) == if p in s.seen then 1 else 0;
    }
  }

  lemma SealedGather(g: Graph, s: State, w: nat)
    requires Sealed(s) && Shaped(s) && Located(s) && Counted(s) && Enabled(g, s, Gather(w))
    ensures Sealed(Next(g, s, Gather(w)))
  {
    var t := Next(g, s, Gather(w));
    LocatedStep(g, s, Gather(w));
    assert s.sealed == None && s.emitted == None;
    assert t.n >= 0;
    if t.n == 0 { CounterZero(t); }
  }

  lemma SealedFrame(s: State, t: State)
    requires Sealed(s) && s.seen <= t.seen && s.n <= t.n
    requires t.gatherer == s.gatherer && t.sealed == s.sealed && t.results == s.results && t.emitted == s.emitted
    ensures Sealed(t)
  {
  }

  lemma SealedOn(g: Graph, s: State, a: Action)
    requires Sealed(s) && Enabled(g, s, a) && (a.Deliver? || a.Wake? || a.Emit?)
    ensures Sealed(Next(g, s, a))
  {
  }

  lemma SealedStep(g: Graph, s: State, a: Action)
    requires Sealed(s) && Shaped(s) && Located(s) && Counted(s) && Enabled(g, s, a)
    ensures Sealed(Next(g, s, a))
  {
    match a {
      case FeederStep(pick) =>
        WorkFrame(g, s, pick);
        SealedFrame(s, Work(g, s, pick));
      case Gather(w) => SealedGather(g, s, w);
      case Deliver => SealedOn(g, s, a);
      case Wake => SealedOn(g, s, a);
      case Emit => SealedOn(g, s, a);
      case _ => SealedFrame(s, Next(g, s, a));
    }
  }

  // ---- The queues ------------------------------------------------------------------------------

  function Unnotified(feeder: seq<Task>): Option<Name> {
    if feeder != [] && (feeder[0].Scan? || feeder[0].Park? || feeder[0].Notify?) then Some(feeder[0].plan) else None
  }

  function Undelivered(gt: Gatherer): Option<Name> {
    if gt.Delivering? then Some(gt.res.origin) else None
  }

  /** planStartC holds each seen plan at most once, and only after it was placed on a worker. */
  ghost predicate NotifiedOnce(s: State) {
    forall p :: OnceAt(s, p)
  }

  ghost predicate OnceAt(s: State, p: Name) {
    multiset(s.planStartC)[p] + Has(Unnotified(s.feeder), p) <= if p in s.seen then 1 else 0
  }

  ghost predicate StartQueued(root: Name, s: State) {
    Unfed(root, s) || NotifiedOnce(s)
  }

  /** planDoneC holds no result more often than it was gathered. */
  ghost predicate DoneQueued(s: State) {
    forall p :: multiset(Origins(s.planDoneC))[p] + Has(Undelivered(s.gatherer), p) <= multiset(Origins(s.results))[p]
  }

  lemma UnnotifiedAfter(g: Graph, s: State, pick: Name)
    requires Shaped(s) && Enabled(g, s, FeederStep(pick))
    ensures var t := Work(g, s, pick); var head := s.feeder[0];
            && Unnotified(t.feeder) ==
                 (if (head.Enqueue? && head.plan !in s.seen) || head.Scan? then Some(head.plan) else None)
            && t.planStartC == s.planStartC + (if head.Notify? then [head.plan] else [])
            && t.seen == s.seen + (if head.Enqueue? then {head.plan} else {})
  {
  }

  lemma NotifiedOnceFrame(s: State, t: State)
    requires NotifiedOnce(s) && t.planStartC == s.planStartC && Unnotified(t.feeder) == Unnotified(s.feeder) && t.seen == s.seen
    ensures NotifiedOnce(t)
  {
    forall p ensures OnceAt(t, p) { assert OnceAt(s, p); }
  }

  lemma NotifiedOnceWork(g: Graph, s: State, pick: Name)
    requires NotifiedOnce(s) && Shaped(s) && Enabled(g, s, FeederStep(pick))
    ensures NotifiedOnce(Work(g, s, pick))
  {
    var t, head := Work(g, s, pick), s.feeder[0];
    UnnotifiedAfter(g, s, pick);
    forall p ensures OnceAt(t, p) {
      assert OnceAt(s, p);
      OnceAtHead(s, t, head, p);
    }
  }

  lemma OnceAtHead(s: State, t: State, head: Task, p: Name)
    requires OnceAt(s, p) && s.feeder != [] && s.feeder[0] == head
    requires Unnotified(t.feeder) == if (head.Enqueue? && head.plan !in s.seen) || head.Scan? then Some(head.plan) else None
    requires t.planStartC == s.planStartC + if head.Notify? then [head.plan] else []
    requires t.seen == s.seen + if head.Enqueue? then {head.plan} else {}
    ensures OnceAt(t, p)
  {
  }

  lemma NotifiedOnceReceive(g: Graph, s: State)
    requires NotifiedOnce(s) && Shaped(s) && Enabled(g, s, ReceiveStart)
    ensures NotifiedOnce(Next(g, s, ReceiveStart))
  {
    var t := Next(g, s, ReceiveStart);
    assert s.planStartC == [s.planStartC[0]] + t.planStartC;
    assert Unnotified(t.feeder) == None && t.seen == s.seen;
    forall p ensures OnceAt(t, p) { assert OnceAt(s, p); }
  }

  lemma NotifiedOnceStep(g: Graph, s: State, a: Action)
    requires NotifiedOnce(s) && Shaped(s) && Enabled(g, s, a)
    ensures NotifiedOnce(Next(g, s, a))
  {
    if a.FeederStep? {
      NotifiedOnceWork(g, s, a.pick);
    } else if a.ReceiveStart? {
      NotifiedOnceReceive(g, s);
    } else {
      NotifiedOnceFrame(s, Next(g, s, a));
    }
  }

  lemma StartQueuedStep(g: Graph, root: Name, s: State, a: Action)
    requires Acyclic(g) && root in g && StartQueued(root, s) && Shaped(s) && Located(s) && Enabled(g, s, a)
    ensures StartQueued(root, Next(g, s, a))
  {
    if Unfed(root, s) {
      UnfedStep(g, root, s, a);
    } else {
      NotifiedOnceStep(g, s, a);
    }
  }

  lemma DoneQueuedGather(g: Graph, s: State, w: nat)
    requires DoneQueued(s) && Enabled(g, s, Gather(w))
    ensures DoneQueued(Next(g, s, Gather(w)))
  {
    var t := Next(g, s, Gather(w));
    assert Origins(t.results) == Origins(s.results) + [s.workers[w].phase.res.origin];
    forall p ensures multiset(Origins(t.planDoneC))[p] + Has(Undelivered(t.gatherer), p) <= multiset(Origins(t.results))[p] {
      assert multiset(Origins(s.planDoneC))[p] <= multiset(Origins(s.results))[p];
    }
  }

  lemma DoneQueuedDeliver(g: Graph, s: State)
    requires DoneQueued(s) && Enabled(g, s, Deliver)
    ensures DoneQueued(Next(g, s, Deliver))
  {
    var t := Next(g, s, Deliver);
    if |s.planDoneC| < QUEUE_SIZE { assert Origins(t.planDoneC) == Origins(s.planDoneC) + [s.gatherer.res.origin]; }
    forall p ensures multiset(Origins(t.planDoneC))[p] + Has(Undelivered(t.gatherer), p) <= multiset(Origins(t.results))[p] {
      assert multiset(Origins(s.planDoneC))[p] + Has(Undelivered(s.gatherer), p) <= multiset(Origins(s.results))[p];
    }
  }

  lemma DoneQueuedFrame(s: State, t: State)
    requires DoneQueued(s) && t.planDoneC == s.planDoneC && t.results == s.results && Undelivered(t.gatherer) == Undelivered(s.gatherer)
    ensures DoneQueued(t)
  {
    forall p ensures multiset(Origins(t.planDoneC))[p] + Has(Undelivered(t.gatherer), p) <= multiset(Origins(t.results))[p] {
      assert multiset(Origins(s.planDoneC))[p] + Has(Undelivered(s.gatherer), p) <= multiset(Origins(s.results))[p];
    }
  }

  lemma DoneQueuedReceive(s: State, t: State)
    requires DoneQueued(s) && s.planDoneC != [] && t.planDoneC == s.planDoneC[1..] && t.results == s.results && t.gatherer == s.gatherer
    ensures DoneQueued(t)
  {
    assert Origins(s.planDoneC) == [s.planDoneC[0].origin] + Origins(t.planDoneC);
    forall p ensures multiset(Origins(t.planDoneC))[p] + Has(Undelivered(t.gatherer), p) <= multiset(Origins(t.results))[p] {
      assert multiset(Origins(s.planDoneC))[p] + Has(Undelivered(s.gatherer), p) <= multiset(Origins(s.results))[p];
    }
  }

  lemma DoneQueuedStep(g: Graph, s: State, a: Action)
    requires DoneQueued(s) && Enabled(g, s, a)
    ensures DoneQueued(Next(g, s, a))
  {
    var t := Next(g, s, a);
    match a {
      case FeederStep(pick) =>
        WorkFrame(g, s, pick);
        DoneQueuedFrame(s, t);
      case ReceiveDone => DoneQueuedReceive(s, t);
      case Gather(w) => DoneQueuedGather(g, s, w);
      case Deliver => DoneQueuedDeliver(g, s);
      case _ => DoneQueuedFrame(s, t);
    }
  }
}
