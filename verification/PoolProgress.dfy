/** How runs of the executor end. */
module PoolProgress {
  import opened Base
  import opened Plans
  import opened PoolModel
  import opened PoolInvariant
  import opened PoolCoverage
  import opened PoolSafety

  // ---- Every run is finite ---------------------------------------------------------------------

  /** The steps one call of feedPlan can take, leaving out what placing a plan adds. */
  ghost function FeedCost(g: Graph, p: Name): nat
    requires Acyclic(g) && p in g
    decreases RankOf(g)(p), 1, 0
  {
    3 + FeedAll(g, p, Children(g[p]))
  }

  ghost function FeedAll(g: Graph, p: Name, cs: seq<Name>): nat
    requires Acyclic(g) && p in g && forall c :: c in cs ==> c in Children(g[p])
    decreases RankOf(g)(p), 0, |cs|
  {
    if cs == [] then 0
    else
      assert cs[0] in Children(g[p]);
      FeedCost(g, cs[0]) + FeedAll(g, p, cs[1..])
  }

  lemma {:induction false} FeedAllHas(g: Graph, p: Name, cs: seq<Name>, c: Name)
    requires Acyclic(g) && p in g && (forall x :: x in cs ==> x in Children(g[p])) && c in cs
    ensures c in g && FeedCost(g, c) <= FeedAll(g, p, cs)
  {
    assert cs[0] in Children(g[p]);
    if c != cs[0] { FeedAllHas(g, p, cs[1..], c); }
  }

  lemma {:induction false} FeedCostBound(g: Graph, p: Name, q: Name)
    requires Acyclic(g) && p in g && q in Reachable(g, p)
    ensures q in g && FeedCost(g, q) <= FeedCost(g, p)
    decreases RankOf(g)(p)
  {
    if q != p {
      var c :| c in Children(g[p]) && q in Reachable(g, c);
      FeedCostBound(g, c, q);
      FeedAllHas(g, p, Children(g[p]), c);
    }
  }

  /** The prices of one run: each is what the thing it is paid for can still cause. */
  datatype Prices = Prices(conc: nat, names: nat, feed: nat) {
    function RunPending(): nat { 2 + 3 * names }
    function StartEntry(): nat { 2 * RunPending() + feed + 1 }
    function DoneEntry(): nat { RunPending() + feed + 1 }
    function Waking(): nat { conc + 4 }
    function Delivering(): nat { Waking() + DoneEntry() + 1 }
    function Sending(): nat { Delivering() + 1 }
    function Running(): nat { Sending() + 1 }
    function Inbox(): nat { Running() + 1 }
    function Notify(): nat { StartEntry() + 1 }
    function Park(): nat { Notify() + Inbox() }
    function Scan(next: nat): nat { Park() + 1 + if next < conc then conc - next else 0 }
  }

  ghost function PricesOf(g: Graph, root: Name, conc: nat): Prices
    requires Acyclic(g) && root in g
  {
    Prices(conc, |Reachable(g, root)|, FeedCost(g, root))
  }

  ghost function TaskCost(g: Graph, pr: Prices, t: Task): nat
    requires Acyclic(g)
  {
    match t
    case RunPending => pr.RunPending()
    case Sweep(todo) => 1 + 3 * |todo|
    case Feed(p) => if p in g then FeedCost(g, p) else 0
    case FeedMain(_) => 2
    case Enqueue(_) => 1
    case Scan(_, k) => pr.Scan(k)
    case Park(_) => pr.Park()
    case Notify(_) => pr.Notify()
    case Drop(_) => 1
  }

  ghost function Load(g: Graph, pr: Prices, ts: seq<Task>): nat
    requires Acyclic(g)
  {
    if ts == [] then 0 else TaskCost(g, pr, ts[0]) + Load(g, pr, ts[1..])
  }

  function WorkerCost(pr: Prices, w: Worker): nat {
    (if w.inbox.Some? then pr.Inbox() else 0) +
    (match w.phase case Idle => 0 case Running(_) => pr.Running() case Sending(_) => pr.Sending())
  }

  function WorkersCost(pr: Prices, ws: seq<Worker>): nat {
    if ws == [] then 0 else WorkerCost(pr, ws[0]) + WorkersCost(pr, ws[1..])
  }

  function GathererCost(pr: Prices, gt: Gatherer): nat {
    match gt
    case Delivering(_, _) => pr.Delivering()
    case Waking(_) => pr.Waking()
    case Emitting => 1
    case _ => 0
  }

  /** `k` things of price `price`, as a sum so that no product is reasoned about. */
  function Times(k: nat, price: nat): nat {
    if k == 0 then 0 else price + Times(k - 1, price)
  }

  /** What is still to come in a state, with `names` the plans there are. */
  ghost function Weight(g: Graph, names: set<Name>, pr: Prices, s: State): nat
    requires Acyclic(g)
  {
    Times(|names - s.seen|, pr.Scan(0)) + Load(g, pr, s.feeder)
    + Times(|s.planStartC|, pr.StartEntry()) + Times(|s.planDoneC|, pr.DoneEntry())
    + WorkersCost(pr, s.workers) + GathererCost(pr, s.gatherer)
  }

  ghost predicate Priced(g: Graph, names: set<Name>, pr: Prices, s: State)
    requires Acyclic(g)
  {
    && Named(names, s) && pr.conc == |s.workers| && pr.names == |names|
    && forall p :: p in names && p in g ==> FeedCost(g, p) <= pr.feed
  }

  ghost function Measure(g: Graph, root: Name, s: State): nat
    requires Acyclic(g) && root in g
  {
    Weight(g, Reachable(g, root), PricesOf(g, root, |s.workers|), s)
  }

  lemma {:induction false} LoadAppend(g: Graph, pr: Prices, a: seq<Task>, b: seq<Task>)
    requires Acyclic(g)
    ensures Load(g, pr, a + b) == Load(g, pr, a) + Load(g, pr, b)
  {
    if a == [] {
      assert a + b == b;
    } else {
      assert (a + b)[1..] == a[1..] + b;
      LoadAppend(g, pr, a[1..], b);
    }
  }

  lemma {:induction false} LoadFeeds(g: Graph, pr: Prices, p: Name, cs: seq<Name>)
    requires Acyclic(g) && p in g && forall c :: c in cs ==> c in Children(g[p])
    ensures Load(g, pr, Feeds(cs)) == FeedAll(g, p, cs)
  {
    if cs != [] {
      assert cs[0] in Children(g[p]);
      assert Feeds(cs)[1..] == Feeds(cs[1..]);
      LoadFeeds(g, pr, p, cs[1..]);
    }
  }

  lemma {:induction false} WorkersCostUpdate(pr: Prices, ws: seq<Worker>, i: nat, w: Worker)
    requires i < |ws|
    ensures WorkersCost(pr, ws[i := w]) == WorkersCost(pr, ws) - WorkerCost(pr, ws[i]) + WorkerCost(pr, w)
    ensures WorkerCost(pr, ws[i]) <= WorkersCost(pr, ws)
  {
    if i == 0 {
      assert ws[i := w][1..] == ws[1..];
    } else {
      assert ws[i := w][1..] == ws[1..][i - 1 := w];
      WorkersCostUpdate(pr, ws[1..], i - 1, w);
    }
  }

  /** Replacing the head task. */
  lemma LoadHead(g: Graph, pr: Prices, feeder: seq<Task>, front: seq<Task>)
    requires Acyclic(g) && feeder != []
    ensures Load(g, pr, front + feeder[1..]) == Load(g, pr, feeder) - TaskCost(g, pr, feeder[0]) + Load(g, pr, front)
  {
    LoadAppend(g, pr, front, feeder[1..]);
  }

  lemma LoadSweep(g: Graph, pr: Prices, s: State, pick: Name)
    requires Acyclic(g) && Enabled(g, s, FeederStep(pick)) && s.feeder[0].Sweep?
    ensures Load(g, pr, Work(g, s, pick).feeder) < Load(g, pr, s.feeder)
  {
    var todo, rest := s.feeder[0].todo, s.feeder[1..];
    if todo == {} {
      LoadHead(g, pr, s.feeder, []);
      assert [] + rest == rest;
    } else {
      var less := todo - {pick};
      assert |less| == |todo| - 1;
      LoadHead(g, pr, s.feeder, [Sweep(less)]);
      assert Load(g, pr, [Sweep(less)]) == 1 + 3 * |less|;
      assert Load(g, pr, [Drop(pick), Sweep(less)]) == 1 + Load(g, pr, [Sweep(less)]) by {
        assert [Drop(pick), Sweep(less)][1..] == [Sweep(less)];
      }
      assert Load(g, pr, [Enqueue(pick), Drop(pick), Sweep(less)]) == 2 + Load(g, pr, [Sweep(less)]) by {
        assert [Enqueue(pick), Drop(pick), Sweep(less)][1..] == [Drop(pick), Sweep(less)];
      }
      LoadHead(g, pr, s.feeder, [Enqueue(pick), Drop(pick), Sweep(less)]);
    }
  }

  lemma LoadWork(g: Graph, names: set<Name>, pr: Prices, s: State, pick: Name)
    requires Acyclic(g) && Priced(g, names, pr, s) && Enabled(g, s, FeederStep(pick))
    requires !s.feeder[0].Scan? && !s.feeder[0].Enqueue? && !s.feeder[0].Notify? && !s.feeder[0].Sweep?
    ensures Load(g, pr, Work(g, s, pick).feeder) < Load(g, pr, s.feeder)
  {
    var head, rest := s.feeder[0], s.feeder[1..];
    match head {
      case RunPending =>
        LoadHead(g, pr, s.feeder, [Sweep(s.pending)]);
        Subsets(s.pending, names);
      case Feed(p) =>
        var cs := Children(g[p]);
        LoadFeeds(g, pr, p, cs);
        LoadAppend(g, pr, Feeds(cs), [FeedMain(p)]);
        LoadHead(g, pr, s.feeder, Feeds(cs) + [FeedMain(p)]);
      case FeedMain(p) =>
        LoadHead(g, pr, s.feeder, [Enqueue(p)]);
        LoadHead(g, pr, s.feeder, []);
        assert [] + rest == rest;
      case Drop(p) =>
        LoadHead(g, pr, s.feeder, []);
        assert [] + rest == rest;
    }
  }

  lemma WeightPlain(g: Graph, names: set<Name>, pr: Prices, s: State, pick: Name)
    requires Acyclic(g) && Priced(g, names, pr, s) && Enabled(g, s, FeederStep(pick))
    requires !s.feeder[0].Scan? && !s.feeder[0].Enqueue? && !s.feeder[0].Notify?
    ensures Weight(g, names, pr, Work(g, s, pick)) < Weight(g, names, pr, s)
  {
    if s.feeder[0].Sweep? { LoadSweep(g, pr, s, pick); } else { LoadWork(g, names, pr, s, pick); }
    var t := Work(g, s, pick);
    assert t.seen == s.seen && t.planStartC == s.planStartC && t.planDoneC == s.planDoneC && t.workers == s.workers && t.gatherer == s.gatherer;
  }

  lemma LoadEnqueue(g: Graph, pr: Prices, s: State, pick: Name)
    requires Acyclic(g) && Enabled(g, s, FeederStep(pick)) && s.feeder[0].Enqueue?
    ensures Load(g, pr, Work(g, s, pick).feeder) == Load(g, pr, s.feeder) - 1 + if s.feeder[0].plan in s.seen then 0 else pr.Scan(0)
  {
    var p, rest := s.feeder[0].plan, s.feeder[1..];
    LoadHead(g, pr, s.feeder, []);
    assert [] + rest == rest;
    LoadHead(g, pr, s.feeder, [Scan(p, 0)]);
    assert Load(g, pr, [Scan(p, 0)]) == pr.Scan(0);
  }

  lemma TimesLess(names: set<Name>, seen: set<Name>, p: Name, price: nat)
    requires p in names && p !in seen
    ensures Times(|names - seen|, price) == price + Times(|names - (seen + {p})|, price)
  {
    assert names - (seen + {p}) == (names - seen) - {p};
  }

  lemma WeightEnqueue(g: Graph, names: set<Name>, pr: Prices, s: State, pick: Name)
    requires Acyclic(g) && Priced(g, names, pr, s) && Enabled(g, s, FeederStep(pick)) && s.feeder[0].Enqueue?
    ensures Weight(g, names, pr, Work(g, s, pick)) < Weight(g, names, pr, s)
  {
    var p, t := s.feeder[0].plan, Work(g, s, pick);
    assert TaskIn(names, s.feeder[0]);
    assert t.workers == s.workers && t.planStartC == s.planStartC && t.planDoneC == s.planDoneC && t.gatherer == s.gatherer;
    LoadEnqueue(g, pr, s, pick);
    if p !in s.seen { TimesLess(names, s.seen, p, pr.Scan(0)); }
  }

  lemma WeightNotify(g: Graph, names: set<Name>, pr: Prices, s: State, pick: Name)
    requires Acyclic(g) && Enabled(g, s, FeederStep(pick)) && s.feeder[0].Notify?
    ensures Weight(g, names, pr, Work(g, s, pick)) < Weight(g, names, pr, s)
  {
    var t := Work(g, s, pick);
    assert t.seen == s.seen && t.workers == s.workers && t.planDoneC == s.planDoneC && t.gatherer == s.gatherer;
    LoadHead(g, pr, s.feeder, []);
    assert [] + s.feeder[1..] == s.feeder[1..];
    assert Times(|t.planStartC|, pr.StartEntry()) == pr.StartEntry() + Times(|s.planStartC|, pr.StartEntry());
  }

  lemma LoadScan(g: Graph, pr: Prices, s: State, pick: Name)
    requires Acyclic(g) && pr.conc == |s.workers| && Enabled(g, s, FeederStep(pick)) && s.feeder[0].Scan?
    ensures var k := s.feeder[0].next;
            Load(g, pr, Work(g, s, pick).feeder) <
              Load(g, pr, s.feeder) - if k < |s.workers| && s.workers[k].inbox.None? then pr.Inbox() else 0
  {
    var t := Work(g, s, pick);
    LoadHead(g, pr, s.feeder, [t.feeder[0]]);
    assert t.feeder == [t.feeder[0]] + s.feeder[1..];
    assert Load(g, pr, [t.feeder[0]]) == TaskCost(g, pr, t.feeder[0]);
  }

  lemma WeightPlace(g: Graph, names: set<Name>, pr: Prices, s: State, pick: Name)
    requires Acyclic(g) && pr.conc == |s.workers| && Enabled(g, s, FeederStep(pick)) && s.feeder[0].Scan?
    ensures Weight(g, names, pr, Work(g, s, pick)) < Weight(g, names, pr, s)
  {
    var k, t := s.feeder[0].next, Work(g, s, pick);
    LoadScan(g, pr, s, pick);
    assert t.seen == s.seen && t.planStartC == s.planStartC && t.planDoneC == s.planDoneC && t.gatherer == s.gatherer;
    if k < |s.workers| && s.workers[k].inbox.None? {
      WorkersCostUpdate(pr, s.workers, k, t.workers[k]);
      assert t.workers == s.workers[k := t.workers[k]];
    } else {
      assert t.workers == s.workers;
    }
  }

  /** The tasks for a received plan, with or without the mark that it is done. */
  lemma LoadReceived(g: Graph, pr: Prices, p: Name)
    requires Acyclic(g)
    ensures Load(g, pr, [RunPending]) == pr.RunPending()
    ensures Load(g, pr, [Feed(p), RunPending]) == TaskCost(g, pr, Feed(p)) + pr.RunPending()
    ensures Load(g, pr, [RunPending, Feed(p), RunPending]) == pr.RunPending() + TaskCost(g, pr, Feed(p)) + pr.RunPending()
  {
    assert [RunPending][1..] == [];
    assert [Feed(p), RunPending][1..] == [RunPending];
    assert [RunPending, Feed(p), RunPending][1..] == [Feed(p), RunPending];
  }

  lemma WeightStart(g: Graph, names: set<Name>, pr: Prices, s: State)
    requires Acyclic(g) && Priced(g, names, pr, s) && Enabled(g, s, ReceiveStart)
    ensures Weight(g, names, pr, Next(g, s, ReceiveStart)) < Weight(g, names, pr, s)
  {
    var p, t := s.planStartC[0], Next(g, s, ReceiveStart);
    assert p in names;
    LoadReceived(g, pr, p);
    assert t.seen == s.seen && t.workers == s.workers && t.gatherer == s.gatherer && t.planDoneC == s.planDoneC;
  }

  /** What is fed after a result was received costs less than the result did in its channel. */
  lemma LoadDone(g: Graph, names: set<Name>, pr: Prices, s: State)
    requires Acyclic(g) && Priced(g, names, pr, s) && Enabled(g, s, ReceiveDone)
    requires Named(names, Next(g, s, ReceiveDone))
    ensures Load(g, pr, Next(g, s, ReceiveDone).feeder) < pr.DoneEntry()
  {
    var p, t := s.planDoneC[0].origin, Next(g, s, ReceiveDone);
    if Feed(p) in t.feeder { assert TaskIn(names, Feed(p)); }
    LoadReceived(g, pr, p);
  }

  lemma WeightDone(g: Graph, names: set<Name>, pr: Prices, s: State)
    requires Acyclic(g) && Priced(g, names, pr, s) && Enabled(g, s, ReceiveDone)
    requires Named(names, Next(g, s, ReceiveDone))
    ensures Weight(g, names, pr, Next(g, s, ReceiveDone)) < Weight(g, names, pr, s)
  {
    var t := Next(g, s, ReceiveDone);
    LoadDone(g, names, pr, s);
    assert t.seen == s.seen && t.workers == s.workers && t.gatherer == s.gatherer && t.planStartC == s.planStartC;
    assert Times(|s.planDoneC|, pr.DoneEntry()) == pr.DoneEntry() + Times(|t.planDoneC|, pr.DoneEntry());
  }

  lemma WeightWorker(g: Graph, names: set<Name>, pr: Prices, s: State, a: Action)
    requires Acyclic(g) && Enabled(g, s, a) && (a.Take? || a.Finish? || a.Gather?)
    ensures Weight(g, names, pr, Next(g, s, a)) < Weight(g, names, pr, s)
  {
    var t := Next(g, s, a);
    WorkersCostUpdate(pr, s.workers, a.w, t.workers[a.w]);
    assert t.workers == s.workers[a.w := t.workers[a.w]];
  }

  lemma WeightDeliver(g: Graph, names: set<Name>, pr: Prices, s: State)
    requires Acyclic(g) && Enabled(g, s, Deliver)
    ensures Weight(g, names, pr, Next(g, s, Deliver)) < Weight(g, names, pr, s)
  {
    var t := Next(g, s, Deliver);
    assert t.seen == s.seen && t.feeder == s.feeder && t.workers == s.workers && t.planStartC == s.planStartC;
    if |s.planDoneC| < QUEUE_SIZE {
      assert Times(|t.planDoneC|, pr.DoneEntry()) == pr.DoneEntry() + Times(|s.planDoneC|, pr.DoneEntry());
    }
  }

  lemma WeightWake(g: Graph, names: set<Name>, pr: Prices, s: State, a: Action)
    requires Acyclic(g) && pr.conc == |s.workers| && Enabled(g, s, a) && (a.Wake? || a.Emit?)
    ensures Weight(g, names, pr, Next(g, s, a)) < Weight(g, names, pr, s)
  {
    var t := Next(g, s, a);
    assert t.seen == s.seen && t.workers == s.workers && t.planStartC == s.planStartC && t.planDoneC == s.planDoneC;
    if a.Wake? && s.feeder != [] && s.feeder[0].Park? { LoadWoken(g, pr, s.feeder); }
  }

  lemma LoadWoken(g: Graph, pr: Prices, feeder: seq<Task>)
    requires Acyclic(g) && feeder != [] && feeder[0].Park?
    ensures Load(g, pr, [Scan(feeder[0].plan, 0)] + feeder[1..]) == Load(g, pr, feeder) - pr.Park() + pr.Scan(0)
  {
    LoadHead(g, pr, feeder, [Scan(feeder[0].plan, 0)]);
    assert Load(g, pr, [Scan(feeder[0].plan, 0)]) == pr.Scan(0);
  }

  lemma WeightStep(g: Graph, names: set<Name>, pr: Prices, s: State, a: Action)
    requires Acyclic(g) && Priced(g, names, pr, s) && Enabled(g, s, a) && Named(names, Next(g, s, a))
    ensures Weight(g, names, pr, Next(g, s, a)) < Weight(g, names, pr, s)
  {
    match a {
      case FeederStep(pick) =>
        match s.feeder[0] {
          case Enqueue(_) => WeightEnqueue(g, names, pr, s, pick);
          case Scan(_, _) => WeightPlace(g, names, pr, s, pick);
          case Notify(_) => WeightNotify(g, names, pr, s, pick);
          case _ => WeightPlain(g, names, pr, s, pick);
        }
      case ReceiveStart => WeightStart(g, names, pr, s);
      case ReceiveDone => WeightDone(g, names, pr, s);
      case Take(_) => WeightWorker(g, names, pr, s, a);
      case Finish(_, _) => WeightWorker(g, names, pr, s, a);
      case Gather(_) => WeightWorker(g, names, pr, s, a);
      case Deliver => WeightDeliver(g, names, pr, s);
      case _ => WeightWake(g, names, pr, s, a);
    }
  }

  /** Every step of every run makes the measure smaller. */
  lemma MeasureStep(g: Graph, root: Name, s: State, a: Action)
    requires Acyclic(g) && root in g && Inv(g, root, s) && Enabled(g, s, a)
    ensures Measure(g, root, Next(g, s, a)) < Measure(g, root, s)
  {
    var names, pr := Reachable(g, root), PricesOf(g, root, |s.workers|);
    InvStep(g, root, s, a);
    WorkersKept(g, s, a);
    forall p | p in names && p in g ensures FeedCost(g, p) <= pr.feed {
      FeedCostBound(g, root, p);
    }
    WeightStep(g, names, pr, s, a);
  }

  /** Although plans are fed again when they are enqueued and when they finish, no run takes more
      steps than the measure of its first state. */
  lemma RunsAreFinite(g: Graph, root: Name, conc: nat, run: seq<Action>)
    requires Acyclic(g) && root in g && Legal(g, Init(conc, root), run)
    ensures |run| <= Measure(g, root, Init(conc, root))
  {
    InvInit(g, root, conc);
    StepsBounded(g, root, Init(conc, root), run);
  }

  lemma {:induction false} StepsBounded(g: Graph, root: Name, s: State, run: seq<Action>)
    requires Acyclic(g) && root in g && Inv(g, root, s) && Legal(g, s, run)
    ensures |run| <= Measure(g, root, s)
    decreases |run|
  {
    if run != [] {
      MeasureStep(g, root, s, run[0]);
      InvStep(g, root, s, run[0]);
      StepsBounded(g, root, Next(g, s, run[0]), run[1..]);
    }
  }

  // ---- Where a run can stop --------------------------------------------------------------------

  ghost predicate Stuck(g: Graph, s: State) {
    forall a :: !Enabled(g, s, a)
  }

  /** The feeder waits to be woken although every worker is free: the wake-up was sent before the
      feeder began to wait for it. */
  predicate LostWakeup(s: State) {
    && s.feeder != [] && s.feeder[0].Park? && s.gatherer.Collecting?
    && forall w :: 0 <= w < |s.workers| ==> s.workers[w] == Worker(None, Idle)
  }

  /** The last step of a run is the feeder's: it has found no worker free and begins to wait. So no
      wake-up is taken, and no result gathered, from then on. */
  ghost predicate ParksLast(g: Graph, s: State, run: seq<Action>)
    requires Legal(g, s, run)
  {
    && run != [] && run[|run| - 1].FeederStep?
    && Legal(g, s, run[..|run| - 1])
    && (var before := After(g, s, run[..|run| - 1]);
        && before.feeder != [] && before.feeder[0].Scan? && before.feeder[0].next >= |before.workers|
        && After(g, s, run) == before.(feeder := [Park(before.feeder[0].plan)] + before.feeder[1..]))
  }

  /** With at most 100 plans a run can go no further without having emitted its Result if and only if
      it has lost a wake-up; then its last step was the feeder's, beginning to wait. */
  lemma StuckExactly(g: Graph, root: Name, conc: nat, run: seq<Action>)
    requires Acyclic(g) && root in g && |Reachable(g, root)| <= QUEUE_SIZE && Legal(g, Init(conc, root), run)
    ensures var s := After(g, Init(conc, root), run); Stuck(g, s) && s.emitted.None? <==> LostWakeup(s)
    ensures LostWakeup(After(g, Init(conc, root), run)) ==> ParksLast(g, Init(conc, root), run)
  {
    var s := After(g, Init(conc, root), run);
    assert Occurs(g, root, conc, s);
    if Stuck(g, s) {
      NeverFull(g, root, conc, run);
      StuckWhere(g, root, conc, s);
    }
    if LostWakeup(s) {
      LostIsStuck(g, root, conc, s);
      LostParksLast(g, root, conc, run);
    }
  }

  lemma LostParksLast(g: Graph, root: Name, conc: nat, run: seq<Action>)
    requires Acyclic(g) && root in g && Legal(g, Init(conc, root), run) && LostWakeup(After(g, Init(conc, root), run))
    ensures ParksLast(g, Init(conc, root), run)
  {
    var m := |run| - 1;
    LegalPrefix(g, Init(conc, root), run, m);
    var before := After(g, Init(conc, root), run[..m]);
    assert Occurs(g, root, conc, before);
    InvOccurs(g, root, conc, before);
    LastStepParks(g, before, run[m]);
  }

  /** Only the feeder itself, finding no worker free, leads to a lost wake-up. */
  lemma LastStepParks(g: Graph, s: State, a: Action)
    requires Shaped(s) && Enabled(g, s, a) && LostWakeup(Next(g, s, a))
    ensures a.FeederStep? && s.feeder[0].Scan? && s.feeder[0].next >= |s.workers|
    ensures Next(g, s, a) == s.(feeder := [Park(s.feeder[0].plan)] + s.feeder[1..])
  {
    if a.Take? || a.Finish? { WorkerGoesOn(g, s, a); }
    if a.FeederStep? && |s.feeder| > 1 { assert Calm(s.feeder[1]) || s.feeder[1].Drop?; }
  }

  lemma WorkerGoesOn(g: Graph, s: State, a: Action)
    requires Enabled(g, s, a) && (a.Take? || a.Finish?)
    ensures !LostWakeup(Next(g, s, a))
  {
    assert Next(g, s, a).workers[a.w] != Worker(None, Idle);
  }

  /** A lost wake-up ends the run: nobody can take a step, and no Result was emitted. */
  lemma LostIsStuck(g: Graph, root: Name, conc: nat, s: State)
    requires Acyclic(g) && root in g && Occurs(g, root, conc, s) && LostWakeup(s)
    ensures Stuck(g, s) && s.emitted.None?
  {
    InvOccurs(g, root, conc, s);
    NothingEnabled(g, s);
    assert Sealed(s);
  }

  lemma NothingEnabled(g: Graph, s: State)
    requires LostWakeup(s)
    ensures Stuck(g, s)
  {
    forall a ensures !Enabled(g, s, a) {}
  }

  lemma StuckWhere(g: Graph, root: Name, conc: nat, s: State)
    requires Acyclic(g) && root in g && Occurs(g, root, conc, s) && Stuck(g, s) && !s.gatherer.Panicked?
    requires s.feeder != [] && s.feeder[0].Notify? ==> |s.planStartC| < QUEUE_SIZE
    ensures s.emitted.Some? || LostWakeup(s)
  {
    InvOccurs(g, root, conc, s);
    GathererStuck(g, s);
    if s.gatherer.Collecting? {
      forall w | 0 <= w < |s.workers| ensures s.workers[w] == Worker(None, Idle) {
        WorkerStuck(g, s, w);
      }
      if s.feeder == [] {
        assert !Enabled(g, s, ReceiveStart);
        RestEmits(g, root, conc, s);
      } else if !s.feeder[0].Park? {
        FeederCanMove(g, root, s);
      }
    }
  }

  lemma GathererStuck(g: Graph, s: State)
    requires Stuck(g, s) && Sealed(s) && !s.gatherer.Panicked?
    ensures s.gatherer.Collecting? || s.emitted.Some?
  {
    assert !Enabled(g, s, Deliver) && !Enabled(g, s, Wake) && !Enabled(g, s, Emit);
  }

  lemma WorkerStuck(g: Graph, s: State, w: nat)
    requires w < |s.workers| && Stuck(g, s) && s.gatherer.Collecting?
    ensures s.workers[w] == Worker(None, Idle)
  {
    assert !Enabled(g, s, Take(w)) && !Enabled(g, s, Finish(w, Failed)) && !Enabled(g, s, Gather(w));
  }

  lemma FeederCanMove(g: Graph, root: Name, s: State)
    requires Acyclic(g) && root in g && Named(Reachable(g, root), s) && s.feeder != [] && !s.feeder[0].Park?
    requires s.feeder[0].Notify? ==> |s.planStartC| < QUEUE_SIZE
    ensures exists pick :: Enabled(g, s, FeederStep(pick))
  {
    ReachableIsClosed(g, root);
    assert TaskIn(Reachable(g, root), s.feeder[0]);
    var pick :| s.feeder[0].Sweep? && s.feeder[0].todo != {} ==> pick in s.feeder[0].todo;
    assert Enabled(g, s, FeederStep(pick));
  }

  /** At rest the gatherer is no longer collecting: were nothing ever seen, the root, or something
      below it, could be started. */
  lemma RestEmits(g: Graph, root: Name, conc: nat, s: State)
    requires Acyclic(g) && root in g && Occurs(g, root, conc, s)
    requires s.feeder == [] && s.planStartC == []
    requires forall w :: 0 <= w < |s.workers| ==> s.workers[w] == Worker(None, Idle)
    ensures !s.gatherer.Collecting?
  {
    InvOccurs(g, root, conc, s);
    IdleWorkers(s.workers, root);
    if s.gatherer.Collecting? {
      forall p ensures p !in s.seen {
        IdleWorkers(s.workers, p);
        assert Copies(s, p) == if p in s.seen then 1 else 0;
      }
      ReachableIsClosed(g, root);
      NothingForgotten(g, root, conc, s, root);
    }
  }

  // ---- Enough workers: no wake-up is lost ------------------------------------------------------

  /** Every worker the feeder has passed over had been given another plan. */
  ghost predicate PassedOver(s: State) {
    && s.placed.Keys <= s.seen
    && (forall w :: 0 <= w < |s.workers| && s.workers[w].inbox.Some? ==>
          s.workers[w].inbox.value in s.placed && s.placed[s.workers[w].inbox.value] == w)
    && (s.feeder != [] && (s.feeder[0].Scan? || s.feeder[0].Park?) ==> s.feeder[0].plan !in s.placed)
    && (s.feeder != [] && s.feeder[0].Scan? ==> Given(s.placed, s.feeder[0].next))
    && (s.feeder != [] && s.feeder[0].Park? ==> Given(s.placed, |s.workers|))
  }

  ghost predicate Given(placed: map<Name, nat>, k: nat) {
    forall w: nat :: w < k ==> w in placed.Values
  }

  lemma PassedOverWork(g: Graph, s: State, pick: Name)
    requires PassedOver(s) && Shaped(s) && Enabled(g, s, FeederStep(pick))
    ensures PassedOver(Work(g, s, pick))
  {
    var t := Work(g, s, pick);
    var head := s.feeder[0];
    if head.Scan? {
      if head.next < |s.workers| && s.workers[head.next].inbox.Some? {
        assert s.placed[s.workers[head.next].inbox.value] == head.next;
      }
    } else {
      assert t.placed == s.placed && t.workers == s.workers;
    }
  }

  lemma PassedOverStep(g: Graph, s: State, a: Action)
    requires PassedOver(s) && Shaped(s) && Enabled(g, s, a)
    ensures PassedOver(Next(g, s, a))
  {
    if a.FeederStep? {
      PassedOverWork(g, s, a.pick);
    }
  }

  lemma {:induction false} GivenCount(placed: map<Name, nat>, k: nat)
    requires Given(placed, k)
    ensures k <= |placed|
  {
    if k > 0 {
      assert k - 1 in placed.Values;
      var p :| p in placed && placed[p] == k - 1;
      var fewer := placed - {p};
      forall w: nat | w < k - 1 ensures w in fewer.Values {
        assert w in placed.Values;
        var q :| q in placed && placed[q] == w;
        assert q in fewer && fewer[q] == w;
      }
      GivenCount(fewer, k - 1);
      assert fewer.Keys == placed.Keys - {p};
    }
  }

  lemma {:induction false} PassedOverAfter(g: Graph, root: Name, s: State, run: seq<Action>)
    requires Acyclic(g) && root in g && Inv(g, root, s) && PassedOver(s) && Legal(g, s, run)
    ensures PassedOver(After(g, s, run))
    decreases |run|
  {
    if run != [] {
      PassedOverStep(g, s, run[0]);
      InvStep(g, root, s, run[0]);
      PassedOverAfter(g, root, Next(g, s, run[0]), run[1..]);
    }
  }

  lemma ParkedCount(names: set<Name>, s: State)
    requires PassedOver(s) && Shaped(s) && Named(names, s) && s.feeder != [] && s.feeder[0].Park?
    ensures |s.workers| < |names|
  {
    var p := s.feeder[0].plan;
    GivenCount(s.placed, |s.workers|);
    assert |s.placed.Keys + {p}| == |s.placed| + 1;
    Subsets(s.placed.Keys + {p}, names);
  }

  /** The feeder only ever parks when there are more plans than workers, so with at least as many
      workers as plans every run that cannot go on has emitted its Result: wait() returns. */
  lemma EnoughWorkers(g: Graph, root: Name, conc: nat, run: seq<Action>)
    requires Acyclic(g) && root in g && |Reachable(g, root)| <= QUEUE_SIZE && |Reachable(g, root)| <= conc
    requires Legal(g, Init(conc, root), run) && Stuck(g, After(g, Init(conc, root), run))
    ensures After(g, Init(conc, root), run).emitted.Some?
  {
    var s := After(g, Init(conc, root), run);
    StuckExactly(g, root, conc, run);
    NeverParked(g, root, conc, run);
  }

  lemma NeverParked(g: Graph, root: Name, conc: nat, run: seq<Action>)
    requires Acyclic(g) && root in g && |Reachable(g, root)| <= conc && Legal(g, Init(conc, root), run)
    ensures !LostWakeup(After(g, Init(conc, root), run))
  {
    var s := After(g, Init(conc, root), run);
    InvInit(g, root, conc);
    InvOccurs(g, root, conc, s);
    PassedOverAfter(g, root, Init(conc, root), run);
    if LostWakeup(s) { ParkedCount(Reachable(g, root), s); }
  }
}
