/** Lost wake-ups: exactly how many workers rule them out. */
module PoolWakeups {
  import opened Base
  import opened Plans
  import opened PoolModel
  import opened PoolInvariant
  import opened PoolSafety
  import opened PoolProgress

  /** A run leads from one state to the other. */
  ghost predicate Leads(g: Graph, s: State, t: State) {
    exists run :: Legal(g, s, run) && After(g, s, run) == t
  }

  lemma LeadsOn(g: Graph, s: State, t: State, u: State)
    requires Leads(g, s, t) && Leads(g, t, u)
    ensures Leads(g, s, u)
  {
    var first :| Legal(g, s, first) && After(g, s, first) == t;
    var second :| Legal(g, t, second) && After(g, t, second) == u;
    LegalAppend(g, s, first, second);
  }

  lemma LeadsStep(g: Graph, s: State, a: Action)
    requires Enabled(g, s, a)
    ensures Leads(g, s, Next(g, s, a))
  {
    var run := [a];
    assert run[1..] == [] && Legal(g, Next(g, s, a), run[1..]);
    assert Legal(g, s, run) && After(g, s, run) == Next(g, s, a);
  }

  lemma Then(g: Graph, s: State, t: State, a: Action)
    requires Leads(g, s, t) && Enabled(g, t, a)
    ensures Leads(g, s, Next(g, t, a))
  {
    LeadsStep(g, t, a);
    LeadsOn(g, s, t, Next(g, t, a));
  }

  // ---- A root with independent plans -----------------------------------------------------------

  const STEP := [Operation("noop", "k")]

  function PlanName(i: nat): (name: Name)
    ensures |name| == i
  {
    seq(i, _ => 'p')
  }

  function Leaves(k: nat): (names: seq<Name>)
    ensures |names| == k && forall i :: 0 <= i < k ==> names[i] == PlanName(i)
  {
    seq(k, i requires 0 <= i < k => PlanName(i))
  }

  ghost function NamesBelow(k: nat): set<Name> {
    set i | 0 <= i < k :: PlanName(i)
  }

  /** `n` plans: a root that contains all the others, and nothing depending on anything. */
  ghost function Star(n: nat): Graph
    requires n > 0
  {
    map p | p in NamesBelow(n) :: Plan(STEP, if |p| == n - 1 then Leaves(n - 1) else [], [])
  }

  lemma StarPlan(n: nat, i: nat)
    requires i < n
    ensures PlanName(i) in Star(n)
    ensures Children(Star(n)[PlanName(i)]) == if i == n - 1 then Leaves(n - 1) else []
    ensures forall done :: DepsComplete(Star(n), done, PlanName(i))
    ensures HasRealOps(Star(n)[PlanName(i)])
  {
    assert PlanName(i) in NamesBelow(n);
    assert STEP[0] in Star(n)[PlanName(i)].operations;
  }

  lemma StarAcyclic(n: nat)
    requires n > 0
    ensures Acyclic(Star(n))
  {
    var rank: Name -> nat := p => if |p| == n - 1 then 1 else 0;
    forall p, c | p in Star(n) && c in Children(Star(n)[p]) ensures c in Star(n) && rank(c) < rank(p) {
      assert |p| == n - 1;
      var i :| 0 <= i < n - 1 && c == PlanName(i);
      assert c in NamesBelow(n);
    }
    assert Ranked(Star(n), rank);
  }

  lemma {:induction false} NamesCount(k: nat)
    ensures |NamesBelow(k)| == k
  {
    if k > 0 {
      NamesCount(k - 1);
      assert NamesBelow(k) == NamesBelow(k - 1) + {PlanName(k - 1)};
      assert PlanName(k - 1) !in NamesBelow(k - 1);
    }
  }

  lemma StarSize(n: nat)
    requires n > 0
    ensures Acyclic(Star(n)) && PlanName(n - 1) in Star(n) && |Reachable(Star(n), PlanName(n - 1))| == n
  {
    var g, root := Star(n), PlanName(n - 1);
    StarAcyclic(n);
    StarPlan(n, n - 1);
    ReachableIsClosed(g, root);
    forall p | p in NamesBelow(n) ensures p in Reachable(g, root) {
      var i :| 0 <= i < n && p == PlanName(i);
      if i < n - 1 { assert Leaves(n - 1)[i] in Children(g[root]); }
    }
    assert Reachable(g, root) == NamesBelow(n);
    NamesCount(n);
  }

  // ---- The run ---------------------------------------------------------------------------------

  /** The first `k` plans are in the channels of the first `k` workers, and no worker has begun. */
  ghost predicate Filled(n: nat, conc: nat, k: nat, s: State)
    requires k < n
  {
    && s.feeder == Feeds(Leaves(n - 1)[k..]) + [FeedMain(PlanName(n - 1)), RunPending]
    && s.seen == NamesBelow(k) && |s.planStartC| == k && s.planDoneC == [] && s.n == k
    && |s.workers| == conc && (forall w :: 0 <= w < k && w < conc ==> s.workers[w] == Worker(Some(PlanName(w)), Idle))
    && (forall w :: k <= w < conc ==> s.workers[w] == Worker(None, Idle))
    && s.gatherer.Collecting? && s.emitted.None?
  }

  lemma Begin(n: nat, conc: nat) returns (s: State)
    requires n > 0
    ensures Leads(Star(n), Init(conc, PlanName(n - 1)), s) && Filled(n, conc, 0, s)
  {
    var g, root, f := Star(n), PlanName(n - 1), FeederStep("");
    var s0 := Init(conc, root);
    StarPlan(n, n - 1);
    LeadsStep(g, s0, f);
    s := Next(g, s0, f);
    assert s == s0.(feeder := [Sweep({})]);
    Then(g, s0, s, f);
    s := Next(g, s, f);
    assert s == s0.(feeder := []);
    Then(g, s0, s, ReceiveStart);
    s := Next(g, s, ReceiveStart);
    s := Unfold(g, s0, s, root);
    assert Leaves(n - 1)[0..] == Leaves(n - 1);
    assert Feeds(Leaves(n - 1)) + [FeedMain(root)] + [RunPending] == Feeds(Leaves(n - 1)) + [FeedMain(root), RunPending];
  }

  lemma Unfold(g: Graph, s0: State, s: State, root: Name) returns (t: State)
    requires Leads(g, s0, s) && s.feeder == [RunPending, Feed(root), RunPending] && s.pending == {} && root in g
    ensures t == s.(feeder := Feeds(Children(g[root])) + [FeedMain(root)] + [RunPending]) && Leads(g, s0, t)
  {
    var f := FeederStep("");
    Then(g, s0, s, f);
    t := Next(g, s, f);
    assert t == s.(feeder := [Sweep({}), Feed(root), RunPending]);
    Then(g, s0, t, f);
    t := Next(g, t, f);
    assert t == s.(feeder := [Feed(root), RunPending]);
    Then(g, s0, t, f);
    t := Next(g, t, f);
  }

  /** The feeder comes to a plan without dependencies and marks it seen. */
  lemma Mark(g: Graph, s0: State, s: State, p: Name) returns (t: State)
    requires Leads(g, s0, s) && s.feeder != [] && p in g && HasRealOps(g[p]) && DepsComplete(g, s.done, p) && p !in s.seen
    requires s.feeder[0] == FeedMain(p) || (s.feeder[0] == Feed(p) && Children(g[p]) == [])
    ensures Leads(g, s0, t)
    ensures t == s.(seen := s.seen + {p}, n := s.n + 1, feeder := [Scan(p, 0)] + s.feeder[1..])
  {
    var f, rest := FeederStep(""), s.feeder[1..];
    t := s;
    if s.feeder[0].Feed? {
      Then(g, s0, t, f);
      t := Next(g, t, f);
      assert Feeds([]) + [FeedMain(p)] + rest == [FeedMain(p)] + rest;
      assert t == s.(feeder := [FeedMain(p)] + rest);
    }
    Then(g, s0, t, f);
    t := Next(g, t, f);
    assert t == s.(feeder := [Enqueue(p)] + rest);
    Then(g, s0, t, f);
    t := Next(g, t, f);
  }

  /** Workers whose channels are full are passed over. */
  lemma {:induction false} PassFull(g: Graph, s0: State, s: State, p: Name, k: nat) returns (t: State)
    requires Leads(g, s0, s) && s.feeder != [] && s.feeder[0] == Scan(p, 0)
    requires k <= |s.workers| && forall w :: 0 <= w < k ==> s.workers[w].inbox.Some?
    ensures Leads(g, s0, t) && t == s.(feeder := [Scan(p, k)] + s.feeder[1..])
  {
    if k == 0 {
      t := s;
      assert s.feeder == [s.feeder[0]] + s.feeder[1..];
    } else {
      t := PassFull(g, s0, s, p, k - 1);
      Then(g, s0, t, FeederStep(""));
      t := Next(g, t, FeederStep(""));
    }
  }

  /** A plan is given to the first worker with an empty channel. */
  lemma Place(g: Graph, s0: State, s: State, p: Name, k: nat) returns (t: State)
    requires Leads(g, s0, s) && s.feeder != [] && s.feeder[0] == Scan(p, 0)
    requires k < |s.workers| && (forall w :: 0 <= w < k ==> s.workers[w].inbox.Some?) && s.workers[k].inbox.None?
    requires |s.planStartC| < QUEUE_SIZE
    ensures Leads(g, s0, t)
    ensures t == s.(workers := s.workers[k := s.workers[k].(inbox := Some(p))], placed := s.placed[p := k],
                    planStartC := s.planStartC + [p], feeder := s.feeder[1..])
  {
    var f, rest := FeederStep(""), s.feeder[1..];
    t := PassFull(g, s0, s, p, k);
    Then(g, s0, t, f);
    t := Next(g, t, f);
    assert t.feeder == [Notify(p)] + rest;
    Then(g, s0, t, f);
    t := Next(g, t, f);
  }

  lemma NextName(n: nat, k: nat)
    requires k < n
    ensures PlanName(k) !in NamesBelow(k) && NamesBelow(k + 1) == NamesBelow(k) + {PlanName(k)}
    ensures var feeder := Feeds(Leaves(n - 1)[k..]) + [FeedMain(PlanName(n - 1)), RunPending];
            feeder[0] == (if k < n - 1 then Feed(PlanName(k)) else FeedMain(PlanName(k)))
            && (k < n - 1 ==> feeder[1..] == Feeds(Leaves(n - 1)[k + 1..]) + [FeedMain(PlanName(n - 1)), RunPending])
  {
    if k < n - 1 {
      assert Leaves(n - 1)[k..] == [PlanName(k)] + Leaves(n - 1)[k + 1..];
      assert Feeds(Leaves(n - 1)[k..]) == [Feed(PlanName(k))] + Feeds(Leaves(n - 1)[k + 1..]);
    } else {
      assert Leaves(n - 1)[k..] == [];
    }
  }

  lemma {:induction false} Fill(n: nat, conc: nat, k: nat) returns (s: State)
    requires k <= conc < n <= QUEUE_SIZE
    ensures Leads(Star(n), Init(conc, PlanName(n - 1)), s) && Filled(n, conc, k, s)
  {
    if k == 0 {
      s := Begin(n, conc);
    } else {
      var before := Fill(n, conc, k - 1);
      s := FillNext(n, conc, k - 1, before);
    }
  }

  /** The next plan is given to the next worker. */
  lemma FillNext(n: nat, conc: nat, k: nat, before: State) returns (s: State)
    requires k < conc < n <= QUEUE_SIZE
    requires Leads(Star(n), Init(conc, PlanName(n - 1)), before) && Filled(n, conc, k, before)
    ensures Leads(Star(n), Init(conc, PlanName(n - 1)), s) && Filled(n, conc, k + 1, s)
  {
    var g, s0, p := Star(n), Init(conc, PlanName(n - 1)), PlanName(k);
    NextName(n, k);
    StarPlan(n, k);
    s := Mark(g, s0, before, p);
    s := Place(g, s0, s, p, k);
    assert s.feeder == before.feeder[1..];
  }

  /** The feeder has passed over all workers, and the first `i` of them have handed in their plans. */
  ghost predicate PassedAll(conc: nat, i: nat, s: State) {
    && s.feeder != [] && s.feeder[0].Scan? && s.feeder[0].next == conc == |s.workers|
    && |s.planDoneC| == i && s.n == conc + 1 - i && s.gatherer.Collecting? && s.emitted.None?
    && (forall w :: 0 <= w < i && w < conc ==> s.workers[w] == Worker(None, Idle))
    && (forall w :: i <= w < conc ==> s.workers[w] == Worker(Some(PlanName(w)), Idle))
  }

  lemma PassAll(n: nat, conc: nat) returns (s: State)
    requires conc < n <= QUEUE_SIZE
    ensures Leads(Star(n), Init(conc, PlanName(n - 1)), s) && PassedAll(conc, 0, s)
  {
    var g, s0, p := Star(n), Init(conc, PlanName(n - 1)), PlanName(conc);
    s := Fill(n, conc, conc);
    NextName(n, conc);
    StarPlan(n, conc);
    s := Mark(g, s0, s, p);
    s := PassFull(g, s0, s, p, conc);
  }

  /** One worker takes its plan, runs it, and the result is gathered and delivered. Nobody waits for
      the wake-up. */
  lemma HandIn(g: Graph, s0: State, s: State, conc: nat, i: nat) returns (t: State)
    requires Leads(g, s0, s) && PassedAll(conc, i, s) && i < conc < QUEUE_SIZE
    requires PlanName(i) in g && HasRealOps(g[PlanName(i)])
    ensures Leads(g, s0, t) && PassedAll(conc, i + 1, t)
  {
    var p := PlanName(i);
    Then(g, s0, s, Take(i));
    t := Next(g, s, Take(i));
    Then(g, s0, t, Finish(i, Succeeded));
    t := Next(g, t, Finish(i, Succeeded));
    Then(g, s0, t, Gather(i));
    t := Next(g, t, Gather(i));
    Then(g, s0, t, Deliver);
    t := Next(g, t, Deliver);
    Then(g, s0, t, Wake);
    t := Next(g, t, Wake);
  }

  lemma {:induction false} HandInAll(n: nat, conc: nat, i: nat) returns (s: State)
    requires i <= conc < n <= QUEUE_SIZE
    ensures Leads(Star(n), Init(conc, PlanName(n - 1)), s) && PassedAll(conc, i, s)
  {
    if i == 0 {
      s := PassAll(n, conc);
    } else {
      s := HandInAll(n, conc, i - 1);
      StarPlan(n, i - 1);
      s := HandIn(Star(n), Init(conc, PlanName(n - 1)), s, conc, i - 1);
    }
  }

  /** With fewer workers than plans the wake-up can be lost: the workers take, run and hand in their
      plans after the feeder found their channels full and before it waits. */
  lemma WakeupCanBeLost(n: nat, conc: nat) returns (s: State)
    requires conc < n <= QUEUE_SIZE
    ensures Acyclic(Star(n)) && PlanName(n - 1) in Star(n) && |Reachable(Star(n), PlanName(n - 1))| == n
    ensures Occurs(Star(n), PlanName(n - 1), conc, s) && LostWakeup(s)
  {
    StarSize(n);
    s := HandInAll(n, conc, conc);
    var g, s0 := Star(n), Init(conc, PlanName(n - 1));
    Then(g, s0, s, FeederStep(""));
    s := Next(g, s, FeederStep(""));
    var run :| Legal(g, s0, run) && After(g, s0, run) == s;
  }

  /** Every run that can go no further has emitted its Result. */
  ghost predicate AlwaysEmits(g: Graph, root: Name, conc: nat) {
    forall run :: Legal(g, Init(conc, root), run) && Stuck(g, After(g, Init(conc, root), run)) ==>
      After(g, Init(conc, root), run).emitted.Some?
  }

  /** For up to 100 plans: a number of workers lets every graph of that many plans emit in every run
      that can go no further if and only if it is at least the number of plans. */
  lemma EnoughWorkersExactly(n: nat, conc: nat)
    requires 0 < n <= QUEUE_SIZE
    ensures (forall g, root :: Acyclic(g) && root in g && |Reachable(g, root)| == n ==> AlwaysEmits(g, root, conc)) <==> n <= conc
  {
    if n <= conc {
      forall g, root | Acyclic(g) && root in g && |Reachable(g, root)| == n ensures AlwaysEmits(g, root, conc) {
        forall run | Legal(g, Init(conc, root), run) && Stuck(g, After(g, Init(conc, root), run))
          ensures After(g, Init(conc, root), run).emitted.Some? {
          EnoughWorkers(g, root, conc, run);
        }
      }
    } else {
      var s := WakeupCanBeLost(n, conc);
      var g, root := Star(n), PlanName(n - 1);
      var run :| Legal(g, Init(conc, root), run) && After(g, Init(conc, root), run) == s;
      StuckExactly(g, root, conc, run);
      assert !AlwaysEmits(g, root, conc);
    }
  }
}
