/** What a wake-up makes the feeder do, and the order in which the queues pass things on. */
module PoolQueues {
  import opened Base
  import opened Plans
  import opened PoolModel
  import opened PoolSafety

  // ---- Trying the workers ----------------------------------------------------------------------

  /** The feeder goes on for `n` steps, and nobody else does. */
  function FeederOnly(n: nat): (run: seq<Action>)
    ensures |run| == n && forall i :: 0 <= i < n ==> run[i].FeederStep?
  {
    seq(n, _ => FeederStep(""))
  }

  /** The first worker from `j` on with an empty channel is `k`; without one `k` is their number. */
  ghost predicate FirstFree(s: State, j: nat, k: nat) {
    && j <= k <= |s.workers| && (forall w :: j <= w < k ==> s.workers[w].inbox.Some?)
    && (k < |s.workers| ==> s.workers[k].inbox.None?)
  }

  /** The plan is given to worker `k`, and the feeder goes on to planStartC; or the feeder waits. */
  ghost predicate Tried(s: State, p: Name, rest: seq<Task>, k: nat, t: State) {
    if k < |s.workers| then
      t == s.(workers := s.workers[k := Worker(Some(p), s.workers[k].phase)], placed := s.placed[p := k], feeder := [Notify(p)] + rest)
    else t == s.(feeder := [Park(p)] + rest)
  }

  lemma StepFirst(g: Graph, s: State, a: Action, run: seq<Action>)
    requires Enabled(g, s, a) && Legal(g, Next(g, s, a), run)
    ensures Legal(g, s, [a] + run) && After(g, s, [a] + run) == After(g, Next(g, s, a), run)
  {
    assert ([a] + run)[1..] == run;
  }

  /** From any state the feeder finds the first free worker, or waits when there is none. */
  lemma {:induction false} ScanTries(g: Graph, s: State, j: nat, k: nat)
    requires s.feeder != [] && s.feeder[0].Scan? && s.feeder[0].next == j && FirstFree(s, j, k)
    ensures Legal(g, s, FeederOnly(k - j + 1)) && Tried(s, s.feeder[0].plan, s.feeder[1..], k, After(g, s, FeederOnly(k - j + 1)))
    decreases k - j
  {
    var f, t := FeederStep(""), Next(g, s, FeederStep(""));
    assert FeederOnly(k - j + 1) == [f] + FeederOnly(k - j);
    if j < k {
      ScanTries(g, t, j + 1, k);
    } else {
      assert FeederOnly(0) == [];
    }
    StepFirst(g, s, f, FeederOnly(k - j));
  }

  /** A wake-up that is taken makes a waiting feeder try every worker again, from the first: the plan it
      holds is given to the first worker with an empty channel, and only without one does it wait
      again. */
  lemma WakeTries(g: Graph, s: State, k: nat)
    requires s.feeder != [] && s.feeder[0].Park? && Enabled(g, s, Wake) && FirstFree(s, 0, k)
    ensures var run := [Wake] + FeederOnly(k + 1);
            && Legal(g, s, run)
            && (exists gt :: Tried(s.(gatherer := gt), s.feeder[0].plan, s.feeder[1..], k, After(g, s, run)))
            && (After(g, s, run).gatherer == if s.gatherer.last then Emitting else Collecting)
  {
    var t := Next(g, s, Wake);
    ScanTries(g, t, 0, k);
    StepFirst(g, s, Wake, FeederOnly(k + 1));
    assert Tried(s.(gatherer := t.gatherer), s.feeder[0].plan, s.feeder[1..], k, After(g, s, [Wake] + FeederOnly(k + 1)));
  }

  /** enqueueOnePlan on a plan not seen before does the same. */
  lemma EnqueueTries(g: Graph, s: State, p: Name, k: nat)
    requires s.feeder != [] && s.feeder[0] == Enqueue(p) && p !in s.seen && FirstFree(s, 0, k)
    ensures Legal(g, s, FeederOnly(k + 2))
    ensures Tried(s.(seen := s.seen + {p}, n := s.n + 1), p, s.feeder[1..], k, After(g, s, FeederOnly(k + 2)))
  {
    var f, t := FeederStep(""), Next(g, s, FeederStep(""));
    assert FeederOnly(k + 2) == [f] + FeederOnly(k + 1);
    ScanTries(g, t, 0, k);
    StepFirst(g, s, f, FeederOnly(k + 1));
  }

  // ---- Who can go on ---------------------------------------------------------------------------

  /** A goroutine can go on or not by what it itself reads, whatever the others are doing. */
  lemma EnabledLocal(g: Graph, s: State, t: State, w: nat, o: Outcome, pick: Name)
    ensures w < |s.workers| && w < |t.workers| && s.workers[w] == t.workers[w] ==>
              && Enabled(g, s, Take(w)) == Enabled(g, t, Take(w)) && Enabled(g, s, Finish(w, o)) == Enabled(g, t, Finish(w, o))
              && (s.gatherer == t.gatherer ==> Enabled(g, s, Gather(w)) == Enabled(g, t, Gather(w)))
    ensures s.gatherer == t.gatherer ==>
              Enabled(g, s, Deliver) == Enabled(g, t, Deliver) && Enabled(g, s, Wake) == Enabled(g, t, Wake) && Enabled(g, s, Emit) == Enabled(g, t, Emit)
    ensures s.feeder == t.feeder && s.planStartC == t.planStartC ==>
              Enabled(g, s, ReceiveStart) == Enabled(g, t, ReceiveStart) && Enabled(g, s, FeederStep(pick)) == Enabled(g, t, FeederStep(pick))
    ensures s.feeder == t.feeder && s.planDoneC == t.planDoneC ==> Enabled(g, s, ReceiveDone) == Enabled(g, t, ReceiveDone)
  {
  }

  // ---- First in, first out ---------------------------------------------------------------------

  /** What a step sends to planStartC, and what it receives from there. */
  function StartSent(s: State, a: Action): seq<Name> {
    if a.FeederStep? && s.feeder != [] && s.feeder[0].Notify? then [s.feeder[0].plan] else []
  }

  function StartReceived(s: State, a: Action): seq<Name> {
    if a.ReceiveStart? && s.planStartC != [] then [s.planStartC[0]] else []
  }

  function DoneReceived(s: State, a: Action): seq<PlanResult> {
    if a.ReceiveDone? && s.planDoneC != [] then [s.planDoneC[0]] else []
  }

  /** Over a whole run. */
  function Collect<T>(g: Graph, s: State, run: seq<Action>, f: (State, Action) -> seq<T>): seq<T>
    requires Legal(g, s, run)
    decreases |run|
  {
    if run == [] then [] else f(s, run[0]) + Collect(g, Next(g, s, run[0]), run[1..], f)
  }

  /** The result that the gatherer holds and has not handed on. */
  function InHand(gt: Gatherer): seq<PlanResult> {
    if gt.Delivering? then [gt.res] else []
  }

  lemma StartStep(g: Graph, s: State, a: Action)
    requires Enabled(g, s, a)
    ensures s.planStartC + StartSent(s, a) == StartReceived(s, a) + Next(g, s, a).planStartC
  {
  }

  lemma {:induction false} StartOrder(g: Graph, s: State, run: seq<Action>)
    requires Legal(g, s, run)
    ensures s.planStartC + Collect(g, s, run, StartSent) == Collect(g, s, run, StartReceived) + After(g, s, run).planStartC
    decreases |run|
  {
    if run != [] {
      var t := Next(g, s, run[0]);
      StartStep(g, s, run[0]);
      StartOrder(g, t, run[1..]);
      QueuesJoin(s.planStartC, StartSent(s, run[0]), StartReceived(s, run[0]), t.planStartC,
                 Collect(g, t, run[1..], StartSent), Collect(g, t, run[1..], StartReceived), After(g, s, run).planStartC);
    }
  }

  lemma QueuesJoin<T>(q: seq<T>, sent: seq<T>, got: seq<T>, q': seq<T>, sent': seq<T>, got': seq<T>, q'': seq<T>)
    requires q + sent == got + q' && q' + sent' == got' + q''
    ensures q + (sent + sent') == got + got' + q''
  {
    assert q + (sent + sent') == (q + sent) + sent';
    assert (got + q') + sent' == got + (q' + sent');
  }

  /** The plans that the feeder takes from planStartC are the root and then those it gave to workers, in
      that order. */
  lemma StartInOrder(g: Graph, root: Name, conc: nat, run: seq<Action>)
    requires Legal(g, Init(conc, root), run)
    ensures [root] + Collect(g, Init(conc, root), run, StartSent)
         == Collect(g, Init(conc, root), run, StartReceived) + After(g, Init(conc, root), run).planStartC
  {
    StartOrder(g, Init(conc, root), run);
  }

  /** The results gathered from some state on, except those still on their way to the feeder. */
  ghost predicate OnTheWay(before: seq<PlanResult>, got: seq<PlanResult>, s: State) {
    s.gatherer.Panicked? || s.results == before + got + s.planDoneC + InHand(s.gatherer)
  }

  lemma DoneStep(g: Graph, s: State, a: Action, before: seq<PlanResult>)
    requires Enabled(g, s, a) && OnTheWay(before, [], s)
    ensures OnTheWay(before, DoneReceived(s, a), Next(g, s, a))
  {
  }

  lemma {:induction false} DoneOrder(g: Graph, s: State, run: seq<Action>, before: seq<PlanResult>)
    requires Legal(g, s, run) && OnTheWay(before, [], s)
    ensures OnTheWay(before, Collect(g, s, run, DoneReceived), After(g, s, run))
    decreases |run|
  {
    if run != [] {
      var t, one := Next(g, s, run[0]), DoneReceived(s, run[0]);
      DoneStep(g, s, run[0], before);
      assert before + one == before + one + [];
      DoneOrder(g, t, run[1..], before + one);
      assert before + one + Collect(g, t, run[1..], DoneReceived) == before + (one + Collect(g, t, run[1..], DoneReceived));
    } else {
      assert before + [] == before;
    }
  }

  /** The feeder receives the results in the order in which they were gathered, each once: what it has
      received, what is queued and what the gatherer holds make up the list of results. */
  lemma DoneInOrder(g: Graph, root: Name, conc: nat, run: seq<Action>)
    requires Acyclic(g) && root in g && |Reachable(g, root)| <= QUEUE_SIZE && Legal(g, Init(conc, root), run)
    ensures var s := After(g, Init(conc, root), run);
            s.results == Collect(g, Init(conc, root), run, DoneReceived) + s.planDoneC + InHand(s.gatherer)
  {
    NeverFull(g, root, conc, run);
    DoneOrder(g, Init(conc, root), run, []);
    assert [] + Collect(g, Init(conc, root), run, DoneReceived) == Collect(g, Init(conc, root), run, DoneReceived);
  }
}
