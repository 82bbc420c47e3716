/** The concurrent plan executor (planner/execute/worker.go) as a step relation.

    One feeder, one gatherer and any number of workers run as goroutines. Each action below is one
    step of one of them, and the steps of different goroutines interleave in any order. */
module PoolModel {
  import opened Base
  import opened Plans

  /** The capacity of planStartC and planDoneC. */
  const QUEUE_SIZE := 100

  /** How executePlan ended: a result with its Plan set, a result that only carries an error, or
      nil because the plan has no acting operation. */
  datatype Outcome = Succeeded | Failed | Nothing

  /** `origin` is known to the model even where the program passes on a nil result. */
  datatype PlanResult = PlanResult(origin: Name, outcome: Outcome)

  /** What the feeder still has to do, innermost call first. */
  datatype Task =
    | RunPending                     // call runPending
    | Sweep(todo: set<Name>)         // the range loop of runPending
    | Feed(plan: Name)               // call feedPlan
    | FeedMain(plan: Name)           // feedPlan, after its two loops
    | Enqueue(plan: Name)            // call enqueueOnePlan
    | Scan(plan: Name, next: nat)    // enqueueOnePlan, about to try worker `next`
    | Park(plan: Name)               // enqueueOnePlan, blocked on unblockWrkPoll
    | Notify(plan: Name)             // enqueueOnePlan, sending to planStartC
    | Drop(plan: Name)               // delete(pc.pending, plan)

  datatype Phase = Idle | Running(plan: Name) | Sending(res: PlanResult)

  /** A worker's one-slot channel and what its goroutine is doing. */
  datatype Worker = Worker(inbox: Option<Name>, phase: Phase)

  /** `last` remembers that the counter reached zero when the result was received. */
  datatype Gatherer =
    | Collecting
    | Delivering(res: PlanResult, last: bool)
    | Waking(last: bool)
    | Emitting
    | Stopped
    | Panicked(last: bool)

  datatype Event = Started(plan: Name) | Finished(plan: Name, outcome: Outcome)

  /** `sealed`, `placed` and `log` are history: no step reads them. `sealed` is the value of `seen`
      when the counter reached zero, `placed` says which worker each plan was given to, `log` lists
      the plan executions in the order they began and ended. */
  datatype State = State(
    feeder: seq<Task>,
    seen: set<Name>,
    pending: set<Name>,
    done: set<Name>,
    planStartC: seq<Name>,
    planDoneC: seq<PlanResult>,
    workers: seq<Worker>,
    n: int,
    gatherer: Gatherer,
    results: seq<PlanResult>,
    emitted: Option<seq<PlanResult>>,
    sealed: Option<set<Name>>,
    placed: map<Name, nat>,
    log: seq<Event>)

  datatype Action =
    | FeederStep(pick: Name)         // `pick` is the map key a range loop yields
    | ReceiveStart
    | ReceiveDone
    | Take(w: nat)
    | Finish(w: nat, outcome: Outcome)
    | Gather(w: nat)
    | Deliver
    | Wake
    | Emit

  /** newExecPool and start, then add(root). */
  function Init(conc: nat, root: Name): State {
    State([RunPending], {}, {}, {}, [root], [], seq(conc, _ => Worker(None, Idle)), 0,
          Collecting, [], None, None, map[], [])
  }

  /** planCache.areDepsComplete. */
  predicate DepsComplete(g: Graph, done: set<Name>, p: Name) {
    p in g && forall d :: d in g[p].dependencies ==> d in done
  }

  /** executePlan returns nil exactly for a plan without acting operations that met no error. */
  predicate MayEnd(g: Graph, p: Name, o: Outcome) {
    match o
    case Succeeded => p in g && HasRealOps(g[p])
    case Failed => true
    case Nothing => p in g && !HasRealOps(g[p])
  }

  predicate Enabled(g: Graph, s: State, a: Action) {
    match a
    case FeederStep(pick) =>
      s.feeder != [] &&
      (match s.feeder[0]
       case Sweep(todo) => todo == {} || pick in todo
       case Park(_) => false
       case Notify(_) => |s.planStartC| < QUEUE_SIZE
       case Feed(p) => p in g
       case FeedMain(p) => p in g
       case _ => true)
    case ReceiveStart => s.feeder == [] && s.planStartC != []
    case ReceiveDone => s.feeder == [] && s.planDoneC != []
    case Take(w) => w < |s.workers| && s.workers[w].phase.Idle? && s.workers[w].inbox.Some?
    case Finish(w, o) => w < |s.workers| && s.workers[w].phase.Running? && MayEnd(g, s.workers[w].phase.plan, o)
    case Gather(w) => w < |s.workers| && s.workers[w].phase.Sending? && s.gatherer.Collecting?
    case Deliver => s.gatherer.Delivering?
    case Wake => s.gatherer.Waking?
    case Emit => s.gatherer.Emitting?
  }

  function Feeds(plans: seq<Name>): (tasks: seq<Task>)
    ensures |tasks| == |plans| && forall i :: 0 <= i < |plans| ==> tasks[i] == Feed(plans[i])
  {
    seq(|plans|, i requires 0 <= i < |plans| => Feed(plans[i]))
  }

  /** One step of the feeder with work in hand. */
  function Work(g: Graph, s: State, pick: Name): State
    requires Enabled(g, s, FeederStep(pick))
  {
    var rest := s.feeder[1..];
    match s.feeder[0]
    case RunPending =>
      s.(feeder := [Sweep(s.pending)] + rest)
    case Sweep(todo) =>
      if todo == {} then s.(feeder := rest)
      else if DepsComplete(g, s.done, pick) then
        s.(feeder := [Enqueue(pick), Drop(pick), Sweep(todo - {pick})] + rest)
      else s.(feeder := [Sweep(todo - {pick})] + rest)
    case Feed(p) =>
      s.(feeder := Feeds(Children(g[p])) + [FeedMain(p)] + rest)
    case FeedMain(p) =>
      if HasRealOps(g[p]) && DepsComplete(g, s.done, p) then s.(feeder := [Enqueue(p)] + rest)
      else s.(pending := s.pending + {p}, feeder := rest)
    case Enqueue(p) =>
      if p in s.seen then s.(feeder := rest)
      else s.(seen := s.seen + {p}, n := s.n + 1, feeder := [Scan(p, 0)] + rest)
    case Scan(p, k) =>
      if k >= |s.workers| then s.(feeder := [Park(p)] + rest)
      else if s.workers[k].inbox.None? then
        s.(workers := s.workers[k := s.workers[k].(inbox := Some(p))], placed := s.placed[p := k],
           feeder := [Notify(p)] + rest)
      else s.(feeder := [Scan(p, k + 1)] + rest)
    case Notify(p) =>
      s.(planStartC := s.planStartC + [p], feeder := rest)
    case Drop(p) =>
      s.(pending := s.pending - {p}, feeder := rest)
  }

  function Next(g: Graph, s: State, a: Action): State
    requires Enabled(g, s, a)
  {
    match a
    case FeederStep(pick) => Work(g, s, pick)
    case ReceiveStart =>
      s.(planStartC := s.planStartC[1..], feeder := [RunPending, Feed(s.planStartC[0]), RunPending])
    case ReceiveDone =>
      var r := s.planDoneC[0];
      if r.outcome.Succeeded? then
        s.(planDoneC := s.planDoneC[1..], done := s.done + {r.origin}, feeder := [Feed(r.origin), RunPending])
      else s.(planDoneC := s.planDoneC[1..], feeder := [RunPending])
    case Take(w) =>
      var p := s.workers[w].inbox.value;
      s.(workers := s.workers[w := Worker(None, Running(p))], log := s.log + [Started(p)])
    case Finish(w, o) =>
      var p := s.workers[w].phase.plan;
      s.(workers := s.workers[w := s.workers[w].(phase := Sending(PlanResult(p, o)))], log := s.log + [Finished(p, o)])
    case Gather(w) =>
      var r := s.workers[w].phase.res;
      var last := s.n - 1 == 0;
      s.(workers := s.workers[w := s.workers[w].(phase := Idle)], n := s.n - 1, results := s.results + [r],
         gatherer := Delivering(r, last), sealed := if last then Some(s.seen) else s.sealed)
    case Deliver =>
      if |s.planDoneC| < QUEUE_SIZE then
        s.(planDoneC := s.planDoneC + [s.gatherer.res], gatherer := Waking(s.gatherer.last))
      else s.(gatherer := Panicked(s.gatherer.last))
    case Wake =>
      var next := if s.gatherer.last then Emitting else Collecting;
      if s.feeder != [] && s.feeder[0].Park? then
        s.(gatherer := next, feeder := [Scan(s.feeder[0].plan, 0)] + s.feeder[1..])
      else s.(gatherer := next)
    case Emit =>
      s.(gatherer := Stopped, emitted := Some(s.results))
  }

  /** Whether `run` can be taken from `s`, and the state it leads to. */
  predicate Legal(g: Graph, s: State, run: seq<Action>)
    decreases |run|
  {
    run == [] || (Enabled(g, s, run[0]) && Legal(g, Next(g, s, run[0]), run[1..]))
  }

  function After(g: Graph, s: State, run: seq<Action>): State
    requires Legal(g, s, run)
    decreases |run|
  {
    if run == [] then s else After(g, Next(g, s, run[0]), run[1..])
  }

  lemma {:induction false} LegalAppend(g: Graph, s: State, r1: seq<Action>, r2: seq<Action>)
    requires Legal(g, s, r1) && Legal(g, After(g, s, r1), r2)
    ensures Legal(g, s, r1 + r2) && After(g, s, r1 + r2) == After(g, After(g, s, r1), r2)
    decreases |r1|
  {
    if r1 == [] {
      assert r1 + r2 == r2;
    } else {
      LegalAppend(g, Next(g, s, r1[0]), r1[1..], r2);
      assert (r1 + r2)[1..] == r1[1..] + r2;
    }
  }

  /** What the feeder's own steps leave alone. */
  lemma WorkFrame(g: Graph, s: State, pick: Name)
    requires Enabled(g, s, FeederStep(pick))
    ensures var t := Work(g, s, pick);
            && t.done == s.done && t.planDoneC == s.planDoneC && t.gatherer == s.gatherer && t.results == s.results
            && t.emitted == s.emitted && t.sealed == s.sealed && t.log == s.log
            && s.seen <= t.seen && s.n <= t.n && |t.workers| == |s.workers|
  {
  }
}
