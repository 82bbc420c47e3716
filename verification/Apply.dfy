/** Running one plan against a host (planner/execute/execute.go, operator/state.go). */
module Apply {
  import opened Base
  import opened State

  /** The part of the host operators read and write: contents by location; a location that is not in
      the map does not exist there. */
  type Env = map<string, string>

  /** The state directory, holding for each key what decoding its file gives. */
  type Store = map<string, State>

  datatype Host = Host(env: Env, store: Store)

  datatype RunResult = RunResult(env: Env, ok: bool)

  /** An operation: its operator's name, its cache key, and the operator's methods on its arguments. */
  datatype Operator = Operator(
    name: string,
    key: string,
    run: Env -> RunResult,
    getState: Env -> Result<State>,
    desired: Option<Env -> Result<State>>,
    detector: Option<(State, State) -> Result<bool>>)

  datatype OperationResult = OperationResult(name: string, prevEmpty: bool, changed: bool, dirty: bool, executed: bool)

  const NEW_STATE := State([])

  predicate IsPlanOp(op: Operator) {
    op.name == "plan" || op.name == "dependency"
  }

  /** ReadState: a missing file reads as the empty state. */
  function Read(store: Store, key: string): State {
    if key in store then store[key] else NEW_STATE
  }

  /** SaveState followed by any later ReadState. */
  function Save(store: Store, key: string, st: State): Store {
    store[key := Reload(st)]
  }

  /** Every stored state was once written, so every file entry in it carries an Info. */
  predicate CarriesAll(store: Store) {
    forall k :: k in store ==> Carries(store[k])
  }

  datatype Reading = Reading(prev: State, curr: State)

  function ReadOp(op: Operator, host: Host): Result<Reading> {
    if IsPlanOp(op) then Ok(Reading(NEW_STATE, NEW_STATE))
    else
      match op.getState(host.env)
      case Err => Err
      case Ok(st) => Ok(Reading(Read(host.store, op.key), st))
  }

  function ReadAll(ops: seq<Operator>, host: Host): Result<seq<Reading>> {
    if ops == [] then Ok([])
    else
      match ReadAll(ops[..|ops| - 1], host)
      case Err => Err
      case Ok(rs) =>
        match ReadOp(ops[|ops| - 1], host)
        case Err => Err
        case Ok(r) => Ok(rs + [r])
  }

  /** getOpChanged. */
  function OpChanged(op: Operator, prev: State, curr: State, desired: State): Result<bool>
    requires Carries(prev)
  {
    var other := if !Empty(desired) then desired else curr;
    CarriesComparable(prev, other);
    match op.detector
    case Some(f) => f(prev, other)
    case None => Ok(StateChanged(prev, other))
  }

  function DesiredState(op: Operator, env: Env): Result<State> {
    match op.desired
    case None => Ok(NEW_STATE)
    case Some(f) => f(env)
  }

  /** How one operation ended; no result for a plan operation. */
  datatype Step = Step(host: Host, outcome: Result<Option<OperationResult>>)

  /** executeOperation, once it has decided to run the operation. */
  function RunAndSave(op: Operator, host: Host, wasDirty: bool, prev: State): (Host, Result<bool>)
    requires Carries(prev)
  {
    var r := op.run(host.env);
    var ran := Host(r.env, host.store);
    if !r.ok then (ran, Err)
    else
      match op.getState(r.env)
      case Err => (ran, Err)
      case Ok(final) =>
        CarriesSplit(prev);
        CarriesComparable(Target(final), Target(prev));
        var settled := !Empty(Target(final)) && !StateChanged(Target(final), Target(prev));
        (Host(r.env, Save(host.store, op.key, final)), Ok(!(settled && !wasDirty)))
  }

  function ExecuteOp(op: Operator, host: Host, dryrun: bool, wasDirty: bool, r: Reading): Step
    requires Carries(r.prev)
  {
    if IsPlanOp(op) then Step(host, Ok(None))
    else
      match DesiredState(op, host.env)
      case Err => Step(host, Err)
      case Ok(desired) =>
        CarriesSplit(r.prev);
        var prevEmpty := Empty(Source(r.prev));
        match OpChanged(op, Source(r.prev), Source(r.curr), desired)
        case Err => Step(host, Err)
        case Ok(changed) =>
          var dirty := wasDirty || prevEmpty || changed;
          if !dirty || dryrun then
            Step(host, Ok(Some(OperationResult(op.name, prevEmpty, changed, dirty, false))))
          else
            match RunAndSave(op, host, wasDirty, r.prev)
            case (h, Err) => Step(h, Err)
            case (h, Ok(still)) => Step(h, Ok(Some(OperationResult(op.name, prevEmpty, changed, still, true))))
  }

  /** Where the loop of executePlan stands. */
  datatype Outcome = Outcome(host: Host, results: seq<OperationResult>, dirty: bool, ok: bool)

  /** What executePlan does with the outcome of one operation. */
  function Advance(before: Outcome, step: Step): Outcome {
    match step.outcome
    case Err => Outcome(step.host, before.results, before.dirty, false)
    case Ok(None) => before.(host := step.host)
    case Ok(Some(r)) => Outcome(step.host, before.results + [r], before.dirty || r.dirty, true)
  }

  predicate CarriesReadings(rs: seq<Reading>) {
    forall i :: 0 <= i < |rs| ==> Carries(rs[i].prev)
  }

  function RunOps(ops: seq<Operator>, rs: seq<Reading>, host: Host, dryrun: bool): Outcome
    requires |ops| == |rs| && CarriesReadings(rs)
    decreases |ops|
  {
    if ops == [] then Outcome(host, [], false, true)
    else
      var m := |ops| - 1;
      var before := RunOps(ops[..m], rs[..m], host, dryrun);
      if !before.ok then before
      else
        Advance(before, ExecuteOp(ops[m], before.host, dryrun, before.dirty, rs[m]))
  }

  lemma {:induction false} ReadAllCarries(ops: seq<Operator>, host: Host)
    requires CarriesAll(host.store) && ReadAll(ops, host).Ok?
    ensures |ReadAll(ops, host).value| == |ops| && CarriesReadings(ReadAll(ops, host).value)
    ensures forall i :: 0 <= i < |ops| ==> Ok(ReadAll(ops, host).value[i]) == ReadOp(ops[i], host)
  {
    if ops != [] {
      ReadAllCarries(ops[..|ops| - 1], host);
    }
  }

  /** executePlan: all states are read before any operation runs. */
  function PlanOutcome(ops: seq<Operator>, host: Host, dryrun: bool): Outcome
    requires CarriesAll(host.store)
  {
    match ReadAll(ops, host)
    case Err => Outcome(host, [], false, false)
    case Ok(rs) =>
      ReadAllCarries(ops, host);
      RunOps(ops, rs, host, dryrun)
  }

  datatype PlanResult = PlanResult(operations: seq<OperationResult>, changed: bool)

  /** The host while a plan is applied to it. */
  class Applier {
    var env: Env
    var store: Store

    constructor (host: Host)
      ensures Current() == host
    {
      env, store := host.env, host.store;
    }

    function Current(): Host
      reads this
    {
      Host(env, store)
    }

    method ReadOpStates(ops: seq<Operator>) returns (r: Result<seq<Reading>>)
      ensures r == ReadAll(ops, Current())
    {
      var rs: seq<Reading> := [];
      for i := 0 to |ops|
        invariant ReadAll(ops[..i], Current()) == Ok(rs)
      {
        assert ops[..i + 1][..i] == ops[..i];
        match ReadOp(ops[i], Current()) {
          case Err =>
            ReadAllFails(ops, i + 1, Current());
            return Err;
          case Ok(reading) => rs := rs + [reading];
        }
      }
      assert ops[..|ops|] == ops;
      return Ok(rs);
    }

    method ExecuteOperation(op: Operator, dryrun: bool, wasDirty: bool, r: Reading) returns (outcome: Result<Option<OperationResult>>)
      requires Carries(r.prev)
      modifies this
      ensures Step(Current(), outcome) == ExecuteOp(op, old(Current()), dryrun, wasDirty, r)
    {
      if IsPlanOp(op) { return Ok(None); }
      CarriesSplit(r.prev);
      var prevSrc, prevTarget := Split(r.prev);
      var src, _ := Split(r.curr);
      var desired := NEW_STATE;
      if op.desired.Some? {
        match op.desired.value(env) {
          case Err => return Err;
          case Ok(d) => desired := d;
        }
      }
      var prevEmpty := Empty(prevSrc);
      var changed;
      match OpChanged(op, prevSrc, src, desired) {
        case Err => return Err;
        case Ok(c) => changed := c;
      }
      var dirty := wasDirty || prevEmpty || changed;
      var executed := false;
      if dirty && !dryrun {
        executed := true;
        var run := op.run(env);
        env := run.env;
        if !run.ok { return Err; }
        match op.getState(env) {
          case Err => return Err;
          case Ok(final) =>
            store := Save(store, op.key, final);
            var _, target := Split(final);
            CarriesComparable(target, prevTarget);
            StateChangedExactly(target, prevTarget);
            if !Empty(target) {
              var moved := ChangedState(target, prevTarget);
              if !moved && !wasDirty { dirty := false; }
            }
        }
      }
      return Ok(Some(OperationResult(op.name, prevEmpty, changed, dirty, executed)));
    }

    method ExecutePlan(ops: seq<Operator>, dryrun: bool) returns (r: Result<Option<PlanResult>>)
      requires CarriesAll(store)
      modifies this
      ensures var o := PlanOutcome(ops, old(Current()), dryrun);
              && Current() == o.host
              && r == (if !o.ok then Err else if o.results == [] then Ok(None) else Ok(Some(PlanResult(o.results, o.dirty))))
    {
      ghost var start := Current();
      var read := ReadOpStates(ops);
      if read.Err? { return Err; }
      var rs := read.value;
      ReadAllCarries(ops, start);
      var dirty, results := false, [];
      for i := 0 to |ops|
        invariant RunOps(ops[..i], rs[..i], start, dryrun) == Outcome(Current(), results, dirty, true)
      {
        OneMore(ops, rs, i, start, dryrun);
        var res := ExecuteOperation(ops[i], dryrun, dirty, rs[i]);
        match res {
          case Err =>
            RunOpsFails(ops, rs, i + 1, start, dryrun);
            return Err;
          case Ok(None) =>
          case Ok(Some(op)) =>
            if op.dirty { dirty := true; }
            results := results + [op];
        }
      }
      assert ops[..|ops|] == ops && rs[..|rs|] == rs;
      if |results| == 0 { return Ok(None); }
      return Ok(Some(PlanResult(results, dirty)));
    }
  }

  lemma {:induction false} ReadAllFails(ops: seq<Operator>, i: nat, host: Host)
    requires i <= |ops| && ReadAll(ops[..i], host).Err?
    ensures ReadAll(ops, host).Err?
    decreases |ops| - i
  {
    if i < |ops| {
      assert ops[..i + 1][..i] == ops[..i];
      ReadAllFails(ops, i + 1, host);
    } else {
      assert ops[..i] == ops;
    }
  }

  lemma OneMore(ops: seq<Operator>, rs: seq<Reading>, i: nat, host: Host, dryrun: bool)
    requires |ops| == |rs| && CarriesReadings(rs) && i < |ops|
    ensures var before := RunOps(ops[..i], rs[..i], host, dryrun);
            RunOps(ops[..i + 1], rs[..i + 1], host, dryrun) ==
            if !before.ok then before else Advance(before, ExecuteOp(ops[i], before.host, dryrun, before.dirty, rs[i]))
  {
    assert ops[..i + 1][..i] == ops[..i] && rs[..i + 1][..i] == rs[..i];
  }

  lemma {:induction false} RunOpsFails(ops: seq<Operator>, rs: seq<Reading>, i: nat, host: Host, dryrun: bool)
    requires |ops| == |rs| && CarriesReadings(rs) && i <= |ops| && !RunOps(ops[..i], rs[..i], host, dryrun).ok
    ensures RunOps(ops, rs, host, dryrun) == RunOps(ops[..i], rs[..i], host, dryrun)
    decreases |ops| - i
  {
    if i < |ops| {
      assert ops[..i + 1][..i] == ops[..i] && rs[..i + 1][..i] == rs[..i];
      RunOpsFails(ops, rs, i + 1, host, dryrun);
    } else {
      assert ops[..i] == ops && rs[..i] == rs;
    }
  }
}
