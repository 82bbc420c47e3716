/** What one plan run decides, executes and stores. */
module ApplyFacts {
  import opened Base
  import opened State
  import opened Apply

  /** Where the run stands just before operation `i`. */
  function Before(ops: seq<Operator>, host: Host, dryrun: bool, i: nat): Outcome
    requires CarriesAll(host.store) && ReadAll(ops, host).Ok? && i <= |ops|
  {
    ReadAllCarries(ops, host);
    RunOps(ops[..i], ReadAll(ops, host).value[..i], host, dryrun)
  }

  lemma BeforeNext(ops: seq<Operator>, host: Host, dryrun: bool, i: nat)
    requires CarriesAll(host.store) && ReadAll(ops, host).Ok? && i < |ops| && Before(ops, host, dryrun, i).ok
    ensures i < |ReadAll(ops, host).value| && Carries(ReadAll(ops, host).value[i].prev)
    ensures ReadOp(ops[i], host) == Ok(ReadAll(ops, host).value[i])
    ensures var b := Before(ops, host, dryrun, i);
            var step := ExecuteOp(ops[i], b.host, dryrun, b.dirty, ReadAll(ops, host).value[i]);
            Before(ops, host, dryrun, i + 1) == Advance(b, step)
  {
    ReadAllCarries(ops, host);
    var rs := ReadAll(ops, host).value;
    assert ops[..i + 1][..i] == ops[..i] && rs[..i + 1][..i] == rs[..i];
  }

  lemma BeforeEnd(ops: seq<Operator>, host: Host, dryrun: bool)
    requires CarriesAll(host.store) && ReadAll(ops, host).Ok?
    ensures Before(ops, host, dryrun, |ops|) == PlanOutcome(ops, host, dryrun)
  {
    ReadAllCarries(ops, host);
    assert ops[..|ops|] == ops && ReadAll(ops, host).value[..|ops|] == ReadAll(ops, host).value;
  }

  /** A run that succeeds never failed on the way. */
  lemma {:induction false} OkBefore(ops: seq<Operator>, host: Host, dryrun: bool, i: nat)
    requires CarriesAll(host.store) && PlanOutcome(ops, host, dryrun).ok && i <= |ops|
    ensures ReadAll(ops, host).Ok? && Before(ops, host, dryrun, i).ok
  {
    ReadAllCarries(ops, host);
    var rs := ReadAll(ops, host).value;
    if !RunOps(ops[..i], rs[..i], host, dryrun).ok {
      RunOpsFails(ops, rs, i, host, dryrun);
    }
  }

  /** Dirty results come last, and the flag is that of the last one. */
  ghost predicate Suffixed(results: seq<OperationResult>, dirty: bool) {
    && (forall j, k :: 0 <= j < k < |results| && results[j].dirty ==> results[k].dirty)
    && (dirty <==> |results| > 0 && results[|results| - 1].dirty)
  }

  lemma StaysDirty(op: Operator, host: Host, dryrun: bool, r: Reading)
    requires Carries(r.prev)
    ensures var s := ExecuteOp(op, host, dryrun, true, r); s.outcome.Ok? && s.outcome.value.Some? ==> s.outcome.value.value.dirty
  {
  }

  lemma SuffixedAppend(results: seq<OperationResult>, dirty: bool, r: OperationResult)
    requires Suffixed(results, dirty) && (dirty ==> r.dirty)
    ensures Suffixed(results + [r], dirty || r.dirty)
  {
    var longer := results + [r];
    forall j, k | 0 <= j < k < |longer| && longer[j].dirty ensures longer[k].dirty {
      if k == |results| { assert results[|results| - 1].dirty; }
    }
  }

  lemma {:induction false} DirtySuffix(ops: seq<Operator>, host: Host, dryrun: bool, i: nat)
    requires CarriesAll(host.store) && PlanOutcome(ops, host, dryrun).ok && i <= |ops|
    ensures ReadAll(ops, host).Ok?
    ensures Suffixed(Before(ops, host, dryrun, i).results, Before(ops, host, dryrun, i).dirty)
    decreases i
  {
    OkBefore(ops, host, dryrun, i);
    if i > 0 {
      OkBefore(ops, host, dryrun, i - 1);
      DirtySuffix(ops, host, dryrun, i - 1);
      BeforeNext(ops, host, dryrun, i - 1);
      SuffixedNext(ops[i - 1], Before(ops, host, dryrun, i - 1), dryrun, ReadAll(ops, host).value[i - 1]);
    }
  }

  lemma SuffixedNext(op: Operator, b: Outcome, dryrun: bool, r: Reading)
    requires Carries(r.prev) && b.ok && Suffixed(b.results, b.dirty) && Advance(b, ExecuteOp(op, b.host, dryrun, b.dirty, r)).ok
    ensures var t := Advance(b, ExecuteOp(op, b.host, dryrun, b.dirty, r)); Suffixed(t.results, t.dirty)
  {
    var step := ExecuteOp(op, b.host, dryrun, b.dirty, r);
    if step.outcome.value.Some? {
      if b.dirty { StaysDirty(op, b.host, dryrun, r); }
      SuffixedAppend(b.results, b.dirty, step.outcome.value.value);
    }
  }

  /** In a successful plan run the results are a clean prefix and a dirty suffix, and the plan counts
      as changed exactly when the suffix is not empty. */
  lemma CleanThenDirty(ops: seq<Operator>, host: Host, dryrun: bool) returns (cut: nat)
    requires CarriesAll(host.store) && PlanOutcome(ops, host, dryrun).ok
    ensures var o := PlanOutcome(ops, host, dryrun);
            && cut <= |o.results|
            && (forall i :: 0 <= i < |o.results| ==> (o.results[i].dirty <==> cut <= i))
            && (o.dirty <==> cut < |o.results|)
  {
    OkBefore(ops, host, dryrun, |ops|);
    BeforeEnd(ops, host, dryrun);
    DirtySuffix(ops, host, dryrun, |ops|);
    cut := FirstDirty(PlanOutcome(ops, host, dryrun).results, PlanOutcome(ops, host, dryrun).dirty);
  }

  lemma FirstDirty(rs: seq<OperationResult>, dirty: bool) returns (cut: nat)
    requires Suffixed(rs, dirty)
    ensures cut <= |rs| && (dirty <==> cut < |rs|) && forall i :: 0 <= i < |rs| ==> (rs[i].dirty <==> cut <= i)
  {
    cut := 0;
    while cut < |rs| && !rs[cut].dirty
      invariant cut <= |rs| && forall i :: 0 <= i < cut ==> !rs[i].dirty
    {
      cut := cut + 1;
    }
  }

  /** What an operation's saved source is compared with: what it wants, if it says so, or what it is. */
  ghost predicate ComparedWith(op: Operator, env: Env, curr: State, other: State) {
    match op.desired
    case None => other == curr
    case Some(f) => f(env).Ok? && other == if f(env).value.entries != [] then f(env).value else curr
  }

  /** The outcome of that comparison: the operator's own, or that of the views. */
  ghost predicate ChangeFound(op: Operator, prev: State, other: State, changed: bool) {
    match op.detector
    case Some(f) => f(prev, other) == Ok(changed)
    case None => changed == (Views(prev) != Views(other))
  }

  /** One operation's result, field by field. `other` is what its saved source was compared with. */
  ghost predicate ResultIs(op: Operator, before: Host, after: Host, wasDirty: bool, dryrun: bool, r: Reading, other: State, o: OperationResult) {
    && ComparedWith(op, before.env, Source(r.curr), other)
    && ChangeFound(op, Source(r.prev), other, o.changed)
    && o.name == op.name && o.prevEmpty == (Source(r.prev).entries == [])
    && (o.executed <==> !dryrun && (wasDirty || o.prevEmpty || o.changed))
    && (!o.executed ==> after == before && o.dirty == (wasDirty || o.prevEmpty || o.changed))
    && (o.executed ==>
          && op.run(before.env) == RunResult(after.env, true) && op.getState(after.env).Ok?
          && (var final := op.getState(after.env).value;
              && after.store == before.store[op.key := Reload(final)]
              && (o.dirty <==> wasDirty || Target(final).entries == [] || Views(Target(final)) != Views(Target(r.prev)))))
  }

  /** The operation is run: it is not a dry run, and something asks for it. */
  ghost predicate Runs(op: Operator, before: Host, wasDirty: bool, dryrun: bool, r: Reading) {
    && !dryrun
    && (exists other, changed ::
          && ComparedWith(op, before.env, Source(r.curr), other) && ChangeFound(op, Source(r.prev), other, changed)
          && (wasDirty || Source(r.prev).entries == [] || changed))
  }

  /** What can end the plan at an operation: the question for the desired state, the comparison, the
      run, or the question for the state after it. */
  ghost predicate Fails(op: Operator, before: Host, wasDirty: bool, dryrun: bool, r: Reading) {
    || (op.desired.Some? && op.desired.value(before.env).Err?)
    || (exists other :: ComparedWith(op, before.env, Source(r.curr), other) && op.detector.Some? && op.detector.value(Source(r.prev), other).Err?)
    || (Runs(op, before, wasDirty, dryrun, r) && (!op.run(before.env).ok || op.getState(op.run(before.env).env).Err?))
  }

  /** executeOperation on an acting operation: it fails exactly when something it asks for fails, and
      otherwise reports, runs and saves as the states decide. */
  lemma StepExactly(op: Operator, before: Host, dryrun: bool, wasDirty: bool, r: Reading) returns (other: State)
    requires Carries(r.prev) && op.name != "plan" && op.name != "dependency"
    ensures var s := ExecuteOp(op, before, dryrun, wasDirty, r);
            && (s.outcome.Err? <==> Fails(op, before, wasDirty, dryrun, r))
            && (s.outcome.Err? ==> s.host == if Runs(op, before, wasDirty, dryrun, r) then Host(op.run(before.env).env, before.store) else before)
            && (s.outcome.Ok? ==> s.outcome.value.Some? && ResultIs(op, before, s.host, wasDirty, dryrun, r, other, s.outcome.value.value))
  {
    other := Against(op, before.env, Source(r.curr));
    CarriesSplit(r.prev);
    RunsExactly(op, before, wasDirty, dryrun, r, other);
    CarriesComparable(Source(r.prev), other);
    StateChangedExactly(Source(r.prev), other);
    var final := op.getState(op.run(before.env).env);
    if final.Ok? {
      CarriesComparable(Target(final.value), Target(r.prev));
      StateChangedExactly(Target(final.value), Target(r.prev));
    }
    var st := ExecuteOp(op, before, dryrun, wasDirty, r);
    AnswersOrFails(op, Source(r.prev), other);
    if st.outcome.Err? { assert Fails(op, before, wasDirty, dryrun, r); }
  }

  lemma AnswersOrFails(op: Operator, prev: State, other: State)
    ensures ChangeFound(op, prev, other, true) || ChangeFound(op, prev, other, false) || (op.detector.Some? && op.detector.value(prev, other).Err?)
  {
    if op.detector.Some? && op.detector.value(prev, other).Ok? {
      assert ChangeFound(op, prev, other, op.detector.value(prev, other).value);
    }
  }

  lemma RunsExactly(op: Operator, before: Host, wasDirty: bool, dryrun: bool, r: Reading, other: State)
    requires forall o :: ComparedWith(op, before.env, Source(r.curr), o) ==> o == other
    ensures Runs(op, before, wasDirty, dryrun, r) <==>
              && !dryrun && ComparedWith(op, before.env, Source(r.curr), other)
              && (ChangeFound(op, Source(r.prev), other, true)
                  || (ChangeFound(op, Source(r.prev), other, false) && (wasDirty || Source(r.prev).entries == [])))
  {
    if ComparedWith(op, before.env, Source(r.curr), other) {
      forall changed | ChangeFound(op, Source(r.prev), other, changed) ensures changed || ChangeFound(op, Source(r.prev), other, false) {}
    }
  }

  lemma Against(op: Operator, env: Env, curr: State) returns (other: State)
    ensures op.desired.None? || op.desired.value(env).Ok? ==> ComparedWith(op, env, curr, other)
    ensures forall o :: ComparedWith(op, env, curr, o) ==> o == other
    ensures op.desired.Some? && op.desired.value(env).Err? ==> forall o :: !ComparedWith(op, env, curr, o)
  {
    other := curr;
    if op.desired.Some? && op.desired.value(env).Ok? && op.desired.value(env).value.entries != [] {
      other := op.desired.value(env).value;
    }
  }

  /** The result that a successful plan run has for an acting operation. The stored state and the host
      state compared are those from before the first operation ran; the dirty flag is set exactly when
      an earlier result is dirty. */
  lemma ExecutedExactly(ops: seq<Operator>, host: Host, dryrun: bool, i: nat) returns (other: State)
    requires CarriesAll(host.store) && PlanOutcome(ops, host, dryrun).ok && i < |ops| && ops[i].name != "plan" && ops[i].name != "dependency"
    ensures ReadAll(ops, host).Ok? && Before(ops, host, dryrun, i).ok && Before(ops, host, dryrun, i + 1).ok
    ensures ops[i].getState(host.env).Ok?
    ensures var b, a := Before(ops, host, dryrun, i), Before(ops, host, dryrun, i + 1);
            var prev := if ops[i].key in host.store then host.store[ops[i].key] else State([]);
            && |a.results| == |b.results| + 1 && a.results[..|b.results|] == b.results
            && ResultIs(ops[i], b.host, a.host, exists j :: 0 <= j < |b.results| && b.results[j].dirty, dryrun,
                        Reading(prev, ops[i].getState(host.env).value), other, a.results[|b.results|])
  {
    OkBefore(ops, host, dryrun, i);
    OkBefore(ops, host, dryrun, i + 1);
    BeforeNext(ops, host, dryrun, i);
    DirtySuffix(ops, host, dryrun, i);
    var b := Before(ops, host, dryrun, i);
    assert b.dirty <==> exists j :: 0 <= j < |b.results| && b.results[j].dirty;
    other := StepExactly(ops[i], b.host, dryrun, b.dirty, ReadAll(ops, host).value[i]);
  }

  /** "plan" and "dependency" operations do nothing and have no result. */
  lemma PlanOpsPass(ops: seq<Operator>, host: Host, dryrun: bool, i: nat)
    requires CarriesAll(host.store) && PlanOutcome(ops, host, dryrun).ok && i < |ops| && (ops[i].name == "plan" || ops[i].name == "dependency")
    ensures ReadAll(ops, host).Ok? && Before(ops, host, dryrun, i + 1) == Before(ops, host, dryrun, i)
  {
    OkBefore(ops, host, dryrun, i);
    BeforeNext(ops, host, dryrun, i);
  }

  predicate OnlyPlanOps(ops: seq<Operator>) {
    forall j :: 0 <= j < |ops| ==> ops[j].name == "plan" || ops[j].name == "dependency"
  }

  lemma OnlyPlanOpsNext(ops: seq<Operator>, i: nat)
    requires i < |ops|
    ensures OnlyPlanOps(ops[..i + 1]) <==> OnlyPlanOps(ops[..i]) && (ops[i].name == "plan" || ops[i].name == "dependency")
  {
    assert ops[..i + 1] == ops[..i] + [ops[i]];
  }

  lemma NextResult(ops: seq<Operator>, host: Host, dryrun: bool, i: nat)
    requires CarriesAll(host.store) && PlanOutcome(ops, host, dryrun).ok && i < |ops|
    ensures ReadAll(ops, host).Ok?
    ensures Before(ops, host, dryrun, i + 1).results == [] <==>
              Before(ops, host, dryrun, i).results == [] && (ops[i].name == "plan" || ops[i].name == "dependency")
  {
    if ops[i].name == "plan" || ops[i].name == "dependency" {
      PlanOpsPass(ops, host, dryrun, i);
    } else {
      var _ := ExecutedExactly(ops, host, dryrun, i);
    }
  }

  lemma {:induction false} NoResults(ops: seq<Operator>, host: Host, dryrun: bool, i: nat)
    requires CarriesAll(host.store) && PlanOutcome(ops, host, dryrun).ok && i <= |ops|
    ensures ReadAll(ops, host).Ok?
    ensures Before(ops, host, dryrun, i).results == [] <==> OnlyPlanOps(ops[..i])
  {
    OkBefore(ops, host, dryrun, i);
    if i > 0 {
      NoResults(ops, host, dryrun, i - 1);
      NextResult(ops, host, dryrun, i - 1);
      OnlyPlanOpsNext(ops, i - 1);
    }
  }

  /** executePlan without an error has no result exactly for a plan without acting operations. */
  lemma NilExactly(ops: seq<Operator>, host: Host, dryrun: bool)
    requires CarriesAll(host.store) && PlanOutcome(ops, host, dryrun).ok
    ensures PlanOutcome(ops, host, dryrun).results == [] <==> forall op :: op in ops ==> op.name == "plan" || op.name == "dependency"
  {
    NoResults(ops, host, dryrun, |ops|);
    BeforeEnd(ops, host, dryrun);
    assert ops[..|ops|] == ops;
    forall op | op in ops ensures exists j :: 0 <= j < |ops| && ops[j] == op {}
  }

  ghost predicate ReadFails(op: Operator, env: Env) {
    op.name != "plan" && op.name != "dependency" && op.getState(env).Err?
  }

  lemma {:induction false} ReadAllFailsExactly(ops: seq<Operator>, host: Host)
    ensures ReadAll(ops, host).Err? <==> exists i :: 0 <= i < |ops| && ReadFails(ops[i], host.env)
  {
    if ops != [] {
      var m := |ops| - 1;
      ReadAllFailsExactly(ops[..m], host);
      if ReadAll(ops[..m], host).Err? {
        var i :| 0 <= i < m && ReadFails(ops[..m][i], host.env);
        assert ReadFails(ops[i], host.env);
      }
      if i :| 0 <= i < |ops| && ReadFails(ops[i], host.env) {
        if i < m { assert ReadFails(ops[..m][i], host.env); }
      }
    }
  }

  /** Operation `i` is reached, and fails. */
  ghost predicate FailsAt(ops: seq<Operator>, host: Host, dryrun: bool, i: nat)
    requires CarriesAll(host.store) && ReadAll(ops, host).Ok? && i < |ops|
  {
    var b := Before(ops, host, dryrun, i);
    && b.ok && ops[i].name != "plan" && ops[i].name != "dependency" && ops[i].getState(host.env).Ok?
    && Fails(ops[i], b.host, b.dirty, dryrun, Reading(Read(host.store, ops[i].key), ops[i].getState(host.env).value))
  }

  lemma {:induction false} BeforeFails(ops: seq<Operator>, host: Host, dryrun: bool, i: nat)
    requires CarriesAll(host.store) && ReadAll(ops, host).Ok? && i <= |ops|
    ensures !Before(ops, host, dryrun, i).ok <==> exists j :: 0 <= j < i && FailsAt(ops, host, dryrun, j)
  {
    if i > 0 {
      var m := i - 1;
      BeforeFails(ops, host, dryrun, m);
      if Before(ops, host, dryrun, m).ok {
        BeforeNext(ops, host, dryrun, m);
        StepFails(ops, host, dryrun, m);
      } else {
        StaysFailed(ops, host, dryrun, m);
      }
    }
  }

  lemma StepFails(ops: seq<Operator>, host: Host, dryrun: bool, m: nat)
    requires CarriesAll(host.store) && ReadAll(ops, host).Ok? && m < |ops| && Before(ops, host, dryrun, m).ok
    ensures !Before(ops, host, dryrun, m + 1).ok <==> FailsAt(ops, host, dryrun, m)
  {
    BeforeNext(ops, host, dryrun, m);
    var b := Before(ops, host, dryrun, m);
    if ops[m].name != "plan" && ops[m].name != "dependency" {
      var _ := StepExactly(ops[m], b.host, dryrun, b.dirty, ReadAll(ops, host).value[m]);
    }
  }

  lemma StaysFailed(ops: seq<Operator>, host: Host, dryrun: bool, m: nat)
    requires CarriesAll(host.store) && ReadAll(ops, host).Ok? && m < |ops| && !Before(ops, host, dryrun, m).ok
    ensures Before(ops, host, dryrun, m + 1) == Before(ops, host, dryrun, m)
  {
    ReadAllCarries(ops, host);
    var rs := ReadAll(ops, host).value;
    assert ops[..m + 1][..m] == ops[..m] && rs[..m + 1][..m] == rs[..m];
  }

  lemma {:induction false} StaysFailedUntil(ops: seq<Operator>, host: Host, dryrun: bool, i: nat, j: nat)
    requires CarriesAll(host.store) && ReadAll(ops, host).Ok? && i <= j <= |ops| && !Before(ops, host, dryrun, i).ok
    ensures Before(ops, host, dryrun, j) == Before(ops, host, dryrun, i)
    decreases j
  {
    if i < j {
      StaysFailedUntil(ops, host, dryrun, i, j - 1);
      StaysFailed(ops, host, dryrun, j - 1);
    }
  }

  /** A failing operation ends the run: what it did to the host stays, its state is not stored, and no
      later operation is executed. */
  lemma FailureStays(ops: seq<Operator>, host: Host, dryrun: bool, i: nat)
    requires CarriesAll(host.store) && ReadAll(ops, host).Ok? && i < |ops| && FailsAt(ops, host, dryrun, i)
    ensures ops[i].getState(host.env).Ok?
    ensures var b := Before(ops, host, dryrun, i);
            var r := Reading(Read(host.store, ops[i].key), ops[i].getState(host.env).value);
            PlanOutcome(ops, host, dryrun).host ==
            if Runs(ops[i], b.host, b.dirty, dryrun, r) then Host(ops[i].run(b.host.env).env, b.host.store) else b.host
  {
    var b := Before(ops, host, dryrun, i);
    BeforeNext(ops, host, dryrun, i);
    var _ := StepExactly(ops[i], b.host, dryrun, b.dirty, ReadAll(ops, host).value[i]);
    StepFails(ops, host, dryrun, i);
    StaysFailedUntil(ops, host, dryrun, i + 1, |ops|);
    BeforeEnd(ops, host, dryrun);
  }

  /** A plan run fails exactly when the state of some operation cannot be read, and then nothing has
      happened, or when some operation that is reached fails. */
  lemma PlanFailsExactly(ops: seq<Operator>, host: Host, dryrun: bool)
    requires CarriesAll(host.store)
    ensures (exists i :: 0 <= i < |ops| && ReadFails(ops[i], host.env)) <==> ReadAll(ops, host).Err?
    ensures ReadAll(ops, host).Err? ==> !PlanOutcome(ops, host, dryrun).ok && PlanOutcome(ops, host, dryrun).host == host
    ensures ReadAll(ops, host).Ok? ==>
              (!PlanOutcome(ops, host, dryrun).ok <==> exists i :: 0 <= i < |ops| && FailsAt(ops, host, dryrun, i))
  {
    ReadAllFailsExactly(ops, host);
    if ReadAll(ops, host).Ok? {
      BeforeEnd(ops, host, dryrun);
      BeforeFails(ops, host, dryrun, |ops|);
    }
  }

  /** A dry run leaves the host and the store alone. */
  lemma {:induction false} DryRunChangesNothing(ops: seq<Operator>, host: Host)
    requires CarriesAll(host.store)
    ensures PlanOutcome(ops, host, true).host == host
  {
    if ReadAll(ops, host).Ok? {
      ReadAllCarries(ops, host);
      DryOps(ops, ReadAll(ops, host).value, host);
    }
  }

  lemma {:induction false} DryOps(ops: seq<Operator>, rs: seq<Reading>, host: Host)
    requires |ops| == |rs| && CarriesReadings(rs)
    ensures RunOps(ops, rs, host, true).host == host
    ensures forall r :: r in RunOps(ops, rs, host, true).results ==> !r.executed
    decreases |ops|
  {
    if ops != [] { DryOps(ops[..|ops| - 1], rs[..|ops| - 1], host); }
  }

  /** Whether operation `i` was executed. */
  predicate Executed(ops: seq<Operator>, host: Host, i: nat)
    requires CarriesAll(host.store) && ReadAll(ops, host).Ok? && i < |ops|
  {
    var b, a := Before(ops, host, false, i), Before(ops, host, false, i + 1);
    b.ok && a.ok && |a.results| == |b.results| + 1 && a.results[|b.results|].executed
  }

  /** The last of the first `i` operations that was executed and has key `key`, or -1. */
  function LastSaver(ops: seq<Operator>, host: Host, key: string, i: nat): (j: int)
    requires CarriesAll(host.store) && ReadAll(ops, host).Ok? && i <= |ops|
    ensures -1 <= j < i && (j >= 0 ==> ops[j].key == key && Executed(ops, host, j))
    ensures forall k :: j < k < i && ops[k].key == key ==> !Executed(ops, host, k)
  {
    if i == 0 then -1
    else if ops[i - 1].key == key && Executed(ops, host, i - 1) then i - 1
    else LastSaver(ops, host, key, i - 1)
  }

  /** What is stored under `key` once the first `i` operations are done. */
  ghost predicate StoredAs(ops: seq<Operator>, host: Host, key: string, i: nat)
    requires CarriesAll(host.store) && ReadAll(ops, host).Ok? && i <= |ops|
  {
    var j, store := LastSaver(ops, host, key, i), Before(ops, host, false, i).host.store;
    if j < 0 then
      (key in store <==> key in host.store) && Read(store, key) == Read(host.store, key)
    else
      var st := ops[j].getState(Before(ops, host, false, j + 1).host.env);
      st.Ok? && key in store && store[key] == Reload(st.value)
  }

  lemma StepsHost(ops: seq<Operator>, host: Host, m: nat)
    requires CarriesAll(host.store) && ReadAll(ops, host).Ok? && m < |ops|
    requires Before(ops, host, false, m).ok && Before(ops, host, false, m + 1).ok
    ensures var h, h' := Before(ops, host, false, m).host, Before(ops, host, false, m + 1).host;
            if Executed(ops, host, m) then
              ops[m].getState(h'.env).Ok? && h'.store == h.store[ops[m].key := Reload(ops[m].getState(h'.env).value)]
            else h' == h
  {
    BeforeNext(ops, host, false, m);
    var b := Before(ops, host, false, m);
    SavedOrKept(ops[m], b.host, b.dirty, ReadAll(ops, host).value[m]);
  }

  lemma StoredNext(ops: seq<Operator>, host: Host, key: string, m: nat)
    requires CarriesAll(host.store) && ReadAll(ops, host).Ok? && m < |ops| && StoredAs(ops, host, key, m)
    requires Before(ops, host, false, m).ok && Before(ops, host, false, m + 1).ok
    ensures StoredAs(ops, host, key, m + 1)
  {
    StepsHost(ops, host, m);
    if ops[m].key == key && Executed(ops, host, m) {
      assert LastSaver(ops, host, key, m + 1) == m;
    } else {
      StoredKept(ops, host, key, m);
    }
  }

  /** An operation that does not save under the key leaves there what it was. */
  lemma StoredKept(ops: seq<Operator>, host: Host, key: string, m: nat)
    requires CarriesAll(host.store) && ReadAll(ops, host).Ok? && m < |ops| && StoredAs(ops, host, key, m)
    requires !(ops[m].key == key && Executed(ops, host, m))
    requires var h, h' := Before(ops, host, false, m).host, Before(ops, host, false, m + 1).host;
             (key in h'.store <==> key in h.store) && (key in h.store ==> h'.store[key] == h.store[key])
    ensures StoredAs(ops, host, key, m + 1)
  {
    assert LastSaver(ops, host, key, m + 1) == LastSaver(ops, host, key, m);
  }

  /** After a successful run the store holds, under each executed key, the state the operation had
      right after its own Run; other keys keep what they had. */
  lemma {:induction false} StoreAfter(ops: seq<Operator>, host: Host, key: string, i: nat)
    requires CarriesAll(host.store) && PlanOutcome(ops, host, false).ok && i <= |ops|
    ensures ReadAll(ops, host).Ok? && StoredAs(ops, host, key, i)
    decreases i
  {
    OkBefore(ops, host, false, i);
    if i > 0 {
      StoreAfter(ops, host, key, i - 1);
      OkBefore(ops, host, false, i - 1);
      StoredNext(ops, host, key, i - 1);
    } else {
      NothingBefore(ops, host);
    }
  }

  lemma NothingBefore(ops: seq<Operator>, host: Host)
    requires CarriesAll(host.store) && ReadAll(ops, host).Ok?
    ensures Before(ops, host, false, 0).host == host
  {
    ReadAllCarries(ops, host);
  }

  lemma SavedOrKept(op: Operator, host: Host, wasDirty: bool, r: Reading)
    requires Carries(r.prev)
    ensures var step := ExecuteOp(op, host, false, wasDirty, r);
            match step.outcome
            case Err => step.host.store == host.store
            case Ok(None) => step.host == host
            case Ok(Some(res)) =>
              if res.executed then
                && op.run(host.env).ok && step.host.env == op.run(host.env).env && op.getState(step.host.env).Ok?
                && step.host.store == host.store[op.key := Reload(op.getState(step.host.env).value)]
              else step.host == host
  {
  }
}
