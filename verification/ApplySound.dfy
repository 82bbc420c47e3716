/** Skipping unchanged operations ends where running every operation would. */
module ApplySound {
  import opened Base
  import opened State
  import opened Apply
  import opened ApplyFacts

  // ---- What an operation touches ---------------------------------------------------------------

  datatype Footprint = Footprint(inputs: set<string>, outputs: set<string>)

  ghost predicate SameAt(l: string, a: Env, b: Env) {
    (l in a <==> l in b) && (l in a ==> a[l] == b[l])
  }

  ghost predicate AgreeOn(ls: set<string>, a: Env, b: Env) {
    forall l :: l in ls ==> SameAt(l, a, b)
  }

  ghost predicate SameOutside(ls: set<string>, a: Env, b: Env) {
    forall l :: l !in ls ==> SameAt(l, a, b)
  }

  lemma SameEverywhere(ls: set<string>, a: Env, b: Env)
    requires AgreeOn(ls, a, b) && SameOutside(ls, a, b)
    ensures a == b
  {
    forall l ensures SameAt(l, a, b) { assert l in ls || l !in ls; }
    assert a.Keys == b.Keys by {
      forall l ensures l in a <==> l in b { assert SameAt(l, a, b); }
    }
    forall l | l in a ensures a[l] == b[l] { assert SameAt(l, a, b); }
  }

  function SourceViews(s: State): seq<View> { Views(Source(s)) }

  function TargetViews(s: State): seq<View> { Views(Target(s)) }

  /** GetState tells two hosts apart by their sources exactly when they differ where the operation
      reads, and hosts with equal non-empty targets agree where it writes. */
  ghost predicate Observes(op: Operator, fp: Footprint, a: Env, b: Env) {
    var sa, sb := op.getState(a), op.getState(b);
    sa.Ok? && sb.Ok? ==>
      && (SourceViews(sa.value) == SourceViews(sb.value) <==> AgreeOn(fp.inputs, a, b))
      && (TargetViews(sa.value) == TargetViews(sb.value) && !Empty(Target(sa.value)) ==> AgreeOn(fp.outputs, a, b))
  }

  /** What Run writes depends on what it reads only. */
  ghost predicate Depends(op: Operator, fp: Footprint, a: Env, b: Env) {
    AgreeOn(fp.inputs, a, b) ==>
      op.run(a).ok == op.run(b).ok && (op.run(a).ok ==> AgreeOn(fp.outputs, op.run(a).env, op.run(b).env))
  }

  /** An ordinary operation: it reads and writes in different places, and its state shows both. */
  ghost predicate Tracks(op: Operator, fp: Footprint) {
    && op.desired.None? && op.detector.None?
    && fp.inputs !! fp.outputs
    && (forall e: Env :: SameOutside(fp.outputs, e, op.run(e).env))
    && (forall a: Env, b: Env :: Depends(op, fp, a, b))
    && (forall a: Env, b: Env :: Observes(op, fp, a, b))
  }

  /** What the source of GetState shows of what was written, and what DesiredState foresees. */
  ghost predicate Foresees(op: Operator, fp: Footprint, a: Env, b: Env) {
    var sa, sb := op.getState(a), op.getState(b);
    && (sa.Ok? ==> Empty(Target(sa.value)))
    && (sa.Ok? && sb.Ok? && SourceViews(sa.value) == SourceViews(sb.value) ==> AgreeOn(fp.outputs, a, b))
    && (DesiredState(op, a).Ok? ==>
          && op.run(a).ok && !Empty(DesiredState(op, a).value)
          && op.getState(op.run(a).env).Ok?
          && SourceViews(op.getState(op.run(a).env).value) == Views(DesiredState(op, a).value))
  }

  /** An operation with DesiredState (template): its source entries describe what it writes, and
      DesiredState is the source that Run would leave. */
  ghost predicate Predicts(op: Operator, fp: Footprint) {
    && op.desired.Some? && op.detector.None?
    && (forall e: Env :: SameOutside(fp.outputs, e, op.run(e).env))
    && (forall a: Env, b: Env :: Foresees(op, fp, a, b))
  }

  ghost predicate Known(op: Operator, fp: Footprint) {
    IsPlanOp(op) || Tracks(op, fp) || Predicts(op, fp)
  }

  // ---- One operation ---------------------------------------------------------------------------

  /** `st` is, as far as Changed can tell, the state saved when a successful Run left the host as
      `after`. */
  ghost predicate LeftBy(op: Operator, st: State, before: Env, after: Env) {
    && op.run(before) == RunResult(after, true)
    && op.getState(after).Ok?
    && SourceViews(st) == SourceViews(op.getState(after).value)
    && TargetViews(st) == TargetViews(op.getState(after).value)
  }

  /** Where the operation writes, the host is as its last saved Run left it. */
  ghost predicate NoDrift(op: Operator, fp: Footprint, host: Host) {
    op.key in host.store ==>
      exists before: Env, after: Env :: LeftBy(op, host.store[op.key], before, after) && AgreeOn(fp.outputs, host.env, after)
  }

  /** executeOperation leaves the operation out on a clean host. */
  ghost predicate Skips(op: Operator, host: Host)
    requires CarriesAll(host.store)
  {
    var prev := Read(host.store, op.key);
    CarriesSplit(prev);
    && op.getState(host.env).Ok? && DesiredState(op, host.env).Ok? && !Empty(Source(prev))
    && OpChanged(op, Source(prev), Source(op.getState(host.env).value), DesiredState(op, host.env).value) == Ok(false)
  }

  lemma ReadsKept(op: Operator, fp: Footprint, before: Env, after: Env)
    requires Tracks(op, fp) && op.run(before) == RunResult(after, true)
    ensures AgreeOn(fp.inputs, before, after)
  {
    assert SameOutside(fp.outputs, before, op.run(before).env);
    forall l | l in fp.inputs ensures SameAt(l, before, after) { assert l !in fp.outputs; }
  }

  /** For an operation that would be skipped, running it changes nothing if and only if the host has
      not drifted where it writes. */
  lemma SkipExactly(op: Operator, fp: Footprint, host: Host, before: Env, after: Env)
    requires CarriesAll(host.store) && Tracks(op, fp) && Skips(op, host)
    requires op.key in host.store && LeftBy(op, host.store[op.key], before, after)
    ensures op.run(host.env) == RunResult(host.env, true) <==> AgreeOn(fp.outputs, host.env, after)
  {
    var prev, curr := Read(host.store, op.key), op.getState(host.env).value;
    CarriesSplit(prev);
    CarriesComparable(Source(prev), Source(curr));
    StateChangedExactly(Source(prev), Source(curr));
    assert SourceViews(op.getState(after).value) == SourceViews(curr);
    assert Observes(op, fp, after, host.env);
    ReadsKept(op, fp, before, after);
    forall l | l in fp.inputs ensures SameAt(l, before, host.env) {
      assert SameAt(l, before, after) && SameAt(l, after, host.env);
    }
    assert Depends(op, fp, before, host.env);
    var again := op.run(host.env);
    assert again.ok && AgreeOn(fp.outputs, after, again.env);
    assert SameOutside(fp.outputs, host.env, again.env);
    if AgreeOn(fp.outputs, host.env, after) {
      forall l | l in fp.outputs ensures SameAt(l, host.env, again.env) {
        assert SameAt(l, host.env, after) && SameAt(l, after, again.env);
      }
      SameEverywhere(fp.outputs, host.env, again.env);
    }
    if again.env == host.env {
      forall l | l in fp.outputs ensures SameAt(l, host.env, after) { assert SameAt(l, after, again.env); }
    }
  }

  lemma SkipPredicted(op: Operator, fp: Footprint, host: Host, before: Env, after: Env)
    requires CarriesAll(host.store) && Predicts(op, fp) && Skips(op, host)
    requires op.key in host.store && LeftBy(op, host.store[op.key], before, after) && AgreeOn(fp.outputs, host.env, after)
    ensures op.run(host.env) == RunResult(host.env, true)
  {
    var prev, desired := Read(host.store, op.key), DesiredState(op, host.env).value;
    assert Foresees(op, fp, host.env, host.env);
    CarriesSplit(prev);
    CarriesComparable(Source(prev), desired);
    StateChangedExactly(Source(prev), desired);
    var again := op.run(host.env);
    assert Foresees(op, fp, again.env, after);
    assert AgreeOn(fp.outputs, again.env, after);
    assert SameOutside(fp.outputs, host.env, again.env);
    forall l | l in fp.outputs ensures SameAt(l, host.env, again.env) {
      assert SameAt(l, host.env, after) && SameAt(l, again.env, after);
    }
    SameEverywhere(fp.outputs, host.env, again.env);
  }

  lemma SkipIsNoop(op: Operator, fp: Footprint, host: Host)
    requires CarriesAll(host.store) && Known(op, fp) && !IsPlanOp(op) && NoDrift(op, fp, host) && Skips(op, host)
    ensures op.run(host.env) == RunResult(host.env, true)
  {
    var before: Env, after: Env :| LeftBy(op, host.store[op.key], before, after) && AgreeOn(fp.outputs, host.env, after);
    if Tracks(op, fp) {
      SkipExactly(op, fp, host, before, after);
    } else {
      SkipPredicted(op, fp, host, before, after);
    }
  }

  lemma PredictedNotCleared(op: Operator, fp: Footprint, host: Host, prev: State)
    requires Predicts(op, fp) && Carries(prev)
    ensures RunAndSave(op, host, false, prev).1 != Ok(false)
  {
    var ran := op.run(host.env);
    assert Foresees(op, fp, ran.env, ran.env);
  }

  /** An operation that was run and whose target then equals the stored one changed nothing. */
  lemma UnchangedTargetIsNoop(op: Operator, fp: Footprint, host: Host, prev: State)
    requires CarriesAll(host.store) && Known(op, fp) && !IsPlanOp(op) && NoDrift(op, fp, host) && prev == Read(host.store, op.key)
    requires Carries(prev) && RunAndSave(op, host, false, prev).1 == Ok(false)
    ensures op.run(host.env) == RunResult(host.env, true)
  {
    var ran := op.run(host.env);
    var final := op.getState(ran.env).value;
    if !Tracks(op, fp) { PredictedNotCleared(op, fp, host, prev); }
    CarriesSplit(prev);
    CarriesComparable(Target(final), Target(prev));
    StateChangedExactly(Target(final), Target(prev));
    assert |TargetViews(prev)| == |TargetViews(final)| > 0;
    assert op.key in host.store;
    var before: Env, after: Env :| LeftBy(op, host.store[op.key], before, after) && AgreeOn(fp.outputs, host.env, after);
    assert Observes(op, fp, ran.env, after);
    assert SameOutside(fp.outputs, host.env, ran.env);
    forall l | l in fp.outputs ensures SameAt(l, host.env, ran.env) {
      assert SameAt(l, host.env, after) && SameAt(l, ran.env, after);
    }
    SameEverywhere(fp.outputs, host.env, ran.env);
  }

  // ---- A whole plan ----------------------------------------------------------------------------

  /** Running every operation, in order. */
  function FullRun(ops: seq<Operator>, env: Env): RunResult {
    if ops == [] then RunResult(env, true)
    else
      var before := FullRun(ops[..|ops| - 1], env);
      var op := ops[|ops| - 1];
      if !before.ok || IsPlanOp(op) then before else op.run(before.env)
  }

  ghost predicate Ready(ops: seq<Operator>, fps: seq<Footprint>, host: Host) {
    && |ops| == |fps| && CarriesAll(host.store)
    && forall i :: 0 <= i < |ops| ==> Known(ops[i], fps[i]) && (IsPlanOp(ops[i]) || NoDrift(ops[i], fps[i], host))
  }

  /** While nothing is dirty the host is untouched; and it always is where running everything so far
      would have put it. */
  lemma {:induction false} SoundSoFar(ops: seq<Operator>, fps: seq<Footprint>, host: Host, i: nat)
    requires Ready(ops, fps, host) && PlanOutcome(ops, host, false).ok && i <= |ops|
    ensures ReadAll(ops, host).Ok?
    ensures var b := Before(ops, host, false, i);
            FullRun(ops[..i], host.env) == RunResult(b.host.env, true) && (!b.dirty ==> b.host.env == host.env)
    decreases i
  {
    OkBefore(ops, host, false, i);
    if i > 0 {
      var m := i - 1;
      SoundSoFar(ops, fps, host, m);
      OkBefore(ops, host, false, m);
      BeforeNext(ops, host, false, m);
      FullRunNext(ops, host.env, m);
      SoundNext(ops[m], fps[m], host, Before(ops, host, false, m), ReadAll(ops, host).value[m]);
    }
  }

  lemma FullRunNext(ops: seq<Operator>, env: Env, m: nat)
    requires m < |ops|
    ensures var before := FullRun(ops[..m], env);
            FullRun(ops[..m + 1], env) == if !before.ok || IsPlanOp(ops[m]) then before else ops[m].run(before.env)
  {
    assert ops[..m + 1][..m] == ops[..m];
  }

  /** The same for one operation. */
  lemma SoundNext(op: Operator, fp: Footprint, host: Host, b: Outcome, r: Reading)
    requires CarriesAll(host.store) && Known(op, fp) && (IsPlanOp(op) || NoDrift(op, fp, host))
    requires ReadOp(op, host) == Ok(r) && Carries(r.prev) && b.ok && (!b.dirty ==> b.host.env == host.env)
    requires Advance(b, ExecuteOp(op, b.host, false, b.dirty, r)).ok
    ensures var t := Advance(b, ExecuteOp(op, b.host, false, b.dirty, r));
            && RunResult(t.host.env, true) == (if IsPlanOp(op) then RunResult(b.host.env, true) else op.run(b.host.env))
            && (!t.dirty ==> t.host.env == host.env)
  {
    if !IsPlanOp(op) { SoundStep(op, fp, host, b, r); }
  }

  lemma SoundStep(op: Operator, fp: Footprint, host: Host, b: Outcome, r: Reading)
    requires CarriesAll(host.store) && Known(op, fp) && !IsPlanOp(op) && NoDrift(op, fp, host)
    requires ReadOp(op, host) == Ok(r) && Carries(r.prev) && (!b.dirty ==> b.host.env == host.env)
    requires var s := ExecuteOp(op, b.host, false, b.dirty, r); s.outcome.Ok? && s.outcome.value.Some?
    ensures var s := ExecuteOp(op, b.host, false, b.dirty, r);
            op.run(b.host.env) == RunResult(s.host.env, true) && (!b.dirty && !s.outcome.value.value.dirty ==> s.host.env == host.env)
  {
    var s := ExecuteOp(op, b.host, false, b.dirty, r);
    SavedOrKept(op, b.host, b.dirty, r);
    if !s.outcome.value.value.executed {
      assert Skips(op, host);
      SkipIsNoop(op, fp, host);
    } else if !b.dirty && !s.outcome.value.value.dirty {
      ClearedStep(op, host, b.host, r);
      UnchangedTargetIsNoop(op, fp, host, r.prev);
    }
  }

  /** The flag is cleared for the reason RunAndSave gives, whatever else is stored by now. */
  lemma ClearedStep(op: Operator, host: Host, now: Host, r: Reading)
    requires Carries(r.prev) && now.env == host.env && !IsPlanOp(op)
    requires var s := ExecuteOp(op, now, false, false, r);
             s.outcome.Ok? && s.outcome.value.Some? && s.outcome.value.value.executed && !s.outcome.value.value.dirty
    ensures RunAndSave(op, host, false, r.prev).1 == Ok(false)
  {
  }

  /** The cached apply ends in the same place as running every operation in order, although all
      states are read before the first Run and an executed operation can clear the dirty flag. */
  lemma SkippingIsSound(ops: seq<Operator>, fps: seq<Footprint>, host: Host)
    requires Ready(ops, fps, host) && PlanOutcome(ops, host, false).ok
    ensures FullRun(ops, host.env) == RunResult(PlanOutcome(ops, host, false).host.env, true)
  {
    SoundSoFar(ops, fps, host, |ops|);
    OkBefore(ops, host, false, |ops|);
    BeforeEnd(ops, host, false);
    assert ops[..|ops|] == ops;
  }

  // ---- Whole histories -------------------------------------------------------------------------

  datatype Managed = Managed(op: Operator, fp: Footprint)

  /** The operations a host is ever managed with, by cache key. */
  type Catalog = map<string, Managed>

  ghost predicate WellBehaved(op: Operator) {
    && (forall e: Env :: op.getState(e).Ok?)
    && (forall e: Env :: !op.run(e).ok ==> op.run(e).env == e)
    && (forall e: Env :: op.run(e).ok ==> StorableAfter(op, e))
  }

  ghost predicate StorableAfter(op: Operator, e: Env) {
    op.getState(op.run(e).env).Ok? ==> Storable(op.getState(op.run(e).env).value)
  }

  /** Each key stands for one operation, and no two operations write in the same place. */
  ghost predicate GoodCatalog(c: Catalog) {
    && (forall k :: k in c ==> c[k].op.key == k && !IsPlanOp(c[k].op) && Known(c[k].op, c[k].fp) && WellBehaved(c[k].op))
    && (forall j, k :: j in c && k in c && j != k ==> c[j].fp.outputs !! c[k].fp.outputs)
  }

  ghost predicate FromCatalog(c: Catalog, ops: seq<Operator>) {
    forall i :: 0 <= i < |ops| ==> IsPlanOp(ops[i]) || (ops[i].key in c && c[ops[i].key].op == ops[i])
  }

  function Footprints(c: Catalog, ops: seq<Operator>): (fps: seq<Footprint>)
    ensures |fps| == |ops|
  {
    seq(|ops|, i requires 0 <= i < |ops| => if ops[i].key in c then c[ops[i].key].fp else Footprint({}, {}))
  }

  /** What happens to a host: somebody edits it, or a plan is applied. */
  datatype Event = Edit(env: Env) | ApplyPlan(ops: seq<Operator>)

  /** Edits leave alone what the operations write. */
  ghost predicate Allowed(c: Catalog, host: Host, ev: Event) {
    match ev
    case Edit(env) => forall k :: k in c ==> AgreeOn(c[k].fp.outputs, host.env, env)
    case ApplyPlan(ops) => FromCatalog(c, ops)
  }

  function Happen(host: Host, ev: Event): Host
    requires CarriesAll(host.store)
  {
    match ev
    case Edit(env) => host.(env := env)
    case ApplyPlan(ops) => PlanOutcome(ops, host, false).host
  }

  ghost predicate Tidy(c: Catalog, host: Host) {
    CarriesAll(host.store) && forall k :: k in c ==> NoDrift(c[k].op, c[k].fp, host)
  }

  /** The hosts a history of allowed events leads to, starting with nothing stored. */
  ghost predicate Arises(c: Catalog, history: seq<Event>, host: Host)
    decreases |history|
  {
    if history == [] then host.store == map[]
    else
      var m := |history| - 1;
      exists h :: Arises(c, history[..m], h) && CarriesAll(h.store) && Allowed(c, h, history[m]) && Happen(h, history[m]) == host
  }

  lemma RunTidy(c: Catalog, host: Host, op: Operator, wasDirty: bool, r: Reading)
    requires GoodCatalog(c) && Tidy(c, host) && Carries(r.prev) && !IsPlanOp(op) && op.key in c && c[op.key].op == op
    ensures Tidy(c, ExecuteOp(op, host, false, wasDirty, r).host)
  {
    var h := ExecuteOp(op, host, false, wasDirty, r).host;
    assert op.getState(op.run(host.env).env).Ok?;
    RunShape(op, host, wasDirty, r);
    if h != host {
      var ran, st := op.run(host.env), op.getState(op.run(host.env).env).value;
      assert StorableAfter(op, host.env);
      ReloadUnchangedExactly(st);
      ReloadParts(st);
      forall k | k in c ensures NoDrift(c[k].op, c[k].fp, h) {
        if k == op.key {
          assert LeftBy(op, h.store[k], host.env, ran.env);
        } else if k in host.store {
          OthersKept(c, host, op, k, ran.env);
        }
      }
    }
  }

  /** On a well-behaved operation executeOperation changes the host only by a Run that succeeds. */
  lemma RunShape(op: Operator, host: Host, wasDirty: bool, r: Reading)
    requires Carries(r.prev) && WellBehaved(op)
    ensures var h := ExecuteOp(op, host, false, wasDirty, r).host;
            h == host || (op.run(host.env).ok && op.getState(op.run(host.env).env).Ok?
                          && h == Host(op.run(host.env).env, Save(host.store, op.key, op.getState(op.run(host.env).env).value)))
  {
  }

  lemma OthersKept(c: Catalog, host: Host, op: Operator, k: string, env: Env)
    requires GoodCatalog(c) && Tidy(c, host) && op.key in c && c[op.key].op == op && k in c && k != op.key && k in host.store
    requires !IsPlanOp(op) && env == op.run(host.env).env
    ensures exists before: Env, after: Env :: LeftBy(c[k].op, host.store[k], before, after) && AgreeOn(c[k].fp.outputs, env, after)
  {
    var fp := c[op.key].fp;
    assert Known(op, fp) && SameOutside(fp.outputs, host.env, op.run(host.env).env);
    assert NoDrift(c[k].op, c[k].fp, host);
    var before: Env, after: Env :| LeftBy(c[k].op, host.store[k], before, after) && AgreeOn(c[k].fp.outputs, host.env, after);
    forall l | l in c[k].fp.outputs ensures SameAt(l, env, after) {
      assert l !in fp.outputs && SameAt(l, host.env, env) && SameAt(l, host.env, after);
    }
  }

  lemma {:induction false} PlanTidy(c: Catalog, ops: seq<Operator>, rs: seq<Reading>, host: Host)
    requires GoodCatalog(c) && Tidy(c, host) && FromCatalog(c, ops) && |ops| == |rs| && CarriesReadings(rs)
    ensures Tidy(c, RunOps(ops, rs, host, false).host)
    decreases |ops|
  {
    if ops != [] {
      var m := |ops| - 1;
      PlanTidy(c, ops[..m], rs[..m], host);
      var before := RunOps(ops[..m], rs[..m], host, false);
      if before.ok && !IsPlanOp(ops[m]) {
        RunTidy(c, before.host, ops[m], before.dirty, rs[m]);
      }
    }
  }

  lemma EventTidy(c: Catalog, host: Host, ev: Event)
    requires GoodCatalog(c) && Tidy(c, host) && Allowed(c, host, ev)
    ensures Tidy(c, Happen(host, ev))
  {
    match ev {
      case ApplyPlan(ops) =>
        if ReadAll(ops, host).Ok? {
          ReadAllCarries(ops, host);
          PlanTidy(c, ops, ReadAll(ops, host).value, host);
        }
      case Edit(env) =>
        forall k | k in c && k in host.store ensures NoDrift(c[k].op, c[k].fp, host.(env := env)) {
          assert NoDrift(c[k].op, c[k].fp, host);
          var before: Env, after: Env :| LeftBy(c[k].op, host.store[k], before, after) && AgreeOn(c[k].fp.outputs, host.env, after);
          forall l | l in c[k].fp.outputs ensures SameAt(l, env, after) {
            assert SameAt(l, host.env, env) && SameAt(l, host.env, after);
          }
        }
        forall k | k in c && k !in host.store ensures NoDrift(c[k].op, c[k].fp, host.(env := env)) {
          assert c[k].op.key == k;
        }
    }
  }

  lemma {:induction false} HistoryTidy(c: Catalog, history: seq<Event>, host: Host)
    requires GoodCatalog(c) && Arises(c, history, host)
    ensures Tidy(c, host)
    decreases |history|
  {
    if history != [] {
      var m := |history| - 1;
      var h :| Arises(c, history[..m], h) && CarriesAll(h.store) && Allowed(c, h, history[m]) && Happen(h, history[m]) == host;
      HistoryTidy(c, history[..m], h);
      EventTidy(c, h, history[m]);
    }
  }

  /** Starting from an empty store, after any history of applies, failed applies and edits elsewhere,
      the next successful apply ends where running every operation would. */
  lemma SoundInEveryHistory(c: Catalog, history: seq<Event>, host: Host, ops: seq<Operator>)
    requires GoodCatalog(c) && Arises(c, history, host) && FromCatalog(c, ops)
    ensures CarriesAll(host.store)
    ensures PlanOutcome(ops, host, false).ok ==>
              FullRun(ops, host.env) == RunResult(PlanOutcome(ops, host, false).host.env, true)
  {
    HistoryTidy(c, history, host);
    var fps := Footprints(c, ops);
    forall i | 0 <= i < |ops| ensures Known(ops[i], fps[i]) && (IsPlanOp(ops[i]) || NoDrift(ops[i], fps[i], host)) {
      if !IsPlanOp(ops[i]) { assert NoDrift(c[ops[i].key].op, c[ops[i].key].fp, host); }
    }
    if PlanOutcome(ops, host, false).ok {
      SkippingIsSound(ops, fps, host);
    }
  }
}
