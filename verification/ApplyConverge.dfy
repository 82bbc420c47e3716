/** Applying a plan again and again to a host it has nothing left to do on. */
module ApplyConverge {
  import opened Base
  import opened State
  import opened Apply
  import opened ApplyFacts
  import opened ApplySound

  /** The operation leaves `e` as it is, and its state there can be stored and is not empty;
      DesiredState, if it says anything, says what the source already is. */
  ghost predicate Fixed(op: Operator, e: Env) {
    IsPlanOp(op) ||
    (&& op.run(e) == RunResult(e, true) && op.detector.None?
     && op.getState(e).Ok? && Storable(op.getState(e).value) && !Empty(op.getState(e).value)
     && DesiredState(op, e).Ok?
     && (Empty(DesiredState(op, e).value) || Views(DesiredState(op, e).value) == SourceViews(op.getState(e).value)))
  }

  ghost predicate AllFixed(ops: seq<Operator>, e: Env) {
    && (forall i :: 0 <= i < |ops| ==> Fixed(ops[i], e))
    && forall i, j :: 0 <= i < |ops| && 0 <= j < |ops| && ops[i].key == ops[j].key && !IsPlanOp(ops[i]) && !IsPlanOp(ops[j]) ==> ops[i] == ops[j]
  }

  /** The next apply to `e` will find the operation clean. */
  ghost predicate Settled(op: Operator, store: Store, e: Env)
    requires Fixed(op, e)
  {
    IsPlanOp(op) ||
    (var st, prev := op.getState(e).value, Read(store, op.key);
     SourceViews(prev) == SourceViews(st) && (SourceViews(st) == [] ==> TargetViews(prev) == TargetViews(st)))
  }

  lemma {:induction false} SelectSome(es: seq<Entry>)
    requires es != []
    ensures Select(es, false) != [] || Select(es, true) != []
  {
  }

  lemma SavedSettles(op: Operator, store: Store, e: Env)
    requires Fixed(op, e) && !IsPlanOp(op)
    ensures Settled(op, Save(store, op.key, op.getState(e).value), e)
    ensures Carries(Reload(op.getState(e).value))
  {
    ReloadParts(op.getState(e).value);
    ReloadUnchangedExactly(op.getState(e).value);
  }

  /** One operation on a host it leaves alone, whatever was stored for it: it ends settled. */
  lemma FirstStep(op: Operator, host: Host, wasDirty: bool, r: Reading)
    requires Fixed(op, host.env) && !IsPlanOp(op) && Carries(r.prev) && r.curr == op.getState(host.env).value
    ensures var s := ExecuteOp(op, host, false, wasDirty, r);
            && s.outcome.Ok? && s.outcome.value.Some? && s.host.env == host.env
            && (!s.outcome.value.value.executed ==> s.host == host && SourceViews(r.prev) == SourceViews(r.curr) && SourceViews(r.prev) != [])
            && (s.outcome.value.value.executed ==> s.host.store == Save(host.store, op.key, r.curr))
  {
    var desired := DesiredState(op, host.env).value;
    CarriesSplit(r.prev);
    var other := if !Empty(desired) then desired else Source(r.curr);
    CarriesComparable(Source(r.prev), other);
    StateChangedExactly(Source(r.prev), other);
    SavedOrKept(op, host, wasDirty, r);
  }

  /** A settled operation on a clean host stays clean. */
  lemma CleanStep(op: Operator, host: Host, r: Reading)
    requires Fixed(op, host.env) && !IsPlanOp(op) && Carries(r.prev) && r.curr == op.getState(host.env).value
    requires SourceViews(r.prev) == SourceViews(r.curr) && (SourceViews(r.curr) == [] ==> TargetViews(r.prev) == TargetViews(r.curr))
    ensures var s := ExecuteOp(op, host, false, false, r);
            && s.outcome.Ok? && s.outcome.value.Some? && !s.outcome.value.value.dirty && !s.outcome.value.value.changed
            && s.host.env == host.env
            && (s.host == host || (SourceViews(r.curr) == [] && s.host.store == Save(host.store, op.key, r.curr)))
  {
    var desired := DesiredState(op, host.env).value;
    CarriesSplit(r.prev);
    var other := if !Empty(desired) then desired else Source(r.curr);
    CarriesComparable(Source(r.prev), other);
    StateChangedExactly(Source(r.prev), other);
    CarriesComparable(Target(r.curr), Target(r.prev));
    StateChangedExactly(Target(r.curr), Target(r.prev));
    SelectSome(r.curr.entries);
  }

  lemma {:induction false} FixedReads(ops: seq<Operator>, host: Host)
    requires CarriesAll(host.store) && forall i :: 0 <= i < |ops| ==> Fixed(ops[i], host.env)
    ensures ReadAll(ops, host).Ok?
  {
    if ops != [] { FixedReads(ops[..|ops| - 1], host); }
  }

  /** What the first apply has achieved after `i` operations. */
  ghost predicate FirstProgress(ops: seq<Operator>, host: Host, i: nat, b: Outcome)
    requires AllFixed(ops, host.env) && i <= |ops|
  {
    && b.ok && b.host.env == host.env && CarriesAll(b.host.store)
    && (forall j :: 0 <= j < |ops| ==> Settled(ops[j], b.host.store, host.env) || Read(b.host.store, ops[j].key) == Read(host.store, ops[j].key))
    && (forall j :: 0 <= j < i ==> Settled(ops[j], b.host.store, host.env))
  }

  lemma {:induction false} FirstApplySoFar(ops: seq<Operator>, host: Host, i: nat)
    requires CarriesAll(host.store) && AllFixed(ops, host.env) && i <= |ops|
    ensures ReadAll(ops, host).Ok? && FirstProgress(ops, host, i, Before(ops, host, false, i))
    decreases i
  {
    FixedReads(ops, host);
    ReadAllCarries(ops, host);
    if i > 0 {
      var m := i - 1;
      FirstApplySoFar(ops, host, m);
      BeforeNext(ops, host, false, m);
      FirstProgressStep(ops, host, m, Before(ops, host, false, m), ReadAll(ops, host).value[m], Before(ops, host, false, i));
    }
  }

  /** Saving one operation's state settles every operation with its key and leaves the rest alone. */
  lemma SaveOthers(ops: seq<Operator>, m: nat, store: Store, e: Env, j: nat)
    requires AllFixed(ops, e) && m < |ops| && j < |ops| && !IsPlanOp(ops[m])
    ensures var next := Save(store, ops[m].key, ops[m].getState(e).value);
            if ops[j].key == ops[m].key then Settled(ops[j], next, e)
            else Read(next, ops[j].key) == Read(store, ops[j].key)
  {
    if ops[j].key == ops[m].key && !IsPlanOp(ops[j]) {
      assert ops[j] == ops[m];
      SavedSettles(ops[m], store, e);
    }
  }

  lemma FirstProgressStep(ops: seq<Operator>, host: Host, m: nat, b: Outcome, r: Reading, a: Outcome)
    requires AllFixed(ops, host.env) && m < |ops| && FirstProgress(ops, host, m, b)
    requires ReadOp(ops[m], host) == Ok(r) && Carries(r.prev)
    requires a == Advance(b, ExecuteOp(ops[m], b.host, false, b.dirty, r))
    ensures FirstProgress(ops, host, m + 1, a)
  {
    var op := ops[m];
    if !IsPlanOp(op) {
      FirstStep(op, b.host, b.dirty, r);
      if a.host == b.host {
        assert Settled(op, b.host.store, host.env) || Read(b.host.store, op.key) == r.prev;
        if !ExecuteOp(op, b.host, false, b.dirty, r).outcome.value.value.executed {
          assert Settled(op, b.host.store, host.env);
        } else {
          SavedSettles(op, b.host.store, host.env);
        }
      } else {
        SavedSettles(op, b.host.store, host.env);
        forall j | 0 <= j < |ops| ensures Settled(ops[j], a.host.store, host.env)
                                  || Read(a.host.store, ops[j].key) == Read(b.host.store, ops[j].key) {
          SaveOthers(ops, m, b.host.store, host.env, j);
        }
      }
    }
  }

  ghost predicate AllSettled(ops: seq<Operator>, host: Host)
    requires AllFixed(ops, host.env)
  {
    forall j :: 0 <= j < |ops| ==> Settled(ops[j], host.store, host.env)
  }

  /** One apply from any stored states settles every operation. */
  lemma OneApplySettles(ops: seq<Operator>, host: Host)
    requires CarriesAll(host.store) && AllFixed(ops, host.env)
    ensures var o := PlanOutcome(ops, host, false);
            o.ok && o.host.env == host.env && CarriesAll(o.host.store) && AllSettled(ops, o.host)
  {
    FirstApplySoFar(ops, host, |ops|);
    BeforeEnd(ops, host, false);
  }

  /** As far as Changed can tell, the same is stored for every key. */
  ghost predicate SameStore(a: Store, b: Store) {
    forall k :: SameStored(a, b, k)
  }

  ghost predicate SameStored(a: Store, b: Store, k: string) {
    && (k in a <==> k in b)
    && SourceViews(Read(a, k)) == SourceViews(Read(b, k)) && TargetViews(Read(a, k)) == TargetViews(Read(b, k))
  }

  ghost predicate CleanProgress(ops: seq<Operator>, host: Host, b: Outcome) {
    && b.ok && !b.dirty && b.host.env == host.env && CarriesAll(b.host.store) && SameStore(host.store, b.host.store)
    && forall j :: 0 <= j < |b.results| ==> !b.results[j].dirty && !b.results[j].changed
  }

  lemma {:induction false} CleanApplySoFar(ops: seq<Operator>, host: Host, i: nat)
    requires CarriesAll(host.store) && AllFixed(ops, host.env) && AllSettled(ops, host) && i <= |ops|
    ensures ReadAll(ops, host).Ok? && CleanProgress(ops, host, Before(ops, host, false, i))
    decreases i
  {
    FixedReads(ops, host);
    ReadAllCarries(ops, host);
    if i > 0 {
      var m := i - 1;
      CleanApplySoFar(ops, host, m);
      BeforeNext(ops, host, false, m);
      if !IsPlanOp(ops[m]) {
        var b, r := Before(ops, host, false, m), ReadAll(ops, host).value[m];
        assert Settled(ops[m], host.store, host.env);
        CleanStep(ops[m], b.host, r);
        CleanStoreStep(ops[m], host, b.host, r, ExecuteOp(ops[m], b.host, false, false, r).host);
      }
    }
  }

  lemma CleanStoreStep(op: Operator, host: Host, now: Host, r: Reading, next: Host)
    requires Fixed(op, host.env) && !IsPlanOp(op) && now.env == host.env && SameStore(host.store, now.store)
    requires CarriesAll(now.store) && Settled(op, host.store, host.env)
    requires ReadOp(op, host) == Ok(r)
    requires next == now || (SourceViews(r.curr) == [] && next.store == Save(now.store, op.key, r.curr))
    ensures SameStore(host.store, next.store) && CarriesAll(next.store)
  {
    if next != now {
      ReloadParts(r.curr);
      ReloadUnchangedExactly(r.curr);
      SelectSome(r.curr.entries);
      assert |TargetViews(r.curr)| > 0 && TargetViews(r.prev) == TargetViews(r.curr);
      assert op.key in host.store;
      forall k ensures SameStored(host.store, next.store, k) {
        assert SameStored(host.store, now.store, k);
      }
    }
  }

  /** Applying to settled operations changes nothing and reports nothing. */
  lemma SettledApplyIsClean(ops: seq<Operator>, host: Host)
    requires CarriesAll(host.store) && AllFixed(ops, host.env) && AllSettled(ops, host)
    ensures var o := PlanOutcome(ops, host, false);
            CleanProgress(ops, host, o) && AllSettled(ops, o.host)
  {
    CleanApplySoFar(ops, host, |ops|);
    BeforeEnd(ops, host, false);
    var o := PlanOutcome(ops, host, false);
    forall j | 0 <= j < |ops| ensures Settled(ops[j], o.host.store, host.env) {
      assert SameStored(host.store, o.host.store, ops[j].key) && Settled(ops[j], host.store, host.env);
    }
  }

  /** The host after `n` applies; those that fail leave what they leave. */
  function Applied(ops: seq<Operator>, host: Host, n: nat): Option<Host>
    requires CarriesAll(host.store)
  {
    if n == 0 then Some(host)
    else
      match Applied(ops, host, n - 1)
      case None => None
      case Some(h) => if CarriesAll(h.store) then Some(PlanOutcome(ops, h, false).host) else None
  }

  /** On a host every operation leaves as it is, one apply from any stored states makes every later
      apply clean: not changed, the same host, and the same states stored. */
  lemma {:induction false} Converges(ops: seq<Operator>, host: Host, n: nat)
    requires CarriesAll(host.store) && AllFixed(ops, host.env) && n >= 1
    ensures Applied(ops, host, n).Some?
    ensures var h := Applied(ops, host, n).value;
            && h.env == host.env && CarriesAll(h.store) && AllSettled(ops, h)
            && CleanProgress(ops, h, PlanOutcome(ops, h, false))
  {
    if n == 1 {
      assert Applied(ops, host, 0) == Some(host);
      OneApplySettles(ops, host);
    } else {
      Converges(ops, host, n - 1);
      SettledApplyIsClean(ops, Applied(ops, host, n - 1).value);
    }
    SettledApplyIsClean(ops, Applied(ops, host, n).value);
  }
}
