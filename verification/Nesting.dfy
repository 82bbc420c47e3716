/** Writing and reading a manifest whose plans have plans (manifest/archive.go:230-235). */
module Nesting {
  import opened Base
  import opened Paths
  import opened TarFS
  import opened Manifests
  import opened Archives
  import opened Packing
  import opened RoundTrip
  import Sorting

  /** A manifest with clean names, and plans at any depth named by one component each. */
  ghost predicate Storable(m: Manifest, main: string)
    decreases m
  {
    && m.main == main && CleanData(m)
    && forall k :: k in m.plans ==> Part(k) && '\\' !in k && Storable(m.plans[k], PLAN)
  }

  /** Plans have no plans. */
  predicate Shallow(m: Manifest) {
    forall k :: k in m.plans ==> m.plans[k].plans == map[]
  }

  lemma ShallowArchivable(m: Manifest)
    ensures Archivable(m) <==> Storable(m, MAIN) && Shallow(m)
  {
  }

  // ---- All plans of a manifest -----------------------------------------------------------------

  datatype Placed = Placed(name: string, plan: Manifest)

  function Alone(m: Manifest): Manifest {
    m.(plans := map[])
  }

  /** The plans at every depth, without their own plans, in the order in which they are written. */
  ghost function Below(m: Manifest): seq<Placed>
    decreases m, 1
  {
    Flat(PlansOf(m), SortedKeys(m.plans.Keys))
  }

  ghost function PlansOf(m: Manifest): string -> seq<Placed>
    decreases m, 0
  {
    k => if k in m.plans then [Placed(k, Alone(m.plans[k]))] + Below(m.plans[k]) else []
  }

  ghost predicate DistinctNames(ps: seq<Placed>) {
    forall i, j :: 0 <= i < j < |ps| ==> ps[i].name != ps[j].name
  }

  ghost function MapOf(ps: seq<Placed>): map<string, Manifest> {
    if ps == [] then map[] else MapOf(ps[1..])[ps[0].name := ps[0].plan]
  }

  /** The manifest with the plans of every depth side by side. */
  ghost function Flattened(m: Manifest): Manifest {
    m.(plans := MapOf(Below(m)))
  }

  lemma {:induction false} MapOfKeys(ps: seq<Placed>, k: string)
    requires k in MapOf(ps)
    ensures Placed(k, MapOf(ps)[k]) in ps
  {
    if k != ps[0].name { MapOfKeys(ps[1..], k); }
  }

  lemma {:induction false} MapOfAt(ps: seq<Placed>, x: Placed)
    requires DistinctNames(ps) && x in ps
    ensures x.name in MapOf(ps) && MapOf(ps)[x.name] == x.plan
  {
    if x != ps[0] {
      assert x in ps[1..];
      MapOfAt(ps[1..], x);
      assert x.name != ps[0].name;
    }
  }

  ghost predicate CleanPlan(x: Placed) {
    Part(x.name) && '\\' !in x.name && x.plan.main == PLAN && x.plan.plans == map[] && CleanData(x.plan)
  }

  lemma AloneClean(k: string, m: Manifest)
    requires Part(k) && '\\' !in k && m.main == PLAN && CleanData(m)
    ensures CleanPlan(Placed(k, Alone(m)))
  {
    forall kind | DataKind(kind) ensures CleanKeys(Data(Alone(m), kind)) {
      assert Data(Alone(m), kind) == Data(m, kind);
    }
  }

  lemma {:induction false} BelowClean(m: Manifest, main: string, x: Placed)
    requires Storable(m, main) && x in Below(m)
    ensures CleanPlan(x)
    decreases m
  {
    var k := FlatFrom(PlansOf(m), SortedKeys(m.plans.Keys), x);
    if x == Placed(k, Alone(m.plans[k])) {
      AloneClean(k, m.plans[k]);
    } else {
      BelowClean(m.plans[k], PLAN, x);
    }
  }

  lemma {:induction false} FlatFrom<T>(parts: string -> seq<T>, keys: seq<string>, x: T) returns (k: string)
    requires x in Flat(parts, keys)
    ensures k in keys && x in parts(k)
  {
    if x in parts(keys[0]) {
      k := keys[0];
    } else {
      k := FlatFrom(parts, keys[1..], x);
    }
  }

  lemma FlattenedArchivable(m: Manifest)
    requires Storable(m, MAIN)
    ensures Archivable(Flattened(m))
  {
    var f := Flattened(m);
    FlattenedData(m);
    forall k | k in f.plans ensures CleanPlan(Placed(k, f.plans[k])) {
      MapOfKeys(Below(m), k);
      BelowClean(m, MAIN, Placed(k, f.plans[k]));
    }
  }

  lemma FlattenedData(m: Manifest)
    requires CleanData(m)
    ensures CleanData(Flattened(m)) && Flattened(m).main == m.main
  {
    forall kind | DataKind(kind) ensures CleanKeys(Data(Flattened(m), kind)) {
      assert Data(Flattened(m), kind) == Data(m, kind);
    }
  }

  // ---- What is written -------------------------------------------------------------------------

  ghost function Each(ps: seq<Placed>): seq<TarEntry> {
    if ps == [] then [] else DataEntries(ps[0].plan, JoinTwo(PLANS, ps[0].name)) + Each(ps[1..])
  }

  lemma {:induction false} EachBoth(a: seq<Placed>, b: seq<Placed>)
    ensures Each(a + b) == Each(a) + Each(b)
  {
    if a == [] {
      assert a + b == b;
    } else {
      assert (a + b)[1..] == a[1..] + b;
      EachBoth(a[1..], b);
      Associates(DataEntries(a[0].plan, JoinTwo(PLANS, a[0].name)), Each(a[1..]), Each(b));
    }
  }

  lemma EachOne(x: Placed)
    ensures Each([x]) == DataEntries(x.plan, JoinTwo(PLANS, x.name))
  {
    assert [x][1..] == [];
  }

  lemma AloneEntries(m: Manifest, prefix: string)
    ensures DataEntries(Alone(m), prefix) == DataEntries(m, prefix)
  {
  }

  /** Plans of every depth are written one after the other, all at the same level. */
  lemma {:induction false} WrittenFlat(m: Manifest)
    ensures Flat(PlanEntries(m), SortedKeys(m.plans.Keys)) == Each(Below(m))
    decreases m, 2, 0
  {
    WrittenKeys(m, SortedKeys(m.plans.Keys));
  }

  lemma {:induction false} WrittenKeys(m: Manifest, keys: seq<string>)
    requires forall k :: k in keys ==> k in m.plans
    ensures Flat(PlanEntries(m), keys) == Each(Flat(PlansOf(m), keys))
    decreases m, 1, |keys|
  {
    if keys != [] {
      PlanWritten(m, keys[0]);
      WrittenKeys(m, keys[1..]);
      EachBoth(PlansOf(m)(keys[0]), Flat(PlansOf(m), keys[1..]));
    }
  }

  lemma {:induction false} PlanWritten(m: Manifest, k: string)
    requires k in m.plans
    ensures PlanEntries(m)(k) == Each(PlansOf(m)(k))
    decreases m, 0, 0
  {
    WrittenFlat(m.plans[k]);
    AloneEntries(m.plans[k], JoinTwo(PLANS, k));
    EachOne(Placed(k, Alone(m.plans[k])));
    EachBoth([Placed(k, Alone(m.plans[k]))], Below(m.plans[k]));
  }

  function NamesIn(ps: seq<Placed>): (ks: seq<string>)
    ensures |ks| == |ps| && forall i :: 0 <= i < |ps| ==> ks[i] == ps[i].name
  {
    seq(|ps|, i requires 0 <= i < |ps| => ps[i].name)
  }

  lemma LeafWritten(f: Manifest, x: Placed)
    requires x.name in f.plans && f.plans[x.name] == x.plan && x.plan.plans == map[]
    ensures PlanEntries(f)(x.name) == DataEntries(x.plan, JoinTwo(PLANS, x.name))
  {
    assert SortedKeys(x.plan.plans.Keys) == [];
  }

  /** The same is written for a manifest with all of them as its own plans. */
  lemma {:induction false} EachFlat(f: Manifest, ps: seq<Placed>)
    requires forall x :: x in ps ==> x.name in f.plans && f.plans[x.name] == x.plan && x.plan.plans == map[]
    ensures Flat(PlanEntries(f), NamesIn(ps)) == Each(ps)
  {
    if ps != [] {
      assert NamesIn(ps)[1..] == NamesIn(ps[1..]);
      LeafWritten(f, ps[0]);
      EachFlat(f, ps[1..]);
    }
  }

  lemma SameEntries(m: Manifest)
    requires Storable(m, MAIN) && DistinctNames(Below(m))
    ensures var f := Flattened(m);
            ManifestEntries(m, "") == DataEntries(f, "") + Flat(PlanEntries(f), NamesIn(Below(m)))
  {
    var f, ps := Flattened(m), Below(m);
    WrittenFlat(m);
    forall x | x in ps ensures x.name in f.plans && f.plans[x.name] == x.plan && x.plan.plans == map[] {
      MapOfAt(ps, x);
      BelowClean(m, MAIN, x);
    }
    EachFlat(f, ps);
  }

  // ---- What is read ----------------------------------------------------------------------------

  /** The files of the archive of a manifest with plans at any depth. */
  ghost function Archived(m: Manifest): FileMap
    requires Storable(m, MAIN) && DistinctNames(Below(m))
  {
    NamesAre(m);
    AddPlans(AddData(map[], [], Flattened(m)), Flattened(m), NamesIn(Below(m)))
  }

  lemma NamesAre(m: Manifest)
    requires DistinctNames(Below(m))
    ensures var keys := NamesIn(Below(m));
            && (forall i :: 0 <= i < |keys| ==> keys[i] in Flattened(m).plans) && Sorting.DistinctKeys(keys, Self)
            && forall k :: k in Flattened(m).plans ==> k in keys
  {
    var ps := Below(m);
    var keys := NamesIn(ps);
    forall i | 0 <= i < |keys| ensures keys[i] in Flattened(m).plans { MapOfAt(ps, ps[i]); }
    forall k | k in Flattened(m).plans ensures k in keys {
      MapOfKeys(ps, k);
      var i :| 0 <= i < |ps| && ps[i] == Placed(k, MapOf(ps)[k]);
      assert keys[i] == k;
    }
  }

  /** The archive holds the flattened manifest. */
  lemma ArchivedHolds(m: Manifest)
    requires Storable(m, MAIN) && DistinctNames(Below(m))
    ensures Unpacks(ManifestEntries(m, ""), map[], Archived(m)) && Proper(Archived(m))
    ensures HoldsData(Archived(m), Flattened(m)) && HoldsPlans(Archived(m), Flattened(m))
  {
    var f, keys := Flattened(m), NamesIn(Below(m));
    var data, fm := AddData(map[], [], f), Archived(m);
    FlattenedArchivable(m);
    RootUnpacked(f);
    NamesAre(m);
    PlansUnpacked(data, f, keys);
    UnpacksBoth(DataEntries(f, ""), Flat(PlanEntries(f), keys), map[], data, fm);
    SameEntries(m);
    UnpackProper(ManifestEntries(m, ""), map[]);
    HoldsKept(data, fm, f);
  }

  /** Writing a manifest and reading it gives the flattened manifest, if it has no misplaced script;
      so it is the manifest that was written exactly when no plan has plans, too. */
  lemma NestedExactly(m: Manifest)
    requires Storable(m, MAIN) && DistinctNames(Below(m))
    ensures Unpacks(ManifestEntries(m, ""), map[], Archived(m)) && Proper(Archived(m)) && !IsDir(Archived(m), [MAIN])
    ensures NoScripts(Flattened(m)) ==> Load(Archived(m), MAIN) == Ok(Stripped(Flattened(m)))
    ensures Load(Archived(m), MAIN) == Ok(m) <==> Shallow(m) && NoScripts(m) && NoMarks(m)
  {
    ArchivedHolds(m);
    FlattenedArchivable(m);
    if NoScripts(Flattened(m)) { LoadRoot(Archived(m), Flattened(m)); }
    if Shallow(m) {
      ShallowArchivable(m);
      RoundTripExactly(m);
    } else {
      NestedLost(m);
    }
  }

  lemma NestedLost(m: Manifest)
    requires Storable(m, MAIN) && DistinctNames(Below(m)) && !Shallow(m)
    requires Proper(Archived(m)) && HoldsData(Archived(m), Flattened(m)) && HoldsPlans(Archived(m), Flattened(m))
    ensures Load(Archived(m), MAIN) != Ok(m)
  {
    var f := Flattened(m);
    FlattenedArchivable(m);
    if NoScripts(f) {
      LoadRoot(Archived(m), f);
      StrippedParts(f);
      var k :| k in m.plans && m.plans[k].plans != map[];
      if k in f.plans { StrippedParts(f.plans[k]); }
    } else {
      ScriptsSpoil(Archived(m), f);
    }
  }

  // ---- When paths repeat -----------------------------------------------------------------------

  ghost predicate Good(e: TarEntry) {
    e.kind == Regular && Accepted(e.name).Ok?
  }

  ghost predicate AllGood(entries: seq<TarEntry>) {
    forall e :: e in entries ==> Good(e)
  }

  ghost function Stored(e: TarEntry): Path
    requires Good(e)
  {
    SplitSlash(Accepted(e.name).value)
  }

  lemma {:induction false} SplitFitting(a: seq<TarEntry>, b: seq<TarEntry>, fm: FileMap, e: TarEntry) returns (fm': FileMap)
    requires AllGood(a) && e in a && Fitting(a + b, fm)
    ensures Fitting(b, fm') && Stored(e) in fm'
  {
    fm' := FittingRest(a, b, fm);
    KeptAfter(a, fm, e, fm');
  }

  lemma {:induction false} FittingRest(a: seq<TarEntry>, b: seq<TarEntry>, fm: FileMap) returns (fm': FileMap)
    requires AllGood(a) && Fitting(a + b, fm)
    ensures Fitting(b, fm') && Unpack(a, fm) == Ok(fm')
  {
    if a == [] {
      assert a + b == b;
      fm' := fm;
    } else {
      assert (a + b)[1..] == a[1..] + b && a[0] in a;
      fm' := FittingRest(a[1..], b, fm[Stored(a[0]) := StripBOM(a[0].body)]);
    }
  }

  lemma {:induction false} KeptAfter(a: seq<TarEntry>, fm: FileMap, e: TarEntry, fm': FileMap)
    requires AllGood(a) && Unpack(a, fm) == Ok(fm') && Good(e) && (e in a || Stored(e) in fm)
    ensures Stored(e) in fm'
  {
    if a != [] {
      assert a[0] in a;
      KeptAfter(a[1..], fm[Stored(a[0]) := StripBOM(a[0].body)], e, fm');
    }
  }

  lemma {:induction false} NotTwice(entries: seq<TarEntry>, fm: FileMap, e: TarEntry)
    requires AllGood(entries) && e in entries && Stored(e) in fm
    ensures !Fitting(entries, fm)
  {
    assert entries[0] in entries;
    if e != entries[0] { NotTwice(entries[1..], fm[Stored(entries[0]) := StripBOM(entries[0].body)], e); }
  }

  lemma UnpackedGood(entries: seq<TarEntry>, fm: FileMap)
    requires Unpack(entries, fm).Ok? && Regulars(entries)
    ensures AllGood(entries)
  {
    UnpackErrExactly(entries, fm);
    forall e | e in entries ensures Good(e) { assert !BadName(e); }
  }

  ghost predicate Regulars(entries: seq<TarEntry>) {
    forall e :: e in entries ==> e.kind == Regular
  }

  lemma RegularsBoth(a: seq<TarEntry>, b: seq<TarEntry>)
    requires Regulars(a) && Regulars(b)
    ensures Regulars(a + b)
  {
  }

  lemma KindRegular(base: string, c: Contents)
    ensures Regulars(SortedEntries(base, c))
  {
  }

  lemma AllRegular(m: Manifest, prefix: string)
    ensures Regulars(DataEntries(m, prefix))
  {
    var main := [TarEntry(JoinTwo(prefix, m.main), Regular, m.mainScript)];
    var files, templates := SortedEntries(JoinTwo(prefix, "files"), m.files), SortedEntries(JoinTwo(prefix, "templates"), m.templates);
    var vars, secrets := SortedEntries(JoinTwo(prefix, "vars"), m.vars), SortedEntries(JoinTwo(prefix, "secrets"), m.secrets);
    KindRegular(JoinTwo(prefix, "files"), m.files);
    KindRegular(JoinTwo(prefix, "templates"), m.templates);
    KindRegular(JoinTwo(prefix, "vars"), m.vars);
    KindRegular(JoinTwo(prefix, "secrets"), m.secrets);
    RegularsBoth(main, files);
    RegularsBoth(main + files, templates);
    RegularsBoth(main + files + templates, vars);
    RegularsBoth(main + files + templates + vars, secrets);
  }

  lemma PlanEntriesGood(x: Placed)
    requires CleanPlan(x)
    ensures AllGood(DataEntries(x.plan, JoinTwo(PLANS, x.name)))
  {
    PlanFits(x.plan, x.name);
    DataUnpacked(map[], [PLANS, x.name], x.plan);
    LeafEntries(x.plan, x.name);
    AllRegular(x.plan, Join([PLANS, x.name]));
    UnpackedGood(DataEntries(x.plan, Join([PLANS, x.name])), map[]);
  }

  lemma {:induction false} EachGood(ps: seq<Placed>)
    requires forall x :: x in ps ==> CleanPlan(x)
    ensures AllGood(Each(ps))
  {
    if ps != [] {
      PlanEntriesGood(ps[0]);
      EachGood(ps[1..]);
    }
  }

  ghost function ScriptOf(x: Placed): TarEntry {
    TarEntry(JoinTwo(JoinTwo(PLANS, x.name), x.plan.main), Regular, x.plan.mainScript)
  }

  lemma ScriptIn(x: Placed, ps: seq<Placed>)
    requires x in ps
    ensures ScriptOf(x) in Each(ps)
  {
    if x == ps[0] {
      assert DataEntries(x.plan, JoinTwo(PLANS, x.name))[0] == ScriptOf(x);
    } else {
      ScriptIn(x, ps[1..]);
    }
  }

  lemma RootGood(m: Manifest)
    requires Storable(m, MAIN)
    ensures AllGood(DataEntries(m, ""))
  {
    AloneEntries(m, "");
    AllRegular(m, "");
    FlattenedArchivable(m);
    RootUnpacked(Flattened(m));
    SameData(m);
    UnpackedGood(DataEntries(m, ""), map[]);
  }

  lemma SameData(m: Manifest)
    ensures DataEntries(Flattened(m), "") == DataEntries(m, "")
  {
  }

  /** The archive repeats no path, and has no file above another, exactly when the plans of all
      depths have different names. */
  lemma FittingExactly(m: Manifest)
    requires Storable(m, MAIN)
    ensures Fitting(ManifestEntries(m, ""), map[]) <==> DistinctNames(Below(m))
  {
    var ps := Below(m);
    if DistinctNames(ps) {
      ArchivedHolds(m);
    } else {
      var i, j :| 0 <= i < j < |ps| && ps[i].name == ps[j].name;
      forall x | x in ps ensures CleanPlan(x) { BelowClean(m, MAIN, x); }
      WrittenFlat(m);
      RootGood(m);
      NamesCollide(DataEntries(m, ""), ps, i, j);
    }
  }

  /** What two plans of one name write. */
  lemma NamesCollide(root: seq<TarEntry>, ps: seq<Placed>, i: nat, j: nat)
    requires i < j < |ps| && ps[i].name == ps[j].name && AllGood(root) && forall x :: x in ps ==> CleanPlan(x)
    ensures !Fitting(root + Each(ps), map[])
  {
    var a, b := ps[..j], ps[j..];
    assert ps == a + b && ps[i] in a && ps[j] in b;
    EachBoth(a, b);
    Associates(root, Each(a), Each(b));
    EachGood(a);
    EachGood(b);
    ScriptIn(ps[i], a);
    ScriptIn(ps[j], b);
    Collides(root + Each(a), Each(b), ScriptOf(ps[i]), ScriptOf(ps[j]));
  }

  lemma Collides(a: seq<TarEntry>, b: seq<TarEntry>, e: TarEntry, e': TarEntry)
    requires AllGood(a) && AllGood(b) && e in a && e' in b && Stored(e) == Stored(e')
    ensures !Fitting(a + b, map[])
  {
    if Fitting(a + b, map[]) {
      var fm := SplitFitting(a, b, map[], e);
      NotTwice(b, fm, e');
    }
  }

  /** Saving and loading, as the tests of the archive do. */
  method SaveAndLoad(m: Manifest) returns (r: Result<Manifest>, panics: bool)
    requires Storable(m, MAIN) && DistinctNames(Below(m))
    ensures !panics
    ensures NoScripts(Flattened(m)) ==> r == Ok(Stripped(Flattened(m)))
    ensures r == Ok(m) <==> Shallow(m) && NoScripts(m) && NoMarks(m)
  {
    var out := new TarWriter();
    out.WriteTar(m, "");
    NestedExactly(m);
    assert out.entries == ManifestEntries(m, "");
    r, panics := LoadArchive(out.entries);
  }
}
