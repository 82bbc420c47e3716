/** The loader itself: walks over the tree that fill maps (manifest/manifest.go). */
module Loader {
  import opened Base
  import opened Paths
  import opened TarFS
  import opened Manifests

  /** A file system that is a directory of the tree, and the files it shows. */
  ghost predicate Shows(tree: Tree, dir: string, base: Path, fm: FileMap)
    reads tree, tree.nodes
  {
    tree.Valid() && Parts(base) && dir == Join(base) && fm == Sub(tree.Files(), base) && Proper(fm)
  }

  /** No path is longer than `depth`: the walks end. */
  ghost predicate Bounded(fm: FileMap, depth: nat) {
    forall p :: p in fm ==> |p| <= depth
  }

  lemma FullPath(base: Path, p: Path)
    requires Parts(base) && p != [] && Parts(p)
    ensures JoinTwo(Join(base), Join(p)) == Join(base + p) && Parts(base + p)
  {
    JoinTwoParts(if base == [] then p else base, p);
    if base == [] { assert base + p == p; }
  }

  /** fs.Stat through fs.Sub. */
  method Stat(tree: Tree, dir: string, name: string, ghost base: Path, ghost fm: FileMap, ghost p: Path)
    returns (info: TarFile?)
    requires Shows(tree, dir, base, fm) && p != [] && Parts(p) && name == Join(p)
    ensures info != null <==> p in fm || IsDir(fm, p)
    ensures info != null ==> Entry(fm, p, info)
  {
    FullPath(base, p);
    SubAt(tree.Files(), base, p);
    SubDir(tree.Files(), base, p);
    info := tree.Open(JoinTwo(dir, name), base + p);
  }

  lemma SubListing(res: seq<TarFile>, fm: FileMap, base: Path, p: Path)
    requires Listing(res, fm, base + p)
    ensures Listing(res, Sub(fm, base), p)
  {
    forall n | n in res ensures Entry(Sub(fm, base), p + [BaseName(n)], n) {
      var c := p + [BaseName(n)];
      assert base + c == base + p + [BaseName(n)];
      SubAt(fm, base, c);
      SubDir(fm, base, c);
    }
    forall q | q in Sub(fm, base) && Above(p, q) ensures exists n :: n in res && BaseName(n) == q[|p|] {
      SubAt(fm, base, q);
      assert Above(base + p, base + q) && (base + q)[|base + p|] == q[|p|];
    }
  }

  /** fs.ReadDir through fs.Sub. */
  method ReadDir(tree: Tree, dir: string, name: string, ghost base: Path, ghost fm: FileMap, ghost p: Path)
    returns (res: seq<TarFile>)
    requires Shows(tree, dir, base, fm) && p != [] && Parts(p) && name == Join(p) && IsDir(fm, p)
    ensures Listing(res, fm, p)
  {
    FullPath(base, p);
    SubDir(tree.Files(), base, p);
    var found;
    found, res := tree.ReadDir(JoinTwo(dir, name), base + p);
    SubListing(res, tree.Files(), base, p);
  }

  /** A child of a directory: its path, and how fs.WalkDir names it. */
  lemma ChildPath(fm: FileMap, p: Path, n: TarFile, depth: nat)
    requires Proper(fm) && Bounded(fm, depth) && p != [] && Parts(p) && Entry(fm, p + [BaseName(n)], n)
    ensures Parts(p + [BaseName(n)]) && |p| < depth
    ensures JoinTwo(Join(p), BaseName(n)) == Join(p + [BaseName(n)])
  {
    var c := p + [BaseName(n)];
    var q :| q in fm && c <= q;
    assert Parts(q) && q[|p|] == BaseName(n);
    assert Part(q[|p|]);
    FullPath(p, [BaseName(n)]);
  }

  /** The paths below the first children read. */
  ghost function Done(fm: FileMap, p: Path, seen: seq<TarFile>): set<Path> {
    set q | q in fm && Above(p, q) && exists n :: n in seen && BaseName(n) == q[|p|]
  }

  lemma DoneNext(fm: FileMap, p: Path, seen: seq<TarFile>, n: TarFile)
    ensures Done(fm, p, seen + [n]) == Done(fm, p, seen) + Under(fm, p + [BaseName(n)])
  {
    forall q | q in fm ensures q in Done(fm, p, seen + [n]) <==> q in Done(fm, p, seen) || p + [BaseName(n)] <= q {
      if Above(p, q) { assert p + [BaseName(n)] <= q <==> q[|p|] == BaseName(n); }
      assert p + [BaseName(n)] <= q ==> Above(p, q);
    }
  }

  lemma DoneAll(fm: FileMap, p: Path, all: seq<TarFile>)
    requires Listing(all, fm, p) && Proper(fm) && IsDir(fm, p)
    ensures Done(fm, p, all[..|all|]) == Under(fm, p) && Done(fm, p, all[..0]) == {}
  {
    assert all[..|all|] == all && all[..0] == [];
    forall q | q in fm && p <= q ensures Above(p, q) {}
  }

  lemma OnlySelf(fm: FileMap, p: Path)
    requires Proper(fm) && p in fm
    ensures Under(fm, p) == {p}
  {
    forall q | q in Under(fm, p) && q != p ensures Above(p, q) {}
  }

  /** The callback of fsGatherer, at a file. */
  method PutFile(tree: Tree, dir: string, name: string, m: Contents, ghost base: Path, ghost fm: FileMap, ghost p: Path)
    returns (m': Contents)
    requires Shows(tree, dir, base, fm) && Parts(p) && name == Join(p) && p in fm
    ensures m' == m + Keyed(fm, p[0], Under(fm, p))
  {
    var f := Stat(tree, dir, name, base, fm, p);
    var key := TrimFirstDir(name);
    TrimmedJoin(p);
    KeyedOne(fm, p[0], p);
    OnlySelf(fm, p);
    return m[key := f.contents];
  }

  lemma GatherNone(m: Contents, fm: FileMap, kind: string, p: Path, children: seq<TarFile>)
    ensures m == m + Keyed(fm, kind, Done(fm, p, children[..0]))
  {
    assert Keys(Done(fm, p, children[..0])) == {};
  }

  lemma PlusAssociates<K, V>(a: map<K, V>, b: map<K, V>, c: map<K, V>)
    ensures (a + b) + c == a + (b + c)
  {
  }

  lemma GatherNext(m: Contents, fm: FileMap, kind: string, p: Path, children: seq<TarFile>, i: nat)
    requires i < |children|
    ensures (m + Keyed(fm, kind, Done(fm, p, children[..i]))) + Keyed(fm, kind, Under(fm, p + [BaseName(children[i])]))
         == m + Keyed(fm, kind, Done(fm, p, children[..i + 1]))
  {
    var done, below := Done(fm, p, children[..i]), Under(fm, p + [BaseName(children[i])]);
    assert Done(fm, p, children[..i + 1]) == done + below by {
      DoneNext(fm, p, children[..i], children[i]);
      assert children[..i + 1] == children[..i] + [children[i]];
    }
    KeyedUnion(fm, kind, done, below);
    PlusAssociates(m, Keyed(fm, kind, done), Keyed(fm, kind, below));
  }

  /** fs.WalkDir with fsGatherer: the files under a path are put into the map. */
  method WalkFiles(tree: Tree, dir: string, name: string, d: TarFile, m: Contents,
                   ghost base: Path, ghost fm: FileMap, ghost p: Path, ghost depth: nat)
    returns (m': Contents)
    requires Shows(tree, dir, base, fm) && p != [] && Parts(p) && name == Join(p) && Entry(fm, p, d) && Bounded(fm, depth)
    ensures m' == m + Keyed(fm, p[0], Under(fm, p))
    decreases depth - |p|
  {
    if !d.dir {
      m' := PutFile(tree, dir, name, m, base, fm, p);
    } else {
      m' := m;
      var children := ReadDir(tree, dir, name, base, fm, p);
      DoneAll(fm, p, children);
      GatherNone(m, fm, p[0], p, children);
      for i := 0 to |children|
        invariant m' == m + Keyed(fm, p[0], Done(fm, p, children[..i]))
      {
        var child := children[i];
        ChildPath(fm, p, child, depth);
        m' := WalkFiles(tree, dir, JoinTwo(name, BaseName(child)), child, m', base, fm, p + [BaseName(child)], depth);
        GatherNext(m, fm, p[0], p, children, i);
      }
    }
  }

  // ---- Plans -----------------------------------------------------------------------------------

  ghost function PlansUnder(fm: FileMap, p: Path): set<Path> {
    set d | d in PlanDirs(fm) && p <= d
  }

  ghost function OwnPlan(fm: FileMap, p: Path): set<Path> {
    if p + [PLAN] in fm then {p} else {}
  }

  /** The plan directories below the first children read. */
  ghost function PlansDone(fm: FileMap, p: Path, children: seq<TarFile>, i: nat): set<Path>
    requires i <= |children|
  {
    set d | d in PlanDirs(fm) && Above(p, d) && exists n :: n in children[..i] && BaseName(n) == d[|p|]
  }

  lemma NoPlansDone(fm: FileMap, p: Path, children: seq<TarFile>)
    ensures PlansDone(fm, p, children, 0) == {}
  {
  }

  ghost predicate FaultUnder(fm: FileMap, loads: Loads, p: Path)
    requires Proper(fm)
  {
    exists d :: p <= d && PlanFault(fm, loads, d)
  }

  /** Nothing was wrong below the first children read. */
  ghost predicate NoFaults(fm: FileMap, loads: Loads, p: Path, children: seq<TarFile>, i: nat)
    requires Proper(fm) && i <= |children|
  {
    i == 0 || (NoFaults(fm, loads, p, children, i - 1) && !FaultUnder(fm, loads, p + [BaseName(children[i - 1])]))
  }

  lemma {:induction false} NoFaultsAre(fm: FileMap, loads: Loads, p: Path, children: seq<TarFile>, i: nat, j: nat)
    requires Proper(fm) && j < i <= |children| && NoFaults(fm, loads, p, children, i)
    ensures !FaultUnder(fm, loads, p + [BaseName(children[j])])
  {
    if j < i - 1 { NoFaultsAre(fm, loads, p, children, i - 1, j); }
  }

  /** A fault below a child is a fault below its directory. */
  lemma FaultBelow(fm: FileMap, loads: Loads, p: Path, children: seq<TarFile>, i: nat)
    requires Proper(fm) && i < |children|
    ensures FaultUnder(fm, loads, p + [BaseName(children[i])]) ==> FaultUnder(fm, loads, p)
    ensures NoFaults(fm, loads, p, children, i) && !FaultUnder(fm, loads, p + [BaseName(children[i])]) ==> NoFaults(fm, loads, p, children, i + 1)
  {
    if FaultUnder(fm, loads, p + [BaseName(children[i])]) {
      var d :| p + [BaseName(children[i])] <= d && PlanFault(fm, loads, d);
      assert p <= d;
    }
  }

  lemma PlansDoneNext(fm: FileMap, p: Path, children: seq<TarFile>, i: nat)
    requires i < |children|
    ensures PlansDone(fm, p, children, i + 1) == PlansDone(fm, p, children, i) + PlansUnder(fm, p + [BaseName(children[i])])
  {
    var n := children[i];
    assert children[..i + 1] == children[..i] + [n];
    forall d | d in PlanDirs(fm)
      ensures d in PlansDone(fm, p, children, i + 1) <==> d in PlansDone(fm, p, children, i) || p + [BaseName(n)] <= d {
      if Above(p, d) { assert p + [BaseName(n)] <= d <==> d[|p|] == BaseName(n); }
      assert p + [BaseName(n)] <= d ==> Above(p, d);
    }
  }

  /** A directory that holds a plan script, or a directory of that name. */
  ghost predicate HasScript(fm: FileMap, d: Path) {
    IsDir(fm, d + [PLAN]) || d + [PLAN] in fm
  }

  lemma ScriptBelow(fm: FileMap, p: Path, d: Path) returns (q: Path)
    requires p <= d && HasScript(fm, d)
    ensures q in fm && Above(p, q) && d <= q
  {
    q :| q in fm && d + [PLAN] <= q;
    assert |q| > |d|;
  }

  /** Below a directory, every plan directory and every fault is below a child. */
  lemma BelowChild(fm: FileMap, p: Path, d: Path, all: seq<TarFile>) returns (i: nat)
    requires Listing(all, fm, p) && Above(p, d) && HasScript(fm, d)
    ensures i < |all| && p + [BaseName(all[i])] <= d
  {
    var q := ScriptBelow(fm, p, d);
    assert q[|p|] == d[|p|];
    var n :| n in all && BaseName(n) == q[|p|];
    i :| 0 <= i < |all| && all[i] == n;
    assert d[..|p| + 1] == p + [d[|p|]];
  }

  lemma PlansDoneAll(fm: FileMap, p: Path, all: seq<TarFile>)
    requires Listing(all, fm, p) && p != [] && p[0] == PLANS
    ensures OwnPlan(fm, p) + PlansDone(fm, p, all, |all|) == PlansUnder(fm, p)
  {
    assert all[..|all|] == all;
    forall d | d in PlansUnder(fm, p) ensures d in OwnPlan(fm, p) + PlansDone(fm, p, all, |all|) {
      PlanDirAt(fm, d);
      if d != p {
        assert Above(p, d);
        var i := BelowChild(fm, p, d, all);
        assert all[i] in all && d[|p|] == BaseName(all[i]);
      }
    }
    PlanDirAt(fm, p);
  }

  /** Faults are found at the directory itself or below a child. */
  lemma FaultPlaces(fm: FileMap, loads: Loads, p: Path, all: seq<TarFile>)
    requires Proper(fm) && Listing(all, fm, p) && NoFaults(fm, loads, p, all, |all|)
    ensures FaultUnder(fm, loads, p) ==> PlanFault(fm, loads, p)
  {
    if FaultUnder(fm, loads, p) {
      var d :| p <= d && PlanFault(fm, loads, d);
      if d != p {
        assert Above(p, d);
        var i := BelowChild(fm, p, d, all);
        NoFaultsAre(fm, loads, p, all, |all|, i);
      }
    }
  }

  /** There is nothing below a file. */
  lemma NoPlansInFile(fm: FileMap, loads: Loads, p: Path)
    requires Proper(fm) && p in fm
    ensures PlansUnder(fm, p) == {} && !FaultUnder(fm, loads, p)
  {
    forall d | p <= d ensures !HasScript(fm, d) {
      if HasScript(fm, d) { var _ := ScriptBelow(fm, p, d); }
    }
    forall d ensures d !in PlansUnder(fm, p) { PlanDirAt(fm, d); }
  }

  lemma SubBounded(fm: FileMap, p: Path, depth: nat)
    requires Bounded(fm, depth) && |p| <= depth
    ensures Bounded(Sub(fm, p), depth - |p|)
  {
    forall r | r in Sub(fm, p) ensures |r| <= depth - |p| { SubAt(fm, p, r); }
  }

  /** fs.Sub: the files of a directory as a file system of their own. */
  lemma SubShows(tree: Tree, dir: string, base: Path, fm: FileMap, p: Path)
    requires Shows(tree, dir, base, fm) && p != [] && Parts(p)
    ensures Shows(tree, JoinTwo(dir, Join(p)), base + p, Sub(fm, p))
  {
    FullPath(base, p);
    SubSub(tree.Files(), base, p);
    SubProper(fm, p);
  }

  lemma ScriptPath(p: Path)
    requires p != [] && Parts(p)
    ensures Part(PLAN) && Parts(p + [PLAN]) && JoinTwo(Join(p), PLAN) == Join(p + [PLAN])
  {
    FullPath(p, [PLAN]);
  }

  /** A walk over the plans stands at the path `p`. */
  ghost predicate InPlans(tree: Tree, dir: string, name: string, base: Path, fm: FileMap, loads: Loads, p: Path, depth: nat)
    reads tree, tree.nodes
  {
    && Shows(tree, dir, base, fm) && TopFile(fm) && Bounded(fm, depth) && loads == SubLoads(fm)
    && p != [] && p[0] == PLANS && Parts(p) && name == Join(p)
  }

  /** The map has gained the plans of some directories. */
  ghost predicate Gains(loads: Loads, ds: set<Path>, m: map<string, Manifest>, m': map<string, Manifest>) {
    Loadable(loads, ds) && m' == m + PlanMap(loads, ds)
  }

  lemma GainsBoth(loads: Loads, ds: set<Path>, es: set<Path>, m: map<string, Manifest>, m': map<string, Manifest>, m'': map<string, Manifest>)
    requires Gains(loads, ds, m, m') && Gains(loads, es, m', m'')
    ensures Gains(loads, ds + es, m, m'')
  {
    PlanMapUnion(loads, ds, es);
    PlusAssociates(m, PlanMap(loads, ds), PlanMap(loads, es));
  }

  lemma GainsNothing(loads: Loads, m: map<string, Manifest>)
    ensures Gains(loads, {}, m, m)
  {
    assert Keys({}) == {};
  }

  lemma GainsOne(loads: Loads, p: Path, m: map<string, Manifest>)
    requires p != [] && p[0] == PLANS && Parts(p) && loads(p).Ok?
    ensures Gains(loads, {p}, m, m[Join(p[1..]) := loads(p).value])
  {
    PlanMapOne(loads, p);
    PlusOne(m, Join(p[1..]), loads(p).value);
  }

  /** The callback of gatherPlansFS, at a directory. */
  method VisitPlan(tree: Tree, dir: string, name: string, m: map<string, Manifest>,
                   ghost base: Path, ghost fm: FileMap, ghost loads: Loads, ghost p: Path, ghost depth: nat)
    returns (r: Result<map<string, Manifest>>)
    requires InPlans(tree, dir, name, base, fm, loads, p, depth) && |p| < depth
    ensures r.Err? <==> PlanFault(fm, loads, p)
    ensures r.Ok? ==> Gains(loads, OwnPlan(fm, p), m, r.value)
    decreases depth - |p|, 1
  {
    ScriptPath(p);
    var info := Stat(tree, dir, JoinTwo(name, PLAN), base, fm, p + [PLAN]);
    if info == null {
      GainsNothing(loads, m);
      return Ok(m);
    } else if info.dir {
      return Err;
    } else {
      SubShows(tree, dir, base, fm, p);
      SubBounded(fm, p, depth);
      SubScript(fm, p);
      var plan, _ := LoadFS(tree, JoinTwo(dir, name), PLAN, base + p, Sub(fm, p), depth - |p|);
      if plan.Err? { return Err; }
      var key := TrimFirstDir(name);
      TrimmedJoin(p);
      GainsOne(loads, p, m);
      return Ok(m[key := plan.value]);
    }
  }

  lemma SubScript(fm: FileMap, p: Path)
    requires Proper(fm) && TopFile(fm) && p != [] && p + [PLAN] in fm
    ensures Proper(Sub(fm, p)) && !IsDir(Sub(fm, p), [PLAN]) && !IsDir(fm, p + [PLAN])
    ensures SubLoads(fm)(p) == Load(Sub(fm, p), PLAN)
  {
    SubDir(fm, p, [PLAN]);
    SubLoadsAt(fm, p);
  }

  lemma NonePlus<K, V>(m: map<K, V>)
    ensures map[] + m == m
  {
  }

  lemma PlusOne<K, V>(m: map<K, V>, k: K, v: V)
    ensures m + map[k := v] == m[k := v]
  {
  }

  /** fs.WalkDir with the callback of gatherPlansFS. */
  method WalkPlans(tree: Tree, dir: string, name: string, d: TarFile, m: map<string, Manifest>,
                   ghost base: Path, ghost fm: FileMap, ghost loads: Loads, ghost p: Path, ghost depth: nat)
    returns (r: Result<map<string, Manifest>>)
    requires InPlans(tree, dir, name, base, fm, loads, p, depth) && Entry(fm, p, d)
    ensures r.Err? <==> FaultUnder(fm, loads, p)
    ensures r.Ok? ==> Gains(loads, PlansUnder(fm, p), m, r.value)
    decreases depth - |p|, 3
  {
    if !d.dir {
      NoPlansInFile(fm, loads, p);
      GainsNothing(loads, m);
      return Ok(m);
    }
    var children := ReadDir(tree, dir, name, base, fm, p);
    var own := VisitPlan(tree, dir, name, m, base, fm, loads, p, depth);
    if own.Err? {
      assert p <= p && PlanFault(fm, loads, p);
      return Err;
    }
    r := WalkEntries(tree, dir, name, children, own.value, base, fm, loads, p, depth);
    if r.Ok? {
      FaultPlaces(fm, loads, p, children);
      PlansDoneAll(fm, p, children);
      GainsBoth(loads, OwnPlan(fm, p), PlansDone(fm, p, children, |children|), m, own.value, r.value);
    }
  }

  /** The loop of fs.WalkDir over the entries of a directory. */
  method WalkEntries(tree: Tree, dir: string, name: string, children: seq<TarFile>, m: map<string, Manifest>,
                     ghost base: Path, ghost fm: FileMap, ghost loads: Loads, ghost p: Path, ghost depth: nat)
    returns (r: Result<map<string, Manifest>>)
    requires InPlans(tree, dir, name, base, fm, loads, p, depth) && Listing(children, fm, p)
    ensures r.Err? ==> FaultUnder(fm, loads, p)
    ensures r.Ok? ==> NoFaults(fm, loads, p, children, |children|)
    ensures r.Ok? ==> Gains(loads, PlansDone(fm, p, children, |children|), m, r.value)
    decreases depth - |p|, 2
  {
    GainsNothing(loads, m);
    NoPlansDone(fm, p, children);
    var m' := m;
    for i := 0 to |children|
      invariant Gains(loads, PlansDone(fm, p, children, i), m, m') && NoFaults(fm, loads, p, children, i)
    {
      var child := children[i];
      ghost var c := p + [BaseName(child)];
      ChildPath(fm, p, child, depth);
      r := WalkPlans(tree, dir, JoinTwo(name, BaseName(child)), child, m', base, fm, loads, c, depth);
      FaultBelow(fm, loads, p, children, i);
      if r.Err? { return; }
      PlansDoneNext(fm, p, children, i);
      GainsBoth(loads, PlansDone(fm, p, children, i), PlansUnder(fm, c), m, m', r.value);
      m' := r.value;
    }
    return Ok(m');
  }

  /** gatherPlansFS. */
  method GatherPlans(tree: Tree, dir: string, ghost base: Path, ghost fm: FileMap, ghost loads: Loads, ghost depth: nat)
    returns (r: Result<map<string, Manifest>>)
    requires Shows(tree, dir, base, fm) && TopFile(fm) && loads == SubLoads(fm) && Bounded(fm, depth) && depth > 0
    ensures r.Err? <==> FaultUnder(fm, loads, [PLANS])
    ensures r.Ok? ==> Gains(loads, PlansUnder(fm, [PLANS]), map[], r.value)
    decreases depth - 1, 4
  {
    PlansPart();
    var info := Stat(tree, dir, PLANS, base, fm, [PLANS]);
    if info == null {
      NoPlans(fm, loads);
      GainsNothing(loads, map[]);
      return Ok(map[]);
    }
    r := WalkPlans(tree, dir, PLANS, info, map[], base, fm, loads, [PLANS], depth);
  }

  lemma AllPlansUnder(fm: FileMap, loads: Loads)
    requires Proper(fm)
    ensures PlansUnder(fm, [PLANS]) == PlanDirs(fm)
    ensures FaultUnder(fm, loads, [PLANS]) ==> exists d :: PlanFault(fm, loads, d)
    ensures (exists d :: PlanFault(fm, loads, d)) ==> FaultUnder(fm, loads, [PLANS])
  {
    forall d ensures d in PlanDirs(fm) ==> [PLANS] <= d { PlanDirAt(fm, d); }
    if exists d :: PlanFault(fm, loads, d) {
      var d :| PlanFault(fm, loads, d);
      assert [PLANS] <= d && PlanFault(fm, loads, d);
    }
  }

  /** Without a directory "plans" there are no plans. */
  lemma NoPlans(fm: FileMap, loads: Loads)
    requires Proper(fm) && !IsDir(fm, [PLANS])
    ensures PlansUnder(fm, [PLANS]) == {} && !FaultUnder(fm, loads, [PLANS])
  {
    forall d | [PLANS] <= d ensures !HasScript(fm, d) {
      if HasScript(fm, d) { var _ := ScriptBelow(fm, [PLANS], d); }
    }
    forall d ensures d !in PlansUnder(fm, [PLANS]) { PlanDirAt(fm, d); }
  }

  /** The loop over allDirs in loadFS. */
  method KindsAreDirs(tree: Tree, dir: string, ghost base: Path, ghost fm: FileMap) returns (ok: bool)
    requires Shows(tree, dir, base, fm)
    ensures ok <==> !FileInPlace(fm)
  {
    KindParts();
    for i := 0 to |KINDS|
      invariant forall j :: 0 <= j < i ==> [KINDS[j]] !in fm
    {
      var info := Stat(tree, dir, KINDS[i], base, fm, [KINDS[i]]);
      if info != null && !info.dir { return false; }
    }
    return true;
  }

  /** One of the four blocks of gatherFilesFS. */
  method GatherKind(tree: Tree, dir: string, kind: string, ghost base: Path, ghost fm: FileMap, ghost depth: nat)
    returns (m: Contents)
    requires Shows(tree, dir, base, fm) && Part(kind) && Bounded(fm, depth)
    ensures m == Gathered(fm, kind)
  {
    var info := Stat(tree, dir, kind, base, fm, [kind]);
    if info != null {
      m := WalkFiles(tree, dir, kind, info, map[], base, fm, [kind], depth);
    } else {
      m := map[];
      NothingGathered(fm, kind);
    }
  }

  lemma NothingGathered(fm: FileMap, kind: string)
    requires [kind] !in fm && !IsDir(fm, [kind])
    ensures Gathered(fm, kind) == map[]
  {
    forall q | q in fm && [kind] <= q ensures q == [kind] || Above([kind], q) {}
    assert Keys(Under(fm, [kind])) == {};
  }

  lemma LoadErr(fm: FileMap, main: string)
    requires Proper(fm)
    requires [main] !in fm || FileInPlace(fm) || (TopFile(fm) && FaultUnder(fm, SubLoads(fm), [PLANS]))
    ensures Load(fm, main) == Err
  {
    if TopFile(fm) { AllPlansUnder(fm, SubLoads(fm)); }
  }

  lemma LoadOk(fm: FileMap, main: string, m: Manifest)
    requires Proper(fm) && TopFile(fm) && [main] in fm && !FileInPlace(fm) && !FaultUnder(fm, SubLoads(fm), [PLANS])
    requires Gains(SubLoads(fm), PlansUnder(fm, [PLANS]), map[], m.plans)
    requires m.main == main && m.mainScript == fm[[main]]
    requires m.files == Gathered(fm, "files") && m.templates == Gathered(fm, "templates")
    requires m.vars == Gathered(fm, "vars") && m.secrets == Gathered(fm, "secrets")
    ensures Load(fm, main) == Ok(m)
  {
    AllPlansUnder(fm, SubLoads(fm));
    NonePlus(PlanMap(SubLoads(fm), PlanDirs(fm)));
  }

  lemma KindParts()
    ensures forall i :: 0 <= i < |KINDS| ==> Part(KINDS[i])
    ensures KINDS == ["files", "templates", "vars", "secrets", PLANS]
    ensures Part("files") && Part("templates") && Part("vars") && Part("secrets")
  {
    assert Part(KINDS[0]) && Part(KINDS[1]) && Part(KINDS[2]) && Part(KINDS[3]) && Part(KINDS[4]);
  }

  lemma PlansPart()
    ensures Parts([PLANS]) && Join([PLANS]) == PLANS
  {
    assert Part(PLANS);
  }

  /** loadFS. Reading a main path that is a directory dereferences a nil reader. */
  method LoadFS(tree: Tree, dir: string, main: string, ghost base: Path, ghost fm: FileMap, ghost depth: nat)
    returns (r: Result<Manifest>, panics: bool)
    requires Shows(tree, dir, base, fm) && Part(main) && Bounded(fm, depth)
    ensures panics <==> IsDir(fm, [main])
    ensures !panics ==> r == Load(fm, main)
    decreases depth, 0
  {
    KindParts();
    var info := Stat(tree, dir, main, base, fm, [main]);
    if info == null {
      LoadErr(fm, main);
      return Err, false;
    }
    if info.dir { return Err, true; }
    var b := info.contents;
    var ok := KindsAreDirs(tree, dir, base, fm);
    if !ok {
      LoadErr(fm, main);
      return Err, false;
    }
    TopMain(fm, main);
    var plans := GatherPlans(tree, dir, base, fm, SubLoads(fm), depth);
    if plans.Err? {
      LoadErr(fm, main);
      return Err, false;
    }
    var files := GatherKind(tree, dir, "files", base, fm, depth);
    var vars := GatherKind(tree, dir, "vars", base, fm, depth);
    var templates := GatherKind(tree, dir, "templates", base, fm, depth);
    var secrets := GatherKind(tree, dir, "secrets", base, fm, depth);
    var m := Manifest(main, b, plans.value, files, templates, vars, secrets);
    LoadOk(fm, main, m);
    return Ok(m), false;
  }

  lemma TopMain(fm: FileMap, main: string)
    requires [main] in fm
    ensures TopFile(fm)
  {
    assert |[main]| == 1;
  }

  // ---- What is loaded, without the walks -------------------------------------------------------

  /** A file of a kind is kept under its path without the first component. */
  ghost predicate Keeps(fm: FileMap, kind: string, c: Contents) {
    && (forall p :: p in fm && p != [] && p[0] == kind ==> KeptAs(fm, p, c))
    && (forall k {:trigger KeyOfSome(fm, kind, k)} :: k in c ==> KeyOfSome(fm, kind, k))
  }

  ghost predicate KeptAs(fm: FileMap, p: Path, c: Contents)
    requires p in fm && p != []
  {
    Join(p[1..]) in c && c[Join(p[1..])] == fm[p]
  }

  ghost predicate KeyOfSome(fm: FileMap, kind: string, k: string) {
    exists p :: p in fm && p != [] && p[0] == kind && k == Join(p[1..])
  }

  /** A directory below "plans" with a plan script is kept as what it loads as. */
  ghost predicate KeepsPlans(fm: FileMap, plans: map<string, Manifest>)
    requires Proper(fm)
  {
    && (forall d {:trigger d + ["plan.sh"]} :: d != [] && d[0] == "plans" && d + ["plan.sh"] in fm ==> PlanKept(fm, d, plans))
    && (forall k {:trigger PlanOfSome(fm, k)} :: k in plans ==> PlanOfSome(fm, k))
  }

  ghost predicate PlanKept(fm: FileMap, d: Path, plans: map<string, Manifest>)
    requires d != [] && Proper(fm)
  {
    Join(d[1..]) in plans && Proper(Sub(fm, d)) && Load(Sub(fm, d), "plan.sh") == Ok(plans[Join(d[1..])])
  }

  ghost predicate PlanOfSome(fm: FileMap, k: string) {
    exists d: Path :: d != [] && d[0] == "plans" && d + ["plan.sh"] in fm && k == Join(d[1..])
  }

  /** A directory below "plans" spoils the whole: its script is a directory, or it does not load. */
  ghost predicate Spoils(fm: FileMap, d: Path)
    requires Proper(fm)
  {
    d != [] && d[0] == "plans" &&
      (IsDir(fm, d + ["plan.sh"]) || (d + ["plan.sh"] in fm && Proper(Sub(fm, d)) && Load(Sub(fm, d), "plan.sh").Err?))
  }

  /** Loading fails exactly when the main script is not there, a file has the name of one of the five
      directories, or some directory below "plans" spoils it. */
  lemma LoadErrExactly(fm: FileMap, main: string)
    requires Proper(fm)
    ensures Load(fm, main).Err? <==>
              || [main] !in fm || ["files"] in fm || ["templates"] in fm || ["vars"] in fm || ["secrets"] in fm || ["plans"] in fm
              || exists d :: Spoils(fm, d)
  {
    KindParts();
    PlaceTaken(fm);
    if [main] in fm {
      TopMain(fm, main);
      forall d ensures Spoils(fm, d) <==> PlanFault(fm, SubLoads(fm), d) { if d != [] { SubLoadsAt(fm, d); } }
    }
  }

  lemma PlaceTaken(fm: FileMap)
    ensures FileInPlace(fm) <==> ["files"] in fm || ["templates"] in fm || ["vars"] in fm || ["secrets"] in fm || ["plans"] in fm
  {
    assert KINDS[0] == "files" && KINDS[1] == "templates" && KINDS[2] == "vars" && KINDS[3] == "secrets" && KINDS[4] == "plans";
  }

  lemma GatheredKeeps(fm: FileMap, kind: string)
    requires Proper(fm)
    ensures Keeps(fm, kind, Gathered(fm, kind))
  {
    var c := Gathered(fm, kind);
    forall p | p in fm && p != [] && p[0] == kind ensures KeptAs(fm, p, c) {
      assert p in Under(fm, [kind]);
      assert forall i :: 0 <= i < |p[1..]| ==> Part(p[1..][i]) by { assert Parts(p); }
      KeyPathJoin(p[1..]);
      assert [kind] + p[1..] == p;
    }
    forall k | k in c ensures KeyOfSome(fm, kind, k) {
      var p :| p in Under(fm, [kind]) && p != [] && k == Join(p[1..]);
      assert p[0] == kind;
    }
  }

  /** What is loaded: the script, and every file and every plan under its key, and nothing else. */
  lemma LoadExactly(fm: FileMap, main: string)
    requires Proper(fm) && Load(fm, main).Ok?
    ensures var m := Load(fm, main).value;
            && m.main == main && [main] in fm && m.mainScript == fm[[main]]
            && Keeps(fm, "files", m.files) && Keeps(fm, "templates", m.templates)
            && Keeps(fm, "vars", m.vars) && Keeps(fm, "secrets", m.secrets)
            && KeepsPlans(fm, m.plans)
  {
    TopMain(fm, main);
    GatheredKeeps(fm, "files");
    GatheredKeeps(fm, "templates");
    GatheredKeeps(fm, "vars");
    GatheredKeeps(fm, "secrets");
    PlansKept(fm);
  }

  lemma PlansKept(fm: FileMap)
    requires Proper(fm) && TopFile(fm) && !exists d :: PlanFault(fm, SubLoads(fm), d)
    ensures Loadable(SubLoads(fm), PlanDirs(fm)) && KeepsPlans(fm, PlanMap(SubLoads(fm), PlanDirs(fm)))
  {
    FaultlessLoad(fm, SubLoads(fm));
    var plans := PlanMap(SubLoads(fm), PlanDirs(fm));
    forall d: Path | d != [] && d[0] == "plans" && d + ["plan.sh"] in fm ensures PlanKept(fm, d, plans) {
      PlanDirAt(fm, d);
      DirKept(fm, d);
    }
    forall k | k in plans ensures PlanOfSome(fm, k) { KeyHasPlan(fm, k); }
  }

  lemma DirKept(fm: FileMap, d: Path)
    requires Proper(fm) && TopFile(fm) && Loadable(SubLoads(fm), PlanDirs(fm)) && d in PlanDirs(fm)
    ensures d != [] && PlanKept(fm, d, PlanMap(SubLoads(fm), PlanDirs(fm)))
  {
    var ds, k := PlanDirs(fm), Join(d[1..]);
    assert k in Keys(ds);
    TailKey(d);
    SubLoadsAt(fm, d);
    assert PlanMap(SubLoads(fm), ds)[k] == SubLoads(fm)(d).value;
  }

  lemma TailKey(d: Path)
    requires d != [] && d[0] == PLANS && Parts(d)
    ensures [PLANS] + KeyPath(Join(d[1..])) == d
  {
    KeyPathJoin(d[1..]);
    assert [PLANS] + d[1..] == d;
  }

  lemma KeyHasPlan(fm: FileMap, k: string)
    requires k in Keys(PlanDirs(fm))
    ensures PlanOfSome(fm, k)
  {
    var d :| d in PlanDirs(fm) && d != [] && k == Join(d[1..]);
    PlanDirAt(fm, d);
  }
}
