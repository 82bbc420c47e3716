/** What the files of an archive say about the manifest it was written from. */
module Packing {
  import opened Base
  import opened Paths
  import opened TarFS
  import opened Manifests
  import opened Archives
  import Loader

  // ---- The data files of a manifest ------------------------------------------------------------

  predicate DataKind(kind: string) {
    kind == "files" || kind == "templates" || kind == "vars" || kind == "secrets"
  }

  function Data(m: Manifest, kind: string): Contents {
    if kind == "files" then m.files
    else if kind == "templates" then m.templates
    else if kind == "vars" then m.vars
    else m.secrets
  }

  lemma KindsDiffer()
    ensures !DataKind(PLANS) && !DataKind(PLAN) && !DataKind(MAIN) && PLANS != PLAN && PLANS != MAIN
    ensures forall i :: 0 <= i < |KINDS| ==> DataKind(KINDS[i]) || KINDS[i] == PLANS
  {
  }

  lemma DataKinds(m: Manifest)
    ensures DataKind("files") && DataKind("templates") && DataKind("vars") && DataKind("secrets")
    ensures Data(m, "files") == m.files && Data(m, "templates") == m.templates
    ensures Data(m, "vars") == m.vars && Data(m, "secrets") == m.secrets
  {
  }

  function Strips(c: Contents): Contents {
    map k | k in c :: StripBOM(c[k])
  }

  /** The manifest without leading byte-order marks. */
  function Stripped(m: Manifest): Manifest
    decreases m
  {
    Manifest(m.main, StripBOM(m.mainScript), map k | k in m.plans :: Stripped(m.plans[k]),
             Strips(m.files), Strips(m.templates), Strips(m.vars), Strips(m.secrets))
  }

  /** A key that is a clean relative path. */
  predicate CleanKey(k: string) {
    k != "" && Parts(SplitSlash(k)) && '\\' !in k
  }

  /** Clean keys, none a directory of another. */
  ghost predicate CleanKeys(c: Contents) {
    && (forall k :: k in c ==> CleanKey(k))
    && (forall j, k :: j in c && k in c && SplitSlash(j) <= SplitSlash(k) ==> j == k)
  }

  ghost predicate CleanData(m: Manifest) {
    forall kind :: DataKind(kind) ==> CleanKeys(Data(m, kind))
  }

  /** A manifest with plans one level deep, named by one component each. */
  ghost predicate Archivable(m: Manifest) {
    && m.main == MAIN && CleanData(m)
    && forall k :: k in m.plans ==>
         Part(k) && '\\' !in k && m.plans[k].main == PLAN && m.plans[k].plans == map[] && CleanData(m.plans[k])
  }

  // ---- Files that hold a manifest --------------------------------------------------------------

  /** The file of a key is there. */
  ghost predicate KeyHeld(fm: FileMap, kind: string, c: Contents, k: string)
    requires k in c
  {
    [kind] + SplitSlash(k) in fm && fm[[kind] + SplitSlash(k)] == StripBOM(c[k])
  }

  /** A file has a key. */
  ghost predicate PathHeld(p: Path, c: Contents) {
    |p| > 1 && Join(p[1..]) in c
  }

  ghost predicate HoldsKind(fm: FileMap, kind: string, c: Contents) {
    && (forall k {:trigger KeyHeld(fm, kind, c, k)} :: k in c ==> KeyHeld(fm, kind, c, k))
    && (forall p {:trigger PathHeld(p, c)} :: p in fm && p != [] && p[0] == kind ==> PathHeld(p, c))
  }

  ghost predicate HoldsData(fm: FileMap, m: Manifest) {
    && [m.main] in fm && fm[[m.main]] == StripBOM(m.mainScript)
    && (forall kind {:trigger HoldsKind(fm, kind, Data(m, kind))} :: DataKind(kind) ==> HoldsKind(fm, kind, Data(m, kind)))
    && (forall p :: p in fm ==> p == [m.main] || (p != [] && (DataKind(p[0]) || p[0] == PLANS)))
  }

  /** No path begins with "plans". */
  ghost predicate Flatly(fm: FileMap) {
    forall p :: p in fm && p != [] ==> p[0] != PLANS
  }

  /** The directory of a plan holds its manifest. */
  ghost predicate HoldsPlan(fm: FileMap, k: string, m: Manifest) {
    HoldsData(Sub(fm, [PLANS, k]), m) && Flatly(Sub(fm, [PLANS, k]))
  }

  ghost predicate HoldsPlans(fm: FileMap, m: Manifest) {
    && (forall k {:trigger HoldsPlan(fm, k, m.plans[k])} :: k in m.plans ==> HoldsPlan(fm, k, m.plans[k]))
    && (forall p :: p in fm && p != [] && p[0] == PLANS ==> |p| > 2 && p[1] in m.plans)
  }

  lemma KeysHeld(fm: FileMap, kind: string, c: Contents)
    requires HoldsKind(fm, kind, c)
    ensures Keys(Under(fm, [kind])) == c.Keys
  {
    forall k | k in c ensures k in Keys(Under(fm, [kind])) {
      assert KeyHeld(fm, kind, c, k);
      var p := [kind] + SplitSlash(k);
      assert p in Under(fm, [kind]) && p[1..] == SplitSlash(k);
      JoinSplit(k);
    }
    forall k | k in Keys(Under(fm, [kind])) ensures k in c {
      var q :| q in Under(fm, [kind]) && q != [] && k == Join(q[1..]);
      assert PathHeld(q, c);
    }
  }

  lemma KindGathered(fm: FileMap, kind: string, c: Contents)
    requires HoldsKind(fm, kind, c) && CleanKeys(c)
    ensures Gathered(fm, kind) == Strips(c)
  {
    KeysHeld(fm, kind, c);
    StripsKeys(c);
    forall k | k in c ensures k in Gathered(fm, kind) && Gathered(fm, kind)[k] == Strips(c)[k] { ValueHeld(fm, kind, c, k); }
    SameMap(Gathered(fm, kind), Strips(c));
  }

  lemma StripsKeys(c: Contents)
    ensures Strips(c).Keys == c.Keys && forall k :: k in c ==> Strips(c)[k] == StripBOM(c[k])
  {
  }

  lemma SameMap<K, V>(a: map<K, V>, b: map<K, V>)
    requires a.Keys == b.Keys && forall k :: k in b ==> k in a && a[k] == b[k]
    ensures a == b
  {
  }

  lemma ValueHeld(fm: FileMap, kind: string, c: Contents, k: string)
    requires HoldsKind(fm, kind, c) && CleanKeys(c) && k in c && Keys(Under(fm, [kind])) == c.Keys
    ensures k in Gathered(fm, kind) && Gathered(fm, kind)[k] == StripBOM(c[k])
  {
    assert CleanKey(k) && KeyHeld(fm, kind, c, k);
  }

  lemma GatheredHolds(fm: FileMap, kind: string, m: Manifest)
    requires HoldsData(fm, m) && CleanData(m) && DataKind(kind)
    ensures Gathered(fm, kind) == Strips(Data(m, kind))
  {
    KindGathered(fm, kind, Data(m, kind));
  }

  lemma NothingInPlace(fm: FileMap, m: Manifest)
    requires HoldsData(fm, m) && (Flatly(fm) || HoldsPlans(fm, m))
    ensures !FileInPlace(fm)
  {
    KindsDiffer();
    forall i | 0 <= i < |KINDS| ensures [KINDS[i]] !in fm {
      if DataKind(KINDS[i]) {
        assert HoldsKind(fm, KINDS[i], Data(m, KINDS[i]));
        assert !PathHeld([KINDS[i]], Data(m, KINDS[i]));
      }
    }
  }

  lemma DataGathered(fm: FileMap, m: Manifest)
    requires Proper(fm) && HoldsData(fm, m) && CleanData(m)
    ensures Gathered(fm, "files") == Strips(m.files) && Gathered(fm, "templates") == Strips(m.templates)
    ensures Gathered(fm, "vars") == Strips(m.vars) && Gathered(fm, "secrets") == Strips(m.secrets)
  {
    DataKinds(m);
    GatheredHolds(fm, "files", m);
    GatheredHolds(fm, "templates", m);
    GatheredHolds(fm, "vars", m);
    GatheredHolds(fm, "secrets", m);
  }

  /** A plan without plans of its own loads as what it was, without byte-order marks. */
  lemma LoadLeaf(fm: FileMap, m: Manifest)
    requires Proper(fm) && HoldsData(fm, m) && CleanData(m) && Flatly(fm) && m.plans == map[]
    ensures Load(fm, m.main) == Ok(Stripped(m))
  {
    NothingInPlace(fm, m);
    DataGathered(fm, m);
    NoPlansThere(fm, m.main);
    StrippedParts(m);
    Loader.LoadOk(fm, m.main, Stripped(m));
  }

  lemma NoPlansThere(fm: FileMap, main: string)
    requires Proper(fm) && [main] in fm && Flatly(fm)
    ensures TopFile(fm) && !Loader.FaultUnder(fm, SubLoads(fm), [PLANS])
    ensures Loader.Gains(SubLoads(fm), Loader.PlansUnder(fm, [PLANS]), map[], map[])
  {
    Loader.TopMain(fm, main);
    forall q | q in fm ensures !Above([PLANS], q) {}
    Loader.NoPlans(fm, SubLoads(fm));
    Loader.GainsNothing(SubLoads(fm), map[]);
  }

  ghost function StrippedPlans(m: Manifest): map<string, Manifest> {
    map k | k in m.plans :: Stripped(m.plans[k])
  }

  lemma StrippedParts(m: Manifest)
    ensures Stripped(m).main == m.main && Stripped(m).mainScript == StripBOM(m.mainScript)
    ensures Stripped(m).files == Strips(m.files) && Stripped(m).templates == Strips(m.templates)
    ensures Stripped(m).vars == Strips(m.vars) && Stripped(m).secrets == Strips(m.secrets)
    ensures Stripped(m).plans == StrippedPlans(m)
    ensures m.plans == map[] ==> Stripped(m).plans == map[]
  {
  }

  // ---- Loading ---------------------------------------------------------------------------------

  /** No plan, and no component of a plan's data file, is named like a plan script. */
  ghost predicate NoScripts(m: Manifest) {
    forall k :: k in m.plans ==> k != PLAN && ScriptFree(m.plans[k])
  }

  ghost predicate ScriptFree(m: Manifest) {
    forall kind, key :: DataKind(kind) && key in Data(m, kind) ==> PLAN !in SplitSlash(key)
  }

  lemma DataPath(fm: FileMap, m: Manifest, r: Path)
    requires HoldsData(fm, m) && Flatly(fm) && r in fm && r != [m.main]
    ensures |r| > 1 && DataKind(r[0]) && Join(r[1..]) in Data(m, r[0])
  {
    assert HoldsKind(fm, r[0], Data(m, r[0]));
    assert PathHeld(r, Data(m, r[0]));
  }

  lemma TailInSub(fm: FileMap, q: Path)
    requires q in fm && |q| > 2 && q[0] == PLANS
    ensures q[2..] in Sub(fm, [PLANS, q[1]])
  {
    SubAt(fm, [PLANS, q[1]], q[2..]);
    assert q == [PLANS, q[1]] + q[2..];
  }

  /** A path of a plan: its script, or one of its data files. */
  lemma PlanPath(fm: FileMap, m: Manifest, q: Path)
    requires HoldsPlans(fm, m) && q in fm && [PLANS] <= q
    ensures |q| > 2 && q[1] in m.plans
    ensures q[2..] == [m.plans[q[1]].main] || (|q| > 3 && DataKind(q[2]) && Join(q[3..]) in Data(m.plans[q[1]], q[2]))
  {
    TailInSub(fm, q);
    if q[2..] != [m.plans[q[1]].main] {
      assert HoldsPlan(fm, q[1], m.plans[q[1]]);
      DataPath(Sub(fm, [PLANS, q[1]]), m.plans[q[1]], q[2..]);
      assert q[2..][1..] == q[3..];
    }
  }

  /** A plan's script stands right below it, and nothing else is named like one. */
  lemma ScriptPlaces(fm: FileMap, m: Manifest, q: Path)
    requires Proper(fm) && HoldsPlans(fm, m) && Archivable(m) && NoScripts(m) && q in fm && [PLANS] <= q
    ensures |q| > 2 && q[1] in m.plans && q[1] != PLAN
    ensures |q| == 3 || q[2] != PLAN
    ensures forall i :: 3 <= i < |q| ==> q[i] != PLAN
  {
    KindsDiffer();
    PlanPath(fm, m, q);
    if |q| > 3 {
      assert ScriptFree(m.plans[q[1]]);
      KeyOfPath(q);
      forall i | 3 <= i < |q| ensures q[i] != PLAN { assert q[i] == q[3..][i - 3]; }
    }
  }

  lemma KeyOfPath(q: Path)
    requires Parts(q) && |q| > 3
    ensures SplitSlash(Join(q[3..])) == q[3..]
  {
    PartsSlash(q[3..]);
    SplitJoin(q[3..]);
  }

  lemma ScriptSits(q: Path, d: Path)
    requires d + [PLAN] <= q && [PLANS] <= d && |q| > 2 && q[1] != PLAN && (|q| == 3 || q[2] != PLAN)
    requires forall i :: 3 <= i < |q| ==> q[i] != PLAN
    ensures |d| == 2 && q == d + [PLAN]
  {
    assert q[|d|] == PLAN;
  }

  /** Only the directories of the plans hold a script. */
  lemma OnlyPlanScripts(fm: FileMap, m: Manifest, d: Path)
    requires Proper(fm) && HoldsPlans(fm, m) && Archivable(m) && NoScripts(m) && [PLANS] <= d && Loader.HasScript(fm, d)
    ensures |d| == 2 && d[1] in m.plans && d == [PLANS, d[1]] && d + [PLAN] in fm && !IsDir(fm, d + [PLAN])
  {
    var q :| q in fm && d + [PLAN] <= q;
    ScriptPlaces(fm, m, q);
    ScriptSits(q, d);
    TwoLong(d, PLANS);
  }

  lemma TwoLong(d: Path, a: string)
    requires |d| == 2 && [a] <= d
    ensures d == [a, d[1]]
  {
  }

  lemma PlanLoads(fm: FileMap, m: Manifest, k: string)
    requires Proper(fm) && TopFile(fm) && HoldsPlans(fm, m) && Archivable(m) && k in m.plans
    ensures SubLoads(fm)([PLANS, k]) == Ok(Stripped(m.plans[k]))
  {
    SubLoadsAt(fm, [PLANS, k]);
    assert HoldsPlan(fm, k, m.plans[k]);
    LoadLeaf(Sub(fm, [PLANS, k]), m.plans[k]);
  }

  ghost function PlanPaths(m: Manifest): set<Path> {
    set k | k in m.plans :: [PLANS, k]
  }

  lemma PlanDirsAre(fm: FileMap, m: Manifest)
    requires Proper(fm) && HoldsPlans(fm, m) && Archivable(m) && NoScripts(m)
    ensures Loader.PlansUnder(fm, [PLANS]) == PlanPaths(m)
  {
    forall k | k in m.plans ensures [PLANS, k] in PlanDirs(fm) {
      ScriptThere(fm, m, k);
      PlanDirAt(fm, [PLANS, k]);
    }
    forall d | d in Loader.PlansUnder(fm, [PLANS]) ensures d in PlanPaths(m) {
      PlanDirAt(fm, d);
      OnlyPlanScripts(fm, m, d);
    }
  }

  lemma ScriptThere(fm: FileMap, m: Manifest, k: string)
    requires HoldsPlans(fm, m) && k in m.plans
    ensures [PLANS, k] + [m.plans[k].main] in fm
  {
    assert HoldsPlan(fm, k, m.plans[k]);
    SubAt(fm, [PLANS, k], [m.plans[k].main]);
  }

  lemma NoFaultsThere(fm: FileMap, m: Manifest)
    requires Proper(fm) && TopFile(fm) && HoldsPlans(fm, m) && Archivable(m) && NoScripts(m)
    ensures !Loader.FaultUnder(fm, SubLoads(fm), [PLANS])
  {
    forall d | [PLANS] <= d ensures !PlanFault(fm, SubLoads(fm), d) {
      if Loader.HasScript(fm, d) {
        OnlyPlanScripts(fm, m, d);
        PlanLoads(fm, m, d[1]);
      }
    }
  }

  lemma PlainKeyPath(k: string)
    requires Part(k)
    ensures KeyPath(k) == [k]
  {
    SplitFirst(k, "");
  }

  /** Each plan loads as what it was, without byte-order marks. */
  ghost predicate PlansLoadAs(loads: Loads, m: Manifest) {
    forall k :: k in m.plans ==> Part(k) && loads([PLANS, k]) == Ok(Stripped(m.plans[k]))
  }

  lemma PathsLoadable(loads: Loads, m: Manifest)
    requires PlansLoadAs(loads, m)
    ensures Loadable(loads, PlanPaths(m))
  {
    Loader.PlansPart();
    assert Part([PLANS][0]);
    forall d | d in PlanPaths(m) ensures d != [] && d[0] == PLANS && Parts(d) && loads(d).Ok? {
      var k :| k in m.plans && d == [PLANS, k];
    }
  }

  lemma PlanAgrees(loads: Loads, m: Manifest, k: string)
    requires PlansLoadAs(loads, m) && k in m.plans
    ensures loads([PLANS] + KeyPath(k)) == Ok(Stripped(m.plans[k]))
  {
    PlainKeyPath(k);
    assert [PLANS] + [k] == [PLANS, k];
  }

  lemma PlansAgree(loads: Loads, m: Manifest)
    requires PlansLoadAs(loads, m)
    ensures Loadable(loads, PlanPaths(m)) && PlanMap(loads, PlanPaths(m)) == StrippedPlans(m)
  {
    PlanKeys(m);
    PathsLoadable(loads, m);
    forall k | k in m.plans
      ensures k in PlanMap(loads, PlanPaths(m)) && PlanMap(loads, PlanPaths(m))[k] == StrippedPlans(m)[k] {
      PlanAgrees(loads, m, k);
    }
    SameMap(PlanMap(loads, PlanPaths(m)), StrippedPlans(m));
  }

  lemma PlansGained(fm: FileMap, m: Manifest)
    requires Proper(fm) && TopFile(fm) && HoldsPlans(fm, m) && Archivable(m)
    ensures Loader.Gains(SubLoads(fm), PlanPaths(m), map[], StrippedPlans(m))
  {
    forall k | k in m.plans ensures SubLoads(fm)([PLANS, k]) == Ok(Stripped(m.plans[k])) { PlanLoads(fm, m, k); }
    assert PlansLoadAs(SubLoads(fm), m);
    PlansAgree(SubLoads(fm), m);
    Loader.NonePlus(PlanMap(SubLoads(fm), PlanPaths(m)));
  }

  lemma PlanKeys(m: Manifest)
    ensures Keys(PlanPaths(m)) == m.plans.Keys
  {
    forall k | k in m.plans ensures k in Keys(PlanPaths(m)) {
      assert [PLANS, k] in PlanPaths(m) && [PLANS, k][1..] == [k] && Join([k]) == k;
    }
    forall k | k in Keys(PlanPaths(m)) ensures k in m.plans {
      var d :| d in PlanPaths(m) && d != [] && k == Join(d[1..]);
      assert d[1..] == [d[1]];
    }
  }

  /** Files that hold a manifest load as that manifest, without byte-order marks. */
  lemma LoadRoot(fm: FileMap, m: Manifest)
    requires Proper(fm) && HoldsData(fm, m) && HoldsPlans(fm, m) && Archivable(m) && NoScripts(m)
    ensures Load(fm, MAIN) == Ok(Stripped(m))
  {
    Loader.TopMain(fm, MAIN);
    NothingInPlace(fm, m);
    DataGathered(fm, m);
    NoFaultsThere(fm, m);
    PlanDirsAre(fm, m);
    PlansGained(fm, m);
    StrippedParts(m);
    Loader.LoadOk(fm, MAIN, Stripped(m));
  }

  // ---- Scripts where they should not be --------------------------------------------------------

  /** A plan whose name is not one component. */
  ghost predicate OddKey(m: Manifest) {
    exists k :: k in m.plans && !Part(k)
  }

  /** With a plan named like a script, or a data file of a plan with such a component, loading fails
      or finds a plan whose name is not one component. */
  lemma ScriptsSpoil(fm: FileMap, m: Manifest)
    requires Proper(fm) && HoldsData(fm, m) && HoldsPlans(fm, m) && Archivable(m) && !NoScripts(m)
    ensures Load(fm, MAIN).Err? || OddKey(Load(fm, MAIN).value)
  {
    Loader.TopMain(fm, MAIN);
    var k :| k in m.plans && (k == PLAN || !ScriptFree(m.plans[k]));
    if k == PLAN {
      NameSpoils(fm, m);
    } else {
      var kind, key :| DataKind(kind) && key in Data(m.plans[k], kind) && PLAN in SplitSlash(key);
      KeySpoils(fm, m, k, kind, key);
    }
  }

  lemma NameSpoils(fm: FileMap, m: Manifest)
    requires Proper(fm) && TopFile(fm) && HoldsPlans(fm, m) && PLAN in m.plans
    ensures Load(fm, MAIN).Err?
  {
    ScriptThere(fm, m, PLAN);
    ScriptDir(fm, PLAN, m.plans[PLAN].main);
    FaultSpoils(fm, [PLANS]);
  }

  lemma KeySpoils(fm: FileMap, m: Manifest, k: string, kind: string, key: string)
    requires Proper(fm) && TopFile(fm) && HoldsPlans(fm, m)
    requires k in m.plans && DataKind(kind) && key in Data(m.plans[k], kind) && PLAN in SplitSlash(key)
    ensures Load(fm, MAIN).Err? || OddKey(Load(fm, MAIN).value)
  {
    var q, i := DataThere(fm, m, k, kind, key);
    DeepScriptSpoils(fm, q, i);
  }

  lemma ScriptDir(fm: FileMap, k: string, main: string)
    requires [PLANS, k] + [main] in fm
    ensures IsDir(fm, [PLANS] + [k])
  {
    assert Above([PLANS] + [k], [PLANS, k] + [main]);
  }

  lemma ComponentAt(k: string, kind: string, cs: Path) returns (q: Path, i: nat)
    requires PLAN in cs
    ensures q == [PLANS, k] + ([kind] + cs) && 3 <= i < |q| && q[0] == PLANS && q[i] == PLAN
  {
    q := [PLANS, k] + ([kind] + cs);
    var j :| 0 <= j < |cs| && cs[j] == PLAN;
    i := 3 + j;
  }

  lemma FaultSpoils(fm: FileMap, d: Path)
    requires Proper(fm) && TopFile(fm) && PlanFault(fm, SubLoads(fm), d)
    ensures Load(fm, MAIN).Err?
  {
  }

  lemma DataThere(fm: FileMap, m: Manifest, k: string, kind: string, key: string) returns (q: Path, i: nat)
    requires HoldsPlans(fm, m) && k in m.plans && DataKind(kind) && key in Data(m.plans[k], kind) && PLAN in SplitSlash(key)
    ensures q in fm && 3 <= i < |q| && q[0] == PLANS && q[i] == PLAN
  {
    assert HoldsPlan(fm, k, m.plans[k]);
    DataIn(Sub(fm, [PLANS, k]), m.plans[k], kind, key);
    SubAt(fm, [PLANS, k], [kind] + SplitSlash(key));
    q, i := ComponentAt(k, kind, SplitSlash(key));
  }

  lemma DataIn(fm: FileMap, m: Manifest, kind: string, key: string)
    requires HoldsData(fm, m) && DataKind(kind) && key in Data(m, kind)
    ensures [kind] + SplitSlash(key) in fm
  {
    assert HoldsKind(fm, kind, Data(m, kind));
    assert KeyHeld(fm, kind, Data(m, kind), key);
  }

  lemma DeepScriptSpoils(fm: FileMap, q: Path, i: nat)
    requires Proper(fm) && TopFile(fm)
    requires q in fm && 3 <= i < |q| && q[0] == PLANS && q[i] == PLAN
    ensures Load(fm, MAIN).Err? || OddKey(Load(fm, MAIN).value)
  {
    var d := q[..i];
    assert q[..i + 1] == d + [PLAN];
    if i < |q| - 1 {
      assert Above(d + [PLAN], q);
      FaultSpoils(fm, d);
    } else if Load(fm, MAIN).Ok? {
      assert q == d + [PLAN];
      PlanDirAt(fm, d);
      DeepKey(fm, d);
      assert Join(d[1..]) in Load(fm, MAIN).value.plans;
    }
  }

  lemma DeepKey(fm: FileMap, d: Path)
    requires Proper(fm) && d in PlanDirs(fm) && |d| > 2
    ensures Join(d[1..]) in Keys(PlanDirs(fm)) && !Part(Join(d[1..]))
    ensures Load(fm, MAIN).Ok? ==> TopFile(fm) && Loadable(SubLoads(fm), PlanDirs(fm)) && Load(fm, MAIN).value.plans == PlanMap(SubLoads(fm), PlanDirs(fm))
  {
    var tail := d[1..];
    JoinAppend([tail[0]], tail[1..]);
    assert tail == [tail[0]] + tail[1..];
    var s := Join([tail[0]]) + "/" + Join(tail[1..]);
    assert s[|Join([tail[0]])|] == '/';
    if TopFile(fm) && Load(fm, MAIN).Ok? { FaultlessLoad(fm, SubLoads(fm)); }
  }
}
