/** Rebuilding a manifest from a file tree (manifest/manifest.go). */
module Manifests {
  import opened Base
  import opened Paths
  import opened TarFS

  type Contents = map<string, Bytes>

  /** A nil map and an empty one are the same here. */
  datatype Manifest = Manifest(
    main: string,
    mainScript: Bytes,
    plans: map<string, Manifest>,
    files: Contents,
    templates: Contents,
    vars: Contents,
    secrets: Contents)

  const PLAN := "plan.sh"
  const PLANS := "plans"

  /** allDirs. */
  const KINDS := ["files", "templates", "vars", "secrets", PLANS]

  // ---- The view of a directory (fs.Sub) --------------------------------------------------------

  /** The paths below a directory, relative to it. */
  ghost function Relative(fm: FileMap, d: Path): set<Path> {
    set p | p in fm && Above(d, p) :: p[|d|..]
  }

  ghost function At(fm: FileMap, p: Path): Bytes {
    if p in fm then fm[p] else []
  }

  /** The map seen from one of its directories. */
  ghost function Sub(fm: FileMap, d: Path): FileMap {
    map r | r in Relative(fm, d) :: At(fm, d + r)
  }

  lemma SubAt(fm: FileMap, d: Path, r: Path)
    ensures r in Sub(fm, d) <==> r != [] && d + r in fm
    ensures r in Sub(fm, d) ==> Sub(fm, d)[r] == fm[d + r]
  {
    if r != [] && d + r in fm {
      assert Above(d, d + r) && (d + r)[|d|..] == r;
    }
    if r in Sub(fm, d) {
      var p :| p in fm && Above(d, p) && r == p[|d|..];
      assert d + r == p;
    }
  }

  lemma SubDir(fm: FileMap, d: Path, r: Path)
    ensures IsDir(Sub(fm, d), r) <==> IsDir(fm, d + r)
  {
    if IsDir(Sub(fm, d), r) {
      var q :| q in Sub(fm, d) && Above(r, q);
      SubAt(fm, d, q);
      assert Above(d + r, d + q);
    }
    if IsDir(fm, d + r) {
      var p :| p in fm && Above(d + r, p);
      assert p == d + p[|d|..];
      SubAt(fm, d, p[|d|..]);
      assert Above(r, p[|d|..]);
    }
  }

  lemma SubProper(fm: FileMap, d: Path)
    requires Proper(fm)
    ensures Proper(Sub(fm, d))
  {
    forall r | r in Sub(fm, d) ensures r != [] && Parts(r) && !IsDir(Sub(fm, d), r) {
      SubAt(fm, d, r);
      SubDir(fm, d, r);
      assert forall i :: 0 <= i < |r| ==> r[i] == (d + r)[|d| + i];
    }
  }

  lemma SubSub(fm: FileMap, a: Path, b: Path)
    ensures Sub(Sub(fm, a), b) == Sub(fm, a + b)
  {
    forall r ensures r in Sub(Sub(fm, a), b) <==> r in Sub(fm, a + b)
      ensures r in Sub(fm, a + b) ==> r in Sub(Sub(fm, a), b) && Sub(fm, a + b)[r] == Sub(Sub(fm, a), b)[r] {
      SubAt(Sub(fm, a), b, r);
      SubAt(fm, a, b + r);
      SubAt(fm, a + b, r);
      assert a + b + r == a + (b + r);
    }
  }

  lemma SubAll(fm: FileMap)
    requires Proper(fm)
    ensures Sub(fm, []) == fm
  {
    forall r ensures r in Sub(fm, []) <==> r in fm
      ensures r in fm ==> r in Sub(fm, []) && Sub(fm, [])[r] == fm[r] {
      SubAt(fm, [], r);
      assert [] + r == r;
    }
  }

  /** Some file stands at the top. */
  ghost predicate TopFile(fm: FileMap) {
    exists x :: x in fm && |x| == 1
  }

  lemma {:induction false} ImageSize(s: set<Path>, n: nat)
    ensures |set p | p in s :: Dropped(p, n)| <= |s|
  {
    var image := set p | p in s :: Dropped(p, n);
    if s != {} {
      var x :| x in s;
      ImageSize(s - {x}, n);
      var less := set p | p in s - {x} :: Dropped(p, n);
      assert image <= less + {Dropped(x, n)};
      SubsetSize(image, less + {Dropped(x, n)});
    }
  }

  function Dropped(p: Path, n: nat): Path {
    if n <= |p| then p[n..] else []
  }

  lemma {:induction false} SubsetSize<T>(a: set<T>, b: set<T>)
    requires a <= b
    ensures |a| <= |b|
  {
    if a != {} {
      var x :| x in a;
      SubsetSize(a - {x}, b - {x});
    }
  }

  lemma SubSmaller(fm: FileMap, d: Path)
    requires TopFile(fm) && d != []
    ensures |Sub(fm, d)| < |fm|
  {
    var x :| x in fm && |x| == 1;
    var s := set p | p in fm && Above(d, p);
    assert s <= fm.Keys - {x};
    SubsetSize(s, fm.Keys - {x});
    ImageSize(s, |d|);
    var image := set p | p in s :: Dropped(p, |d|);
    forall r | r in Relative(fm, d) ensures r in image {
      var p :| p in fm && Above(d, p) && r == p[|d|..];
      assert p in s && Dropped(p, |d|) == r;
    }
    SubsetSize(Relative(fm, d), image);
    assert Sub(fm, d).Keys == Relative(fm, d);
    assert |Sub(fm, d)| == |Sub(fm, d).Keys| && |fm| == |fm.Keys|;
  }

  // ---- Keys of the manifest's maps -------------------------------------------------------------

  /** The path a key stands for. */
  ghost function KeyPath(key: string): Path {
    if key == "" then [] else SplitSlash(key)
  }

  lemma KeyPathJoin(p: Path)
    requires Parts(p)
    ensures KeyPath(Join(p)) == p
  {
    if p != [] {
      JoinNotAbs(p);
      PartsSlash(p);
      SplitJoin(p);
    }
  }

  /** The keys under which a set of paths is gathered: the first component is cut off. */
  ghost function Keys(s: set<Path>): set<string> {
    set p | p in s && p != [] :: Join(p[1..])
  }

  ghost function Under(fm: FileMap, p: Path): set<Path> {
    set q | q in fm && p <= q
  }

  ghost function Keyed(fm: FileMap, kind: string, s: set<Path>): Contents {
    map k | k in Keys(s) :: At(fm, [kind] + KeyPath(k))
  }

  /** What gathering the files of a kind promises. */
  ghost function Gathered(fm: FileMap, kind: string): Contents {
    Keyed(fm, kind, Under(fm, [kind]))
  }

  lemma KeyedUnion(fm: FileMap, kind: string, s: set<Path>, t: set<Path>)
    ensures Keyed(fm, kind, s + t) == Keyed(fm, kind, s) + Keyed(fm, kind, t)
  {
    assert Keys(s + t) == Keys(s) + Keys(t);
  }

  lemma KeyedOne(fm: FileMap, kind: string, p: Path)
    requires p in fm && Parts(p) && p != [] && p[0] == kind
    ensures Keyed(fm, kind, {p}) == map[Join(p[1..]) := fm[p]]
  {
    KeyPathJoin(p[1..]);
    assert [kind] + p[1..] == p;
    assert Keys({p}) == {Join(p[1..])} by { assert p in {p}; }
  }

  // ---- What loading promises -------------------------------------------------------------------

  /** What loading each directory as a plan gives. */
  type Loads = Path -> Result<Manifest>

  /** A directory below "plans" whose plan script is itself a directory, or does not load. */
  ghost predicate PlanFault(fm: FileMap, loads: Loads, d: Path) {
    && d != [] && d[0] == PLANS
    && (IsDir(fm, d + [PLAN]) || (d + [PLAN] in fm && loads(d).Err?))
  }

  /** The directories below "plans" that hold a plan script. */
  ghost function PlanDirs(fm: FileMap): set<Path> {
    set q | q in fm && |q| > 1 && q[0] == PLANS && q[|q| - 1] == PLAN :: q[..|q| - 1]
  }

  lemma PlanDirAt(fm: FileMap, d: Path)
    ensures d in PlanDirs(fm) <==> d != [] && d[0] == PLANS && d + [PLAN] in fm
  {
    if d != [] && d[0] == PLANS && d + [PLAN] in fm {
      var q := d + [PLAN];
      assert q[..|q| - 1] == d;
    }
    if d in PlanDirs(fm) {
      var q :| q in fm && |q| > 1 && q[0] == PLANS && q[|q| - 1] == PLAN && d == q[..|q| - 1];
      assert d + [PLAN] == q;
    }
  }

  ghost predicate Loadable(loads: Loads, ds: set<Path>) {
    forall d :: d in ds ==> d != [] && d[0] == PLANS && Parts(d) && loads(d).Ok?
  }

  /** Plan directories without faults load. */
  lemma FaultlessLoad(fm: FileMap, loads: Loads)
    requires Proper(fm) && !exists d :: PlanFault(fm, loads, d)
    ensures Loadable(loads, PlanDirs(fm))
  {
    forall d | d in PlanDirs(fm) ensures d != [] && d[0] == PLANS && Parts(d) && loads(d).Ok? {
      PlanDirAt(fm, d);
      assert d == (d + [PLAN])[..|d|];
      assert !PlanFault(fm, loads, d);
    }
  }

  /** The plans by key. */
  ghost function PlanMap(loads: Loads, ds: set<Path>): map<string, Manifest>
    requires Loadable(loads, ds)
  {
    map k | k in Keys(ds) :: (KeyedPlan(ds, k); loads([PLANS] + KeyPath(k)).value)
  }

  lemma KeyedPlan(ds: set<Path>, k: string)
    requires k in Keys(ds) && forall d :: d in ds ==> d != [] && d[0] == PLANS && Parts(d)
    ensures [PLANS] + KeyPath(k) in ds
  {
    var d :| d in ds && k == Join(d[1..]);
    KeyPathJoin(d[1..]);
    assert [PLANS] + d[1..] == d;
  }

  lemma PlanMapUnion(loads: Loads, s: set<Path>, t: set<Path>)
    requires Loadable(loads, s) && Loadable(loads, t)
    ensures Loadable(loads, s + t) && PlanMap(loads, s + t) == PlanMap(loads, s) + PlanMap(loads, t)
  {
    assert Keys(s + t) == Keys(s) + Keys(t);
  }

  lemma PlanMapOne(loads: Loads, p: Path)
    requires Loadable(loads, {p})
    ensures p != [] && PlanMap(loads, {p}) == map[Join(p[1..]) := loads(p).value]
  {
    assert p in {p};
    KeyPathJoin(p[1..]);
    assert [PLANS] + p[1..] == p;
    assert Keys({p}) == {Join(p[1..])};
  }

  /** A file stands where a directory of loadFS should. */
  ghost predicate FileInPlace(fm: FileMap) {
    exists i :: 0 <= i < |KINDS| && [KINDS[i]] in fm
  }

  ghost function LoadWith(fm: FileMap, main: string, loads: Loads): Result<Manifest>
    requires Proper(fm)
  {
    if [main] !in fm || FileInPlace(fm) || exists d :: PlanFault(fm, loads, d) then Err
    else
      FaultlessLoad(fm, loads);
      Ok(Manifest(main, fm[[main]], PlanMap(loads, PlanDirs(fm)),
                  Gathered(fm, "files"), Gathered(fm, "templates"), Gathered(fm, "vars"), Gathered(fm, "secrets")))
  }

  /** loadFS, as a function of the files. */
  ghost function Load(fm: FileMap, main: string): Result<Manifest>
    requires Proper(fm)
    decreases |fm|, 1
  {
    if TopFile(fm) then LoadWith(fm, main, SubLoads(fm)) else Err
  }

  ghost function SubLoads(fm: FileMap): Loads
    requires Proper(fm) && TopFile(fm)
    decreases |fm|, 0
  {
    d => if d == [] then Err else (SubSmaller(fm, d); SubProper(fm, d); Load(Sub(fm, d), PLAN))
  }

  lemma SubLoadsAt(fm: FileMap, d: Path)
    requires Proper(fm) && TopFile(fm) && d != []
    ensures Proper(Sub(fm, d)) && SubLoads(fm)(d) == Load(Sub(fm, d), PLAN)
  {
    SubProper(fm, d);
  }
}
