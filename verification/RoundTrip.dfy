/** Loading what was written (manifest/archive.go, manifest/archive_test.go). */
module RoundTrip {
  import opened Base
  import opened Paths
  import opened TarFS
  import opened Manifests
  import opened Archives
  import opened Packing
  import Loader
  import Sorting

  // ---- Unpacking entries one group after another -----------------------------------------------

  ghost predicate Unpacks(entries: seq<TarEntry>, fm: FileMap, fm': FileMap) {
    Fitting(entries, fm) && Unpack(entries, fm) == Ok(fm')
  }

  lemma {:induction false} UnpacksBoth(a: seq<TarEntry>, b: seq<TarEntry>, fm: FileMap, fm': FileMap, fm'': FileMap)
    requires Unpacks(a, fm, fm') && Unpacks(b, fm', fm'')
    ensures Unpacks(a + b, fm, fm'')
  {
    if a == [] {
      assert a + b == b;
    } else {
      assert (a + b)[1..] == a[1..] + b;
      if a[0].kind != Regular {
        UnpacksBoth(a[1..], b, fm, fm', fm'');
      } else {
        var p := SplitSlash(Accepted(a[0].name).value);
        UnpacksBoth(a[1..], b, fm[p := StripBOM(a[0].body)], fm', fm'');
      }
    }
  }

  /** Unpacking keeps the map proper. */
  lemma {:induction false} UnpackProper(entries: seq<TarEntry>, fm: FileMap)
    requires Proper(fm) && Fitting(entries, fm) && Unpack(entries, fm).Ok?
    ensures Proper(Unpack(entries, fm).value)
  {
    if entries == [] {
    } else if entries[0].kind != Regular {
      UnpackProper(entries[1..], fm);
    } else {
      AcceptedIsProper(entries[0].name);
      var p, b := SplitSlash(Accepted(entries[0].name).value), StripBOM(entries[0].body);
      ProperAdd(fm, p, b);
      UnpackProper(entries[1..], fm[p := b]);
    }
  }

  lemma ProperAdd(fm: FileMap, p: Path, b: Bytes)
    requires Proper(fm) && p != [] && Parts(p) && Fits(fm, p)
    ensures Proper(fm[p := b])
  {
    forall q, r | q in fm[p := b] && r in fm[p := b] ensures !Above(q, r) { ProperPair(fm, p, q, r); }
  }

  lemma PrefixTaken(q: Path, p: Path)
    ensures q <= p ==> p[..|q|] == q
  {
  }

  lemma ProperPair(fm: FileMap, p: Path, q: Path, r: Path)
    requires Proper(fm) && Fits(fm, p) && (q in fm || q == p) && (r in fm || r == p)
    ensures !Above(q, r)
  {
    PrefixTaken(q, p);
    assert q in fm ==> q != [] && !IsDir(fm, q);
  }

  // ---- Names that are accepted as they are -----------------------------------------------------

  ghost predicate Plain(p: Path) {
    p != [] && Parts(p) && '\\' !in Join(p) && (p[0] == MAIN || DataKind(p[0]) || p[0] == PLANS)
  }

  lemma {:induction false} SlashedPlain(s: string)
    requires '\\' !in s
    ensures Slashed(s) == s
  {
    if s != "" {
      SlashedPlain(s[1..]);
      assert s == [s[0]] + s[1..];
      assert s[0] in s;
    }
  }

  lemma FirstLetters(c: string)
    requires c == MAIN || DataKind(c) || c == PLANS
    ensures |c| >= 2 && c[0] != '.' && c[1] != ':'
  {
  }

  lemma AcceptedPlain(p: Path)
    requires Plain(p)
    ensures Accepted(Join(p)) == Ok(Join(p)) && SplitSlash(Join(p)) == p
  {
    SlashedPlain(Join(p));
    CleanJoin(p);
    JoinNotAbs(p);
    PartsSlash(p);
    SplitJoin(p);
    FarFromDots(p);
  }

  lemma FarFromDots(p: Path)
    requires Plain(p)
    ensures Join(p) != "." && !HasPrefix(Join(p), "..") && !DrivePath(Join(p))
  {
    JoinStarts(p);
    FirstLetters(p[0]);
    assert Join(p)[0] == p[0][0] && Join(p)[1] == p[0][1];
    assert ".."[0] == '.' && "."[0] == '.';
  }

  lemma UnpackOne(p: Path, b: Bytes, fm: FileMap)
    requires Plain(p) && Fits(fm, p)
    ensures Unpacks([TarEntry(Join(p), Regular, b)], fm, fm[p := StripBOM(b)])
  {
    AcceptedPlain(p);
    var entries := [TarEntry(Join(p), Regular, b)];
    assert entries[1..] == [];
  }

  // ---- A group of data files -------------------------------------------------------------------

  ghost predicate Unrelated(p: Path, q: Path) {
    !(p <= q) && !(q <= p)
  }

  /** Nothing stands at, above or below a path. */
  ghost predicate Clear(fm: FileMap, b: Path) {
    forall p :: p in fm ==> Unrelated(p, b)
  }

  /** Only paths below `b` are new. */
  ghost predicate Grows(fm: FileMap, fm': FileMap, b: Path) {
    && (forall p :: p in fm ==> p in fm' && fm'[p] == fm[p])
    && (forall p :: p in fm' ==> p in fm || b <= p)
  }

  ghost function FilePath(base: Path, key: string): Path {
    base + SplitSlash(key)
  }

  ghost function AddFiles(fm: FileMap, base: Path, c: Contents, keys: seq<string>): FileMap
    requires forall i :: 0 <= i < |keys| ==> keys[i] in c
  {
    if keys == [] then fm
    else
      var n := |keys| - 1;
      AddFiles(fm, base, c, keys[..n])[FilePath(base, keys[n]) := StripBOM(c[keys[n]])]
  }

  lemma FilePathInjective(base: Path, j: string, k: string)
    requires FilePath(base, j) == FilePath(base, k)
    ensures j == k
  {
    assert FilePath(base, j)[|base|..] == SplitSlash(j) && FilePath(base, k)[|base|..] == SplitSlash(k);
    JoinSplit(j);
    JoinSplit(k);
  }

  ghost predicate AddedBy(p: Path, base: Path, keys: seq<string>) {
    exists k :: k in keys && p == FilePath(base, k)
  }

  lemma {:induction false} NewPaths(fm: FileMap, base: Path, c: Contents, keys: seq<string>)
    requires forall i :: 0 <= i < |keys| ==> keys[i] in c
    ensures forall p :: p in AddFiles(fm, base, c, keys) ==> p in fm || AddedBy(p, base, keys)
    ensures forall p :: p in fm && !(base <= p) ==> p in AddFiles(fm, base, c, keys) && AddFiles(fm, base, c, keys)[p] == fm[p]
  {
    if keys != [] {
      var n := |keys| - 1;
      NewPaths(fm, base, c, keys[..n]);
      forall p | p in AddFiles(fm, base, c, keys) && p !in fm ensures AddedBy(p, base, keys) {
        if p == FilePath(base, keys[n]) {
          assert keys[n] in keys;
        } else {
          var k :| k in keys[..n] && p == FilePath(base, k);
          assert k in keys;
        }
      }
    }
  }

  lemma {:induction false} KeyAdded(fm: FileMap, base: Path, c: Contents, keys: seq<string>, k: string)
    requires (forall i :: 0 <= i < |keys| ==> keys[i] in c) && k in keys
    ensures FilePath(base, k) in AddFiles(fm, base, c, keys)
    ensures AddFiles(fm, base, c, keys)[FilePath(base, k)] == StripBOM(c[k])
  {
    var n := |keys| - 1;
    if FilePath(base, k) == FilePath(base, keys[n]) {
      FilePathInjective(base, k, keys[n]);
    } else {
      assert k in keys[..n];
      KeyAdded(fm, base, c, keys[..n], k);
    }
  }

  /** The next file of a group fits. */
  lemma NextFits(fm: FileMap, base: Path, c: Contents, keys: seq<string>, k: string)
    requires Clear(fm, base) && CleanKeys(c) && k in c && k !in keys && forall i :: 0 <= i < |keys| ==> keys[i] in c
    ensures Fits(AddFiles(fm, base, c, keys), FilePath(base, k))
  {
    var fm', p := AddFiles(fm, base, c, keys), FilePath(base, k);
    NewPaths(fm, base, c, keys);
    forall q | q in fm' ensures Unrelated(q, p) {
      if q in fm {
        assert Unrelated(q, base);
        RelatedAbove(q, base, p);
      } else {
        var j :| j in keys && q == FilePath(base, j);
        RelatedKeys(base, j, k);
        RelatedKeys(base, k, j);
      }
    }
    forall i | 0 < i < |p| ensures p[..i] !in fm' { assert p[..i] <= p; }
  }

  lemma RelatedAbove(q: Path, base: Path, p: Path)
    requires base <= p && Unrelated(q, base)
    ensures Unrelated(q, p)
  {
    assert p <= q ==> base <= q;
    PrefixesCompare(q, base, p);
  }

  lemma PrefixesCompare(q: Path, base: Path, p: Path)
    requires base <= p
    ensures q <= p ==> q <= base || base <= q
  {
    if q <= p {
      assert if |q| <= |base| then q == base[..|q|] else base == q[..|base|];
    }
  }

  lemma RelatedKeys(base: Path, j: string, k: string)
    ensures FilePath(base, j) <= FilePath(base, k) ==> SplitSlash(j) <= SplitSlash(k)
  {
    var a, b := SplitSlash(j), SplitSlash(k);
    if base + a <= base + b {
      forall i | 0 <= i < |a| ensures a[i] == b[i] { assert (base + a)[|base| + i] == (base + b)[|base| + i]; }
    }
  }

  /** Writing and unpacking a group of data files. */
  lemma {:induction false} UnpackFiles(fm: FileMap, base: Path, c: Contents, keys: seq<string>)
    requires Clear(fm, base) && CleanKeys(c) && GroupBase(base)
    requires Sorting.DistinctKeys(keys, Self) && forall i :: 0 <= i < |keys| ==> keys[i] in c
    ensures Unpacks(FileEntries(Join(base), c, keys), fm, AddFiles(fm, base, c, keys))
  {
    if keys == [] {
      assert FileEntries(Join(base), c, keys) == [];
    } else {
      var n := |keys| - 1;
      UnpackFiles(fm, base, c, keys[..n]);
      LastIsNew(keys);
      NextFits(fm, base, c, keys[..n], keys[n]);
      PlainFile(base, keys[n]);
      UnpackOne(FilePath(base, keys[n]), c[keys[n]], AddFiles(fm, base, c, keys[..n]));
      TakeAll(keys);
      FileEntriesNext(Join(base), c, keys, n);
      UnpacksBoth(FileEntries(Join(base), c, keys[..n]), [TarEntry(Join(FilePath(base, keys[n])), Regular, c[keys[n]])],
                  fm, AddFiles(fm, base, c, keys[..n]), AddFiles(fm, base, c, keys));
    }
  }

  lemma LastIsNew(keys: seq<string>)
    requires keys != [] && Sorting.DistinctKeys(keys, Self)
    ensures keys[|keys| - 1] !in keys[..|keys| - 1] && Sorting.DistinctKeys(keys[..|keys| - 1], Self)
  {
    forall i | 0 <= i < |keys| - 1 ensures keys[i] != keys[|keys| - 1] { assert Self(keys[i]) != Self(keys[|keys| - 1]); }
  }

  /** A directory that groups of data files are written under. */
  ghost predicate GroupBase(base: Path) {
    base != [] && Parts(base) && '\\' !in Join(base) && (DataKind(base[0]) || base[0] == PLANS)
  }

  lemma PlainFile(base: Path, k: string)
    requires GroupBase(base) && CleanKey(k)
    ensures Plain(FilePath(base, k)) && JoinTwo(Join(base), k) == Join(FilePath(base, k))
  {
    JoinSplit(k);
    Loader.FullPath(base, SplitSlash(k));
    JoinAppend(base, SplitSlash(k));
    assert '\\' !in "/";
  }

  // ---- The data of one manifest ----------------------------------------------------------------

  ghost function AddKind(fm: FileMap, prefix: Path, kind: string, c: Contents): FileMap {
    AddFiles(fm, prefix + [kind], c, SortedKeys(c.Keys))
  }

  ghost predicate HasKey(p: Path, base: Path, c: Contents) {
    exists k :: k in c && p == FilePath(base, k)
  }

  ghost predicate KindAt(fm: FileMap, base: Path, c: Contents) {
    && (forall k {:trigger FilePath(base, k)} :: k in c ==> FilePath(base, k) in fm && fm[FilePath(base, k)] == StripBOM(c[k]))
    && (forall p {:trigger HasKey(p, base, c)} :: p in fm && base <= p ==> HasKey(p, base, c))
  }

  /** Where a manifest is written: at the top, or below "plans". */
  ghost predicate Prefix(prefix: Path) {
    Parts(prefix) && '\\' !in Join(prefix) && (prefix == [] || prefix[0] == PLANS)
  }

  lemma GroupOf(prefix: Path, kind: string)
    requires Prefix(prefix) && DataKind(kind)
    ensures GroupBase(prefix + [kind]) && JoinTwo(Join(prefix), kind) == Join(prefix + [kind])
  {
    assert Part(kind) && '\\' !in kind && '\\' !in "/";
    Loader.FullPath(prefix, [kind]);
    if prefix == [] { assert prefix + [kind] == [kind]; } else { JoinAppend(prefix, [kind]); }
  }

  lemma KindUnpacked(fm: FileMap, prefix: Path, kind: string, c: Contents)
    requires Clear(fm, prefix + [kind]) && CleanKeys(c) && Prefix(prefix) && DataKind(kind)
    ensures Unpacks(SortedEntries(JoinTwo(Join(prefix), kind), c), fm, AddKind(fm, prefix, kind, c))
  {
    GroupOf(prefix, kind);
    var keys := SortedKeys(c.Keys);
    IncreasingDistinct(keys);
    forall i | 0 <= i < |keys| ensures keys[i] in c { assert keys[i] in keys; }
    UnpackFiles(fm, prefix + [kind], c, keys);
  }

  lemma IncreasingDistinct(keys: seq<string>)
    requires Sorting.Increasing(keys, Self)
    ensures Sorting.DistinctKeys(keys, Self)
  {
    forall i, j | 0 <= i < j < |keys| ensures Self(keys[i]) != Self(keys[j]) {
      Sorting.LessTotal(keys[i], keys[j]);
      Sorting.LessTotal(keys[i], keys[i]);
    }
  }

  lemma KindAdded(fm: FileMap, prefix: Path, kind: string, c: Contents)
    requires Clear(fm, prefix + [kind])
    ensures Grows(fm, AddKind(fm, prefix, kind, c), prefix + [kind])
    ensures KindAt(AddKind(fm, prefix, kind, c), prefix + [kind], c)
  {
    var base, keys := prefix + [kind], SortedKeys(c.Keys);
    var fm' := AddFiles(fm, base, c, keys);
    forall i | 0 <= i < |keys| ensures keys[i] in c { assert keys[i] in keys; }
    NewPaths(fm, base, c, keys);
    forall k | k in c ensures FilePath(base, k) in fm' && fm'[FilePath(base, k)] == StripBOM(c[k]) {
      KeyAdded(fm, base, c, keys, k);
    }
    forall p | p in fm' && p !in fm ensures base <= p && HasKey(p, base, c) {
      var k :| k in keys && p == FilePath(base, k);
    }
    forall p | p in fm ensures !(base <= p) { assert Unrelated(p, base); }
  }

  /** Below the prefix there is the script and data files only. */
  ghost predicate DataShape(fm: FileMap, prefix: Path, m: Manifest) {
    forall p :: p in fm && prefix <= p ==> p == prefix + [m.main] || (|p| > |prefix| && DataKind(p[|prefix|]))
  }

  /** Part of the data of a manifest is there, and the way is clear for the rest. */
  ghost predicate Stage(fm: FileMap, prefix: Path, m: Manifest, done: set<string>) {
    && prefix + [m.main] in fm && fm[prefix + [m.main]] == StripBOM(m.mainScript)
    && (forall kind :: kind in done ==> KindAt(fm, prefix + [kind], Data(m, kind)))
    && (forall kind {:trigger DataKind(kind)} :: DataKind(kind) && kind !in done ==> Clear(fm, prefix + [kind]))
    && DataShape(fm, prefix, m)
  }

  lemma SiblingsApart(prefix: Path, a: string, b: string, p: Path)
    requires a != b && prefix + [a] <= p
    ensures Unrelated(p, prefix + [b])
  {
    assert p[|prefix|] == a && (prefix + [b])[|prefix|] == b;
  }

  lemma StageNext(fm: FileMap, prefix: Path, m: Manifest, done: set<string>, kind: string)
    requires Stage(fm, prefix, m, done) && DataKind(kind) && kind !in done
    ensures Stage(AddKind(fm, prefix, kind, Data(m, kind)), prefix, m, done + {kind})
    ensures Grows(fm, AddKind(fm, prefix, kind, Data(m, kind)), prefix)
  {
    var fm' := AddKind(fm, prefix, kind, Data(m, kind));
    KindAdded(fm, prefix, kind, Data(m, kind));
    forall other | other in done ensures KindAt(fm', prefix + [other], Data(m, other)) {
      KindKept(fm, fm', prefix, kind, other, Data(m, other));
    }
    forall other | DataKind(other) && other !in done + {kind} ensures Clear(fm', prefix + [other]) {
      ClearKept(fm, fm', prefix, kind, other);
    }
    ShapeKept(fm, fm', prefix, m, kind);
  }

  lemma ShapeKept(fm: FileMap, fm': FileMap, prefix: Path, m: Manifest, kind: string)
    requires Grows(fm, fm', prefix + [kind]) && DataKind(kind) && DataShape(fm, prefix, m)
    ensures DataShape(fm', prefix, m) && Grows(fm, fm', prefix)
  {
    forall p | p in fm' && p !in fm ensures |p| > |prefix| && prefix <= p && p[|prefix|] == kind {
      assert prefix <= prefix + [kind] <= p;
    }
  }

  lemma KindKept(fm: FileMap, fm': FileMap, prefix: Path, kind: string, other: string, c: Contents)
    requires Grows(fm, fm', prefix + [kind]) && KindAt(fm, prefix + [other], c) && other != kind
    ensures KindAt(fm', prefix + [other], c)
  {
    forall p | p in fm' && prefix + [other] <= p ensures HasKey(p, prefix + [other], c) {
      if prefix + [kind] <= p { SiblingsApart(prefix, kind, other, p); }
      assert p in fm;
    }
  }

  lemma ClearKept(fm: FileMap, fm': FileMap, prefix: Path, kind: string, other: string)
    requires Grows(fm, fm', prefix + [kind]) && Clear(fm, prefix + [other]) && other != kind
    ensures Clear(fm', prefix + [other])
  {
    forall p | p in fm' ensures Unrelated(p, prefix + [other]) {
      if p !in fm { SiblingsApart(prefix, kind, other, p); }
    }
  }

  const DATA_KINDS := {"files"} + {"templates"} + {"vars"} + {"secrets"}

  ghost function AddMain(fm: FileMap, prefix: Path, m: Manifest): FileMap {
    fm[prefix + [m.main] := StripBOM(m.mainScript)]
  }

  ghost function AddData(fm: FileMap, prefix: Path, m: Manifest): FileMap {
    AddKind(AddKind(AddHalf(fm, prefix, m), prefix, "vars", m.vars), prefix, "secrets", m.secrets)
  }

  /** The script of a manifest, and where it may stand. */
  ghost predicate MainFits(prefix: Path, m: Manifest) {
    && Prefix(prefix) && Part(m.main) && '\\' !in m.main && !DataKind(m.main)
    && (prefix == [] ==> m.main == MAIN)
  }

  lemma MainPath(prefix: Path, m: Manifest)
    requires MainFits(prefix, m)
    ensures Plain(prefix + [m.main]) && JoinTwo(Join(prefix), m.main) == Join(prefix + [m.main])
  {
    Loader.FullPath(prefix, [m.main]);
    assert '\\' !in "/";
    if prefix == [] { assert prefix + [m.main] == [m.main]; } else { JoinAppend(prefix, [m.main]); }
  }

  lemma MainUnpacked(fm: FileMap, prefix: Path, m: Manifest)
    requires Clear(fm, prefix) && MainFits(prefix, m)
    ensures Unpacks([TarEntry(JoinTwo(Join(prefix), m.main), Regular, m.mainScript)], fm, AddMain(fm, prefix, m))
    ensures Stage(AddMain(fm, prefix, m), prefix, m, {}) && Grows(fm, AddMain(fm, prefix, m), prefix)
  {
    MainPath(prefix, m);
    ClearBelow(fm, prefix, m.main);
    ClearFits(fm, prefix + [m.main]);
    UnpackOne(prefix + [m.main], m.mainScript, fm);
    NotBelow(fm, prefix);
    MainStage(fm, prefix, m);
  }

  lemma NotBelow(fm: FileMap, prefix: Path)
    requires Clear(fm, prefix)
    ensures forall q :: q in fm ==> !(prefix <= q)
  {
    forall q | q in fm ensures !(prefix <= q) { assert Unrelated(q, prefix); }
  }

  /** The script alone is the first stage. */
  lemma MainStage(fm: FileMap, prefix: Path, m: Manifest)
    requires Clear(fm, prefix) && !DataKind(m.main) && prefix + [m.main] !in fm && forall q :: q in fm ==> !(prefix <= q)
    ensures Stage(AddMain(fm, prefix, m), prefix, m, {}) && Grows(fm, AddMain(fm, prefix, m), prefix)
  {
    forall kind | DataKind(kind) ensures Clear(AddMain(fm, prefix, m), prefix + [kind]) { MainClear(fm, prefix, m, kind); }
  }

  lemma MainClear(fm: FileMap, prefix: Path, m: Manifest, kind: string)
    requires Clear(fm, prefix) && kind != m.main
    ensures Clear(AddMain(fm, prefix, m), prefix + [kind])
  {
    ClearBelow(fm, prefix, kind);
    SiblingsApart(prefix, m.main, kind, prefix + [m.main]);
  }

  lemma ClearBelow(fm: FileMap, prefix: Path, c: string)
    requires Clear(fm, prefix)
    ensures Clear(fm, prefix + [c])
  {
    forall q | q in fm ensures Unrelated(q, prefix + [c]) {
      assert Unrelated(q, prefix);
      RelatedAbove(q, prefix, prefix + [c]);
    }
  }

  lemma ClearFits(fm: FileMap, p: Path)
    requires Clear(fm, p)
    ensures Fits(fm, p) && p !in fm
  {
    forall i | 0 < i < |p| ensures p[..i] !in fm {
      assert p[..i] <= p;
      assert p[..i] in fm ==> Unrelated(p[..i], p);
    }
    assert p in fm ==> Unrelated(p, p);
    forall q | q in fm ensures !Above(p, q) { assert Unrelated(q, p); }
  }

  lemma GrowsBoth(fm: FileMap, fm': FileMap, fm'': FileMap, b: Path)
    requires Grows(fm, fm', b) && Grows(fm', fm'', b)
    ensures Grows(fm, fm'', b)
  {
  }

  /** One group of data files: unpacked, and the next stage reached. */
  lemma KindStep(entries: seq<TarEntry>, start: FileMap, fm: FileMap, prefix: Path, m: Manifest, done: set<string>, kind: string)
    requires Unpacks(entries, start, fm) && Grows(start, fm, prefix) && Stage(fm, prefix, m, done)
    requires Prefix(prefix) && CleanData(m) && DataKind(kind) && kind !in done
    ensures Unpacks(entries + SortedEntries(JoinTwo(Join(prefix), kind), Data(m, kind)), start, AddKind(fm, prefix, kind, Data(m, kind)))
    ensures Grows(start, AddKind(fm, prefix, kind, Data(m, kind)), prefix)
    ensures Stage(AddKind(fm, prefix, kind, Data(m, kind)), prefix, m, done + {kind})
  {
    var fm' := AddKind(fm, prefix, kind, Data(m, kind));
    assert Clear(fm, prefix + [kind]);
    KindUnpacked(fm, prefix, kind, Data(m, kind));
    UnpacksBoth(entries, SortedEntries(JoinTwo(Join(prefix), kind), Data(m, kind)), start, fm, fm');
    StageNext(fm, prefix, m, done, kind);
    GrowsBoth(start, fm, fm', prefix);
  }

  /** The first two groups of data files. */
  ghost function HalfEntries(m: Manifest, prefix: string): seq<TarEntry> {
    [TarEntry(JoinTwo(prefix, m.main), Regular, m.mainScript)]
    + SortedEntries(JoinTwo(prefix, "files"), m.files)
    + SortedEntries(JoinTwo(prefix, "templates"), m.templates)
  }

  ghost function AddHalf(fm: FileMap, prefix: Path, m: Manifest): FileMap {
    AddKind(AddKind(AddMain(fm, prefix, m), prefix, "files", m.files), prefix, "templates", m.templates)
  }

  lemma FilesUnpacked(fm: FileMap, prefix: Path, m: Manifest)
    requires Clear(fm, prefix) && MainFits(prefix, m) && CleanData(m)
    ensures var e0 := [TarEntry(JoinTwo(Join(prefix), m.main), Regular, m.mainScript)];
            var fm' := AddKind(AddMain(fm, prefix, m), prefix, "files", m.files);
            && Unpacks(e0 + SortedEntries(JoinTwo(Join(prefix), "files"), m.files), fm, fm')
            && Stage(fm', prefix, m, {"files"}) && Grows(fm, fm', prefix)
  {
    DataKinds(m);
    MainUnpacked(fm, prefix, m);
    KindStep([TarEntry(JoinTwo(Join(prefix), m.main), Regular, m.mainScript)], fm, AddMain(fm, prefix, m), prefix, m, {}, "files");
    assert {} + {"files"} == {"files"};
  }

  lemma TemplatesNext(m: Manifest)
    ensures DataKind("templates") && Data(m, "templates") == m.templates && "templates" !in {"files"}
  {
    DataKinds(m);
    DataKindsDiffer();
  }

  lemma HalfUnpacked(fm: FileMap, prefix: Path, m: Manifest)
    requires Clear(fm, prefix) && MainFits(prefix, m) && CleanData(m)
    ensures Unpacks(HalfEntries(m, Join(prefix)), fm, AddHalf(fm, prefix, m))
    ensures Stage(AddHalf(fm, prefix, m), prefix, m, {"files"} + {"templates"}) && Grows(fm, AddHalf(fm, prefix, m), prefix)
  {
    TemplatesNext(m);
    FilesUnpacked(fm, prefix, m);
    KindStep([TarEntry(JoinTwo(Join(prefix), m.main), Regular, m.mainScript)] + SortedEntries(JoinTwo(Join(prefix), "files"), m.files),
             fm, AddKind(AddMain(fm, prefix, m), prefix, "files", m.files), prefix, m, {"files"}, "templates");
  }

  lemma DataUnpacked(fm: FileMap, prefix: Path, m: Manifest)
    requires Clear(fm, prefix) && MainFits(prefix, m) && CleanData(m)
    ensures Unpacks(DataEntries(m, Join(prefix)), fm, AddData(fm, prefix, m))
    ensures Stage(AddData(fm, prefix, m), prefix, m, DATA_KINDS) && Grows(fm, AddData(fm, prefix, m), prefix)
  {
    DataKinds(m);
    DataKindsDiffer();
    HalfUnpacked(fm, prefix, m);
    var e2, m2 := HalfEntries(m, Join(prefix)), AddHalf(fm, prefix, m);
    KindStep(e2, fm, m2, prefix, m, {"files"} + {"templates"}, "vars");
    var e3, m3 := e2 + SortedEntries(JoinTwo(Join(prefix), "vars"), m.vars), AddKind(m2, prefix, "vars", m.vars);
    KindStep(e3, fm, m3, prefix, m, {"files"} + {"templates"} + {"vars"}, "secrets");
  }

  lemma DataKindsDiffer()
    ensures "templates" !in {"files"} && "vars" !in {"files"} + {"templates"} && "secrets" !in {"files"} + {"templates"} + {"vars"}
    ensures forall kind :: kind in DATA_KINDS <==> DataKind(kind)
  {
  }

  /** A finished directory holds its manifest. */
  lemma StageHolds(fm: FileMap, prefix: Path, m: Manifest)
    requires Stage(fm, prefix, m, DATA_KINDS) && m.main != PLANS
    ensures HoldsData(Sub(fm, prefix), m) && Flatly(Sub(fm, prefix))
  {
    var sub := Sub(fm, prefix);
    KindsDiffer();
    DataKindsDiffer();
    SubAt(fm, prefix, [m.main]);
    forall kind | DataKind(kind) ensures HoldsKind(sub, kind, Data(m, kind)) {
      KindHeld(fm, prefix, kind, Data(m, kind));
    }
    forall r | r in sub ensures r != [] && (r == [m.main] || DataKind(r[0])) { ShapeOfSub(fm, prefix, m, r); }
  }

  lemma ShapeOfSub(fm: FileMap, prefix: Path, m: Manifest, r: Path)
    requires DataShape(fm, prefix, m) && r in Sub(fm, prefix)
    ensures r != [] && (r == [m.main] || DataKind(r[0]))
  {
    SubAt(fm, prefix, r);
    assert prefix <= prefix + r;
    if prefix + r == prefix + [m.main] { Cancel(prefix, r, [m.main]); }
  }

  lemma Regroup(prefix: Path, kind: string, cs: Path)
    ensures prefix + [kind] + cs == prefix + ([kind] + cs)
  {
  }

  lemma Cancel(prefix: Path, r: Path, s: Path)
    requires prefix + r == prefix + s
    ensures r == s
  {
    assert (prefix + r)[|prefix|..] == r && (prefix + s)[|prefix|..] == s;
  }

  lemma KindHeld(fm: FileMap, prefix: Path, kind: string, c: Contents)
    requires KindAt(fm, prefix + [kind], c)
    ensures HoldsKind(Sub(fm, prefix), kind, c)
  {
    forall k | k in c ensures KeyHeld(Sub(fm, prefix), kind, c, k) {
      assert FilePath(prefix + [kind], k) in fm;
      Regroup(prefix, kind, SplitSlash(k));
      SubAt(fm, prefix, [kind] + SplitSlash(k));
    }
    forall r | r in Sub(fm, prefix) && r != [] && r[0] == kind ensures PathHeld(r, c) {
      HeldPath(fm, prefix, kind, c, r);
    }
  }

  lemma HeldPath(fm: FileMap, prefix: Path, kind: string, c: Contents, r: Path)
    requires KindAt(fm, prefix + [kind], c) && r in Sub(fm, prefix) && r != [] && r[0] == kind
    ensures |r| > 1 && Join(r[1..]) in c
  {
    SubAt(fm, prefix, r);
    assert r == [kind] + r[1..];
    Regroup(prefix, kind, r[1..]);
    assert prefix + [kind] <= prefix + r && HasKey(prefix + r, prefix + [kind], c);
    var k :| k in c && prefix + r == FilePath(prefix + [kind], k);
    Regroup(prefix, kind, SplitSlash(k));
    Cancel(prefix, r, [kind] + SplitSlash(k));
    JoinSplit(k);
  }

  // ---- The plans -------------------------------------------------------------------------------

  ghost function AddPlans(fm: FileMap, m: Manifest, keys: seq<string>): FileMap
    requires forall i :: 0 <= i < |keys| ==> keys[i] in m.plans
  {
    if keys == [] then fm
    else
      var n := |keys| - 1;
      AddData(AddPlans(fm, m, keys[..n]), [PLANS, keys[n]], m.plans[keys[n]])
  }

  ghost predicate PlansHeld(fm: FileMap, m: Manifest, keys: seq<string>) {
    forall k :: k in keys ==> k in m.plans && HoldsPlan(fm, k, m.plans[k])
  }

  ghost predicate OnlyPlans(fm: FileMap, keys: seq<string>) {
    forall p :: p in fm && p != [] && p[0] == PLANS ==> |p| > 2 && p[1] in keys
  }

  /** Some of the plans are there, and nothing else is below "plans". */
  ghost predicate PlansStage(fm: FileMap, m: Manifest, keys: seq<string>) {
    PlansHeld(fm, m, keys) && OnlyPlans(fm, keys)
  }

  lemma ClearForPlan(fm: FileMap, m: Manifest, keys: seq<string>, k: string)
    requires PlansStage(fm, m, keys) && k !in keys && [] !in fm
    ensures Clear(fm, [PLANS, k])
  {
    forall p | p in fm ensures Unrelated(p, [PLANS, k]) {
      assert p != [];
    }
  }

  /** The directory of another plan stays as it is. */
  lemma SubKept(fm: FileMap, fm': FileMap, j: string, k: string)
    requires Grows(fm, fm', [PLANS, k]) && j != k
    ensures Sub(fm', [PLANS, j]) == Sub(fm, [PLANS, j])
  {
    forall r ensures r in Sub(fm', [PLANS, j]) <==> r in Sub(fm, [PLANS, j])
      ensures r in Sub(fm, [PLANS, j]) ==> r in Sub(fm', [PLANS, j]) && Sub(fm', [PLANS, j])[r] == Sub(fm, [PLANS, j])[r] {
      SubAt(fm, [PLANS, j], r);
      SubAt(fm', [PLANS, j], r);
      assert ([PLANS, j] + r)[1] == j && [PLANS, k][1] == k;
    }
  }

  lemma PlanUnpacked(fm: FileMap, m: Manifest, keys: seq<string>, k: string)
    requires Archivable(m) && PlansStage(fm, m, keys) && k in m.plans && k !in keys && [] !in fm
    ensures var fm' := AddData(fm, [PLANS, k], m.plans[k]);
            && Unpacks(ManifestEntries(m.plans[k], JoinTwo(PLANS, k)), fm, fm')
            && Grows(fm, fm', [PLANS, k]) && HoldsPlan(fm', k, m.plans[k]) && DataShape(fm', [PLANS, k], m.plans[k])
  {
    ClearForPlan(fm, m, keys, k);
    PlanFits(m.plans[k], k);
    DataUnpacked(fm, [PLANS, k], m.plans[k]);
    LeafEntries(m.plans[k], k);
    StageHolds(AddData(fm, [PLANS, k], m.plans[k]), [PLANS, k], m.plans[k]);
  }

  lemma PlanPlaced(fm: FileMap, fm': FileMap, m: Manifest, keys: seq<string>, k: string)
    requires PlansStage(fm, m, keys) && k in m.plans && k !in keys
    requires Grows(fm, fm', [PLANS, k]) && HoldsPlan(fm', k, m.plans[k]) && DataShape(fm', [PLANS, k], m.plans[k])
    ensures PlansStage(fm', m, keys + [k])
  {
    PlansKept(fm, fm', m, keys, k);
    PlacedPaths(fm, fm', m.plans[k], keys, k);
  }

  lemma PlansKept(fm: FileMap, fm': FileMap, m: Manifest, keys: seq<string>, k: string)
    requires PlansHeld(fm, m, keys) && Grows(fm, fm', [PLANS, k]) && k !in keys && k in m.plans && HoldsPlan(fm', k, m.plans[k])
    ensures PlansHeld(fm', m, keys + [k])
  {
    forall j | j in keys + [k] ensures j in m.plans && HoldsPlan(fm', j, m.plans[j]) {
      if j != k {
        assert j in keys;
        PlanKept(fm, fm', m.plans[j], j, k);
      }
    }
  }

  lemma PlacedPaths(fm: FileMap, fm': FileMap, m: Manifest, keys: seq<string>, k: string)
    requires Grows(fm, fm', [PLANS, k]) && DataShape(fm', [PLANS, k], m)
    requires OnlyPlans(fm, keys)
    ensures OnlyPlans(fm', keys + [k])
  {
    forall p | p in fm' && p != [] && p[0] == PLANS ensures |p| > 2 && p[1] in keys + [k] {
      PlacedPath(fm, fm', m, k, p);
    }
  }

  lemma PlanKept(fm: FileMap, fm': FileMap, m: Manifest, j: string, k: string)
    requires Grows(fm, fm', [PLANS, k]) && j != k && HoldsPlan(fm, j, m)
    ensures HoldsPlan(fm', j, m)
  {
    SubKept(fm, fm', j, k);
  }

  lemma PlacedPath(fm: FileMap, fm': FileMap, m: Manifest, k: string, p: Path)
    requires Grows(fm, fm', [PLANS, k]) && DataShape(fm', [PLANS, k], m) && p in fm'
    ensures p in fm || (|p| > 2 && p[1] == k)
  {
    if p !in fm {
      assert [PLANS, k] <= p;
      assert p[1] == [PLANS, k][1];
    }
  }

  lemma PlanFits(m: Manifest, k: string)
    requires Part(k) && '\\' !in k && m.main == PLAN
    ensures MainFits([PLANS, k], m) && m.main != PLANS
  {
    KindsDiffer();
    Loader.PlansPart();
    assert Part(PLANS) && Part(PLAN) && '\\' !in PLAN && '\\' !in PLANS && '\\' !in "/";
    assert Join([PLANS, k]) == PLANS + "/" + Join([k]) by { assert [PLANS, k][1..] == [k]; }
  }

  lemma LeafEntries(m: Manifest, k: string)
    requires m.plans == map[] && Part(k)
    ensures ManifestEntries(m, JoinTwo(PLANS, k)) == DataEntries(m, Join([PLANS, k]))
  {
    Loader.PlansPart();
    Loader.FullPath([PLANS], [k]);
    assert [PLANS] + [k] == [PLANS, k];
    assert SortedKeys(m.plans.Keys) == [];
  }

  /** Some plans have been written and unpacked. */
  ghost predicate PlansDone(fm: FileMap, fm': FileMap, m: Manifest, keys: seq<string>) {
    Unpacks(Flat(PlanEntries(m), keys), fm, fm') && Grows(fm, fm', [PLANS]) && PlansStage(fm', m, keys)
  }

  lemma PlansDoneNext(fm: FileMap, before: FileMap, m: Manifest, keys: seq<string>, k: string)
    requires Archivable(m) && Proper(fm) && PlansDone(fm, before, m, keys) && k in m.plans && k !in keys
    ensures PlansDone(fm, AddData(before, [PLANS, k], m.plans[k]), m, keys + [k])
  {
    var fm' := AddData(before, [PLANS, k], m.plans[k]);
    UnpackProper(Flat(PlanEntries(m), keys), fm);
    PlanUnpacked(before, m, keys, k);
    PlanPlaced(before, fm', m, keys, k);
    FlatNext(PlanEntries(m), keys, k);
    UnpacksBoth(Flat(PlanEntries(m), keys), PlanEntries(m)(k), fm, before, fm');
    GrowsWider(fm, before, fm', k);
  }

  lemma {:induction false} PlansUnpacked(fm: FileMap, m: Manifest, keys: seq<string>)
    requires Archivable(m) && PlansStage(fm, m, []) && Proper(fm)
    requires Sorting.DistinctKeys(keys, Self) && forall i :: 0 <= i < |keys| ==> keys[i] in m.plans
    ensures PlansDone(fm, AddPlans(fm, m, keys), m, keys)
  {
    if keys != [] {
      var n := |keys| - 1;
      LastIsNew(keys);
      PlansUnpacked(fm, m, keys[..n]);
      PlansDoneNext(fm, AddPlans(fm, m, keys[..n]), m, keys[..n], keys[n]);
      LastOf(keys);
    }
  }

  lemma LastOf(keys: seq<string>)
    requires keys != []
    ensures keys == keys[..|keys| - 1] + [keys[|keys| - 1]]
  {
  }

  lemma GrowsWider(fm: FileMap, fm': FileMap, fm'': FileMap, k: string)
    requires Grows(fm, fm', [PLANS]) && Grows(fm', fm'', [PLANS, k])
    ensures Grows(fm, fm'', [PLANS])
  {
    forall p | p in fm'' && p !in fm' ensures [PLANS] <= p { assert [PLANS, k][0] == PLANS; }
  }

  // ---- The whole archive -----------------------------------------------------------------------

  /** The files of the archive written for a manifest. */
  ghost function Packed(m: Manifest): FileMap {
    AddPlans(AddData(map[], [], m), m, SortedKeys(m.plans.Keys))
  }

  lemma PackedHolds(m: Manifest)
    requires Archivable(m)
    ensures Unpacks(ManifestEntries(m, ""), map[], Packed(m))
    ensures Proper(Packed(m)) && HoldsData(Packed(m), m) && HoldsPlans(Packed(m), m)
  {
    var data, keys := AddData(map[], [], m), SortedKeys(m.plans.Keys);
    RootUnpacked(m);
    IncreasingDistinct(keys);
    forall i | 0 <= i < |keys| ensures keys[i] in m.plans { assert keys[i] in keys; }
    PlansUnpacked(data, m, keys);
    UnpacksBoth(DataEntries(m, ""), Flat(PlanEntries(m), keys), map[], data, Packed(m));
    UnpackProper(ManifestEntries(m, ""), map[]);
    HoldsKept(data, Packed(m), m);
  }

  lemma RootUnpacked(m: Manifest)
    requires Archivable(m)
    ensures var data := AddData(map[], [], m);
            && Unpacks(DataEntries(m, ""), map[], data) && Proper(data)
            && HoldsData(data, m) && PlansStage(data, m, [])
  {
    var data := AddData(map[], [], m);
    RootFits(m);
    DataUnpacked(map[], [], m);
    UnpackProper(DataEntries(m, ""), map[]);
    StageHolds(data, [], m);
    SubAll(data);
    assert OnlyPlans(data, []);
  }

  lemma RootFits(m: Manifest)
    requires Archivable(m)
    ensures MainFits([], m) && m.main != PLANS && Join([]) == ""
  {
    MainPart();
    KindsDiffer();
    assert '\\' !in MAIN;
  }

  /** Files below "plans" do not disturb the rest. */
  lemma HoldsKept(fm: FileMap, fm': FileMap, m: Manifest)
    requires HoldsData(fm, m) && Grows(fm, fm', [PLANS])
    ensures HoldsData(fm', m)
  {
    KindsDiffer();
    forall kind | DataKind(kind) ensures HoldsKind(fm', kind, Data(m, kind)) {
      assert HoldsKind(fm, kind, Data(m, kind));
      forall k | k in Data(m, kind) ensures KeyHeld(fm', kind, Data(m, kind), k) { assert KeyHeld(fm, kind, Data(m, kind), k); }
      forall p | p in fm' && p != [] && p[0] == kind ensures PathHeld(p, Data(m, kind)) { assert p in fm; }
    }
  }

  // ---- The round trip --------------------------------------------------------------------------

  predicate MarkFree(b: Bytes) {
    !(BOM <= b)
  }

  ghost predicate DataMarkFree(m: Manifest) {
    MarkFree(m.mainScript) && forall kind, k :: DataKind(kind) && k in Data(m, kind) ==> MarkFree(Data(m, kind)[k])
  }

  /** No content begins with a byte-order mark. */
  ghost predicate NoMarks(m: Manifest) {
    DataMarkFree(m) && forall k :: k in m.plans ==> DataMarkFree(m.plans[k])
  }

  lemma StripExactly(b: Bytes)
    ensures StripBOM(b) == b <==> MarkFree(b)
  {
  }

  lemma StripsExactly(c: Contents)
    ensures Strips(c) == c <==> forall k :: k in c ==> MarkFree(c[k])
  {
    forall k | k in c ensures Strips(c)[k] == c[k] <==> MarkFree(c[k]) { StripExactly(c[k]); }
    if forall k :: k in c ==> MarkFree(c[k]) { assert Strips(c).Keys == c.Keys; }
  }

  lemma DataStrips(m: Manifest)
    ensures DataMarkFree(m) <==>
            && StripBOM(m.mainScript) == m.mainScript && Strips(m.files) == m.files && Strips(m.templates) == m.templates
            && Strips(m.vars) == m.vars && Strips(m.secrets) == m.secrets
  {
    DataKinds(m);
    StripExactly(m.mainScript);
    forall kind | DataKind(kind)
      ensures Strips(Data(m, kind)) == Data(m, kind) <==> forall k :: k in Data(m, kind) ==> MarkFree(Data(m, kind)[k]) {
      StripsExactly(Data(m, kind));
    }
    DataCases(m);
  }

  lemma DataCases(m: Manifest)
    ensures forall kind :: DataKind(kind) ==>
              Data(m, kind) == m.files || Data(m, kind) == m.templates || Data(m, kind) == m.vars || Data(m, kind) == m.secrets
  {
  }

  /** Reading leaves a manifest as it was exactly when nothing begins with a mark. */
  lemma StrippedExactly(m: Manifest)
    requires forall k :: k in m.plans ==> m.plans[k].plans == map[]
    ensures Stripped(m) == m <==> NoMarks(m)
  {
    StrippedParts(m);
    DataStrips(m);
    forall k | k in m.plans ensures Stripped(m.plans[k]) == m.plans[k] <==> DataMarkFree(m.plans[k]) {
      StrippedParts(m.plans[k]);
      DataStrips(m.plans[k]);
    }
    PlansStrip(m);
  }

  lemma PlansStrip(m: Manifest)
    ensures StrippedPlans(m) == m.plans <==> forall k :: k in m.plans ==> Stripped(m.plans[k]) == m.plans[k]
  {
    assert StrippedPlans(m).Keys == m.plans.Keys;
    forall k | k in m.plans ensures StrippedPlans(m)[k] == Stripped(m.plans[k]) {}
    if forall k :: k in m.plans ==> Stripped(m.plans[k]) == m.plans[k] {
      SameMap(StrippedPlans(m), m.plans);
    }
  }

  /** The archive written for a manifest loads as that manifest. */
  ghost predicate ReadBack(m: Manifest) {
    Proper(Packed(m)) && Load(Packed(m), MAIN) == Ok(m)
  }

  /** Loading a written archive gives the manifest back exactly when nothing begins with a byte-order
      mark and no plan, and no component of a plan's data file, is named "plan.sh". */
  lemma RoundTripExactly(m: Manifest)
    requires Archivable(m)
    ensures Unpacks(ManifestEntries(m, ""), map[], Packed(m)) && Proper(Packed(m)) && !IsDir(Packed(m), [MAIN])
    ensures NoScripts(m) ==> Load(Packed(m), MAIN) == Ok(Stripped(m))
    ensures ReadBack(m) <==> NoScripts(m) && NoMarks(m)
  {
    PackedHolds(m);
    StrippedExactly(m);
    if NoScripts(m) {
      LoadRoot(Packed(m), m);
    } else {
      ScriptsSpoil(Packed(m), m);
    }
  }

  // ---- Manifests that are not read back --------------------------------------------------------

  /** A manifest with one plan that has data files only. */
  function OnePlan(k: string, files: Contents): Manifest {
    Manifest(MAIN, [], map[k := Manifest(PLAN, [], map[], files, map[], map[], map[])], map[], map[], map[], map[])
  }

  lemma OnePlanArchivable(k: string, files: Contents)
    requires Part(k) && '\\' !in k && CleanKeys(files)
    ensures Archivable(OnePlan(k, files))
  {
    var m := OnePlan(k, files);
    forall kind | DataKind(kind) ensures CleanKeys(Data(m, kind)) && CleanKeys(Data(m.plans[k], kind)) {
      assert CleanKeys(map[]);
    }
  }

  lemma ScriptKey()
    ensures Part(PLAN) && '\\' !in PLAN && SplitSlash(PLAN) == [PLAN] && CleanKeys(map[PLAN := []])
  {
    assert Part(PLAN);
    PlainKeyPath(PLAN);
  }

  lemma ScriptInPlan(m: Manifest, k: string)
    requires k in m.plans && PLAN in m.plans[k].files && SplitSlash(PLAN) == [PLAN]
    ensures !NoScripts(m)
  {
    DataKinds(m.plans[k]);
    assert PLAN in SplitSlash(PLAN);
    assert !ScriptFree(m.plans[k]);
  }

  /** A plan with a data file named "plan.sh". */
  lemma ScriptAsData()
    ensures Archivable(OnePlan("a", map[PLAN := []])) && !ReadBack(OnePlan("a", map[PLAN := []]))
  {
    ScriptKey();
    assert Part("a") && '\\' !in "a";
    OnePlanArchivable("a", map[PLAN := []]);
    ScriptInPlan(OnePlan("a", map[PLAN := []]), "a");
    RoundTripExactly(OnePlan("a", map[PLAN := []]));
  }

  /** A plan named "plan.sh". */
  lemma ScriptAsName()
    ensures Archivable(OnePlan(PLAN, map[])) && !ReadBack(OnePlan(PLAN, map[]))
  {
    ScriptKey();
    OnePlanArchivable(PLAN, map[]);
    assert PLAN in OnePlan(PLAN, map[]).plans;
    RoundTripExactly(OnePlan(PLAN, map[]));
  }

  // ---- Archives that make the reader panic -----------------------------------------------------

  ghost predicate FarBelow(p: Path, q: Path) {
    |p| == 1 && |q| > 2 && q[0] == p[0]
  }

  ghost predicate Adds(e: TarEntry, p: Path) {
    e.kind == Regular && Accepted(e.name) == Ok(Join(p)) && SplitSlash(Join(p)) == p
  }

  /** A file and then a path two levels below it make the reader panic; in the other order they do not. */
  lemma OrderDecides(p: Path, q: Path, d: TarEntry, e: TarEntry)
    requires Adds(d, p) && Adds(e, q) && FarBelow(p, q)
    ensures TripsOver([d, e], []) && !TripsOver([e, d], [])
  {
    TwoTrips(d, e, p, q);
    TwoTrips(e, d, q, p);
  }

  lemma TwoTrips(d: TarEntry, e: TarEntry, p: Path, q: Path)
    requires Adds(d, p) && Adds(e, q) && p != []
    ensures TripsOver([d, e], []) <==> |q| > 2 && q[0] == p[0] && |p| == 1
  {
    assert [d, e][1..] == [e] && [] + [p] == [p];
    assert !Trips([], p);
    LastTrips(e, q, [p]);
    assert [p][1..] == [];
  }

  lemma LastTrips(e: TarEntry, q: Path, before: seq<Path>)
    requires Adds(e, q)
    ensures TripsOver([e], before) <==> Trips(before, q)
  {
    assert [e][1..] == [];
  }

  /** So it is with "files" and "files/a/b". */
  lemma FileThenFiles(b: Bytes, c: Bytes)
    ensures TripsOver([TarEntry("files", Regular, b), TarEntry("files/a/b", Regular, c)], [])
  {
    var p, q := ["files"], ["files"] + ["a", "b"];
    FilesNames();
    AcceptedPlain(p);
    AcceptedPlain(q);
    OrderDecides(p, q, TarEntry(Join(p), Regular, b), TarEntry(Join(q), Regular, c));
  }

  lemma FilesNames()
    ensures Plain(["files"]) && Plain(["files"] + ["a", "b"])
    ensures Join(["files"]) == "files" && Join(["files"] + ["a", "b"]) == "files/a/b"
  {
    assert Part("files") && Part("a") && Part("b");
    assert ["a", "b"][1..] == ["b"];
    JoinAppend(["files"], ["a", "b"]);
    assert Join(["a", "b"]) == "a/b";
  }
}
