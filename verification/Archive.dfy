/** Writing a manifest as an archive and reading it back (manifest/archive.go). */
module Archives {
  import opened Base
  import opened Paths
  import opened TarFS
  import opened Manifests
  import opened Cleaning
  import Loader
  import Sorting

  datatype EntryKind = Regular | Directory | ExtensionHeader

  datatype TarEntry = TarEntry(name: string, kind: EntryKind, body: Bytes)

  const MAIN := "polyester.sh"

  // ---- Sorted keys -----------------------------------------------------------------------------

  function Self(s: string): string {
    s
  }

  /** The keys of a map in increasing order. */
  ghost function SortedKeys(s: set<string>): (ks: seq<string>)
    ensures Sorting.Increasing(ks, Self) && forall k :: k in ks <==> k in s
  {
    if s == {} then []
    else
      var k :| k in s;
      var rest := SortedKeys(s - {k});
      Sorting.InsertSorts(rest, k, Self);
      Sorting.InsertKeeps(rest, k, Self);
      InsertMembers(rest, k);
      Sorting.Insert(rest, k, Self)
  }

  lemma InsertMembers(ks: seq<string>, k: string)
    requires multiset(Sorting.Insert(ks, k, Self)) == multiset(ks) + multiset{k}
    ensures forall j :: j in Sorting.Insert(ks, k, Self) <==> j in ks || j == k
  {
    forall j ensures j in Sorting.Insert(ks, k, Self) <==> j in ks || j == k {
      assert j in Sorting.Insert(ks, k, Self) <==> j in multiset(Sorting.Insert(ks, k, Self));
      assert j in ks <==> j in multiset(ks);
    }
  }

  /** There is one increasing sequence with given members. */
  lemma {:induction false} IncreasingUnique(xs: seq<string>, ys: seq<string>)
    requires Sorting.Increasing(xs, Self) && Sorting.Increasing(ys, Self) && forall k :: k in xs <==> k in ys
    ensures xs == ys
  {
    assert xs != [] ==> xs[0] in xs;
    assert ys != [] ==> ys[0] in ys;
    if xs != [] {
      FirstLeast(xs, ys);
      FirstLeast(ys, xs);
      Sorting.LessTotal(xs[0], ys[0]);
      forall k ensures k in xs[1..] <==> k in ys[1..] {
        MemberOfRest(xs, k);
        MemberOfRest(ys, k);
      }
      IncreasingUnique(xs[1..], ys[1..]);
      assert xs == [xs[0]] + xs[1..] && ys == [ys[0]] + ys[1..];
    }
  }

  lemma FirstLeast(xs: seq<string>, ys: seq<string>)
    requires Sorting.Increasing(xs, Self) && xs != [] && forall k :: k in xs <==> k in ys
    ensures ys != [] && (xs[0] == ys[0] || Sorting.Less(xs[0], ys[0]))
  {
    assert xs[0] in ys;
    assert ys[0] in xs;
  }

  lemma MemberOfRest(xs: seq<string>, k: string)
    requires Sorting.Increasing(xs, Self) && xs != []
    ensures k in xs[1..] <==> k in xs && k != xs[0]
  {
    Sorting.LessTotal(xs[0], xs[0]);
    if k in xs && k != xs[0] {
      var i :| 0 <= i < |xs| && xs[i] == k;
      assert xs[1..][i - 1] == k;
    }
  }

  /** Filling and sorting a slice of keys: the order in which a map is iterated does not matter. */
  method KeysOf<V>(m: map<string, V>) returns (keys: seq<string>)
    ensures keys == SortedKeys(m.Keys)
  {
    keys := [];
    var rest := m.Keys;
    while rest != {}
      invariant rest <= m.Keys && Sorting.DistinctKeys(keys, Self)
      invariant forall k :: k in keys <==> k in m.Keys - rest
      decreases |rest|
    {
      var k :| k in rest;
      Sorted(keys, k);
      keys, rest := keys + [k], rest - {k};
    }
    Sorting.SortSorts(keys, Self);
    SameMembers(Sorting.Sort(keys, Self), keys);
    IncreasingUnique(Sorting.Sort(keys, Self), SortedKeys(m.Keys));
    keys := Sorting.Sort(keys, Self);
  }

  lemma Sorted(keys: seq<string>, k: string)
    requires Sorting.DistinctKeys(keys, Self) && k !in keys
    ensures Sorting.DistinctKeys(keys + [k], Self)
  {
  }

  // ---- The writer ------------------------------------------------------------------------------

  ghost function FileEntries(base: string, c: Contents, keys: seq<string>): seq<TarEntry>
    requires forall i :: 0 <= i < |keys| ==> keys[i] in c
  {
    seq(|keys|, i requires 0 <= i < |keys| => TarEntry(JoinTwo(base, keys[i]), Regular, c[keys[i]]))
  }

  lemma FileEntriesNext(base: string, c: Contents, keys: seq<string>, n: nat)
    requires n < |keys| && forall i :: 0 <= i < |keys| ==> keys[i] in c
    ensures FileEntries(base, c, keys[..n + 1])
         == FileEntries(base, c, keys[..n]) + [TarEntry(JoinTwo(base, keys[n]), Regular, c[keys[n]])]
  {
  }

  lemma FileWritten(before: seq<TarEntry>, base: string, c: Contents, keys: seq<string>, n: nat)
    requires n < |keys| && forall i :: 0 <= i < |keys| ==> keys[i] in c
    ensures before + FileEntries(base, c, keys[..n]) + [TarEntry(JoinTwo(base, keys[n]), Regular, c[keys[n]])]
         == before + FileEntries(base, c, keys[..n + 1])
  {
    FileEntriesNext(base, c, keys, n);
    Associates(before, FileEntries(base, c, keys[..n]), [TarEntry(JoinTwo(base, keys[n]), Regular, c[keys[n]])]);
  }

  ghost function SortedEntries(base: string, c: Contents): seq<TarEntry> {
    FileEntries(base, c, SortedKeys(c.Keys))
  }

  ghost function DataEntries(m: Manifest, prefix: string): seq<TarEntry> {
    [TarEntry(JoinTwo(prefix, m.main), Regular, m.mainScript)]
    + SortedEntries(JoinTwo(prefix, "files"), m.files)
    + SortedEntries(JoinTwo(prefix, "templates"), m.templates)
    + SortedEntries(JoinTwo(prefix, "vars"), m.vars)
    + SortedEntries(JoinTwo(prefix, "secrets"), m.secrets)
  }

  /** The entries of a manifest: its script, its data files, its plans, each group by sorted name. */
  ghost function ManifestEntries(m: Manifest, prefix: string): seq<TarEntry>
    decreases m, 1
  {
    DataEntries(m, prefix) + Flat(PlanEntries(m), SortedKeys(m.plans.Keys))
  }

  /** The entries of each plan; a nested plan is written at the top as well. */
  ghost function PlanEntries(m: Manifest): string -> seq<TarEntry>
    decreases m, 0
  {
    k => if k in m.plans then ManifestEntries(m.plans[k], JoinTwo(PLANS, k)) else []
  }

  ghost function Flat<T>(parts: string -> seq<T>, keys: seq<string>): seq<T> {
    if keys == [] then [] else parts(keys[0]) + Flat(parts, keys[1..])
  }

  lemma {:induction false} FlatNext<T>(parts: string -> seq<T>, keys: seq<string>, k: string)
    ensures Flat(parts, keys + [k]) == Flat(parts, keys) + parts(k)
  {
    if keys == [] {
      assert [k][1..] == [] && [] + [k] == [k];
    } else {
      FlatNext(parts, keys[1..], k);
      assert (keys + [k])[1..] == keys[1..] + [k];
      Associates(parts(keys[0]), Flat(parts, keys[1..]), parts(k));
    }
  }

  lemma {:induction false} FlatHas<T>(parts: string -> seq<T>, keys: seq<string>, k: string, x: T)
    requires k in keys && x in parts(k)
    ensures x in Flat(parts, keys)
  {
    if k != keys[0] {
      assert k in keys[1..];
      FlatHas(parts, keys[1..], k, x);
    }
  }

  /** The script of a nested plan is written right below the top "plans", whatever its parent. */
  lemma NestedPlansMove(m: Manifest, prefix: string, k: string, j: string)
    requires k in m.plans && j in m.plans[k].plans
    ensures var nested := m.plans[k].plans[j];
            TarEntry(JoinTwo(JoinTwo(PLANS, j), nested.main), Regular, nested.mainScript) in ManifestEntries(m, prefix)
  {
    var nested := m.plans[k].plans[j];
    var script := TarEntry(JoinTwo(JoinTwo(PLANS, j), nested.main), Regular, nested.mainScript);
    ScriptFirst(nested, JoinTwo(PLANS, j));
    FlatHas(PlanEntries(m.plans[k]), SortedKeys(m.plans[k].plans.Keys), j, script);
    assert script in ManifestEntries(m.plans[k], JoinTwo(PLANS, k));
    FlatHas(PlanEntries(m), SortedKeys(m.plans.Keys), k, script);
  }

  lemma ScriptFirst(m: Manifest, prefix: string)
    ensures TarEntry(JoinTwo(prefix, m.main), Regular, m.mainScript) in ManifestEntries(m, prefix)
  {
    assert ManifestEntries(m, prefix)[0] == TarEntry(JoinTwo(prefix, m.main), Regular, m.mainScript);
  }

  lemma TakeNext<T>(s: seq<T>, i: nat)
    requires i < |s|
    ensures s[..i + 1] == s[..i] + [s[i]]
  {
  }

  lemma TakeAll<T>(s: seq<T>)
    ensures s[..|s|] == s
  {
  }

  lemma Associates<T>(a: seq<T>, b: seq<T>, c: seq<T>)
    ensures (a + b) + c == a + (b + c)
  {
  }

  lemma SixParts<T>(o: seq<T>, a: seq<T>, b: seq<T>, c: seq<T>, d: seq<T>, e: seq<T>, f: seq<T>)
    ensures o + a + b + c + d + e + f == o + (a + b + c + d + e + f)
  {
    Associates(o, a + b + c + d + e, f);
    Associates(o, a + b + c + d, e);
    Associates(o, a + b + c, d);
    Associates(o, a + b, c);
    Associates(o, a, b);
  }

  /** One entry per file, by increasing key. */
  ghost predicate IsGroup(g: seq<TarEntry>, keys: seq<string>, base: string, c: Contents) {
    && |g| == |keys| && Sorting.Increasing(keys, Self) && (forall k :: k in keys <==> k in c)
    && forall i :: 0 <= i < |g| ==> keys[i] in c && g[i] == TarEntry(JoinTwo(base, keys[i]), Regular, c[keys[i]])
  }

  lemma SortedGroup(base: string, c: Contents)
    ensures IsGroup(SortedEntries(base, c), SortedKeys(c.Keys), base, c)
  {
    var keys := SortedKeys(c.Keys);
    forall i | 0 <= i < |keys| ensures keys[i] in c { assert keys[i] in keys; }
  }

  /** The groups of data files, each with its keys. */
  datatype Groups = Groups(files: seq<TarEntry>, templates: seq<TarEntry>, vars: seq<TarEntry>, secrets: seq<TarEntry>)

  ghost predicate AreGroups(gs: Groups, m: Manifest, prefix: string) {
    && (exists keys :: IsGroup(gs.files, keys, JoinTwo(prefix, "files"), m.files))
    && (exists keys :: IsGroup(gs.templates, keys, JoinTwo(prefix, "templates"), m.templates))
    && (exists keys :: IsGroup(gs.vars, keys, JoinTwo(prefix, "vars"), m.vars))
    && (exists keys :: IsGroup(gs.secrets, keys, JoinTwo(prefix, "secrets"), m.secrets))
  }

  /** The script comes first, then the files, the templates, the vars and the secrets, and then the
      plans. */
  lemma WrittenOrder(m: Manifest, prefix: string) returns (gs: Groups)
    ensures AreGroups(gs, m, prefix)
    ensures ManifestEntries(m, prefix)
         == [TarEntry(JoinTwo(prefix, m.main), Regular, m.mainScript)] + gs.files + gs.templates + gs.vars + gs.secrets
            + Flat(PlanEntries(m), SortedKeys(m.plans.Keys))
  {
    gs := Groups(SortedEntries(JoinTwo(prefix, "files"), m.files), SortedEntries(JoinTwo(prefix, "templates"), m.templates),
                 SortedEntries(JoinTwo(prefix, "vars"), m.vars), SortedEntries(JoinTwo(prefix, "secrets"), m.secrets));
    SortedGroup(JoinTwo(prefix, "files"), m.files);
    SortedGroup(JoinTwo(prefix, "templates"), m.templates);
    SortedGroup(JoinTwo(prefix, "vars"), m.vars);
    SortedGroup(JoinTwo(prefix, "secrets"), m.secrets);
  }

  lemma {:induction false} FlatJoin<T>(parts: string -> seq<T>, a: seq<string>, b: seq<string>)
    ensures Flat(parts, a + b) == Flat(parts, a) + Flat(parts, b)
  {
    if a == [] {
      assert a + b == b;
    } else {
      assert (a + b)[1..] == a[1..] + b;
      FlatJoin(parts, a[1..], b);
      Associates(parts(a[0]), Flat(parts, a[1..]), Flat(parts, b));
    }
  }

  /** The plans are written by increasing name, each below the top "plans". */
  lemma PlansOrder(m: Manifest, a: seq<string>, k: string, b: seq<string>)
    requires k in m.plans && SortedKeys(m.plans.Keys) == a + [k] + b
    ensures Flat(PlanEntries(m), SortedKeys(m.plans.Keys))
         == Flat(PlanEntries(m), a) + ManifestEntries(m.plans[k], JoinTwo("plans", k)) + Flat(PlanEntries(m), b)
    ensures Flat(PlanEntries(m), []) == []
  {
    FlatJoin(PlanEntries(m), a + [k], b);
    FlatNext(PlanEntries(m), a, k);
  }

  /** A tar stream being written. */
  class TarWriter {
    var entries: seq<TarEntry>

    constructor ()
      ensures entries == []
    {
      entries := [];
    }

    method WriteToTar(name: string, body: Bytes)
      modifies this
      ensures entries == old(entries) + [TarEntry(name, Regular, body)]
    {
      entries := entries + [TarEntry(name, Regular, body)];
    }

    method WriteFilesToTar(base: string, c: Contents)
      modifies this
      ensures entries == old(entries) + SortedEntries(base, c)
    {
      var keys := KeysOf(c);
      for i := 0 to |keys|
        invariant entries == old(entries) + FileEntries(base, c, keys[..i])
      {
        WriteToTar(JoinTwo(base, keys[i]), c[keys[i]]);
        FileWritten(old(entries), base, c, keys, i);
      }
      TakeAll(keys);
    }

    method WriteTar(m: Manifest, prefix: string)
      modifies this
      ensures entries == old(entries) + ManifestEntries(m, prefix)
      decreases m, 1
    {
      WriteToTar(JoinTwo(prefix, m.main), m.mainScript);
      WriteFilesToTar(JoinTwo(prefix, "files"), m.files);
      WriteFilesToTar(JoinTwo(prefix, "templates"), m.templates);
      WriteFilesToTar(JoinTwo(prefix, "vars"), m.vars);
      WriteFilesToTar(JoinTwo(prefix, "secrets"), m.secrets);
      var keys := KeysOf(m.plans);
      WritePlans(m, keys);
      SixParts(old(entries), [TarEntry(JoinTwo(prefix, m.main), Regular, m.mainScript)],
               SortedEntries(JoinTwo(prefix, "files"), m.files), SortedEntries(JoinTwo(prefix, "templates"), m.templates),
               SortedEntries(JoinTwo(prefix, "vars"), m.vars), SortedEntries(JoinTwo(prefix, "secrets"), m.secrets),
               Flat(PlanEntries(m), keys));
    }

    /** The last loop of writeTar. */
    method WritePlans(m: Manifest, keys: seq<string>)
      requires forall i :: 0 <= i < |keys| ==> keys[i] in m.plans
      modifies this
      ensures entries == old(entries) + Flat(PlanEntries(m), keys)
      decreases m, 0
    {
      ghost var parts := PlanEntries(m);
      for i := 0 to |keys|
        invariant entries == old(entries) + Flat(parts, keys[..i])
      {
        WriteTar(m.plans[keys[i]], JoinTwo(PLANS, keys[i]));
        FlatNext(parts, keys[..i], keys[i]);
        TakeNext(keys, i);
        Associates(old(entries), Flat(parts, keys[..i]), parts(keys[i]));
      }
      TakeAll(keys);
    }
  }

  // ---- The reader ------------------------------------------------------------------------------

  /** The archive may have been written with backslashes. */
  function Slashed(name: string): string {
    if name == "" then "" else [if name[0] == '\\' then '/' else name[0]] + Slashed(name[1..])
  }

  predicate Letter(c: char) {
    'a' <= c <= 'z' || 'A' <= c <= 'Z'
  }

  /** drivePathPattern. */
  predicate DrivePath(s: string) {
    |s| >= 3 && Letter(s[0]) && s[1] == ':' && s[2] == '/'
  }

  /** The checks on an entry's name; the path under which it is stored. */
  function Accepted(name: string): Result<string> {
    var n := Slashed(name);
    if IsAbs(n) then Err
    else if Clean(n) == "." || HasPrefix(Clean(n), "..") || DrivePath(Clean(n)) then Err
    else Ok(Clean(n))
  }

  const BOM: Bytes := [0xEF, 0xBB, 0xBF]

  /** bytes.TrimPrefix(b, utf8bom). */
  function StripBOM(b: Bytes): (r: Bytes)
    ensures b == if BOM <= b then BOM + r else r
  {
    if BOM <= b then b[|BOM|..] else b
  }

  /** No archive can put a file outside the tree: what is accepted is a clean relative path. */
  lemma AcceptedIsProper(name: string)
    requires Accepted(name).Ok?
    ensures var n := Accepted(name).value; Parts(SplitSlash(n)) && Join(SplitSlash(n)) == n && !DrivePath(n) && '\\' !in n
  {
    CleanIsProper(Slashed(name));
    NoBackslash(name);
    CleanKeeps(Slashed(name), '\\');
  }

  lemma {:induction false} SlashedExactly(name: string, n: string)
    requires |n| == |name| && forall i :: 0 <= i < |n| ==> n[i] == if name[i] == '\\' then '/' else name[i]
    ensures Slashed(name) == n
  {
    if name != "" { SlashedExactly(name[1..], n[1..]); }
  }

  /** Which names are accepted, and what they are stored under. With backslashes read as slashes, and `out`
      the components that simplifying leaves: a name is accepted if and only if it does not begin with a
      slash, `out` is not empty, its first component does not begin with "..", and it is no drive path. */
  lemma AcceptedExactly(name: string, n: string, cs: Path, out: Path)
    requires |n| == |name| && forall i :: 0 <= i < |n| ==> n[i] == if name[i] == '\\' then '/' else name[i]
    requires ComponentsOf(cs, n) && Reduces(false, cs, out) && Minimal(false, out)
    ensures Accepted(name).Ok? <==>
              && (n != "" ==> n[0] != '/') && out != [] && !(".." <= out[0])
              && !(|out[0]| == 2 && ('a' <= out[0][0] <= 'z' || 'A' <= out[0][0] <= 'Z') && out[0][1] == ':' && |out| > 1)
    ensures Accepted(name).Ok? ==> Accepted(name).value == Join(out) && SplitSlash(Accepted(name).value) == out
  {
    SlashedExactly(name, n);
    MinimalParts(false, out);
    if n == "" || n[0] != '/' {
      CleanExactly(n, cs, out);
      if out != [] {
        SplitJoin(cs);
        CleanedExactly(false, cs, out);
        CleanedOut(false, [], cs);
        SplitJoin(out);
        DotsInFront(out);
        DriveInFront(out);
      }
    }
  }

  lemma DotsInFront(out: Path)
    requires out != [] && (forall i :: 0 <= i < |out| ==> out[i] != "" && out[i] != "." && NoSlash(out[i]))
    ensures HasPrefix(Join(out), "..") <==> ".." <= out[0]
    ensures Join(out) != "." && Join(out) != ""
  {
    var s := Join(out);
    assert out[0] <= s;
    if |out| > 1 { assert s[|out[0]|] == '/'; }
  }

  lemma DriveInFront(out: Path)
    requires out != [] && (forall i :: 0 <= i < |out| ==> out[i] != "" && NoSlash(out[i]))
    ensures DrivePath(Join(out)) <==>
              |out[0]| == 2 && ('a' <= out[0][0] <= 'z' || 'A' <= out[0][0] <= 'Z') && out[0][1] == ':' && |out| > 1
  {
    var s := Join(out);
    assert out[0] <= s;
    assert NoSlash(out[0]);
    if |out| > 1 { assert s[|out[0]|] == '/'; }
    if |s| >= 3 && |out[0]| >= 3 { assert s[2] in out[0]; }
    if |s| >= 3 && |out[0]| == 1 && |out| > 1 { assert s[1] == '/'; }
  }

  lemma {:induction false} NoBackslash(name: string)
    ensures '\\' !in Slashed(name)
  {
    if name != "" { NoBackslash(name[1..]); }
  }

  ghost predicate Lacks(cs: seq<string>, c: char) {
    forall i :: 0 <= i < |cs| ==> c !in cs[i]
  }

  /** Clean brings in no character but dots and slashes. */
  lemma CleanKeeps(s: string, c: char)
    requires c !in s && c != '.' && c != '/'
    ensures c !in Clean(s)
  {
    SplitKeeps(s, c);
    CleanedKeeps(IsAbs(s), [], SplitSlash(s), c);
    var out := Join(Cleaned(IsAbs(s), [], SplitSlash(s)));
    JoinKeeps(Cleaned(IsAbs(s), [], SplitSlash(s)), c);
    assert c !in "." && c !in "/" && c !in "/" + out;
  }

  lemma {:induction false} SplitKeeps(s: string, c: char)
    requires c !in s
    ensures Lacks(SplitSlash(s), c)
  {
    if s != "" { SplitKeeps(s[1..], c); }
  }

  lemma {:induction false} CleanedKeeps(rooted: bool, out: Path, cs: seq<string>, c: char)
    requires c != '.' && Lacks(out, c) && Lacks(cs, c)
    ensures Lacks(Cleaned(rooted, out, cs), c)
    decreases |cs|
  {
    assert c !in "..";
    if cs != [] {
      if cs[0] == "" || cs[0] == "." {
        CleanedKeeps(rooted, out, cs[1..], c);
      } else if cs[0] != ".." {
        CleanedKeeps(rooted, out + [cs[0]], cs[1..], c);
      } else if out != [] && out[|out| - 1] != ".." {
        CleanedKeeps(rooted, out[..|out| - 1], cs[1..], c);
      } else if rooted {
        CleanedKeeps(rooted, out, cs[1..], c);
      } else {
        CleanedKeeps(rooted, out + [".."], cs[1..], c);
      }
    }
  }

  lemma {:induction false} JoinKeeps(cs: seq<string>, c: char)
    requires c != '/' && Lacks(cs, c)
    ensures c !in Join(cs)
  {
    if |cs| > 1 { JoinKeeps(cs[1..], c); }
  }

  /** The files of an archive by path, or its first bad name. */
  ghost function Unpack(entries: seq<TarEntry>, fm: FileMap): Result<FileMap> {
    if entries == [] then Ok(fm)
    else if entries[0].kind != Regular then Unpack(entries[1..], fm)
    else if Accepted(entries[0].name).Err? then Err
    else Unpack(entries[1..], fm[SplitSlash(Accepted(entries[0].name).value) := StripBOM(entries[0].body)])
  }

  ghost predicate BadName(e: TarEntry) {
    e.kind == Regular && Accepted(e.name).Err?
  }

  /** Reading fails exactly when some file of the archive has a bad name, wherever it stands. */
  lemma {:induction false} UnpackErrExactly(entries: seq<TarEntry>, fm: FileMap)
    ensures Unpack(entries, fm).Err? <==> exists e :: e in entries && BadName(e)
  {
    if entries != [] {
      assert entries == [entries[0]] + entries[1..];
      if entries[0].kind != Regular {
        UnpackErrExactly(entries[1..], fm);
      } else if Accepted(entries[0].name).Ok? {
        UnpackErrExactly(entries[1..], fm[SplitSlash(Accepted(entries[0].name).value) := StripBOM(entries[0].body)]);
      } else {
        assert entries[0] in entries && BadName(entries[0]);
      }
    }
  }

  /** Until the first bad name, no path repeats, and none is a directory of another. */
  ghost predicate Fitting(entries: seq<TarEntry>, fm: FileMap) {
    if entries == [] then true
    else if entries[0].kind != Regular then Fitting(entries[1..], fm)
    else if Accepted(entries[0].name).Err? then true
    else
      var p := SplitSlash(Accepted(entries[0].name).value);
      Fits(fm, p) && Fitting(entries[1..], fm[p := StripBOM(entries[0].body)])
  }

  /** An entry adds contents under a path. */
  ghost predicate AddsAt(e: TarEntry, p: Path) {
    e.kind == Regular && Accepted(e.name).Ok? && SplitSlash(Accepted(e.name).value) == p
  }

  ghost predicate AddedSome(entries: seq<TarEntry>, p: Path) {
    exists i :: 0 <= i < |entries| && AddsAt(entries[i], p)
  }

  lemma AddedNext(entries: seq<TarEntry>, p: Path)
    requires entries != []
    ensures AddedSome(entries, p) <==> AddsAt(entries[0], p) || AddedSome(entries[1..], p)
  {
    if AddedSome(entries, p) {
      var i :| 0 <= i < |entries| && AddsAt(entries[i], p);
      if i > 0 { assert entries[1..][i - 1] == entries[i]; }
    }
    if AddedSome(entries[1..], p) {
      var i :| 0 <= i < |entries[1..]| && AddsAt(entries[1..][i], p);
      assert entries[i + 1] == entries[1..][i];
    }
  }

  lemma {:induction false} UnpackKeeps(entries: seq<TarEntry>, fm: FileMap)
    requires Fitting(entries, fm) && Unpack(entries, fm).Ok?
    ensures forall p :: p in fm ==> p in Unpack(entries, fm).value && Unpack(entries, fm).value[p] == fm[p]
  {
    if entries != [] {
      var e := entries[0];
      UnpackKeeps(entries[1..], if e.kind != Regular then fm else fm[SplitSlash(Accepted(e.name).value) := StripBOM(e.body)]);
    }
  }

  lemma {:induction false} UnpackKeys(entries: seq<TarEntry>, fm: FileMap, p: Path)
    requires Unpack(entries, fm).Ok?
    ensures p in Unpack(entries, fm).value <==> p in fm || AddedSome(entries, p)
  {
    if entries != [] {
      var e := entries[0];
      AddedNext(entries, p);
      UnpackKeys(entries[1..], if e.kind != Regular then fm else fm[SplitSlash(Accepted(e.name).value) := StripBOM(e.body)], p);
    }
  }

  /** The file under `p` has the contents of the entry, but for a byte-order mark. */
  ghost predicate Carries(fm: FileMap, p: Path, e: TarEntry) {
    p in fm && e.body == if BOM <= e.body then BOM + fm[p] else fm[p]
  }

  lemma {:induction false} UnpackValue(entries: seq<TarEntry>, fm: FileMap, i: nat, p: Path)
    requires Fitting(entries, fm) && Unpack(entries, fm).Ok? && i < |entries| && AddsAt(entries[i], p)
    ensures p !in fm && Carries(Unpack(entries, fm).value, p, entries[i])
  {
    var e := entries[0];
    var fm' := if e.kind != Regular then fm else fm[SplitSlash(Accepted(e.name).value) := StripBOM(e.body)];
    if i > 0 {
      UnpackValue(entries[1..], fm', i - 1, p);
    } else {
      UnpackKeeps(entries[1..], fm');
    }
  }

  /** What an archive without conflicting paths unpacks to: a file for each file entry, with the contents
      of that entry but for a byte-order mark, and nothing else. */
  lemma UnpackExactly(entries: seq<TarEntry>)
    requires Fitting(entries, map[]) && Unpack(entries, map[]).Ok?
    ensures var fm := Unpack(entries, map[]).value;
            && (forall p :: p in fm <==> AddedSome(entries, p))
            && forall i, p {:trigger AddsAt(entries[i], p)} :: 0 <= i < |entries| && AddsAt(entries[i], p) ==> Carries(fm, p, entries[i])
  {
    forall p ensures p in Unpack(entries, map[]).value <==> AddedSome(entries, p) { UnpackKeys(entries, map[], p); }
    forall i, p | 0 <= i < |entries| && AddsAt(entries[i], p) ensures Carries(Unpack(entries, map[]).value, p, entries[i]) {
      UnpackValue(entries, map[], i, p);
    }
  }

  lemma DropNext<T>(s: seq<T>, i: nat)
    requires i < |s|
    ensures s[i..][0] == s[i] && s[i..][1..] == s[i + 1..] && s[i..] != []
  {
  }

  /** Whether reading panics, when the paths `before` have been added already. */
  ghost predicate TripsOver(entries: seq<TarEntry>, before: seq<Path>) {
    if entries == [] then false
    else if entries[0].kind != Regular then TripsOver(entries[1..], before)
    else if Accepted(entries[0].name).Err? then false
    else
      var p := SplitSlash(Accepted(entries[0].name).value);
      Trips(before, p) || TripsOver(entries[1..], before + [p])
  }

  /** The paths of the files of an archive, up to the first bad name. */
  ghost function PathsOf(entries: seq<TarEntry>): seq<Path> {
    if entries == [] then []
    else if entries[0].kind != Regular then PathsOf(entries[1..])
    else if Accepted(entries[0].name).Err? then []
    else [SplitSlash(Accepted(entries[0].name).value)] + PathsOf(entries[1..])
  }

  ghost predicate TripsAt(before: seq<Path>, ps: seq<Path>, i: nat) {
    i < |ps| && Trips(before + ps[..i], ps[i])
  }

  ghost predicate SomeTrip(before: seq<Path>, ps: seq<Path>) {
    exists i: nat :: TripsAt(before, ps, i)
  }

  lemma SomeTripNext(before: seq<Path>, p: Path, rest: seq<Path>)
    ensures SomeTrip(before, [p] + rest) <==> Trips(before, p) || SomeTrip(before + [p], rest)
  {
    var ps := [p] + rest;
    assert before + ps[..0] == before;
    assert Trips(before, p) ==> TripsAt(before, ps, 0);
    forall i: nat | i < |rest| ensures TripsAt(before, ps, i + 1) <==> TripsAt(before + [p], rest, i) {
      assert before + [p] + rest[..i] == before + ps[..i + 1];
    }
    if SomeTrip(before, ps) {
      var i: nat :| TripsAt(before, ps, i);
      assert i > 0 ==> TripsAt(before + [p], rest, i - 1);
    }
  }

  /** Reading panics exactly when, before any bad name, there is a path of three components or more and
      the first path in the archive with its first component is that component alone. */
  lemma {:induction false} TripsExactly(entries: seq<TarEntry>, before: seq<Path>)
    ensures TripsOver(entries, before) <==> SomeTrip(before, PathsOf(entries))
  {
    if entries != [] {
      if entries[0].kind != Regular {
        TripsExactly(entries[1..], before);
      } else if Accepted(entries[0].name).Ok? {
        var p := SplitSlash(Accepted(entries[0].name).value);
        TripsExactly(entries[1..], before + [p]);
        SomeTripNext(before, p, PathsOf(entries[1..]));
      }
    }
  }

  /** The loop of LoadArchive, for any entries: it stops at the first bad name, or at the first path
      that makes the tree panic. */
  method ReadEntries(entries: seq<TarEntry>) returns (tree: Tree, failed: bool, panics: bool)
    ensures panics <==> TripsOver(entries, [])
    ensures !panics ==> (failed <==> Unpack(entries, map[]).Err?)
    ensures Fitting(entries, map[]) ==> !panics && (!failed ==> tree.Valid() && Unpack(entries, map[]) == Ok(tree.Files()))
  {
    tree := new Tree("");
    ghost var fm: FileMap := map[];
    for i := 0 to |entries|
      invariant tree.Tracked() && fresh(tree) && forall n :: n in tree.nodes ==> fresh(n)
      invariant TripsOver(entries[i..], tree.added) == TripsOver(entries, [])
      invariant Unpack(entries[i..], fm) == Unpack(entries, map[])
      invariant Fitting(entries, map[]) ==> Fitting(entries[i..], fm) && tree.Valid() && tree.Files() == fm
    {
      DropNext(entries, i);
      if entries[i].kind != Regular { continue; }
      var name := Accepted(entries[i].name);
      if name.Err? { return tree, true, false; }
      AcceptedIsProper(entries[i].name);
      ghost var p := SplitSlash(name.value);
      panics := AddEntry(tree, name.value, entries[i].body, p);
      if panics { return tree, false, true; }
      fm := fm[p := StripBOM(entries[i].body)];
    }
    assert entries[|entries|..] == [];
    return tree, false, false;
  }

  /** An entry becomes a file of the tree, without a byte-order mark. */
  method AddEntry(tree: Tree, name: string, body: Bytes, ghost p: Path) returns (panics: bool)
    requires tree.Tracked() && p != [] && Parts(p) && name == Join(p)
    modifies tree, tree.nodes
    ensures panics <==> Trips(old(tree.added), p)
    ensures !panics ==> tree.Tracked() && tree.added == old(tree.added) + [p]
    ensures old(tree.Valid() && Fits(tree.Files(), p)) ==>
              !panics && tree.Valid() && tree.Files() == old(tree.Files())[p := StripBOM(body)]
    ensures forall n :: n in tree.nodes ==> n in old(tree.nodes) || fresh(n)
  {
    var f := new TarFile(name, false, StripBOM(body));
    panics := tree.AddFile(f, p);
  }

  /** Some number bounds the length of every path. */
  lemma {:induction false} SomeBound(fm: FileMap) returns (depth: nat)
    ensures Loader.Bounded(fm, depth)
  {
    if fm == map[] {
      depth := 0;
    } else {
      var p :| p in fm;
      depth := SomeBound(fm - {p});
      depth := if depth < |p| then |p| else depth;
    }
  }

  /** LoadArchive, for archives in which no path repeats and none is a directory of another. */
  method LoadArchive(entries: seq<TarEntry>) returns (r: Result<Manifest>, panics: bool)
    requires Fitting(entries, map[])
    ensures match Unpack(entries, map[])
            case Err => r == Err && !panics
            case Ok(fm) => Proper(fm) && (panics <==> IsDir(fm, [MAIN])) && (!panics ==> r == Load(fm, MAIN))
  {
    var tree, failed, tripped := ReadEntries(entries);
    if failed { return Err, false; }
    FilesProper(tree.lists, tree.dirs, tree.leaves);
    SubAll(tree.Files());
    MainPart();
    ghost var depth := SomeBound(tree.Files());
    r, panics := Loader.LoadFS(tree, "", MAIN, [], tree.Files(), depth);
  }

  lemma MainPart()
    ensures Part(MAIN)
  {
  }
}
