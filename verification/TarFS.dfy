/** The in-memory file tree (manifest/tarfs.go). */
module TarFS {
  import opened Base
  import opened Paths
  import Sorting

  type Bytes = seq<byte>

  /** A directory node is named by its last component, a file node by its whole path. */
  class TarFile {
    const name: string
    const dir: bool
    const contents: Bytes
    var files: seq<TarFile>

    constructor (name: string, dir: bool, contents: Bytes)
      ensures this.name == name && this.dir == dir && this.contents == contents && files == []
    {
      this.name, this.dir, this.contents, files := name, dir, contents, [];
    }
  }

  /** tarFile.Name. */
  function BaseName(f: TarFile): string {
    FileOf(f.name)
  }

  type Nodes = map<Path, TarFile>
  type Lists = map<Path, seq<TarFile>>

  function Parent(p: Path): Path
    requires p != []
  {
    p[..|p| - 1]
  }

  function Last(p: Path): string
    requires p != []
  {
    p[|p| - 1]
  }

  ghost predicate DirNode(lists: Lists, dirs: Nodes, d: Path)
    requires d in dirs
  {
    && d != [] && Parts(d) && Parent(d) in lists
    && dirs[d].dir && dirs[d].name == Last(d) && dirs[d] in lists[Parent(d)]
  }

  ghost predicate LeafNode(lists: Lists, leaves: Nodes, p: Path)
    requires p in leaves
  {
    && p != [] && Parts(p) && Parent(p) in lists
    && !leaves[p].dir && leaves[p].name == Join(p) && leaves[p] in lists[Parent(p)]
  }

  ghost predicate ChildNode(dirs: Nodes, leaves: Nodes, d: Path, n: TarFile) {
    var p := d + [BaseName(n)];
    if n.dir then p in dirs && dirs[p] == n else p in leaves && leaves[p] == n
  }

  ghost predicate DirNodes(lists: Lists, dirs: Nodes) {
    forall d {:trigger DirNode(lists, dirs, d)} :: d in dirs ==> DirNode(lists, dirs, d)
  }

  ghost predicate LeafNodes(lists: Lists, leaves: Nodes) {
    forall p {:trigger LeafNode(lists, leaves, p)} :: p in leaves ==> LeafNode(lists, leaves, p)
  }

  ghost predicate ChildNodes(lists: Lists, dirs: Nodes, leaves: Nodes) {
    forall d, n {:trigger ChildNode(dirs, leaves, d, n)} :: d in lists && n in lists[d] ==> ChildNode(dirs, leaves, d, n)
  }

  /** No two entries of a list have the same base name. */
  ghost predicate DistinctBases(files: seq<TarFile>) {
    forall i, j :: 0 <= i < j < |files| ==> BaseName(files[i]) != BaseName(files[j])
  }

  ghost predicate Injective(dirs: Nodes) {
    forall d, e :: d in dirs && e in dirs && dirs[d] == dirs[e] ==> d == e
  }

  /** The tree as values: the list of each directory (the root is []), and the nodes by path. */
  ghost predicate Shape(lists: Lists, dirs: Nodes, leaves: Nodes) {
    && lists.Keys == dirs.Keys + {[]} && [] !in dirs && [] !in leaves && dirs.Keys !! leaves.Keys
    && DirNodes(lists, dirs) && LeafNodes(lists, leaves) && ChildNodes(lists, dirs, leaves)
    && (forall d {:trigger DistinctBases(lists[d])} :: d in lists ==> DistinctBases(lists[d]))
    && Injective(dirs)
  }

  lemma DirBase(lists: Lists, dirs: Nodes, leaves: Nodes, d: Path)
    requires Shape(lists, dirs, leaves) && d in dirs
    ensures BaseName(dirs[d]) == Last(d) && d == Parent(d) + [Last(d)]
  {
    assert DirNode(lists, dirs, d);
    assert Part(Last(d));
    PartIsFile(Last(d));
  }

  lemma PartIsFile(c: string)
    requires NoSlash(c)
    ensures FileOf(c) == c
  {
    SplitLastAt("", c);
    assert "" + c == c;
  }

  lemma LeafBase(lists: Lists, dirs: Nodes, leaves: Nodes, p: Path)
    requires Shape(lists, dirs, leaves) && p in leaves
    ensures BaseName(leaves[p]) == Last(p) && p == Parent(p) + [Last(p)]
  {
    assert LeafNode(lists, leaves, p);
    SplitPartsJoin(p);
  }

  /** No child of `d` has the base name of a path that is not in the tree. */
  lemma NoSuchChild(lists: Lists, dirs: Nodes, leaves: Nodes, d: Path, c: string)
    requires Shape(lists, dirs, leaves) && d in lists && d + [c] !in dirs && d + [c] !in leaves
    ensures forall n :: n in lists[d] ==> BaseName(n) != c
  {
    forall n | n in lists[d] ensures BaseName(n) != c { assert ChildNode(dirs, leaves, d, n); }
  }

  /** `after` is `before` with `n` appended to the list of `d`, and perhaps new empty lists. */
  ghost predicate Extends(before: Lists, after: Lists, d: Path, n: TarFile) {
    && d in before && before.Keys <= after.Keys
    && forall e :: e in after ==> after[e] == if e == d then before[d] + [n] else if e in before then before[e] else []
  }

  ghost predicate Includes(more: Nodes, nodes: Nodes) {
    forall p :: p in nodes ==> p in more && more[p] == nodes[p]
  }

  /** Appending a child to one list keeps the nodes in place. */
  lemma NodesKept(lists: Lists, dirs: Nodes, leaves: Nodes, d: Path, n: TarFile, lists': Lists)
    requires Extends(lists, lists', d, n) && DirNodes(lists, dirs) && LeafNodes(lists, leaves)
    ensures DirNodes(lists', dirs) && LeafNodes(lists', leaves)
  {
    forall e | e in dirs ensures DirNode(lists', dirs, e) { assert DirNode(lists, dirs, e); }
    forall p | p in leaves ensures LeafNode(lists', leaves, p) { assert LeafNode(lists, leaves, p); }
  }

  lemma ChildrenKept(lists: Lists, dirs: Nodes, leaves: Nodes, d: Path, n: TarFile, lists': Lists, dirs': Nodes, leaves': Nodes)
    requires Extends(lists, lists', d, n) && ChildNodes(lists, dirs, leaves) && ChildNode(dirs', leaves', d, n)
    requires Includes(dirs', dirs) && Includes(leaves', leaves)
    ensures ChildNodes(lists', dirs', leaves')
  {
    forall e, m | e in lists' && m in lists'[e] ensures ChildNode(dirs', leaves', e, m) {
      if e in lists && m in lists[e] { assert ChildNode(dirs, leaves, e, m); } else { assert e == d && m == n; }
    }
  }

  lemma DistinctAppend(files: seq<TarFile>, n: TarFile)
    requires DistinctBases(files) && forall m :: m in files ==> BaseName(m) != BaseName(n)
    ensures DistinctBases(files + [n])
  {
    var longer := files + [n];
    forall i, j | 0 <= i < j < |longer| ensures BaseName(longer[i]) != BaseName(longer[j]) {
      if j == |files| { assert files[i] in files; }
    }
  }

  lemma BasesKept(lists: Lists, d: Path, n: TarFile, lists': Lists)
    requires Extends(lists, lists', d, n) && forall m :: m in lists[d] ==> BaseName(m) != BaseName(n)
    requires forall e {:trigger DistinctBases(lists[e])} :: e in lists ==> DistinctBases(lists[e])
    ensures forall e {:trigger DistinctBases(lists'[e])} :: e in lists' ==> DistinctBases(lists'[e])
  {
    forall e | e in lists' ensures DistinctBases(lists'[e]) {
      if e == d {
        assert DistinctBases(lists[d]);
        DistinctAppend(lists[d], n);
      } else if e in lists {
        assert DistinctBases(lists[e]);
      }
    }
  }

  ghost function WithChild(lists: Lists, d: Path, n: TarFile): Lists
    requires d in lists
  {
    lists[d := lists[d] + [n]]
  }

  lemma ShapeAddDir(lists: Lists, dirs: Nodes, leaves: Nodes, d: Path, n: TarFile)
    requires Shape(lists, dirs, leaves) && d in lists && Parts(d) && Part(n.name) && n.dir
    requires d + [n.name] !in dirs && d + [n.name] !in leaves
    requires forall e :: e in dirs ==> dirs[e] != n
    ensures Shape(WithChild(lists, d, n)[d + [n.name] := []], dirs[d + [n.name] := n], leaves)
  {
    var q := d + [n.name];
    var lists', dirs' := WithChild(lists, d, n)[q := []], dirs[q := n];
    PartIsFile(n.name);
    NoSuchChild(lists, dirs, leaves, d, n.name);
    assert q != d && Parent(q) == d && Last(q) == n.name && q !in lists;
    NodesKept(lists, dirs, leaves, d, n, lists');
    ChildrenKept(lists, dirs, leaves, d, n, lists', dirs', leaves);
    BasesKept(lists, d, n, lists');
    DirsAdd(lists', dirs, q, n);
  }

  lemma DirsAdd(lists: Lists, dirs: Nodes, q: Path, n: TarFile)
    requires DirNodes(lists, dirs) && Injective(dirs) && q !in dirs
    requires forall e :: e in dirs ==> dirs[e] != n
    requires q != [] && Parts(q) && Parent(q) in lists && n.dir && n.name == Last(q) && n in lists[Parent(q)]
    ensures DirNodes(lists, dirs[q := n]) && Injective(dirs[q := n])
  {
    var dirs' := dirs[q := n];
    forall e | e in dirs' ensures DirNode(lists, dirs', e) {
      if e != q { assert DirNode(lists, dirs, e); }
    }
  }

  lemma ShapeAddLeaf(lists: Lists, dirs: Nodes, leaves: Nodes, p: Path, n: TarFile)
    requires Shape(lists, dirs, leaves) && p != [] && Parts(p) && Parent(p) in lists
    requires p !in dirs && p !in leaves && n.name == Join(p) && !n.dir
    ensures Shape(WithChild(lists, Parent(p), n), dirs, leaves[p := n])
  {
    var d := Parent(p);
    var lists', leaves' := WithChild(lists, d, n), leaves[p := n];
    LastApart(p);
    SplitPartsJoin(p);
    NoSuchChild(lists, dirs, leaves, d, Last(p));
    NodesKept(lists, dirs, leaves, d, n, lists');
    assert ChildNode(dirs, leaves', d, n);
    ChildrenKept(lists, dirs, leaves, d, n, lists', dirs, leaves');
    BasesKept(lists, d, n, lists');
    LeavesAdd(lists', leaves, p, n);
  }

  lemma LeavesAdd(lists: Lists, leaves: Nodes, p: Path, n: TarFile)
    requires LeafNodes(lists, leaves) && p !in leaves
    requires p != [] && Parts(p) && Parent(p) in lists && !n.dir && n.name == Join(p) && n in lists[Parent(p)]
    ensures LeafNodes(lists, leaves[p := n])
  {
    var leaves' := leaves[p := n];
    forall q | q in leaves' ensures LeafNode(lists, leaves', q) {
      if q != p { assert LeafNode(lists, leaves, q); }
    }
  }

  ghost predicate DirsLinked(root: seq<TarFile>, lists: Lists, dirs: Nodes, nodes: set<TarFile>)
    reads nodes
  {
    && [] in lists && lists[[]] == root
    && forall d :: d in dirs ==> d in lists && dirs[d] in nodes && dirs[d].files == lists[d]
  }

  ghost predicate LeavesLinked(leaves: Nodes, nodes: set<TarFile>)
    reads nodes
  {
    forall p :: p in leaves ==> leaves[p] in nodes && leaves[p].files == []
  }

  /** The nodes on the heap hold the lists of the tree; a file has none. */
  ghost predicate Linked(root: seq<TarFile>, lists: Lists, dirs: Nodes, leaves: Nodes, nodes: set<TarFile>)
    reads nodes
  {
    DirsLinked(root, lists, dirs, nodes) && LeavesLinked(leaves, nodes)
  }

  // ---- Trees to which anything was added -------------------------------------------------------

  /** Below the root, a file has a slash in its name, so no component of a path is its name. */
  ghost predicate LooseChild(dirs: Nodes, plain: set<TarFile>, d: Path, n: TarFile) {
    if n.dir then d + [n.name] in dirs && dirs[d + [n.name]] == n
    else n in plain && (d == [] || '/' in n.name)
  }

  ghost predicate LooseChildren(lists: Lists, dirs: Nodes, plain: set<TarFile>) {
    forall d, n {:trigger LooseChild(dirs, plain, d, n)} :: d in lists && n in lists[d] ==> LooseChild(dirs, plain, d, n)
  }

  /** Files may repeat, or stand beside a directory of their name. */
  ghost predicate LooseShape(lists: Lists, dirs: Nodes, plain: set<TarFile>) {
    && lists.Keys == dirs.Keys + {[]} && [] !in dirs
    && DirNodes(lists, dirs) && LooseChildren(lists, dirs, plain) && Injective(dirs)
  }

  predicate LongNames(files: seq<TarFile>) {
    forall n :: n in files ==> !n.dir && '/' in n.name
  }

  /** A file can get files of its own: those added below it. */
  ghost predicate PlainLinked(plain: set<TarFile>, nodes: set<TarFile>)
    reads nodes
  {
    forall n :: n in plain ==> n in nodes && !n.dir && LongNames(n.files)
  }

  ghost predicate LooselyLinked(root: seq<TarFile>, lists: Lists, dirs: Nodes, plain: set<TarFile>, nodes: set<TarFile>)
    reads nodes
  {
    LooseShape(lists, dirs, plain) && DirsLinked(root, lists, dirs, nodes) && PlainLinked(plain, nodes)
  }

  lemma LooseByName(lists: Lists, dirs: Nodes, plain: set<TarFile>, d: Path, c: string)
    requires LooseShape(lists, dirs, plain) && d in lists
    ensures d + [c] in dirs ==> dirs[d + [c]] in lists[d] && dirs[d + [c]].name == c && dirs[d + [c]].dir
    ensures forall n :: n in lists[d] && n.name == c && n.dir ==> d + [c] in dirs && dirs[d + [c]] == n
    ensures forall n :: n in lists[d] && n.name == c && !n.dir ==> n in plain && (d == [] || '/' in c)
  {
    if d + [c] in dirs {
      assert DirNode(lists, dirs, d + [c]);
      assert Parent(d + [c]) == d;
    }
    forall n | n in lists[d] && n.name == c ensures LooseChild(dirs, plain, d, n) {}
  }

  lemma LooseAddDir(lists: Lists, dirs: Nodes, plain: set<TarFile>, d: Path, n: TarFile)
    requires LooseShape(lists, dirs, plain) && d in lists && Parts(d) && Part(n.name) && n.dir
    requires d + [n.name] !in dirs && forall e :: e in dirs ==> dirs[e] != n
    ensures LooseShape(WithChild(lists, d, n)[d + [n.name] := []], dirs[d + [n.name] := n], plain)
  {
    var q := d + [n.name];
    var lists', dirs' := WithChild(lists, d, n)[q := []], dirs[q := n];
    assert q != d && Parent(q) == d && Last(q) == n.name && q !in lists;
    DirsKept(lists, dirs, d, n, lists');
    DirsAdd(lists', dirs, q, n);
    forall e, m | e in lists' && m in lists'[e] ensures LooseChild(dirs', plain, e, m) {
      if e in lists && m in lists[e] { assert LooseChild(dirs, plain, e, m); } else { assert e == d && m == n; }
    }
  }

  lemma DirsKept(lists: Lists, dirs: Nodes, d: Path, n: TarFile, lists': Lists)
    requires Extends(lists, lists', d, n) && DirNodes(lists, dirs)
    ensures DirNodes(lists', dirs)
  {
    forall e | e in dirs ensures DirNode(lists', dirs, e) { assert DirNode(lists, dirs, e); }
  }

  lemma LooseAddFile(lists: Lists, dirs: Nodes, plain: set<TarFile>, d: Path, n: TarFile)
    requires LooseShape(lists, dirs, plain) && d in lists && !n.dir && (d == [] || '/' in n.name)
    ensures LooseShape(WithChild(lists, d, n), dirs, plain + {n})
  {
    var lists' := WithChild(lists, d, n);
    DirsKept(lists, dirs, d, n, lists');
    forall e, m | e in lists' && m in lists'[e] ensures LooseChild(dirs, plain + {n}, e, m) {
      if e in lists && m in lists[e] { assert LooseChild(dirs, plain, e, m); } else { assert e == d && m == n; }
    }
  }

  /** The first entry of a given name. */
  function FirstNamed(files: seq<TarFile>, name: string): (r: Option<TarFile>)
    ensures r.Some? ==> r.value in files && r.value.name == name
    ensures r.None? ==> forall g :: g in files ==> g.name != name
  {
    if files == [] then None
    else if files[0].name == name then Some(files[0])
    else FirstNamed(files[1..], name)
  }

  lemma {:induction false} FirstOfMore(files: seq<TarFile>, n: TarFile, name: string)
    ensures FirstNamed(files + [n], name)
         == if FirstNamed(files, name).Some? then FirstNamed(files, name) else if n.name == name then Some(n) else None
  {
    if files == [] {
      assert [] + [n] == [n] && [n][1..] == [];
    } else {
      assert (files + [n])[1..] == files[1..] + [n];
      FirstOfMore(files[1..], n, name);
    }
  }

  method FindNamed(files: seq<TarFile>, name: string) returns (found: bool, f: TarFile?)
    ensures found <==> FirstNamed(files, name).Some?
    ensures found ==> f != null && FirstNamed(files, name) == Some(f)
  {
    for i := 0 to |files|
      invariant FirstNamed(files, name) == FirstNamed(files[i..], name)
    {
      assert files[i..][0] == files[i] && files[i..][1..] == files[i + 1..];
      if files[i].name == name { return true, files[i]; }
    }
    return false, null;
  }

  /** The first entry of that name at the top is a file. */
  predicate Shadowed(files: seq<TarFile>, c: string) {
    FirstNamed(files, c).Some? && !FirstNamed(files, c).value.dir
  }

  /** The first path with a given first component. */
  function FirstWith(paths: seq<Path>, c: string): (r: Option<Path>)
    ensures r.Some? ==> r.value in paths && r.value != [] && r.value[0] == c
  {
    if paths == [] then None
    else if paths[0] != [] && paths[0][0] == c then Some(paths[0])
    else FirstWith(paths[1..], c)
  }

  lemma {:induction false} FirstWithMore(paths: seq<Path>, p: Path, c: string)
    ensures FirstWith(paths + [p], c)
         == if FirstWith(paths, c).Some? then FirstWith(paths, c) else if p != [] && p[0] == c then Some(p) else None
  {
    if paths == [] {
      assert [] + [p] == [p] && [p][1..] == [];
    } else {
      assert (paths + [p])[1..] == paths[1..] + [p];
      FirstWithMore(paths[1..], p, c);
    }
  }

  /** What a name at the top leads to was decided by the first path that began with it. */
  ghost predicate Decided(files: seq<TarFile>, added: seq<Path>, c: string) {
    match FirstWith(added, c)
    case None => FirstNamed(files, c).None?
    case Some(q) => FirstNamed(files, c).Some? && (FirstNamed(files, c).value.dir <==> |q| > 1)
  }

  ghost predicate AllDecided(files: seq<TarFile>, added: seq<Path>) {
    forall c :: Decided(files, added, c)
  }

  /** A path of three components or more, under a name that a file has taken. */
  predicate Trips(added: seq<Path>, p: Path) {
    |p| > 2 && FirstWith(added, p[0]).Some? && |FirstWith(added, p[0]).value| == 1
  }

  /** The list at the top after ensureDirs. */
  ghost predicate Opened(before: seq<TarFile>, after: seq<TarFile>, p: Path) {
    || after == before
    || (|p| > 1 && after != [] && after == before + [after[|after| - 1]] && after[|after| - 1].dir && after[|after| - 1].name == p[0])
  }

  lemma OpenedFirst(before: seq<TarFile>, after: seq<TarFile>, p: Path, c: string)
    requires Opened(before, after, p)
    ensures FirstNamed(before, c).Some? ==> FirstNamed(after, c) == FirstNamed(before, c)
    ensures FirstNamed(before, c).None? ==>
              FirstNamed(after, c).None? || (|p| > 1 && c == p[0] && FirstNamed(after, c).value.dir)
  {
    if after != before { FirstOfMore(before, after[|after| - 1], c); }
  }

  /** After a path was added the top is decided for it, too. */
  lemma DecidedNext(before: seq<TarFile>, after: seq<TarFile>, added: seq<Path>, p: Path, f: TarFile)
    requires AllDecided(before, added) && p != [] && Opened(before, after, p) && !f.dir
    requires |p| > 1 ==> FirstNamed(after, p[0]).Some?
    requires |p| == 1 ==> f.name == p[0]
    ensures AllDecided(if |p| == 1 then after + [f] else after, added + [p])
  {
    var top, now := if |p| == 1 then after + [f] else after, added + [p];
    forall c ensures Decided(top, now, c) {
      assert Decided(before, added, c);
      FirstWithMore(added, p, c);
      OpenedFirst(before, after, p, c);
      FirstOfMore(after, f, c);
    }
  }

  method FindDir(files: seq<TarFile>, name: string) returns (found: bool, f: TarFile?)
    ensures found ==> f != null && f in files && f.name == name && f.dir
    ensures !found ==> forall g :: g in files && g.dir ==> g.name != name
  {
    for i := 0 to |files|
      invariant forall j :: 0 <= j < i ==> !(files[j].name == name && files[j].dir)
    {
      if files[i].name == name && files[i].dir { return true, files[i]; }
    }
    return false, null;
  }

  /** Which child of a directory has a given component as its whole name. */
  lemma ChildByName(lists: Lists, dirs: Nodes, leaves: Nodes, d: Path, c: string)
    requires Shape(lists, dirs, leaves) && d in lists && Part(c)
    ensures forall n :: n in lists[d] && n.name == c ==>
              if n.dir then d + [c] in dirs && dirs[d + [c]] == n else d == [] && [c] in leaves && leaves[[c]] == n
    ensures d + [c] in dirs ==> dirs[d + [c]] in lists[d] && dirs[d + [c]].name == c
  {
    PartIsFile(c);
    forall n | n in lists[d] && n.name == c
      ensures if n.dir then d + [c] in dirs && dirs[d + [c]] == n else d == [] && [c] in leaves && leaves[[c]] == n {
      assert ChildNode(dirs, leaves, d, n);
      if !n.dir {
        var p := d + [c];
        assert LeafNode(lists, leaves, p);
        if d != [] { JoinAppend(d, [c]); }
      }
    }
    if d + [c] in dirs {
      assert DirNode(lists, dirs, d + [c]);
      assert Parent(d + [c]) == d;
    }
  }

  /** Which child of a directory has a given base name. */
  lemma ChildByBase(lists: Lists, dirs: Nodes, leaves: Nodes, d: Path, c: string)
    requires Shape(lists, dirs, leaves) && d in lists
    ensures forall n :: n in lists[d] && BaseName(n) == c ==>
              if n.dir then d + [c] in dirs && dirs[d + [c]] == n else d + [c] in leaves && leaves[d + [c]] == n
    ensures d + [c] in dirs ==> dirs[d + [c]] in lists[d] && BaseName(dirs[d + [c]]) == c
    ensures d + [c] in leaves ==> leaves[d + [c]] in lists[d] && BaseName(leaves[d + [c]]) == c
  {
    var p := d + [c];
    forall n | n in lists[d] && BaseName(n) == c ensures ChildNode(dirs, leaves, d, n) {}
    assert Parent(p) == d && Last(p) == c;
    if p in dirs { assert DirNode(lists, dirs, p); DirBase(lists, dirs, leaves, p); }
    if p in leaves { assert LeafNode(lists, leaves, p); LeafBase(lists, dirs, leaves, p); }
  }

  /** The plain map a tree stands for: the contents of each file by path. */
  type FileMap = map<Path, Bytes>

  ghost function FilesOf(leaves: Nodes): FileMap {
    map p | p in leaves :: leaves[p].contents
  }

  /** `d` is a proper prefix of `q`. */
  ghost predicate Above(d: Path, q: Path) {
    d < q
  }

  /** The directories a map of files implies. */
  ghost predicate IsDir(fm: FileMap, d: Path) {
    exists q :: q in fm && Above(d, q)
  }

  /** Relative, clean, and no file is a directory too. */
  ghost predicate Proper(fm: FileMap) {
    forall p :: p in fm ==> p != [] && Parts(p) && !IsDir(fm, p)
  }

  /** A path that can be added: new, and no file is a directory. */
  ghost predicate Fits(fm: FileMap, p: Path) {
    p !in fm && !IsDir(fm, p) && forall k :: 0 < k < |p| ==> p[..k] !in fm
  }

  /** Directories stand above files only. */
  ghost predicate Grounded(dirs: Nodes, leaves: Nodes) {
    forall d :: d in dirs ==> IsDir(FilesOf(leaves), d)
  }

  /** The nodes of a tree are exactly the files of the map and the directories above them. */
  lemma DirsExactly(lists: Lists, dirs: Nodes, leaves: Nodes, d: Path)
    requires Shape(lists, dirs, leaves) && Grounded(dirs, leaves) && d != []
    ensures d in dirs <==> IsDir(FilesOf(leaves), d)
  {
    if IsDir(FilesOf(leaves), d) {
      var q :| q in FilesOf(leaves) && Above(d, q);
      assert LeafNode(lists, leaves, q);
      assert Parent(q)[..|d|] == d;
      Prefixes(lists, dirs, Parent(q), |d|);
    }
  }

  lemma FilesProper(lists: Lists, dirs: Nodes, leaves: Nodes)
    requires Shape(lists, dirs, leaves) && Grounded(dirs, leaves)
    ensures Proper(FilesOf(leaves))
  {
    forall p | p in leaves ensures p != [] && Parts(p) && !IsDir(FilesOf(leaves), p) {
      assert LeafNode(lists, leaves, p);
      DirsExactly(lists, dirs, leaves, p);
    }
  }

  /** What a node says about a path of the map. */
  ghost predicate Entry(fm: FileMap, p: Path, n: TarFile) {
    if n.dir then IsDir(fm, p) else p in fm && n.contents == fm[p]
  }

  /** What the entries read from a directory say: each child of the map, by name. */
  ghost predicate Listing(res: seq<TarFile>, fm: FileMap, d: Path) {
    && (forall n :: n in res ==> Entry(fm, d + [BaseName(n)], n))
    && (forall q :: q in fm && Above(d, q) ==> exists n :: n in res && BaseName(n) == q[|d|])
  }

  /** The entries of a directory are its children in the map. */
  lemma Children(lists: Lists, dirs: Nodes, leaves: Nodes, d: Path)
    requires Shape(lists, dirs, leaves) && Grounded(dirs, leaves) && d in dirs
    ensures Listing(lists[d], FilesOf(leaves), d)
  {
    forall n | n in lists[d] ensures Entry(FilesOf(leaves), d + [BaseName(n)], n) {
      assert ChildNode(dirs, leaves, d, n);
    }
    forall q | q in leaves && Above(d, q) ensures exists n :: n in lists[d] && BaseName(n) == q[|d|] {
      var c := q[..|d| + 1];
      assert c == d + [q[|d|]];
      if c != q {
        assert Above(c, q) && q in FilesOf(leaves);
        DirsExactly(lists, dirs, leaves, c);
      }
      ChildByBase(lists, dirs, leaves, d, q[|d|]);
    }
  }

  /** A directory's list as ReadDir returns it. */
  function Sorted(files: seq<TarFile>): seq<TarFile> {
    Sorting.Sort(files, BaseName)
  }

  lemma SortedBases(files: seq<TarFile>)
    requires DistinctBases(files)
    ensures Sorting.Increasing(Sorted(files), BaseName) && multiset(Sorted(files)) == multiset(files)
  {
    Sorting.SortSorts<TarFile>(files, BaseName);
  }

  lemma Relisted(res: seq<TarFile>, files: seq<TarFile>, fm: FileMap, d: Path)
    requires Listing(files, fm, d) && multiset(res) == multiset(files)
    ensures Listing(res, fm, d)
  {
    SameMembers(res, files);
    forall q | q in fm && Above(d, q) ensures exists n :: n in res && BaseName(n) == q[|d|] {
      var n :| n in files && BaseName(n) == q[|d|];
      assert n in res;
    }
  }

  lemma SortedChildren(lists: Lists, dirs: Nodes, leaves: Nodes, d: Path)
    requires Shape(lists, dirs, leaves) && Grounded(dirs, leaves) && d in dirs
    ensures Sorting.Increasing(Sorted(lists[d]), BaseName) && Listing(Sorted(lists[d]), FilesOf(leaves), d)
  {
    assert DistinctBases(lists[d]);
    SortedBases(lists[d]);
    Children(lists, dirs, leaves, d);
    Relisted(Sorted(lists[d]), lists[d], FilesOf(leaves), d);
  }

  class Tree {
    const root: string
    var files: seq<TarFile>
    ghost var lists: Lists
    ghost var dirs: Nodes
    ghost var leaves: Nodes
    ghost var nodes: set<TarFile>
    ghost var plain: set<TarFile>
    ghost var added: seq<Path>

    /** What holds whatever was added. */
    ghost predicate Loose()
      reads this, nodes
    {
      LooselyLinked(files, lists, dirs, plain, nodes)
    }

    /** The same, and the paths added so far say what stands at the top. */
    ghost predicate Tracked()
      reads this, nodes
    {
      Loose() && AllDecided(files, added)
    }

    /** The tree is well formed. */
    ghost predicate Shaped()
      reads this, nodes
    {
      Shape(lists, dirs, leaves) && Linked(files, lists, dirs, leaves, nodes)
    }

    ghost predicate Valid()
      reads this, nodes
    {
      Shaped() && Grounded(dirs, leaves) && plain == leaves.Values
    }

    /** The map of paths to contents that the tree refines. */
    ghost function Files(): FileMap
      reads this
    {
      FilesOf(leaves)
    }

    constructor (root: string)
      ensures Valid() && Tracked() && Files() == map[] && nodes == {} && added == []
    {
      this.root, files := root, [];
      lists, dirs, leaves, nodes := map[[] := []], map[], map[], {};
      plain, added := {}, [];
    }

    /** lookupDir: the node that holds the directory part of a path, or nil for the root. It does not
        check that what it finds is a directory, and goes no further than a file at the top. */
    method LookupDir(name: string, ghost p: Path) returns (node: TarFile?, ok: bool)
      requires Loose() && p != [] && Parts(p) && name == Join(p)
      ensures Parent(p) == [] ==> ok && node == null
      ensures Parent(p) != [] && Shadowed(files, p[0]) ==>
                (ok <==> |p| == 2) && (ok ==> node != null && FirstNamed(files, p[0]) == Some(node))
      ensures Parent(p) != [] && !Shadowed(files, p[0]) ==>
                (ok <==> Parent(p) in dirs) && (ok ==> node == dirs[Parent(p)])
    {
      var (parts, _) := SplitParts(name);
      SplitPartsJoin(p);
      assert parts == Parent(p);
      node := null;
      var currFiles := files;
      for i := 0 to |parts|
        invariant i == 0 ==> node == null && currFiles == files
        invariant i > 0 ==> node != null && WalkAt(node, currFiles, p, i)
      {
        assert Part(p[i]) && parts[i] == p[i];
        assert parts[..i + 1] == p[..i + 1] == p[..i] + [p[i]];
        var found, f := FindNamed(currFiles, parts[i]);
        WalkNext(currFiles, p, i, if i == 0 then null else node);
        if !found { return null, false; }
        node := f;
        currFiles := f.files;
      }
      assert |parts| > 0 ==> p[..|parts|] == parts;
      return node, true;
    }

    /** Where lookupDir is after `i` components. */
    ghost predicate WalkAt(node: TarFile, currFiles: seq<TarFile>, p: Path, i: nat)
      requires 0 < i <= |p|
      reads this, nodes
    {
      if Shadowed(files, p[0]) then i == 1 && FirstNamed(files, p[0]) == Some(node) && LongNames(currFiles)
      else p[..i] in dirs && node == dirs[p[..i]] && p[..i] in lists && currFiles == lists[p[..i]]
    }

    /** One round of lookupDir. */
    lemma WalkNext(currFiles: seq<TarFile>, p: Path, i: nat, node: TarFile?)
      requires Loose() && Parts(p) && i < |p| - 1 && p[..i + 1] == p[..i] + [p[i]]
      requires if i == 0 then currFiles == files else node != null && WalkAt(node, currFiles, p, i)
      ensures var r := FirstNamed(currFiles, p[i]);
              if r.Some? then r.value in nodes && WalkAt(r.value, r.value.files, p, i + 1)
              else if Shadowed(files, p[0]) then |p| > 2 else Parent(p) !in dirs
    {
      var r := FirstNamed(currFiles, p[i]);
      assert Part(p[i]);
      var d := p[..i];
      if i > 0 && Shadowed(files, p[0]) {
      } else {
        assert i == 0 ==> d == [];
        LooseByName(lists, dirs, plain, d, p[i]);
        if r.None? && Parent(p) in dirs {
          assert Parent(p)[..i + 1] == p[..i + 1];
          Prefixes(lists, dirs, Parent(p), i + 1);
          assert false;
        }
      }
    }

    /** lookup: exactly the nodes of the tree are found. */
    method LookupNode(name: string, ghost p: Path) returns (f: TarFile?)
      requires Valid() && p != [] && Parts(p) && name == Join(p)
      ensures p in leaves ==> f == leaves[p] && !leaves[p].dir
      ensures p in dirs ==> f == dirs[p] && dirs[p].dir
      ensures p !in leaves && p !in dirs ==> f == null
    {
      NodeInParent(lists, dirs, leaves, p);
      SplitPartsJoin(p);
      ShapedLoose(lists, dirs, leaves);
      ShadowInShape(lists, dirs, leaves, p[0]);
      if Parent(p) in dirs { Prefixes(lists, dirs, Parent(p), 1); }
      var dir, ok := LookupDir(name, p);
      if !ok { return null; }
      var candidates := files;
      if dir != null { candidates := dir.files; }
      f := FindBase(candidates, FileOf(name));
    }

    /** Open: exactly the files of the map, with their contents, and the directories above them. */
    method Open(name: string, ghost p: Path) returns (f: TarFile?)
      requires Valid() && p != [] && Parts(p) && name == Join(p)
      ensures f != null <==> p in Files() || IsDir(Files(), p)
      ensures f != null ==> Entry(Files(), p, f) && (f.dir <==> IsDir(Files(), p))
    {
      DirsExactly(lists, dirs, leaves, p);
      f := LookupNode(name, p);
    }

    /** ReadDir: every child of a directory once, in increasing order of names. */
    method ReadDir(name: string, ghost p: Path) returns (found: bool, res: seq<TarFile>)
      requires Valid() && p != [] && Parts(p) && name == Join(p)
      ensures found <==> p in Files() || IsDir(Files(), p)
      ensures p in Files() ==> res == []
      ensures Sorting.Increasing(res, BaseName)
      ensures Listing(res, Files(), p)
    {
      DirsExactly(lists, dirs, leaves, p);
      var f := LookupNode(name, p);
      if f == null {
        found, res := false, [];
      } else {
        found, res := true, Sorted(f.files);
      }
      if p in dirs { SortedChildren(lists, dirs, leaves, p); }
    }

    /** AddFile: it panics exactly when the path has three components or more and the first path that
        began with its first component was that component alone. A file that fits is gained by the map. */
    method AddFile(f: TarFile, ghost p: Path) returns (panics: bool)
      requires Tracked() && p != [] && Parts(p)
      requires f.name == Join(p) && !f.dir && f.files == [] && f !in nodes
      modifies this, nodes
      ensures panics <==> Trips(old(added), p)
      ensures !panics ==> Tracked() && added == old(added) + [p]
      ensures old(Valid() && Fits(Files(), p)) ==> !panics && Valid() && Files() == old(Files())[p := f.contents]
      ensures forall n :: n in nodes ==> n in old(nodes) || n == f || fresh(n)
    {
      ghost var strict, before, top := Valid() && Fits(Files(), p), dirs, files;
      EnsureDirs(f.name, p, strict);
      WayMade(top, before.Keys, lists, dirs, plain, added, p);
      if strict {
        Added(lists, before, dirs, leaves, p, f);
        NotShadowed(lists, dirs, leaves, p);
      }
      var nextDir, ok := LookupDir(f.name, p);
      if !ok { return true; }
      ghost var was, kept := lists, leaves;
      DecidedNext(top, files, added, p, f);
      if nextDir == null {
        AppendTop(f, p, strict);
      } else {
        NodeFound(lists, dirs, plain, p, nextDir);
        LongName(p);
        if nextDir.dir { LooseAddFile(lists, dirs, plain, Parent(p), f); }
        AppendBelow(nextDir, f, p, strict);
      }
      if strict { Landed(was, dirs, kept, p, f); }
      return false;
    }

    /** The append of AddFile to the root list. */
    method AppendTop(f: TarFile, ghost p: Path, ghost strict: bool)
      requires Loose() && !f.dir && f.files == [] && f !in nodes && (strict ==> LeavesLinked(leaves, nodes))
      requires AllDecided(files + [f], added + [p])
      modifies this
      ensures Tracked() && added == old(added) + [p] && nodes == old(nodes) + {f}
      ensures dirs == old(dirs) && leaves == old(leaves)[p := f] && (strict ==> LeavesLinked(leaves, nodes))
      ensures [] in old(lists) && lists == WithChild(old(lists), [], f) && plain == old(plain) + {f}
    {
      LooseAddFile(lists, dirs, plain, [], f);
      files := files + [f];
      lists, plain, leaves, nodes, added := WithChild(lists, [], f), plain + {f}, leaves[p := f], nodes + {f}, added + [p];
    }

    /** The append of AddFile to the list of the node found, a directory or a file at the top. */
    method AppendBelow(nextDir: TarFile, f: TarFile, ghost p: Path, ghost strict: bool)
      requires DirsLinked(files, lists, dirs, nodes) && PlainLinked(plain, nodes) && Injective(dirs)
      requires p != [] && Parent(p) != [] && '/' in f.name && !f.dir && f.files == [] && f !in nodes
      requires if nextDir.dir then Parent(p) in dirs && nextDir == dirs[Parent(p)] else nextDir in plain
      requires forall d :: d in dirs ==> dirs[d].dir
      requires strict ==> LeavesLinked(leaves, nodes) && forall q :: q in leaves ==> leaves[q] != nextDir
      modifies this, nextDir
      ensures DirsLinked(files, lists, dirs, nodes) && PlainLinked(plain, nodes) && (strict ==> LeavesLinked(leaves, nodes))
      ensures added == old(added) + [p] && nodes == old(nodes) + {f} && files == old(files)
      ensures dirs == old(dirs) && leaves == old(leaves)[p := f]
      ensures lists == (if nextDir.dir then WithChild(old(lists), Parent(p), f) else old(lists))
      ensures plain == if nextDir.dir then old(plain) + {f} else old(plain)
    {
      nextDir.files := nextDir.files + [f];
      if nextDir.dir {
        lists, plain := WithChild(lists, Parent(p), f), plain + {f};
      }
      leaves, nodes, added := leaves[p := f], nodes + {f}, added + [p];
    }

    /** ensureDirs: afterwards every directory on the way to the path exists. */
    method EnsureDirs(name: string, ghost p: Path, ghost strict: bool)
      requires Loose() && p != [] && Parts(p) && name == Join(p)
      requires strict ==> Shaped() && forall k :: 0 < k < |p| ==> p[..k] !in leaves
      modifies this, nodes
      ensures Loose() && (strict ==> Shaped()) && leaves == old(leaves) && plain == old(plain) && added == old(added)
      ensures forall n :: n in nodes ==> n in old(nodes) || fresh(n)
      ensures dirs.Keys == old(dirs.Keys) + Ancestors(p, |p| - 1)
      ensures Opened(old(files), files, p)
    {
      var (parts, _) := SplitParts(name);
      SplitPartsJoin(p);
      var orig := new TarFile(root, true, []);
      orig.files := files;
      ghost var ls, ds, ns := Grow(orig, parts, p, lists, dirs, leaves, plain, nodes, strict);
      Adopt(orig, ls, ds, ns, strict);
    }

    /** The list of the scratch root becomes the tree's. */
    method Adopt(orig: TarFile, ghost ls: Lists, ghost ds: Nodes, ghost ns: set<TarFile>, ghost strict: bool)
      requires LooselyLinked(orig.files, ls, ds, plain, ns)
      requires strict ==> Shape(ls, ds, leaves) && LeavesLinked(leaves, ns)
      modifies this
      ensures Loose() && (strict ==> Shaped()) && leaves == old(leaves) && plain == old(plain) && added == old(added)
      ensures lists == ls && dirs == ds && nodes == ns && files == orig.files
    {
      files := orig.files;
      lists, dirs, nodes := ls, ds, ns;
    }
  }

  lemma DirNodesAre(lists: Lists, dirs: Nodes)
    requires DirNodes(lists, dirs)
    ensures forall d :: d in dirs ==> dirs[d].dir
  {
    forall d | d in dirs ensures dirs[d].dir { assert DirNode(lists, dirs, d); }
  }

  /** The file is where it should be. */
  lemma Landed(lists: Lists, dirs: Nodes, leaves: Nodes, p: Path, f: TarFile)
    requires p != [] && InPlace(lists, dirs, leaves, p, f)
    ensures Shape(WithChild(lists, Parent(p), f), dirs, leaves[p := f]) && Grounded(dirs, leaves[p := f])
    ensures leaves[p := f].Values == leaves.Values + {f}
  {
    forall q | q in leaves ensures leaves[p := f][q] in leaves[p := f].Values {}
    assert leaves[p := f][p] == f;
  }

  /** After ensureDirs the directory is there, and only a file at the top can be in the way. */
  lemma WayMade(top: seq<TarFile>, before: set<Path>, lists: Lists, dirs: Nodes, plain: set<TarFile>, added: seq<Path>, p: Path)
    requires LooseShape(lists, dirs, plain) && p != []
    requires dirs.Keys == before + Ancestors(p, |p| - 1) && AllDecided(top, added) && Opened(top, lists[[]], p)
    ensures Parent(p) != [] ==> Parent(p) in dirs && FirstNamed(lists[[]], p[0]).Some?
    ensures Trips(added, p) <==> |p| > 2 && Shadowed(lists[[]], p[0])
  {
    AncestorsAre(p, |p| - 1);
    OpenedTop(top, lists[[]], lists, dirs, plain, added, p);
  }

  lemma NotShadowed(lists: Lists, dirs: Nodes, leaves: Nodes, p: Path)
    requires Shape(lists, dirs, leaves) && p != [] && Parts(p) && Fits(FilesOf(leaves), p)
    ensures Parent(p) != [] ==> !Shadowed(lists[[]], p[0])
  {
    ShadowInShape(lists, dirs, leaves, p[0]);
    assert Parent(p) != [] ==> p[..1] !in FilesOf(leaves);
    assert p[..1] == [p[0]];
  }

  /** What lookupDir finds is a directory, or a file at the top. */
  lemma NodeFound(lists: Lists, dirs: Nodes, plain: set<TarFile>, p: Path, n: TarFile)
    requires LooseShape(lists, dirs, plain) && p != []
    requires if Shadowed(lists[[]], p[0]) then FirstNamed(lists[[]], p[0]) == Some(n) else Parent(p) in dirs && n == dirs[Parent(p)]
    ensures if n.dir then Parent(p) in dirs && n == dirs[Parent(p)] else n in plain && Shadowed(lists[[]], p[0])
    ensures forall d :: d in dirs ==> dirs[d].dir
  {
    LooseByName(lists, dirs, plain, [], p[0]);
    DirNodesAre(lists, dirs);
  }

  lemma LongName(p: Path)
    requires p != [] && Parent(p) != []
    ensures '/' in Join(p)
  {
    JoinLast(p);
    assert '/' in "/";
  }

  /** After ensureDirs the first component leads somewhere, to a file only if it did before. */
  lemma OpenedTop(before: seq<TarFile>, after: seq<TarFile>, lists: Lists, dirs: Nodes, plain: set<TarFile>, added: seq<Path>, p: Path)
    requires LooseShape(lists, dirs, plain) && lists[[]] == after && p != [] && (|p| > 1 ==> p[..1] in dirs)
    requires AllDecided(before, added) && Opened(before, after, p)
    ensures |p| > 1 ==> FirstNamed(after, p[0]).Some? && (Trips(added, p) <==> |p| > 2 && Shadowed(after, p[0]))
  {
    assert Decided(before, added, p[0]);
    OpenedFirst(before, after, p, p[0]);
    LooseByName(lists, dirs, plain, [], p[0]);
    if |p| > 1 { assert p[..1] == [] + [p[0]]; }
  }

  /** A well-formed tree is one to which anything was added. */
  lemma ShapedLoose(lists: Lists, dirs: Nodes, leaves: Nodes)
    requires Shape(lists, dirs, leaves)
    ensures LooseShape(lists, dirs, leaves.Values) && forall n :: n in leaves.Values ==> !n.dir
  {
    forall d, n | d in lists && n in lists[d] ensures LooseChild(dirs, leaves.Values, d, n) {
      assert ChildNode(dirs, leaves, d, n);
      if n.dir {
        DirBase(lists, dirs, leaves, d + [BaseName(n)]);
        assert DirNode(lists, dirs, d + [BaseName(n)]);
      } else {
        var p := d + [BaseName(n)];
        assert LeafNode(lists, leaves, p);
        if d != [] { LongName(p); }
      }
    }
    forall n | n in leaves.Values ensures !n.dir {
      var p :| p in leaves && leaves[p] == n;
      assert LeafNode(lists, leaves, p);
    }
  }

  /** In a well-formed tree only a file of the map can shadow a directory. */
  lemma ShadowInShape(lists: Lists, dirs: Nodes, leaves: Nodes, c: string)
    requires Shape(lists, dirs, leaves) && Part(c)
    ensures Shadowed(lists[[]], c) ==> [c] in leaves && FirstNamed(lists[[]], c) == Some(leaves[[c]])
  {
    ChildByName(lists, dirs, leaves, [], c);
  }

  /** A tree whose root list is in a scratch node, and the node of one of its directories. */
  ghost predicate Grown(orig: TarFile, lists: Lists, dirs: Nodes, leaves: Nodes, plain: set<TarFile>, nodes: set<TarFile>, strict: bool, d: Path, curr: TarFile)
    reads orig, nodes
  {
    && LooselyLinked(orig.files, lists, dirs, plain, nodes)
    && (strict ==> Shape(lists, dirs, leaves) && LeavesLinked(leaves, nodes))
    && orig.dir && orig !in nodes
    && Parts(d) && d in lists && curr == if d == [] then orig else dirs[d]
  }

  /** The loop of ensureDirs, from the root downwards. */
  method Grow(orig: TarFile, parts: seq<string>, ghost p: Path, ghost lists: Lists, ghost dirs: Nodes, ghost leaves: Nodes,
              ghost plain: set<TarFile>, ghost nodes: set<TarFile>, ghost strict: bool)
    returns (ghost lists': Lists, ghost dirs': Nodes, ghost nodes': set<TarFile>)
    requires Grown(orig, lists, dirs, leaves, plain, nodes, strict, [], orig)
    requires p != [] && Parts(p) && parts == Parent(p)
    requires strict ==> forall k :: 0 < k < |p| ==> p[..k] !in leaves
    modifies orig, nodes
    ensures LooselyLinked(orig.files, lists', dirs', plain, nodes')
    ensures strict ==> Shape(lists', dirs', leaves) && LeavesLinked(leaves, nodes')
    ensures dirs'.Keys == dirs.Keys + Ancestors(p, |p| - 1)
    ensures Opened(old(orig.files), orig.files, p)
    ensures forall n :: n in nodes' ==> n in nodes || fresh(n)
  {
    var curr := orig;
    lists', dirs', nodes' := lists, dirs, nodes;
    for i := 0 to |parts|
      invariant Grown(orig, lists', dirs', leaves, plain, nodes', strict, p[..i], curr)
      invariant dirs'.Keys == dirs.Keys + Ancestors(p, i)
      invariant Opened(old(orig.files), orig.files, p) && (i == 0 ==> orig.files == old(orig.files))
      invariant forall n :: n in nodes' ==> n in nodes || fresh(n)
    {
      PrefixNext(p, i);
      ghost var known := dirs'.Keys;
      curr, lists', dirs', nodes' := EnsureDir(orig, curr, parts[i], p[..i], lists', dirs', leaves, plain, nodes', strict);
      KeysNext(dirs.Keys, known, dirs'.Keys, p, i);
    }
  }

  lemma KeysNext(before: set<Path>, known: set<Path>, now: set<Path>, p: Path, i: nat)
    requires i < |p| && known == before + Ancestors(p, i) && now == known + {p[..i] + [p[i]]}
    ensures now == before + Ancestors(p, i + 1)
  {
    assert p[..i + 1] == p[..i] + [p[i]];
  }

  lemma PrefixNext(p: Path, i: nat)
    requires i < |p| && Parts(p)
    ensures Part(p[i]) && p[..i + 1] == p[..i] + [p[i]]
  {
  }

  /** One round of the loop of ensureDirs. */
  method EnsureDir(orig: TarFile, curr: TarFile, part: string, ghost d: Path, ghost lists: Lists, ghost dirs: Nodes, ghost leaves: Nodes,
                   ghost plain: set<TarFile>, ghost nodes: set<TarFile>, ghost strict: bool)
    returns (next: TarFile, ghost lists': Lists, ghost dirs': Nodes, ghost nodes': set<TarFile>)
    requires Grown(orig, lists, dirs, leaves, plain, nodes, strict, d, curr) && Part(part) && (strict ==> d + [part] !in leaves)
    modifies curr
    ensures Grown(orig, lists', dirs', leaves, plain, nodes', strict, d + [part], next)
    ensures dirs'.Keys == dirs.Keys + {d + [part]} && forall n :: n in nodes' ==> n in nodes || fresh(n)
    ensures orig.files == old(orig.files) || (d == [] && next.dir && next.name == part && orig.files == old(orig.files) + [next])
  {
    ghost var q := d + [part];
    LooseByName(lists, dirs, plain, d, part);
    if d != [] { assert DirNode(lists, dirs, d); }
    var found, f := FindDir(curr.files, part);
    lists', dirs', nodes' := lists, dirs, nodes;
    if found {
      next := f;
    } else {
      next := new TarFile(part, true, []);
      LooseAddDir(lists, dirs, plain, d, next);
      if strict {
        ShapeAddDir(lists, dirs, leaves, d, next);
        LeavesApart(lists, dirs, leaves, d);
      }
      curr.files := curr.files + [next];
      lists', dirs', nodes' := WithChild(lists, d, next)[q := []], dirs[q := next], nodes + {next};
    }
  }

  /** Files and directories are different nodes. */
  lemma LeavesApart(lists: Lists, dirs: Nodes, leaves: Nodes, d: Path)
    requires Shape(lists, dirs, leaves)
    ensures forall p :: p in leaves ==> !leaves[p].dir
    ensures d in dirs ==> dirs[d].dir
  {
    forall p | p in leaves ensures !leaves[p].dir { assert LeafNode(lists, leaves, p); }
    if d in dirs { assert DirNode(lists, dirs, d); }
  }

  /** The first `i` non-empty prefixes of a path. */
  ghost function Ancestors(p: Path, i: nat): set<Path>
    requires i <= |p|
  {
    if i == 0 then {} else Ancestors(p, i - 1) + {p[..i]}
  }

  lemma {:induction false} AncestorsAre(p: Path, i: nat)
    requires i <= |p|
    ensures forall q :: q in Ancestors(p, i) <==> 0 < |q| <= i && q <= p
  {
    if i > 0 {
      AncestorsAre(p, i - 1);
      assert forall q :: q <= p && |q| == i ==> q == p[..i];
    }
  }

  method FindBase(files: seq<TarFile>, base: string) returns (f: TarFile?)
    ensures f != null ==> f in files && BaseName(f) == base
    ensures f == null ==> forall g :: g in files ==> BaseName(g) != base
  {
    for i := 0 to |files|
      invariant forall j :: 0 <= j < i ==> BaseName(files[j]) != base
    {
      if BaseName(files[i]) == base { return files[i]; }
    }
    return null;
  }

  /** The children of the parent with the last component as base name: just the node itself. */
  lemma NodeInParent(lists: Lists, dirs: Nodes, leaves: Nodes, p: Path)
    requires Shape(lists, dirs, leaves) && p != []
    ensures p in leaves ==> Parent(p) in lists && leaves[p] in lists[Parent(p)] && BaseName(leaves[p]) == Last(p) && !leaves[p].dir
    ensures p in dirs ==> Parent(p) in lists && dirs[p] in lists[Parent(p)] && BaseName(dirs[p]) == Last(p) && dirs[p].dir
    ensures Parent(p) in lists ==> forall n :: n in lists[Parent(p)] && BaseName(n) == Last(p) ==>
              (p in dirs && n == dirs[p]) || (p in leaves && n == leaves[p])
  {
    assert p == Parent(p) + [Last(p)];
    if p in leaves { assert LeafNode(lists, leaves, p); }
    if p in dirs { assert DirNode(lists, dirs, p); }
    if Parent(p) in lists { ChildByBase(lists, dirs, leaves, Parent(p), Last(p)); }
  }

  /** A directory's ancestors are directories. */
  lemma {:induction false} Prefixes(lists: Lists, dirs: Nodes, d: Path, i: nat)
    requires lists.Keys == dirs.Keys + {[]} && DirNodes(lists, dirs) && d in dirs && 0 < i <= |d|
    ensures d[..i] in dirs
    decreases |d|
  {
    assert DirNode(lists, dirs, d);
    if i < |d| {
      Prefixes(lists, dirs, Parent(d), i);
      assert Parent(d)[..i] == d[..i];
    } else {
      assert d[..i] == d;
    }
  }

  /** With the file in place, the directories made for it stand above a file. */
  lemma GroundedAdd(before: Nodes, dirs: Nodes, leaves: Nodes, p: Path, f: TarFile)
    requires Grounded(before, leaves) && p != [] && p !in leaves && dirs.Keys == before.Keys + Ancestors(p, |p| - 1)
    ensures Grounded(dirs, leaves[p := f]) && FilesOf(leaves[p := f]) == FilesOf(leaves)[p := f.contents]
  {
    AncestorsAre(p, |p| - 1);
    var fm := FilesOf(leaves[p := f]);
    forall d | d in dirs ensures IsDir(fm, d) {
      if d in before {
        var q :| q in FilesOf(leaves) && Above(d, q);
        assert q in fm;
      } else {
        assert p in fm && Above(d, p);
      }
    }
  }

  /** The tree as values with a file in place. */
  ghost predicate InPlace(lists: Lists, dirs: Nodes, leaves: Nodes, p: Path, f: TarFile)
    requires p != []
  {
    && Parent(p) in lists && p !in leaves && DirsApart(dirs, leaves)
    && Shape(WithChild(lists, Parent(p), f), dirs, leaves[p := f]) && Grounded(dirs, leaves[p := f])
  }

  /** Adding a file below directories that are all there. */
  lemma Added(lists: Lists, before: Nodes, dirs: Nodes, leaves: Nodes, p: Path, f: TarFile)
    requires p != [] && Parts(p) && dirs.Keys == before.Keys + Ancestors(p, |p| - 1)
    requires Shape(lists, dirs, leaves) && Grounded(before, leaves) && Fits(FilesOf(leaves), p) && f.name == Join(p) && !f.dir
    ensures InPlace(lists, dirs, leaves, p, f) && FilesOf(leaves[p := f]) == FilesOf(leaves)[p := f.contents]
  {
    AncestorsAre(p, |p| - 1);
    assert p !in dirs;
    ShapeAddLeaf(lists, dirs, leaves, p, f);
    GroundedAdd(before, dirs, leaves, p, f);
    forall d, q | d in dirs && q in leaves ensures dirs[d] != leaves[q] {
      assert DirNode(lists, dirs, d) && LeafNode(lists, leaves, q);
    }
  }

  ghost predicate DirsApart(dirs: Nodes, leaves: Nodes) {
    forall d, q :: d in dirs && q in leaves ==> dirs[d] != leaves[q]
  }

  lemma SameMembers<T>(xs: seq<T>, ys: seq<T>)
    requires multiset(xs) == multiset(ys)
    ensures forall x :: x in xs <==> x in ys
  {
    forall x ensures x in xs <==> x in ys {
      assert x in xs <==> x in multiset(xs);
      assert x in ys <==> x in multiset(ys);
    }
  }
}
