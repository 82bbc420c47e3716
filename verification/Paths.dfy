/** Slash-separated paths, as the Go path functions the manifest package calls treat them. */
module Paths {
  import opened Base

  /** A path as its components. */
  type Path = seq<string>

  predicate NoSlash(c: string) {
    '/' !in c
  }

  /** A component of a clean relative path. */
  predicate Part(c: string) {
    c != "" && c != "." && c != ".." && NoSlash(c)
  }

  predicate Parts(p: Path) {
    forall i :: 0 <= i < |p| ==> Part(p[i])
  }

  /** strings.Split(s, "/"). */
  function SplitSlash(s: string): (cs: seq<string>)
    ensures |cs| >= 1 && forall i :: 0 <= i < |cs| ==> NoSlash(cs[i])
  {
    if s == "" then [""]
    else
      var rest := SplitSlash(s[1..]);
      if s[0] == '/' then [""] + rest else [[s[0]] + rest[0]] + rest[1..]
  }

  /** strings.Join(cs, "/"). */
  function Join(cs: seq<string>): string {
    if cs == [] then "" else if |cs| == 1 then cs[0] else cs[0] + "/" + Join(cs[1..])
  }

  lemma {:induction false} JoinSplit(s: string)
    ensures Join(SplitSlash(s)) == s
  {
    if s != "" {
      JoinSplit(s[1..]);
      var rest := SplitSlash(s[1..]);
      if s[0] == '/' {
        assert ([""] + rest)[1..] == rest;
      } else {
        var cs := [[s[0]] + rest[0]] + rest[1..];
        assert cs[1..] == rest[1..];
        assert s == [s[0]] + s[1..];
      }
    }
  }

  lemma {:induction false} SplitFirst(c: string, tail: string)
    requires NoSlash(c)
    ensures SplitSlash(c + "/" + tail) == [c] + SplitSlash(tail)
    ensures SplitSlash(c) == [c]
  {
    if c == "" {
      assert c + "/" + tail == "/" + tail;
      assert ("/" + tail)[1..] == tail;
    } else {
      SplitFirst(c[1..], tail);
      var s := c + "/" + tail;
      assert s[1..] == c[1..] + "/" + tail;
      assert [c[0]] + c[1..] == c;
      assert ([c[1..]] + SplitSlash(tail))[1..] == SplitSlash(tail);
    }
  }

  lemma {:induction false} SplitJoin(cs: seq<string>)
    requires cs != [] && forall i :: 0 <= i < |cs| ==> NoSlash(cs[i])
    ensures SplitSlash(Join(cs)) == cs
  {
    if |cs| == 1 {
      SplitFirst(cs[0], "");
    } else {
      SplitJoin(cs[1..]);
      SplitFirst(cs[0], Join(cs[1..]));
      assert [cs[0]] + cs[1..] == cs;
    }
  }

  lemma PartsSlash(p: Path)
    requires Parts(p)
    ensures forall i :: 0 <= i < |p| ==> NoSlash(p[i])
  {
    forall i | 0 <= i < |p| ensures NoSlash(p[i]) { assert Part(p[i]); }
  }

  /** Different component lists give different paths. */
  lemma JoinInjective(p: Path, q: Path)
    requires p != [] && q != [] && Parts(p) && Parts(q) && Join(p) == Join(q)
    ensures p == q
  {
    PartsSlash(p);
    PartsSlash(q);
    SplitJoin(p);
    SplitJoin(q);
  }

  lemma {:induction false} JoinAppend(a: seq<string>, b: seq<string>)
    requires a != [] && b != []
    ensures Join(a + b) == Join(a) + "/" + Join(b)
  {
    if |a| == 1 {
      assert (a + b)[1..] == b;
    } else {
      assert (a + b)[1..] == a[1..] + b;
      JoinAppend(a[1..], b);
    }
  }

  lemma JoinStarts(p: Path)
    requires p != []
    ensures p[0] <= Join(p)
  {
  }

  // ---- filepath.Split, Clean and Join ----------------------------------------------------------

  function LastSlash(s: string): (i: int)
    ensures -1 <= i < |s|
  {
    if s == "" then -1 else if s[|s| - 1] == '/' then |s| - 1 else LastSlash(s[..|s| - 1])
  }

  /** filepath.Split. */
  function SplitLast(s: string): (string, string) {
    var i := LastSlash(s);
    (s[..i + 1], s[i + 1..])
  }

  /** What filepath.Clean does with the components, one after another. */
  function Cleaned(rooted: bool, out: Path, cs: seq<string>): Path
    decreases |cs|
  {
    if cs == [] then out
    else if cs[0] == "" || cs[0] == "." then Cleaned(rooted, out, cs[1..])
    else if cs[0] != ".." then Cleaned(rooted, out + [cs[0]], cs[1..])
    else if out != [] && out[|out| - 1] != ".." then Cleaned(rooted, out[..|out| - 1], cs[1..])
    else if rooted then Cleaned(rooted, out, cs[1..])
    else Cleaned(rooted, out + [".."], cs[1..])
  }

  predicate IsAbs(s: string) {
    s != "" && s[0] == '/'
  }

  /** filepath.Clean and path.Clean. */
  function Clean(s: string): string {
    var out := Join(Cleaned(IsAbs(s), [], SplitSlash(s)));
    if IsAbs(s) then "/" + out else if out == "" then "." else out
  }

  /** filepath.Join of two elements. */
  function JoinTwo(a: string, b: string): string {
    if a == "" && b == "" then "" else if a == "" then Clean(b) else if b == "" then Clean(a) else Clean(a + "/" + b)
  }

  lemma {:induction false} CleanedParts(out: Path, p: Path)
    requires Parts(p)
    ensures Cleaned(false, out, p) == out + p
    decreases |p|
  {
    if p == [] {
      assert out + p == out;
    } else {
      assert Part(p[0]);
      CleanedParts(out + [p[0]], p[1..]);
      assert out + [p[0]] + p[1..] == out + p;
    }
  }

  lemma JoinNotAbs(p: Path)
    requires p != [] && Parts(p)
    ensures Join(p) != "" && !IsAbs(Join(p)) && Join(p) != "."
  {
    assert Part(p[0]);
    assert Join(p)[0] == p[0][0];
    assert p[0][0] in p[0];
    assert |p| > 1 ==> |Join(p)| >= |p[0]| + 1;
  }

  /** Clean paths stay as they are, and lose a final slash. */
  lemma CleanJoin(p: Path)
    requires p != [] && Parts(p)
    ensures Clean(Join(p)) == Join(p) && Clean(Join(p) + "/") == Join(p)
  {
    PartsSlash(p);
    SplitJoin(p);
    CleanedParts([], p);
    assert [] + p == p;
    JoinNotAbs(p);
    JoinAppend(p, [""]);
    assert Join(p + [""]) == Join(p) + "/" + "" == Join(p) + "/";
    SplitJoin(p + [""]);
    CleanedEmptyEnd([], p);
  }

  lemma {:induction false} CleanedEmptyEnd(out: Path, p: Path)
    requires Parts(p)
    ensures Cleaned(false, out, p + [""]) == out + p
    decreases |p|
  {
    if p == [] {
      assert p + [""] == [""] && [""][1..] == [];
      assert out + p == out;
    } else {
      assert Part(p[0]);
      assert (p + [""])[1..] == p[1..] + [""];
      CleanedEmptyEnd(out + [p[0]], p[1..]);
      assert out + [p[0]] + p[1..] == out + p;
    }
  }

  lemma JoinTwoParts(p: Path, q: Path)
    requires p != [] && q != [] && Parts(p) && Parts(q)
    ensures JoinTwo(Join(p), Join(q)) == Join(p + q) && JoinTwo("", Join(q)) == Join(q)
  {
    JoinNotAbs(p);
    JoinNotAbs(q);
    JoinAppend(p, q);
    CleanJoin(p + q);
    CleanJoin(q);
  }

  predicate HasPrefix(s: string, prefix: string) {
    prefix <= s
  }

  /** After Clean, ".." can only stand at the front. */
  ghost predicate CleanOut(out: Path) {
    && (forall i :: 0 <= i < |out| ==> out[i] != "" && out[i] != "." && NoSlash(out[i]))
    && (forall i :: 0 < i < |out| && out[i] == ".." ==> out[i - 1] == "..")
  }

  lemma {:induction false} CleanedOut(rooted: bool, out: Path, cs: seq<string>)
    requires CleanOut(out) && forall i :: 0 <= i < |cs| ==> NoSlash(cs[i])
    ensures CleanOut(Cleaned(rooted, out, cs))
    decreases |cs|
  {
    if cs != [] {
      if cs[0] == "" || cs[0] == "." {
        CleanedOut(rooted, out, cs[1..]);
      } else if cs[0] != ".." {
        CleanedOut(rooted, out + [cs[0]], cs[1..]);
      } else if out != [] && out[|out| - 1] != ".." {
        CleanedOut(rooted, out[..|out| - 1], cs[1..]);
      } else if rooted {
        CleanedOut(rooted, out, cs[1..]);
      } else {
        CleanedOut(rooted, out + [".."], cs[1..]);
      }
    }
  }

  lemma {:induction false} NoDotDot(out: Path, i: nat)
    requires CleanOut(out) && i < |out| && out[0] != ".."
    ensures out[i] != ".."
  {
    if i > 0 { NoDotDot(out, i - 1); }
  }

  /** A cleaned relative path that is neither "." nor begins with ".." consists of proper parts. */
  lemma CleanIsProper(s: string)
    requires !IsAbs(s) && Clean(s) != "." && !HasPrefix(Clean(s), "..")
    ensures Parts(SplitSlash(Clean(s))) && Join(SplitSlash(Clean(s))) == Clean(s)
  {
    var out := Cleaned(false, [], SplitSlash(s));
    CleanedOut(false, [], SplitSlash(s));
    assert out != [] && Join(out) == Clean(s);
    SplitJoin(out);
    assert Join(out)[..|out[0]|] == out[0];
    forall i | 0 <= i < |out| ensures Part(out[i]) { NoDotDot(out, i); }
  }

  // ---- splitParts (manifest/tarfs.go) ----------------------------------------------------------

  /** The directory components and the file name. */
  function SplitParts(s: string): (Path, string) {
    var (dir, file) := SplitLast(s);
    var cleaned := Clean(dir);
    if cleaned == "." then ([], file) else (SplitSlash(cleaned), file)
  }

  /** The last element of a path (filepath.Split again). */
  function FileOf(s: string): string {
    SplitLast(s).1
  }

  lemma {:induction false} SplitLastAt(dir: string, file: string)
    requires NoSlash(file) && (dir == "" || dir[|dir| - 1] == '/')
    ensures SplitLast(dir + file) == (dir, file)
  {
    LastSlashAt(dir, file);
  }

  lemma {:induction false} LastSlashAt(dir: string, file: string)
    requires NoSlash(file) && (dir == "" || dir[|dir| - 1] == '/')
    ensures LastSlash(dir + file) == |dir| - 1
    decreases |file|
  {
    var s := dir + file;
    if file == "" {
      assert s == dir;
    } else {
      assert s[|s| - 1] == file[|file| - 1] && file[|file| - 1] in file;
      assert s[..|s| - 1] == dir + file[..|file| - 1];
      LastSlashAt(dir, file[..|file| - 1]);
    }
  }

  lemma LastApart(p: Path)
    requires p != []
    ensures p == p[..|p| - 1] + [p[|p| - 1]]
  {
  }

  lemma JoinSnoc(a: Path, c: string)
    ensures Join(a + [c]) == (if a == [] then "" else Join(a) + "/") + c
  {
    if a == [] { assert a + [c] == [c]; } else { JoinAppend(a, [c]); }
  }

  lemma JoinLast(p: Path)
    requires p != []
    ensures Join(p) == (if |p| == 1 then "" else Join(p[..|p| - 1]) + "/") + p[|p| - 1]
  {
    LastApart(p);
    JoinSnoc(p[..|p| - 1], p[|p| - 1]);
  }

  lemma SplitLastJoin(p: Path)
    requires p != [] && Parts(p)
    ensures SplitLast(Join(p)) == (if |p| == 1 then "" else Join(p[..|p| - 1]) + "/", p[|p| - 1])
  {
    assert Part(p[|p| - 1]);
    JoinLast(p);
    SplitLastAt(if |p| == 1 then "" else Join(p[..|p| - 1]) + "/", p[|p| - 1]);
  }

  lemma SplitPartsJoin(p: Path)
    requires p != [] && Parts(p)
    ensures SplitParts(Join(p)) == (p[..|p| - 1], p[|p| - 1]) && FileOf(Join(p)) == p[|p| - 1]
  {
    var m := |p| - 1;
    SplitLastJoin(p);
    if m > 0 {
      CleanJoin(p[..m]);
      JoinNotAbs(p[..m]);
      PartsSlash(p[..m]);
      SplitJoin(p[..m]);
    } else {
      assert SplitSlash("") == [""];
      assert Cleaned(false, [], [""]) == Cleaned(false, [], [""][1..]) == [];
      assert Clean("") == ".";
    }
  }

  // ---- trimFirstDir (manifest/manifest.go) -----------------------------------------------------

  /** strings.TrimLeftFunc with the closure of trimFirstDir: everything up to the first run of
      slashes is cut off. */
  function Trimmed(s: string, foundSlash: bool): string {
    if s == "" then s
    else if s[0] == '/' then Trimmed(s[1..], true)
    else if foundSlash then s
    else Trimmed(s[1..], false)
  }

  /** The closure and its captured variable. */
  class FirstDirTrimmer {
    var foundSlash: bool

    constructor ()
      ensures !foundSlash
    {
      foundSlash := false;
    }

    method Drop(ch: char) returns (drop: bool)
      modifies this
      ensures drop == (ch == '/' || !old(foundSlash)) && foundSlash == (old(foundSlash) || ch == '/')
    {
      if ch == '/' {
        foundSlash := true;
        return true;
      }
      if foundSlash { return false; }
      return true;
    }
  }

  method TrimFirstDir(s: string) returns (t: string)
    ensures t == Trimmed(s, false)
  {
    var f := new FirstDirTrimmer();
    t := s;
    while t != ""
      invariant Trimmed(t, f.foundSlash) == Trimmed(s, false)
      decreases |t|
    {
      var drop := f.Drop(t[0]);
      if !drop { return t; }
      t := t[1..];
    }
  }

  lemma {:induction false} TrimmedCut(c: string, tail: string)
    requires NoSlash(c)
    ensures Trimmed(c + "/" + tail, false) == Trimmed(tail, true) && Trimmed(c, false) == ""
  {
    if c == "" {
      assert (c + "/" + tail)[1..] == tail;
    } else {
      assert c[0] in c;
      assert (c + "/" + tail)[1..] == c[1..] + "/" + tail;
      TrimmedCut(c[1..], tail);
    }
  }

  /** The key under which a file is gathered is its path without the first component. */
  lemma TrimmedJoin(p: Path)
    requires p != [] && Parts(p)
    ensures Trimmed(Join(p), false) == Join(p[1..])
  {
    assert Part(p[0]);
    if |p| == 1 {
      TrimmedCut(p[0], "");
    } else {
      TrimmedCut(p[0], Join(p[1..]));
      JoinNotAbs(p[1..]);
    }
  }
}
