/** What cleaning a path comes to (path.Clean and filepath.Clean, which the archive reader, splitParts
    and filepath.Join use): the one list of components that simplifying leads to. */
module Cleaning {
  import opened Base
  import opened Paths

  /** A component that names something. */
  predicate IsName(c: string) {
    c != "" && c != "." && c != ".."
  }

  /** One simplification, at place `i`: an empty component or "." goes, or a name with the ".." behind
      it; at the root, a leading ".." goes. */
  ghost predicate Simplifies(rooted: bool, a: Path, b: Path, i: nat) {
    || (i < |a| && (a[i] == "" || a[i] == ".") && b == a[..i] + a[i + 1..])
    || (i + 1 < |a| && IsName(a[i]) && a[i + 1] == ".." && b == a[..i] + a[i + 2..])
    || (rooted && i == 0 && a != [] && a[0] == ".." && b == a[1..])
  }

  /** Some number of simplifications lead from `a` to `b`. */
  ghost predicate Reduces(rooted: bool, a: Path, b: Path)
    decreases |a|
  {
    a == b || exists c, i: nat {:trigger Simplifies(rooted, a, c, i)} :: Simplifies(rooted, a, c, i) && |c| < |a| && Reduces(rooted, c, b)
  }

  /** Nothing is left to simplify. */
  ghost predicate Minimal(rooted: bool, a: Path) {
    forall b, i: nat :: !Simplifies(rooted, a, b, i)
  }

  lemma MinimalParts(rooted: bool, a: Path)
    ensures Minimal(rooted, a) <==>
              && (forall i :: 0 <= i < |a| ==> a[i] != "" && a[i] != ".")
              && (forall i :: 0 < i < |a| && a[i] == ".." ==> a[i - 1] == "..")
              && (rooted && a != [] ==> a[0] != "..")
  {
    if Minimal(rooted, a) {
      forall i | 0 <= i < |a| ensures a[i] != "" && a[i] != "." { assert !Simplifies(rooted, a, a[..i] + a[i + 1..], i); }
      forall i | 0 < i < |a| && a[i] == ".." ensures a[i - 1] == ".." {
        assert !Simplifies(rooted, a, a[..i - 1] + a[i - 1 + 2..], i - 1);
      }
      if a != [] { assert !Simplifies(rooted, a, a[1..], 0); }
    }
  }

  lemma {:induction false} CleanedJoin(rooted: bool, out: Path, a: Path, b: Path)
    ensures Cleaned(rooted, out, a + b) == Cleaned(rooted, Cleaned(rooted, out, a), b)
    decreases |a|
  {
    if a == [] {
      assert a + b == b;
    } else {
      assert (a + b)[1..] == a[1..] + b;
      if a[0] == "" || a[0] == "." {
        CleanedJoin(rooted, out, a[1..], b);
      } else if a[0] != ".." {
        CleanedJoin(rooted, out + [a[0]], a[1..], b);
      } else if out != [] && out[|out| - 1] != ".." {
        CleanedJoin(rooted, out[..|out| - 1], a[1..], b);
      } else if rooted {
        CleanedJoin(rooted, out, a[1..], b);
      } else {
        CleanedJoin(rooted, out + [".."], a[1..], b);
      }
    }
  }

  /** Simplifying first makes no difference. */
  lemma CleanedSame(rooted: bool, a: Path, b: Path, i: nat)
    requires Simplifies(rooted, a, b, i)
    ensures Cleaned(rooted, [], a) == Cleaned(rooted, [], b)
  {
    if i < |a| && (a[i] == "" || a[i] == ".") && b == a[..i] + a[i + 1..] {
      DropsOne(rooted, a[..i], a[i], a[i + 1..]);
      assert a == a[..i] + [a[i]] + a[i + 1..];
    } else if i + 1 < |a| && IsName(a[i]) && a[i + 1] == ".." && b == a[..i] + a[i + 2..] {
      DropsTwo(rooted, a[..i], a[i], a[i + 2..]);
      assert a == a[..i] + [a[i], ".."] + a[i + 2..];
    }
  }

  lemma DropsOne(rooted: bool, a: Path, c: string, b: Path)
    requires c == "" || c == "."
    ensures Cleaned(rooted, [], a + [c] + b) == Cleaned(rooted, [], a + b)
  {
    CleanedJoin(rooted, [], a + [c], b);
    CleanedJoin(rooted, [], a, [c]);
    CleanedJoin(rooted, [], a, b);
    assert [c][1..] == [];
  }

  lemma DropsTwo(rooted: bool, a: Path, c: string, b: Path)
    requires IsName(c)
    ensures Cleaned(rooted, [], a + [c, ".."] + b) == Cleaned(rooted, [], a + b)
  {
    CleanedJoin(rooted, [], a + [c, ".."], b);
    CleanedJoin(rooted, [], a, [c, ".."]);
    CleanedJoin(rooted, [], a, b);
    NameAndBack(rooted, Cleaned(rooted, [], a), c);
  }

  lemma NameAndBack(rooted: bool, out: Path, c: string)
    requires IsName(c)
    ensures Cleaned(rooted, out, [c, ".."]) == out
  {
    assert [c, ".."][1..] == [".."] && [".."][1..] == [];
    assert (out + [c])[..|out|] == out;
  }

  lemma {:induction false} CleanedFixed(rooted: bool, out: Path, a: Path)
    requires Minimal(rooted, out + a)
    ensures Cleaned(rooted, out, a) == out + a
    decreases |a|
  {
    MinimalParts(rooted, out + a);
    if a == [] {
      assert out + a == out;
    } else {
      assert out + a == (out + [a[0]]) + a[1..] && (out + a)[|out|] == a[0];
      CleanedFixed(rooted, out + [a[0]], a[1..]);
      if rooted { AllNames(out + a); }
      if out != [] { assert (out + a)[|out| - 1] == out[|out| - 1]; }
    }
  }

  lemma ReducesFirst(rooted: bool, a: Path, c: Path, i: nat, b: Path)
    requires Simplifies(rooted, a, c, i) && Reduces(rooted, c, b)
    ensures Reduces(rooted, a, b)
  {
    assert |c| < |a|;
  }

  /** What cleaning has put out and what it has still to look at simplify to its result, and that is
      minimal. */
  lemma {:induction false} CleanedReduces(rooted: bool, out: Path, cs: Path)
    requires Minimal(rooted, out)
    ensures Reduces(rooted, out + cs, Cleaned(rooted, out, cs)) && Minimal(rooted, Cleaned(rooted, out, cs))
    decreases |cs|
  {
    MinimalParts(rooted, out);
    if cs == [] {
      assert out + cs == out;
    } else {
      var c, rest := cs[0], cs[1..];
      assert cs == [c] + rest && out + cs == out + [c] + rest;
      if c == "" || c == "." {
        CleanedReduces(rooted, out, rest);
        OneReduces(rooted, out, c, rest, Cleaned(rooted, out, rest));
      } else if c != ".." {
        MinimalParts(rooted, out + [c]);
        CleanedReduces(rooted, out + [c], rest);
      } else if out != [] && out[|out| - 1] != ".." {
        var init := out[..|out| - 1];
        MinimalParts(rooted, init);
        CleanedReduces(rooted, init, rest);
        assert out == init + [out[|out| - 1]];
        TwoReduce(rooted, init, out[|out| - 1], rest, Cleaned(rooted, init, rest));
      } else if rooted {
        AllNames(out);
        assert out == [] && out + cs == cs && out + rest == rest;
        CleanedReduces(rooted, out, rest);
        ReducesFirst(rooted, cs, rest, 0, Cleaned(rooted, out, rest));
      } else {
        MinimalParts(rooted, out + [".."]);
        CleanedReduces(rooted, out + [".."], rest);
      }
    }
  }

  lemma OneReduces(rooted: bool, out: Path, c: string, rest: Path, r: Path)
    requires (c == "" || c == ".") && Reduces(rooted, out + rest, r)
    ensures Reduces(rooted, out + [c] + rest, r)
  {
    Removes(out, [c], rest);
    ReducesFirst(rooted, out + [c] + rest, out + rest, |out|, r);
  }

  lemma TwoReduce(rooted: bool, out: Path, c: string, rest: Path, r: Path)
    requires IsName(c) && Reduces(rooted, out + rest, r)
    ensures Reduces(rooted, out + [c] + [".."] + rest, r)
  {
    assert out + [c] + [".."] + rest == out + [c, ".."] + rest;
    Removes(out, [c, ".."], rest);
    ReducesFirst(rooted, out + [c, ".."] + rest, out + rest, |out|, r);
  }

  /** Taking out the middle of three lists. */
  lemma Removes(a: Path, m: Path, b: Path)
    ensures var all := a + m + b; all[..|a|] == a && all[|a| + |m|..] == b && forall i :: 0 <= i < |m| ==> all[|a| + i] == m[i]
  {
  }

  /** At the root no ".." is left. */
  lemma {:induction false} AllNames(out: Path)
    requires Minimal(true, out)
    ensures forall i :: 0 <= i < |out| ==> out[i] != ".."
  {
    MinimalParts(true, out);
    if out != [] {
      var n := |out| - 1;
      forall i | 0 <= i < n ensures out[i] != ".." { NamesBefore(out, i); }
      NamesBefore(out, n);
    }
  }

  lemma {:induction false} NamesBefore(out: Path, i: nat)
    requires Minimal(true, out) && i < |out|
    ensures out[i] != ".."
    decreases i
  {
    MinimalParts(true, out);
    if i > 0 { NamesBefore(out, i - 1); }
  }

  lemma {:induction false} CleanedAgrees(rooted: bool, a: Path, b: Path)
    requires Reduces(rooted, a, b)
    ensures Cleaned(rooted, [], a) == Cleaned(rooted, [], b)
    decreases |a|
  {
    if a != b {
      var c, i: nat :| Simplifies(rooted, a, c, i) && |c| < |a| && Reduces(rooted, c, b);
      CleanedSame(rooted, a, c, i);
      CleanedAgrees(rooted, c, b);
    }
  }

  /** Whatever is simplified first, there is one end, and cleaning finds it. */
  lemma CleanedExactly(rooted: bool, cs: Path, out: Path)
    ensures Reduces(rooted, cs, out) && Minimal(rooted, out) <==> out == Cleaned(rooted, [], cs)
  {
    MinimalParts(rooted, []);
    CleanedReduces(rooted, [], cs);
    assert [] + cs == cs;
    if Reduces(rooted, cs, out) && Minimal(rooted, out) {
      CleanedAgrees(rooted, cs, out);
      assert [] + out == out;
      CleanedFixed(rooted, [], out);
    }
  }

  /** The components of a string are what joins to it and has no slash. */
  ghost predicate ComponentsOf(cs: Path, s: string) {
    cs != [] && (forall i :: 0 <= i < |cs| ==> '/' !in cs[i]) && Join(cs) == s
  }

  /** Clean: the simplified path, with its leading slash if it had one, and "." for nothing. */
  lemma CleanExactly(s: string, cs: Path, out: Path)
    requires ComponentsOf(cs, s) && Reduces(s != "" && s[0] == '/', cs, out) && Minimal(s != "" && s[0] == '/', out)
    ensures Clean(s) == if s != "" && s[0] == '/' then "/" + Join(out) else if out == [] then "." else Join(out)
  {
    SplitJoin(cs);
    CleanedExactly(IsAbs(s), cs, out);
    MinimalParts(IsAbs(s), out);
    if out != [] { JoinStarts(out); }
  }

  /** Join of two elements cleans their components one after the other; an empty element is left out. */
  lemma JoinTwoExactly(a: string, b: string, p: Path, q: Path, out: Path)
    requires ComponentsOf(p, a) && ComponentsOf(q, b) && !IsAbs(a) && !IsAbs(b)
    requires Reduces(false, p + q, out) && Minimal(false, out)
    ensures JoinTwo(a, b) == if out == [] then (if a == "" && b == "" then "" else ".") else Join(out)
  {
    SplitJoin(p);
    SplitJoin(q);
    JoinAppend(p, q);
    CleanedExactly(false, p + q, out);
    CleanedJoin(false, [], p, q);
    SplitFirst("", "");
    assert [""][1..] == [];
    assert forall cs: Path :: Cleaned(false, cs, [""]) == cs;
    MinimalParts(false, out);
    if out != [] { JoinStarts(out); }
    SplitJoin(p + q);
  }

  // ---- trimFirstDir ----------------------------------------------------------------------------

  lemma {:induction false} TrimmedSlashes(run: string, t: string)
    requires (forall i :: 0 <= i < |run| ==> run[i] == '/') && (t == "" || t[0] != '/')
    ensures Trimmed(run + t, true) == t
  {
    if run == "" {
      assert run + t == t;
    } else {
      assert (run + t)[1..] == run[1..] + t;
      TrimmedSlashes(run[1..], t);
    }
  }

  /** Everything up to the first slash, and all slashes that follow there, are cut off; without a slash
      everything is. */
  lemma {:induction false} TrimmedExactly(a: string, run: string, t: string)
    requires '/' !in a && (forall i :: 0 <= i < |run| ==> run[i] == '/') && (t == "" || t[0] != '/')
    ensures run != "" ==> Trimmed(a + run + t, false) == t
    ensures Trimmed(a, false) == ""
  {
    if a == "" {
      assert a + run + t == run + t;
      if run != "" {
        assert (run + t)[1..] == run[1..] + t;
        TrimmedSlashes(run[1..], t);
      }
    } else {
      assert a[0] in a;
      assert (a + run + t)[1..] == a[1..] + run + t;
      TrimmedExactly(a[1..], run, t);
    }
  }
}
