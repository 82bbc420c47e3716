/** Operator states and when they count as changed (state/entry.go, state/state.go,
    operator/opfs/file.go). */
module State {
  import opened Base

  /** fs.FileInfo as far as the program reads it. Instants are integers, so that Time.Equal is ==. */
  datatype FileInfo = FileInfo(name: string, modTime: int, mode: nat, size: int)

  const ZERO_TIME: int := 0

  /** fs.ModeDir is the top bit of a file mode. */
  predicate IsDir(info: FileInfo) {
    (info.mode / 0x8000_0000) % 2 == 1
  }

  datatype FileEntry = FileEntry(info: Option<FileInfo>, sha256: seq<byte>, contents: seq<byte>)

  /** The values of a KV map: those JSON can give back, and Go integers, which it cannot. */
  datatype Value =
    | Null
    | Bool(b: bool)
    | Text(s: string)
    | Int(n: int)
    | Float(x: real)
    | List(items: seq<Value>)

  datatype Entry = Entry(name: string, file: Option<FileEntry>, kv: Option<map<string, Value>>, target: bool)

  datatype State = State(entries: seq<Entry>)

  // ---- Changed ---------------------------------------------------------------------------------

  /** Two file entries without Info and with equal checksums make Changed dereference nil. */
  predicate Comparable(e: Entry, oe: Entry) {
    e.file.Some? && oe.file.Some? && e.file.value.sha256 == oe.file.value.sha256 ==>
      e.file.value.info.Some? || oe.file.value.info.Some?
  }

  predicate FileChanged(sf: FileEntry, of: FileEntry)
    requires sf.sha256 == of.sha256 ==> sf.info.Some? || of.info.Some?
  {
    if sf.info.None? != of.info.None? then true
    else if sf.sha256 != of.sha256 then true
    else
      IsDir(sf.info.value) != IsDir(of.info.value)
      || sf.info.value.mode != of.info.value.mode
      || sf.info.value.modTime != of.info.value.modTime
  }

  function Lookup(kv: map<string, Value>, k: string): Value {
    if k in kv then kv[k] else Null
  }

  predicate KVChanged(kv: Option<map<string, Value>>, okv: Option<map<string, Value>>) {
    if kv.None? != okv.None? then true
    else if kv.None? then false
    else if |kv.value| != |okv.value| then true
    else if exists k :: k in kv.value && kv.value[k] != Lookup(okv.value, k) then true
    else exists k :: k in okv.value && k !in kv.value
  }

  /** Entry.Changed. */
  predicate Changed(e: Entry, oe: Entry)
    requires Comparable(e, oe)
  {
    if e.name != oe.name then true
    else if e.file.None? != oe.file.None? then true
    else if e.file.Some? && FileChanged(e.file.value, oe.file.value) then true
    else KVChanged(e.kv, oe.kv)
  }

  /** What Changed looks at. */
  datatype FileView = FileView(sha256: seq<byte>, attributes: Option<(nat, int)>)
  datatype View = View(name: string, file: Option<FileView>, kv: Option<map<string, Value>>)

  function ViewOf(e: Entry): View {
    View(e.name,
         match e.file
         case None => None
         case Some(f) =>
           Some(FileView(f.sha256, match f.info case None => None case Some(i) => Some((i.mode, i.modTime)))),
         e.kv)
  }

  lemma SubsetSameSize<T>(a: set<T>, b: set<T>)
    requires a <= b && |a| == |b|
    ensures a == b
  {
    assert b == a + (b - a);
    assert |b - a| == 0;
  }

  lemma KVChangedExactly(kv: Option<map<string, Value>>, okv: Option<map<string, Value>>)
    ensures KVChanged(kv, okv) <==> kv != okv
  {
    if kv.Some? && okv.Some? && !KVChanged(kv, okv) {
      assert forall k :: k in okv.value ==> k in kv.value;
      SubsetSameSize(okv.value.Keys, kv.value.Keys);
      forall k | k in kv.value ensures kv.value[k] == okv.value[k] {
        assert k in okv.value.Keys;
      }
      assert kv.value == okv.value;
    }
  }

  /** Changed compares the views and nothing else: not sizes, file names, contents or the target
      flag. */
  lemma ChangedExactly(e: Entry, oe: Entry)
    requires Comparable(e, oe)
    ensures Changed(e, oe) <==> ViewOf(e) != ViewOf(oe)
  {
    KVChangedExactly(e.kv, oe.kv);
  }

  function Views(s: State): (vs: seq<View>)
    ensures |vs| == |s.entries| && forall i :: 0 <= i < |vs| ==> vs[i] == ViewOf(s.entries[i])
  {
    seq(|s.entries|, i requires 0 <= i < |s.entries| => ViewOf(s.entries[i]))
  }

  predicate ComparableStates(s: State, o: State) {
    forall i :: 0 <= i < |s.entries| && i < |o.entries| ==> Comparable(s.entries[i], o.entries[i])
  }

  predicate StateChanged(s: State, o: State)
    requires ComparableStates(s, o)
  {
    |s.entries| != |o.entries| || exists i :: 0 <= i < |s.entries| && Changed(s.entries[i], o.entries[i])
  }

  /** State.Changed. */
  method ChangedState(s: State, o: State) returns (changed: bool)
    requires ComparableStates(s, o)
    ensures changed <==> Views(s) != Views(o)
  {
    StateChangedExactly(s, o);
    if |s.entries| != |o.entries| { return true; }
    for i := 0 to |s.entries|
      invariant forall j :: 0 <= j < i ==> !Changed(s.entries[j], o.entries[j])
    {
      if Changed(s.entries[i], o.entries[i]) { return true; }
    }
    return false;
  }

  lemma StateChangedExactly(s: State, o: State)
    requires ComparableStates(s, o)
    ensures StateChanged(s, o) <==> Views(s) != Views(o)
  {
    forall i | 0 <= i < |s.entries| && i < |o.entries| {
      ChangedExactly(s.entries[i], o.entries[i]);
    }
    if !StateChanged(s, o) {
      assert forall i :: 0 <= i < |s.entries| ==> Views(s)[i] == Views(o)[i];
    } else if |s.entries| == |o.entries| {
      var i :| 0 <= i < |s.entries| && Changed(s.entries[i], o.entries[i]);
      assert Views(s)[i] != Views(o)[i];
    }
  }

  /** Every file entry carries an Info: nothing can go wrong in a comparison. */
  predicate Carries(s: State) {
    forall e :: e in s.entries && e.file.Some? ==> e.file.value.info.Some?
  }

  lemma CarriesComparable(s: State, o: State)
    requires Carries(s) || Carries(o)
    ensures ComparableStates(s, o) && ComparableStates(o, s)
  {
  }

  /** On such states "not changed" is an equivalence. */
  lemma UnchangedIsEquivalence(a: State, b: State, c: State)
    requires Carries(a) && Carries(b) && Carries(c)
    ensures ComparableStates(a, a) && ComparableStates(a, b) && ComparableStates(b, a) && ComparableStates(b, c) && ComparableStates(a, c)
    ensures !StateChanged(a, a)
    ensures !StateChanged(a, b) ==> !StateChanged(b, a)
    ensures !StateChanged(a, b) && !StateChanged(b, c) ==> !StateChanged(a, c)
  {
    CarriesComparable(a, a); CarriesComparable(a, b); CarriesComparable(b, c); CarriesComparable(a, c);
    StateChangedExactly(a, a); StateChangedExactly(a, b); StateChangedExactly(b, a);
    StateChangedExactly(b, c); StateChangedExactly(a, c);
  }

  // ---- Source and Target -----------------------------------------------------------------------

  function Select(es: seq<Entry>, target: bool): seq<Entry> {
    if es == [] then []
    else
      var init := Select(es[..|es| - 1], target);
      var last := es[|es| - 1];
      if last.target == target then init + [last] else init
  }

  function Source(s: State): State { State(Select(s.entries, false)) }

  function Target(s: State): State { State(Select(s.entries, true)) }

  predicate Empty(s: State) { s.entries == [] }

  /** The loops of State.Source and State.Target. */
  method Split(s: State) returns (source: State, target: State)
    ensures source == Source(s) && target == Target(s)
  {
    var src, tgt := [], [];
    for i := 0 to |s.entries|
      invariant src == Select(s.entries[..i], false) && tgt == Select(s.entries[..i], true)
    {
      assert s.entries[..i + 1][..i] == s.entries[..i];
      if s.entries[i].target { tgt := tgt + [s.entries[i]]; } else { src := src + [s.entries[i]]; }
    }
    assert s.entries[..|s.entries|] == s.entries;
    source, target := State(src), State(tgt);
  }

  lemma {:induction false} SelectJoin(xs: seq<Entry>, ys: seq<Entry>, target: bool)
    ensures Select(xs + ys, target) == Select(xs, target) + Select(ys, target)
    decreases |ys|
  {
    if ys == [] {
      assert xs + ys == xs;
    } else {
      var n := |ys| - 1;
      assert (xs + ys)[..|xs + ys| - 1] == xs + ys[..n];
      SelectJoin(xs, ys[..n], target);
    }
  }

  /** The parts hold the entries with and without the target mark, in the order of the state. */
  lemma PartsExactly(xs: seq<Entry>, e: Entry, ys: seq<Entry>)
    ensures Source(State(xs + [e] + ys)).entries
         == Source(State(xs)).entries + (if e.target then [] else [e]) + Source(State(ys)).entries
    ensures Target(State(xs + [e] + ys)).entries
         == Target(State(xs)).entries + (if e.target then [e] else []) + Target(State(ys)).entries
    ensures Source(State([])).entries == [] && Target(State([])).entries == []
  {
    SelectAround(xs, e, ys, false);
    SelectAround(xs, e, ys, true);
  }

  lemma SelectOne(e: Entry, target: bool)
    ensures Select([e], target) == if e.target == target then [e] else []
  {
    assert [e][..0] == [];
  }

  lemma SelectAround(xs: seq<Entry>, e: Entry, ys: seq<Entry>, target: bool)
    ensures Select(xs + [e] + ys, target)
         == Select(xs, target) + (if e.target == target then [e] else []) + Select(ys, target)
  {
    SelectJoin(xs + [e], ys, target);
    SelectJoin(xs, [e], target);
    SelectOne(e, target);
  }

  lemma {:induction false} SelectIn(es: seq<Entry>, target: bool)
    ensures forall e :: e in Select(es, target) <==> e in es && e.target == target
  {
    if es != [] {
      SelectIn(es[..|es| - 1], target);
      assert es == es[..|es| - 1] + [es[|es| - 1]];
    }
  }

  lemma CarriesSplit(s: State)
    requires Carries(s)
    ensures Carries(Source(s)) && Carries(Target(s))
  {
    SelectIn(s.entries, false);
    SelectIn(s.entries, true);
  }

  // ---- Storing and loading ---------------------------------------------------------------------

  /** StateFileEntry.MarshalJSON then UnmarshalJSON: without Info it becomes null and comes back as
      no file at all; otherwise the Info and the checksum come back, the contents do not. */
  function ReloadFile(f: FileEntry): Option<FileEntry> {
    match f.info
    case None => None
    case Some(info) => Some(FileEntry(Some(info), f.sha256, []))
  }

  /** JSON has one kind of number. */
  function ReloadValue(v: Value): Value {
    match v
    case Int(n) => Float(n as real)
    case List(items) => List(seq(|items|, i requires 0 <= i < |items| => ReloadValue(items[i])))
    case _ => v
  }

  /** An empty KV map is omitted. */
  function ReloadKV(kv: Option<map<string, Value>>): Option<map<string, Value>> {
    match kv
    case None => None
    case Some(m) => if m == map[] then None else Some(map k | k in m :: ReloadValue(m[k]))
  }

  function ReloadEntry(e: Entry): Entry {
    Entry(e.name, match e.file case None => None case Some(f) => ReloadFile(f), ReloadKV(e.kv), e.target)
  }

  function Reload(s: State): (r: State)
    ensures |r.entries| == |s.entries| && forall i :: 0 <= i < |s.entries| ==> r.entries[i] == ReloadEntry(s.entries[i])
  {
    State(seq(|s.entries|, i requires 0 <= i < |s.entries| => ReloadEntry(s.entries[i])))
  }

  /** Loading what was loaded changes nothing more; and a state comes back whole exactly when Changed
      could not tell it from what comes back and no file holds contents. */
  lemma ReloadAgain(s: State)
    ensures Reload(s) == s <==> Storable(s) && forall e :: e in s.entries && e.file.Some? ==> e.file.value.contents == []
    ensures Reload(Reload(s)) == Reload(s)
  {
    forall i | 0 <= i < |s.entries|
      ensures ReloadEntry(s.entries[i]) == s.entries[i] <==> StorableEntry(s.entries[i]) && Emptied(s.entries[i])
      ensures ReloadEntry(ReloadEntry(s.entries[i])) == ReloadEntry(s.entries[i]) {
      ReloadEntryAgain(s.entries[i]);
    }
    if Reload(s) == s {
      forall e | e in s.entries ensures StorableEntry(e) && Emptied(e) {
        var i :| 0 <= i < |s.entries| && s.entries[i] == e;
        assert Reload(s).entries[i] == ReloadEntry(e);
      }
    }
    if Storable(s) && forall e :: e in s.entries ==> Emptied(e) { assert Reload(s).entries == s.entries; }
    assert Reload(Reload(s)).entries == Reload(s).entries;
  }

  /** The same value, as far as JSON can say: an integer is the number it is. */
  predicate SameValue(v: Value, w: Value) {
    match v
    case Int(n) => w == Float(n as real)
    case List(items) => w.List? && |w.items| == |items| && forall i :: 0 <= i < |items| ==> SameValue(items[i], w.items[i])
    case _ => w == v
  }

  lemma {:induction false} ValueComesBack(v: Value)
    ensures SameValue(v, ReloadValue(v))
    decreases v
  {
    if v.List? {
      forall i | 0 <= i < |v.items| ensures SameValue(v.items[i], ReloadValue(v).items[i]) { ValueComesBack(v.items[i]); }
    }
  }

  /** What comes back of an entry, whatever else is wrong with it: its name and mark, the information and
      the checksum of its file, and its values under their keys. */
  lemma EntryComesBack(e: Entry)
    ensures var r := ReloadEntry(e);
            && r.name == e.name && r.target == e.target
            && (r.file.Some? <==> e.file.Some? && e.file.value.info.Some?)
            && (r.file.Some? ==> r.file.value.info == e.file.value.info && r.file.value.sha256 == e.file.value.sha256)
            && (r.kv.Some? <==> e.kv.Some? && e.kv.value != map[])
            && (r.kv.Some? ==> r.kv.value.Keys == e.kv.value.Keys
                               && forall k :: k in e.kv.value ==> SameValue(e.kv.value[k], r.kv.value[k]))
  {
    if e.kv.Some? {
      forall k | k in e.kv.value ensures SameValue(e.kv.value[k], ReloadValue(e.kv.value[k])) { ValueComesBack(e.kv.value[k]); }
    }
  }

  predicate Emptied(e: Entry) {
    e.file.Some? ==> e.file.value.contents == []
  }

  lemma ReloadEntryAgain(e: Entry)
    ensures ReloadEntry(e) == e <==> StorableEntry(e) && Emptied(e)
    ensures ReloadEntry(ReloadEntry(e)) == ReloadEntry(e)
  {
    ReloadEntryExactly(e);
    ReloadEntryExactly(ReloadEntry(e));
    ReloadStable(e);
  }

  /** What comes back is storable. */
  lemma ReloadStable(e: Entry)
    ensures StorableEntry(ReloadEntry(e)) && Emptied(ReloadEntry(e))
  {
    if e.kv.Some? && e.kv.value != map[] {
      var m, r := e.kv.value, ReloadKV(e.kv).value;
      var k :| k in m;
      assert k in r;
      forall j | j in r ensures StableValue(r[j]) { ReloadValueStable(m[j]); }
    }
  }

  lemma {:induction false} ReloadValueStable(v: Value)
    ensures StableValue(ReloadValue(v))
    decreases v
  {
    if v.List? {
      forall i | 0 <= i < |v.items| ensures StableValue(ReloadValue(v.items[i])) { ReloadValueStable(v.items[i]); }
    }
  }

  predicate StableValue(v: Value) {
    match v
    case Int(_) => false
    case List(items) => forall i :: 0 <= i < |items| ==> StableValue(items[i])
    case _ => true
  }

  /** What comes back from the state directory as it went in. */
  predicate StorableEntry(e: Entry) {
    && (e.file.Some? ==> e.file.value.info.Some?)
    && (e.kv.Some? ==> e.kv.value != map[] && forall k :: k in e.kv.value ==> StableValue(e.kv.value[k]))
  }

  predicate Storable(s: State) {
    forall i :: 0 <= i < |s.entries| ==> StorableEntry(s.entries[i])
  }

  lemma {:induction false} StableExactly(v: Value)
    ensures ReloadValue(v) == v <==> StableValue(v)
    decreases v
  {
    if v.List? {
      forall i | 0 <= i < |v.items| { StableExactly(v.items[i]); }
      var r := ReloadValue(v);
      assert |r.items| == |v.items| && forall i :: 0 <= i < |v.items| ==> r.items[i] == ReloadValue(v.items[i]);
      if StableValue(v) { assert r.items == v.items; }
    }
  }

  lemma ReloadEntryExactly(e: Entry)
    ensures ViewOf(ReloadEntry(e)) == ViewOf(e) <==> StorableEntry(e)
  {
    if e.kv.Some? {
      var m := e.kv.value;
      forall k | k in m { StableExactly(m[k]); }
      if m != map[] {
        var r := ReloadKV(e.kv).value;
        if r == m {
          forall k | k in m ensures StableValue(m[k]) { assert r[k] == m[k]; }
        }
        if forall k :: k in m ==> StableValue(m[k]) {
          assert forall k :: k in m ==> r[k] == m[k];
          assert r == m;
        }
      }
    }
  }

  /** Storing a state and reading it back leaves it unchanged exactly when every file entry carries
      an Info, no KV map is empty and no KV value is an integer. */
  lemma ReloadUnchangedExactly(s: State)
    ensures ComparableStates(Reload(s), s) && Carries(Reload(s))
    ensures !StateChanged(Reload(s), s) <==> Storable(s)
  {
    forall e | e in Reload(s).entries ensures e.file.Some? ==> e.file.value.info.Some? {
      var i :| 0 <= i < |s.entries| && e == Reload(s).entries[i];
      assert e == ReloadEntry(s.entries[i]);
    }
    CarriesComparable(Reload(s), s);
    StateChangedExactly(Reload(s), s);
    forall i | 0 <= i < |s.entries| { ReloadEntryExactly(s.entries[i]); }
    if Storable(s) {
      assert forall i :: 0 <= i < |s.entries| ==> Views(Reload(s))[i] == Views(s)[i];
    } else {
      var i :| 0 <= i < |s.entries| && !StorableEntry(s.entries[i]);
      assert Views(Reload(s))[i] != Views(s)[i];
    }
  }

  /** Reloading commutes with taking the source or the target part. */
  lemma {:induction false} ReloadSelect(es: seq<Entry>, target: bool)
    ensures Select(Reload(State(es)).entries, target) == Reload(State(Select(es, target))).entries
  {
    var rs := Reload(State(es)).entries;
    if es != [] {
      var m := |es| - 1;
      ReloadSelect(es[..m], target);
      assert rs[..m] == Reload(State(es[..m])).entries;
      if es[m].target == target {
        assert Reload(State(Select(es[..m], target) + [es[m]])).entries == Reload(State(Select(es[..m], target))).entries + [ReloadEntry(es[m])];
      }
    } else {
      assert rs == [];
    }
  }

  lemma {:induction false} StorableSelect(es: seq<Entry>, target: bool)
    requires Storable(State(es))
    ensures Storable(State(Select(es, target)))
  {
    SelectIn(es, target);
    forall i | 0 <= i < |Select(es, target)| ensures StorableEntry(Select(es, target)[i]) {
      var e := Select(es, target)[i];
      assert e in es;
      var j :| 0 <= j < |es| && es[j] == e;
      assert StorableEntry(State(es).entries[j]);
    }
  }

  /** A storable state comes back with the same source and target, as far as Changed can tell. */
  lemma ReloadParts(s: State)
    requires Storable(s)
    ensures Views(Source(Reload(s))) == Views(Source(s)) && Views(Target(Reload(s))) == Views(Target(s))
  {
    assert State(s.entries) == s;
    ReloadSelect(s.entries, false);
    ReloadSelect(s.entries, true);
    StorableSelect(s.entries, false);
    StorableSelect(s.entries, true);
    ReloadUnchangedExactly(Source(s));
    ReloadUnchangedExactly(Target(s));
    StateChangedExactly(Reload(Source(s)), Source(s));
    StateChangedExactly(Reload(Target(s)), Target(s));
  }

  // ---- Reduced entries -------------------------------------------------------------------------

  /** Entry.WithoutTimestamps. */
  function WithoutTimestamps(e: Entry): Entry {
    match e.file
    case None => e
    case Some(f) =>
      match f.info
      case None => e
      case Some(i) => e.(file := Some(f.(info := Some(FileInfo(i.name, ZERO_TIME, i.mode, i.size)))))
  }

  /** Entry.ChecksumOnly. */
  function ChecksumOnly(e: Entry): Entry {
    match e.file
    case None => e
    case Some(f) =>
      match f.info
      case None => e.(file := Some(FileEntry(None, f.sha256, [])))
      case Some(_) => e.(file := Some(FileEntry(Some(FileInfo("", ZERO_TIME, 0, 0)), f.sha256, [])))
  }

  predicate CarriesInfo(e: Entry) {
    e.file.Some? ==> e.file.value.info.Some?
  }

  /** Both keep what says whose entry it is and to which part it belongs; without timestamps a file
      keeps everything but its time. */
  lemma ReducedKeep(e: Entry)
    ensures WithoutTimestamps(e).name == e.name && WithoutTimestamps(e).kv == e.kv && WithoutTimestamps(e).target == e.target
    ensures ChecksumOnly(e).name == e.name && ChecksumOnly(e).kv == e.kv && ChecksumOnly(e).target == e.target
    ensures WithoutTimestamps(e).file.Some? == e.file.Some? == ChecksumOnly(e).file.Some?
    ensures e.file.Some? ==> var f, t, c := e.file.value, WithoutTimestamps(e).file.value, ChecksumOnly(e).file.value;
              && t.sha256 == f.sha256 == c.sha256 && t.contents == f.contents && c.contents == []
              && t.info.Some? == f.info.Some? == c.info.Some?
              && (f.info.Some? ==>
                    && t.info.value.(modTime := f.info.value.modTime) == f.info.value && t.info.value.modTime == ZERO_TIME
                    && forall g: FileInfo :: c.info.value == ChecksumOnly(e.(file := Some(f.(info := Some(g))))).file.value.info.value)
  {
  }

  /** Without timestamps entries differ exactly when they differ in something other than time. */
  lemma WithoutTimestampsExactly(a: Entry, b: Entry, t: int)
    requires CarriesInfo(a) && CarriesInfo(b)
    ensures Comparable(WithoutTimestamps(a), WithoutTimestamps(b))
    ensures Changed(WithoutTimestamps(a), WithoutTimestamps(b)) <==> ViewOf(AtTime(a, t)) != ViewOf(AtTime(b, t))
  {
    ChangedExactly(WithoutTimestamps(a), WithoutTimestamps(b));
  }

  function AtTime(e: Entry, t: int): Entry {
    if e.file.Some? && e.file.value.info.Some? then
      e.(file := Some(e.file.value.(info := Some(e.file.value.info.value.(modTime := t)))))
    else e
  }

  /** With checksums only, entries differ exactly in name, KV, having a file, or its checksum. */
  lemma ChecksumOnlyExactly(a: Entry, b: Entry)
    requires CarriesInfo(a) && CarriesInfo(b)
    ensures Comparable(ChecksumOnly(a), ChecksumOnly(b))
    ensures !Changed(ChecksumOnly(a), ChecksumOnly(b)) <==>
              && a.name == b.name && a.kv == b.kv && a.file.None? == b.file.None?
              && (a.file.Some? ==> a.file.value.sha256 == b.file.value.sha256)
  {
    ChangedExactly(ChecksumOnly(a), ChecksumOnly(b));
  }
}
