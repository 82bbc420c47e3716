/** Two operations in the manner of operator/fileop/copy.go and operator/templateop/template.go that
    meet what ApplySound asks of operations. */
module ApplyExamples {
  import opened Base
  import opened State
  import opened Apply
  import opened ApplySound

  function Shown(l: string, e: Env, target: bool): Entry {
    Entry(l, None, Some(map["content" := if l in e then Text(e[l]) else Null]), target)
  }

  /** Copies `src` to `dest` and fails when there is nothing to copy. */
  function CopyOp(src: string, dest: string): Operator {
    Operator("copy", "copy " + src + " " + dest,
             (e: Env) => if src in e then RunResult(e[dest := e[src]], true) else RunResult(e, false),
             (e: Env) => Ok(State([Shown(src, e, false), Shown(dest, e, true)])),
             None, None)
  }

  /** Renders `src` into `dest`; its state shows `dest` only and its desired state what Run writes. */
  function TemplateOp(src: string, dest: string, render: string -> string): Operator {
    Operator("template", "template " + src + " " + dest,
             (e: Env) => if src in e then RunResult(e[dest := render(e[src])], true) else RunResult(e, false),
             (e: Env) => Ok(State([Shown(dest, e, false)])),
             Some((e: Env) => if src in e then Ok(State([Shown(dest, e[dest := render(e[src])], false)])) else Err),
             None)
  }

  lemma ShownExactly(l: string, a: Env, b: Env, target: bool)
    ensures ViewOf(Shown(l, a, target)) == ViewOf(Shown(l, b, target)) <==> SameAt(l, a, b)
  {
    var va, vb := Shown(l, a, target).kv.value, Shown(l, b, target).kv.value;
    assert va["content"] == (if l in a then Text(a[l]) else Null);
    assert vb["content"] == (if l in b then Text(b[l]) else Null);
  }

  lemma ShownStorable(l: string, e: Env, target: bool)
    ensures StorableEntry(Shown(l, e, target))
  {
    assert "content" in Shown(l, e, target).kv.value;
  }

  lemma CopyParts(src: string, dest: string, e: Env)
    ensures var st := CopyOp(src, dest).getState(e).value;
            && Source(st) == State([Shown(src, e, false)]) && Target(st) == State([Shown(dest, e, true)])
            && Storable(st)
  {
    var es := CopyOp(src, dest).getState(e).value.entries;
    assert es[..1] == [es[0]];
    SelectOne(es[0], false);
    SelectOne(es[0], true);
    ShownStorable(src, e, false);
    ShownStorable(dest, e, true);
  }

  lemma CopyTracks(src: string, dest: string)
    requires src != dest
    ensures Tracks(CopyOp(src, dest), Footprint({src}, {dest})) && WellBehaved(CopyOp(src, dest))
  {
    var op, fp := CopyOp(src, dest), Footprint({src}, {dest});
    forall a: Env, b: Env ensures Depends(op, fp, a, b) {
      if AgreeOn(fp.inputs, a, b) { assert SameAt(src, a, b); }
    }
    forall a: Env, b: Env ensures Observes(op, fp, a, b) {
      CopyParts(src, dest, a);
      CopyParts(src, dest, b);
      ShownExactly(src, a, b, false);
      ShownExactly(dest, a, b, true);
      var sa, sb := op.getState(a).value, op.getState(b).value;
      assert SourceViews(sa)[0] == ViewOf(Shown(src, a, false)) && SourceViews(sb)[0] == ViewOf(Shown(src, b, false));
      assert TargetViews(sa)[0] == ViewOf(Shown(dest, a, true)) && TargetViews(sb)[0] == ViewOf(Shown(dest, b, true));
    }
    forall e: Env ensures StorableAfter(op, e) { CopyParts(src, dest, op.run(e).env); }
  }

  lemma TemplateParts(src: string, dest: string, render: string -> string, e: Env)
    ensures var st := TemplateOp(src, dest, render).getState(e).value;
            && Source(st) == st && Target(st) == NEW_STATE && Storable(st)
  {
    TemplateShows(src, dest, render, e);
    OnlySource(Shown(dest, e, false));
    ShownStorable(dest, e, false);
  }

  lemma TemplateShows(src: string, dest: string, render: string -> string, e: Env)
    ensures TemplateOp(src, dest, render).getState(e) == Ok(State([Shown(dest, e, false)]))
  {
  }

  /** A state with one source entry. */
  lemma OnlySource(e: Entry)
    requires !e.target
    ensures Source(State([e])) == State([e]) && Target(State([e])) == NEW_STATE
  {
    SelectOne(e, false);
    SelectOne(e, true);
  }

  lemma TemplatePredicts(src: string, dest: string, render: string -> string)
    ensures Predicts(TemplateOp(src, dest, render), Footprint({src}, {dest})) && WellBehaved(TemplateOp(src, dest, render))
  {
    var op, fp := TemplateOp(src, dest, render), Footprint({src}, {dest});
    forall a: Env, b: Env ensures Foresees(op, fp, a, b) {
      TemplateParts(src, dest, render, a);
      TemplateParts(src, dest, render, b);
      TemplateParts(src, dest, render, op.run(a).env);
      ShownExactly(dest, a, b, false);
      var sa, sb := op.getState(a).value, op.getState(b).value;
      assert SourceViews(sa)[0] == ViewOf(Shown(dest, a, false)) && SourceViews(sb)[0] == ViewOf(Shown(dest, b, false));
    }
    forall e: Env ensures StorableAfter(op, e) { TemplateParts(src, dest, render, op.run(e).env); }
  }

  /** A catalog with both: the theorem about histories is about something. */
  lemma CatalogExists()
    ensures exists c :: |c| == 2 && GoodCatalog(c)
  {
    var copy, tmpl := CopyOp("a", "b"), TemplateOp("a", "c", (s: string) => s);
    CopyTracks("a", "b");
    TemplatePredicts("a", "c", (s: string) => s);
    assert copy.key[0] == 'c' && tmpl.key[0] == 't';
    var c: Catalog := map[copy.key := Managed(copy, Footprint({"a"}, {"b"})), tmpl.key := Managed(tmpl, Footprint({"a"}, {"c"}))];
    assert GoodCatalog(c);
    assert c.Keys == {copy.key, tmpl.key};
  }
}
