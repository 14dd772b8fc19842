/** The scenarios of the repository's test suite, replayed on the model:
    plugin lists built from a named plugin, anonymous plugins and filter
    instances, and the list and warnings each pass leaves. */
module FilterPluginsScenarios {
  import opened FilterPlugins

  /** `postcss-minify-font-weight`, a plugin with a name and no `_id`. */
  const FontWeightName: string := "postcss-minify-font-weight"
  const FontWeight: Step := Step(Some(FontWeightName), None)

  /** A bare function used as a plugin: no name, no `_id`. */
  const Anonymous: Step := Step(None, None)

  /** The warning the default template gives for `FontWeight`. */
  const FontWeightWarning: string := "Found duplicate plugin: " + FontWeightName

  /** The named plugin of these scenarios is not named like the filter. */
  lemma NotFilterName()
    ensures Some(FontWeightName) != Some(FilterName)
  {
    assert FontWeightName[8] != FilterName[8];
  }

  /** Replays one visit of a concrete scan: from the state, survivors and
      removed steps after `xs` and the visit `Examine` makes of `x`, those after
      `xs + [x]`. */
  lemma Extend(f: Filter, xs: seq<Step>, x: Step, sc: Scan, kept: seq<Step>, removed: seq<Step>, v: Visit)
    requires Fold(f, xs) == sc && Filtered(f, xs) == kept && Removed(f, xs) == removed
    requires Examine(f, sc, x) == v
    ensures Fold(f, xs + [x]) == v.scan
    ensures Filtered(f, xs + [x]) == kept + (if v.keep then [x] else [])
    ensures Removed(f, xs + [x]) == removed + (if v.keep then [] else [x])
  {
    PrefixStep(f, xs + [x], |xs|);
    RemovedStep(f, xs + [x], |xs|);
    assert (xs + [x])[..|xs|] == xs;
    assert (xs + [x])[..|xs| + 1] == xs + [x];
  }

  /** The three visits of `DuplicateAfterFilter` with default options. */
  lemma DuplicateVisits(id: string)
    ensures var f := Filter(DefaultOptions(), id);
            var seen := [FontWeight.name];
            Examine(f, Start, FontWeight) == Visit(true, Scan(false, [], [], seen)) &&
            Examine(f, Scan(false, [], [], seen), f.AsStep()) == Visit(true, Scan(true, [], [], seen)) &&
            Examine(f, Scan(true, [], [], seen), FontWeight) == Visit(false, Scan(true, [], [], seen))
  {
    NotFilterName();
  }

  /** A later `postcss-minify-font-weight` after the filter is removed with
      one default warning; `silent` keeps the removal and drops the warning. */
  lemma DuplicateAfterFilter(id: string)
    ensures var f := Filter(DefaultOptions(), id);
            var xs := [FontWeight, f.AsStep(), FontWeight];
            Filtered(f, xs) == [FontWeight, f.AsStep()] && Removed(f, xs) == [FontWeight] &&
            Emitted(f, xs) == [FontWeightWarning]
    ensures var f := Filter(DefaultOptions().(silent := true), id);
            var xs := [FontWeight, f.AsStep(), FontWeight];
            Filtered(f, xs) == [FontWeight, f.AsStep()] && Emitted(f, xs) == []
  {
    DuplicateVisits(id);
    var f := Filter(DefaultOptions(), id);
    var self := f.AsStep();
    var seen := [FontWeight.name];
    var xs1, xs2, xs := [FontWeight], [FontWeight, self], [FontWeight, self, FontWeight];
    assert [] + [FontWeight] == xs1 && xs1 + [self] == xs2 && xs2 + [FontWeight] == xs;
    assert Filtered(f, []) == [] && Removed(f, []) == [];
    Extend(f, [], FontWeight, Start, [], [], Visit(true, Scan(false, [], [], seen)));
    Extend(f, xs1, self, Scan(false, [], [], seen), xs1, [], Visit(true, Scan(true, [], [], seen)));
    Extend(f, xs2, FontWeight, Scan(true, [], [], seen), xs2, [], Visit(false, Scan(true, [], [], seen)));
    DefaultWarnings();
    SilentRemovesTheSame(f, xs, true, DefaultTemplate);
  }

  /** A custom `template` decides the warning text alone. */
  lemma CustomTemplate(id: string)
    ensures var template := (s: Step) => "Uh-oh: " + NameText(s.name);
            var f := Filter(DefaultOptions().(template := template), id);
            var xs := [FontWeight, f.AsStep(), FontWeight];
            Filtered(f, xs) == [FontWeight, f.AsStep()] && Emitted(f, xs) == ["Uh-oh: " + FontWeightName]
  {
    var template := (s: Step) => "Uh-oh: " + NameText(s.name);
    var f := Filter(DefaultOptions(), id);
    var xs := [FontWeight, f.AsStep(), FontWeight];
    DuplicateAfterFilter(id);
    SilentRemovesTheSame(f, xs, false, template);
    var g := Filter(DefaultOptions().(template := template), id);
    assert Warnings(g.options, [FontWeight]) == [template(FontWeight)];
  }

  /** An excluded name is neither removed nor warned about. */
  lemma ExcludedName(id: string)
    ensures var f := Filter(DefaultOptions().(exclude := [Some(FontWeightName)]), id);
            var xs := [FontWeight, f.AsStep(), FontWeight];
            Filtered(f, xs) == xs && Emitted(f, xs) == []
  {
    var f := Filter(DefaultOptions().(exclude := [Some(FontWeightName)]), id);
    var xs := [FontWeight, f.AsStep(), FontWeight];
    ProtectedSurvive(f, xs);
    KeepAll(f, xs);
  }

  /** The four visits of `ForwardFromFilter`: before the filter nothing is
      checked; after it the name is recorded, then found again. */
  lemma ForwardVisits(id: string)
    ensures var f := Filter(DefaultOptions().(direction := Forward), id);
            var after := Scan(true, [], [FontWeight.name], []);
            Examine(f, Start, FontWeight) == Visit(true, Start) &&
            Examine(f, Start, f.AsStep()) == Visit(true, Scan(true, [], [], [])) &&
            Examine(f, Scan(true, [], [], []), FontWeight) == Visit(true, after) &&
            Examine(f, after, FontWeight) == Visit(false, after)
  {
    NotFilterName();
  }

  /** The first three steps of `ForwardFromFilter`: all kept, and only the
      name met after the filter recorded. */
  lemma ForwardPrefix(id: string)
    ensures var f := Filter(DefaultOptions().(direction := Forward), id);
            var xs := [FontWeight, f.AsStep(), FontWeight];
            Fold(f, xs) == Scan(true, [], [FontWeight.name], []) &&
            Filtered(f, xs) == xs && Removed(f, xs) == []
  {
    var f := Filter(DefaultOptions().(direction := Forward), id);
    var self := f.AsStep();
    var xs1, xs2 := [FontWeight], [FontWeight, self];
    ForwardVisits(id);
    assert Filtered(f, []) == [] && Removed(f, []) == [];
    Extend(f, [], FontWeight, Start, [], [], Visit(true, Start));
    assert [] + [FontWeight] == xs1;
    Extend(f, xs1, self, Start, xs1, [], Visit(true, Scan(true, [], [], [])));
    assert xs1 + [self] == xs2;
    Extend(f, xs2, FontWeight, Scan(true, [], [], []), xs2, [], Visit(true, Scan(true, [], [FontWeight.name], [])));
    assert xs2 + [FontWeight] == [FontWeight, self, FontWeight];
  }

  /** With `forward`, the copy before the filter stays and the second copy
      after it is removed: one warning. */
  lemma ForwardFromFilter(id: string)
    ensures var f := Filter(DefaultOptions().(direction := Forward), id);
            var xs := [FontWeight, f.AsStep(), FontWeight, FontWeight];
            Filtered(f, xs) == [FontWeight, f.AsStep(), FontWeight] && |Emitted(f, xs)| == 1
  {
    var f := Filter(DefaultOptions().(direction := Forward), id);
    var self := f.AsStep();
    var after := Scan(true, [], [FontWeight.name], []);
    var xs3 := [FontWeight, self, FontWeight];
    ForwardVisits(id);
    ForwardPrefix(id);
    Extend(f, xs3, FontWeight, after, xs3, [], Visit(false, after));
    assert xs3 + [FontWeight] == [FontWeight, self, FontWeight, FontWeight];
  }

  /** The four visits of `BackwardFromFilter`: before the filter the name
      is recorded, then found again; after it nothing is checked. */
  lemma BackwardVisits(id: string)
    ensures var f := Filter(DefaultOptions().(direction := Backward), id);
            var before := Scan(false, [FontWeight.name], [], []);
            Examine(f, Start, FontWeight) == Visit(true, before) &&
            Examine(f, before, FontWeight) == Visit(false, before) &&
            Examine(f, before, f.AsStep()) == Visit(true, before.(filter := true)) &&
            Examine(f, before.(filter := true), FontWeight) == Visit(true, before.(filter := true))
  {
    NotFilterName();
  }

  /** The first two steps of `BackwardFromFilter`: the second copy before
      the filter is removed. */
  lemma BackwardPrefix(id: string)
    ensures var f := Filter(DefaultOptions().(direction := Backward), id);
            var xs := [FontWeight, FontWeight];
            Fold(f, xs) == Scan(false, [FontWeight.name], [], []) &&
            Filtered(f, xs) == [FontWeight] && Removed(f, xs) == [FontWeight]
  {
    BackwardVisits(id);
    var f := Filter(DefaultOptions().(direction := Backward), id);
    var before := Scan(false, [FontWeight.name], [], []);
    var xs1 := [FontWeight];
    assert Filtered(f, []) == [] && Removed(f, []) == [];
    Extend(f, [], FontWeight, Start, [], [], Visit(true, before));
    assert [] + [FontWeight] == xs1;
    Extend(f, xs1, FontWeight, before, xs1, [], Visit(false, before));
    assert xs1 + [FontWeight] == [FontWeight, FontWeight];
  }

  /** With `backward`, the second copy before the filter is removed and the
      copy after it stays: one warning. */
  lemma BackwardFromFilter(id: string)
    ensures var f := Filter(DefaultOptions().(direction := Backward), id);
            var xs := [FontWeight, FontWeight, f.AsStep(), FontWeight];
            Filtered(f, xs) == [FontWeight, f.AsStep(), FontWeight] && |Emitted(f, xs)| == 1
  {
    BackwardVisits(id);
    var f := Filter(DefaultOptions().(direction := Backward), id);
    var self := f.AsStep();
    var before := Scan(false, [FontWeight.name], [], []);
    var xs2, xs3 := [FontWeight, FontWeight], [FontWeight, FontWeight, self];
    BackwardPrefix(id);
    Extend(f, xs2, self, before, [FontWeight], [FontWeight], Visit(true, before.(filter := true)));
    assert xs2 + [self] == xs3;
    Extend(f, xs3, FontWeight, before.(filter := true), [FontWeight, self], [FontWeight],
           Visit(true, before.(filter := true)));
    assert xs3 + [FontWeight] == [FontWeight, FontWeight, self, FontWeight];
  }

  /** Four filter instances and nothing else: no instance removes or warns
      about another. */
  lemma FourFilters(o: Options, a: string, b: string, c: string, d: string)
    ensures var xs := [Filter(o, a).AsStep(), Filter(o, b).AsStep(), Filter(o, c).AsStep(), Filter(o, d).AsStep()];
            forall f :: f in [Filter(o, a), Filter(o, b), Filter(o, c), Filter(o, d)] ==>
              Filtered(f, xs) == xs && Emitted(f, xs) == []
  {
    var xs := [Filter(o, a).AsStep(), Filter(o, b).AsStep(), Filter(o, c).AsStep(), Filter(o, d).AsStep()];
    forall f | f in [Filter(o, a), Filter(o, b), Filter(o, c), Filter(o, d)]
      ensures Filtered(f, xs) == xs && Emitted(f, xs) == []
    {
      OnlyFiltersNoop(f, xs);
    }
  }

  /** The five visits of `AnonymousPlugins` with default options. */
  lemma AnonymousVisits(id: string)
    ensures var f := Filter(DefaultOptions(), id);
            var seen := [Anonymous.name, FontWeight.name];
            Examine(f, Start, Anonymous) == Visit(true, Scan(false, [], [], [Anonymous.name])) &&
            Examine(f, Scan(false, [], [], [Anonymous.name]), FontWeight) == Visit(true, Scan(false, [], [], seen)) &&
            Examine(f, Scan(false, [], [], seen), f.AsStep()) == Visit(true, Scan(true, [], [], seen)) &&
            Examine(f, Scan(true, [], [], seen), Anonymous) == Visit(false, Scan(true, [], [], seen)) &&
            Examine(f, Scan(true, [], [], seen), FontWeight) == Visit(false, Scan(true, [], [], seen))
  {
    NotFilterName();
  }

  /** The first three steps of `AnonymousPlugins`: all kept, and both
      names recorded, the absent one included. */
  lemma AnonymousPrefix(id: string)
    ensures var f := Filter(DefaultOptions(), id);
            var xs := [Anonymous, FontWeight, f.AsStep()];
            Fold(f, xs) == Scan(true, [], [], [Anonymous.name, FontWeight.name]) &&
            Filtered(f, xs) == xs && Removed(f, xs) == []
  {
    AnonymousVisits(id);
    var f := Filter(DefaultOptions(), id);
    var self := f.AsStep();
    var seen := [Anonymous.name, FontWeight.name];
    var xs1, xs2 := [Anonymous], [Anonymous, FontWeight];
    assert Filtered(f, []) == [] && Removed(f, []) == [];
    Extend(f, [], Anonymous, Start, [], [], Visit(true, Scan(false, [], [], [Anonymous.name])));
    assert [] + [Anonymous] == xs1;
    Extend(f, xs1, FontWeight, Scan(false, [], [], [Anonymous.name]), xs1, [],
           Visit(true, Scan(false, [], [], seen)));
    assert xs1 + [FontWeight] == xs2;
    Extend(f, xs2, self, Scan(false, [], [], seen), xs2, [], Visit(true, Scan(true, [], [], seen)));
    assert xs2 + [self] == [Anonymous, FontWeight, self];
  }

  /** Two anonymous plugins and two copies of a named one around a filter
      with default options: anonymous plugins share the name `undefined`, so
      the second of each pair is removed and three plugins remain. */
  lemma AnonymousPlugins(id: string)
    ensures var f := Filter(DefaultOptions(), id);
            var xs := [Anonymous, FontWeight, f.AsStep(), Anonymous, FontWeight];
            Filtered(f, xs) == [Anonymous, FontWeight, f.AsStep()] &&
            Emitted(f, xs) == ["Found duplicate plugin: undefined", FontWeightWarning]
  {
    AnonymousVisits(id);
    var f := Filter(DefaultOptions(), id);
    var self := f.AsStep();
    var seen := Scan(true, [], [], [Anonymous.name, FontWeight.name]);
    var kept := [Anonymous, FontWeight, self];
    var xs4 := kept + [Anonymous];
    AnonymousPrefix(id);
    Extend(f, kept, Anonymous, seen, kept, [], Visit(false, seen));
    Extend(f, xs4, FontWeight, seen, kept, [Anonymous], Visit(false, seen));
    assert xs4 + [FontWeight] == [Anonymous, FontWeight, self, Anonymous, FontWeight];
    WarningsAppend(f.options, [Anonymous], [FontWeight]);
    assert [Anonymous] + [FontWeight] == [Anonymous, FontWeight];
    DefaultWarnings();
  }

  /** The default warnings for the two plugins of these scenarios. */
  lemma DefaultWarnings()
    ensures Warnings(DefaultOptions(), [Anonymous]) == ["Found duplicate plugin: undefined"]
    ensures Warnings(DefaultOptions(), [FontWeight]) == [FontWeightWarning]
  {
    DefaultTemplateText(Anonymous, Anonymous);
    assert DefaultTemplate(FontWeight) == FontWeightWarning;
  }
}
