/** A model of postcss-filter-plugins: a PostCSS plugin that, when run, walks
    the processor's own plugin list once and splices out plugins whose name it
    has already seen, in the direction its options select relative to its own
    position in that list.

    The module has three layers:
    - the data: steps, options, the direction flags and the scan state;
    - the specification: `Examine` (what one visit of the loop decides), the
      state after scanning a prefix (`Fold`), the keep/remove mask
      (`Decisions`), the survivors and the removed steps (`Select`) and the
      warnings (`Warnings`);
    - the imperative pass `Plugin` with its helper `Detect`, proved to leave
      exactly `Filtered` in the list and to append exactly `Emitted` to the
      warnings.
    The lemmas at the end state what the pass promises. */
module FilterPlugins {

  datatype Option<T> = None | Some(value: T)

  /** A plugin's `postcssPlugin` property; `None` stands for `undefined`. */
  type Name = Option<string>

  /** An element of `result.processor.plugins`, seen through the two
      properties the filter reads: its name and its `_id`. */
  datatype Step = Step(name: Name, id: Option<string>)

  /** The name under which the filter registers itself with PostCSS; every
      instance of the filter carries it. */
  const FilterName: string := "postcss-filter-plugins"

  /** The fixed head of the default warning text. */
  const DuplicatePrefix: string := "Found duplicate plugin: "

  /** The `direction` option: the three recognised strings, and any other
      value, which switches every direction off. */
  datatype Direction = Both | Forward | Backward | Other(value: string)

  datatype Options = Options(
    template: Step -> string,
    silent: bool,
    exclude: seq<Name>,
    direction: Direction)

  /** The three flags `both`, `prev` and `next` of the plugin's closure;
      a flag that the `switch` leaves `undefined` is `false` here. */
  datatype Flags = Flags(both: bool, prev: bool, next: bool)

  /** One instance of the filter: its options and the identifier stored in
      its `_id`. The identifier is random in the source; here it is given. */
  datatype Filter = Filter(options: Options, id: string) {
    /** The filter as an element of the plugin list. */
    function AsStep(): (s: Step)
      ensures s.id == Some(id) && s.name == Some(FilterName)
    {
      Step(Some(FilterName), Some(id))
    }
  }

  /** How a template literal renders the name: `undefined` when absent. */
  function NameText(n: Name): string
  {
    match n
    case Some(s) => s
    case None => "undefined"
  }

  /** The default `template` option. */
  function DefaultTemplate(s: Step): string
  {
    DuplicatePrefix + NameText(s.name)
  }

  /** The options when none are given. */
  function DefaultOptions(): (o: Options)
    ensures !o.silent && o.exclude == [] && o.direction == Both
    ensures forall s :: o.template(s) == DefaultTemplate(s)
  {
    Options(DefaultTemplate, false, [], Both)
  }

  /** The `switch (direction)` run when the filter is created. */
  function FlagsOf(d: Direction): (f: Flags)
    ensures !(f.both && f.prev) && !(f.both && f.next) && !(f.prev && f.next)
    ensures f.both <==> d.Both?
    ensures f.prev <==> d.Backward?
    ensures f.next <==> d.Forward?
  {
    match d
    case Both => Flags(true, false, false)
    case Backward => Flags(false, true, false)
    case Forward => Flags(false, false, true)
    case Other(_) => Flags(false, false, false)
  }

  /** The per-invocation scan state other than the cursor: the passed-self
      flag `filter` and the three lists of names already seen. */
  datatype Scan = Scan(
    filter: bool,
    previousPlugins: seq<Name>,
    nextPlugins: seq<Name>,
    bothPlugins: seq<Name>)

  const Start: Scan := Scan(false, [], [], [])

  /** The outcome of one visit: whether the visited step stays, and the new
      scan state. */
  datatype Visit = Visit(keep: bool, scan: Scan)

  // ---------------------------------------------------------------------
  // Classification of a step

  predicate Excluded(f: Filter, s: Step)
  {
    s.name in f.options.exclude
  }

  /** The filter's own step: matched by `_id`, but only once the exclusion
      test has let it through. */
  predicate IsSelf(f: Filter, s: Step)
  {
    !Excluded(f, s) && s.id == Some(f.id)
  }

  /** Steps that the loop skips before any duplicate detection: excluded
      names, the filter itself and every step named like the filter. */
  predicate Protected(f: Filter, s: Step)
  {
    Excluded(f, s) || s.id == Some(f.id) || s.name == Some(FilterName)
  }

  /** Whether detection runs for a step that is not protected, given the
      passed-self flag. */
  predicate Active(f: Filter, filter: bool)
  {
    var flags := FlagsOf(f.options.direction);
    flags.both || (filter && flags.next) || (!filter && flags.prev)
  }

  /** The one seen-name list the configured direction ever uses. */
  function UsedList(f: Filter, sc: Scan): seq<Name>
  {
    var flags := FlagsOf(f.options.direction);
    if flags.both then sc.bothPlugins
    else if flags.next then sc.nextPlugins
    else if flags.prev then sc.previousPlugins
    else []
  }

  // ---------------------------------------------------------------------
  // Specification of the scan

  /** One pass of the `while` body on step `s`. Whatever the direction, a
      visit either skips `s` or runs detection against the one list the
      direction uses: a name already there removes `s`, a new name is
      recorded and `s` stays. */
  function Examine(f: Filter, sc: Scan, s: Step): (v: Visit)
    ensures Protected(f, s) ==> v.keep
    ensures v.scan.filter == (sc.filter || IsSelf(f, s))
    ensures if !Protected(f, s) && Active(f, sc.filter) then
              v.keep == (s.name !in UsedList(f, sc)) &&
              UsedList(f, v.scan) == UsedList(f, sc) + (if v.keep then [s.name] else [])
            else
              v.keep && UsedList(f, v.scan) == UsedList(f, sc)
  {
    var flags := FlagsOf(f.options.direction);
    if s.name in f.options.exclude then Visit(true, sc)
    else if s.id == Some(f.id) then Visit(true, sc.(filter := true))
    else if s.name == Some(FilterName) then Visit(true, sc)
    else if flags.both then
      if s.name in sc.bothPlugins then Visit(false, sc)
      else Visit(true, sc.(bothPlugins := sc.bothPlugins + [s.name]))
    else if sc.filter && flags.next then
      if s.name in sc.nextPlugins then Visit(false, sc)
      else Visit(true, sc.(nextPlugins := sc.nextPlugins + [s.name]))
    else if !sc.filter && flags.prev then
      if s.name in sc.previousPlugins then Visit(false, sc)
      else Visit(true, sc.(previousPlugins := sc.previousPlugins + [s.name]))
    else Visit(true, sc)
  }

  /** The scan state after visiting every step of `xs` in order. A removal
      does not change which step is visited next, so this depends on the
      original list only. */
  function Fold(f: Filter, xs: seq<Step>): Scan
  {
    if xs == [] then Start
    else Examine(f, Fold(f, xs[..|xs| - 1]), xs[|xs| - 1]).scan
  }

  /** Whether each step of the original list survives the pass. */
  function Decisions(f: Filter, xs: seq<Step>): (d: seq<bool>)
    ensures |d| == |xs|
  {
    if xs == [] then []
    else
      var init := xs[..|xs| - 1];
      Decisions(f, init) + [Examine(f, Fold(f, init), xs[|xs| - 1]).keep]
  }

  /** The steps of `xs` whose mark in `d` equals `b`, in their order. */
  function Select(xs: seq<Step>, d: seq<bool>, b: bool): (ys: seq<Step>)
    requires |d| == |xs|
    ensures |ys| <= |xs|
  {
    if xs == [] then []
    else
      Select(xs[..|xs| - 1], d[..|d| - 1], b) + (if d[|d| - 1] == b then [xs[|xs| - 1]] else [])
  }

  /** The indices of `d` whose mark equals `b`, in increasing order. */
  function Positions(d: seq<bool>, b: bool): (p: seq<nat>)
    ensures forall k :: 0 <= k < |p| ==> p[k] < |d| && d[p[k]] == b
    ensures forall k, l :: 0 <= k < l < |p| ==> p[k] < p[l]
    ensures forall i :: 0 <= i < |d| && d[i] == b ==> i in p
  {
    if d == [] then []
    else Positions(d[..|d| - 1], b) + (if d[|d| - 1] == b then [|d| - 1] else [])
  }

  /** The warnings for the removed steps, in removal order: one
      `template(step)` each, none at all when silent. */
  function Warnings(o: Options, removed: seq<Step>): (w: seq<string>)
    ensures o.silent ==> w == []
    ensures !o.silent ==> |w| == |removed|
    ensures !o.silent ==> forall i :: 0 <= i < |removed| ==> w[i] == o.template(removed[i])
  {
    if o.silent || removed == [] then []
    else Warnings(o, removed[..|removed| - 1]) + [o.template(removed[|removed| - 1])]
  }

  /** The plugin list the pass leaves behind. */
  function Filtered(f: Filter, xs: seq<Step>): seq<Step>
  {
    Select(xs, Decisions(f, xs), true)
  }

  /** The steps the pass splices out, in removal order. */
  function Removed(f: Filter, xs: seq<Step>): seq<Step>
  {
    Select(xs, Decisions(f, xs), false)
  }

  /** The warnings the pass adds to the result. */
  function Emitted(f: Filter, xs: seq<Step>): seq<string>
  {
    Warnings(f.options, Removed(f, xs))
  }

  // ---------------------------------------------------------------------
  // The imperative pass

  /** `result.processor`: owns the live plugin list. */
  class Processor {
    var plugins: seq<Step>

    constructor (plugins: seq<Step>)
      ensures this.plugins == plugins
    {
      this.plugins := plugins;
    }
  }

  /** The PostCSS result handed to every plugin: its processor, and the
      warnings `result.warn` has collected. */
  class Result {
    const processor: Processor
    var warnings: seq<string>

    constructor (processor: Processor)
      ensures this.processor == processor && warnings == []
    {
      this.processor := processor;
      warnings := [];
    }

    /** `result.warn(text)`. */
    method Warn(text: string)
      modifies this
      ensures warnings == old(warnings) + [text]
    {
      warnings := warnings + [text];
    }
  }

  /** The closure `detect`: when the name of `plugin` (the step at
      `position`) is already in `list`, warn unless silent and splice the
      step out, leaving the cursor where it is; otherwise record the name and
      advance the cursor. */
  method Detect(o: Options, result: Result, list: seq<Name>, plugin: Step, position: nat)
    returns (list': seq<Name>, position': nat)
    requires position < |result.processor.plugins|
    requires result.processor.plugins[position] == plugin
    modifies result, result.processor
    ensures plugin.name in list ==>
              list' == list && position' == position &&
              result.processor.plugins ==
                old(result.processor.plugins[..position] + result.processor.plugins[position + 1..]) &&
              result.warnings == old(result.warnings) + Warnings(o, [plugin])
    ensures plugin.name !in list ==>
              list' == list + [plugin.name] && position' == position + 1 &&
              result.processor.plugins == old(result.processor.plugins) &&
              result.warnings == old(result.warnings)
  {
    if plugin.name in list {
      if !o.silent {
        result.Warn(o.template(plugin));
      }
      result.processor.plugins :=
        result.processor.plugins[..position] + result.processor.plugins[position + 1..];
      list', position' := list, position;
    } else {
      list', position' := list + [plugin.name], position + 1;
    }
  }

  /** One pass of the `while` body on the step at `position`: skip it when
      excluded, when it is the filter itself (setting `filter`) or another
      filter instance, else run `detect` against the list the direction
      uses, else skip it. The outcome is the one `Examine` specifies. */
  method Pass(f: Filter, result: Result, filter: bool,
              previousPlugins: seq<Name>, nextPlugins: seq<Name>, bothPlugins: seq<Name>, position: nat)
    returns (filter': bool, previousPlugins': seq<Name>, nextPlugins': seq<Name>, bothPlugins': seq<Name>,
             position': nat)
    requires position < |result.processor.plugins|
    modifies result, result.processor
    ensures var plugin := old(result.processor.plugins[position]);
            var v := Examine(f, Scan(filter, previousPlugins, nextPlugins, bothPlugins), plugin);
            Scan(filter', previousPlugins', nextPlugins', bothPlugins') == v.scan &&
            position' == (if v.keep then position + 1 else position) &&
            result.processor.plugins ==
              (if v.keep then old(result.processor.plugins)
               else old(result.processor.plugins[..position] + result.processor.plugins[position + 1..])) &&
            result.warnings == old(result.warnings) + (if v.keep then [] else Warnings(f.options, [plugin]))
  {
    var flags := FlagsOf(f.options.direction);
    var plugin := result.processor.plugins[position];
    filter', previousPlugins', nextPlugins', bothPlugins' := filter, previousPlugins, nextPlugins, bothPlugins;
    if plugin.name in f.options.exclude {
      position' := position + 1;
    } else if plugin.id == Some(f.id) {
      position' := position + 1;
      filter' := true;
    } else if plugin.name == Some(FilterName) {
      position' := position + 1;
    } else if flags.both {
      bothPlugins', position' := Detect(f.options, result, bothPlugins, plugin, position);
    } else if filter && flags.next {
      nextPlugins', position' := Detect(f.options, result, nextPlugins, plugin, position);
    } else if !filter && flags.prev {
      previousPlugins', position' := Detect(f.options, result, previousPlugins, plugin, position);
    } else {
      position' := position + 1;
    }
  }

  /** The plugin body: one forward scan of the live plugin list, re-reading
      its length on every pass, that leaves exactly `Filtered` in the list and
      appends exactly `Emitted` to the result's warnings. Each pass either
      advances `position` or shortens the list by one, so
      `|plugins| - position` bounds the number of passes. */
  method Plugin(f: Filter, result: Result)
    modifies result, result.processor
    ensures result.processor.plugins == Filtered(f, old(result.processor.plugins))
    ensures result.warnings == old(result.warnings) + Emitted(f, old(result.processor.plugins))
  {
    var previousPlugins: seq<Name> := [];
    var nextPlugins: seq<Name> := [];
    var bothPlugins: seq<Name> := [];
    var filter := false;
    var position := 0;

    ghost var original := result.processor.plugins;
    ghost var k := 0;
    while position < |result.processor.plugins|
      invariant 0 <= k <= |original|
      invariant position == |Filtered(f, original[..k])|
      invariant result.processor.plugins == Filtered(f, original[..k]) + original[k..]
      invariant result.warnings == old(result.warnings) + Emitted(f, original[..k])
      invariant Scan(filter, previousPlugins, nextPlugins, bothPlugins) == Fold(f, original[..k])
      decreases |result.processor.plugins| - position
    {
      ghost var plugins0, warnings0, position0 := result.processor.plugins, result.warnings, position;
      assert plugins0[position] == original[k];
      ghost var v := Examine(f, Scan(filter, previousPlugins, nextPlugins, bothPlugins), original[k]);
      filter, previousPlugins, nextPlugins, bothPlugins, position :=
        Pass(f, result, filter, previousPlugins, nextPlugins, bothPlugins, position);
      Advance(f, original, k, v.keep, plugins0, result.processor.plugins, position0, position,
              old(result.warnings), warnings0, result.warnings);
      k := k + 1;
    }
    assert original[..k] == original;
  }

  /** One pass of the loop of `Plugin` keeps its invariant: given how the
      pass changed the cursor, the list and the warnings, as `Examine`
      dictates, the invariant holds for the prefix one step longer. */
  lemma Advance(f: Filter, xs: seq<Step>, k: nat, keep: bool,
                plugins0: seq<Step>, plugins1: seq<Step>, position0: nat, position1: nat,
                base: seq<string>, warnings0: seq<string>, warnings1: seq<string>)
    requires k < |xs|
    requires position0 == |Filtered(f, xs[..k])|
    requires plugins0 == Filtered(f, xs[..k]) + xs[k..]
    requires warnings0 == base + Emitted(f, xs[..k])
    requires keep == Examine(f, Fold(f, xs[..k]), xs[k]).keep
    requires position1 == if keep then position0 + 1 else position0
    requires plugins1 == if keep then plugins0 else plugins0[..position0] + plugins0[position0 + 1..]
    requires warnings1 == warnings0 + if keep then [] else Warnings(f.options, [xs[k]])
    ensures Fold(f, xs[..k + 1]) == Examine(f, Fold(f, xs[..k]), xs[k]).scan
    ensures position1 == |Filtered(f, xs[..k + 1])|
    ensures plugins1 == Filtered(f, xs[..k + 1]) + xs[k + 1..]
    ensures warnings1 == base + Emitted(f, xs[..k + 1])
  {
    PrefixStep(f, xs, k);
    SpliceStep(Filtered(f, xs[..k]), xs[k..], keep, plugins1, position1);
    assert xs[k..][1..] == xs[k + 1..];
  }

  /** The list-level view of one pass: keeping the step at the cursor moves
      it to the processed part, splicing it out drops it. */
  lemma SpliceStep(kept: seq<Step>, rest: seq<Step>, keep: bool, plugins1: seq<Step>, position1: nat)
    requires |rest| > 0
    requires keep ==> plugins1 == kept + rest && position1 == |kept| + 1
    requires !keep ==>
               plugins1 == (kept + rest)[..|kept|] + (kept + rest)[|kept| + 1..] && position1 == |kept|
    ensures var kept' := kept + (if keep then [rest[0]] else []);
            position1 == |kept'| && plugins1 == kept' + rest[1..]
  {
    assert rest == [rest[0]] + rest[1..];
    if !keep {
      assert (kept + rest)[..|kept|] == kept;
      assert (kept + rest)[|kept| + 1..] == rest[1..];
    }
  }

  /** How the specification functions extend by one step: the facts the
      loop of `Plugin` needs to move from a prefix of length `k` to `k + 1`. */
  lemma PrefixStep(f: Filter, xs: seq<Step>, k: nat)
    requires k < |xs|
    ensures var v := Examine(f, Fold(f, xs[..k]), xs[k]);
            Fold(f, xs[..k + 1]) == v.scan &&
            Filtered(f, xs[..k + 1]) == Filtered(f, xs[..k]) + (if v.keep then [xs[k]] else []) &&
            Emitted(f, xs[..k + 1]) == Emitted(f, xs[..k]) + (if v.keep then [] else Warnings(f.options, [xs[k]]))
  {
    assert xs[..k + 1][..k] == xs[..k];
    RemovedStep(f, xs, k);
    var keep := Decisions(f, xs[..k + 1])[k];
    WarningsAppend(f.options, Removed(f, xs[..k]), if keep then [] else [xs[k]]);
  }

  /** The removed steps grow by the visited step exactly when the visit
      drops it. */
  lemma RemovedStep(f: Filter, xs: seq<Step>, k: nat)
    requires k < |xs|
    ensures var v := Examine(f, Fold(f, xs[..k]), xs[k]);
            Decisions(f, xs[..k + 1])[k] == v.keep &&
            Removed(f, xs[..k + 1]) == Removed(f, xs[..k]) + (if v.keep then [] else [xs[k]])
  {
    var ys := xs[..k + 1];
    assert ys[..k] == xs[..k];
    var d := Decisions(f, ys);
    assert d[..k] == Decisions(f, xs[..k]);
    var removed := Removed(f, ys);
    assert removed == Removed(f, xs[..k]) + (if d[k] then [] else [xs[k]]);
  }

  /** Warnings for a concatenation of removals are the concatenation of the
      warnings. */
  lemma {:induction false} WarningsAppend(o: Options, r1: seq<Step>, r2: seq<Step>)
    ensures Warnings(o, r1 + r2) == Warnings(o, r1) + Warnings(o, r2)
    decreases |r2|
  {
    if o.silent || r2 == [] {
      assert r1 + r2 == r1 || o.silent;
    } else {
      var r2' := r2[..|r2| - 1];
      assert (r1 + r2)[..|r1 + r2| - 1] == r1 + r2';
      WarningsAppend(o, r1, r2');
    }
  }

  // ---------------------------------------------------------------------
  // What the pass promises

  /** Step `j` of the original list reaches detection: it is not protected
      and the direction is active where the scan meets it. */
  predicate Checked(f: Filter, xs: seq<Step>, j: nat)
    requires j < |xs|
  {
    !Protected(f, xs[j]) && Active(f, Fold(f, xs[..j]).filter)
  }

  /** The filter's own step occurs among the first `i` steps. */
  predicate SelfBefore(f: Filter, xs: seq<Step>, i: nat)
    requires i <= |xs|
  {
    exists j :: 0 <= j < i && IsSelf(f, xs[j])
  }

  /** The survivors are the steps of `xs` at strictly increasing positions,
      exactly the positions marked `b`: the result is `xs` with elements
      deleted, in the original order, with nothing inserted. */
  lemma {:induction false} SelectAt(xs: seq<Step>, d: seq<bool>, b: bool)
    requires |d| == |xs|
    ensures |Select(xs, d, b)| == |Positions(d, b)|
    ensures forall k :: 0 <= k < |Positions(d, b)| ==> Select(xs, d, b)[k] == xs[Positions(d, b)[k]]
    decreases |xs|
  {
    if xs != [] {
      var m := |xs| - 1;
      var init, dm := xs[..m], d[..m];
      SelectAt(init, dm, b);
      SelectStep(xs, d, b);
      var ys, ps := Select(init, dm, b), Positions(dm, b);
      forall k | 0 <= k < |ps|
        ensures Select(xs, d, b)[k] == xs[Positions(d, b)[k]]
      {
        assert ys[k] == init[ps[k]];
      }
    }
  }

  /** One unfolding of `Select` and `Positions` on the last mark. */
  lemma SelectStep(xs: seq<Step>, d: seq<bool>, b: bool)
    requires |d| == |xs| && xs != []
    ensures var m := |xs| - 1;
            Select(xs, d, b) == Select(xs[..m], d[..m], b) + (if d[m] == b then [xs[m]] else []) &&
            Positions(d, b) == Positions(d[..m], b) + (if d[m] == b then [m] else [])
  {
    assert d[..|xs| - 1] == d[..|d| - 1];
  }

  /** The survivors and the removed steps together are the original list,
      counted with multiplicity. */
  lemma {:induction false} SelectPartition(xs: seq<Step>, d: seq<bool>)
    requires |d| == |xs|
    ensures multiset(Select(xs, d, true)) + multiset(Select(xs, d, false)) == multiset(xs)
    decreases |xs|
  {
    if xs != [] {
      var m := |xs| - 1;
      var init, dm, x := xs[..m], d[..m], xs[m];
      SelectPartition(init, dm);
      assert xs == init + [x];
      if d[m] {
        var kept := Select(init, dm, true);
        assert Select(xs, d, true) == kept + [x];
        assert multiset(kept + [x]) == multiset(kept) + multiset{x};
      } else {
        var removed := Select(init, dm, false);
        assert Select(xs, d, false) == removed + [x];
        assert multiset(removed + [x]) == multiset(removed) + multiset{x};
      }
    }
  }

  /** The decision for step `i` is the one `Examine` takes in the state left
      by the steps before it. */
  lemma {:induction false} DecisionAt(f: Filter, xs: seq<Step>, i: nat)
    requires i < |xs|
    ensures Decisions(f, xs)[i] == Examine(f, Fold(f, xs[..i]), xs[i]).keep
    decreases |xs|
  {
    var m := |xs| - 1;
    var init := xs[..m];
    if i < m {
      DecisionAt(f, init, i);
      assert init[..i] == xs[..i];
    }
  }

  /** The passed-self flag is set exactly when the filter's own step has
      been seen; an excluded self never sets it, because the exclusion test
      runs first. */
  lemma {:induction false} PassedSelf(f: Filter, xs: seq<Step>)
    ensures Fold(f, xs).filter <==> SelfBefore(f, xs, |xs|)
    decreases |xs|
  {
    if xs != [] {
      var m := |xs| - 1;
      var init := xs[..m];
      PassedSelf(f, init);
      if SelfBefore(f, init, m) {
        var j :| 0 <= j < m && IsSelf(f, init[j]);
        assert xs[j] == init[j];
      }
      if SelfBefore(f, xs, |xs|) {
        var j :| 0 <= j < |xs| && IsSelf(f, xs[j]);
        if j < m {
          assert init[j] == xs[j];
        }
      }
    }
  }

  /** The list the direction uses holds exactly the names of the steps that
      reached detection. */
  lemma {:induction false} SeenNames(f: Filter, xs: seq<Step>)
    ensures forall n :: n in UsedList(f, Fold(f, xs)) <==>
                        exists j :: 0 <= j < |xs| && Checked(f, xs, j) && xs[j].name == n
    decreases |xs|
  {
    if xs != [] {
      var m := |xs| - 1;
      var init := xs[..m];
      SeenNames(f, init);
      CheckedPrefix(f, xs, m);
      assert xs[..m] == init;
      var sc := Fold(f, init);
      var used := UsedList(f, Fold(f, xs));
      assert Fold(f, xs) == Examine(f, sc, xs[m]).scan;
      forall n | n in used
        ensures exists j :: 0 <= j < |xs| && Checked(f, xs, j) && xs[j].name == n
      {
        if n in UsedList(f, sc) {
          var j :| 0 <= j < m && Checked(f, init, j) && init[j].name == n;
          assert Checked(f, xs, j) && xs[j].name == n;
        } else {
          assert Checked(f, xs, m) && xs[m].name == n;
        }
      }
      forall j | 0 <= j < |xs| && Checked(f, xs, j)
        ensures xs[j].name in used
      {
        if j < m {
          assert Checked(f, init, j) && init[j].name in UsedList(f, sc);
        }
      }
    }
  }

  /** A step is removed exactly when it reaches detection and an earlier
      step that also reached detection has the same name. */
  lemma DuplicateIff(f: Filter, xs: seq<Step>, i: nat)
    requires i < |xs|
    ensures !Decisions(f, xs)[i] <==>
              Checked(f, xs, i) &&
              exists j :: 0 <= j < i && Checked(f, xs, j) && xs[j].name == xs[i].name
  {
    DecisionAt(f, xs, i);
    var pre := xs[..i];
    SeenNames(f, pre);
    CheckedPrefix(f, xs, i);
  }

  /** Whether a step reaches detection depends only on the steps before it. */
  lemma CheckedPrefix(f: Filter, xs: seq<Step>, m: nat)
    requires m <= |xs|
    ensures forall j :: 0 <= j < m ==> xs[..m][j] == xs[j] && (Checked(f, xs[..m], j) <==> Checked(f, xs, j))
  {
    forall j | 0 <= j < m
      ensures xs[..m][j] == xs[j] && (Checked(f, xs[..m], j) <==> Checked(f, xs, j))
    {
      assert xs[..m][..j] == xs[..j];
    }
  }

  /** Excluded names, the filter itself and sibling filters are never
      removed. */
  lemma ProtectedSurvive(f: Filter, xs: seq<Step>)
    ensures forall i :: 0 <= i < |xs| && Protected(f, xs[i]) ==>
              Decisions(f, xs)[i] && xs[i] in Filtered(f, xs)
  {
    var d := Decisions(f, xs);
    SelectAt(xs, d, true);
    forall i | 0 <= i < |xs| && Protected(f, xs[i])
      ensures d[i] && xs[i] in Filtered(f, xs)
    {
      DecisionAt(f, xs, i);
      var k :| 0 <= k < |Positions(d, true)| && Positions(d, true)[k] == i;
      assert Filtered(f, xs)[k] == xs[i];
    }
  }

  /** With direction `both`, a step that is not protected is removed
      exactly when an earlier unprotected step anywhere in the list has the
      same name: the first occurrence of each name is the one kept. */
  lemma BothKeepsFirstOccurrence(f: Filter, xs: seq<Step>)
    requires f.options.direction == Both
    ensures forall i :: 0 <= i < |xs| ==>
              (!Decisions(f, xs)[i] <==>
                 !Protected(f, xs[i]) &&
                 exists j :: 0 <= j < i && !Protected(f, xs[j]) && xs[j].name == xs[i].name)
  {
    forall i | 0 <= i < |xs|
      ensures !Decisions(f, xs)[i] <==>
                !Protected(f, xs[i]) &&
                exists j :: 0 <= j < i && !Protected(f, xs[j]) && xs[j].name == xs[i].name
    {
      DuplicateIff(f, xs, i);
    }
  }

  /** With direction `both`, no two unprotected survivors share a name. */
  lemma BothNoDuplicatesRemain(f: Filter, xs: seq<Step>)
    requires f.options.direction == Both
    ensures var ys := Filtered(f, xs);
            forall a, b :: 0 <= a < b < |ys| && !Protected(f, ys[a]) && !Protected(f, ys[b]) ==>
              ys[a].name != ys[b].name
  {
    var d := Decisions(f, xs);
    var p := Positions(d, true);
    var ys := Filtered(f, xs);
    SelectAt(xs, d, true);
    BothKeepsFirstOccurrence(f, xs);
    forall a, b | 0 <= a < b < |ys| && !Protected(f, ys[a]) && !Protected(f, ys[b])
      ensures ys[a].name != ys[b].name
    {
      assert ys[a] == xs[p[a]] && ys[b] == xs[p[b]] && d[p[b]];
    }
  }

  /** With direction `both`, every name of the original list survives: each
      step is either kept or shadowed by an earlier unprotected step of the
      same name, and following that chain ends at a kept step. */
  lemma {:induction false} BothKeepsEveryName(f: Filter, xs: seq<Step>, i: nat)
    requires f.options.direction == Both
    requires i < |xs|
    ensures exists a :: 0 <= a < |Filtered(f, xs)| && Filtered(f, xs)[a].name == xs[i].name
    decreases i
  {
    var d := Decisions(f, xs);
    BothKeepsFirstOccurrence(f, xs);
    if d[i] {
      SelectAt(xs, d, true);
      var a :| 0 <= a < |Positions(d, true)| && Positions(d, true)[a] == i;
      assert Filtered(f, xs)[a] == xs[i];
    } else {
      var j :| 0 <= j < i && !Protected(f, xs[j]) && xs[j].name == xs[i].name;
      BothKeepsEveryName(f, xs, j);
    }
  }

  /** With direction `forward`, nothing up to and including the filter's
      own step is removed; after it, an unprotected step is removed exactly
      when an earlier unprotected step after the filter has the same name. */
  lemma ForwardScope(f: Filter, xs: seq<Step>)
    requires f.options.direction == Forward
    ensures forall i :: 0 <= i < |xs| ==>
              (!Decisions(f, xs)[i] <==>
                 !Protected(f, xs[i]) && SelfBefore(f, xs, i) &&
                 exists j :: 0 <= j < i && SelfBefore(f, xs, j) && !Protected(f, xs[j]) &&
                             xs[j].name == xs[i].name)
  {
    forall i | 0 <= i < |xs|
      ensures !Decisions(f, xs)[i] <==>
                !Protected(f, xs[i]) && SelfBefore(f, xs, i) &&
                exists j :: 0 <= j < i && SelfBefore(f, xs, j) && !Protected(f, xs[j]) &&
                            xs[j].name == xs[i].name
    {
      DuplicateIff(f, xs, i);
      MarkedAt(f, xs, i);
      forall j | 0 <= j < i
        ensures Checked(f, xs, j) == (!Protected(f, xs[j]) && SelfBefore(f, xs, j))
      {
        MarkedAt(f, xs, j);
      }
    }
  }

  /** With direction `backward`, nothing after the filter's own step (nor
      the step itself) is removed; before it, an unprotected step is removed
      exactly when an earlier unprotected step has the same name. */
  lemma BackwardScope(f: Filter, xs: seq<Step>)
    requires f.options.direction == Backward
    ensures forall i :: 0 <= i < |xs| ==>
              (!Decisions(f, xs)[i] <==>
                 !Protected(f, xs[i]) && !SelfBefore(f, xs, i) &&
                 exists j :: 0 <= j < i && !Protected(f, xs[j]) && xs[j].name == xs[i].name)
  {
    forall i | 0 <= i < |xs|
      ensures !Decisions(f, xs)[i] <==>
                !Protected(f, xs[i]) && !SelfBefore(f, xs, i) &&
                exists j :: 0 <= j < i && !Protected(f, xs[j]) && xs[j].name == xs[i].name
    {
      DuplicateIff(f, xs, i);
      MarkedAt(f, xs, i);
      forall j | 0 <= j < i
        ensures !SelfBefore(f, xs, i) ==> Checked(f, xs, j) == !Protected(f, xs[j])
      {
        MarkedAt(f, xs, j);
      }
    }
  }

  /** The passed-self flag at step `i` of the original list. */
  lemma MarkedAt(f: Filter, xs: seq<Step>, i: nat)
    requires i <= |xs|
    ensures Fold(f, xs[..i]).filter <==> SelfBefore(f, xs, i)
  {
    PassedSelf(f, xs[..i]);
    if SelfBefore(f, xs[..i], i) {
      var j :| 0 <= j < i && IsSelf(f, xs[..i][j]);
      assert xs[j] == xs[..i][j];
    }
    if SelfBefore(f, xs, i) {
      var j :| 0 <= j < i && IsSelf(f, xs[j]);
      assert xs[..i][j] == xs[j];
    }
  }

  /** When every step is kept, the pass changes nothing and warns about
      nothing. */
  lemma {:induction false} KeepAll(f: Filter, xs: seq<Step>)
    requires forall i :: 0 <= i < |xs| ==> Decisions(f, xs)[i]
    ensures Filtered(f, xs) == xs && Removed(f, xs) == [] && Emitted(f, xs) == []
  {
    AllMarked(xs, Decisions(f, xs));
  }

  lemma {:induction false} AllMarked(xs: seq<Step>, d: seq<bool>)
    requires |d| == |xs|
    requires forall i :: 0 <= i < |d| ==> d[i]
    ensures Select(xs, d, true) == xs && Select(xs, d, false) == []
    decreases |xs|
  {
    if xs != [] {
      var m := |xs| - 1;
      AllMarked(xs[..m], d[..m]);
      assert xs == xs[..m] + [xs[m]];
    }
  }

  /** A direction other than the three recognised ones leaves the list as it
      is and emits no warning. */
  lemma OtherDirectionNoop(f: Filter, xs: seq<Step>)
    requires f.options.direction.Other?
    ensures Filtered(f, xs) == xs && Emitted(f, xs) == []
  {
    forall i | 0 <= i < |xs| ensures Decisions(f, xs)[i] {
      DuplicateIff(f, xs, i);
    }
    KeepAll(f, xs);
  }

  /** A list made only of filter instances is left as it is, with no
      warning, whatever the options. */
  lemma OnlyFiltersNoop(f: Filter, xs: seq<Step>)
    requires forall i :: 0 <= i < |xs| ==> xs[i].name == Some(FilterName)
    ensures Filtered(f, xs) == xs && Emitted(f, xs) == []
  {
    forall i | 0 <= i < |xs| ensures Decisions(f, xs)[i] {
      DecisionAt(f, xs, i);
    }
    KeepAll(f, xs);
  }

  /** Unless silent, there is one warning per removed step, `template` of
      that step, in removal order; when silent there is none. */
  lemma WarningPerRemoval(f: Filter, xs: seq<Step>)
    ensures f.options.silent ==> Emitted(f, xs) == []
    ensures !f.options.silent ==>
              |Emitted(f, xs)| == |Removed(f, xs)| == |xs| - |Filtered(f, xs)| &&
              forall i :: 0 <= i < |Removed(f, xs)| ==>
                Emitted(f, xs)[i] == f.options.template(Removed(f, xs)[i])
  {
    var d := Decisions(f, xs);
    SelectPartition(xs, d);
    assert |multiset(Select(xs, d, true))| + |multiset(Select(xs, d, false))| == |multiset(xs)|;
  }

  /** `silent` and `template` only shape the warnings: the same steps are
      removed whatever their values. */
  lemma {:induction false} SilentRemovesTheSame(f: Filter, xs: seq<Step>, silent: bool, template: Step -> string)
    ensures var g := Filter(f.options.(silent := silent, template := template), f.id);
            Fold(g, xs) == Fold(f, xs) && Decisions(g, xs) == Decisions(f, xs) &&
            Filtered(g, xs) == Filtered(f, xs) && Removed(g, xs) == Removed(f, xs)
    decreases |xs|
  {
    if xs != [] {
      SilentRemovesTheSame(f, xs[..|xs| - 1], silent, template);
    }
  }

  /** The default warning text is the fixed prefix followed by the name,
      and it tells two named plugins apart; an anonymous plugin is reported
      as `undefined`. */
  lemma DefaultTemplateText(s: Step, t: Step)
    ensures DefaultTemplate(s)[..|DuplicatePrefix|] == "Found duplicate plugin: "
    ensures s.name.Some? ==> DefaultTemplate(s)[|DuplicatePrefix|..] == s.name.value
    ensures s.name.None? ==> DefaultTemplate(s) == "Found duplicate plugin: undefined"
    ensures s.name.Some? && t.name.Some? ==> (DefaultTemplate(s) == DefaultTemplate(t) <==> s.name == t.name)
  {
    var n := |DuplicatePrefix|;
    assert DefaultTemplate(s)[n..] == NameText(s.name);
    assert DefaultTemplate(t)[n..] == NameText(t.name);
  }
}
