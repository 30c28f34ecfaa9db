/**
 * The alias resolver `createStyles` of styles.ts: every entry of a named
 * sheet is resolved key by key into a concrete style. Colour and radius
 * names are looked up in the theme, spacing aliases are expanded, `col` and
 * `row` merge a flex-layout fragment, and anything else is copied. A failed
 * lookup keeps the literal value and at most logs a warning.
 */
module Styles {

  import opened Values
  import opened Aliases

  /** The registered tables captured by `createStylesFactory(sizes, colors)`. */
  datatype Theme = Theme(colors: Colors, sizes: Sizes)

  /** The flex direction passed to `createDialStyle`. */
  datatype Direction = Column | Row

  /** `createDialStyle(direction, value)` of the layout library, taken as given. */
  type DialStyle = (Direction, real) -> Style

  /** A named sheet: entry name to the alias/value object of that entry. */
  type Sheet = map<string, Props>

  /** A resolved sheet: entry name to its resolved style. */
  type ResolvedSheet = map<string, Style>

  /** The branch of the resolver that handles a key, in the order the source tests them. */
  datatype Rule =
    | ColorRule
    | RadiusRule
    | SpacingRule(prop: string)
    | DialRule(dir: Direction)
    | ForwardRule

  const ColorAliases: set<string> := {"backgroundColor", "borderColor", "color"}

  function RuleFor(alias: string): Rule {
    if alias == "backgroundColor" || alias == "borderColor" || alias == "color" then ColorRule
    else if alias == "borderRadius" then RadiusRule
    else if alias in AliasToProp then SpacingRule(AliasToProp[alias])
    else if alias == "col" then DialRule(Column)
    else if alias == "row" then DialRule(Row)
    else ForwardRule
  }

  /** The dispatch agrees with the source's tests: the colour keys, `borderRadius`, the
      keys of the alias table, `col`/`row`, and everything else. */
  lemma RuleForShape(alias: string)
    ensures RuleFor(alias).ColorRule? <==> alias in ColorAliases
    ensures RuleFor(alias).RadiusRule? <==> alias == "borderRadius"
    ensures RuleFor(alias).SpacingRule? <==> alias in AliasToProp
    ensures RuleFor(alias).SpacingRule? ==> RuleFor(alias).prop == AliasToProp[alias]
    ensures RuleFor(alias).DialRule? <==> alias == "col" || alias == "row"
    ensures RuleFor(alias).DialRule? ==> (RuleFor(alias).dir == Column <==> alias == "col")
  {
  }

  /** The name of an alias dispatches to the spacing rule for its long property. */
  lemma RuleForName(a: SpacingAlias)
    ensures RuleFor(NameOf(a)) == SpacingRule(PropOf(a))
  {
    NameShapes(a);
    assert |"backgroundColor"| > 2 && |"borderColor"| > 2 && |"color"| > 2 && |"borderRadius"| > 2;
  }

  /** A key longer than two characters that none of the named rules claims is forwarded. */
  lemma RuleForLong(key: string)
    requires |key| > 2 && key !in ColorAliases && key != "borderRadius" && key != "col" && key != "row"
    ensures RuleFor(key) == ForwardRule
  {
    LongKeyNotInTable(key);
  }

  /** The guard `typeof value === 'number' && (value >= 1 || value <= 9)`, as written. */
  predicate DialAccepts(value: Value) {
    value.Num? && (value.n >= 1.0 || value.n <= 9.0)
  }

  /** The guard lets every number through: the `||` makes the range test vacuous, so a
      value such as 12 or -3 still reaches `createDialStyle`. Only non-numbers are dropped. */
  lemma DialGuardAcceptsEveryNumber(value: Value)
    ensures DialAccepts(value) <==> value.Num?
    ensures DialAccepts(Num(12.0)) && DialAccepts(Num(-3.0))
  {
  }

  /** A lookup that is truthy replaces the literal; otherwise the literal is kept. */
  function OrLiteral(found: Value, literal: Value): (r: Value)
    ensures r == found || r == literal
    ensures Truthy(found) <==> r == found && (found != literal || Truthy(literal))
  {
    if Truthy(found) then found else literal
  }

  /** What one alias/value pair writes into the style. It never depends on what earlier
      pairs wrote: each branch of the loop assigns fixed properties or merges a fixed
      fragment. */
  function Fragment(theme: Theme, dial: DialStyle, alias: string, value: Value): Style {
    match RuleFor(alias)
    case ColorRule => map[alias := OrLiteral(ColorOf(theme.colors, value), value)]
    case RadiusRule => map["borderRadius" := OrLiteral(SizeOf(theme.sizes, value), value)]
    case SpacingRule(prop) =>
      map[prop := if value.Num? then value else OrLiteral(SizeOf(theme.sizes, value), value)]
    case DialRule(dir) => if DialAccepts(value) then dial(dir, value.n) else map[]
    case ForwardRule => map[alias := value]
  }

  /** Styles merged left to right, as `Object.assign` and repeated assignment do: a later
      style's properties replace earlier ones. */
  function Merge(styles: seq<Style>): Style
    decreases |styles|
  {
    if styles == [] then map[]
    else Merge(styles[..|styles| - 1]) + styles[|styles| - 1]
  }

  /** The fragment of every pair of an entry, in key order. */
  function Fragments(theme: Theme, dial: DialStyle, aliases: seq<(string, Value)>): seq<Style> {
    seq(|aliases|, i requires 0 <= i < |aliases| => Fragment(theme, dial, aliases[i].0, aliases[i].1))
  }

  /** The style of one sheet entry: the fragments of its pairs merged in key order. */
  function ResolveEntry(theme: Theme, dial: DialStyle, aliases: seq<(string, Value)>): Style {
    Merge(Fragments(theme, dial, aliases))
  }

  /** A development-mode warning (`console.warn` under `__DEV__`). */
  datatype Warning =
    | ColorNotFound(alias: string, shown: Value)
    | SizeNotFound(alias: string, value: Value)
    | FlexInvalid(alias: string, value: Value)

  /** The warning one pair logs, if any. The colour warning shows the failed lookup
      result, not the value that was looked up. */
  function WarningFor(theme: Theme, alias: string, value: Value): Option<Warning> {
    match RuleFor(alias)
    case ColorRule =>
      var color := ColorOf(theme.colors, value);
      if Truthy(color) then None else Some(ColorNotFound(alias, color))
    case RadiusRule =>
      if Truthy(SizeOf(theme.sizes, value)) then None else Some(SizeNotFound(alias, value))
    case SpacingRule(_) =>
      if value.Num? || Truthy(SizeOf(theme.sizes, value)) then None
      else Some(SizeNotFound(alias, value))
    case DialRule(_) => if DialAccepts(value) then None else Some(FlexInvalid(alias, value))
    case ForwardRule => None
  }

  /** The warnings of one entry, in key order. */
  function EntryWarnings(theme: Theme, aliases: seq<(string, Value)>): seq<Warning>
    decreases |aliases|
  {
    if aliases == [] then []
    else
      var (alias, value) := aliases[|aliases| - 1];
      EntryWarnings(theme, aliases[..|aliases| - 1]) + OptionToSeq(WarningFor(theme, alias, value))
  }

  function OptionToSeq<T>(o: Option<T>): seq<T> {
    match o
    case Some(x) => [x]
    case None => []
  }

  /** Merging one more style puts it on top. */
  lemma MergeSnoc(styles: seq<Style>, top: Style)
    ensures Merge(styles + [top]) == Merge(styles) + top
  {
    assert (styles + [top])[..|styles|] == styles;
  }

  /** One more pair adds its fragment and its warning. */
  lemma StepFacts(theme: Theme, dial: DialStyle, aliases: seq<(string, Value)>, i: nat)
    requires i < |aliases|
    ensures ResolveEntry(theme, dial, aliases[..i + 1]) ==
      ResolveEntry(theme, dial, aliases[..i]) + Fragment(theme, dial, aliases[i].0, aliases[i].1)
    ensures EntryWarnings(theme, aliases[..i + 1]) ==
      EntryWarnings(theme, aliases[..i]) + OptionToSeq(WarningFor(theme, aliases[i].0, aliases[i].1))
  {
    assert aliases[..i + 1][..i] == aliases[..i];
    var top := Fragment(theme, dial, aliases[i].0, aliases[i].1);
    assert Fragments(theme, dial, aliases[..i + 1]) == Fragments(theme, dial, aliases[..i]) + [top];
    MergeSnoc(Fragments(theme, dial, aliases[..i]), top);
  }

  /** Assigning one property is merging a one-property style. */
  lemma UpdateIsMerge(style: Style, key: string, value: Value)
    ensures style[key := value] == style + map[key := value]
  {
  }

  /** One pass of the `for…in` loop body: the branch `RuleFor` picks for `alias` assigns
      into `style`, and logs a warning when `dev` (the `__DEV__` flag) is set and a lookup failed. */
  method ApplyAlias(theme: Theme, dial: DialStyle, style: Style, alias: string, value: Value, dev: bool)
    returns (next: Style, warning: seq<Warning>)
    ensures next == style + Fragment(theme, dial, alias, value)
    ensures warning == if dev then OptionToSeq(WarningFor(theme, alias, value)) else []
  {
    next, warning := style, [];
    match RuleFor(alias)
    case ColorRule =>
      var color := ColorOf(theme.colors, value);
      if Truthy(color) {
        assert Fragment(theme, dial, alias, value) == map[alias := color];
        UpdateIsMerge(next, alias, color);
        next := next[alias := color];
        assert WarningFor(theme, alias, value) == None;
      } else {
        assert Fragment(theme, dial, alias, value) == map[alias := value];
        UpdateIsMerge(next, alias, value);
        next := next[alias := value];
        assert WarningFor(theme, alias, value) == Some(ColorNotFound(alias, color));
        if dev {
          warning := [ColorNotFound(alias, color)];
        }
      }
    case RadiusRule =>
      var size := SizeOf(theme.sizes, value);
      if Truthy(size) {
        assert Fragment(theme, dial, alias, value) == map["borderRadius" := size];
        UpdateIsMerge(next, "borderRadius", size);
        next := next["borderRadius" := size];
        assert WarningFor(theme, alias, value) == None;
      } else {
        assert Fragment(theme, dial, alias, value) == map["borderRadius" := value];
        UpdateIsMerge(next, "borderRadius", value);
        next := next["borderRadius" := value];
        assert WarningFor(theme, alias, value) == Some(SizeNotFound(alias, value));
        if dev {
          warning := [SizeNotFound(alias, value)];
        }
      }
    case SpacingRule(prop) =>
      if value.Num? {
        assert Fragment(theme, dial, alias, value) == map[prop := value];
        UpdateIsMerge(next, prop, value);
        next := next[prop := value];
        assert WarningFor(theme, alias, value) == None;
      } else {
        var size := SizeOf(theme.sizes, value);
        if Truthy(size) {
          assert Fragment(theme, dial, alias, value) == map[prop := size];
          UpdateIsMerge(next, prop, size);
          next := next[prop := size];
          assert WarningFor(theme, alias, value) == None;
        } else {
          assert Fragment(theme, dial, alias, value) == map[prop := value];
          UpdateIsMerge(next, prop, value);
          next := next[prop := value];
          assert WarningFor(theme, alias, value) == Some(SizeNotFound(alias, value));
          if dev {
            warning := [SizeNotFound(alias, value)];
          }
        }
      }
    case DialRule(dir) =>
      if value.Num? && (value.n >= 1.0 || value.n <= 9.0) {
        assert Fragment(theme, dial, alias, value) == dial(dir, value.n);
        next := next + dial(dir, value.n);
        assert WarningFor(theme, alias, value) == None;
      } else {
        assert Fragment(theme, dial, alias, value) == map[];
        assert WarningFor(theme, alias, value) == Some(FlexInvalid(alias, value));
        if dev {
          warning := [FlexInvalid(alias, value)];
        }
      }
    case ForwardRule =>
      assert Fragment(theme, dial, alias, value) == map[alias := value];
      UpdateIsMerge(next, alias, value);
      next := next[alias := value];
      assert WarningFor(theme, alias, value) == None;
  }

  /** The `for…in` loop over one entry's aliases, building `style` step by step. */
  method ResolveAliases(theme: Theme, dial: DialStyle, aliases: Props, dev: bool)
    returns (style: Style, warnings: seq<Warning>)
    ensures style == ResolveEntry(theme, dial, aliases)
    ensures warnings == if dev then EntryWarnings(theme, aliases) else []
  {
    style := map[];
    warnings := [];
    var i := 0;
    while i < |aliases|
      invariant 0 <= i <= |aliases|
      invariant style == ResolveEntry(theme, dial, aliases[..i])
      invariant warnings == if dev then EntryWarnings(theme, aliases[..i]) else []
    {
      var (alias, value) := aliases[i];
      var warning;
      style, warning := ApplyAlias(theme, dial, style, alias, value, dev);
      warnings := warnings + warning;
      StepFacts(theme, dial, aliases, i);
      i := i + 1;
    }
    assert aliases[..i] == aliases;
  }

  /** `createStyles(styles)`: every entry resolved on its own, under the same entry names. */
  function CreateStyles(theme: Theme, dial: DialStyle, styles: Sheet): (r: ResolvedSheet)
    ensures r.Keys == styles.Keys
  {
    map name | name in styles :: ResolveEntry(theme, dial, styles[name])
  }

  /** A merged style has a property exactly when one of the styles has it. */
  lemma {:induction false} MergeKeys(styles: seq<Style>, prop: string)
    ensures prop in Merge(styles) <==> exists i :: 0 <= i < |styles| && prop in styles[i]
  {
    if styles != [] {
      var init := styles[..|styles| - 1];
      MergeKeys(init, prop);
      if prop in Merge(init) {
        var i :| 0 <= i < |init| && prop in init[i];
        assert styles[i] == init[i];
      }
      if exists i :: 0 <= i < |styles| && prop in styles[i] {
        var i :| 0 <= i < |styles| && prop in styles[i];
        if i < |init| {
          assert init[i] == styles[i];
        }
      }
    }
  }

  /** In a merge, a property takes its value from the last style that has it. */
  lemma {:induction false} MergeLast(styles: seq<Style>, i: nat, prop: string)
    requires i < |styles| && prop in styles[i]
    requires forall j :: i < j < |styles| ==> prop !in styles[j]
    ensures prop in Merge(styles) && Merge(styles)[prop] == styles[i][prop]
  {
    var n := |styles| - 1;
    var init := styles[..n];
    if i < n {
      assert init[i] == styles[i];
      forall j | i < j < |init| ensures prop !in init[j] {
        assert init[j] == styles[j];
      }
      MergeLast(init, i, prop);
    }
  }

  /** An empty style can be left out of a merge. */
  lemma {:induction false} MergeDropEmpty(prefix: seq<Style>, suffix: seq<Style>)
    ensures Merge(prefix + [map[]] + suffix) == Merge(prefix + suffix)
    decreases |suffix|
  {
    if suffix == [] {
      assert prefix + [map[]] + suffix == prefix + [map[]];
      MergeSnoc(prefix, map[]);
      assert prefix + suffix == prefix;
    } else {
      var n := |suffix| - 1;
      MergeDropEmpty(prefix, suffix[..n]);
      assert prefix + [map[]] + suffix == (prefix + [map[]] + suffix[..n]) + [suffix[n]];
      assert prefix + suffix == (prefix + suffix[..n]) + [suffix[n]];
      MergeSnoc(prefix + [map[]] + suffix[..n], suffix[n]);
      MergeSnoc(prefix + suffix[..n], suffix[n]);
    }
  }

  /** The fragment written by the `i`-th pair of an entry. */
  function FragmentAt(theme: Theme, dial: DialStyle, aliases: seq<(string, Value)>, i: nat): Style
    requires i < |aliases|
  {
    Fragment(theme, dial, aliases[i].0, aliases[i].1)
  }

  /** A resolved entry has a property exactly when some pair of the entry writes it. */
  lemma ResolvedKeys(theme: Theme, dial: DialStyle, aliases: seq<(string, Value)>, prop: string)
    ensures prop in ResolveEntry(theme, dial, aliases) <==>
      exists i :: 0 <= i < |aliases| && prop in FragmentAt(theme, dial, aliases, i)
  {
    var fs := Fragments(theme, dial, aliases);
    MergeKeys(fs, prop);
    assert forall i :: 0 <= i < |aliases| ==> fs[i] == FragmentAt(theme, dial, aliases, i);
  }

  /** Last write wins: a property takes the value of the last pair that writes it. */
  lemma LastWriteWins(theme: Theme, dial: DialStyle, aliases: seq<(string, Value)>, i: nat, prop: string)
    requires i < |aliases| && prop in FragmentAt(theme, dial, aliases, i)
    requires forall j :: i < j < |aliases| ==> prop !in FragmentAt(theme, dial, aliases, j)
    ensures prop in ResolveEntry(theme, dial, aliases)
    ensures ResolveEntry(theme, dial, aliases)[prop] == FragmentAt(theme, dial, aliases, i)[prop]
  {
    var fs := Fragments(theme, dial, aliases);
    assert forall j :: 0 <= j < |aliases| ==> fs[j] == FragmentAt(theme, dial, aliases, j);
    MergeLast(fs, i, prop);
  }

  /** Every `col`/`row` pair from position `from` on leaves `prop` alone: the layout
      fragment it merges does not have that property. */
  predicate DialSpares(theme: Theme, dial: DialStyle, aliases: seq<(string, Value)>, from: nat, prop: string) {
    forall j :: from <= j < |aliases| && (aliases[j].0 == "col" || aliases[j].0 == "row") ==>
      prop !in FragmentAt(theme, dial, aliases, j)
  }

  /** Only the key itself, or a layout fragment, writes a colour property or `borderRadius`. */
  lemma OnlyOwnKeyWrites(theme: Theme, dial: DialStyle, alias: string, value: Value, prop: string)
    requires prop in ColorAliases || prop == "borderRadius"
    requires alias != prop && alias != "col" && alias != "row"
    ensures prop !in Fragment(theme, dial, alias, value)
  {
    RuleForShape(alias);
    match RuleFor(alias)
    case SpacingRule(long) =>
      var a := TableKeyAlias(alias);
      PropIsPlain(a);
    case _ =>
  }

  /** A colour key whose value names a registered colour with a truthy value gets that
      colour; otherwise the literal value is kept under the same key. Nothing fails. */
  lemma ColorResolved(theme: Theme, dial: DialStyle, aliases: Props, i: nat)
    requires i < |aliases| && aliases[i].0 in ColorAliases
    requires DialSpares(theme, dial, aliases, i + 1, aliases[i].0)
    ensures var (alias, value) := aliases[i];
      var color := ColorOf(theme.colors, value);
      var style := ResolveEntry(theme, dial, aliases);
      && alias in style
      && (Truthy(color) ==> style[alias] == color)
      && (!Truthy(color) ==> style[alias] == value)
  {
    var alias := aliases[i].0;
    RuleForShape(alias);
    forall j | i < j < |aliases| ensures alias !in FragmentAt(theme, dial, aliases, j) {
      if aliases[j].0 != "col" && aliases[j].0 != "row" {
        OnlyOwnKeyWrites(theme, dial, aliases[j].0, aliases[j].1, alias);
      }
    }
    LastWriteWins(theme, dial, aliases, i, alias);
  }

  /** `borderRadius` naming a size with a truthy (non-zero) value gets that size;
      otherwise, numbers included, the literal value is kept. */
  lemma RadiusResolved(theme: Theme, dial: DialStyle, aliases: Props, i: nat)
    requires i < |aliases| && aliases[i].0 == "borderRadius"
    requires DialSpares(theme, dial, aliases, i + 1, "borderRadius")
    ensures var value := aliases[i].1;
      var size := SizeOf(theme.sizes, value);
      var style := ResolveEntry(theme, dial, aliases);
      && "borderRadius" in style
      && (Truthy(size) ==> style["borderRadius"] == size)
      && (!Truthy(size) ==> style["borderRadius"] == value)
      && (value.Num? ==> style["borderRadius"] == value)
  {
    RuleForShape("borderRadius");
    forall j | i < j < |aliases| ensures "borderRadius" !in FragmentAt(theme, dial, aliases, j) {
      if aliases[j].0 != "col" && aliases[j].0 != "row" {
        OnlyOwnKeyWrites(theme, dial, aliases[j].0, aliases[j].1, "borderRadius");
      }
    }
    LastWriteWins(theme, dial, aliases, i, "borderRadius");
  }

  /** A spacing alias writes its long property: a number unchanged, otherwise the
      registered size when found and non-zero, else the literal value. */
  lemma SpacingResolved(theme: Theme, dial: DialStyle, aliases: Props, i: nat, a: SpacingAlias)
    requires i < |aliases| && aliases[i].0 == NameOf(a)
    requires DialSpares(theme, dial, aliases, i + 1, PropOf(a))
    requires forall j :: i < j < |aliases| ==> aliases[j].0 != PropOf(a)
    ensures var value := aliases[i].1;
      var size := SizeOf(theme.sizes, value);
      var style := ResolveEntry(theme, dial, aliases);
      && PropOf(a) in style
      && (value.Num? ==> style[PropOf(a)] == value)
      && (!value.Num? && Truthy(size) ==> style[PropOf(a)] == size)
      && (!value.Num? && !Truthy(size) ==> style[PropOf(a)] == value)
  {
    var prop := PropOf(a);
    RuleForShape(NameOf(a));
    PropIsPlain(a);
    forall j | i < j < |aliases| ensures prop !in FragmentAt(theme, dial, aliases, j) {
      var key := aliases[j].0;
      assert key != NameOf(a);
      RuleForShape(key);
      match RuleFor(key)
      case SpacingRule(long) =>
        var b := TableKeyAlias(key);
        PropOfInjective(a, b);
      case _ =>
    }
    LastWriteWins(theme, dial, aliases, i, prop);
  }

  /** A key none of the rules claims is copied verbatim, unless a later pair writes the
      same property. */
  lemma ForwardResolved(theme: Theme, dial: DialStyle, aliases: seq<(string, Value)>, i: nat)
    requires i < |aliases| && RuleFor(aliases[i].0) == ForwardRule
    requires forall j :: i < j < |aliases| ==> aliases[i].0 !in FragmentAt(theme, dial, aliases, j)
    ensures var (key, value) := aliases[i];
      key in ResolveEntry(theme, dial, aliases) && ResolveEntry(theme, dial, aliases)[key] == value
  {
    LastWriteWins(theme, dial, aliases, i, aliases[i].0);
  }

  /** A pair that writes nothing (such as a `col` or `row` whose value is not a number) can
      be dropped without changing the entry's style. */
  lemma SilentPairDropped(
    theme: Theme, dial: DialStyle, prefix: seq<(string, Value)>, pair: (string, Value),
    suffix: seq<(string, Value)>)
    requires Fragment(theme, dial, pair.0, pair.1) == map[]
    ensures ResolveEntry(theme, dial, prefix + [pair] + suffix) == ResolveEntry(theme, dial, prefix + suffix)
  {
    var fp, fs := Fragments(theme, dial, prefix), Fragments(theme, dial, suffix);
    assert Fragments(theme, dial, prefix + [pair] + suffix) == fp + [map[]] + fs;
    assert Fragments(theme, dial, prefix + suffix) == fp + fs;
    MergeDropEmpty(fp, fs);
  }

  /** `col`/`row` with a value that is not a number writes nothing; with a number it
      merges `createDialStyle` for the matching direction. */
  lemma DialFragment(theme: Theme, dial: DialStyle, alias: string, value: Value)
    requires alias == "col" || alias == "row"
    ensures !value.Num? ==> Fragment(theme, dial, alias, value) == map[]
    ensures value.Num? ==>
      Fragment(theme, dial, alias, value) == dial(if alias == "col" then Column else Row, value.n)
  {
  }

  /** No short spacing alias survives into a resolved style, unless a layout fragment
      of `createDialStyle` writes it. */
  lemma NoShortAliasInStyle(theme: Theme, dial: DialStyle, aliases: seq<(string, Value)>, key: string)
    requires DialSpares(theme, dial, aliases, 0, key)
    requires key in AliasToProp
    ensures key !in ResolveEntry(theme, dial, aliases)
  {
    ResolvedKeys(theme, dial, aliases, key);
    var k := TableKeyAlias(key);
    forall i | 0 <= i < |aliases| ensures key !in FragmentAt(theme, dial, aliases, i) {
      var alias := aliases[i].0;
      RuleForShape(alias);
      match RuleFor(alias)
      case SpacingRule(long) =>
        var a := TableKeyAlias(alias);
        PropIsPlain(a);
      case ColorRule =>
        RuleForShape(key);
      case RadiusRule =>
        RuleForShape(key);
      case DialRule(_) =>
      case ForwardRule =>
    }
  }

  /** Each entry is resolved on its own: an entry resolves the same in any sheet. */
  lemma EntriesIndependent(theme: Theme, dial: DialStyle, s1: Sheet, s2: Sheet, name: string)
    requires name in s1 && name in s2 && s1[name] == s2[name]
    ensures CreateStyles(theme, dial, s1)[name] == CreateStyles(theme, dial, s2)[name]
  {
  }

  lemma SingletonValues(key: string, value: Value)
    ensures map[key := value].Values == {value}
  {
    var m := map[key := value];
    assert m[key] == value;
  }

  /** A warning is logged exactly for the pairs that fell back: a colour or size warning
      comes with the literal value written, a flex warning with nothing written. The
      colour warning shows the failed (falsy) lookup, never the value. Without a warning
      the colour or size lookup is what is written, and a number given to a spacing
      alias is written as it is. */
  lemma WarningMeansFallback(theme: Theme, dial: DialStyle, alias: string, value: Value)
    ensures var w := WarningFor(theme, alias, value);
      var fragment := Fragment(theme, dial, alias, value);
      && (w.Some? && w.value.ColorNotFound? ==> fragment == map[alias := value] && !Truthy(w.value.shown))
      && (w.Some? && w.value.SizeNotFound? ==> fragment.Values == {value})
      && (w.Some? && w.value.FlexInvalid? ==> fragment == map[])
      && (w.None? && RuleFor(alias).ColorRule? ==>
            fragment[alias] == ColorOf(theme.colors, value) && Truthy(fragment[alias]))
      && (w.None? && RuleFor(alias).RadiusRule? ==>
            fragment["borderRadius"] == SizeOf(theme.sizes, value) && Truthy(fragment["borderRadius"]))
      && (w.None? && RuleFor(alias).SpacingRule? && !value.Num? ==>
            fragment[RuleFor(alias).prop] == SizeOf(theme.sizes, value) && Truthy(fragment[RuleFor(alias).prop]))
      && (w.None? && RuleFor(alias).SpacingRule? && value.Num? ==> fragment[RuleFor(alias).prop] == value)
  {
    match RuleFor(alias)
    case RadiusRule =>
      if !Truthy(SizeOf(theme.sizes, value)) {
        assert Fragment(theme, dial, alias, value) == map["borderRadius" := value];
        SingletonValues("borderRadius", value);
      }
    case SpacingRule(prop) =>
      if !value.Num? && !Truthy(SizeOf(theme.sizes, value)) {
        assert Fragment(theme, dial, alias, value) == map[prop := value];
        SingletonValues(prop, value);
      }
    case _ =>
  }
}
