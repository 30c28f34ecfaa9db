/**
 * The worked examples of theme.test.ts, proved for the model: the test theme,
 * its `createStyles` sheet and its `createVariants` call. `createDialStyle`
 * stays a parameter; the examples assume only the two layout fragments the
 * tests show it producing.
 */
module ThemeExamples {

  import opened Values
  import opened Styles
  import Aliases
  import Variants
  import ThemeTs

  type Pair = (string, Value)

  const TestColors: Colors := map[
    "primary" := Str("black"),
    "accent" := Str("white"),
    "positive" := Str("green"),
    "negative" := Str("red"),
    "transparent" := Str("transparent"),
    "onPrimary" := Str("white"),
    "onAccent" := Str("black")
  ]

  const TestSizes: Sizes := map["s" := 4.0, "m" := 8.0, "l" := 16.0, "roundness" := 10.0]

  const TestTheme: Theme := Theme(TestColors, TestSizes)

  const BoxEntry: Props := [
    ("backgroundColor", Str("primary")), ("borderColor", Str("accent")), ("px", Str("s")),
    ("my", Str("m")), ("marginLeft", Num(30.0)), ("col", Num(5.0))]

  const RowEntry: Props := [("mt", Str("l")), ("row", Num(8.0)), ("borderRadius", Str("roundness"))]

  const TextEntry: Props := [("backgroundColor", Str("accent")), ("color", Str("onAccent")), ("mb", Str("l"))]

  const ErrorEntry: Props := [("backgroundColor", Str("negative")), ("color", Str("positive"))]

  const TestSheet: Sheet := map["box" := BoxEntry, "row" := RowEntry, "text" := TextEntry, "error" := ErrorEntry]

  const PrimaryEntry: Props := [("backgroundColor", Str("onPrimary")), ("borderColor", Str("onPrimary"))]

  const DisabledEntry: Props := [("opacity", Num(0.75))]

  const TestVariants: Sheet := map[
    "primary" := PrimaryEntry,
    "accent" := [("backgroundColor", Str("accent")), ("borderColor", Str("accent"))],
    "secondary" := [("backgroundColor", Str("transparent")), ("borderColor", Str("onPrimary"))]
  ]

  const TestModifiers: Sheet := map["disabled" := DisabledEntry, "compact" := [("px", Str("s"))]]

  /** The two layout fragments the tests show `createDialStyle` producing. */
  predicate DialAsInTests(dial: DialStyle) {
    && dial(Column, 5.0) == map[
         "flexDirection" := Str("column"), "justifyContent" := Str("center"), "alignItems" := Str("center")]
    && dial(Row, 8.0) == map[
         "flexDirection" := Str("row"), "justifyContent" := Str("center"), "alignItems" := Str("flex-end")]
  }

  // An entry of n pairs resolves to its n fragments merged left to right.

  lemma Snoc(theme: Theme, dial: DialStyle, prefix: seq<Pair>, pair: Pair)
    ensures ResolveEntry(theme, dial, prefix + [pair]) ==
      ResolveEntry(theme, dial, prefix) + Fragment(theme, dial, pair.0, pair.1)
  {
    var top := Fragment(theme, dial, pair.0, pair.1);
    assert Fragments(theme, dial, prefix + [pair]) == Fragments(theme, dial, prefix) + [top];
    MergeSnoc(Fragments(theme, dial, prefix), top);
  }

  lemma Resolve1(theme: Theme, dial: DialStyle, p0: Pair)
    ensures ResolveEntry(theme, dial, [p0]) == Fragment(theme, dial, p0.0, p0.1)
  {
    var top := Fragment(theme, dial, p0.0, p0.1);
    assert Fragments(theme, dial, [p0]) == [] + [top];
    MergeSnoc([], top);
  }

  lemma Resolve2(theme: Theme, dial: DialStyle, p0: Pair, p1: Pair)
    ensures ResolveEntry(theme, dial, [p0, p1]) ==
      Fragment(theme, dial, p0.0, p0.1) + Fragment(theme, dial, p1.0, p1.1)
  {
    Resolve1(theme, dial, p0);
    Snoc(theme, dial, [p0], p1);
    assert [p0] + [p1] == [p0, p1];
  }

  lemma Resolve3(theme: Theme, dial: DialStyle, p0: Pair, p1: Pair, p2: Pair)
    ensures ResolveEntry(theme, dial, [p0, p1, p2]) ==
      Fragment(theme, dial, p0.0, p0.1) + Fragment(theme, dial, p1.0, p1.1) + Fragment(theme, dial, p2.0, p2.1)
  {
    Resolve2(theme, dial, p0, p1);
    Snoc(theme, dial, [p0, p1], p2);
    assert [p0, p1] + [p2] == [p0, p1, p2];
  }

  lemma Resolve4(theme: Theme, dial: DialStyle, p0: Pair, p1: Pair, p2: Pair, p3: Pair)
    ensures ResolveEntry(theme, dial, [p0, p1, p2, p3]) ==
      Fragment(theme, dial, p0.0, p0.1) + Fragment(theme, dial, p1.0, p1.1) + Fragment(theme, dial, p2.0, p2.1) +
      Fragment(theme, dial, p3.0, p3.1)
  {
    Resolve3(theme, dial, p0, p1, p2);
    Snoc(theme, dial, [p0, p1, p2], p3);
    assert [p0, p1, p2] + [p3] == [p0, p1, p2, p3];
  }

  lemma Resolve5(theme: Theme, dial: DialStyle, p0: Pair, p1: Pair, p2: Pair, p3: Pair, p4: Pair)
    ensures ResolveEntry(theme, dial, [p0, p1, p2, p3, p4]) ==
      Fragment(theme, dial, p0.0, p0.1) + Fragment(theme, dial, p1.0, p1.1) + Fragment(theme, dial, p2.0, p2.1) +
      Fragment(theme, dial, p3.0, p3.1) + Fragment(theme, dial, p4.0, p4.1)
  {
    Resolve4(theme, dial, p0, p1, p2, p3);
    Snoc(theme, dial, [p0, p1, p2, p3], p4);
    assert [p0, p1, p2, p3] + [p4] == [p0, p1, p2, p3, p4];
  }

  lemma Resolve6(theme: Theme, dial: DialStyle, p0: Pair, p1: Pair, p2: Pair, p3: Pair, p4: Pair, p5: Pair)
    ensures ResolveEntry(theme, dial, [p0, p1, p2, p3, p4, p5]) ==
      Fragment(theme, dial, p0.0, p0.1) + Fragment(theme, dial, p1.0, p1.1) + Fragment(theme, dial, p2.0, p2.1) +
      Fragment(theme, dial, p3.0, p3.1) + Fragment(theme, dial, p4.0, p4.1) + Fragment(theme, dial, p5.0, p5.1)
  {
    Resolve5(theme, dial, p0, p1, p2, p3, p4);
    Snoc(theme, dial, [p0, p1, p2, p3, p4], p5);
    assert [p0, p1, p2, p3, p4] + [p5] == [p0, p1, p2, p3, p4, p5];
  }

  // Merging one-property fragments is assigning their properties in turn.

  lemma MergeOntoUpdate(m: Style, n: Style, key: string, value: Value)
    ensures m + n[key := value] == (m + n)[key := value]
  {
  }

  lemma MergeThree(m: Style, k0: string, v0: Value, k1: string, v1: Value, k2: string, v2: Value)
    ensures m + map[k0 := v0, k1 := v1, k2 := v2] == m[k0 := v0][k1 := v1][k2 := v2]
  {
    MergeOntoUpdate(m, map[k0 := v0, k1 := v1], k2, v2);
    MergeOntoUpdate(m, map[k0 := v0], k1, v1);
    UpdateIsMerge(m, k0, v0);
  }

  // box

  const BoxResolved: Style := map[
    "backgroundColor" := Str("black"), "borderColor" := Str("white"),
    "paddingHorizontal" := Num(4.0), "marginVertical" := Num(8.0), "marginLeft" := Num(30.0),
    "flexDirection" := Str("column"), "justifyContent" := Str("center"), "alignItems" := Str("center")]

  /** `backgroundColor: 'primary'` looks the colour name up in the theme. */
  lemma BoxBackground(dial: DialStyle)
    ensures Fragment(TestTheme, dial, "backgroundColor", Str("primary")) == map["backgroundColor" := Str("black")]
  {
  }

  /** `borderColor: 'accent'` looks the colour name up in the theme. */
  lemma BoxBorder(dial: DialStyle)
    ensures Fragment(TestTheme, dial, "borderColor", Str("accent")) == map["borderColor" := Str("white")]
  {
  }

  /** `px: 's'` writes the size under `paddingHorizontal`. */
  lemma BoxPaddingX(dial: DialStyle)
    ensures Fragment(TestTheme, dial, "px", Str("s")) == map["paddingHorizontal" := Num(4.0)]
  {
    RuleForName(Aliases.Px);
  }

  /** `my: 'm'` writes the size under `marginVertical`. */
  lemma BoxMarginY(dial: DialStyle)
    ensures Fragment(TestTheme, dial, "my", Str("m")) == map["marginVertical" := Num(8.0)]
  {
    RuleForName(Aliases.My);
  }

  /** The long `marginLeft` is copied. */
  lemma BoxMarginLeft(dial: DialStyle)
    ensures Fragment(TestTheme, dial, "marginLeft", Num(30.0)) == map["marginLeft" := Num(30.0)]
  {
    RuleForLong("marginLeft");
  }

  /** `col: 5` is handed to `createDialStyle`. */
  lemma BoxColumn(dial: DialStyle)
    ensures Fragment(TestTheme, dial, "col", Num(5.0)) == dial(Column, 5.0)
  {
    DialFragment(TestTheme, dial, "col", Num(5.0));
  }

  lemma BoxMerged(dial: DialStyle, f0: Style, f1: Style, f2: Style, f3: Style, f4: Style, f5: Style)
    requires DialAsInTests(dial)
    requires f0 == map["backgroundColor" := Str("black")] && f1 == map["borderColor" := Str("white")]
    requires f2 == map["paddingHorizontal" := Num(4.0)] && f3 == map["marginVertical" := Num(8.0)]
    requires f4 == map["marginLeft" := Num(30.0)] && f5 == dial(Column, 5.0)
    ensures f0 + f1 + f2 + f3 + f4 + f5 == BoxResolved
  {
    UpdateIsMerge(f0, "borderColor", Str("white"));
    UpdateIsMerge(f0 + f1, "paddingHorizontal", Num(4.0));
    UpdateIsMerge(f0 + f1 + f2, "marginVertical", Num(8.0));
    UpdateIsMerge(f0 + f1 + f2 + f3, "marginLeft", Num(30.0));
    MergeThree(f0 + f1 + f2 + f3 + f4,
      "flexDirection", Str("column"), "justifyContent", Str("center"), "alignItems", Str("center"));
  }

  /** The `box` entry: black and white colours, `paddingHorizontal` 4, `marginVertical` 8,
      `marginLeft` 30 and the centred column layout. */
  lemma BoxResolves(dial: DialStyle)
    requires DialAsInTests(dial)
    ensures ResolveEntry(TestTheme, dial, BoxEntry) == BoxResolved
  {
    var p0, p1, p2 := ("backgroundColor", Str("primary")), ("borderColor", Str("accent")), ("px", Str("s"));
    var p3, p4, p5 := ("my", Str("m")), ("marginLeft", Num(30.0)), ("col", Num(5.0));
    assert BoxEntry == [p0, p1, p2, p3, p4, p5];
    Resolve6(TestTheme, dial, p0, p1, p2, p3, p4, p5);
    BoxBackground(dial);
    BoxBorder(dial);
    BoxPaddingX(dial);
    BoxMarginY(dial);
    BoxMarginLeft(dial);
    BoxColumn(dial);
    BoxMerged(dial,
      Fragment(TestTheme, dial, p0.0, p0.1), Fragment(TestTheme, dial, p1.0, p1.1),
      Fragment(TestTheme, dial, p2.0, p2.1), Fragment(TestTheme, dial, p3.0, p3.1),
      Fragment(TestTheme, dial, p4.0, p4.1), Fragment(TestTheme, dial, p5.0, p5.1));
  }

  /** The layout fragment of `col: 5` leaves the colour keys of `box` alone, so the general
      colour lemma applies to them. */
  lemma BoxLayoutSparesColors(dial: DialStyle)
    requires DialAsInTests(dial)
    ensures DialSpares(TestTheme, dial, BoxEntry, 1, "backgroundColor")
    ensures DialSpares(TestTheme, dial, BoxEntry, 2, "borderColor")
  {
    forall j | 1 <= j < |BoxEntry| && (BoxEntry[j].0 == "col" || BoxEntry[j].0 == "row")
      ensures "backgroundColor" !in FragmentAt(TestTheme, dial, BoxEntry, j)
      ensures "borderColor" !in FragmentAt(TestTheme, dial, BoxEntry, j)
    {
      assert j == 5;
      BoxColumn(dial);
    }
  }

  /** `$.box` of the test sheet. */
  lemma BoxExample(dial: DialStyle)
    requires DialAsInTests(dial)
    ensures ThemeTs.CreateTheme(TestColors, TestSizes).CreateStyles(dial, TestSheet)["box"] == BoxResolved
  {
    BoxResolves(dial);
    assert TestSheet["box"] == BoxEntry;
  }

  // row

  const RowResolved: Style := map[
    "marginTop" := Num(16.0), "flexDirection" := Str("row"), "justifyContent" := Str("center"),
    "alignItems" := Str("flex-end"), "borderRadius" := Num(10.0)]

  /** `mt: 'l'` writes the size under `marginTop`. */
  lemma RowMarginTop(dial: DialStyle)
    ensures Fragment(TestTheme, dial, "mt", Str("l")) == map["marginTop" := Num(16.0)]
  {
    RuleForName(Aliases.Mt);
  }

  /** `row: 8` is handed to `createDialStyle`. */
  lemma RowRow(dial: DialStyle)
    ensures Fragment(TestTheme, dial, "row", Num(8.0)) == dial(Row, 8.0)
  {
    DialFragment(TestTheme, dial, "row", Num(8.0));
  }

  /** `borderRadius: 'roundness'` looks the size name up in the theme. */
  lemma RowRadius(dial: DialStyle)
    ensures Fragment(TestTheme, dial, "borderRadius", Str("roundness")) == map["borderRadius" := Num(10.0)]
  {
  }

  lemma RowMerged(dial: DialStyle, f0: Style, f1: Style, f2: Style)
    requires DialAsInTests(dial)
    requires f0 == map["marginTop" := Num(16.0)] && f1 == dial(Row, 8.0) && f2 == map["borderRadius" := Num(10.0)]
    ensures f0 + f1 + f2 == RowResolved
  {
    MergeThree(f0, "flexDirection", Str("row"), "justifyContent", Str("center"), "alignItems", Str("flex-end"));
    UpdateIsMerge(f0 + f1, "borderRadius", Num(10.0));
  }

  /** The `row` entry: `row: 8` gives the row layout ending at `flex-end`, beside
      `marginTop` 16 and `borderRadius` 10. */
  lemma RowResolves(dial: DialStyle)
    requires DialAsInTests(dial)
    ensures ResolveEntry(TestTheme, dial, RowEntry) == RowResolved
  {
    var p0, p1, p2 := ("mt", Str("l")), ("row", Num(8.0)), ("borderRadius", Str("roundness"));
    assert RowEntry == [p0, p1, p2];
    Resolve3(TestTheme, dial, p0, p1, p2);
    RowMarginTop(dial);
    RowRow(dial);
    RowRadius(dial);
    RowMerged(dial,
      Fragment(TestTheme, dial, p0.0, p0.1), Fragment(TestTheme, dial, p1.0, p1.1),
      Fragment(TestTheme, dial, p2.0, p2.1));
  }

  /** `$.row` of the test sheet. */
  lemma RowExample(dial: DialStyle)
    requires DialAsInTests(dial)
    ensures ThemeTs.CreateTheme(TestColors, TestSizes).CreateStyles(dial, TestSheet)["row"] == RowResolved
  {
    RowResolves(dial);
    assert TestSheet["row"] == RowEntry;
  }

  // text and error

  const TextResolved: Style :=
    map["backgroundColor" := Str("white"), "color" := Str("black"), "marginBottom" := Num(16.0)]

  const ErrorResolved: Style := map["backgroundColor" := Str("red"), "color" := Str("green")]

  lemma TextBackground(dial: DialStyle)
    ensures Fragment(TestTheme, dial, "backgroundColor", Str("accent")) == map["backgroundColor" := Str("white")]
  {
  }

  lemma TextColor(dial: DialStyle)
    ensures Fragment(TestTheme, dial, "color", Str("onAccent")) == map["color" := Str("black")]
  {
  }

  lemma TextMarginBottom(dial: DialStyle)
    ensures Fragment(TestTheme, dial, "mb", Str("l")) == map["marginBottom" := Num(16.0)]
  {
    RuleForName(Aliases.Mb);
  }

  lemma TextMerged(f0: Style, f1: Style, f2: Style)
    requires f0 == map["backgroundColor" := Str("white")] && f1 == map["color" := Str("black")]
    requires f2 == map["marginBottom" := Num(16.0)]
    ensures f0 + f1 + f2 == TextResolved
  {
    UpdateIsMerge(f0, "color", Str("black"));
    UpdateIsMerge(f0 + f1, "marginBottom", Num(16.0));
  }

  /** The `text` entry: colour names and `mb` resolved through the theme. */
  lemma TextResolves(dial: DialStyle)
    ensures ResolveEntry(TestTheme, dial, TextEntry) == TextResolved
  {
    var p0, p1, p2 := ("backgroundColor", Str("accent")), ("color", Str("onAccent")), ("mb", Str("l"));
    assert TextEntry == [p0, p1, p2];
    Resolve3(TestTheme, dial, p0, p1, p2);
    TextBackground(dial);
    TextColor(dial);
    TextMarginBottom(dial);
    TextMerged(
      Fragment(TestTheme, dial, p0.0, p0.1), Fragment(TestTheme, dial, p1.0, p1.1),
      Fragment(TestTheme, dial, p2.0, p2.1));
  }

  /** `$.text` of the test sheet. */
  lemma TextExample(dial: DialStyle)
    ensures ThemeTs.CreateTheme(TestColors, TestSizes).CreateStyles(dial, TestSheet)["text"] == TextResolved
  {
    TextResolves(dial);
    assert TestSheet["text"] == TextEntry;
  }

  lemma ErrorBackground(dial: DialStyle)
    ensures Fragment(TestTheme, dial, "backgroundColor", Str("negative")) == map["backgroundColor" := Str("red")]
  {
  }

  lemma ErrorColor(dial: DialStyle)
    ensures Fragment(TestTheme, dial, "color", Str("positive")) == map["color" := Str("green")]
  {
  }

  /** The `error` entry: both colour names resolved through the theme. */
  lemma ErrorResolves(dial: DialStyle)
    ensures ResolveEntry(TestTheme, dial, ErrorEntry) == ErrorResolved
  {
    var p0, p1 := ("backgroundColor", Str("negative")), ("color", Str("positive"));
    assert ErrorEntry == [p0, p1];
    Resolve2(TestTheme, dial, p0, p1);
    ErrorBackground(dial);
    ErrorColor(dial);
    UpdateIsMerge(map["backgroundColor" := Str("red")], "color", Str("green"));
  }

  /** `$.error` of the test sheet. */
  lemma ErrorExample(dial: DialStyle)
    ensures ThemeTs.CreateTheme(TestColors, TestSizes).CreateStyles(dial, TestSheet)["error"] == ErrorResolved
  {
    ErrorResolves(dial);
    assert TestSheet["error"] == ErrorEntry;
  }

  // createVariants

  const PrimaryResolved: Style := map["backgroundColor" := Str("white"), "borderColor" := Str("white")]

  const DisabledResolved: Style := map["opacity" := Num(0.75)]

  lemma PrimaryBackground(dial: DialStyle)
    ensures Fragment(TestTheme, dial, "backgroundColor", Str("onPrimary")) == map["backgroundColor" := Str("white")]
  {
  }

  lemma PrimaryBorder(dial: DialStyle)
    ensures Fragment(TestTheme, dial, "borderColor", Str("onPrimary")) == map["borderColor" := Str("white")]
  {
  }

  /** The `primary` variant: both colours resolved to `onPrimary`. */
  lemma PrimaryResolves(dial: DialStyle)
    ensures ResolveEntry(TestTheme, dial, PrimaryEntry) == PrimaryResolved
  {
    var p0, p1 := ("backgroundColor", Str("onPrimary")), ("borderColor", Str("onPrimary"));
    assert PrimaryEntry == [p0, p1];
    Resolve2(TestTheme, dial, p0, p1);
    PrimaryBackground(dial);
    PrimaryBorder(dial);
    UpdateIsMerge(map["backgroundColor" := Str("white")], "borderColor", Str("white"));
  }

  /** The `disabled` modifier: `opacity` is copied with its number. */
  lemma DisabledResolves(dial: DialStyle)
    ensures ResolveEntry(TestTheme, dial, DisabledEntry) == DisabledResolved
  {
    var p0 := ("opacity", Num(0.75));
    assert DisabledEntry == [p0];
    Resolve1(TestTheme, dial, p0);
    RuleForLong("opacity");
  }

  /** The primary variant is resolved up front. */
  lemma PrimaryVariantExample(dial: DialStyle)
    ensures var sel := ThemeTs.CreateTheme(TestColors, TestSizes).CreateVariants(dial, TestVariants, TestModifiers);
      "primary" in sel.vStyles && sel.vStyles["primary"] == PrimaryResolved
  {
    PrimaryResolves(dial);
    assert "primary" in TestVariants && TestVariants["primary"] == PrimaryEntry;
  }

  /** The disabled modifier is resolved up front. */
  lemma DisabledModifierExample(dial: DialStyle)
    ensures var sel := ThemeTs.CreateTheme(TestColors, TestSizes).CreateVariants(dial, TestVariants, TestModifiers);
      "disabled" in sel.mStyles && sel.mStyles["disabled"] == DisabledResolved
  {
    DisabledResolves(dial);
    assert "disabled" in TestModifiers && TestModifiers["disabled"] == DisabledEntry;
  }

  /** One variant and one truthy flag select the variant's style and then the modifier's. */
  lemma SelectOneFlag(sel: Variants.Selector, variant: string, flag: string, vStyle: Style, mStyle: Style)
    requires variant in sel.vStyles && sel.vStyles[variant] == vStyle
    requires flag in sel.mStyles && sel.mStyles[flag] == mStyle
    ensures Variants.Selected(sel, variant, [(flag, Bool(true))]) == [Some(vStyle), Some(mStyle)]
  {
    var modifier: seq<Pair> := [(flag, Bool(true))];
    assert modifier[1..] == [];
    assert Variants.Pushed(sel.mStyles, modifier[1..]) == [];
    assert Variants.Pushed(sel.mStyles, modifier) == [Some(mStyle)];
  }

  /** `$('primary', { disabled: true })`: the primary variant's colours, then the disabled
      modifier's opacity. */
  lemma VariantsExample(dial: DialStyle)
    ensures var sel := ThemeTs.CreateTheme(TestColors, TestSizes).CreateVariants(dial, TestVariants, TestModifiers);
      Variants.Selected(sel, "primary", [("disabled", Bool(true))]) == [Some(PrimaryResolved), Some(DisabledResolved)]
  {
    var sel := ThemeTs.CreateTheme(TestColors, TestSizes).CreateVariants(dial, TestVariants, TestModifiers);
    PrimaryVariantExample(dial);
    DisabledModifierExample(dial);
    SelectOneFlag(sel, "primary", "disabled", PrimaryResolved, DisabledResolved);
  }
}
