# react-native-themesheet, modelled in Dafny

react-native-themesheet lets an application declare its colours and spacing
sizes once and then write style sheets with short aliases: `px: 's'`
instead of `paddingHorizontal: 4`, `backgroundColor: 'primary'` instead of a
colour literal, `col: 5` for a flex layout. This project models the
parts that do the work, and proves what each one promises.

- **The alias resolver** (`createStyles`, in styles.ts and copied into
  theme.ts and theme.tsx). Every entry of a named sheet is resolved pair by
  pair, in key order:
  - colour keys are looked up in the colour table;
  - `borderRadius` is looked up in the size table;
  - the eighteen spacing aliases expand to their long margin and padding
    properties, where a number stays as it is and a name is looked up as a
    size;
  - `col` and `row` merge a layout fragment from `createDialStyle`;
  - any other key is copied.

  A lookup that finds nothing truthy keeps the literal value and, in
  development builds, logs a warning. The loop is the method
  `Styles.ResolveAliases`. It is proved equal to the left fold
  `Styles.ResolveEntry`, in which each pair contributes a `Fragment` that
  depends only on that pair. The lemmas about the fold state what lands in
  the style: last write wins, and each rule's outcome, fallback and warning.
- **The variant selector** (`createVariants`). Both sheets are resolved once.
  The selector returns the variant's style followed by the style of every
  modifier whose flag is truthy, in key order.
- **The spacing-style cache** (`getBoxStyle`, in utils.ts). It is a
  module-level map from the serialized spacing props to a style object. The
  map only grows, and a hit returns the very object stored earlier. The
  cache is the class `BoxStyle.StyleCache`, and its `Valid` invariant ties
  every stored object to the style of its key.
- **The box wrapper** (`createBox`, in box.tsx and theme.tsx). It pulls
  `style` and the eighteen spacing aliases out of the props and forwards the
  rest unchanged. It styles the wrapped component with
  `[getBoxStyle(spacing, sizes), style]`.
- **The theme** (`createTheme`, in theme.ts and theme.tsx). It binds these
  parts to one colour table and one size table. The examples of
  theme.test.ts are proved as lemmas in `ThemeExamples`.

JavaScript values are the datatype `Values.Value`. Plain objects are
sequences of key/value pairs with distinct keys (`Values.Props`), in their
iteration order. Resolved styles are maps.

Behaviour of the code worth knowing, which the model keeps as written:
- **The `col`/`row` guard.** The type `FlexStyle` (src/types.ts:69-72) allows
  only the values 1 to 9 for `col` and `row`. The runtime guard at
  src/styles.ts:70 reads `value >= 1 || value <= 9`, which every number
  passes. `Styles.DialGuardAcceptsEveryNumber` shows this. Only non-numbers
  are dropped, with a warning.
- **An undeclared modifier.** The selector's `modifier` parameter is typed
  over the declared modifier names (src/variants.ts:19). At run time,
  though, a truthy flag for a name that was never declared still pushes
  `mStyles[mod]`, which is `undefined` (src/variants.ts:24-25,
  `Variants.UndeclaredGivesUndefined`).
- **What counts as found.** The tests `if (color)` and `if (size)`
  (src/styles.ts:28, 42, 59) count a lookup as found only when its result
  is truthy. A colour or size registered as `0` or `''` falls back to the
  literal, with a warning.
- **The box path has no fallback.** The box path writes `sizes[sizeName]`
  directly (src/utils.ts:43). An unknown size name gives `undefined`, with
  no literal fallback and no warning (`BoxStyle.SpacingStyleValue`).
- **The cache ignores the theme.** The cache key is the serialized props
  alone (src/utils.ts:33), and the cache is one module-level map
  (src/utils.ts:30) shared by every theme in the process. A hit returns the
  style computed with the sizes of the call that stored that key, whatever
  sizes the later call passes (`BoxStyle.SecondCallHitsCache`). The style
  equals one computed with the current sizes when every stored entry was
  built with those sizes (`BuiltWith`).

## Model

| member | source | states |
|---|---|---|
| Values.ColorOf | src/styles.ts:26 | `colors[value]` is defined exactly when the value is a string naming a registered colour whose value is defined |
| Values.SizeOf | src/styles.ts:40 | `sizes[value]` is a number exactly when the value is a string naming a registered size; otherwise it is `undefined` |
| Values.Find | src/styles.ts:19 | reading an object's key finds nothing exactly when no entry has that key |
| Values.FindAt | src/utils.ts:37-40 | in an object, reading the key of any entry yields that entry's value |
| Values.Keys | src/utils.ts:4-6 | `Object.keys` lists every key, in iteration order, one per entry |
| Values.Truthy | src/styles.ts:28 | JavaScript truthiness: `undefined`, `null`, `false`, `0` and `''` are falsy, everything else is truthy |
| Values.Get | src/styles.ts:19 | reading `obj[key]`: the entry's value, or `undefined` when no entry has the key |
| Aliases.PropOf | src/utils.ts:8-28 | every alias has an entry in the alias table, and its long property is that entry |
| Aliases.ParseAlias | src/styles.ts:51-52 | a key that parses as an alias is that alias's name |
| Aliases.AllAliasesListsEach | src/box.tsx:13-31 | the destructured alias list has eighteen entries, contains every alias, and repeats none |
| Aliases.TableKeys | src/utils.ts:8-28 | the table's keys are exactly the names of the eighteen aliases |
| Aliases.TableSize | src/utils.ts:8-28 | the table has exactly eighteen entries |
| Aliases.ParseNameRoundTrip | src/styles.ts:51-52 | a name parses back to its alias, and a key is in the table exactly when it parses |
| Aliases.ParseName | src/styles.ts:51-52 | every alias's name parses back to that alias |
| Aliases.PropOfInjective | src/utils.ts:8-28 | distinct aliases expand to distinct properties; margin aliases expand to `margin…` properties and padding aliases to `padding…` properties |
| Aliases.PropIsPlain | src/styles.ts:21-69 | no long property is itself an alias, a colour key, `borderRadius`, `col` or `row` |
| Aliases.NameShapes | src/utils.ts:8-28 | every short name has at most two characters, and every long property has at least six and starts with `m` or `p` |
| Aliases.LongKeyNotInTable | src/styles.ts:51 | no key longer than two characters is in the alias table |
| Aliases.TableKeyAlias | src/styles.ts:51-52 | every key of the table is the name of exactly one alias, and expands to that alias's property |
| BoxStyle.CacheKey | src/utils.ts:33 | the serialized key keeps only entries of the props that are not `undefined`, and never grows |
| BoxStyle.SpacingStyle | src/utils.ts:39-45 | for each alias with a truthy value, in order, its long property is assigned `sizes[value]` |
| BoxStyle.ComputeSpacingStyle | src/utils.ts:36-45 | the forEach loop builds exactly the spacing style of the props |
| BoxStyle.SpacingStyleKeys | src/utils.ts:39-45 | a property is in the spacing style exactly when some alias with a truthy value expands to it |
| BoxStyle.SpacingStyleValue | src/utils.ts:40-43 | a truthy alias's property holds exactly `sizes[value]`, and that is `undefined` exactly when the value names no size |
| BoxStyle.FalsyContributesNothing | src/utils.ts:42 | an alias with a falsy value adds nothing to the style |
| BoxStyle.SpacingStyleOfKey | src/utils.ts:33-45 | props with the same cache key compute the same style, so keying on the serialization is sound |
| BoxStyle.CacheKeyIdempotent | src/utils.ts:33 | serializing a key again gives the same key |
| BoxStyle.StyleObject.constructor | src/utils.ts:47 | the created style object holds the computed style |
| BoxStyle.StyleCache.constructor | src/utils.ts:30 | the cache starts empty and valid |
| BoxStyle.StyleCache.GetBoxStyle | src/utils.ts:32-53 | on a hit, nothing changes and the stored object comes back; on a miss, exactly one fresh object holding the style is stored under the key; no entry ever changes or disappears; the cache stays valid; under one theme the result is the props' spacing style |
| BoxStyle.SecondCallHitsCache | src/utils.ts:35-52 | a second call with equally serializing props returns the very object the first call returned and stores nothing, whatever sizes it passes; its style is the one computed with the sizes of the call that stored the key |
| Styles.RuleForShape | src/styles.ts:21-86 | the dispatch picks the colour rule exactly for the three colour keys, the radius rule for `borderRadius`, the spacing rule exactly for the table's keys (with the table's property), and the layout rule for `col` (column) and `row` (row) |
| Styles.RuleFor | src/styles.ts:21-86 | the if-chain of the loop body, in its order: colour keys, `borderRadius`, keys of the alias table, `col`/`row`, anything else |
| Styles.Fragment | src/styles.ts:21-86 | what each branch writes for one pair: the colour or the literal, the radius size or the literal, the long spacing property, the merged layout fragment or nothing, or the key copied |
| Styles.Fragments | src/styles.ts:18-19 | the fragments of an entry's pairs, in key order |
| Styles.Merge | src/styles.ts:16-87 | the style starts empty and each fragment is assigned over it, later properties replacing earlier ones, as assignment and `Object.assign` do |
| Styles.ResolveEntry | src/styles.ts:15-89 | an entry resolves to its fragments merged in key order |
| Styles.WarningFor | src/styles.ts:35-37 | the `console.warn` a pair triggers: a colour or size not found, or a layout value that is not a number (also lines 47-49, 64-66 and 78-80) |
| Styles.EntryWarnings | src/styles.ts:18-87 | an entry's warnings, in key order |
| Styles.RuleForName | src/styles.ts:51-52 | an alias's name is handled by the spacing branch, which writes the alias's long property |
| Styles.RuleForLong | src/styles.ts:81-86 | a key longer than two characters that is neither a colour key, `borderRadius`, `col` nor `row` is forwarded |
| Styles.DialGuardAcceptsEveryNumber | src/styles.ts:70 | the `col`/`row` guard accepts a value exactly when it is a number, 12 and -3 included |
| Styles.OrLiteral | src/styles.ts:28-34 | the result is the lookup exactly when the lookup is truthy, and the literal otherwise |
| Styles.MergeSnoc | src/styles.ts:18-87 | resolving one more pair puts its fragment on top of the style built so far |
| Styles.MergeKeys | src/styles.ts:18-87 | the built style has a property exactly when some pair's fragment has it |
| Styles.MergeLast | src/styles.ts:18-87 | a property holds the value of the last fragment that has it |
| Styles.MergeDropEmpty | src/styles.ts:69-80 | a fragment with no properties can be left out without changing the built style |
| Styles.StepFacts | src/styles.ts:18-19 | one more pair adds its fragment to the style and its warning to the log |
| Styles.ApplyAlias | src/styles.ts:19-86 | one loop pass writes exactly the pair's fragment over the style, and logs the pair's warning only in development builds |
| Styles.ResolveAliases | src/styles.ts:16-89 | the loop over an entry builds exactly its left-fold style, and its log is the entry's warnings in key order (empty outside development builds) |
| Styles.CreateStyles | src/styles.ts:7-15 | the resolved sheet has the same entry names as the input sheet |
| Styles.ResolvedKeys | src/styles.ts:18-87 | a property is in a resolved entry exactly when some pair's fragment writes it |
| Styles.LastWriteWins | src/styles.ts:18-87 | a property takes the value written by the last pair that writes it |
| Styles.OnlyOwnKeyWrites | src/styles.ts:21-86 | only the key itself, or a layout fragment, can write a colour property or `borderRadius` |
| Styles.ColorResolved | src/styles.ts:21-38 | a colour key gets its colour when the lookup is truthy and keeps its literal otherwise, provided no later `col`/`row` layout fragment writes that key; nothing fails |
| Styles.RadiusResolved | src/styles.ts:39-50 | `borderRadius` gets a truthy registered size and otherwise keeps its literal, numbers included, provided no later layout fragment writes `borderRadius` |
| Styles.SpacingResolved | src/styles.ts:51-68 | a spacing alias writes its long property: a number unchanged, a truthy registered size, or else the literal; provided no later pair copies that property and no later layout fragment writes it |
| Styles.ForwardResolved | src/styles.ts:81-86 | any other key is copied with its value, unless a later pair writes the same property |
| Styles.SilentPairDropped | src/styles.ts:69-80 | a pair that writes nothing can be dropped from an entry without changing its style |
| Styles.DialFragment | src/styles.ts:69-80 | `col`/`row` with a non-number writes nothing; with a number it merges `createDialStyle` for the matching direction |
| Styles.NoShortAliasInStyle | src/styles.ts:51-68 | no short spacing alias survives into a resolved style unless a layout fragment of `createDialStyle` writes it |
| Styles.EntriesIndependent | src/styles.ts:15 | each entry resolves on its own: the same entry resolves the same in any sheet |
| Styles.WarningMeansFallback | src/styles.ts:28-80 | a colour or size warning comes with the literal written, a layout warning with nothing written; the colour warning shows the falsy lookup; without a warning the colour, radius or spacing property holds the truthy lookup result, or the number given to a spacing alias |
| Variants.Lookup | src/variants.ts:21 | reading a resolved sheet gives its style exactly for declared names, and `undefined` otherwise |
| Variants.CreateVariants | src/variants.ts:10-16 | both sheets are resolved up front, name by name, with their names kept |
| Variants.Pushed | src/variants.ts:23-27 | for each flag in key order, the modifier's resolved style is pushed when the flag is truthy |
| Variants.Selected | src/variants.ts:21-29 | the selector's list: the variant's resolved style, then the pushed modifier styles |
| Variants.PushedConcat | src/variants.ts:23-27 | pushing over two runs of flags is pushing over each run in turn |
| Variants.GetVariantStyle | src/variants.ts:17-30 | the loop returns exactly the variant's style followed by the pushed modifier styles |
| Variants.SelectedShape | src/variants.ts:21-29 | the list has one more entry than there are truthy flags: the variant's style first, then the styles of the truthy flags in key order |
| Variants.PushedIsOnFlags | src/variants.ts:23-27 | the pushed styles are the lookups of the truthy flags, one for one |
| Variants.OnFlagsMembers | src/variants.ts:23-24 | a modifier is pushed exactly when its flag is truthy |
| Variants.FalsyFlagsAddNothing | src/variants.ts:23-27 | with no flag truthy, the list is the variant's style alone |
| Variants.UndeclaredGivesUndefined | src/variants.ts:21-25 | an undeclared variant gives `undefined` first, and a truthy flag for an undeclared modifier adds `undefined` rather than being skipped |
| Box.CreateCreateBox | src/box.tsx:7-10 | the factory keeps the sizes it was given |
| Box.SpacingOf | src/box.tsx:34-55 | the object passed to `getBoxStyle` lists all eighteen aliases in the source's order |
| Box.RestOf | src/box.tsx:11-33 | the rest props are exactly the props whose key is neither `style` nor a spacing alias |
| Box.Render | src/box.tsx:11-60 | the wrapped component gets the rest props and the two-entry style list `[cached spacing sheet, style prop]`; on a cache hit the cache is unchanged and the stored sheet is used; on a miss exactly one fresh sheet holding the props' spacing style is stored under their key; the cache stays valid |
| Box.RestForwardsOthers | src/box.tsx:32 | a spacing alias or `style` is never forwarded, and every other prop is forwarded with its value |
| Box.PartitionLosesNothing | src/box.tsx:11-59 | every prop ends up in exactly one place: `style` in the style list, a spacing alias in the spacing object, anything else in the rest props |
| Box.SameSpacingSameKey | src/box.tsx:34-57 | props whose spacing values agree give the same spacing object and the same cache key, whatever their other props |
| Box.SpacingStyleOnlySpacing | src/box.tsx:34-57 | the spacing style holds only long margin and padding properties of aliases whose value is truthy |
| ThemeTs.ThemeApi.CreateStyles | src/theme.ts:66-151 | this copy of `createStyles` resolves every entry with the theme's own tables, keeping the entry names |
| ThemeTs.ThemeApi.CreateVariants | src/theme.ts:156-184 | this copy of `createVariants` resolves both sheets with the theme's own tables |
| ThemeTs.CreateTheme | src/theme.ts:189-195 | the returned record carries the colours and sizes unchanged |
| ThemeTsx.ThemeApi.CreateStyles | src/theme.tsx:20-105 | this copy of `createStyles` resolves every entry with the theme's own tables, keeping the entry names |
| ThemeTsx.ThemeApi.CreateVariants | src/theme.tsx:110-138 | this copy of `createVariants` resolves both sheets with the theme's own tables |
| ThemeTsx.ThemeApi.CreateBox | src/theme.tsx:143-196 | the theme's box is the box wrapper over the theme's own sizes |
| ThemeTsx.CreateTheme | src/theme.tsx:201-208 | the returned record carries the colours and sizes unchanged |
| ThemeExamples.BoxExample | src/theme.test.ts:50-59 | `box` resolves to the black and white colours, `paddingHorizontal` 4, `marginVertical` 8, `marginLeft` 30 and the centred column layout |
| ThemeExamples.RowExample | src/theme.test.ts:61-67 | `row` resolves to `marginTop` 16, the row layout ending at `flex-end`, and `borderRadius` 10 |
| ThemeExamples.TextExample | src/theme.test.ts:69-73 | `text` resolves to white on black with `marginBottom` 16 |
| ThemeExamples.ErrorExample | src/theme.test.ts:75-78 | `error` resolves to the red and green colours |
| ThemeExamples.BoxResolves | src/theme.test.ts:26-33 | the `box` entry resolves to the style of the box example, given the two layout fragments the tests show |
| ThemeExamples.BoxLayoutSparesColors | src/theme.test.ts:26-33 | in the `box` entry, the layout fragment of `col: 5` writes neither colour key, so `Styles.ColorResolved` covers both colour pairs |
| ThemeExamples.RowResolves | src/theme.test.ts:34-38 | the `row` entry resolves to the style of the row example |
| ThemeExamples.TextResolves | src/theme.test.ts:39-43 | the `text` entry resolves to the style of the text example |
| ThemeExamples.ErrorResolves | src/theme.test.ts:44-47 | the `error` entry resolves to the style of the error example |
| ThemeExamples.PrimaryResolves | src/theme.test.ts:84-87 | the `primary` variant entry resolves to white for both colour keys |
| ThemeExamples.DisabledResolves | src/theme.test.ts:98-100 | the `disabled` modifier entry resolves to `opacity` 0.75, copied unchanged |
| ThemeExamples.SelectOneFlag | src/variants.ts:21-29 | one variant and one truthy declared flag select the variant's style and then the modifier's style |
| ThemeExamples.PrimaryVariantExample | src/theme.test.ts:84-87 | the primary variant resolves to the `onPrimary` colour, white, for both keys |
| ThemeExamples.DisabledModifierExample | src/theme.test.ts:98-100 | the disabled modifier keeps its opacity 0.75 |
| ThemeExamples.VariantsExample | src/theme.test.ts:107-113 | selecting `primary` with `disabled: true` gives the primary colours, then the disabled opacity |

## Left out

- Rendering: React, JSX and the wrapped `BaseComponent` are outside the model. `Box.Render` returns the props and style list the component would receive.
- `createDialStyle` comes from the react-native-col library, which is not part of this model. It is a function parameter, and the examples assume only the two fragments the tests show.
- `StyleSheet.create` is taken as the identity on styles. A stored style object is a `StyleObject`, so that reference identity of cache hits can be stated.
- `lodash.mapvalues` is a map comprehension over the sheet.
- The warning texts of `console.warn` are left out. Each warning is a `Warning` value with its key and the value it shows, and the `__DEV__` flag is the parameter `dev`.
- JavaScript property lookup is reduced to own string keys. A number used as a colour or size name finds nothing here, where JavaScript would convert it to a string. Inherited prototype keys are left out: `'toString' in aliasToProp` and `colors['constructor']` are truthy in JavaScript.
- Key order: objects keep the order in which the model lists their pairs. JavaScript's rule that integer-like keys come first is not modelled.
- Numbers are reals, without NaN or infinities.
- `JSON.stringify` is abstracted as `BoxStyle.CacheKey`: the entries in order, leaving out those that are `undefined`. Different values that serialize alike (a function and `undefined`, NaN and `null`) are not modelled.
- The type definitions of types.ts only shape the types, and are not part of this model.
- index.ts wires styles.ts, variants.ts and box.tsx together as theme.tsx does, and imports `createCreateStyles`, a name styles.ts does not export (it exports `createStylesFactory`). It is not modelled on its own.
- index.test.ts and box.test.tsx call `createTheme(colors, sizes)` with two positional arguments, while the current `createTheme` takes one `{ colors, sizes }` object. Only the examples of theme.test.ts are proved. box.test.tsx asserts nothing.
