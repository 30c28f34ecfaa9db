/**
 * `createTheme` of theme.ts: binds a theme's colours and sizes and returns
 * them with its own `createStyles` and `createVariants`. Those two are the
 * resolver and the variant selector of styles.ts and variants.ts line for
 * line, so they are bound here to the same definitions.
 */
module ThemeTs {

  import opened Values
  import opened Styles
  import Variants

  /** The record `createTheme({ colors, sizes })` returns. */
  datatype ThemeApi = ThemeApi(colors: Colors, sizes: Sizes) {

    /** This copy of `createStyles` resolves every entry with this theme's tables. */
    function CreateStyles(dial: DialStyle, styles: Sheet): (r: ResolvedSheet)
      ensures r.Keys == styles.Keys
      ensures forall name :: name in styles ==> r[name] == ResolveEntry(Theme(colors, sizes), dial, styles[name])
    {
      Styles.CreateStyles(Theme(colors, sizes), dial, styles)
    }

    /** This copy of `createVariants` resolves both sheets with this theme's tables. */
    function CreateVariants(dial: DialStyle, variants: Sheet, modifiers: Sheet): (r: Variants.Selector)
      ensures r.vStyles.Keys == variants.Keys && r.mStyles.Keys == modifiers.Keys
      ensures forall name :: name in variants ==>
        r.vStyles[name] == ResolveEntry(Theme(colors, sizes), dial, variants[name])
      ensures forall name :: name in modifiers ==>
        r.mStyles[name] == ResolveEntry(Theme(colors, sizes), dial, modifiers[name])
    {
      Variants.CreateVariants(Theme(colors, sizes), dial, variants, modifiers)
    }
  }

  /** The theme's tables come back unchanged beside the factories. */
  function CreateTheme(colors: Colors, sizes: Sizes): (api: ThemeApi)
    ensures api.colors == colors && api.sizes == sizes
  {
    ThemeApi(colors, sizes)
  }
}
