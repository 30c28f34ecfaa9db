/**
 * `createTheme` of theme.tsx: the theme.ts API plus `createBox`, whose
 * component splits its props exactly as `createCreateBox` of box.tsx does,
 * so it is bound to the same factory over the theme's sizes.
 */
module ThemeTsx {

  import opened Values
  import opened Styles
  import Variants
  import Box

  /** The record `createTheme({ colors, sizes })` returns. */
  datatype ThemeApi = ThemeApi(colors: Colors, sizes: Sizes) {

    /** This copy of `createStyles` resolves every entry with this theme's tables. */
    function CreateStyles(dial: DialStyle, styles: Sheet): (r: ResolvedSheet)
      ensures r.Keys == styles.Keys
      ensures forall name :: name in styles ==> r[name] == ResolveEntry(Theme(colors, sizes), dial, styles[name])
    {
      Styles.CreateStyles(Theme(colors, sizes), dial, styles)
    }

    /** This copy of `createVariants` resolves both sheets with this theme's tables. */
    function CreateVariants(dial: DialStyle, variants: Sheet, modifiers: Sheet): (r: Variants.Selector)
      ensures r.vStyles.Keys == variants.Keys && r.mStyles.Keys == modifiers.Keys
      ensures forall name :: name in variants ==>
        r.vStyles[name] == ResolveEntry(Theme(colors, sizes), dial, variants[name])
      ensures forall name :: name in modifiers ==>
        r.mStyles[name] == ResolveEntry(Theme(colors, sizes), dial, modifiers[name])
    {
      Variants.CreateVariants(Theme(colors, sizes), dial, variants, modifiers)
    }

    /** `createBox(BaseComponent)`: a box over this theme's sizes. */
    function CreateBox(): (factory: Box.BoxFactory)
      ensures factory.sizes == sizes
    {
      Box.CreateCreateBox(sizes)
    }
  }

  /** The theme's tables come back unchanged beside the factories. */
  function CreateTheme(colors: Colors, sizes: Sizes): (api: ThemeApi)
    ensures api.colors == colors && api.sizes == sizes
  {
    ThemeApi(colors, sizes)
  }
}
