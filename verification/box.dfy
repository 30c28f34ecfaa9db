/**
 * `createCreateBox` / `createBox` of box.tsx: the wrapped component pulls the
 * eighteen spacing aliases and `style` out of its props, forwards the rest
 * unchanged, and styles the wrapped component with
 * `[getBoxStyle(spacing, sizes), style]`.
 */
module Box {

  import opened Values
  import opened Aliases
  import opened BoxStyle

  /** What `createCreateBox(sizes)` closes over: the sizes, fixed once. */
  datatype BoxFactory = BoxFactory(sizes: Sizes)

  function CreateCreateBox(sizes: Sizes): (factory: BoxFactory)
    ensures factory.sizes == sizes
  {
    BoxFactory(sizes)
  }

  /** The keys the destructuring pulls out: `style` and the eighteen spacing aliases. */
  predicate IsBoxKey(key: string) {
    key == "style" || key in AliasToProp
  }

  /** The object literal passed to `getBoxStyle`: all eighteen aliases, in the fixed order
      of the source, each with the prop's value or `undefined`. */
  function SpacingOf(props: seq<(string, Value)>): (spacing: SpacingProps)
    ensures Keys(spacing) == AllAliases
  {
    AllAliasesListsEach(M);
    seq(|AllAliases|, i requires 0 <= i < |AllAliases| => (AllAliases[i], Get(props, NameOf(AllAliases[i]))))
  }

  /** `...rest`: every prop except the box keys, in their order. */
  function RestOf(props: Props): (rest: Props)
    ensures forall e :: e in rest ==> e in props && !IsBoxKey(e.0)
    ensures forall e :: e in props && !IsBoxKey(e.0) ==> e in rest
    decreases |props|
  {
    if props == [] then []
    else
      var tail: Props := props[1..];
      var restTail := RestOf(tail);
      if IsBoxKey(props[0].0) then restTail
      else
        assert forall e :: e in restTail ==> e.0 != props[0].0 by {
          forall e | e in restTail ensures e.0 != props[0].0 {
            var j :| 0 <= j < |tail| && tail[j] == e;
            assert tail[j] == props[j + 1];
          }
        }
        [props[0]] + restTail
  }

  /** One entry of the style list handed to the wrapped component. */
  datatype StyleEntry = SpacingSheet(sheet: StyleObject) | CallerStyle(value: Value)

  /** What the wrapper renders: the wrapped component with these props and this style list. */
  datatype Element = Element(props: Props, style: seq<StyleEntry>)

  /** The component `createBox(BaseComponent)` returns, called with `props`. */
  method Render(factory: BoxFactory, cache: StyleCache, props: Props) returns (element: Element)
    requires cache.Valid()
    modifies cache
    ensures cache.Valid()
    ensures element.props == RestOf(props)
    ensures |element.style| == 2 && element.style[1] == CallerStyle(Get(props, "style"))
    ensures element.style[0].SpacingSheet?
    ensures CacheKey(SpacingOf(props)) in cache.sheets
    ensures element.style[0].sheet == cache.sheets[CacheKey(SpacingOf(props))]
    ensures old(cache.BuiltWith(factory.sizes)) ==>
      cache.BuiltWith(factory.sizes) && element.style[0].sheet.style == SpacingStyle(SpacingOf(props), factory.sizes)
    ensures forall key :: key in old(cache.sheets) ==> key in cache.sheets && cache.sheets[key] == old(cache.sheets)[key]
    ensures CacheKey(SpacingOf(props)) in old(cache.sheets) ==>
      && cache.sheets == old(cache.sheets) && cache.origin == old(cache.origin)
      && element.style[0].sheet == old(cache.sheets)[CacheKey(SpacingOf(props))]
    ensures CacheKey(SpacingOf(props)) !in old(cache.sheets) ==>
      && fresh(element.style[0].sheet)
      && element.style[0].sheet.style == SpacingStyle(SpacingOf(props), factory.sizes)
      && cache.sheets == old(cache.sheets)[CacheKey(SpacingOf(props)) := element.style[0].sheet]
      && cache.origin == old(cache.origin)[CacheKey(SpacingOf(props)) := factory.sizes]
  {
    var styleProp := Get(props, "style");
    var rest := RestOf(props);
    var style := cache.GetBoxStyle(SpacingOf(props), factory.sizes);
    element := Element(rest, [SpacingSheet(style), CallerStyle(styleProp)]);
  }

  /** The forwarded props never hold a spacing alias or `style`, and hold every other prop
      with its value unchanged. */
  lemma {:induction false} RestForwardsOthers(props: Props, key: string)
    ensures IsBoxKey(key) ==> Get(RestOf(props), key) == Undefined
    ensures !IsBoxKey(key) ==> Get(RestOf(props), key) == Get(props, key)
    decreases |props|
  {
    if props != [] {
      var tail: Props := props[1..];
      RestForwardsOthers(tail, key);
      if props[0].0 == key {
        assert forall j :: 0 <= j < |tail| ==> tail[j].0 != key by {
          forall j | 0 <= j < |tail| ensures tail[j].0 != key {
            assert tail[j] == props[j + 1];
          }
        }
      }
    }
  }

  /** Nothing is lost and nothing is passed twice: `style` goes only into the style list,
      a spacing alias's value only into the spacing object, every other prop only into
      the forwarded props. */
  lemma PartitionLosesNothing(props: Props, key: string)
    ensures key == "style" ==> Get(RestOf(props), key) == Undefined
    ensures key in AliasToProp ==>
      exists i :: 0 <= i < |AllAliases| && SpacingOf(props)[i] == (AllAliases[i], Get(props, key)) && NameOf(AllAliases[i]) == key
    ensures key in AliasToProp ==> Get(RestOf(props), key) == Undefined
    ensures !IsBoxKey(key) ==> Get(RestOf(props), key) == Get(props, key)
  {
    RestForwardsOthers(props, key);
    if key in AliasToProp {
      var a := TableKeyAlias(key);
      AllAliasesListsEach(a);
      var i :| 0 <= i < |AllAliases| && AllAliases[i] == a;
      assert SpacingOf(props)[i] == (AllAliases[i], Get(props, key));
    }
  }

  /** Props whose spacing values agree give the same spacing object, whatever their order
      and their other props, hence the same cache key. */
  lemma SameSpacingSameKey(p1: Props, p2: Props)
    requires forall a: SpacingAlias :: Get(p1, NameOf(a)) == Get(p2, NameOf(a))
    ensures SpacingOf(p1) == SpacingOf(p2)
    ensures CacheKey(SpacingOf(p1)) == CacheKey(SpacingOf(p2))
  {
  }

  /** The spacing style carries only long margin and padding properties: no colour,
      radius or layout handling happens on this path. */
  lemma SpacingStyleOnlySpacing(props: Props, sizes: Sizes, key: string)
    requires key in SpacingStyle(SpacingOf(props), sizes)
    ensures exists a :: PropOf(a) == key && Truthy(Get(props, NameOf(a)))
  {
    var spacing := SpacingOf(props);
    SpacingStyleKeys(spacing, sizes, key);
    var i :| 0 <= i < |spacing| && Truthy(spacing[i].1) && PropOf(spacing[i].0) == key;
  }
}
