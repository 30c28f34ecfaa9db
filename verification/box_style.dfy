/**
 * `getBoxStyle` of utils.ts: turns spacing props (alias to size name) into a
 * style, and memoizes the result in a cache keyed by the serialized props,
 * which only ever grows.
 */
module BoxStyle {

  import opened Values
  import opened Aliases

  /** Spacing props as `getBoxStyle` receives them: an object from aliases to values. */
  type SpacingProps = s: seq<(SpacingAlias, Value)> | DistinctKeys(s) witness []

  /** The style computed from spacing props: in key order, every alias with a truthy value
      writes `sizes[value]` under its long property. There is no literal fallback. */
  function SpacingStyle(props: seq<(SpacingAlias, Value)>, sizes: Sizes): Style
    decreases |props|
  {
    if props == [] then map[]
    else
      var (alias, sizeName) := props[|props| - 1];
      var style := SpacingStyle(props[..|props| - 1], sizes);
      if Truthy(sizeName) then style[PropOf(alias) := SizeOf(sizes, sizeName)] else style
  }

  /** The serialization `JSON.stringify(props)`, abstracted: the entries in key order,
      leaving out those whose value is `undefined` (which the serializer omits). */
  function CacheKey(props: seq<(SpacingAlias, Value)>): (key: seq<(SpacingAlias, Value)>)
    ensures forall e :: e in key ==> e in props && e.1 != Undefined
    ensures |key| <= |props|
    decreases |props|
  {
    if props == [] then []
    else
      var key := CacheKey(props[..|props| - 1]);
      if props[|props| - 1].1 == Undefined then key else key + [props[|props| - 1]]
  }

  /** The forEach loop of `getBoxStyle`: build the style alias by alias. */
  method ComputeSpacingStyle(props: SpacingProps, sizes: Sizes) returns (style: Style)
    ensures style == SpacingStyle(props, sizes)
  {
    style := map[];
    var aliasNames := Keys(props);
    var i := 0;
    while i < |aliasNames|
      invariant 0 <= i <= |aliasNames|
      invariant style == SpacingStyle(props[..i], sizes)
    {
      var alias := aliasNames[i];
      FindAt(props, i);
      var sizeName := Find(props, alias).value;
      if Truthy(sizeName) {
        style := style[PropOf(alias) := SizeOf(sizes, sizeName)];
      }
      assert props[..i + 1][..i] == props[..i];
      i := i + 1;
    }
    assert props[..i] == props;
  }

  /** The style has a property exactly for the aliases whose value is truthy, and it is
      the long property of such an alias. */
  lemma {:induction false} SpacingStyleKeys(props: seq<(SpacingAlias, Value)>, sizes: Sizes, prop: string)
    ensures prop in SpacingStyle(props, sizes) <==>
      exists i :: 0 <= i < |props| && Truthy(props[i].1) && PropOf(props[i].0) == prop
  {
    if props != [] {
      var init := props[..|props| - 1];
      SpacingStyleKeys(init, sizes, prop);
      if prop in SpacingStyle(init, sizes) {
        var i :| 0 <= i < |init| && Truthy(init[i].1) && PropOf(init[i].0) == prop;
        assert props[i] == init[i];
      }
      if exists i :: 0 <= i < |props| && Truthy(props[i].1) && PropOf(props[i].0) == prop {
        var i :| 0 <= i < |props| && Truthy(props[i].1) && PropOf(props[i].0) == prop;
        if i < |init| {
          assert init[i] == props[i];
        }
      }
    }
  }

  /** Each truthy alias sets its long property to the raw size lookup `sizes[value]`:
      an unknown size name gives `undefined`, never the literal. */
  lemma {:induction false} SpacingStyleValue(props: SpacingProps, sizes: Sizes, i: nat)
    requires i < |props| && Truthy(props[i].1)
    ensures PropOf(props[i].0) in SpacingStyle(props, sizes)
    ensures SpacingStyle(props, sizes)[PropOf(props[i].0)] == SizeOf(sizes, props[i].1)
    ensures SizeOf(sizes, props[i].1) == Undefined <==>
      !(props[i].1.Str? && props[i].1.s in sizes)
  {
    var init := props[..|props| - 1];
    var last := props[|props| - 1];
    assert DistinctKeys(init) by {
      forall a, b | 0 <= a < b < |init| ensures init[a].0 != init[b].0 {
        assert init[a] == props[a] && init[b] == props[b];
      }
    }
    if i == |props| - 1 {
    } else {
      assert init[i] == props[i];
      SpacingStyleValue(init, sizes, i);
      PropOfInjective(last.0, props[i].0);
    }
  }

  /** Falsy or absent spacing values contribute nothing: dropping them changes no style. */
  lemma {:induction false} FalsyContributesNothing(
    props: seq<(SpacingAlias, Value)>, sizes: Sizes, alias: SpacingAlias, value: Value)
    requires !Truthy(value)
    ensures SpacingStyle(props + [(alias, value)], sizes) == SpacingStyle(props, sizes)
  {
    assert (props + [(alias, value)])[..|props|] == props;
  }

  /** The style depends only on the cache key: props that serialize alike compute alike. */
  lemma {:induction false} SpacingStyleOfKey(props: seq<(SpacingAlias, Value)>, sizes: Sizes)
    ensures SpacingStyle(CacheKey(props), sizes) == SpacingStyle(props, sizes)
  {
    if props != [] {
      var init := props[..|props| - 1];
      var last := props[|props| - 1];
      SpacingStyleOfKey(init, sizes);
      if last.1 != Undefined {
        assert (CacheKey(init) + [last])[..|CacheKey(init)|] == CacheKey(init);
      }
    }
  }

  /** A normalized key is its own key: serializing it again drops nothing. */
  lemma {:induction false} CacheKeyIdempotent(props: seq<(SpacingAlias, Value)>)
    ensures CacheKey(CacheKey(props)) == CacheKey(props)
  {
    if props != [] {
      var init := props[..|props| - 1];
      var last := props[|props| - 1];
      CacheKeyIdempotent(init);
      if last.1 != Undefined {
        var k := CacheKey(init) + [last];
        assert k[..|k| - 1] == CacheKey(init);
      }
    }
  }

  /** The object `StyleSheet.create` hands back for a computed style; the cache stores
      and returns it by reference. */
  class StyleObject {
    const style: Style

    constructor (style: Style)
      ensures this.style == style
    {
      this.style := style;
    }
  }

  /** The module-level `sheets` map: serialized spacing props to the stored style object. */
  class StyleCache {
    var sheets: map<seq<(SpacingAlias, Value)>, StyleObject>
    /** The sizes each stored entry was computed with. */
    ghost var origin: map<seq<(SpacingAlias, Value)>, Sizes>

    /** Every stored object holds the style of its key, computed with the sizes of its call. */
    ghost predicate Valid()
      reads this
    {
      && sheets.Keys == origin.Keys
      && forall key :: key in sheets ==>
           CacheKey(key) == key && sheets[key].style == SpacingStyle(key, origin[key])
    }

    /** All entries were computed with `sizes`. */
    ghost predicate BuiltWith(sizes: Sizes)
      reads this
    {
      forall key :: key in origin ==> origin[key] == sizes
    }

    constructor ()
      ensures Valid() && sheets == map[] && origin == map[]
    {
      sheets := map[];
      origin := map[];
    }

    /** `getBoxStyle(props, sizes)`: the stored object for the props' key, computed and
        stored first when the key is new. */
    method GetBoxStyle(props: SpacingProps, sizes: Sizes) returns (sheet: StyleObject)
      requires Valid()
      modifies this
      ensures Valid()
      ensures CacheKey(props) in sheets && sheet == sheets[CacheKey(props)]
      ensures sheet.style == SpacingStyle(props, origin[CacheKey(props)])
      ensures CacheKey(props) in old(sheets) ==>
        sheets == old(sheets) && origin == old(origin) && sheet == old(sheets)[CacheKey(props)]
      ensures CacheKey(props) !in old(sheets) ==>
        && fresh(sheet) && sheet.style == SpacingStyle(props, sizes)
        && sheets == old(sheets)[CacheKey(props) := sheet]
        && origin == old(origin)[CacheKey(props) := sizes]
      ensures forall key :: key in old(sheets) ==> key in sheets && sheets[key] == old(sheets)[key]
      ensures old(BuiltWith(sizes)) ==> BuiltWith(sizes) && sheet.style == SpacingStyle(props, sizes)
    {
      var cacheKey := CacheKey(props);
      if cacheKey !in sheets {
        var style := ComputeSpacingStyle(props, sizes);
        var created := new StyleObject(style);
        SpacingStyleOfKey(props, sizes);
        CacheKeyIdempotent(props);
        sheets := sheets[cacheKey := created];
        origin := origin[cacheKey := sizes];
      }
      SpacingStyleOfKey(props, origin[cacheKey]);
      sheet := sheets[cacheKey];
    }
  }

  /** Two calls with equally serializing props: the second computes nothing, stores
      nothing and returns the very object the first one returned, whatever sizes it is
      given. Its style is the one computed with the sizes of the call that stored the key,
      so a second theme gets the first theme's spacing. */
  method SecondCallHitsCache(cache: StyleCache, a: SpacingProps, b: SpacingProps, sizesA: Sizes, sizesB: Sizes)
    returns (first: StyleObject, second: StyleObject)
    requires cache.Valid()
    requires CacheKey(a) == CacheKey(b)
    modifies cache
    ensures first == second
    ensures cache.Valid() && cache.sheets == old(cache.sheets)[CacheKey(a) := first]
    ensures CacheKey(a) !in old(cache.sheets) ==> second.style == SpacingStyle(b, sizesA)
    ensures old(cache.BuiltWith(sizesA)) ==> second.style == SpacingStyle(b, sizesA)
  {
    ghost var before := cache.sheets;
    first := cache.GetBoxStyle(a, sizesA);
    if CacheKey(a) in before {
      assert before[CacheKey(a) := first] == before;
    }
    ghost var afterFirst := cache.sheets;
    ghost var originAfterFirst := cache.origin;
    second := cache.GetBoxStyle(b, sizesB);
    assert cache.sheets == afterFirst && cache.origin == originAfterFirst;
    SpacingStyleOfKey(a, cache.origin[CacheKey(a)]);
    SpacingStyleOfKey(b, cache.origin[CacheKey(a)]);
  }
}
