/**
 * `createVariants` of variants.ts: a variant sheet and a modifier sheet are
 * resolved once, and the returned selector builds the style list
 * `[variant style] ++ [modifier style for each truthy flag, in key order]`.
 */
module Variants {

  import opened Values
  import opened Styles

  /** What the selector closes over: both sheets, already resolved. */
  datatype Selector = Selector(vStyles: ResolvedSheet, mStyles: ResolvedSheet)

  /** `resolved[key]`: the resolved style of an entry, `None` standing for `undefined`. */
  function Lookup(resolved: ResolvedSheet, key: string): (r: Option<Style>)
    ensures r.Some? <==> key in resolved
    ensures r.Some? ==> r.value == resolved[key]
  {
    if key in resolved then Some(resolved[key]) else None
  }

  /** `createVariants(variants, modifiers)`: resolve both sheets now, once. */
  function CreateVariants(theme: Theme, dial: DialStyle, variants: Sheet, modifiers: Sheet): (r: Selector)
    ensures r.vStyles.Keys == variants.Keys && r.mStyles.Keys == modifiers.Keys
    ensures forall name :: name in variants ==> r.vStyles[name] == ResolveEntry(theme, dial, variants[name])
    ensures forall name :: name in modifiers ==> r.mStyles[name] == ResolveEntry(theme, dial, modifiers[name])
  {
    Selector(CreateStyles(theme, dial, variants), CreateStyles(theme, dial, modifiers))
  }

  /** The modifier styles pushed for the flags, in key order. */
  function Pushed(mStyles: ResolvedSheet, modifier: seq<(string, Value)>): seq<Option<Style>>
    decreases |modifier|
  {
    if modifier == [] then []
    else
      (if Truthy(modifier[0].1) then [Lookup(mStyles, modifier[0].0)] else []) +
      Pushed(mStyles, modifier[1..])
  }

  /** The list the selector returns. */
  function Selected(sel: Selector, variant: string, modifier: seq<(string, Value)>): seq<Option<Style>> {
    [Lookup(sel.vStyles, variant)] + Pushed(sel.mStyles, modifier)
  }

  /** The keys of the flags that are on, in key order. */
  function OnFlags(modifier: seq<(string, Value)>): (r: seq<string>)
    ensures |r| <= |modifier|
    decreases |modifier|
  {
    if modifier == [] then []
    else (if Truthy(modifier[0].1) then [modifier[0].0] else []) + OnFlags(modifier[1..])
  }

  /** Pushing over two runs of flags is pushing over each, one after the other. */
  lemma {:induction false} PushedConcat(mStyles: ResolvedSheet, a: seq<(string, Value)>, b: seq<(string, Value)>)
    ensures Pushed(mStyles, a + b) == Pushed(mStyles, a) + Pushed(mStyles, b)
  {
    if a != [] {
      assert (a + b)[0] == a[0];
      assert (a + b)[1..] == a[1..] + b;
      PushedConcat(mStyles, a[1..], b);
    } else {
      assert a + b == b;
    }
  }

  /** `getVariantStyle(variant, modifier)`: start from the variant's style, then push the
      style of every modifier whose flag is truthy. */
  method GetVariantStyle(sel: Selector, variant: string, modifier: Props) returns (styles: seq<Option<Style>>)
    ensures styles == Selected(sel, variant, modifier)
  {
    styles := [Lookup(sel.vStyles, variant)];
    var i := 0;
    while i < |modifier|
      invariant 0 <= i <= |modifier|
      invariant styles == [Lookup(sel.vStyles, variant)] + Pushed(sel.mStyles, modifier[..i])
    {
      var (mod, flag) := modifier[i];
      if Truthy(flag) {
        styles := styles + [Lookup(sel.mStyles, mod)];
      }
      assert modifier[..i + 1] == modifier[..i] + [modifier[i]];
      PushedConcat(sel.mStyles, modifier[..i], [modifier[i]]);
      i := i + 1;
    }
    assert modifier[..i] == modifier;
  }

  /** After the variant's style come exactly the styles of the flags that are on, in key
      order; an undeclared name gives `undefined` (`None`) rather than being skipped. */
  lemma {:induction false} SelectedShape(sel: Selector, variant: string, modifier: seq<(string, Value)>)
    ensures var r := Selected(sel, variant, modifier);
      && |r| == 1 + |OnFlags(modifier)|
      && r[0] == Lookup(sel.vStyles, variant)
      && forall k :: 0 <= k < |OnFlags(modifier)| ==> r[k + 1] == Lookup(sel.mStyles, OnFlags(modifier)[k])
  {
    PushedIsOnFlags(sel.mStyles, modifier);
  }

  lemma {:induction false} PushedIsOnFlags(mStyles: ResolvedSheet, modifier: seq<(string, Value)>)
    ensures |Pushed(mStyles, modifier)| == |OnFlags(modifier)|
    ensures forall k :: 0 <= k < |OnFlags(modifier)| ==>
      Pushed(mStyles, modifier)[k] == Lookup(mStyles, OnFlags(modifier)[k])
    decreases |modifier|
  {
    if modifier != [] {
      PushedIsOnFlags(mStyles, modifier[1..]);
    }
  }

  /** A flag is listed exactly when some entry of the modifier object has it truthy. */
  lemma {:induction false} OnFlagsMembers(modifier: Props, key: string)
    ensures key in OnFlags(modifier) <==> Truthy(Get(modifier, key))
    decreases |modifier|
  {
    if modifier != [] {
      var rest: Props := modifier[1..];
      OnFlagsMembers(rest, key);
      if modifier[0].0 == key {
        assert forall j :: 0 <= j < |rest| ==> rest[j].0 != key by {
          forall j | 0 <= j < |rest| ensures rest[j].0 != key {
            assert rest[j] == modifier[j + 1];
          }
        }
      }
    }
  }

  /** With no flag on, the list is the variant's style alone. */
  lemma {:induction false} FalsyFlagsAddNothing(sel: Selector, variant: string, modifier: seq<(string, Value)>)
    requires forall i :: 0 <= i < |modifier| ==> !Truthy(modifier[i].1)
    ensures Selected(sel, variant, modifier) == [Lookup(sel.vStyles, variant)]
    decreases |modifier|
  {
    if modifier != [] {
      FalsyFlagsAddNothing(sel, variant, modifier[1..]);
    }
  }

  /** An undeclared variant gives an `undefined` first element, and a truthy flag for an
      undeclared modifier appends an `undefined` element instead of being skipped. */
  lemma UndeclaredGivesUndefined(sel: Selector, variant: string, modifier: Props, key: string)
    ensures variant !in sel.vStyles ==> Selected(sel, variant, modifier)[0] == None
    ensures Truthy(Get(modifier, key)) && key !in sel.mStyles ==> None in Selected(sel, variant, modifier)[1..]
  {
    SelectedShape(sel, variant, modifier);
    if Truthy(Get(modifier, key)) && key !in sel.mStyles {
      OnFlagsMembers(modifier, key);
      var k :| 0 <= k < |OnFlags(modifier)| && OnFlags(modifier)[k] == key;
      assert Selected(sel, variant, modifier)[1..][k] == None;
    }
  }
}
