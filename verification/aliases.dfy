/**
 * The spacing alias table of utils.ts: eighteen short margin and padding
 * aliases and the style property each one expands to.
 */
module Aliases {

  import opened Values

  /** The eighteen spacing aliases (`SpacingProp` of types.ts). */
  datatype SpacingAlias =
    | M | Mt | Mr | Mb | Ml | Mx | My | Ms | Me
    | P | Pt | Pr | Pb | Pl | Px | Py | Ps | Pe
  {
    predicate IsMargin() {
      this in {M, Mt, Mr, Mb, Ml, Mx, My, Ms, Me}
    }
  }

  /** The aliases in the order the table and the box destructuring list them. */
  const AllAliases: seq<SpacingAlias> :=
    [M, Mt, Mr, Mb, Ml, Mx, My, Ms, Me, P, Pt, Pr, Pb, Pl, Px, Py, Ps, Pe]

  /** The key under which an alias is written in a style or in props. */
  function NameOf(a: SpacingAlias): string {
    match a
    case M => "m"   case Mt => "mt" case Mr => "mr" case Mb => "mb" case Ml => "ml"
    case Mx => "mx" case My => "my" case Ms => "ms" case Me => "me"
    case P => "p"   case Pt => "pt" case Pr => "pr" case Pb => "pb" case Pl => "pl"
    case Px => "px" case Py => "py" case Ps => "ps" case Pe => "pe"
  }

  /** `aliasToProp`: short alias to long style property. */
  const AliasToProp: map<string, string> := map[
    "m" := "margin",
    "mt" := "marginTop",
    "mr" := "marginRight",
    "mb" := "marginBottom",
    "ml" := "marginLeft",
    "mx" := "marginHorizontal",
    "my" := "marginVertical",
    "ms" := "marginStart",
    "me" := "marginEnd",
    "p" := "padding",
    "pt" := "paddingTop",
    "pr" := "paddingRight",
    "pb" := "paddingBottom",
    "pl" := "paddingLeft",
    "px" := "paddingHorizontal",
    "py" := "paddingVertical",
    "ps" := "paddingStart",
    "pe" := "paddingEnd"
  ]

  /** The long property of an alias, read from the table. */
  function PropOf(a: SpacingAlias): (r: string)
    ensures NameOf(a) in AliasToProp && r == AliasToProp[NameOf(a)]
  {
    match a
    case M => "margin"   case Mt => "marginTop"  case Mr => "marginRight"
    case Mb => "marginBottom" case Ml => "marginLeft" case Mx => "marginHorizontal"
    case My => "marginVertical" case Ms => "marginStart" case Me => "marginEnd"
    case P => "padding"  case Pt => "paddingTop" case Pr => "paddingRight"
    case Pb => "paddingBottom" case Pl => "paddingLeft" case Px => "paddingHorizontal"
    case Py => "paddingVertical" case Ps => "paddingStart" case Pe => "paddingEnd"
  }

  /** Which alias, if any, a key spells. */
  function ParseAlias(key: string): (r: Option<SpacingAlias>)
    ensures r.Some? ==> NameOf(r.value) == key
  {
    if key == "m" then Some(M) else if key == "mt" then Some(Mt)
    else if key == "mr" then Some(Mr) else if key == "mb" then Some(Mb)
    else if key == "ml" then Some(Ml) else if key == "mx" then Some(Mx)
    else if key == "my" then Some(My) else if key == "ms" then Some(Ms)
    else if key == "me" then Some(Me) else if key == "p" then Some(P)
    else if key == "pt" then Some(Pt) else if key == "pr" then Some(Pr)
    else if key == "pb" then Some(Pb) else if key == "pl" then Some(Pl)
    else if key == "px" then Some(Px) else if key == "py" then Some(Py)
    else if key == "ps" then Some(Ps) else if key == "pe" then Some(Pe)
    else None
  }

  /** Every alias is listed, once. */
  lemma AllAliasesListsEach(a: SpacingAlias)
    ensures |AllAliases| == 18
    ensures a in AllAliases
    ensures forall i, j :: 0 <= i < j < |AllAliases| ==> AllAliases[i] != AllAliases[j]
  {
    match a
    case M => assert AllAliases[0] == a;   case Mt => assert AllAliases[1] == a;
    case Mr => assert AllAliases[2] == a;  case Mb => assert AllAliases[3] == a;
    case Ml => assert AllAliases[4] == a;  case Mx => assert AllAliases[5] == a;
    case My => assert AllAliases[6] == a;  case Ms => assert AllAliases[7] == a;
    case Me => assert AllAliases[8] == a;  case P => assert AllAliases[9] == a;
    case Pt => assert AllAliases[10] == a; case Pr => assert AllAliases[11] == a;
    case Pb => assert AllAliases[12] == a; case Pl => assert AllAliases[13] == a;
    case Px => assert AllAliases[14] == a; case Py => assert AllAliases[15] == a;
    case Ps => assert AllAliases[16] == a; case Pe => assert AllAliases[17] == a;
  }

  /** The table's keys are exactly the names of the eighteen aliases. */
  lemma TableKeys()
    ensures AliasToProp.Keys == set a: SpacingAlias :: NameOf(a)
  {
    var names := set a: SpacingAlias :: NameOf(a);
    forall key | key in AliasToProp ensures key in names {
      var a := ParseAlias(key).value;
      assert NameOf(a) == key;
    }
  }

  /** A list without repetitions has as many distinct elements as entries. */
  lemma {:induction false} DistinctCount<T>(s: seq<T>)
    requires forall i, j :: 0 <= i < j < |s| ==> s[i] != s[j]
    ensures |set x | x in s| == |s|
  {
    if s != [] {
      var rest := s[1..];
      assert forall i, j :: 0 <= i < j < |rest| ==> rest[i] != rest[j] by {
        forall i, j | 0 <= i < j < |rest| ensures rest[i] != rest[j] {
          assert rest[i] == s[i + 1] && rest[j] == s[j + 1];
        }
      }
      DistinctCount(rest);
      assert (set x | x in s) == {s[0]} + (set x | x in rest);
      assert s[0] !in rest by {
        forall k | 0 <= k < |rest| ensures rest[k] != s[0] {
          assert rest[k] == s[k + 1];
        }
      }
    }
  }

  /** The table has exactly eighteen entries. */
  lemma TableSize()
    ensures |AliasToProp| == 18
  {
    var names := seq(18, i requires 0 <= i < 18 => NameOf(AllAliases[i]));
    AllAliasesListsEach(M);
    forall i, j | 0 <= i < j < 18 ensures names[i] != names[j] {
      ParseName(AllAliases[i]);
      ParseName(AllAliases[j]);
    }
    DistinctCount(names);
    TableKeys();
    forall a: SpacingAlias ensures NameOf(a) in names {
      AllAliasesListsEach(a);
      var k :| 0 <= k < 18 && AllAliases[k] == a;
      assert names[k] == NameOf(a);
    }
    assert AliasToProp.Keys == set x | x in names;
  }

  /** A name parses back to its alias. */
  lemma ParseName(a: SpacingAlias)
    ensures ParseAlias(NameOf(a)) == Some(a)
  {
    match a
    case M => case Mt => case Mr => case Mb => case Ml => case Mx => case My => case Ms => case Me =>
    case P => case Pt => case Pr => case Pb => case Pl => case Px => case Py => case Ps => case Pe =>
  }

  /** A key is in the table exactly when it spells an alias, and names spell their alias back. */
  lemma ParseNameRoundTrip(a: SpacingAlias, key: string)
    ensures ParseAlias(NameOf(a)) == Some(a)
    ensures key in AliasToProp <==> ParseAlias(key).Some?
  {
    ParseName(a);
    TableKeys();
    if key in AliasToProp {
      var b :| NameOf(b) == key;
      ParseName(b);
    }
    if ParseAlias(key).Some? {
      assert PropOf(ParseAlias(key).value) == AliasToProp[key];
    }
  }

  /** The table is injective: distinct aliases expand to distinct properties. Margin aliases
      expand to margin properties and padding aliases to padding properties. */
  lemma PropOfInjective(a: SpacingAlias, b: SpacingAlias)
    ensures PropOf(a) == PropOf(b) ==> a == b
    ensures a.IsMargin() ==> PropOf(a)[..6] == "margin"
    ensures !a.IsMargin() ==> PropOf(a)[..7] == "padding"
  {
  }

  /** Short names are at most two characters long; long properties are at least six long
      and start with `m` or `p`. */
  lemma NameShapes(a: SpacingAlias)
    ensures |NameOf(a)| <= 2
    ensures |PropOf(a)| >= 6 && (PropOf(a)[0] == 'm' || PropOf(a)[0] == 'p')
  {
    match a
    case M => case Mt => case Mr => case Mb => case Ml => case Mx => case My => case Ms => case Me =>
    case P => case Pt => case Pr => case Pb => case Pl => case Px => case Py => case Ps => case Pe =>
  }

  /** Keys longer than two characters are not in the table. */
  lemma LongKeyNotInTable(key: string)
    requires |key| > 2
    ensures key !in AliasToProp
  {
    TableKeys();
    if key in AliasToProp {
      var b :| NameOf(b) == key;
      NameShapes(b);
    }
  }

  /** Long properties are none of the keys the resolver treats specially. */
  lemma PropIsPlain(a: SpacingAlias)
    ensures PropOf(a) !in AliasToProp
    ensures PropOf(a) != "backgroundColor" && PropOf(a) != "borderColor" && PropOf(a) != "color"
    ensures PropOf(a) != "borderRadius" && PropOf(a) != "col" && PropOf(a) != "row"
  {
    NameShapes(a);
    TableKeys();
    if PropOf(a) in AliasToProp {
      var b :| NameOf(b) == PropOf(a);
      NameShapes(b);
    }
    assert "backgroundColor"[0] == 'b' && "borderColor"[0] == 'b' && "borderRadius"[0] == 'b';
    assert "color"[0] == 'c' && "col"[0] == 'c' && "row"[0] == 'r';
  }

  /** A key of the table is the name of exactly one alias. */
  lemma TableKeyAlias(key: string) returns (a: SpacingAlias)
    requires key in AliasToProp
    ensures NameOf(a) == key && PropOf(a) == AliasToProp[key]
    ensures forall b :: NameOf(b) == key ==> b == a
  {
    ParseNameRoundTrip(M, key);
    a := ParseAlias(key).value;
    forall b | NameOf(b) == key ensures b == a {
      ParseNameRoundTrip(b, key);
    }
  }
}
