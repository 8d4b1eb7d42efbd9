/**
  The facet part of `format_resource`. For each field named in
  `resources_facets`, Solr returns a flat list alternating a value and its
  count; the aggregator pairs even and odd positions, keeps the pairs with a
  positive count and files them under the field's name without "facet_".
 */
module Facets {
  import opened Text

  /** The facet fields requested and reported, in order. */
  const ResourcesFacets: seq<string> :=
    ["facet_author_org", "facet_subject", "facet_keywords", "facet_license",
     "facet_usage_rights", "facet_publisher", "facet_access_features",
     "facet_language_primary", "facet_languages_secondary", "facet_ed_framework",
     "facet_target_audience", "facet_type", "facet_purpose", "facet_media_type"]

  /** One element of Solr's flat facet list: a facet value or a count. */
  datatype Atom = Label(text: string) | Tally(count: int)

  /** The facet lists of a response, by field name. */
  type FacetFields = map<string, seq<Atom>>

  /** The values and counts of each field, facet name to (value to count). */
  type FacetTable = map<string, map<string, int>>

  /** `xs[0::2]`. */
  function Evens(xs: seq<Atom>): (r: seq<Atom>)
    ensures |r| == (|xs| + 1) / 2
    ensures forall i :: 0 <= i < |r| ==> r[i] == xs[2 * i]
  {
    seq((|xs| + 1) / 2, i requires 0 <= i < (|xs| + 1) / 2 => xs[2 * i])
  }

  /** `xs[1::2]`. */
  function Odds(xs: seq<Atom>): (r: seq<Atom>)
    ensures |r| == |xs| / 2
    ensures forall i :: 0 <= i < |r| ==> r[i] == xs[2 * i + 1]
  {
    seq(|xs| / 2, i requires 0 <= i < |xs| / 2 => xs[2 * i + 1])
  }

  /** `xs[0::2]` and `xs[1::2]` split the list between them: interleaving
      them gives it back. */
  lemma {:induction false} EvensOddsInterleave(xs: seq<Atom>)
    ensures |Evens(xs)| + |Odds(xs)| == |xs|
    ensures forall k :: 0 <= k < |xs| ==>
              xs[k] == if k % 2 == 0 then Evens(xs)[k / 2] else Odds(xs)[k / 2]
  {
    forall k | 0 <= k < |xs|
      ensures xs[k] == if k % 2 == 0 then Evens(xs)[k / 2] else Odds(xs)[k / 2]
    {
      if k % 2 == 0 {
        assert 2 * (k / 2) == k;
      } else {
        assert 2 * (k / 2) + 1 == k;
      }
    }
  }

  /** `zip(a, b)`: stops at the shorter list. */
  function Zip(a: seq<Atom>, b: seq<Atom>): seq<(Atom, Atom)>
  {
    var n := if |a| < |b| then |a| else |b|;
    seq(n, i requires 0 <= i < n => (a[i], b[i]))
  }

  /** The pairs the aggregator walks: value 2i with count 2i+1; an odd
      element left at the end is dropped. */
  function Pairs(xs: seq<Atom>): (ps: seq<(Atom, Atom)>)
    ensures |ps| == |xs| / 2
    ensures forall i :: 0 <= i < |ps| ==> ps[i] == (xs[2 * i], xs[2 * i + 1])
  {
    Zip(Evens(xs), Odds(xs))
  }

  /** A facet list as Solr returns it: each value is a string and each count
      an integer, over the paired part of the list. */
  predicate WellFormed(xs: seq<Atom>)
  {
    forall i :: 0 <= i < |xs| / 2 ==> xs[2 * i].Label? && xs[2 * i + 1].Tally?
  }

  /** The value-to-count object built from a list of pairs: each pair with a
      positive count is stored, a later pair overwriting an earlier one with
      the same value. */
  function Tallies(ps: seq<(Atom, Atom)>): map<string, int>
    requires forall i :: 0 <= i < |ps| ==> ps[i].0.Label? && ps[i].1.Tally?
    decreases |ps|
  {
    if ps == [] then map[]
    else
      var m := Tallies(ps[..|ps| - 1]);
      var p := ps[|ps| - 1];
      if p.1.count > 0 then m[p.0.text := p.1.count] else m
  }

  /** Only positive counts are stored, and a value is stored exactly when
      some pair with a positive count carries it. */
  lemma {:induction false} TalliesContents(ps: seq<(Atom, Atom)>)
    requires forall i :: 0 <= i < |ps| ==> ps[i].0.Label? && ps[i].1.Tally?
    ensures forall v :: v in Tallies(ps) ==> Tallies(ps)[v] > 0
    ensures forall v :: v in Tallies(ps) <==> exists i :: 0 <= i < |ps| && ps[i].0.text == v && ps[i].1.count > 0
    decreases |ps|
  {
    if ps != [] {
      var init, p := ps[..|ps| - 1], ps[|ps| - 1];
      TalliesContents(init);
      forall v | v in Tallies(ps)
        ensures exists i :: 0 <= i < |ps| && ps[i].0.text == v && ps[i].1.count > 0
      {
        if p.1.count > 0 && v == p.0.text {
          assert ps[|ps| - 1].0.text == v;
        } else {
          assert v in Tallies(init);
          var i :| 0 <= i < |init| && init[i].0.text == v && init[i].1.count > 0;
          assert ps[i] == init[i];
        }
      }
      forall v | exists i :: 0 <= i < |ps| && ps[i].0.text == v && ps[i].1.count > 0
        ensures v in Tallies(ps)
      {
        var i :| 0 <= i < |ps| && ps[i].0.text == v && ps[i].1.count > 0;
        if i < |init| {
          assert init[i] == ps[i];
        }
      }
    }
  }

  /** The object of one facet field: its positive counts, or nothing when the
      response does not report the field. */
  function FieldTally(ff: FacetFields, rf: string): map<string, int>
    requires rf in ff ==> WellFormed(ff[rf])
  {
    if rf in ff then Tallies(Pairs(ff[rf])) else map[]
  }

  predicate AllWellFormed(ff: FacetFields)
  {
    forall rf :: rf in ff ==> WellFormed(ff[rf])
  }

  /** The facet table over a list of field names: each name, with "facet_"
      removed, maps to its field's object; a later name overwrites an earlier
      one that strips to the same key. */
  function Table(ff: FacetFields, names: seq<string>): FacetTable
    requires AllWellFormed(ff)
    decreases |names|
  {
    if names == [] then map[]
    else
      var rf := names[|names| - 1];
      Table(ff, names[..|names| - 1])[Key(rf) := FieldTally(ff, rf)]
  }

  /** The facets object of `format_resource`: the table over
      `resources_facets`. */
  function ResourceTable(ff: FacetFields): FacetTable
    requires AllWellFormed(ff)
  {
    Table(ff, ResourcesFacets)
  }

  /** The aggregation loop of `format_resource`, run when the response has
      facet fields. */
  method AggregateFacets(ff: FacetFields) returns (facets: FacetTable)
    requires AllWellFormed(ff)
    ensures facets == ResourceTable(ff)
  {
    facets := map[];
    for j := 0 to |ResourcesFacets|
      invariant facets == Table(ff, ResourcesFacets[..j])
    {
      var rf := ResourcesFacets[j];
      var rfobject: map<string, int> := map[];
      if rf in ff {
        rfobject := TallyPairs(Pairs(ff[rf]));
      }
      assert ResourcesFacets[..j + 1][..j] == ResourcesFacets[..j];
      facets := facets[RemoveAll(rf, "facet_") := rfobject];
    }
    assert ResourcesFacets[..|ResourcesFacets|] == ResourcesFacets;
  }

  /** The inner loop: one pass over the pairs of a field. */
  method TallyPairs(ps: seq<(Atom, Atom)>) returns (rfobject: map<string, int>)
    requires forall i :: 0 <= i < |ps| ==> ps[i].0.Label? && ps[i].1.Tally?
    ensures rfobject == Tallies(ps)
  {
    rfobject := map[];
    for i := 0 to |ps|
      invariant rfobject == Tallies(ps[..i])
    {
      var (value, number) := ps[i];
      assert ps[..i + 1][..i] == ps[..i];
      if number.count > 0 {
        rfobject := rfobject[value.text := number.count];
      }
    }
    assert ps[..|ps|] == ps;
  }

  /** The key a facet field is reported under: `rf.replace("facet_", "")`. */
  function Key(rf: string): string
  {
    RemoveAll(rf, "facet_")
  }

  /** A value's count is the one of the last pair that stores it. */
  lemma {:induction false} LastPairWins(ps: seq<(Atom, Atom)>, j: nat)
    requires forall i :: 0 <= i < |ps| ==> ps[i].0.Label? && ps[i].1.Tally?
    requires j < |ps| && ps[j].1.count > 0
    requires forall i :: j < i < |ps| && ps[i].0.text == ps[j].0.text ==> ps[i].1.count <= 0
    ensures ps[j].0.text in Tallies(ps) && Tallies(ps)[ps[j].0.text] == ps[j].1.count
    decreases |ps|
  {
    if j < |ps| - 1 {
      LastPairWins(ps[..|ps| - 1], j);
    }
  }

  /** The table has a key for a name exactly when some name strips to it. */
  lemma {:induction false} TableKeys(ff: FacetFields, names: seq<string>)
    requires AllWellFormed(ff)
    ensures forall k :: k in Table(ff, names) <==> exists j :: 0 <= j < |names| && Key(names[j]) == k
    decreases |names|
  {
    if names != [] {
      var init := names[..|names| - 1];
      TableKeys(ff, init);
      forall k | k in Table(ff, names)
        ensures exists j :: 0 <= j < |names| && Key(names[j]) == k
      {
        if k != Key(names[|names| - 1]) {
          assert Table(ff, names) == Table(ff, init)[Key(names[|names| - 1]) := FieldTally(ff, names[|names| - 1])];
          assert k in Table(ff, init);
          var j :| 0 <= j < |init| && Key(init[j]) == k;
          assert names[j] == init[j];
        }
      }
      forall k | exists j :: 0 <= j < |names| && Key(names[j]) == k
        ensures k in Table(ff, names)
      {
        var j :| 0 <= j < |names| && Key(names[j]) == k;
        if j < |init| {
          assert init[j] == names[j];
        }
      }
    }
  }

  /** When no two names strip to the same key, the key of name j holds the
      object of field j. */
  lemma {:induction false} TableLookup(ff: FacetFields, names: seq<string>, j: nat)
    requires AllWellFormed(ff)
    requires forall a, b :: 0 <= a < b < |names| ==> Key(names[a]) != Key(names[b])
    requires j < |names|
    ensures Key(names[j]) in Table(ff, names)
    ensures Table(ff, names)[Key(names[j])] == FieldTally(ff, names[j])
    decreases |names|
  {
    if j < |names| - 1 {
      var init := names[..|names| - 1];
      assert init[j] == names[j];
      TableLookup(ff, init, j);
    }
  }

  /** No count in the table is zero or negative. */
  lemma {:induction false} TableCountsPositive(ff: FacetFields, names: seq<string>)
    requires AllWellFormed(ff)
    ensures forall k, v :: k in Table(ff, names) && v in Table(ff, names)[k] ==> Table(ff, names)[k][v] > 0
    decreases |names|
  {
    if names != [] {
      var rf := names[|names| - 1];
      TableCountsPositive(ff, names[..|names| - 1]);
      if rf in ff {
        TalliesContents(Pairs(ff[rf]));
      }
    }
  }

  /** The facet names checked a few at a time, as literals: small facts
      kept apart so that each is evaluated quickly. */
  lemma {:induction false} NamesOneToFourHaveNoFa()
    ensures NoFaFrom("facet_author_org", 6) && NoFaFrom("facet_subject", 6)
    ensures NoFaFrom("facet_keywords", 6) && NoFaFrom("facet_license", 6)
  {
  }

  lemma {:induction false} NamesFiveToSevenHaveNoFa()
    ensures NoFaFrom("facet_usage_rights", 6) && NoFaFrom("facet_publisher", 6)
    ensures NoFaFrom("facet_access_features", 6)
  {
  }

  lemma {:induction false} NamesEightAndTenHaveNoFa()
    ensures NoFaFrom("facet_language_primary", 6) && NoFaFrom("facet_ed_framework", 6)
  {
  }

  /** Name nine is proved on its own: the solver needs the intermediate
      fact at position 15 to evaluate it, and the other names do not. */
  lemma {:induction false} NameNineHasNoFa()
    ensures NoFaFrom("facet_languages_secondary", 6)
  {
    assert NoFaFrom("facet_languages_secondary", 15);
  }

  lemma {:induction false} NamesElevenToFourteenHaveNoFa()
    ensures NoFaFrom("facet_target_audience", 6) && NoFaFrom("facet_type", 6)
    ensures NoFaFrom("facet_purpose", 6) && NoFaFrom("facet_media_type", 6)
  {
  }

  /** Every name starts with "facet_". */
  lemma {:induction false} FacetNamesPrefixed()
    ensures forall j :: 0 <= j < |ResourcesFacets| ==>
              |ResourcesFacets[j]| >= 6 && ResourcesFacets[j][..6] == "facet_"
  {
  }

  /** No name has "fa" after its prefix. */
  lemma {:induction false} FacetTailsHaveNoFa()
    ensures forall j :: 0 <= j < |ResourcesFacets| ==> NoFaFrom(ResourcesFacets[j], 6)
  {
    forall j | 0 <= j < |ResourcesFacets|
      ensures NoFaFrom(ResourcesFacets[j], 6)
    {
      if j < 4 {
        NamesOneToFourHaveNoFa();
      } else if j < 7 {
        NamesFiveToSevenHaveNoFa();
      } else if j < 10 {
        NamesEightAndTenHaveNoFa();
        NameNineHasNoFa();
      } else {
        NamesElevenToFourteenHaveNoFa();
      }
    }
  }

  lemma {:induction false} FacetNamesDistinct()
    ensures forall a, b :: 0 <= a < b < |ResourcesFacets| ==> ResourcesFacets[a] != ResourcesFacets[b]
  {
  }

  /** The table over names that all start with "facet_", have no "fa" after
      it and are distinct: one key per name, the name without the prefix,
      holding that field's object. */
  lemma {:induction false} PrefixedTable(ff: FacetFields, names: seq<string>)
    requires AllWellFormed(ff)
    requires forall j :: 0 <= j < |names| ==> |names[j]| >= 6 && names[j][..6] == "facet_" && NoFaFrom(names[j], 6)
    requires forall a, b :: 0 <= a < b < |names| ==> names[a] != names[b]
    ensures forall k :: k in Table(ff, names) <==> exists j :: 0 <= j < |names| && k == names[j][6..]
    ensures forall j :: 0 <= j < |names| ==>
              names[j][6..] in Table(ff, names) && Table(ff, names)[names[j][6..]] == FieldTally(ff, names[j])
  {
    forall j | 0 <= j < |names|
      ensures Key(names[j]) == names[j][6..]
    {
      StripFacetName(names[j]);
    }
    forall a, b | 0 <= a < b < |names|
      ensures Key(names[a]) != Key(names[b])
    {
      var x, y := names[a], names[b];
      assert x == x[..6] + x[6..] && y == y[..6] + y[6..];
    }
    TableKeys(ff, names);
    forall j | 0 <= j < |names|
      ensures names[j][6..] in Table(ff, names) && Table(ff, names)[names[j][6..]] == FieldTally(ff, names[j])
    {
      TableLookup(ff, names, j);
    }
  }

  /** With facet fields present, the table has exactly one key per field of
      `resources_facets`, the name without "facet_"; that key holds the
      field's positive counts, and nothing when the response does not report
      the field. */
  lemma {:induction false} FacetTableShape(ff: FacetFields)
    requires AllWellFormed(ff)
    ensures forall k :: k in ResourceTable(ff) <==>
              exists j :: 0 <= j < |ResourcesFacets| && |ResourcesFacets[j]| >= 6 && k == ResourcesFacets[j][6..]
    ensures forall j :: 0 <= j < |ResourcesFacets| ==>
              && |ResourcesFacets[j]| >= 6
              && ResourcesFacets[j][6..] in ResourceTable(ff)
              && ResourceTable(ff)[ResourcesFacets[j][6..]] == FieldTally(ff, ResourcesFacets[j])
              && (ResourcesFacets[j] !in ff ==> ResourceTable(ff)[ResourcesFacets[j][6..]] == map[])
    ensures forall k, v :: k in ResourceTable(ff) && v in ResourceTable(ff)[k] ==> ResourceTable(ff)[k][v] > 0
  {
    FacetNamesPrefixed();
    FacetTailsHaveNoFa();
    FacetNamesDistinct();
    PrefixedTable(ff, ResourcesFacets);
    TableCountsPositive(ff, ResourcesFacets);
  }
}
