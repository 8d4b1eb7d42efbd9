/**
  The flat filter builder: each recognised query-string parameter whose value
  is non-empty and free of ':' adds " AND name:value" to a seed filter. The
  learning-resources route seeds with "status:true" and applies the step to a
  fixed, ordered list of field names; the vocabularies route seeds with "*:*"
  over three names.
 */
module Filters {
  import opened Text

  /** A request's query-string parameters: the first value sent for each name. */
  type Args = map<string, string>

  /** The learning-resources filter seed: only published resources. */
  const ResourceSeed: string := "status:true"

  /** The names the learning-resources GET route applies, in call order;
      "author" is applied twice. */
  const ResourceFields: seq<string> := [
    "title", "url", "access_cost", "submitter_name", "submitter_email",
    "author", "author_org", "contact", "contact_org", "abstract.data",
    "subject", "keywords", "licence", "usage_rights", "citation.data",
    "locator.data", "locator.type", "publisher", "version", "created",
    "published", "access_features", "language_primary", "languages_secondary",
    "ed_framework", "ed_framework_dataone", "ed_framework_fair",
    "target_audience", "purpose", "completion_time", "media_type", "type",
    "author", "id"]

  /** The vocabularies filter seed: everything. */
  const VocabularySeed: string := "*:*"

  const VocabularyFields: seq<string> := ["name", "values", "id"]

  /** The parameter is sent, is non-empty, and carries no ':' (the guard
      against values that already hold query syntax). */
  predicate Admits(args: Args, name: string)
  {
    name in args && args[name] != "" && ':' !in args[name]
  }

  /** The text one admitted parameter adds. */
  function Clause(name: string, value: string): string
  {
    " AND " + name + ":" + value
  }

  /** One step of the filter chain. */
  function AppendSearchString(s: string, args: Args, name: string): (r: string)
    ensures Admits(args, name) ==> r == s + Clause(name, args[name])
    ensures !Admits(args, name) ==> r == s
  {
    if name in args && args[name] != "" then
      if ':' !in args[name] then s + " AND " + name + ":" + args[name]
      else s
    else s
  }

  /** The chain `s := AppendSearchString(s, args, n)` for each `n` of `names` in turn. */
  function Chain(seed: string, args: Args, names: seq<string>): string
    decreases |names|
  {
    if names == [] then seed
    else AppendSearchString(Chain(seed, args, names[..|names| - 1]), args, names[|names| - 1])
  }

  /** The names of `names` that the chain admits, in order. */
  function Accepted(args: Args, names: seq<string>): seq<string>
    decreases |names|
  {
    if names == [] then []
    else
      Accepted(args, names[..|names| - 1])
      + (if Admits(args, names[|names| - 1]) then [names[|names| - 1]] else [])
  }

  /** The accepted names are exactly the admitted names of the list, and no
      more of them than the list holds. */
  lemma {:induction false} AcceptedAreAdmitted(args: Args, names: seq<string>)
    ensures |Accepted(args, names)| <= |names|
    ensures forall i :: 0 <= i < |Accepted(args, names)| ==> Admits(args, Accepted(args, names)[i])
    ensures forall n :: n in Accepted(args, names) <==> n in names && Admits(args, n)
    decreases |names|
  {
    if names != [] {
      var init, last := names[..|names| - 1], names[|names| - 1];
      AcceptedAreAdmitted(args, init);
      assert names == init + [last];
    }
  }

  /** The text the chain adds for `names`: each admitted name's clause, in order. */
  function Pieces(args: Args, names: seq<string>): string
    decreases |names|
  {
    if names == [] then ""
    else
      var n := names[|names| - 1];
      Pieces(args, names[..|names| - 1]) + (if Admits(args, n) then Clause(n, args[n]) else "")
  }

  /** The chain is its seed followed by the admitted clauses in the order the
      names are applied; nothing else is ever added. */
  lemma {:induction false} ChainIsSeedAndPieces(seed: string, args: Args, names: seq<string>)
    ensures Chain(seed, args, names) == seed + Pieces(args, names)
    decreases |names|
  {
    if names != [] {
      ChainIsSeedAndPieces(seed, args, names[..|names| - 1]);
    }
  }

  /** The clauses of a list of sent names, concatenated in order. */
  function Clauses(args: Args, ns: seq<string>): string
    requires forall i :: 0 <= i < |ns| ==> ns[i] in args
    decreases |ns|
  {
    if ns == [] then "" else Clauses(args, ns[..|ns| - 1]) + Clause(ns[|ns| - 1], args[ns[|ns| - 1]])
  }

  /** The text the chain adds is the clauses of the accepted names, in the
      order they are accepted: `Accepted` lists exactly what reaches the
      filter. */
  lemma {:induction false} PiecesAreClauses(args: Args, names: seq<string>)
    ensures forall i :: 0 <= i < |Accepted(args, names)| ==> Accepted(args, names)[i] in args
    ensures Pieces(args, names) == Clauses(args, Accepted(args, names))
    decreases |names|
  {
    AcceptedAreAdmitted(args, names);
    if names != [] {
      var init, n := names[..|names| - 1], names[|names| - 1];
      PiecesAreClauses(args, init);
      var a := Accepted(args, init);
      if Admits(args, n) {
        assert Accepted(args, names) == a + [n];
        assert (a + [n])[..|a|] == a;
      } else {
        assert Accepted(args, names) == a + [];
        assert a + [] == a;
      }
    }
  }

  lemma {:induction false} LastOfAppend(a: seq<string>, b: seq<string>)
    requires b != []
    ensures (a + b)[..|a + b| - 1] == a + b[..|b| - 1] && (a + b)[|a + b| - 1] == b[|b| - 1]
  {
  }

  lemma {:induction false} PiecesAppend(args: Args, a: seq<string>, b: seq<string>)
    ensures Pieces(args, a + b) == Pieces(args, a) + Pieces(args, b)
    decreases |b|
  {
    if b == [] {
      assert a + b == a;
    } else {
      var b', n := b[..|b| - 1], b[|b| - 1];
      LastOfAppend(a, b);
      PiecesAppend(args, a, b');
      var x, y, z := Pieces(args, a), Pieces(args, b'), if Admits(args, n) then Clause(n, args[n]) else "";
      assert Pieces(args, a + b) == (x + y) + z;
      assert Pieces(args, b) == y + z;
      Assoc(x, y, z);
    }
  }

  /** A refused name (absent, empty, or holding ':') leaves the filter as if
      the name were not in the chain at all. */
  lemma {:induction false} RefusedContributesNothing(args: Args, a: seq<string>, n: string, b: seq<string>)
    requires !Admits(args, n)
    ensures Pieces(args, a + [n] + b) == Pieces(args, a + b)
  {
    PiecesAppend(args, a + [n], b);
    PiecesAppend(args, a, [n]);
    PiecesAppend(args, a, b);
    assert [n][..0] == [];
  }

  lemma {:induction false} AcceptedAppend(args: Args, a: seq<string>, b: seq<string>)
    ensures Accepted(args, a + b) == Accepted(args, a) + Accepted(args, b)
    decreases |b|
  {
    if b == [] {
      assert a + b == a;
    } else {
      var b', n := b[..|b| - 1], b[|b| - 1];
      LastOfAppend(a, b);
      AcceptedAppend(args, a, b');
      var x, y, z := Accepted(args, a), Accepted(args, b'), if Admits(args, n) then [n] else [];
      assert Accepted(args, a + b) == (x + y) + z;
      assert Accepted(args, b) == y + z;
      Assoc(x, y, z);
    }
  }

  /** A name the chain admits contributes its clause once per time it is
      applied, and a name it refuses contributes nothing. */
  lemma {:induction false} AcceptedCount(args: Args, names: seq<string>, n: string)
    ensures multiset(Accepted(args, names))[n] == if Admits(args, n) then multiset(names)[n] else 0
    decreases |names|
  {
    if names != [] {
      var init, last := names[..|names| - 1], names[|names| - 1];
      AcceptedCount(args, init, n);
      assert names == init + [last];
      var z := if Admits(args, last) then [last] else [];
      assert Accepted(args, names) == Accepted(args, init) + z;
      assert multiset(Accepted(args, names)) == multiset(Accepted(args, init)) + multiset(z);
      assert multiset(names) == multiset(init) + multiset([last]);

    }
  }

  /** The GET filter: a value holding ':' never reaches it, and every other
      sent value lands in call order. */
  ghost function ResourceFilter(args: Args): string
  {
    ResourceSeed + Pieces(args, ResourceFields)
  }

  /** "author" sits at the sixth and the thirty-third place of the call
      order and nowhere else. */
  lemma {:induction false} ResourceFieldsSplit()
    ensures ResourceFields
         == ResourceFields[..5] + ["author"] + ResourceFields[6..32] + ["author"] + ResourceFields[33..]
    ensures "author" !in ResourceFields[..5]
    ensures "author" !in ResourceFields[6..32]
    ensures "author" !in ResourceFields[33..]
  {
    var rf := ResourceFields;
    assert forall i :: 0 <= i < |rf| && rf[i] == "author" ==> i == 5 || i == 32;
  }

  /** For any call order of the shape `a, n, b, n, c` with `n` nowhere in
      `a`, `b`, `c`, an admitted `n` is accepted exactly twice. */
  lemma {:induction false} TwiceCounted(args: Args, n: string, a: seq<string>, b: seq<string>, c: seq<string>)
    requires n !in a && n !in b && n !in c
    ensures multiset(Accepted(args, a + [n] + b + [n] + c))[n] == if Admits(args, n) then 2 else 0
  {
    var all := a + [n] + b + [n] + c;
    assert multiset(all) == multiset(a) + multiset([n]) + multiset(b) + multiset([n]) + multiset(c);
    AcceptedCount(args, all, n);
  }

  /** ... and its two clauses sit between the clauses of `a`, `b` and `c`. */
  lemma {:induction false} TwicePlaced(args: Args, n: string, a: seq<string>, b: seq<string>, c: seq<string>)
    requires Admits(args, n)
    ensures Pieces(args, a + [n] + b + [n] + c)
         == Pieces(args, a) + Clause(n, args[n]) + Pieces(args, b) + Clause(n, args[n]) + Pieces(args, c)
  {
    var one := [n];
    PiecesAppend(args, a + one + b + one, c);
    PiecesAppend(args, a + one + b, one);
    PiecesAppend(args, a + one, b);
    PiecesAppend(args, a, one);
    assert Pieces(args, one) == Clause(n, args[n]) by {
      assert one[..0] == [];
    }
  }

  /** An admitted author value is accepted exactly twice by the GET chain;
      a refused one never. */
  lemma {:induction false} AuthorCounted(args: Args)
    ensures multiset(Accepted(args, ResourceFields))["author"] == if Admits(args, "author") then 2 else 0
  {
    ResourceFieldsSplit();
    TwiceCounted(args, "author", ResourceFields[..5], ResourceFields[6..32], ResourceFields[33..]);
  }

  /** An admitted author value lands in the GET filter at the sixth and at the
      thirty-third call. */
  lemma {:induction false} AuthorPlaced(args: Args)
    requires Admits(args, "author")
    ensures ResourceFilter(args)
         == ResourceSeed
          + Pieces(args, ResourceFields[..5])
          + Clause("author", args["author"])
          + Pieces(args, ResourceFields[6..32])
          + Clause("author", args["author"])
          + Pieces(args, ResourceFields[33..])
  {
    ResourceFieldsSplit();
    TwicePlaced(args, "author", ResourceFields[..5], ResourceFields[6..32], ResourceFields[33..]);
  }

  /** The GET route's threading of the filter through every name of
      `ResourceFields`, one reassignment per name. */
  method BuildResourceFilter(args: Args) returns (q: string)
    ensures q == ResourceFilter(args)
  {
    q := ResourceSeed;
    for i := 0 to |ResourceFields|
      invariant q == Chain(ResourceSeed, args, ResourceFields[..i])
    {
      assert ResourceFields[..i + 1][..i] == ResourceFields[..i];
      q := AppendSearchString(q, args, ResourceFields[i]);
    }
    assert ResourceFields[..|ResourceFields|] == ResourceFields;
    ChainIsSeedAndPieces(ResourceSeed, args, ResourceFields);
  }

  /** The `limit` parameter: a run of decimal digits gives the row count,
      anything else (including absence) gives 10. */
  function Rows(args: Args): nat
  {
    if "limit" in args && IsNumeric(args["limit"]) then DigitsValue(args["limit"]) else 10
  }

  /** Any row count written in decimal is read back as itself, whatever else is sent. */
  lemma {:induction false} RowsOfDecimal(args: Args, n: nat)
    ensures Rows(args["limit" := DecimalString(n)]) == n
  {
    DecimalRoundTrip(n);
  }

  /** A `limit` that is not a run of digits ("", "-5", "1.5", "ten") is ignored. */
  lemma {:induction false} RowsDefault(args: Args)
    requires "limit" !in args || !IsNumeric(args["limit"])
    ensures Rows(args) == 10
  {
  }

  /** "title" is the first name the GET route applies, and it is applied
      only there. */
  lemma {:induction false} TitleFirstAndOnly()
    ensures ResourceFields[0] == "title"
    ensures forall i :: 1 <= i < |ResourceFields| ==> ResourceFields[i] != "title"
  {
  }

  /** "limit" is not one of the GET route's filter names. */
  lemma {:induction false} LimitIsNoFilterName()
    ensures "limit" !in ResourceFields
  {
  }

  lemma {:induction false} OnePiece(args: Args, n: string)
    ensures Pieces(args, [n]) == if Admits(args, n) then Clause(n, args[n]) else ""
  {
    assert [n][..0] == [];
    assert Pieces(args, []) == "";
  }

  /** When no name after the first is sent, only the first can reach the filter. */
  lemma {:induction false} OnlyFirstSent(args: Args, names: seq<string>)
    requires names != []
    requires forall i :: 1 <= i < |names| ==> names[i] !in args
    ensures Pieces(args, names) == if Admits(args, names[0]) then Clause(names[0], args[names[0]]) else ""
  {
    var rest := names[1..];
    forall i | 0 <= i < |rest|
      ensures !Admits(args, rest[i])
    {
      assert rest[i] == names[i + 1];
    }
    NoneAdmitted(args, rest);
    assert [names[0]] + rest == names;
    PiecesAppend(args, [names[0]], rest);
    OnePiece(args, names[0]);
    assert Pieces(args, [names[0]]) + "" == Pieces(args, [names[0]]);
  }

  /** When "title" is the only one of the GET route's names that is sent,
      only the title clause can reach the GET filter. */
  lemma {:induction false} OnlyTitleSent(args: Args)
    requires forall k :: k in args && k in ResourceFields ==> k == "title"
    ensures ResourceFilter(args) == ResourceSeed + if Admits(args, "title") then Clause("title", args["title"]) else ""
  {
    var rf := ResourceFields;
    TitleFirstAndOnly();
    forall i | 1 <= i < |rf|
      ensures rf[i] !in args
    {
      assert rf[i] in rf;
    }
    OnlyFirstSent(args, rf);
  }

  /** Facts about the literals of the example below, stated on their own so
      that the solver evaluates each one separately. They are steps of the
      example's proof, not properties of the filter builder. */
  lemma {:induction false} TitleExampleText()
    ensures ResourceSeed + Clause("title", "DataONE") == "status:true AND title:DataONE"
  {
  }

  lemma {:induction false} DataOneIsPlain()
    ensures "DataONE" != "" && ':' !in "DataONE"
  {
  }

  lemma {:induction false} FiveIsNumeric()
    ensures IsNumeric("5") && DigitsValue("5") == 5
  {
    assert "5"[..0] == "";
  }

  /** The example request "?title=DataONE&limit=5". */
  lemma {:induction false} TitleExample(args: Args)
    requires args.Keys == {"title", "limit"}
    requires args["title"] == "DataONE" && args["limit"] == "5"
    ensures ResourceFilter(args) == "status:true AND title:DataONE" && Rows(args) == 5
  {
    LimitIsNoFilterName();
    OnlyTitleSent(args);
    DataOneIsPlain();
    assert Admits(args, "title");
    TitleExampleText();
    FiveIsNumeric();
  }

  /** A chain over names none of which is admitted adds nothing. */
  lemma {:induction false} NoneAdmitted(args: Args, names: seq<string>)
    requires forall i :: 0 <= i < |names| ==> !Admits(args, names[i])
    ensures Pieces(args, names) == ""
    decreases |names|
  {
    if names != [] {
      NoneAdmitted(args, names[..|names| - 1]);
    }
  }

  /** The vocabularies route's three calls are the chain over `VocabularyFields`. */
  lemma {:induction false} VocabularyChain(args: Args)
    ensures AppendSearchString(AppendSearchString(AppendSearchString(VocabularySeed, args, "name"), args, "values"), args, "id")
         == Chain(VocabularySeed, args, VocabularyFields)
  {
    var vf, seed := VocabularyFields, VocabularySeed;
    var s1 := AppendSearchString(seed, args, "name");
    assert Chain(seed, args, vf[..1]) == s1 by {
      assert vf[..1][..0] == [];
    }
    var s2 := AppendSearchString(s1, args, "values");
    assert Chain(seed, args, vf[..2]) == s2 by {
      assert vf[..2][..1] == vf[..1];
    }
    assert vf[..|vf| - 1] == vf[..2];
  }

  /** What the vocabularies route does with its parameters. */
  datatype VocabularyQuery =
    | NameList         // names=true: only the vocabulary names are listed
    | Search(q: string)

  /** The vocabularies route: any parameters other than names=true narrow the
      "*:*" search by name, values and id; with no parameters at all it searches "*:*". */
  function VocabularyRequest(args: Args): (r: VocabularyQuery)
    ensures r.NameList? <==> "names" in args && args["names"] == "true"
    ensures r.Search? ==> r.q == VocabularySeed + Pieces(args, VocabularyFields)
  {
    if |args| > 0 then
      if "names" in args && args["names"] == "true" then NameList
      else
        var s := AppendSearchString(VocabularySeed, args, "name");
        var s := AppendSearchString(s, args, "values");
        var s := AppendSearchString(s, args, "id");
        VocabularyChain(args);
        ChainIsSeedAndPieces(VocabularySeed, args, VocabularyFields);
        Search(s)
    else
      NoneAdmitted(args, VocabularyFields);
      Search(VocabularySeed)
  }
}
