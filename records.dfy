/**
  The per-record part of `format_resource`: a search hit is a dictionary from
  field names to values. Internal fields are dropped, the parallel lists
  Solr stores for contributors and contributing organisations are folded into
  lists of objects, and the flattened lists themselves are removed.
 */
module Records {
  import opened Text

  /** The values a record's fields hold here: a missing-value marker, a single
      string, a multi-valued string field, or a list of objects built by the
      fold. */
  datatype Value =
    | Null
    | Str(s: string)
    | List(items: seq<string>)
    | Objects(objs: seq<map<string, string>>)

  type Record = map<string, Value>

  const FirstName: string := "contributors.firstname"
  const LastName: string := "contributors.lastname"
  const ContributorType: string := "contributors.type"
  const OrgName: string := "contributor_orgs.name"
  const OrgType: string := "contributor_orgs.type"

  /** The five flattened keys removed after folding. */
  const FlatKeys: set<string> := {OrgType, OrgName, FirstName, LastName, ContributorType}

  const ContributorsKey: string := "contributors"
  const OrgsKey: string := "contributor_orgs"

  /** Fields a client never sees: the document version, the moderation
      status and every facet copy of a field. */
  predicate Internal(k: string)
  {
    k == "_version_" || k == "status" || StartsWith(k, "facet_")
  }

  /** A record with its internal fields removed; every other field is kept
      with its value. */
  function Strip(r: Record): (out: Record)
    ensures forall k :: k in out <==> k in r && !Internal(k)
    ensures forall k :: k in out ==> out[k] == r[k]
  {
    map k | k in r && !Internal(k) :: r[k]
  }

  /** Stripping is idempotent, and leaves a record alone exactly when it has
      no internal field. */
  lemma {:induction false} StripIdempotent(r: Record)
    ensures Strip(Strip(r)) == Strip(r)
    ensures Strip(r) == r <==> forall k :: k in r ==> !Internal(k)
  {
    if Strip(r) == r {
      forall k | k in r
        ensures !Internal(k)
      {
        assert k in Strip(r);
      }
    }
  }

  /** No key the normaliser reads or writes is internal. */
  lemma NamedKeysNotInternal()
    ensures forall k :: k in FlatKeys ==> !Internal(k)
    ensures !Internal(ContributorsKey) && !Internal(OrgsKey)
  {
    forall k | k in FlatKeys + {ContributorsKey, OrgsKey}
      ensures !Internal(k)
    {
      assert k[..6][0] == k[0] == 'c';
    }
  }

  /** The elements of a multi-valued field; a missing value has none. */
  function Items(v: Value): seq<string>
  {
    if v.List? then v.items else []
  }

  /** A sibling list that will be indexed at 0 .. n-1 must be a list that long
      whenever it is present and the loop runs at all. */
  predicate SiblingFits(r: Record, k: string, n: nat)
  {
    k in r && n > 0 ==> r[k].List? && n <= |r[k].items|
  }

  /** What the contributor fold needs of a record: the first names are a list
      or missing (an empty or missing list folds to nothing), and the last
      names and types, when present, are lists at least as long. */
  predicate ContributorsFoldable(r: Record)
  {
    FirstName in r ==>
      (r[FirstName].Null? || r[FirstName].List?)
      && SiblingFits(r, LastName, |Items(r[FirstName])|)
      && SiblingFits(r, ContributorType, |Items(r[FirstName])|)
  }

  /** What the organisation fold needs: the names are a list (the fold takes
      its length unguarded), and the types, when present, are at least as
      long. */
  predicate OrgsFoldable(r: Record)
  {
    OrgName in r ==>
      r[OrgName].List?
      && SiblingFits(r, OrgType, |r[OrgName].items|)
  }

  predicate Foldable(r: Record)
  {
    ContributorsFoldable(r) && OrgsFoldable(r)
  }

  /** The i-th contributor object: its first name, then its last name and type
      when the record carries those lists. */
  function Contributor(r: Record, i: nat): map<string, string>
    requires ContributorsFoldable(r) && FirstName in r && i < |Items(r[FirstName])|
  {
    var c := map["firstname" := r[FirstName].items[i]];
    var c := if LastName in r then c["lastname" := r[LastName].items[i]] else c;
    if ContributorType in r then c["type" := r[ContributorType].items[i]] else c
  }

  function Contributors(r: Record): seq<map<string, string>>
    requires ContributorsFoldable(r) && FirstName in r
  {
    seq(|Items(r[FirstName])|, i requires 0 <= i < |Items(r[FirstName])| => Contributor(r, i))
  }

  /** The i-th organisation object: its name, then its type when present. */
  function Org(r: Record, i: nat): map<string, string>
    requires OrgsFoldable(r) && OrgName in r && i < |r[OrgName].items|
  {
    var c := map["name" := r[OrgName].items[i]];
    if OrgType in r then c["type" := r[OrgType].items[i]] else c
  }

  function Orgs(r: Record): seq<map<string, string>>
    requires OrgsFoldable(r) && OrgName in r
  {
    seq(|r[OrgName].items|, i requires 0 <= i < |r[OrgName].items| => Org(r, i))
  }

  /** The contributor fold: when the first names are present, "contributors"
      becomes their objects; nothing else changes. */
  function FoldContributors(s: Record): (out: Record)
    requires ContributorsFoldable(s)
    ensures forall k :: k != ContributorsKey ==> (k in out <==> k in s)
    ensures forall k :: k != ContributorsKey && k in out ==> out[k] == s[k]
  {
    if FirstName in s then s[ContributorsKey := Objects(Contributors(s))] else s
  }

  /** The organisation fold: when the names are present, "contributor_orgs"
      becomes their objects; nothing else changes. */
  function FoldOrgs(s: Record): (out: Record)
    requires OrgsFoldable(s)
    ensures forall k :: k != OrgsKey ==> (k in out <==> k in s)
    ensures forall k :: k != OrgsKey && k in out ==> out[k] == s[k]
  {
    if OrgName in s then s[OrgsKey := Objects(Orgs(s))] else s
  }

  /** The record as the client receives it. */
  function Normalize(r: Record): (out: Record)
    requires Foldable(r)
    ensures forall k :: k in out ==> !Internal(k) && k !in FlatKeys
  {
    NamedKeysNotInternal();
    var s := Strip(r);
    assert FirstName in s <==> FirstName in r;
    var s := FoldContributors(s);
    FoldOrgs(s) - FlatKeys
  }

  /** The normaliser as `format_resource` runs it on one record: pops, a pass
      over a snapshot of the keys, two folds that append one object per
      index, and the final pops. */
  method NormalizeRecord(r: Record) returns (result: Record)
    requires Foldable(r)
    ensures result == Normalize(r)
  {
    NamedKeysNotInternal();
    result := PopInternal(r);
    result := FoldContributorList(result);
    result := FoldOrgList(result);
    result := result - {OrgType};
    result := result - {OrgName};
    result := result - {FirstName};
    result := result - {LastName};
    result := result - {ContributorType};
  }

  method PopInternal(r: Record) returns (result: Record)
    ensures result == Strip(r)
  {
    result := r - {"_version_"};
    result := result - {"status"};
    ghost var popped := result;
    var keys := result.Keys;
    while keys != {}
      invariant keys <= popped.Keys
      invariant forall k :: k in result <==> k in popped && (k in keys || !StartsWith(k, "facet_"))
      invariant forall k :: k in result ==> result[k] == popped[k]
      decreases keys
    {
      var k :| k in keys;
      if StartsWith(k, "facet_") {
        result := result - {k};
      }
      keys := keys - {k};
    }
  }

  method FoldContributorList(s: Record) returns (result: Record)
    requires ContributorsFoldable(s)
    ensures result == FoldContributors(s)
  {
    result := s;
    if FirstName in result {
      result := result[ContributorsKey := Objects([])];
      var first := result[FirstName];
      if first.List? && first.items != [] {
        for i := 0 to |first.items|
          invariant result == s[ContributorsKey := Objects(Contributors(s)[..i])]
        {
          var c := map["firstname" := first.items[i]];
          if LastName in result {
            c := c["lastname" := result[LastName].items[i]];
          }
          if ContributorType in result {
            c := c["type" := result[ContributorType].items[i]];
          }
          assert c == Contributor(s, i);
          assert Contributors(s)[..i + 1] == Contributors(s)[..i] + [c];
          result := result[ContributorsKey := Objects(result[ContributorsKey].objs + [c])];
        }
        assert Contributors(s)[..|first.items|] == Contributors(s);
      } else {
        assert Contributors(s) == [];
      }
    }
  }

  method FoldOrgList(s: Record) returns (result: Record)
    requires OrgsFoldable(s)
    ensures result == FoldOrgs(s)
  {
    result := s;
    if OrgName in result {
      result := result[OrgsKey := Objects([])];
      var names := result[OrgName].items;
      for i := 0 to |names|
        invariant result == s[OrgsKey := Objects(Orgs(s)[..i])]
      {
        var c := map["name" := names[i]];
        if OrgType in result {
          c := c["type" := result[OrgType].items[i]];
        }
        assert c == Org(s, i);
        assert Orgs(s)[..i + 1] == Orgs(s)[..i] + [c];
        result := result[OrgsKey := Objects(result[OrgsKey].objs + [c])];
      }
      assert Orgs(s)[..|names|] == Orgs(s);
    }
  }

  /** Every field that is neither internal nor one the folds read or write
      reaches the client unchanged, and an existing "contributors" or
      "contributor_orgs" field survives when there is nothing to fold into
      it. Conversely every field of the result is one of these or a fold. */
  lemma {:induction false} OtherFieldsKept(r: Record)
    requires Foldable(r)
    ensures forall k :: k in r && !Internal(k) && k !in FlatKeys
                        && !(k == ContributorsKey && FirstName in r) && !(k == OrgsKey && OrgName in r)
                        ==> k in Normalize(r) && Normalize(r)[k] == r[k]
    ensures forall k :: k in Normalize(r) ==>
              k in r || (k == ContributorsKey && FirstName in r) || (k == OrgsKey && OrgName in r)
  {
    NamedKeysNotInternal();
  }

  /** "contributors" holds one object per first name (none for an empty or
      missing list); object i has first name i, and has last name i or type i
      exactly when the record carries that list. */
  lemma {:induction false} ContributorsFolded(r: Record)
    requires Foldable(r) && FirstName in r
    ensures ContributorsKey in Normalize(r) && Normalize(r)[ContributorsKey].Objects?
    ensures var objs := Normalize(r)[ContributorsKey].objs;
      && |objs| == |Items(r[FirstName])|
      && forall i :: 0 <= i < |objs| ==>
           && objs[i].Keys <= {"firstname", "lastname", "type"}
           && "firstname" in objs[i] && objs[i]["firstname"] == r[FirstName].items[i]
           && ("lastname" in objs[i] <==> LastName in r)
           && (LastName in r ==> objs[i]["lastname"] == r[LastName].items[i])
           && ("type" in objs[i] <==> ContributorType in r)
           && (ContributorType in r ==> objs[i]["type"] == r[ContributorType].items[i])
  {
    NamedKeysNotInternal();
    var s := Strip(r);
    assert FoldContributors(s)[ContributorsKey] == Objects(Contributors(s));
    assert Normalize(r)[ContributorsKey] == Objects(Contributors(s));
  }

  /** "contributor_orgs" holds one object per name; object i has name i, and
      has type i exactly when the record carries the types. */
  lemma {:induction false} OrgsFolded(r: Record)
    requires Foldable(r) && OrgName in r
    ensures OrgsKey in Normalize(r) && Normalize(r)[OrgsKey].Objects?
    ensures var objs := Normalize(r)[OrgsKey].objs;
      && |objs| == |r[OrgName].items|
      && forall i :: 0 <= i < |objs| ==>
           && objs[i].Keys <= {"name", "type"}
           && "name" in objs[i] && objs[i]["name"] == r[OrgName].items[i]
           && ("type" in objs[i] <==> OrgType in r)
           && (OrgType in r ==> objs[i]["type"] == r[OrgType].items[i])
  {
    NamedKeysNotInternal();
    var s := FoldContributors(Strip(r));
    assert FoldOrgs(s)[OrgsKey] == Objects(Orgs(s));
    assert Normalize(r)[OrgsKey] == Objects(Orgs(s));
  }

  /** A record without any of the flattened lists only loses its internal
      fields. */
  lemma {:induction false} NothingToFold(r: Record)
    requires forall k :: k in FlatKeys ==> k !in r
    ensures Foldable(r) && Normalize(r) == Strip(r)
  {
    NamedKeysNotInternal();
  }

  /** Normalising a normalised record changes nothing. */
  lemma {:induction false} NormalizeIdempotent(r: Record)
    requires Foldable(r)
    ensures Foldable(Normalize(r)) && Normalize(Normalize(r)) == Normalize(r)
  {
    var n := Normalize(r);
    NothingToFold(n);
    assert Strip(n) == n;
  }
}
