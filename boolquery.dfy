/**
  The boolean query compiler of the POST route. The JSON body's `search` list
  holds groups; each group names a combinator under its "group" key and holds
  lists of terms under its other keys. A group whose combinator upper-cases to
  AND, OR or NOT adds " COMBINATOR (" ... ")" to the "status:true" filter;
  inside, every term of every key that upper-cases to an operator is emitted
  in key order, joined by " KEY " where KEY is the upper-cased key being read,
  with one counter shared by all keys of the group deciding which term is first.
 */
module BoolQuery {
  import opened Text

  /** One clause: {"field": ..., "string": ..., "type": ...}. Only the types
      "simple" and "match" produce text. */
  datatype Term = Term(field: string, text: string, kind: string)

  /** A key of a group other than "group", with its list of terms. */
  datatype Entry = Entry(key: string, terms: seq<Term>)

  /** A group: the value of its "group" key and its other keys in order. */
  datatype Group = Group(combinator: string, entries: seq<Entry>)

  const Operators: set<string> := {"AND", "NOT", "OR"}

  /** The filter every compiled query starts from. */
  const BaseFilter: string := "status:true"

  predicate IsOperator(s: string)
  {
    Upper(s) in Operators
  }

  predicate Emits(t: Term)
  {
    t.kind == "simple" || t.kind == "match"
  }

  /** field:string for a simple term, field:"string" for a match term; nothing
      inside the string is escaped. */
  function Render(t: Term): string
    requires Emits(t)
  {
    if t.kind == "simple" then t.field + ":" + t.text
    else t.field + ":\"" + t.text + "\""
  }

  /** One emitted term, with the joiner that would precede it. */
  datatype Emission = Emission(joiner: string, text: string)

  /** The emissions of one key's terms, in order. */
  function KeyEmissions(key: string, terms: seq<Term>): seq<Emission>
    decreases |terms|
  {
    if terms == [] then []
    else
      var t := terms[|terms| - 1];
      KeyEmissions(key, terms[..|terms| - 1])
      + (if Emits(t) then [Emission(Upper(key), Render(t))] else [])
  }

  /** The emissions of a group's keys, in key order; keys that are not
      operators contribute nothing. */
  function GroupEmissions(entries: seq<Entry>): seq<Emission>
    decreases |entries|
  {
    if entries == [] then []
    else
      var e := entries[|entries| - 1];
      GroupEmissions(entries[..|entries| - 1])
      + (if IsOperator(e.key) then KeyEmissions(e.key, e.terms) else [])
  }

  /** What is written for one emission: its text alone when it is the
      group's first, otherwise preceded by " JOINER ". */
  function Written(first: bool, e: Emission): string
  {
    if first then e.text else " " + e.joiner + " " + e.text
  }

  /** The text between a group's parentheses: each emission written in turn,
      only the first without its joiner. */
  function Body(es: seq<Emission>): string
    decreases |es|
  {
    if es == [] then "" else Body(es[..|es| - 1]) + Written(|es| == 1, es[|es| - 1])
  }

  function GroupText(g: Group): string
  {
    if IsOperator(g.combinator) then " " + Upper(g.combinator) + " (" + Body(GroupEmissions(g.entries)) + ")"
    else ""
  }

  function GroupsText(gs: seq<Group>): string
    decreases |gs|
  {
    if gs == [] then "" else GroupsText(gs[..|gs| - 1]) + GroupText(gs[|gs| - 1])
  }

  /** The compiled query of a `search` list. */
  function Compile(gs: seq<Group>): string
  {
    BaseFilter + GroupsText(gs)
  }

  /** The compiler as the route runs it: one pass over the groups, appending
      each group's text to the query. */
  method CompileSearch(search: seq<Group>) returns (q: string)
    ensures q == Compile(search)
  {
    q := BaseFilter;
    for i := 0 to |search|
      invariant q == BaseFilter + GroupsText(search[..i])
    {
      GroupsTextSnoc(search, i);
      Assoc(BaseFilter, GroupsText(search[..i]), GroupText(search[i]));
      q := AppendGroup(q, search[i]);
    }
    assert search[..|search|] == search;
  }

  /** One iteration over a group: the counter starts at zero, and the
      parentheses are written only for a recognised combinator. */
  method AppendGroup(q0: string, group: Group) returns (q: string)
    ensures q == q0 + GroupText(group)
  {
    q := q0;
    var qindex := 0;
    if Upper(group.combinator) in Operators {
      q := q + " " + Upper(group.combinator) + " (";
      ghost var open := q;
      assert group.entries[..0] == [];
      assert open + "" == open;
      for k := 0 to |group.entries|
        invariant q == open + Body(GroupEmissions(group.entries[..k]))
        invariant qindex == |GroupEmissions(group.entries[..k])|
      {
        GroupEmissionsSnoc(group.entries, k);
        var key := group.entries[k].key;
        if Upper(key) in Operators {
          q, qindex := AppendTerms(q, qindex, key, group.entries[k].terms, open, GroupEmissions(group.entries[..k]));
        } else {
          assert GroupEmissions(group.entries[..k]) + [] == GroupEmissions(group.entries[..k]);
        }
      }
      assert group.entries[..|group.entries|] == group.entries;
      Regroup(q0, " ", Upper(group.combinator), " (", Body(GroupEmissions(group.entries)), ")");
      q := q + ")";
    } else {
      assert q0 + "" == q0;
    }
  }

  /** The loop over one operator key's terms; `qindex` counts the terms the
      group has emitted so far, across all its keys. */
  method AppendTerms(q0: string, qindex0: nat, key: string, terms: seq<Term>, ghost open: string, ghost done: seq<Emission>)
    returns (q: string, qindex: nat)
    requires q0 == open + Body(done) && qindex0 == |done|
    ensures q == open + Body(done + KeyEmissions(key, terms))
    ensures qindex == |done + KeyEmissions(key, terms)|
  {
    q, qindex := q0, qindex0;
    assert terms[..0] == [];
    assert done + [] == done;
    for m := 0 to |terms|
      invariant q == open + Body(done + KeyEmissions(key, terms[..m]))
      invariant qindex == |done + KeyEmissions(key, terms[..m])|
    {
      TermStep(open, done, key, terms, m);
      q, qindex := AppendTerm(q, qindex, key, terms[m]);
    }
    assert terms[..|terms|] == terms;
  }

  /** One term of that loop: a simple or match term is written, preceded by
      " KEY " unless the group has emitted nothing yet; any other term is
      skipped and leaves the counter alone. */
  method AppendTerm(q0: string, qindex0: nat, key: string, t: Term) returns (q: string, qindex: nat)
    ensures Emits(t) ==> q == q0 + (if qindex0 > 0 then " " + Upper(key) + " " else "") + Render(t)
    ensures Emits(t) ==> qindex == qindex0 + 1
    ensures !Emits(t) ==> q == q0 && qindex == qindex0
  {
    q, qindex := q0, qindex0;
    if t.kind == "simple" {
      if qindex > 0 {
        q := q + (" " + Upper(key) + " ");
      } else {
        assert q0 + "" == q0;
      }
      qindex := qindex + 1;
      q := q + (t.field + ":" + t.text);
    } else if t.kind == "match" {
      if qindex > 0 {
        q := q + (" " + Upper(key) + " ");
      } else {
        assert q0 + "" == q0;
      }
      qindex := qindex + 1;
      q := q + (t.field + ":\"" + t.text + "\"");
    }
  }

  /** What writing term `m` does to the text and the count of the emissions
      so far. */
  lemma {:induction false} TermStep(open: string, done: seq<Emission>, key: string, terms: seq<Term>, m: nat)
    requires m < |terms|
    ensures var before, after := done + KeyEmissions(key, terms[..m]), done + KeyEmissions(key, terms[..m + 1]);
      && (Emits(terms[m]) ==>
            && open + Body(before) + (if |before| > 0 then " " + Upper(key) + " " else "") + Render(terms[m])
               == open + Body(after)
            && |after| == |before| + 1)
      && (!Emits(terms[m]) ==> after == before)
  {
    KeyEmissionsSnoc(key, terms, m);
    var t := terms[m];
    var sofar := done + KeyEmissions(key, terms[..m]);
    if Emits(t) {
      var e := Emission(Upper(key), Render(t));
      EmitStep(open, sofar, e);
      Assoc(done, KeyEmissions(key, terms[..m]), [e]);
    } else {
      assert KeyEmissions(key, terms[..m + 1]) == KeyEmissions(key, terms[..m]) + [];
    }
  }

  lemma {:induction false} Regroup(a: string, b: string, c: string, d: string, e: string, f: string)
    ensures a + (b + c + d + e + f) == a + b + c + d + e + f
  {
  }

  lemma {:induction false} SnocParts(es: seq<Emission>, e: Emission)
    ensures |es + [e]| == |es| + 1
    ensures (es + [e])[..|es|] == es && (es + [e])[|es|] == e
  {
  }

  /** Emitting one term after `es`, as the loop writes it. */
  lemma {:induction false} EmitStep(open: string, es: seq<Emission>, e: Emission)
    ensures open + Body(es) + (if |es| > 0 then " " + e.joiner + " " else "") + e.text
         == open + Body(es + [e])
  {
    SnocParts(es, e);
    var b := Body(es);
    assert Body(es + [e]) == b + Written(|es| == 0, e);
    if |es| == 0 {
      assert b + "" == b;
      Assoc(open, b, e.text);
    } else {
      var sep := " " + e.joiner + " ";
      assert Written(false, e) == sep + e.text;
      Assoc(open, b, sep + e.text);
      Assoc(open + b, sep, e.text);
    }
  }

  lemma {:induction false} GroupsTextSnoc(gs: seq<Group>, i: nat)
    requires i < |gs|
    ensures GroupsText(gs[..i + 1]) == GroupsText(gs[..i]) + GroupText(gs[i])
  {
    assert gs[..i + 1][..i] == gs[..i];
  }

  lemma {:induction false} GroupEmissionsSnoc(entries: seq<Entry>, k: nat)
    requires k < |entries|
    ensures GroupEmissions(entries[..k + 1])
         == GroupEmissions(entries[..k])
          + (if IsOperator(entries[k].key) then KeyEmissions(entries[k].key, entries[k].terms) else [])
  {
    assert entries[..k + 1][..k] == entries[..k];
  }

  lemma {:induction false} KeyEmissionsSnoc(key: string, terms: seq<Term>, m: nat)
    requires m < |terms|
    ensures KeyEmissions(key, terms[..m + 1])
         == KeyEmissions(key, terms[..m])
          + (if Emits(terms[m]) then [Emission(Upper(key), Render(terms[m]))] else [])
  {
    assert terms[..m + 1][..m] == terms[..m];
  }

  /** The text after the first emission, read front to back: each emission
      preceded by its joiner. An independent reading of `Body`. */
  function Joined(es: seq<Emission>): string
    decreases |es|
  {
    if es == [] then "" else Written(false, es[0]) + Joined(es[1..])
  }

  lemma {:induction false} JoinedAppend(x: seq<Emission>, y: seq<Emission>)
    ensures Joined(x + y) == Joined(x) + Joined(y)
    decreases |x|
  {
    if x == [] {
      assert x + y == y;
    } else {
      assert (x + y)[1..] == x[1..] + y;
      JoinedAppend(x[1..], y);
    }
  }

  /** The first emitted term stands alone; every later one is preceded by
      " JOINER " with the upper-cased key it came from. */
  lemma {:induction false} BodyIsFirstThenJoined(es: seq<Emission>)
    requires es != []
    ensures Body(es) == es[0].text + Joined(es[1..])
    decreases |es|
  {
    var init, e := es[..|es| - 1], es[|es| - 1];
    if |es| == 1 {
      assert init == [];
      assert es[1..] == [];
    } else {
      InitParts(es);
      BodyIsFirstThenJoined(init);
      JoinedSnoc(init[1..], e);
      var f, j, l := init[0].text, Joined(init[1..]), Written(false, e);
      assert Body(es) == (f + j) + l;
      assert Joined(es[1..]) == j + l;
      Assoc(f, j, l);
    }
  }

  lemma {:induction false} InitParts(es: seq<Emission>)
    requires |es| >= 2
    ensures es[..|es| - 1][0] == es[0]
    ensures es[1..] == es[..|es| - 1][1..] + [es[|es| - 1]]
  {
  }

  /** Two runs of emissions share one set of parentheses: the second run's
      first term is joined to the first run's last. */
  lemma {:induction false} JoinedSnoc(y: seq<Emission>, e: Emission)
    ensures Joined(y + [e]) == Joined(y) + Written(false, e)
  {
    JoinedAppend(y, [e]);
    assert [e][1..] == [];
  }

  /** Two runs of emissions share one set of parentheses: the second run
      continues the first, each of its terms joined by its own joiner. */
  lemma {:induction false} AppendParts(x: seq<Emission>, y: seq<Emission>)
    requires x != []
    ensures (x + y)[0] == x[0] && (x + y)[1..] == x[1..] + y
  {
  }

  lemma {:induction false} BodyAppend(x: seq<Emission>, y: seq<Emission>)
    requires x != []
    ensures Body(x + y) == Body(x) + Joined(y)
  {
    AppendParts(x, y);
    BodyIsFirstThenJoined(x + y);
    JoinedAppend(x[1..], y);
    BodyIsFirstThenJoined(x);
    Assoc(x[0].text, Joined(x[1..]), Joined(y));
  }

  lemma {:induction false} KeyEmissionsAppend(key: string, a: seq<Term>, b: seq<Term>)
    ensures KeyEmissions(key, a + b) == KeyEmissions(key, a) + KeyEmissions(key, b)
    decreases |b|
  {
    if b == [] {
      assert a + b == a;
    } else {
      assert (a + b)[..|a + b| - 1] == a + b[..|b| - 1];
      KeyEmissionsAppend(key, a, b[..|b| - 1]);
    }
  }

  /** A term whose type is neither "simple" nor "match" emits nothing and does
      not advance the counter: the query is as if it were not there. */
  lemma {:induction false} UnknownTermSkipped(key: string, a: seq<Term>, t: Term, b: seq<Term>)
    requires !Emits(t)
    ensures KeyEmissions(key, a + [t] + b) == KeyEmissions(key, a + b)
  {
    KeyEmissionsAppend(key, a + [t], b);
    KeyEmissionsAppend(key, a, [t]);
    KeyEmissionsAppend(key, a, b);
    assert [t][..0] == [];
  }

  /** When every term of a key emits, the key contributes one emission per
      term, in order, each joined by the upper-cased key. */
  lemma {:induction false} AllTermsEmitted(key: string, terms: seq<Term>)
    requires forall i :: 0 <= i < |terms| ==> Emits(terms[i])
    ensures |KeyEmissions(key, terms)| == |terms|
    ensures forall i :: 0 <= i < |terms| ==> KeyEmissions(key, terms)[i] == Emission(Upper(key), Render(terms[i]))
    decreases |terms|
  {
    if terms != [] {
      AllTermsEmitted(key, terms[..|terms| - 1]);
    }
  }

  lemma {:induction false} GroupEmissionsAppend(a: seq<Entry>, b: seq<Entry>)
    ensures GroupEmissions(a + b) == GroupEmissions(a) + GroupEmissions(b)
    decreases |b|
  {
    if b == [] {
      assert a + b == a;
    } else {
      assert (a + b)[..|a + b| - 1] == a + b[..|b| - 1];
      GroupEmissionsAppend(a, b[..|b| - 1]);
    }
  }

  /** A key that is not an operator (the "group" key among them) is ignored. */
  lemma {:induction false} NonOperatorKeyIgnored(a: seq<Entry>, e: Entry, b: seq<Entry>)
    requires !IsOperator(e.key)
    ensures GroupEmissions(a + [e] + b) == GroupEmissions(a + b)
  {
    GroupEmissionsAppend(a + [e], b);
    GroupEmissionsAppend(a, [e]);
    GroupEmissionsAppend(a, b);
    assert [e][..0] == [];
  }

  lemma {:induction false} GroupKeyIsNotOperator()
    ensures !IsOperator("group") && !IsOperator("Group")
  {
    assert Upper("group")[0] == 'G';
    assert Upper("Group")[0] == 'G';
  }

  /** Clause lists under several operator keys of one group are concatenated
      into the group's one pair of parentheses, the counter carrying over from
      key to key; none of them replaces another. */
  lemma {:induction false} KeysShareParentheses(c: string, a: seq<Entry>, b: seq<Entry>)
    requires IsOperator(c)
    requires GroupEmissions(a) != []
    ensures GroupText(Group(c, a + b))
         == " " + Upper(c) + " (" + Body(GroupEmissions(a)) + Joined(GroupEmissions(b)) + ")"
  {
    GroupEmissionsAppend(a, b);
    BodyAppend(GroupEmissions(a), GroupEmissions(b));
    Assoc(" " + Upper(c) + " (", Body(GroupEmissions(a)), Joined(GroupEmissions(b)));
  }

  lemma {:induction false} GroupsTextAppend(a: seq<Group>, b: seq<Group>)
    ensures GroupsText(a + b) == GroupsText(a) + GroupsText(b)
    decreases |b|
  {
    if b == [] {
      assert a + b == a;
    } else {
      var b', g := b[..|b| - 1], b[|b| - 1];
      assert (a + b)[..|a + b| - 1] == a + b';
      assert (a + b)[|a + b| - 1] == g;
      GroupsTextAppend(a, b');
      var x, y, z := GroupsText(a), GroupsText(b'), GroupText(g);
      assert GroupsText(a + b) == (x + y) + z;
      assert GroupsText(b) == y + z;
      Assoc(x, y, z);
    }
  }

  /** Each group adds its own text after the ones before it. */
  lemma {:induction false} CompileAppend(a: seq<Group>, b: seq<Group>)
    ensures Compile(a + b) == Compile(a) + GroupsText(b)
  {
    GroupsTextAppend(a, b);
  }

  /** A recognised group appends " COMBINATOR (" ... ")". */
  lemma {:induction false} RecognisedGroupWrapped(gs: seq<Group>, g: Group)
    requires IsOperator(g.combinator)
    ensures Compile(gs + [g]) == Compile(gs) + " " + Upper(g.combinator) + " (" + Body(GroupEmissions(g.entries)) + ")"
  {
    assert (gs + [g])[..|gs|] == gs && (gs + [g])[|gs|] == g;
    var t := GroupsText(gs);
    assert GroupsText(gs + [g]) == t + GroupText(g);
    Assoc(BaseFilter, t, GroupText(g));
    Regroup(BaseFilter + t, " ", Upper(g.combinator), " (", Body(GroupEmissions(g.entries)), ")");
  }

  /** A group whose combinator is not AND, OR or NOT in any case contributes
      nothing at all, wherever it stands. */
  lemma {:induction false} UnrecognisedGroupDropped(a: seq<Group>, g: Group, b: seq<Group>)
    requires !IsOperator(g.combinator)
    ensures Compile(a + [g] + b) == Compile(a + b)
  {
    GroupsTextAppend(a + [g], b);
    GroupsTextAppend(a, [g]);
    GroupsTextAppend(a, b);
    assert GroupsText([g]) == "" by {
      assert [g][..0] == [];
      assert GroupText(g) == "";
    }
    assert GroupsText(a + [g]) == GroupsText(a);
    assert GroupsText(a + [g] + b) == GroupsText(a + b);
  }

  /** A list of one recognised group compiles to the base filter and that
      group's parenthesised clauses. */
  lemma {:induction false} SingleGroup(g: Group)
    requires IsOperator(g.combinator)
    ensures Compile([g]) == BaseFilter + (" " + Upper(g.combinator) + " (" + Body(GroupEmissions(g.entries)) + ")")
  {
    assert [g][..0] == [];
    assert GroupsText([g]) == "" + GroupText(g) == GroupText(g);
  }

  /** A group holding one operator key: its terms, rendered in order and
      joined by the key's operator. */
  lemma {:induction false} SingleKeyGroup(key: string, terms: seq<Term>)
    requires IsOperator(key)
    ensures GroupEmissions([Entry(key, terms)]) == KeyEmissions(key, terms)
  {
    assert [Entry(key, terms)][..0] == [];
  }

  lemma {:induction false} OneEmission(e: Emission)
    ensures Body([e]) == e.text
  {
    assert [e][..0] == [];
  }

  lemma {:induction false} OneTermEmission(k: string, t: Term)
    requires Emits(t)
    ensures KeyEmissions(k, [t]) == [Emission(Upper(k), Render(t))]
  {
    assert [t][..0] == [];
    assert KeyEmissions(k, []) == [];
  }

  /** A recognised group with one operator key holding one term. */
  lemma {:induction false} OneTermGroup(c: string, k: string, t: Term)
    requires IsOperator(c) && IsOperator(k) && Emits(t)
    ensures Compile([Group(c, [Entry(k, [t])])]) == BaseFilter + " " + Upper(c) + " (" + Render(t) + ")"
  {
    Regroup(BaseFilter, " ", Upper(c), " (", Render(t), ")");
    var e := Emission(Upper(k), Render(t));
    OneTermEmission(k, t);
    SingleKeyGroup(k, [t]);
    OneEmission(e);
    SingleGroup(Group(c, [Entry(k, [t])]));
  }

  /** Two emitted terms: the second follows the first after the joiner. */
  lemma {:induction false} TwoEmissions(e1: Emission, e2: Emission)
    ensures Body([e1, e2]) == e1.text + (" " + e2.joiner + " " + e2.text)
  {
    assert [e1, e2][..1] == [e1] && [e1, e2][1] == e2;
    OneEmission(e1);
    assert Body([e1, e2]) == Body([e1]) + Written(false, e2);
  }

  /** A recognised group with one operator key holding two terms: they are
      joined by the key's operator. */
  lemma {:induction false} TwoTermGroup(c: string, k: string, t1: Term, t2: Term)
    requires IsOperator(c) && IsOperator(k) && Emits(t1) && Emits(t2)
    ensures Compile([Group(c, [Entry(k, [t1, t2])])])
         == BaseFilter + " " + Upper(c) + " (" + (Render(t1) + (" " + Upper(k) + " " + Render(t2))) + ")"
  {
    Regroup(BaseFilter, " ", Upper(c), " (", Render(t1) + (" " + Upper(k) + " " + Render(t2)), ")");
    var e1, e2 := Emission(Upper(k), Render(t1)), Emission(Upper(k), Render(t2));
    AllTermsEmitted(k, [t1, t2]);
    assert KeyEmissions(k, [t1, t2]) == [e1, e2];
    SingleKeyGroup(k, [t1, t2]);
    TwoEmissions(e1, e2);
    SingleGroup(Group(c, [Entry(k, [t1, t2])]));
  }

  /** A recognised group with two operator keys of one term each: both terms
      share the parentheses, the second joined by its own key's operator. */
  lemma {:induction false} TwoKeyGroup(c: string, k1: string, t1: Term, k2: string, t2: Term)
    requires IsOperator(c) && IsOperator(k1) && IsOperator(k2) && Emits(t1) && Emits(t2)
    ensures Compile([Group(c, [Entry(k1, [t1]), Entry(k2, [t2])])])
         == BaseFilter + " " + Upper(c) + " (" + (Render(t1) + (" " + Upper(k2) + " " + Render(t2))) + ")"
  {
    Regroup(BaseFilter, " ", Upper(c), " (", Render(t1) + (" " + Upper(k2) + " " + Render(t2)), ")");
    var e1, e2 := Emission(Upper(k1), Render(t1)), Emission(Upper(k2), Render(t2));
    OneTermEmission(k1, t1);
    OneTermEmission(k2, t2);
    SingleKeyGroup(k1, [t1]);
    SingleKeyGroup(k2, [t2]);
    assert [Entry(k1, [t1]), Entry(k2, [t2])] == [Entry(k1, [t1])] + [Entry(k2, [t2])];
    GroupEmissionsAppend([Entry(k1, [t1])], [Entry(k2, [t2])]);
    assert [e1] + [e2] == [e1, e2];
    TwoEmissions(e1, e2);
    SingleGroup(Group(c, [Entry(k1, [t1]), Entry(k2, [t2])]));
  }

  lemma {:induction false} OperatorSpellings()
    ensures Upper("and") == "AND" && Upper("or") == "OR"
    ensures IsOperator("and") && IsOperator("or")
  {
  }

  lemma {:induction false} DocumentedShape()
    ensures Compile([Group("and", [Entry("and", [Term("keywords", "Data archiving", "match")])])])
         == BaseFilter + " " + Upper("and") + " (" + Render(Term("keywords", "Data archiving", "match")) + ")"
  {
    OperatorSpellings();
    OneTermGroup("and", "and", Term("keywords", "Data archiving", "match"));
  }

  /** This lemma and the next are facts about string literals, stated on
      their own so that the solver evaluates each separately; they are steps
      of the example's proof, not properties of the compiler. */
  lemma {:induction false} DocumentedRender()
    ensures Render(Term("keywords", "Data archiving", "match")) == "keywords:\"Data archiving\""
  {
  }

  lemma {:induction false} DocumentedText()
    ensures "status:true" + " " + "AND" + " (" + "keywords:\"Data archiving\"" + ")"
         == "status:true AND (keywords:\"Data archiving\")"
  {
  }

  /** The body documented for the POST route. */
  lemma {:induction false} DocumentedExample()
    ensures Compile([Group("and", [Entry("and", [Term("keywords", "Data archiving", "match")])])])
         == "status:true AND (keywords:\"Data archiving\")"
  {
    DocumentedShape();
    OperatorSpellings();
    DocumentedRender();
    DocumentedText();
  }

  lemma {:induction false} JoinerShape()
    ensures Compile([Group("or", [Entry("and", [Term("a", "x", "simple"), Term("b", "y", "simple")])])])
         == BaseFilter + " " + Upper("or") + " (" + (Render(Term("a", "x", "simple")) + (" " + Upper("and") + " " + Render(Term("b", "y", "simple")))) + ")"
  {
    OperatorSpellings();
    TwoTermGroup("or", "and", Term("a", "x", "simple"), Term("b", "y", "simple"));
  }

  /** This lemma and the next are facts about string literals, stated on
      their own so that the solver evaluates each separately; they are steps
      of the example's proof, not properties of the compiler. */
  lemma {:induction false} JoinerRender()
    ensures Render(Term("a", "x", "simple")) == "a:x" && Render(Term("b", "y", "simple")) == "b:y"
  {
  }

  lemma {:induction false} JoinerText()
    ensures "status:true" + " " + "OR" + " (" + ("a:x" + (" " + "AND" + " " + "b:y")) + ")" == "status:true OR (a:x AND b:y)"
  {
  }

  /** The joiner is the key's operator, not the group's: an "or" group holding
      two terms under "and" joins them with AND. */
  lemma {:induction false} JoinerComesFromKey()
    ensures Compile([Group("or", [Entry("and", [Term("a", "x", "simple"), Term("b", "y", "simple")])])])
         == "status:true OR (a:x AND b:y)"
  {
    JoinerShape();
    OperatorSpellings();
    JoinerRender();
    JoinerText();
  }

  lemma {:induction false} TwoKeysShape()
    ensures Compile([Group("and", [Entry("and", [Term("a", "x", "simple")]), Entry("or", [Term("b", "y", "match")])])])
         == BaseFilter + " " + Upper("and") + " (" + (Render(Term("a", "x", "simple")) + (" " + Upper("or") + " " + Render(Term("b", "y", "match")))) + ")"
  {
    OperatorSpellings();
    TwoKeyGroup("and", "and", Term("a", "x", "simple"), "or", Term("b", "y", "match"));
  }

  /** This lemma and the next are facts about string literals, stated on
      their own so that the solver evaluates each separately; they are steps
      of the example's proof, not properties of the compiler. */
  lemma {:induction false} TwoKeysRender()
    ensures Render(Term("a", "x", "simple")) == "a:x" && Render(Term("b", "y", "match")) == "b:\"y\""
  {
  }

  lemma {:induction false} TwoKeysText()
    ensures "status:true" + " " + "AND" + " (" + ("a:x" + (" " + "OR" + " " + "b:\"y\"")) + ")" == "status:true AND (a:x OR b:\"y\")"
  {
  }

  /** Two operator keys in one group: their terms are concatenated inside one
      pair of parentheses, the second joined by its own key's operator. */
  lemma {:induction false} TwoKeysConcatenate()
    ensures Compile([Group("and", [Entry("and", [Term("a", "x", "simple")]), Entry("or", [Term("b", "y", "match")])])])
         == "status:true AND (a:x OR b:\"y\")"
  {
    TwoKeysShape();
    OperatorSpellings();
    TwoKeysRender();
    TwoKeysText();
  }
}
