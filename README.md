# DMT Clearinghouse search API: query building and result shaping

The DMT Clearinghouse web service (`dmtclearinghouse.py`) puts an HTTP API in
front of a Solr index of learning resources and a second index of
vocabularies (taxonomies). This project models the part of it that turns a
request into a Solr query, and a Solr response into the JSON the client
receives. It then proves what that part promises.

- **Filter builder** (`Filters`). `append_searchstring` adds
  ` AND name:value` to a filter when the query-string parameter `name` is sent,
  is non-empty and holds no `:`. The learning-resources GET route applies it
  34 times, in a fixed order, to the seed `status:true`. `author` is among
  them twice. `limit` sets the number of rows when it is a run of digits;
  otherwise there are 10. The vocabularies route applies the same step to
  `name`, `values` and `id`, seeded with `*:*`. With `names=true` it lists
  only the taxonomy names instead.
- **Boolean query compiler** (`BoolQuery`). The learning-resources POST route
  compiles the JSON body's `search` list of groups into one filter string (see
  the notes on the compiler below).
- **Record normaliser** (`Records`). Each hit loses `_version_`, `status` and
  every `facet_…` field. The parallel lists `contributors.firstname` /
  `.lastname` / `.type` and `contributor_orgs.name` / `.type` are folded into
  lists of objects, and the flat lists are removed.
- **Facet aggregator** (`Facets`). For each of the 14 names in
  `resources_facets`, Solr's flat alternating value/count list is paired up.
  The pairs with positive counts are kept and filed under the name without
  `facet_`.
- **Routes** (`Resources`). This module holds the query each branch sends,
  `format_resource`'s envelope (documentation link, results, facets,
  `hits-total`, `hits-returned`) and the vocabularies envelopes.

The operations on strings with loops or per-call reassignment are methods
proved against specification functions:
- the GET chain (`BuildResourceFilter`);
- the POST compiler (`CompileSearch`, `AppendGroup`, `AppendTerms`,
  `AppendTerm`);
- the record pops and folds (`NormalizeRecord`, `PopInternal`,
  `FoldContributorList`, `FoldOrgList`);
- the facet loops (`AggregateFacets`, `TallyPairs`);
- the envelope loops (`FormatResource`, `VocabularyResults`,
  `VocabularyNames`).

The properties are lemmas about those functions.

### Behaviour of the compiler and the folds worth knowing

- **Joiner.** Inside a group, terms are joined by the upper-cased key whose
  list is being read (`key.upper()`, lines 351 and 356), not by the group's
  combinator (`JoinerComesFromKey`).
- **Several operator keys in one group.** Their clause lists are
  concatenated into the group's single pair of parentheses; none replaces
  another. They share one `qindex`, so the first term of a later key is
  joined to the last term of an earlier one (`KeysShareParentheses`,
  `TwoKeysConcatenate`).
- **A shorter sibling list.** When `contributors.lastname` (or another
  sibling list) is shorter than the list that drives its fold, the code indexes past its
  end and raises (lines 119-122 and 130-131). "The sibling lists are long
  enough" is therefore a precondition of the folds (`Records.SiblingFits`).

## Model

| member | source | states |
|---|---|---|
| Filters.AppendSearchString | dmtclearinghouse.py:31-52 | the clause " AND name:value" is appended exactly when the parameter is sent with a non-empty value free of ':'; otherwise the string is returned unchanged |
| Filters.ChainIsSeedAndPieces | dmtclearinghouse.py:284-319 | a chain of calls is its seed followed by the admitted clauses in call order; nothing else is ever added |
| Filters.PiecesAppend | dmtclearinghouse.py:284-319 | the text added by a call order split in two is the first part's text followed by the second's |
| Filters.RefusedContributesNothing | dmtclearinghouse.py:47-52 | a refused parameter (missing, empty or holding ':') contributes nothing wherever it stands in the call order |
| Filters.AcceptedAreAdmitted | dmtclearinghouse.py:284-319 | the accepted names are exactly the called names that are admitted, no more of them than there are calls |
| Filters.PiecesAreClauses | dmtclearinghouse.py:284-319 | the text a chain adds is the clauses of exactly the accepted names, in acceptance order, so the accepted names are what reaches the filter |
| Filters.AcceptedAppend | dmtclearinghouse.py:284-319 | the accepted names of a split call order are those of each part, in order |
| Filters.AcceptedCount | dmtclearinghouse.py:284-319 | an admitted name is accepted as many times as it is called; a refused one never |
| Filters.BuildResourceFilter | dmtclearinghouse.py:284-319 | the GET route's 34 reassignments compute the status:true seed followed by every admitted clause in call order |
| Filters.ResourceFieldsSplit | dmtclearinghouse.py:291-318 | "author" is called at the 6th and 33rd places and nowhere else |
| Filters.TwiceCounted | dmtclearinghouse.py:284-319 | in a call order that names n twice, an admitted n is accepted exactly twice |
| Filters.TwicePlaced | dmtclearinghouse.py:284-319 | those two clauses sit at their two call positions, between the other clauses |
| Filters.AuthorCounted | dmtclearinghouse.py:291-318 | an admitted author is accepted exactly twice by the GET chain, a refused one never; with `PiecesAreClauses` the author clause is two of the clauses forming the GET filter |
| Filters.AuthorPlaced | dmtclearinghouse.py:291-318 | an admitted author clause appears after the first five fields' clauses and again after the 32nd field's |
| Filters.RowsOfDecimal | dmtclearinghouse.py:321-324 | a limit written in decimal gives exactly that many rows |
| Filters.RowsDefault | dmtclearinghouse.py:321-324 | a missing or non-numeric limit gives 10 rows |
| Filters.TitleFirstAndOnly | dmtclearinghouse.py:286-319 | "title" is the first name called and is called nowhere else |
| Filters.LimitIsNoFilterName | dmtclearinghouse.py:284-319 | "limit" is not one of the names the GET chain applies |
| Filters.OnlyFirstSent | dmtclearinghouse.py:284-319 | when no later name is sent, only the first name can reach the filter |
| Filters.OnlyTitleSent | dmtclearinghouse.py:284-319 | when "title" is the only GET filter name sent, the GET filter is the seed plus at most the title clause |
| Filters.TitleExample | dmtclearinghouse.py:284-325 | ?title=DataONE&limit=5 searches "status:true AND title:DataONE" with 5 rows |
| Filters.NoneAdmitted | dmtclearinghouse.py:31-52 | a chain over names none of which is admitted adds nothing |
| Filters.VocabularyChain | dmtclearinghouse.py:524-526 | the vocabularies route's three calls are the chain over name, values, id |
| Filters.VocabularyRequest | dmtclearinghouse.py:514-526 | names=true (with some parameter sent) lists names, and that is the only way to get the list; otherwise the search is "*:*" followed by the admitted name/values/id clauses |
| Text.DecimalRoundTrip | dmtclearinghouse.py:322-324 | the decimal rendering of n is numeric and reads back as n |
| BoolQuery.CompileSearch | dmtclearinghouse.py:338-359 | the loop over the groups computes the status:true filter followed by each group's text in order |
| BoolQuery.AppendGroup | dmtclearinghouse.py:343-359 | one group appends " COMB (" body ")" exactly when its combinator upper-cases to AND, OR or NOT, and nothing otherwise |
| BoolQuery.AppendTerms | dmtclearinghouse.py:348-358 | the loop over one key's terms extends the group body by that key's emissions, and the counter equals the number of emissions so far |
| BoolQuery.AppendTerm | dmtclearinghouse.py:349-358 | a simple or match term is written, preceded by " KEY " unless the counter is zero, and the counter grows by one; any other type changes nothing |
| BoolQuery.TermStep | dmtclearinghouse.py:349-358 | writing one term as the loop does extends the body by exactly that term's emission |
| BoolQuery.EmitStep | dmtclearinghouse.py:350-358 | writing an emission after others, joiner only when some came before, is the body of the longer list |
| BoolQuery.BodyIsFirstThenJoined | dmtclearinghouse.py:345-359 | a group body is its first term alone followed by every later term preceded by its joiner (against the independent front-to-back reading `Joined`) |
| BoolQuery.JoinedAppend | dmtclearinghouse.py:346-358 | the front-to-back reading distributes over concatenation |
| BoolQuery.BodyAppend | dmtclearinghouse.py:346-358 | a body over two runs of emissions is the first run's body followed by every term of the second, each with its joiner |
| BoolQuery.KeyEmissionsAppend | dmtclearinghouse.py:348-358 | a key's emissions over split terms are the parts' emissions in order |
| BoolQuery.UnknownTermSkipped | dmtclearinghouse.py:349-358 | a term whose type is neither simple nor match has no effect, not even on the counter |
| BoolQuery.AllTermsEmitted | dmtclearinghouse.py:348-358 | when all terms are simple or match, there is one emission per term, in order, rendered and joined by the upper-cased key |
| BoolQuery.GroupEmissionsAppend | dmtclearinghouse.py:346-358 | a group's emissions over split keys are the parts' emissions in order |
| BoolQuery.NonOperatorKeyIgnored | dmtclearinghouse.py:347 | a key that does not upper-case to an operator contributes nothing |
| BoolQuery.GroupKeyIsNotOperator | dmtclearinghouse.py:346-347 | the "group" key itself, met in the key loop, is never read as a clause list |
| BoolQuery.KeysShareParentheses | dmtclearinghouse.py:343-359 | clause lists under several operator keys are concatenated in one pair of parentheses, with the counter carried over |
| BoolQuery.GroupsTextAppend | dmtclearinghouse.py:342-359 | the text of a split group list is the parts' texts in order |
| BoolQuery.CompileAppend | dmtclearinghouse.py:338-359 | each further group only appends to the query compiled so far |
| BoolQuery.RecognisedGroupWrapped | dmtclearinghouse.py:344-359 | a recognised group appends " COMB (" body ")" with the upper-cased combinator |
| BoolQuery.UnrecognisedGroupDropped | dmtclearinghouse.py:344 | a group with any other combinator contributes nothing, wherever it stands |
| BoolQuery.SingleGroup | dmtclearinghouse.py:338-359 | one recognised group compiles to the base filter and its parenthesised body |
| BoolQuery.SingleKeyGroup | dmtclearinghouse.py:346-358 | a group with one operator key emits that key's terms |
| BoolQuery.OneTermGroup | dmtclearinghouse.py:344-359 | a group with one term compiles to "status:true COMB (field:value)" |
| BoolQuery.TwoTermGroup | dmtclearinghouse.py:344-359 | two terms under key k are joined by " K " inside the parentheses |
| BoolQuery.TwoKeyGroup | dmtclearinghouse.py:344-359 | one term under each of two keys: the second is joined by its own key, in the same parentheses |
| BoolQuery.OperatorSpellings | dmtclearinghouse.py:344-347 | lower-case "and" and "or" are recognised as AND and OR |
| BoolQuery.DocumentedExample | dmtclearinghouse.py:271 | the documented POST body compiles to status:true AND (keywords:"Data archiving") |
| BoolQuery.JoinerComesFromKey | dmtclearinghouse.py:351 | an "or" group whose terms sit under "and" is joined by AND: status:true OR (a:x AND b:y) |
| BoolQuery.TwoKeysConcatenate | dmtclearinghouse.py:343-359 | "and" and "or" keys in one group give status:true AND (a:x OR b:"y") |
| Records.StripIdempotent | dmtclearinghouse.py:106-111 | stripping twice is stripping once, and stripping leaves a record unchanged exactly when it has no internal field |
| Records.PopInternal | dmtclearinghouse.py:106-111 | the two pops and the pass over a snapshot of the keys compute `Strip` |
| Records.FoldContributors | dmtclearinghouse.py:113-123 | the contributor fold changes no field but "contributors" |
| Records.FoldContributorList | dmtclearinghouse.py:113-123 | the loop appending one contributor per index computes the fold |
| Records.FoldOrgs | dmtclearinghouse.py:124-133 | the organisation fold changes no field but "contributor_orgs" |
| Records.FoldOrgList | dmtclearinghouse.py:124-133 | the loop appending one organisation per index computes the fold |
| Records.Normalize | dmtclearinghouse.py:104-138 | no field of a normalised record is internal or one of the five flat lists |
| Records.NormalizeRecord | dmtclearinghouse.py:104-138 | the per-record statements compute `Normalize` |
| Records.OtherFieldsKept | dmtclearinghouse.py:104-138 | every field neither internal, flat nor folded into reaches the client unchanged, and the result has no other fields |
| Records.ContributorsFolded | dmtclearinghouse.py:113-123 | "contributors" holds one object per first name; object i has first name i, and has last name i or type i exactly when that list is present |
| Records.OrgsFolded | dmtclearinghouse.py:124-133 | "contributor_orgs" holds one object per name; object i has name i, and has type i exactly when the types are present |
| Records.NothingToFold | dmtclearinghouse.py:104-138 | a record without flat lists only loses its internal fields |
| Records.NormalizeIdempotent | dmtclearinghouse.py:104-138 | normalising a normalised record changes nothing |
| Facets.EvensOddsInterleave | dmtclearinghouse.py:145 | `[0::2]` and `[1::2]` together hold every element once: interleaving them gives the list back |
| Facets.Pairs | dmtclearinghouse.py:145 | the zip pairs value 2i with count 2i+1, dropping an odd element at the end |
| Facets.TallyPairs | dmtclearinghouse.py:144-147 | the loop over one field's pairs computes `Tallies` |
| Facets.TalliesContents | dmtclearinghouse.py:144-147 | only positive counts are stored, and a value is stored exactly when some pair with a positive count carries it |
| Facets.LastPairWins | dmtclearinghouse.py:146-147 | a value's count is that of the last pair storing it |
| Facets.AggregateFacets | dmtclearinghouse.py:141-149 | the loop over resources_facets computes the facet table |
| Facets.TableKeys | dmtclearinghouse.py:142-149 | the table has a key exactly for each name with "facet_" removed |
| Facets.TableLookup | dmtclearinghouse.py:142-149 | with distinct keys, name j's key holds field j's object |
| Facets.TableCountsPositive | dmtclearinghouse.py:146-147 | no count in the table is zero or negative |
| Facets.FacetNamesPrefixed | dmtclearinghouse.py:15 | every facet name starts with "facet_" |
| Facets.FacetTailsHaveNoFa | dmtclearinghouse.py:15 | no facet name has "fa" after its prefix, so `replace` only removes the prefix |
| Facets.FacetNamesDistinct | dmtclearinghouse.py:15 | the 14 facet names are distinct |
| Facets.PrefixedTable | dmtclearinghouse.py:141-149 | over distinct prefixed names, one key per name (the name without "facet_") holds that field's object |
| Facets.FacetTableShape | dmtclearinghouse.py:141-149 | the facets object has exactly one key per facet field; it holds the field's positive counts, and is empty when the field is not reported |
| Text.StripFacetName | dmtclearinghouse.py:149 | replace("facet_", "") on a prefixed name with no later occurrence removes exactly the prefix |
| Text.RemoveAbsent | dmtclearinghouse.py:149 | removing an absent pattern leaves the string unchanged |
| Resources.LearningResourcesGet | dmtclearinghouse.py:284-325 | the GET query is the filter chain with the rows from limit, start 0, no faceting requested |
| Resources.LearningResourcesPost | dmtclearinghouse.py:331-375 | the POST query is the compiled groups, limit or 10 rows, offset or 0 start, faceting on |
| Resources.FormatResource | dmtclearinghouse.py:101-152 | the envelope is the documentation link, each record normalised in order, the facet table when facet fields are present, the hit total and the count returned |
| Resources.EnvelopeRecords | dmtclearinghouse.py:103-151 | records keep their order and are counted; none shows an internal or flat field |
| Resources.EnvelopeFacets | dmtclearinghouse.py:141-149 | without facet fields the facets object is empty; with them it has one key per facet field without "facet_", and only positive counts |
| Resources.VocabularyResults | dmtclearinghouse.py:528-543 | each hit, in order, loses only "_version_"; hits and the count returned are reported |
| Resources.VocabularyNames | dmtclearinghouse.py:519-522 | the names list holds every taxonomy's "name", in order |

## Left out

- The Flask application, the pysolr client, login and authorisation, user
  management, the PUT and DELETE routes, documentation rendering and the
  `allowed_documents` check. These are I/O and framework code. Solr's own
  searching is outside the model: a response is an input.
- The request itself is an input. It is modelled as a map from parameter name
  to the first value sent (`request.args.get`). Repeated parameters beyond the
  first are not modelled.
- `request.host_url` is a parameter (`host`) of `Resources.FormatResource`.
  The vocabularies documentation strings are a parameter of
  `Resources.VocabularyResults`.
- `print` calls are left out.
- Rendering the envelope as JSON is left out, and so is dictionary key order
  on output.
- `Text.Upper`: only ASCII letters are upper-cased. Python's `str.upper` also
  maps other scripts, and does so differently for some characters (for
  example `ß` becomes `SS`). A non-ASCII key that Python would map to AND, OR
  or NOT is not recognised here.
- `Text.IsNumeric`: only ASCII digits count. Python's `isnumeric` also
  accepts other Unicode numerals and digits.
- Resources.LearningResourcesPost: the JSON body is taken as already decoded
  into groups of terms, and `limit` and `offset` are integers passed through.
  The following are not modelled:
  - the `json not found` reply to a non-JSON body;
  - the errors the source raises when a group lacks "group", a term lacks
    "type", "field" or "string", or "search" is missing;
  - non-integer `limit`/`offset` values, which the source hands to Solr
    as they are.
- Records.Normalize: field values are strings, lists of strings or null.
  In the contributor fold, `contributors.firstname` must be a list or null.
  A null or empty list folds to `[]`, because the loop is guarded (line 115).
  Each sibling list must be a list at least as long as the list that drives
  its fold. The source's behaviour on a string value, where it indexes
  characters, and its exception on a shorter sibling are not modelled.
- Records.OrgsFoldable: `contributor_orgs.name`, when present, must be a
  list. The source takes `len` of it unguarded (line 126) and raises on
  null, unlike the contributor fold. That error is not modelled.
- Facets.WellFormed: facet lists must alternate a string label and an
  integer count. Python's comparison of other kinds of counts is not
  modelled.
- Resources.VocabularyNames requires every hit to have a "name"; the source
  raises there otherwise.
- The model works on values. `format_resource` mutates the pysolr result
  dictionaries in place; aliasing between the response and the envelope is
  not modelled.
- The GET branch does not pass `start` or facet parameters to Solr. The
  model records Solr's defaults of start 0 and no faceting. With no
  `facet_fields` in the response, the facets object stays empty.
