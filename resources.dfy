/**
  The request and response shaping of the learning-resources and
  vocabularies routes: the Solr query each request becomes, and the JSON
  envelope `format_resource` builds from a search response.
 */
module Resources {
  import opened Records
  import Facets
  import Filters
  import BoolQuery

  datatype Option<T> = None | Some(value: T)

  /** What the routes ask Solr for. `facet` is true when the request turns on
      faceting over `resources_facets`. */
  datatype SolrQuery = SolrQuery(q: string, rows: int, start: int, facet: bool)

  /** The GET branch: the filter chain over the query arguments and the row
      count from `limit`; the first row and faceting are left to Solr. */
  method LearningResourcesGet(args: Filters.Args) returns (query: SolrQuery)
    ensures query.q == Filters.ResourceFilter(args)
    ensures query.rows == Filters.Rows(args) && query.start == 0 && !query.facet
  {
    var q := Filters.BuildResourceFilter(args);
    query := SolrQuery(q, Filters.Rows(args), 0, false);
  }

  /** An already decoded POST body: the groups under "search", and the
      optional "limit" and "offset". */
  datatype PostBody = PostBody(search: seq<BoolQuery.Group>, limit: Option<int>, offset: Option<int>)

  /** The POST branch: the compiled groups (an empty list leaves the base
      filter), the limit and offset passed through as given or 10 and 0, and
      faceting turned on. */
  method LearningResourcesPost(body: PostBody) returns (query: SolrQuery)
    ensures query.q == BoolQuery.Compile(body.search)
    ensures query.rows == (if body.limit.Some? then body.limit.value else 10)
    ensures query.start == (if body.offset.Some? then body.offset.value else 0)
    ensures query.facet
  {
    var q := BoolQuery.BaseFilter;
    if |body.search| > 0 {
      q := BoolQuery.CompileSearch(body.search);
    } else {
      assert BoolQuery.GroupsText(body.search) == "";
    }
    var rows := if body.limit.Some? then body.limit.value else 10;
    var start := if body.offset.Some? then body.offset.value else 0;
    query := SolrQuery(q, rows, start, true);
  }

  /** A Solr response: the records in rank order, the facet lists when the
      response has "facet_fields", and the total number of hits. */
  datatype Response = Response(docs: seq<Record>, facetFields: Option<Facets.FacetFields>, hits: int)

  /** The envelope returned to the client. */
  datatype Envelope = Envelope(
    documentation: string,
    results: seq<Record>,
    facets: Facets.FacetTable,
    hitsTotal: int,
    hitsReturned: int)

  const DocumentationPath: string := "api/resources/documentation.html"

  /** What `format_resource` demands of a response: records it can fold and
      facet lists it can pair. */
  predicate Formattable(resp: Response)
  {
    && (forall i :: 0 <= i < |resp.docs| ==> Foldable(resp.docs[i]))
    && (resp.facetFields.Some? ==> Facets.AllWellFormed(resp.facetFields.value))
  }

  ghost function FacetsOf(resp: Response): Facets.FacetTable
    requires Formattable(resp)
  {
    if resp.facetFields.Some? then Facets.ResourceTable(resp.facetFields.value) else map[]
  }

  /** The envelope of a response, record by record. */
  ghost function Format(host: string, resp: Response): Envelope
    requires Formattable(resp)
  {
    Envelope(
      host + DocumentationPath,
      seq(|resp.docs|, i requires 0 <= i < |resp.docs| => Normalize(resp.docs[i])),
      FacetsOf(resp),
      resp.hits,
      |resp.docs|)
  }

  /** `format_resource`: normalise each record in turn, then aggregate the
      facets when the response has them. */
  method FormatResource(host: string, resp: Response) returns (env: Envelope)
    requires Formattable(resp)
    ensures env == Format(host, resp)
  {
    var results: seq<Record> := [];
    for i := 0 to |resp.docs|
      invariant |results| == i
      invariant forall j :: 0 <= j < i ==> results[j] == Normalize(resp.docs[j])
    {
      var result := NormalizeRecord(resp.docs[i]);
      results := results + [result];
    }
    var facets: Facets.FacetTable := map[];
    if resp.facetFields.Some? {
      facets := Facets.AggregateFacets(resp.facetFields.value);
    }
    env := Envelope(host + DocumentationPath, results, facets, resp.hits, |resp.docs|);
  }

  /** The envelope keeps the records in order, each normalised, counts them,
      and shows no internal or flattened field. */
  lemma {:induction false} EnvelopeRecords(host: string, resp: Response)
    requires Formattable(resp)
    ensures var e := Format(host, resp);
      && e.hitsReturned == |e.results| == |resp.docs|
      && e.hitsTotal == resp.hits
      && (forall i :: 0 <= i < |e.results| ==> e.results[i] == Normalize(resp.docs[i]))
      && (forall i, k :: 0 <= i < |e.results| && k in e.results[i] ==> !Internal(k) && k !in FlatKeys)
  {
  }

  /** Without "facet_fields" the facets object is empty; with it, it has one
      key per facet field, the name without "facet_", and only positive
      counts. */
  lemma {:induction false} EnvelopeFacets(host: string, resp: Response)
    requires Formattable(resp)
    ensures resp.facetFields.None? ==> Format(host, resp).facets == map[]
    ensures resp.facetFields.Some? ==>
      var t := Format(host, resp).facets;
      && (forall k :: k in t <==> exists j :: 0 <= j < |Facets.ResourcesFacets| && |Facets.ResourcesFacets[j]| >= 6 && k == Facets.ResourcesFacets[j][6..])
      && (forall k, v :: k in t && v in t[k] ==> t[k][v] > 0)
  {
    if resp.facetFields.Some? {
      Facets.FacetTableShape(resp.facetFields.value);
    }
  }

  /** The vocabularies envelope: the hits without their version field, the
      total and the number returned. */
  datatype VocabularyEnvelope = VocabularyEnvelope(
    documentation: string,
    results: seq<Record>,
    hits: int,
    hitsReturned: int)

  /** The loop of the vocabularies search branches: pop "_version_" from each
      hit and append it. */
  method VocabularyResults(documentation: string, docs: seq<Record>, hits: int) returns (env: VocabularyEnvelope)
    ensures env.documentation == documentation && env.hits == hits
    ensures env.hitsReturned == |env.results| == |docs|
    ensures forall i :: 0 <= i < |docs| ==> "_version_" !in env.results[i]
    ensures forall i, k :: 0 <= i < |docs| && k in docs[i] && k != "_version_" ==>
              k in env.results[i] && env.results[i][k] == docs[i][k]
    ensures forall i, k :: 0 <= i < |docs| && k in env.results[i] ==> k in docs[i]
  {
    var results: seq<Record> := [];
    for i := 0 to |docs|
      invariant |results| == i
      invariant forall j :: 0 <= j < i ==> results[j] == docs[j] - {"_version_"}
    {
      var result := docs[i] - {"_version_"};
      results := results + [result];
    }
    env := VocabularyEnvelope(documentation, results, hits, |docs|);
  }

  /** The names branch of the vocabularies route: the "name" of every
      taxonomy, in order. */
  method VocabularyNames(docs: seq<Record>) returns (names: seq<Value>)
    requires forall i :: 0 <= i < |docs| ==> "name" in docs[i]
    ensures |names| == |docs|
    ensures forall i :: 0 <= i < |docs| ==> names[i] == docs[i]["name"]
  {
    names := [];
    for i := 0 to |docs|
      invariant |names| == i
      invariant forall j :: 0 <= j < i ==> names[j] == docs[j]["name"]
    {
      names := names + [docs[i]["name"]];
    }
  }
}
