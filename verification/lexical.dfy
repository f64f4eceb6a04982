/** The lexical search client of src/services/opensearch.service.ts: how the
    request bodies are built and how the engine's answers are mapped. The engine
    itself (relevance scoring, fuzziness, analyzers) is an oracle passed in as a
    function from request body to answer. */
module Lexical {
  import opened Wrappers
  import opened Catalog
  import Seqs

  const IndexName: string := "products"

  /** `config.search.maxResults`. */
  const MaxResults: nat := 50

  /** Size of a suggestion request. */
  const SuggestionSize: nat := 10

  /** Fields of the fuzzy text clause, with their boosts. */
  const TextFields: seq<string> := ["name^3", "description^2", "tags.text", "category.text", "brand"]

  /** Boost of the exact article-number and EAN clauses. */
  const CodeBoost: nat := 5

  /** A failed engine call; `statusCode` is absent when no HTTP answer arrived. */
  datatype EngineFailure = EngineFailure(statusCode: Option<int>)

  /** A clause's text is `None` when `search` was handed `undefined`: the key
      is then dropped from the serialised body. */
  datatype Clause =
    | MultiMatch(query: Option<string>, fields: seq<string>, matchType: string, operator: string, fuzziness: string)
    | Match(field: string, query: Option<string>, boost: nat)

  datatype TermValue = KeywordValue(keyword: string) | BoolValue(flag: bool)

  datatype FilterClause =
    | Term(field: string, value: TermValue)
    | Range(field: string, gte: real, lte: real)

  /** The body of a search request: `size`, the `bool` query's `should`,
      `minimum_should_match` and optional `filter` lists, and the highlighted fields. */
  datatype QueryBody = QueryBody(
    size: nat,
    should: seq<Clause>,
    minimumShouldMatch: nat,
    filter: Option<seq<FilterClause>>,
    highlightFields: seq<string>)

  /** The fixed disjunction: fuzzy text over the weighted fields, or an exact
      article number, or an exact EAN. */
  function ShouldClauses(query: Option<string>): (r: seq<Clause>)
    ensures |r| == 3
    ensures forall c | c in r :: c.query == query
    ensures r[0].MultiMatch? && r[0].fields == TextFields && r[0].fuzziness == "AUTO"
    ensures r[1] == Match("articleNumber", query, CodeBoost)
    ensures r[2] == Match("ean", query, CodeBoost)
  {
    [ MultiMatch(query, TextFields, "best_fields", "or", "AUTO"),
      Match("articleNumber", query, CodeBoost),
      Match("ean", query, CodeBoost) ]
  }

  /** Position of a clause kind in the filter list. */
  function Rank(c: FilterClause): nat {
    match c
    case Term(field, _) => if field == "category" then 0 else 1
    case Range(_, _, _) => 2
  }

  /** `c` is the clause one of the filter object's fields asks for. */
  predicate Requested(fs: Filters, c: FilterClause) {
    || (HasCategory(Some(fs)) && c == Term("category", KeywordValue(CategoryOf(fs).value)))
    || (InStockOf(fs).Some? && c == Term("inStock", BoolValue(InStockOf(fs).value)))
    || (PriceRangeOf(fs).Some? && c == Range("price", PriceRangeOf(fs).value.0, PriceRangeOf(fs).value.1))
  }

  /** The filter clauses for a filter object: a category term when the category
      is truthy, a stock term whenever `inStock` is defined (false included), and
      an inclusive price range when a range is given, in that order, and no
      other clause. */
  function FilterClauses(fs: Filters): (r: seq<FilterClause>)
    ensures HasCategory(Some(fs)) ==> Term("category", KeywordValue(CategoryOf(fs).value)) in r
    ensures InStockOf(fs).Some? ==> Term("inStock", BoolValue(InStockOf(fs).value)) in r
    ensures PriceRangeOf(fs).Some? ==>
      Range("price", PriceRangeOf(fs).value.0, PriceRangeOf(fs).value.1) in r
    ensures forall c | c in r :: Requested(fs, c)
    ensures forall i, j | 0 <= i < j < |r| :: Rank(r[i]) < Rank(r[j])
  {
    var category := if HasCategory(Some(fs)) then [Term("category", KeywordValue(CategoryOf(fs).value))] else [];
    var stock := match InStockOf(fs)
      case Some(b) => [Term("inStock", BoolValue(b))]
      case None => [];
    var price := match PriceRangeOf(fs)
      case Some(range) => [Range("price", range.0, range.1)]
      case None => [];
    RanksIncrease(category, stock, price);
    category + stock + price
  }

  /** Three parts of at most one clause each, of ranks 0, 1 and 2, concatenate
      to a list ordered by rank. */
  lemma RanksIncrease(a: seq<FilterClause>, b: seq<FilterClause>, c: seq<FilterClause>)
    requires |a| <= 1 && |b| <= 1 && |c| <= 1
    requires forall x | x in a :: Rank(x) == 0
    requires forall x | x in b :: Rank(x) == 1
    requires forall x | x in c :: Rank(x) == 2
    ensures forall i, j | 0 <= i < j < |a + b + c| :: Rank((a + b + c)[i]) < Rank((a + b + c)[j])
  {
    var r := a + b + c;
    forall k | 0 <= k < |r|
      ensures Rank(r[k]) == if k < |a| then 0 else if k < |a| + |b| then 1 else 2
    {
      if k < |a| {
        assert r[k] == a[k];
      } else if k < |a| + |b| {
        assert r[k] == b[k - |a|];
      } else {
        assert r[k] == c[k - |a| - |b|];
      }
    }
  }

  /** The search request body for a query text and optional filters. */
  function BuildQuery(query: Option<string>, filters: Option<Filters>): (body: QueryBody)
    ensures body.size == MaxResults
    ensures body.should == ShouldClauses(query)
    ensures body.minimumShouldMatch == 1
    ensures filters.None? ==> body.filter.None?
    ensures filters.Some? ==> body.filter == Some(FilterClauses(filters.value))
  {
    QueryBody(
      MaxResults,
      ShouldClauses(query),
      1,
      match filters case Some(fs) => Some(FilterClauses(fs)) case None => None,
      ["name", "description"])
  }

  // ---------------------------------------------------------------------------
  // What the filter clauses mean for a document: the engine's `term` is an exact
  // match on a keyword field, `range` with `gte`/`lte` includes both ends, and a
  // document must satisfy every clause of the filter list.
  // ---------------------------------------------------------------------------

  function DocumentField(p: Product, field: string): Option<TermValue> {
    if field == "category" then Some(KeywordValue(p.category))
    else if field == "inStock" then Some(BoolValue(p.inStock))
    else if field == "brand" then Some(KeywordValue(p.brand))
    else if field == "articleNumber" then Some(KeywordValue(p.articleNumber))
    else None
  }

  predicate ClauseAdmits(c: FilterClause, p: Product) {
    match c
    case Term(field, v) => DocumentField(p, field) == Some(v)
    case Range(field, lo, hi) => field == "price" && lo <= p.price <= hi
  }

  predicate ClausesAdmit(cs: seq<FilterClause>, p: Product) {
    forall i | 0 <= i < |cs| :: ClauseAdmits(cs[i], p)
  }

  /** What a filter object asks for, read field by field: absent fields (and an
      empty category) impose nothing. */
  predicate FiltersAdmit(fs: Filters, p: Product) {
    && (HasCategory(Some(fs)) ==> p.category == CategoryOf(fs).value)
    && (InStockOf(fs).Some? ==> p.inStock == InStockOf(fs).value)
    && (PriceRangeOf(fs).Some? ==> PriceRangeOf(fs).value.0 <= p.price <= PriceRangeOf(fs).value.1)
  }

  /** The emitted clauses restrict the results exactly as the filter object
      says: each present field is an AND-ed restriction, absent fields none. */
  lemma FilterClausesMeanFilters(fs: Filters, p: Product)
    ensures ClausesAdmit(FilterClauses(fs), p) <==> FiltersAdmit(fs, p)
  {
    var r := FilterClauses(fs);
    if ClausesAdmit(r, p) {
      if HasCategory(Some(fs)) {
        MemberAdmits(r, Term("category", KeywordValue(CategoryOf(fs).value)), p);
      }
      if InStockOf(fs).Some? {
        MemberAdmits(r, Term("inStock", BoolValue(InStockOf(fs).value)), p);
      }
      if PriceRangeOf(fs).Some? {
        MemberAdmits(r, Range("price", PriceRangeOf(fs).value.0, PriceRangeOf(fs).value.1), p);
      }
    }
    if FiltersAdmit(fs, p) {
      forall i | 0 <= i < |r|
        ensures ClauseAdmits(r[i], p)
      {
        assert Requested(fs, r[i]);
      }
    }
  }

  /** A list of clauses admits a document only if each of its clauses does. */
  lemma MemberAdmits(cs: seq<FilterClause>, c: FilterClause, p: Product)
    requires ClausesAdmit(cs, p) && c in cs
    ensures ClauseAdmits(c, p)
  {
    var i :| 0 <= i < |cs| && cs[i] == c;
  }

  // ---------------------------------------------------------------------------
  // search
  // ---------------------------------------------------------------------------

  datatype RawHit = RawHit(id: string, source: Product, score: real, highlight: Option<Highlight>)

  /** The engine's answer to a search: `hits.hits`, `hits.total.value`, `took`. */
  datatype EngineResponse = EngineResponse(hits: seq<RawHit>, total: nat, took: nat)

  /** Each hit becomes its source document plus `_score` and `_highlight`, in
      the engine's order. */
  function MapResponse(response: EngineResponse): (r: SearchResult)
    ensures |r.products| == |response.hits|
    ensures forall i | 0 <= i < |r.products| ::
      r.products[i] == Hit(response.hits[i].source, response.hits[i].score, response.hits[i].highlight)
    ensures r.total == response.total && r.took == response.took
  {
    SearchResult(
      seq(|response.hits|, i requires 0 <= i < |response.hits| =>
        Hit(response.hits[i].source, response.hits[i].score, response.hits[i].highlight)),
      response.total,
      response.took)
  }

  /** `search`: one engine call with the built body; an engine failure is
      passed on to the caller, and an answer is mapped hit by hit. */
  function Search(query: Option<string>, filters: Option<Filters>, engine: QueryBody -> Result<EngineResponse, EngineFailure>): (r: Result<SearchResult, EngineFailure>)
    ensures engine(BuildQuery(query, filters)).Failure? ==> r == Failure(engine(BuildQuery(query, filters)).error)
    ensures engine(BuildQuery(query, filters)).Success? ==>
      var response := engine(BuildQuery(query, filters)).value;
      && r.Success?
      && |r.value.products| == |response.hits|
      && (forall i | 0 <= i < |response.hits| ::
            r.value.products[i].source == response.hits[i].source
            && r.value.products[i].score == response.hits[i].score
            && r.value.products[i].highlight == response.hits[i].highlight)
      && r.value.total == response.total
      && r.value.took == response.took
  {
    match engine(BuildQuery(query, filters))
    case Failure(e) => Failure(e)
    case Success(response) => Success(MapResponse(response))
  }

  // ---------------------------------------------------------------------------
  // getSuggestions, getProductById, bulkIndexProducts
  // ---------------------------------------------------------------------------

  /** A phrase-prefix query over product names returning only the `name` field. */
  datatype SuggestBody = SuggestBody(size: nat, sourceFields: seq<string>, prefix: string, maxExpansions: nat)

  function SuggestRequest(prefix: string): SuggestBody {
    SuggestBody(SuggestionSize, ["name"], prefix, 10)
  }

  /** `getSuggestions`. `matches` answers a suggestion request with the names
      of all matching products, best first; the engine returns at most `size`
      of them. Duplicates are removed keeping first occurrences. */
  function GetSuggestions(prefix: string, matches: SuggestBody -> Result<seq<string>, EngineFailure>): (r: Result<seq<string>, EngineFailure>)
    ensures matches(SuggestRequest(prefix)).Failure? <==> r.Failure?
    ensures r.Failure? ==> r.error == matches(SuggestRequest(prefix)).error
    ensures r.Success? ==>
      var returned := Seqs.Take(matches(SuggestRequest(prefix)).value, SuggestionSize);
      && |r.value| <= SuggestionSize
      && Seqs.Distinct(r.value)
      && (forall n :: n in r.value <==> n in returned)
      && (forall i, j | 0 <= i < j < |r.value| ::
            Seqs.FirstIndex(returned, r.value[i]) < Seqs.FirstIndex(returned, r.value[j]))
  {
    var body := SuggestRequest(prefix);
    match matches(body)
    case Failure(e) => Failure(e)
    case Success(names) =>
      var returned := Seqs.Take(names, body.size);
      Seqs.DedupIsFirstOccurrences(returned);
      Success(Seqs.Dedup(returned))
  }

  /** `getProductById`: a 404 answer means "no such product"; every other
      failure is passed on. */
  function GetProductById(id: string, fetch: string -> Result<Product, EngineFailure>): (r: Result<Option<Product>, EngineFailure>)
    ensures fetch(id).Success? ==> r == Success(Some(fetch(id).value))
    ensures fetch(id).Failure? && fetch(id).error.statusCode == Some(404) ==> r == Success(None)
    ensures fetch(id).Failure? && fetch(id).error.statusCode != Some(404) ==> r == Failure(fetch(id).error)
  {
    match fetch(id)
    case Success(p) => Success(Some(p))
    case Failure(e) => if e.statusCode == Some(404) then Success(None) else Failure(e)
  }

  /** One element of a bulk request body. */
  datatype BulkOp = IndexAction(index: string, id: string) | Document(product: Product)

  /** The operation list of `bulkIndexProducts`: an index action naming the
      product's id, then the product itself, for every product in order. */
  function BulkOperations(products: seq<Product>): (ops: seq<BulkOp>)
    ensures |ops| == 2 * |products|
    ensures forall i | 0 <= i < |products| ::
      ops[2 * i] == IndexAction(IndexName, products[i].id) && ops[2 * i + 1] == Document(products[i])
    decreases |products|
  {
    if |products| == 0 then []
    else
      var rest := BulkOperations(products[1..]);
      var ops := [IndexAction(IndexName, products[0].id), Document(products[0])] + rest;
      BulkStep(products, rest, ops);
      ops
  }

  /** Prepending one product's pair keeps every later pair at its position. */
  lemma BulkStep(products: seq<Product>, rest: seq<BulkOp>, ops: seq<BulkOp>)
    requires |products| > 0
    requires |rest| == 2 * (|products| - 1)
    requires forall i | 0 <= i < |products| - 1 ::
      rest[2 * i] == IndexAction(IndexName, products[1..][i].id) && rest[2 * i + 1] == Document(products[1..][i])
    requires ops == [IndexAction(IndexName, products[0].id), Document(products[0])] + rest
    ensures forall i | 0 <= i < |products| ::
      ops[2 * i] == IndexAction(IndexName, products[i].id) && ops[2 * i + 1] == Document(products[i])
  {
    forall i | 0 <= i < |products|
      ensures ops[2 * i] == IndexAction(IndexName, products[i].id) && ops[2 * i + 1] == Document(products[i])
    {
      if i > 0 {
        assert ops[2 * i] == rest[2 * (i - 1)];
        assert ops[2 * i + 1] == rest[2 * (i - 1) + 1];
        assert products[i] == products[1..][i - 1];
      }
    }
  }

  /** The documents a bulk body carries, in order. */
  function Documents(ops: seq<BulkOp>): seq<Product>
    decreases |ops|
  {
    if |ops| == 0 then []
    else (match ops[0] case Document(p) => [p] case IndexAction(_, _) => []) + Documents(ops[1..])
  }

  /** Every product is indexed once, in order, and under its own id. */
  lemma {:induction false} BulkIndexesEveryProduct(products: seq<Product>)
    ensures Documents(BulkOperations(products)) == products
    ensures forall i | 0 <= i < |products| :: BulkOperations(products)[2 * i].id == products[i].id
    decreases |products|
  {
    if |products| > 0 {
      BulkIndexesEveryProduct(products[1..]);
      var ops := BulkOperations(products);
      assert ops[2..] == BulkOperations(products[1..]);
      assert ops[1..][1..] == ops[2..];
      assert products == [products[0]] + products[1..];
    }
  }
}
