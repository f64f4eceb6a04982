/** The request handling of src/controllers/search.controller.ts: the query-string
    schema and its transforms, the filter object and options handed to the
    search service, and the mapping of outcomes to HTTP statuses. Query-string
    values are strings or absent; `parseFloat` is a parameter. */
module SearchController {
  import opened Wrappers
  import opened Catalog
  import Lexical
  import SearchService

  const MaxQueryLength: nat := 200
  const MaxPrefixLength: nat := 50

  /** The upper price bound used when none (or a falsy one) is given. */
  const DefaultMaxPrice: real := 999999.0

  /** The first code point JavaScript stores as two UTF-16 code units. */
  const FirstAstral: int := 0x1_0000

  /** The `length` JavaScript reports for a string, which is what the schema's
      bounds compare: one UTF-16 code unit per character of the Basic
      Multilingual Plane and two (a surrogate pair) per character beyond it. */
  function Utf16Length(s: string): (n: nat)
    ensures |s| <= n <= 2 * |s|
    decreases |s|
  {
    if |s| == 0 then 0
    else (if s[0] as int >= FirstAstral then 2 else 1) + Utf16Length(s[1..])
  }

  /** Without characters beyond the Basic Multilingual Plane the JavaScript
      length is the number of characters. */
  lemma {:induction false} Utf16LengthOfPlaneZero(s: string)
    requires forall i | 0 <= i < |s| :: s[i] as int < FirstAstral
    ensures Utf16Length(s) == |s|
    decreases |s|
  {
    if |s| > 0 {
      Utf16LengthOfPlaneZero(s[1..]);
    }
  }

  /** A string made only of characters beyond the Basic Multilingual Plane has
      twice as many code units as characters. */
  lemma {:induction false} Utf16LengthOfAstral(s: string)
    requires forall i | 0 <= i < |s| :: s[i] as int >= FirstAstral
    ensures Utf16Length(s) == 2 * |s|
    decreases |s|
  {
    if |s| > 0 {
      Utf16LengthOfAstral(s[1..]);
    }
  }

  /** What `parseFloat` returns: a number, or NaN for text it cannot read. */
  datatype JsNumber = NaN | Num(value: real)

  /** JavaScript truthiness of a parsed price: NaN and zero are falsy. */
  predicate Truthy(n: JsNumber) {
    n.Num? && n.value != 0.0
  }

  /** A price bound, or the fallback when the bound is missing, zero or NaN. */
  function OrElse(price: Option<JsNumber>, fallback: real): (r: real)
    ensures price.Some? && Truthy(price.value) ==> r == price.value.value
    ensures !(price.Some? && Truthy(price.value)) ==> r == fallback
  {
    match price
    case Some(Num(v)) => if v != 0.0 then v else fallback
    case _ => fallback
  }

  /** `req.query` as far as the schema looks at it. */
  datatype QueryParams = QueryParams(
    q: Option<string>,
    category: Option<string>,
    inStock: Option<string>,
    minPrice: Option<string>,
    maxPrice: Option<string>,
    useAI: Option<string>,
    noCache: Option<string>)

  /** The output of the search schema. */
  datatype ParsedQuery = ParsedQuery(
    q: string,
    category: Option<string>,
    inStock: bool,
    minPrice: Option<JsNumber>,
    maxPrice: Option<JsNumber>,
    useAI: bool,
    noCache: bool)

  /** The schema rejected the parameters. */
  datatype ValidationError = ValidationError

  /** A price parameter: absent or empty text gives no number, anything else
      is handed to `parseFloat`. */
  function ParsePrice(val: Option<string>, parseFloat: string -> JsNumber): (r: Option<JsNumber>)
    ensures r.Some? <==> val.Some? && val.value != ""
    ensures r.Some? ==> r.value == parseFloat(val.value)
  {
    match val
    case Some(s) => if s != "" then Some(parseFloat(s)) else None
    case None => None
  }

  /** `searchQuerySchema.parse`: only `q` can be rejected; the other fields are
      optional strings with transforms. */
  function ParseSearchQuery(params: QueryParams, parseFloat: string -> JsNumber): (r: Result<ParsedQuery, ValidationError>)
    ensures r.Success? <==> params.q.Some? && 1 <= Utf16Length(params.q.value) <= MaxQueryLength
    ensures r.Success? ==>
      && r.value.q == params.q.value
      && r.value.category == params.category
      && (r.value.inStock <==> params.inStock == Some("true"))
      && r.value.minPrice == ParsePrice(params.minPrice, parseFloat)
      && r.value.maxPrice == ParsePrice(params.maxPrice, parseFloat)
      && (r.value.useAI <==> params.useAI.None? || params.useAI == Some("true"))
      && (r.value.noCache <==> params.noCache == Some("true"))
  {
    match params.q
    case None => Failure(ValidationError)
    case Some(q) =>
      if Utf16Length(q) < 1 || Utf16Length(q) > MaxQueryLength then Failure(ValidationError)
      else
        Success(ParsedQuery(
          q,
          params.category,
          params.inStock == Some("true"),
          ParsePrice(params.minPrice, parseFloat),
          ParsePrice(params.maxPrice, parseFloat),
          params.useAI.GetOr("true") == "true",
          params.noCache.GetOr("false") == "true"))
  }

  /** The bound counts code units, not characters: 101 emoji are only 101
      characters but 202 code units, so the schema rejects them, while 200
      plain letters pass. */
  lemma LengthBoundCountsCodeUnits(parseFloat: string -> JsNumber)
    ensures var emoji := seq(101, _ => '\U{1F600}');
      ParseSearchQuery(QueryParams(Some(emoji), None, None, None, None, None, None), parseFloat).Failure?
    ensures var letters := seq(200, _ => 'a');
      ParseSearchQuery(QueryParams(Some(letters), None, None, None, None, None, None), parseFloat).Success?
  {
    Utf16LengthOfAstral(seq(101, _ => '\U{1F600}'));
    Utf16LengthOfPlaneZero(seq(200, _ => 'a'));
  }

  /** Position of a field in the object the controller builds. */
  function FieldRank(f: FilterField): nat {
    match f
    case CategoryField(_) => 0
    case InStockField(_) => 1
    case PriceRangeField(_, _) => 2
  }

  /** The filter object: a category when one was given non-empty, the stock flag
      always, and a price range when either bound was given, in that order; a
      missing or falsy bound becomes 0 or 999999. */
  function BuildFilters(parsed: ParsedQuery): (f: Filters)
    ensures CategoryOf(f).Some? <==> parsed.category.Some? && parsed.category.value != ""
    ensures CategoryOf(f).Some? ==> CategoryOf(f) == parsed.category
    ensures InStockOf(f) == Some(parsed.inStock)
    ensures PriceRangeOf(f).Some? <==> parsed.minPrice.Some? || parsed.maxPrice.Some?
    ensures PriceRangeOf(f).Some? ==>
      PriceRangeOf(f).value == (OrElse(parsed.minPrice, 0.0), OrElse(parsed.maxPrice, DefaultMaxPrice))
    ensures forall i, j | 0 <= i < j < |f| :: FieldRank(f[i]) < FieldRank(f[j])
  {
    var stock := InStockField(parsed.inStock);
    var hasCategory := parsed.category.Some? && parsed.category.value != "";
    var hasPrice := parsed.minPrice.Some? || parsed.maxPrice.Some?;
    var price := PriceRangeField(OrElse(parsed.minPrice, 0.0), OrElse(parsed.maxPrice, DefaultMaxPrice));
    var category := CategoryField(parsed.category.GetOr(""));
    var f := Assemble(category, stock, price, hasCategory, hasPrice);
    AssembledFields(category, stock, price, hasCategory, hasPrice);
    f
  }

  /** The object literal with its two optional spreads. */
  function Assemble(category: FilterField, stock: FilterField, price: FilterField, hasCategory: bool, hasPrice: bool)
    : seq<FilterField>
  {
    (if hasCategory then [category] else []) + [stock] + (if hasPrice then [price] else [])
  }

  /** Each field of the assembled object is found under its own name exactly
      when it was included, and the fields come in rank order. */
  lemma AssembledFields(category: FilterField, stock: FilterField, price: FilterField, hasCategory: bool, hasPrice: bool)
    requires category.CategoryField? && stock.InStockField? && price.PriceRangeField?
    ensures var f := Assemble(category, stock, price, hasCategory, hasPrice);
      && UniqueNames(f)
      && FieldOf(f, CategoryName) == (if hasCategory then Some(category) else None)
      && FieldOf(f, InStockName) == Some(stock)
      && FieldOf(f, PriceRangeName) == (if hasPrice then Some(price) else None)
      && forall i, j | 0 <= i < j < |f| :: FieldRank(f[i]) < FieldRank(f[j])
  {
    var f := Assemble(category, stock, price, hasCategory, hasPrice);
    if hasCategory && hasPrice {
      assert f == [category, stock, price];
      assert f[1..] == [stock, price] && f[1..][1..] == [price];
      assert FieldOf(f[1..], PriceRangeName) == Some(price);
    } else if hasCategory {
      assert f == [category, stock];
      assert f[1..] == [stock];
    } else if hasPrice {
      assert f == [stock, price];
      assert f[1..] == [price];
    } else {
      assert f == [stock];
    }
  }

  /** A lookup finds a field that is present and alone with its name, and
      nothing when no field carries the name. */
  lemma FieldLookup(f: seq<FilterField>, x: FilterField, present: bool)
    requires present ==> x in f && forall y | y in f && NameOf(y) == NameOf(x) :: y == x
    requires !present ==> forall y | y in f :: NameOf(y) != NameOf(x)
    ensures FieldOf(f, NameOf(x)) == if present then Some(x) else None
  {
  }

  /** The options object: both flags and the filter object, always all present. */
  function OptionsOf(parsed: ParsedQuery): SearchService.SearchOptions {
    SearchService.SearchOptions(Some(parsed.useAI), Some(BuildFilters(parsed)), Some(parsed.noCache))
  }

  /** The HTTP answers the controller gives. */
  datatype Response<T> = Ok(data: T) | BadRequest | NotFound | ServerError

  datatype Handled<T> = Handled(response: Response<T>, store: SearchService.Store, calls: seq<SearchService.Call>)

  /** `search`: 400 when the schema rejects the parameters, otherwise the
      service's answer, and 500 when the service fails. */
  function HandleSearch(params: QueryParams, parseFloat: string -> JsNumber, store: SearchService.Store, env: SearchService.Env)
    : (h: Handled<SearchService.EnhancedSearchResult>)
    requires SearchService.WellTyped(store)
    ensures SearchService.WellTyped(h.store)
    ensures h.response.BadRequest? <==> ParseSearchQuery(params, parseFloat).Failure?
    ensures h.response.BadRequest? ==> h.store == store && h.calls == []
    ensures !h.response.BadRequest? ==>
      var parsed := ParseSearchQuery(params, parseFloat).value;
      var run := SearchService.Search(params.q.value, Some(OptionsOf(parsed)), store, env);
      && h.store == run.store
      && h.calls == run.calls
      && (h.response.ServerError? <==> run.outcome.Failure?)
      && (run.outcome.Success? ==> h.response == Ok(run.outcome.value))
  {
    match ParseSearchQuery(params, parseFloat)
    case Failure(_) => Handled(BadRequest, store, [])
    case Success(parsed) =>
      var run := SearchService.Search(parsed.q, Some(OptionsOf(parsed)), store, env);
      match run.outcome
      case Success(result) => Handled(Ok(result), run.store, run.calls)
      case Failure(_) => Handled(ServerError, run.store, run.calls)
  }

  /** `suggestions`: 400 unless `q` has 1 to 50 UTF-16 code units, 500 when the
      service fails, otherwise the suggestion list. */
  function HandleSuggestions(q: Option<string>, store: SearchService.Store, env: SearchService.Env): (h: Handled<seq<string>>)
    requires SearchService.WellTyped(store)
    ensures SearchService.WellTyped(h.store)
    ensures h.response.BadRequest? <==> !(q.Some? && 1 <= Utf16Length(q.value) <= MaxPrefixLength)
    ensures h.response.BadRequest? ==> h.store == store && h.calls == []
    ensures !h.response.BadRequest? ==>
      var run := SearchService.GetSuggestions(q.value, store, env);
      && h.store == run.store
      && h.calls == run.calls
      && (h.response.ServerError? <==> run.outcome.Failure?)
      && (run.outcome.Success? ==> h.response == Ok(run.outcome.value))
    ensures h.response.Ok? ==> |h.response.data| <= Lexical.SuggestionSize || SearchService.KeyedCache.HoldsEntry(store,
      SearchService.KeyedCache.GenerateKey(env.fingerprint, SearchService.SuggestionsNamespace, SearchService.SuggestionParams(q.value)))
  {
    if q.None? || Utf16Length(q.value) < 1 || Utf16Length(q.value) > MaxPrefixLength then Handled(BadRequest, store, [])
    else
      var run := SearchService.GetSuggestions(q.value, store, env);
      match run.outcome
      case Success(names) => Handled(Ok(names), run.store, run.calls)
      case Failure(_) => Handled(ServerError, run.store, run.calls)
  }

  /** `getProduct`: 404 when the service finds nothing, 500 when it fails. */
  function HandleGetProduct(id: string, store: SearchService.Store, env: SearchService.Env): (h: Handled<Product>)
    requires SearchService.WellTyped(store)
    ensures SearchService.WellTyped(h.store)
    ensures var run := SearchService.GetProduct(id, store, env);
      && h.store == run.store
      && h.calls == run.calls
      && (h.response.ServerError? <==> run.outcome.Failure?)
      && (h.response.NotFound? <==> run.outcome == Success(None))
      && (h.response.Ok? <==> run.outcome.Success? && run.outcome.value.Some?)
      && (h.response.Ok? ==> h.response.data == run.outcome.value.value)
    ensures !h.response.BadRequest?
  {
    var run := SearchService.GetProduct(id, store, env);
    match run.outcome
    case Failure(_) => Handled(ServerError, run.store, run.calls)
    case Success(None) => Handled(NotFound, run.store, run.calls)
    case Success(Some(p)) => Handled(Ok(p), run.store, run.calls)
  }

  // ---------------------------------------------------------------------------
  // Properties of requests that come through the controller
  // ---------------------------------------------------------------------------

  /** The controller always passes filters and both flags, so the service's own
      defaults never apply. */
  lemma ControllerSettings(parsed: ParsedQuery)
    ensures SearchService.Resolve(Some(OptionsOf(parsed)))
         == SearchService.Settings(parsed.useAI, Some(BuildFilters(parsed)), parsed.noCache)
  {
  }

  /** Every lexical search a controller request triggers filters on stock, with
      the value `false` unless the parameter was the literal `true`, because the
      schema turns an absent flag into `false` and the filter object always
      carries it, and adoption keeps it. */
  lemma ControllerAlwaysFiltersOnStock(params: QueryParams, parseFloat: string -> JsNumber,
                                       store: SearchService.Store, env: SearchService.Env)
    requires SearchService.WellTyped(store)
    requires ParseSearchQuery(params, parseFloat).Success?
    ensures var parsed := ParseSearchQuery(params, parseFloat).value;
      var plan := SearchService.PlanOf(parsed.q, Some(OptionsOf(parsed)), env);
      && plan.filters.Some?
      && Lexical.BuildQuery(plan.searchQuery, plan.filters).filter.Some?
      && Lexical.Term("inStock", Lexical.BoolValue(params.inStock == Some("true")))
           in Lexical.BuildQuery(plan.searchQuery, plan.filters).filter.value
  {
    var parsed := ParseSearchQuery(params, parseFloat).value;
    var plan := SearchService.PlanOf(parsed.q, Some(OptionsOf(parsed)), env);
    assert InStockOf(BuildFilters(parsed)) == Some(parsed.inStock);
    assert plan.filters.Some? && InStockOf(plan.filters.value) == Some(parsed.inStock);
  }

  /** A search whose enhancement adopted a category writes its result under
      parameters no controller request ever reads with: the adopted category is
      appended after the stock flag, while a controller-built filter object has
      its category first or none at all. Only writes without adoption can be
      hit again through the controller. */
  lemma {:induction false} ControllerNeverReadsAdoptedWrite(p1: QueryParams, p2: QueryParams, parseFloat: string -> JsNumber,
                                                            env: SearchService.Env)
    requires ParseSearchQuery(p1, parseFloat).Success?
    requires ParseSearchQuery(p2, parseFloat).Success?
    ensures var a := ParseSearchQuery(p1, parseFloat).value;
      var b := ParseSearchQuery(p2, parseFloat).value;
      var s := SearchService.Resolve(Some(OptionsOf(a)));
      var plan := SearchService.PlanOf(a.q, Some(OptionsOf(a)), env);
      SearchService.SearchParams(a.q, plan.filters, s.useAI)
        == SearchService.ReadParams(b.q, SearchService.Resolve(Some(OptionsOf(b)))) ==>
      plan.filters == s.filters
  {
    var a := ParseSearchQuery(p1, parseFloat).value;
    var b := ParseSearchQuery(p2, parseFloat).value;
    var s := SearchService.Resolve(Some(OptionsOf(a)));
    var plan := SearchService.PlanOf(a.q, Some(OptionsOf(a)), env);
    if plan.filters != s.filters {
      var fa := BuildFilters(a);
      var fb := BuildFilters(b);
      var e := env.clients.enhance(a.q).value;
      assert !HasCategory(Some(fa));
      assert FieldOf(fa, CategoryName).None?;
      var written := fa + [CategoryField(e.categories.value[0])];
      assert plan.filters == Some(written);
      assert written[0].InStockField?;
      if CategoryOf(fb).Some? {
        assert fb[0].CategoryField?;
      } else {
        assert written[|written| - 1].CategoryField?;
        assert forall i | 0 <= i < |fb| :: !fb[i].CategoryField?;
      }
      assert Some(written) != Some(fb);
    }
  }
}
