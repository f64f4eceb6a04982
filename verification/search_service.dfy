/** The orchestrator of src/services/search.service.ts: cache check, optional
    query enhancement (which may adopt a category filter), lexical search,
    optional re-ranking of the first 20 hits, assembly and cache write; plus the
    two small cache-aside lookups for suggestions and single products.

    The collaborators are oracles (`Clients`); the cache is the keyed-cache
    model over one shared store; every external call a request makes is
    recorded, in order, in the `calls` of its `Run`. */
module SearchService {
  import opened Wrappers
  import opened Catalog
  import Seqs
  import KeyedCache
  import Lexical
  import Reasoning

  const SearchNamespace: string := "search"
  const SuggestionsNamespace: string := "suggestions"
  const ProductNamespace: string := "product"

  /** Only this many leading hits are submitted for re-ranking. */
  const RerankWindow: nat := 20

  // ---------------------------------------------------------------------------
  // Values
  // ---------------------------------------------------------------------------

  /** The optional second argument of `search`; every field may be missing. */
  datatype SearchOptions = SearchOptions(useAI: Option<bool>, filters: Option<Filters>, noCache: Option<bool>)

  /** The options after destructuring with defaults. */
  datatype Settings = Settings(useAI: bool, filters: Option<Filters>, noCache: bool)

  /** The options with their defaults applied: AI on and the cache used unless
      the caller says otherwise; missing options count as all defaults. */
  function Resolve(options: Option<SearchOptions>): (s: Settings)
    ensures options.None? ==> s == Settings(true, None, false)
    ensures options.Some? ==> s.filters == options.value.filters
    ensures options.Some? ==> (s.useAI <==> options.value.useAI != Some(false))
    ensures options.Some? ==> (s.noCache <==> options.value.noCache == Some(true))
  {
    match options
    case None => Settings(true, None, false)
    case Some(o) => Settings(o.useAI.GetOr(true), o.filters, o.noCache.GetOr(false))
  }

  /** The `queryEnhancement` record; a field is `None` where the enhancement
      lacked it (`undefined`). */
  datatype EnhancementRecord = EnhancementRecord(
    original: string,
    enhanced: Option<string>,
    categories: Option<seq<string>>,
    intent: Option<string>)

  /** The response of `search`, and what is cached for it. */
  datatype EnhancedSearchResult = EnhancedSearchResult(
    products: seq<ResultItem>,
    total: nat,
    took: nat,
    enhanced: bool,
    queryEnhancement: Option<EnhancementRecord>)

  /** The parameter objects the cache keys are derived from. */
  datatype CacheParams =
    | SearchParams(query: string, filters: Option<Filters>, useAI: bool)
    | SuggestionParams(prefix: string)
    | ProductParams(id: string)

  /** What the three namespaces of the shared store hold. */
  datatype Payload =
    | SearchPayload(result: EnhancedSearchResult)
    | SuggestionsPayload(names: seq<string>)
    | ProductPayload(product: Product)

  type Store = KeyedCache.Store<Payload>

  /** `md5hex(JSON.stringify(params))`. */
  type Fingerprint = CacheParams -> KeyedCache.HexDigest

  /** A rejected call to the reasoning service. */
  datatype AiFailure = AiFailure

  /** The collaborators, as the orchestrator sees them. */
  datatype Clients = Clients(
    engine: Lexical.QueryBody -> Result<Lexical.EngineResponse, Lexical.EngineFailure>,
    suggest: Lexical.SuggestBody -> Result<seq<string>, Lexical.EngineFailure>,
    fetch: string -> Result<Product, Lexical.EngineFailure>,
    enhance: string -> Result<Reasoning.QueryEnhancement, AiFailure>,
    rerank: (string, seq<Candidate>) -> Result<seq<Reasoning.Ranking>, AiFailure>)

  /** Everything a request depends on besides its arguments and the store. */
  datatype Env = Env(fingerprint: Fingerprint, now: int, clients: Clients)

  /** One external call made while serving a request. */
  datatype Call =
    | CacheRead(params: CacheParams)
    | CacheWrite(params: CacheParams)
    | EnhanceCall(text: string)
    | EngineSearch(body: Lexical.QueryBody)
    | RerankCall(text: string, candidates: seq<Candidate>)
    | EngineSuggest(suggestBody: Lexical.SuggestBody)
    | EngineFetch(id: string)

  /** The outcome of a request, the store it leaves, and the calls it made. */
  datatype Run<T> = Run(outcome: Result<T, Lexical.EngineFailure>, store: Store, calls: seq<Call>)

  // ---------------------------------------------------------------------------
  // The store invariant: each namespace holds only its own kind of payload.
  // Every operation below preserves it, so a cached value always has the shape
  // its reader expects.
  // ---------------------------------------------------------------------------

  predicate Fits(key: string, p: Payload) {
    && (KeyedCache.InNamespace(key, SearchNamespace) ==> p.SearchPayload?)
    && (KeyedCache.InNamespace(key, SuggestionsNamespace) ==> p.SuggestionsPayload?)
    && (KeyedCache.InNamespace(key, ProductNamespace) ==> p.ProductPayload?)
  }

  ghost predicate WellTyped(store: Store) {
    forall k | k in store && store[k].content.Parsed? :: Fits(k, store[k].content.entry.data)
  }

  lemma NamespacesAreDisjoint(key: string)
    ensures KeyedCache.InNamespace(key, SearchNamespace) ==>
      !KeyedCache.InNamespace(key, SuggestionsNamespace) && !KeyedCache.InNamespace(key, ProductNamespace)
    ensures KeyedCache.InNamespace(key, SuggestionsNamespace) ==> !KeyedCache.InNamespace(key, ProductNamespace)
  {
    if KeyedCache.InNamespace(key, SearchNamespace) {
      assert key[0] == 's' && key[1] == 'e';
    }
    if KeyedCache.InNamespace(key, SuggestionsNamespace) {
      assert key[0] == 's' && key[1] == 'u';
    }
  }

  /** An empty store satisfies the invariant. */
  lemma EmptyStoreIsWellTyped()
    ensures WellTyped(map[])
  {
  }

  lemma GetKeepsWellTyped<P>(store: Store, fingerprint: P -> KeyedCache.HexDigest, prefix: string, params: P)
    requires WellTyped(store)
    ensures WellTyped(KeyedCache.Get(store, fingerprint, prefix, params).store)
  {
  }

  lemma SetKeepsWellTyped(store: Store, fingerprint: Fingerprint, prefix: string, params: CacheParams, data: Payload, now: int)
    requires WellTyped(store)
    requires prefix == SearchNamespace ==> data.SearchPayload?
    requires prefix == SuggestionsNamespace ==> data.SuggestionsPayload?
    requires prefix == ProductNamespace ==> data.ProductPayload?
    requires prefix in {SearchNamespace, SuggestionsNamespace, ProductNamespace}
    ensures WellTyped(KeyedCache.Set(store, fingerprint, prefix, params, data, now))
  {
    var key := KeyedCache.GenerateKey(fingerprint, prefix, params);
    NamespacesAreDisjoint(key);
  }

  // ---------------------------------------------------------------------------
  // Steps of `search`
  // ---------------------------------------------------------------------------

  /** The search text (`None` for `undefined`), effective filters and
      enhancement the lexical step uses; `enhancement` is the value the
      enhancement variable holds, whatever happened after it was assigned. */
  datatype Plan = Plan(searchQuery: Option<string>, filters: Option<Filters>, enhancement: Option<Reasoning.QueryEnhancement>)

  /** The enhancement has a non-empty category list and the caller gave no
      truthy category. */
  predicate Adopts(e: Reasoning.QueryEnhancement, filters: Option<Filters>) {
    e.Value? && e.categories.Some? && |e.categories.value| > 0 && !HasCategory(filters)
  }

  /** The enhancement step, with its three statements inside one `try`: the
      enhancement is stored first, then its text replaces the search text, then
      its category list is consulted and may add the first category to the
      filters. A statement that throws leaves what the earlier ones did: reading
      a field of `null` throws before the text changes, and a missing category
      list throws after it has changed. A failed call changes nothing; with AI
      off the step is skipped. */
  function EnhanceStep(query: string, useAI: bool, filters: Option<Filters>,
                       enhance: string -> Result<Reasoning.QueryEnhancement, AiFailure>): (p: Plan)
    ensures !useAI || enhance(query).Failure? ==> p == Plan(Some(query), filters, None)
    ensures useAI && enhance(query).Success? ==>
      var e := enhance(query).value;
      && p.enhancement == Some(e)
      && (e.NullValue? ==> p.searchQuery == Some(query))
      && (e.FalsyValue? ==> p.searchQuery.None?)
      && (e.Value? ==> p.searchQuery == e.enhancedQuery)
      && (!Adopts(e, filters) ==> p.filters == filters)
      && (Adopts(e, filters) ==>
            && p.filters.Some?
            && CategoryOf(p.filters.value) == Some(e.categories.value[0])
            && (filters.Some? ==> InStockOf(p.filters.value) == InStockOf(filters.value))
            && (filters.Some? ==> PriceRangeOf(p.filters.value) == PriceRangeOf(filters.value)))
  {
    if !useAI then Plan(Some(query), filters, None)
    else
      match enhance(query)
      case Failure(_) => Plan(Some(query), filters, None)
      case Success(e) =>
        match e
        case NullValue => Plan(Some(query), filters, Some(e))     // `null.enhancedQuery` throws
        case FalsyValue => Plan(None, filters, Some(e))          // the text becomes undefined, then `categories.length` throws
        case Value(text, _, _, _) =>
          var effective := if Adopts(e, filters) then Some(WithCategory(filters, e.categories.value[0])) else filters;
          Plan(text, effective, Some(e))                         // without categories, `.length` throws after the text is set
  }

  /** Position of the first hit with the given product id (`Array.find`). */
  function FindIndex(hits: seq<Hit>, id: string): (r: Option<nat>)
    ensures r.None? ==> forall i | 0 <= i < |hits| :: hits[i].source.id != id
    ensures r.Some? ==>
      && r.value < |hits|
      && hits[r.value].source.id == id
      && forall j | 0 <= j < r.value :: hits[j].source.id != id
    decreases |hits|
  {
    if |hits| == 0 then None
    else if hits[0].source.id == id then Some(0)
    else
      match FindIndex(hits[1..], id)
      case None => None
      case Some(i) => Some(i + 1)
  }

  /** The item for one ranking entry: the first top hit with the entry's id,
      tagged with the entry's score, or a bare score when no hit has that id. */
  function RankedItem(top: seq<Hit>, r: Reasoning.Ranking): ResultItem {
    match FindIndex(top, r.productId)
    case Some(i) => Scored(top[i], r.relevanceScore)
    case None => Orphan(r.relevanceScore)
  }

  function PlainItems(hits: seq<Hit>): (r: seq<ResultItem>)
    ensures |r| == |hits|
    ensures forall i | 0 <= i < |r| :: r[i] == Plain(hits[i])
  {
    seq(|hits|, i requires 0 <= i < |hits| => Plain(hits[i]))
  }

  /** What is submitted for re-ranking. */
  function Candidates(top: seq<Hit>): (r: seq<Candidate>)
    ensures |r| == |top|
    ensures forall i | 0 <= i < |r| :: r[i] == CandidateOf(top[i])
  {
    seq(|top|, i requires 0 <= i < |top| => CandidateOf(top[i]))
  }

  /** The product list after a successful re-rank: one item per ranking entry,
      by descending score (ties keep their order), then the hits beyond the
      window unchanged. The re-ranked prefix is exactly as long as the ranking. */
  function Reorder(hits: seq<Hit>, rankings: seq<Reasoning.Ranking>): (r: seq<ResultItem>)
    ensures |r| == |rankings| + |Seqs.Drop(hits, RerankWindow)|
    ensures forall i | 0 <= i < |rankings| ::
      r[i] == RankedItem(Seqs.Take(hits, RerankWindow), Seqs.SortDesc(rankings, Reasoning.Score)[i])
    ensures r[|rankings|..] == PlainItems(Seqs.Drop(hits, RerankWindow))
  {
    var top := Seqs.Take(hits, RerankWindow);
    var sorted := Seqs.SortDesc(rankings, Reasoning.Score);
    seq(|sorted|, i requires 0 <= i < |sorted| => RankedItem(top, sorted[i])) + PlainItems(Seqs.Drop(hits, RerankWindow))
  }

  datatype Reranked = Reranked(items: seq<ResultItem>, calls: seq<Call>)

  /** The re-rank step: only with AI on and at least one hit; the first 20 hits
      are judged against the caller's original text; a failed re-rank keeps the
      lexical order. */
  function RerankStep(query: string, useAI: bool, hits: seq<Hit>,
                      rerank: (string, seq<Candidate>) -> Result<seq<Reasoning.Ranking>, AiFailure>): (r: Reranked)
    ensures !useAI || |hits| == 0 ==> r == Reranked(PlainItems(hits), [])
    ensures useAI && |hits| > 0 ==>
      var candidates := Candidates(Seqs.Take(hits, RerankWindow));
      && r.calls == [RerankCall(query, candidates)]
      && (rerank(query, candidates).Failure? ==> r.items == PlainItems(hits))
      && (rerank(query, candidates).Success? ==> r.items == Reorder(hits, rerank(query, candidates).value))
  {
    if !useAI || |hits| == 0 then Reranked(PlainItems(hits), [])
    else
      var candidates := Candidates(Seqs.Take(hits, RerankWindow));
      match rerank(query, candidates)
      case Failure(_) => Reranked(PlainItems(hits), [RerankCall(query, candidates)])
      case Success(rankings) => Reranked(Reorder(hits, rankings), [RerankCall(query, candidates)])
  }

  /** The `queryEnhancement` record: present iff the enhancement variable holds
      a truthy value, and then carrying the caller's text and the value's
      fields as they are. */
  function RecordOf(query: string, e: Option<Reasoning.QueryEnhancement>): (r: Option<EnhancementRecord>)
    ensures r.Some? <==> e.Some? && e.value.Value?
    ensures r.Some? ==> r.value.original == query && r.value.enhanced == e.value.enhancedQuery
    ensures r.Some? ==> r.value.categories == e.value.categories && r.value.intent == e.value.intent
  {
    match e
    case Some(Value(text, categories, _, intent)) => Some(EnhancementRecord(query, text, categories, intent))
    case _ => None
  }

  function ReadParams(query: string, s: Settings): CacheParams {
    SearchParams(query, s.filters, s.useAI)
  }

  function ReadKey(fingerprint: Fingerprint, query: string, s: Settings): string {
    KeyedCache.GenerateKey(fingerprint, SearchNamespace, ReadParams(query, s))
  }

  /** The lexical step's input and answer on a cache miss. */
  function PlanOf(query: string, options: Option<SearchOptions>, env: Env): Plan {
    var s := Resolve(options);
    EnhanceStep(query, s.useAI, s.filters, env.clients.enhance)
  }

  function LexicalAnswer(query: string, options: Option<SearchOptions>, env: Env): Result<SearchResult, Lexical.EngineFailure> {
    var plan := PlanOf(query, options, env);
    Lexical.Search(plan.searchQuery, plan.filters, env.clients.engine)
  }

  /** The request is served from the cache. */
  predicate Hits(query: string, options: Option<SearchOptions>, store: Store, env: Env) {
    var s := Resolve(options);
    !s.noCache && KeyedCache.HoldsEntry(store, ReadKey(env.fingerprint, query, s))
  }

  // ---------------------------------------------------------------------------
  // search
  // ---------------------------------------------------------------------------

  /** `search`. */
  function Search(query: string, options: Option<SearchOptions>, store: Store, env: Env): (run: Run<EnhancedSearchResult>)
    requires WellTyped(store)
    ensures WellTyped(run.store)
  {
    var s := Resolve(options);
    var readParams := ReadParams(query, s);
    var lookup := if s.noCache then KeyedCache.Lookup(None, store)
                  else KeyedCache.Get(store, env.fingerprint, SearchNamespace, readParams);
    var readCalls := if s.noCache then [] else [CacheRead(readParams)];
    GetKeepsWellTyped(store, env.fingerprint, SearchNamespace, readParams);
    if lookup.value.Some? then
      Run(Success(lookup.value.value.result), lookup.store, readCalls)
    else
      var plan := EnhanceStep(query, s.useAI, s.filters, env.clients.enhance);
      var enhanceCalls := if s.useAI then [EnhanceCall(query)] else [];
      var searchCalls := readCalls + enhanceCalls + [EngineSearch(Lexical.BuildQuery(plan.searchQuery, plan.filters))];
      match Lexical.Search(plan.searchQuery, plan.filters, env.clients.engine)
      case Failure(e) => Run(Failure(e), lookup.store, searchCalls)
      case Success(found) =>
        var reranked := RerankStep(query, s.useAI, found.products, env.clients.rerank);
        var result := EnhancedSearchResult(reranked.items, found.total, found.took, s.useAI, RecordOf(query, plan.enhancement));
        var writeParams := SearchParams(query, plan.filters, s.useAI);
        if s.noCache then
          Run(Success(result), lookup.store, searchCalls + reranked.calls)
        else
          SetKeepsWellTyped(lookup.store, env.fingerprint, SearchNamespace, writeParams, SearchPayload(result), env.now);
          Run(Success(result),
              KeyedCache.Set(lookup.store, env.fingerprint, SearchNamespace, writeParams, SearchPayload(result), env.now),
              searchCalls + reranked.calls + [CacheWrite(writeParams)])
  }

  // ---------------------------------------------------------------------------
  // getSuggestions and getProduct
  // ---------------------------------------------------------------------------

  /** `getSuggestions`: a cached list is returned as it is (an empty list
      counts as cached); otherwise the fetched list is cached and returned. */
  function GetSuggestions(prefix: string, store: Store, env: Env): (run: Run<seq<string>>)
    requires WellTyped(store)
    ensures WellTyped(run.store)
    ensures var lookup := KeyedCache.Get(store, env.fingerprint, SuggestionsNamespace, SuggestionParams(prefix));
      lookup.value.Some? ==>
        run == Run(Success(lookup.value.value.names), lookup.store, [CacheRead(SuggestionParams(prefix))])
    ensures var fetched := Lexical.GetSuggestions(prefix, env.clients.suggest);
      var lookup := KeyedCache.Get(store, env.fingerprint, SuggestionsNamespace, SuggestionParams(prefix));
      !KeyedCache.HoldsEntry(store, KeyedCache.GenerateKey(env.fingerprint, SuggestionsNamespace, SuggestionParams(prefix))) ==>
        && run.outcome == fetched
        && (fetched.Success? ==>
              && run.calls == [CacheRead(SuggestionParams(prefix)), EngineSuggest(Lexical.SuggestRequest(prefix)),
                               CacheWrite(SuggestionParams(prefix))]
              && run.store == KeyedCache.Set(lookup.store, env.fingerprint, SuggestionsNamespace, SuggestionParams(prefix),
                                             SuggestionsPayload(fetched.value), env.now))
        && (fetched.Failure? ==>
              && run.calls == [CacheRead(SuggestionParams(prefix)), EngineSuggest(Lexical.SuggestRequest(prefix))]
              && run.store == lookup.store)
  {
    var params := SuggestionParams(prefix);
    var lookup := KeyedCache.Get(store, env.fingerprint, SuggestionsNamespace, params);
    GetKeepsWellTyped(store, env.fingerprint, SuggestionsNamespace, params);
    if lookup.value.Some? then
      Run(Success(lookup.value.value.names), lookup.store, [CacheRead(params)])
    else
      var calls := [CacheRead(params), EngineSuggest(Lexical.SuggestRequest(prefix))];
      match Lexical.GetSuggestions(prefix, env.clients.suggest)
      case Failure(e) => Run(Failure(e), lookup.store, calls)
      case Success(names) =>
        SetKeepsWellTyped(lookup.store, env.fingerprint, SuggestionsNamespace, params, SuggestionsPayload(names), env.now);
        Run(Success(names),
            KeyedCache.Set(lookup.store, env.fingerprint, SuggestionsNamespace, params, SuggestionsPayload(names), env.now),
            calls + [CacheWrite(params)])
  }

  /** `getProduct`: a cached product is returned as it is; otherwise the
      fetched product is cached only when it exists. */
  function GetProduct(id: string, store: Store, env: Env): (run: Run<Option<Product>>)
    requires WellTyped(store)
    ensures WellTyped(run.store)
    ensures var lookup := KeyedCache.Get(store, env.fingerprint, ProductNamespace, ProductParams(id));
      lookup.value.Some? ==>
        run == Run(Success(Some(lookup.value.value.product)), lookup.store, [CacheRead(ProductParams(id))])
    ensures var fetched := Lexical.GetProductById(id, env.clients.fetch);
      var lookup := KeyedCache.Get(store, env.fingerprint, ProductNamespace, ProductParams(id));
      !KeyedCache.HoldsEntry(store, KeyedCache.GenerateKey(env.fingerprint, ProductNamespace, ProductParams(id))) ==>
        && run.outcome == fetched
        && (CacheWrite(ProductParams(id)) in run.calls <==> fetched.Success? && fetched.value.Some?)
        && (fetched.Success? && fetched.value.Some? ==>
              run.store == KeyedCache.Set(lookup.store, env.fingerprint, ProductNamespace, ProductParams(id),
                                          ProductPayload(fetched.value.value), env.now))
        && (!(fetched.Success? && fetched.value.Some?) ==> run.store == lookup.store)
  {
    var params := ProductParams(id);
    var lookup := KeyedCache.Get(store, env.fingerprint, ProductNamespace, params);
    GetKeepsWellTyped(store, env.fingerprint, ProductNamespace, params);
    if lookup.value.Some? then
      Run(Success(Some(lookup.value.value.product)), lookup.store, [CacheRead(params)])
    else
      var calls := [CacheRead(params), EngineFetch(id)];
      match Lexical.GetProductById(id, env.clients.fetch)
      case Failure(e) => Run(Failure(e), lookup.store, calls)
      case Success(None) => Run(Success(None), lookup.store, calls)
      case Success(Some(p)) =>
        SetKeepsWellTyped(lookup.store, env.fingerprint, ProductNamespace, params, ProductPayload(p), env.now);
        Run(Success(Some(p)),
            KeyedCache.Set(lookup.store, env.fingerprint, ProductNamespace, params, ProductPayload(p), env.now),
            calls + [CacheWrite(params)])
  }
}
