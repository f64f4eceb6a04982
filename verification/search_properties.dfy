/** Request-level properties of the search orchestrator: what a cache hit, a
    miss, `noCache`, category adoption and the production reasoning client
    imply for the answer, the calls made and the store left behind. */
module SearchProperties {
  import opened Wrappers
  import opened Catalog
  import Seqs
  import KeyedCache
  import Lexical
  import Reasoning
  import opened SearchService

  // ---------------------------------------------------------------------------
  // Cache discipline
  // ---------------------------------------------------------------------------

  /** A cached answer is returned unchanged, and nothing but the cache read
      happens: neither the reasoning service nor the engine is called. */
  lemma CacheHitShortCircuits(query: string, options: Option<SearchOptions>, store: Store, env: Env)
    requires WellTyped(store)
    requires Hits(query, options, store, env)
    ensures var key := ReadKey(env.fingerprint, query, Resolve(options));
      var run := Search(query, options, store, env);
      && store[key].content.entry.data.SearchPayload?
      && run.outcome == Success(store[key].content.entry.data.result)
      && run.calls == [CacheRead(ReadParams(query, Resolve(options)))]
  {
  }

  /** With `noCache` the store is neither read nor written. */
  lemma NoCacheBypassesStore(query: string, options: Option<SearchOptions>, store: Store, env: Env)
    requires WellTyped(store)
    requires Resolve(options).noCache
    ensures var run := Search(query, options, store, env);
      && run.store == store
      && forall c | c in run.calls :: !c.CacheRead? && !c.CacheWrite?
  {
  }

  /** On a miss the reasoning service is asked to enhance exactly when AI is on,
      and the engine receives the planned text and the effective filters. */
  lemma MissSearchesWithPlan(query: string, options: Option<SearchOptions>, store: Store, env: Env)
    requires WellTyped(store)
    requires !Hits(query, options, store, env)
    ensures var run := Search(query, options, store, env);
      var plan := PlanOf(query, options, env);
      && (EnhanceCall(query) in run.calls <==> Resolve(options).useAI)
      && EngineSearch(Lexical.BuildQuery(plan.searchQuery, plan.filters)) in run.calls
  {
  }

  /** Some call re-ranks. */
  predicate Reranks(calls: seq<Call>) {
    exists i | 0 <= i < |calls| :: calls[i].RerankCall?
  }

  /** Re-ranking happens exactly on a miss with AI on and at least one hit. */
  lemma RerankOnlyWhenUseful(query: string, options: Option<SearchOptions>, store: Store, env: Env)
    requires WellTyped(store)
    ensures var answer := LexicalAnswer(query, options, env);
      Reranks(Search(query, options, store, env).calls) <==>
        && !Hits(query, options, store, env)
        && Resolve(options).useAI
        && answer.Success?
        && |answer.value.products| > 0
  {
    var run := Search(query, options, store, env);
    var answer := LexicalAnswer(query, options, env);
    if !Hits(query, options, store, env) && Resolve(options).useAI && answer.Success? && |answer.value.products| > 0 {
      assert run.calls[|run.calls| - 1].RerankCall? || run.calls[|run.calls| - 2].RerankCall?;
    }
  }

  /** A re-rank is always asked about the caller's original text, never the
      enhanced one, and about the first 20 hits only. */
  lemma RerankSeesOriginalTextAndTopHits(query: string, options: Option<SearchOptions>, store: Store, env: Env)
    requires WellTyped(store)
    ensures var answer := LexicalAnswer(query, options, env);
      forall c | c in Search(query, options, store, env).calls && c.RerankCall? ::
        && answer.Success?
        && c.text == query
        && c.candidates == Candidates(Seqs.Take(answer.value.products, RerankWindow))
        && |c.candidates| <= RerankWindow
  {
  }

  /** On a miss whose lexical search succeeds the answer carries the engine's
      counts, `enhanced` equal to the AI flag whatever the AI outcome, the
      enhancement record iff a truthy enhancement was obtained, and the
      products of the re-rank step. */
  lemma MissAssemblesResult(query: string, options: Option<SearchOptions>, store: Store, env: Env)
    requires WellTyped(store)
    requires !Hits(query, options, store, env)
    requires LexicalAnswer(query, options, env).Success?
    ensures var run := Search(query, options, store, env);
      var s := Resolve(options);
      var plan := PlanOf(query, options, env);
      var found := LexicalAnswer(query, options, env).value;
      && run.outcome.Success?
      && run.outcome.value.enhanced == s.useAI
      && run.outcome.value.total == found.total
      && run.outcome.value.took == found.took
      && run.outcome.value.products == RerankStep(query, s.useAI, found.products, env.clients.rerank).items
      && (run.outcome.value.queryEnhancement.Some? <==>
            s.useAI && env.clients.enhance(query).Success? && env.clients.enhance(query).value.Value?)
      && run.outcome.value.queryEnhancement == RecordOf(query, plan.enhancement)
  {
  }

  /** A failing lexical search fails the request: nothing is re-ranked and
      nothing is written. */
  lemma EngineFailureIsFatal(query: string, options: Option<SearchOptions>, store: Store, env: Env)
    requires WellTyped(store)
    requires !Hits(query, options, store, env)
    requires LexicalAnswer(query, options, env).Failure?
    ensures var run := Search(query, options, store, env);
      && run.outcome == Failure(LexicalAnswer(query, options, env).error)
      && forall c | c in run.calls :: !c.CacheWrite? && !c.RerankCall?
  {
  }

  /** The write goes under `{query, effective filters, useAI}`: the filters
      after category adoption, not the caller's. */
  lemma WriteKeyUsesEffectiveFilters(query: string, options: Option<SearchOptions>, store: Store, env: Env)
    requires WellTyped(store)
    requires !Hits(query, options, store, env)
    requires !Resolve(options).noCache
    requires LexicalAnswer(query, options, env).Success?
    ensures var run := Search(query, options, store, env);
      var s := Resolve(options);
      var written := SearchParams(query, PlanOf(query, options, env).filters, s.useAI);
      var read := KeyedCache.Get(store, env.fingerprint, SearchNamespace, ReadParams(query, s));
      && run.outcome.Success?
      && |run.calls| > 0
      && run.calls[0] == CacheRead(ReadParams(query, s))
      && run.calls[|run.calls| - 1] == CacheWrite(written)
      && run.store == KeyedCache.Set(read.store, env.fingerprint, SearchNamespace, written,
                                     SearchPayload(run.outcome.value), env.now)
  {
  }

  /** The effective filters differ from the caller's only through adoption, and
      adopting a non-empty category always makes them differ. */
  lemma AdoptionChangesWriteParams(query: string, options: Option<SearchOptions>, env: Env)
    ensures var s := Resolve(options);
      var plan := PlanOf(query, options, env);
      var e := env.clients.enhance(query);
      && (plan.filters != s.filters ==> s.useAI && e.Success? && Adopts(e.value, s.filters))
      && (s.useAI && e.Success? && Adopts(e.value, s.filters) && e.value.categories.value[0] != "" ==>
            plan.filters != s.filters)
  {
    var s := Resolve(options);
    var plan := PlanOf(query, options, env);
    var e := env.clients.enhance(query);
    if s.useAI && e.Success? && Adopts(e.value, s.filters) && e.value.categories.value[0] != "" {
      assert HasCategory(plan.filters);
    }
  }

  /** Without adoption a repeated request is served from the cache with the same
      answer, whatever the clients do the second time. The keyed cache has no
      clock, so this is the repeat that comes before the store expires the
      entry. */
  lemma RepeatWithoutAdoptionHits(query: string, options: Option<SearchOptions>, store: Store, env: Env, env2: Env)
    requires WellTyped(store)
    requires !Resolve(options).noCache
    requires env2.fingerprint == env.fingerprint
    requires PlanOf(query, options, env).filters == Resolve(options).filters
    requires Search(query, options, store, env).outcome.Success?
    ensures var first := Search(query, options, store, env);
      var second := Search(query, options, first.store, env2);
      && second.outcome == first.outcome
      && second.calls == [CacheRead(ReadParams(query, Resolve(options)))]
  {
    var s := Resolve(options);
    var key := ReadKey(env.fingerprint, query, s);
    var first := Search(query, options, store, env);
    if !Hits(query, options, store, env) {
      assert first.store[key].content.entry.data == SearchPayload(first.outcome.value);
    }
    assert Hits(query, options, first.store, env2);
  }

  /** With adoption, and a digest that tells the two parameter objects apart, the
      write lands under a key the same request never reads: repeating it misses
      again and reruns the whole pipeline. */
  lemma AdoptedWriteMissesOnRepeat(query: string, options: Option<SearchOptions>, store: Store, env: Env, env2: Env)
    requires WellTyped(store)
    requires !Hits(query, options, store, env)
    requires env2.fingerprint == env.fingerprint
    requires env.fingerprint(ReadParams(query, Resolve(options)))
          != env.fingerprint(SearchParams(query, PlanOf(query, options, env).filters, Resolve(options).useAI))
    ensures !Hits(query, options, Search(query, options, store, env).store, env2)
  {
    var s := Resolve(options);
    var written := SearchParams(query, PlanOf(query, options, env).filters, s.useAI);
    KeyedCache.KeyDeterminesPrefixAndDigest(env.fingerprint, SearchNamespace, ReadParams(query, s), SearchNamespace, written);
  }

  // ---------------------------------------------------------------------------
  // getSuggestions and getProduct
  // ---------------------------------------------------------------------------

  /** Fetched suggestions are cached, so the next request for the prefix is
      served from the cache with the same list. */
  lemma SuggestionsRepeatHits(prefix: string, store: Store, env: Env, env2: Env)
    requires WellTyped(store)
    requires env2.fingerprint == env.fingerprint
    requires GetSuggestions(prefix, store, env).outcome.Success?
    ensures var first := GetSuggestions(prefix, store, env);
      var second := GetSuggestions(prefix, first.store, env2);
      && second.outcome == first.outcome
      && second.calls == [CacheRead(SuggestionParams(prefix))]
  {
  }

  /** A found product is cached and served from the cache next time; a missing
      one is not cached, so the next request asks the engine again. */
  lemma ProductRepeat(id: string, store: Store, env: Env, env2: Env)
    requires WellTyped(store)
    requires env2.fingerprint == env.fingerprint
    requires GetProduct(id, store, env).outcome.Success?
    ensures var first := GetProduct(id, store, env);
      var second := GetProduct(id, first.store, env2);
      && (first.outcome.value.Some? ==>
            second.outcome == first.outcome && second.calls == [CacheRead(ProductParams(id))])
      && (first.outcome.value.None? ==> EngineFetch(id) in second.calls)
  {
  }

  // ---------------------------------------------------------------------------
  // With the production reasoning client
  // ---------------------------------------------------------------------------

  /** The enhancement oracle is the reasoning service's `enhanceSearchQuery`
      over the model's replies; it never fails. */
  ghost predicate ReasoningEnhance(enhance: string -> Result<Reasoning.QueryEnhancement, AiFailure>,
                                   reply: string -> Reasoning.Reply<Reasoning.QueryEnhancement>) {
    forall q :: enhance(q) == Success(Reasoning.EnhanceSearchQuery(q, reply(q)))
  }

  /** The re-rank oracle is the reasoning service's `rerankProducts` over the
      model's replies; it never fails. */
  ghost predicate ReasoningRerank(rerank: (string, seq<Candidate>) -> Result<seq<Reasoning.Ranking>, AiFailure>,
                                  reply: (string, seq<Candidate>) -> Reasoning.Reply<seq<Reasoning.Ranking>>) {
    forall q, cs :: rerank(q, cs) == Success(Reasoning.RerankProducts(cs, reply(q, cs)))
  }

  /** With the production client, a miss with AI on plays out according to
      the shape of what the model's answer parses to:
      - no usable answer: the pass-through is recorded, and the caller's text
        and filters are searched;
      - `null`: the field read throws at once, so the caller's text and filters
        are searched and no record is written;
      - a falsy scalar: the search text becomes `undefined`, the category read
        throws, and no record is written;
      - any other value: its `enhancedQuery`, present or not, becomes the search
        text and the record is written; without a category list the filters
        stay the caller's. */
  lemma ReasoningEnhancementByShape(query: string, options: Option<SearchOptions>, store: Store, env: Env,
                                    reply: string -> Reasoning.Reply<Reasoning.QueryEnhancement>)
    requires WellTyped(store)
    requires ReasoningEnhance(env.clients.enhance, reply)
    requires !Hits(query, options, store, env)
    requires Resolve(options).useAI
    requires LexicalAnswer(query, options, env).Success?
    ensures var record := Search(query, options, store, env).outcome.value.queryEnhancement;
      var plan := PlanOf(query, options, env);
      var filters := Resolve(options).filters;
      var answer := reply(query);
      && (!Reasoning.Usable(answer) ==>
            && plan.searchQuery == Some(query)
            && plan.filters == filters
            && record == Some(EnhancementRecord(query, Some(query), Some([]), Some("search"))))
      && (Reasoning.Usable(answer) && answer.parsed.value.NullValue? ==>
            plan.searchQuery == Some(query) && plan.filters == filters && record.None?)
      && (Reasoning.Usable(answer) && answer.parsed.value.FalsyValue? ==>
            plan.searchQuery.None? && plan.filters == filters && record.None?)
      && (Reasoning.Usable(answer) && answer.parsed.value.Value? ==>
            && plan.searchQuery == answer.parsed.value.enhancedQuery
            && record.Some?
            && record.value.enhanced == answer.parsed.value.enhancedQuery
            && (answer.parsed.value.categories.None? ==> plan.filters == filters))
  {
    MissAssemblesResult(query, options, store, env);
  }

  /** A well-shaped answer is used as the interface describes it: its text is
      searched and recorded, and its categories and intent are recorded. */
  lemma ReasoningWellShapedEnhancement(query: string, options: Option<SearchOptions>, store: Store, env: Env,
                                       reply: string -> Reasoning.Reply<Reasoning.QueryEnhancement>)
    requires WellTyped(store)
    requires ReasoningEnhance(env.clients.enhance, reply)
    requires !Hits(query, options, store, env)
    requires Resolve(options).useAI
    requires LexicalAnswer(query, options, env).Success?
    requires Reasoning.Usable(reply(query)) && Reasoning.WellShaped(reply(query).parsed.value)
    ensures var e := reply(query).parsed.value;
      var record := Search(query, options, store, env).outcome.value.queryEnhancement;
      && PlanOf(query, options, env).searchQuery == e.enhancedQuery
      && record == Some(EnhancementRecord(query, e.enhancedQuery, e.categories, e.intent))
  {
    MissAssemblesResult(query, options, store, env);
  }

  /** No two hits share a product id. */
  predicate DistinctIds(hits: seq<Hit>) {
    forall i, j | 0 <= i < j < |hits| :: hits[i].source.id != hits[j].source.id
  }

  lemma FindIndexOfDistinct(hits: seq<Hit>, i: nat)
    requires DistinctIds(hits)
    requires i < |hits|
    ensures FindIndex(hits, hits[i].source.id) == Some(i)
  {
  }

  /** With the production client every item of the re-ranked list is a product
      of the lexical result: no entry names an unknown id. */
  lemma {:induction false} ReasoningRerankHasNoOrphans(query: string, hits: seq<Hit>,
      rerank: (string, seq<Candidate>) -> Result<seq<Reasoning.Ranking>, AiFailure>,
      reply: (string, seq<Candidate>) -> Reasoning.Reply<seq<Reasoning.Ranking>>)
    requires ReasoningRerank(rerank, reply)
    ensures forall item | item in RerankStep(query, true, hits, rerank).items :: !item.Orphan? && item.hit in hits
  {
    var items := RerankStep(query, true, hits, rerank).items;
    if |hits| > 0 {
      var top := Seqs.Take(hits, RerankWindow);
      var candidates := Candidates(top);
      var rankings := Reasoning.RerankProducts(candidates, reply(query, candidates));
      var sorted := Seqs.SortDesc(rankings, Reasoning.Score);
      Seqs.SortDescIsStableSort(rankings, Reasoning.Score);
      assert items == Reorder(hits, rankings);
      forall i | 0 <= i < |items|
        ensures !items[i].Orphan? && items[i].hit in hits
      {
        if i < |rankings| {
          assert sorted[i] in multiset(rankings);
          var j :| 0 <= j < |rankings| && rankings[j] == sorted[i];
          assert FindIndex(top, sorted[i].productId).Some?;
        } else {
          assert items[i] == items[|rankings|..][i - |rankings|];
          assert Seqs.Take(hits, RerankWindow) + Seqs.Drop(hits, RerankWindow) == hits;
        }
      }
    }
  }

  /** With the production client the re-ranked prefix is exactly as long as the
      parsed answer: a usable answer naming fewer entries than there are
      candidates drops the remaining top products from the result. */
  lemma ReasoningRerankLength(query: string, hits: seq<Hit>,
      rerank: (string, seq<Candidate>) -> Result<seq<Reasoning.Ranking>, AiFailure>,
      reply: (string, seq<Candidate>) -> Reasoning.Reply<seq<Reasoning.Ranking>>)
    requires ReasoningRerank(rerank, reply)
    requires |hits| > 0
    ensures var top := Seqs.Take(hits, RerankWindow);
      var answer := reply(query, Candidates(top));
      var items := RerankStep(query, true, hits, rerank).items;
      && |items| <= |hits|
      && (Reasoning.Usable(answer) && |answer.parsed.value| <= |top| ==>
            |items| == |hits| - |top| + |answer.parsed.value|)
      && (!(Reasoning.Usable(answer) && |answer.parsed.value| <= |top|) ==> |items| == |hits|)
  {
  }

  /** A ranking that names the top hits in their own order and whose scores do
      not increase leaves them in place: each takes its entry's score, and the
      hits beyond the window follow unchanged. */
  lemma {:induction false} PositionalRankingKeepsOrder(hits: seq<Hit>, rankings: seq<Reasoning.Ranking>)
    requires DistinctIds(Seqs.Take(hits, RerankWindow))
    requires |rankings| <= |Seqs.Take(hits, RerankWindow)|
    requires forall i | 0 <= i < |rankings| :: rankings[i].productId == hits[i].source.id
    requires Seqs.SortedDesc(rankings, Reasoning.Score)
    ensures forall i | 0 <= i < |rankings| :: Reorder(hits, rankings)[i] == Scored(hits[i], rankings[i].relevanceScore)
    ensures Reorder(hits, rankings)[|rankings|..] == PlainItems(Seqs.Drop(hits, RerankWindow))
  {
    var top := Seqs.Take(hits, RerankWindow);
    Seqs.SortDescOfSorted(rankings, Reasoning.Score);
    forall i | 0 <= i < |rankings|
      ensures Reorder(hits, rankings)[i] == Scored(hits[i], rankings[i].relevanceScore)
    {
      assert top[i] == hits[i];
      FindIndexOfDistinct(top, i);
    }
  }

  /** A ranking as long as the window leaves every hit beyond it in place. */
  lemma ReorderKeepsTail(hits: seq<Hit>, rankings: seq<Reasoning.Ranking>)
    requires |rankings| == |Seqs.Take(hits, RerankWindow)|
    ensures |Reorder(hits, rankings)| == |hits|
    ensures forall i | |rankings| <= i < |hits| :: Reorder(hits, rankings)[i] == Plain(hits[i])
  {
    var items := Reorder(hits, rankings);
    var top := Seqs.Take(hits, RerankWindow);
    assert top + Seqs.Drop(hits, RerankWindow) == hits;
    forall i | |rankings| <= i < |hits|
      ensures items[i] == Plain(hits[i])
    {
      assert items[i] == items[|rankings|..][i - |rankings|];
      assert Seqs.Drop(hits, RerankWindow)[i - |rankings|] == hits[i];
    }
  }

  /** The fallback ranking of the window reorders nothing: the top hits stay in
      place with the fallback scores, and the rest follow unchanged. */
  lemma FallbackReorderKeepsOrder(hits: seq<Hit>)
    requires DistinctIds(Seqs.Take(hits, RerankWindow))
    ensures var top := Seqs.Take(hits, RerankWindow);
      var items := Reorder(hits, Reasoning.FallbackRanking(Candidates(top)));
      && |items| == |hits|
      && (forall i | 0 <= i < |top| :: items[i] == Scored(hits[i], 100.0 - 10.0 * i as real))
      && (forall i | |top| <= i < |hits| :: items[i] == Plain(hits[i]))
  {
    var top := Seqs.Take(hits, RerankWindow);
    var rankings := Reasoning.FallbackRanking(Candidates(top));
    Reasoning.FallbackRankingKeepsOrder(Candidates(top));
    PositionalRankingKeepsOrder(hits, rankings);
    ReorderKeepsTail(hits, rankings);
  }

  /** With the production client and an unusable or over-long answer, the
      fallback scores keep the lexical order: the top products come back in
      place, scored `100 - 10 * index`, and the rest follow unchanged. */
  lemma {:induction false} ReasoningFallbackKeepsLexicalOrder(query: string, hits: seq<Hit>,
      rerank: (string, seq<Candidate>) -> Result<seq<Reasoning.Ranking>, AiFailure>,
      reply: (string, seq<Candidate>) -> Reasoning.Reply<seq<Reasoning.Ranking>>)
    requires ReasoningRerank(rerank, reply)
    requires |hits| > 0
    requires DistinctIds(Seqs.Take(hits, RerankWindow))
    requires var top := Seqs.Take(hits, RerankWindow);
      var answer := reply(query, Candidates(top));
      !(Reasoning.Usable(answer) && |answer.parsed.value| <= |top|)
    ensures var items := RerankStep(query, true, hits, rerank).items;
      && |items| == |hits|
      && (forall i | 0 <= i < |Seqs.Take(hits, RerankWindow)| ::
            items[i] == Scored(hits[i], 100.0 - 10.0 * i as real))
      && (forall i | |Seqs.Take(hits, RerankWindow)| <= i < |hits| :: items[i] == Plain(hits[i]))
  {
    var candidates := Candidates(Seqs.Take(hits, RerankWindow));
    assert rerank(query, candidates) == Success(Reasoning.FallbackRanking(candidates));
    FallbackReorderKeepsOrder(hits);
  }

  /** With the production client and a usable answer whose scores do not
      increase, the top products keep their lexical order and take the answer's
      scores; a shorter answer drops the top products it does not cover. */
  lemma {:induction false} ReasoningDescendingAnswerKeepsOrder(query: string, hits: seq<Hit>,
      rerank: (string, seq<Candidate>) -> Result<seq<Reasoning.Ranking>, AiFailure>,
      reply: (string, seq<Candidate>) -> Reasoning.Reply<seq<Reasoning.Ranking>>)
    requires ReasoningRerank(rerank, reply)
    requires |hits| > 0
    requires DistinctIds(Seqs.Take(hits, RerankWindow))
    requires var top := Seqs.Take(hits, RerankWindow);
      var answer := reply(query, Candidates(top));
      && Reasoning.Usable(answer)
      && |answer.parsed.value| <= |top|
      && forall i, j | 0 <= i < j < |answer.parsed.value| ::
           answer.parsed.value[i].relevanceScore >= answer.parsed.value[j].relevanceScore
    ensures var top := Seqs.Take(hits, RerankWindow);
      var parsed := reply(query, Candidates(top)).parsed.value;
      var items := RerankStep(query, true, hits, rerank).items;
      && |items| == |parsed| + |hits| - |top|
      && (forall i | 0 <= i < |parsed| :: items[i] == Scored(hits[i], parsed[i].relevanceScore))
      && items[|parsed|..] == PlainItems(Seqs.Drop(hits, RerankWindow))
  {
    var top := Seqs.Take(hits, RerankWindow);
    var candidates := Candidates(top);
    var rankings := Reasoning.RerankProducts(candidates, reply(query, candidates));
    assert Seqs.SortedDesc(rankings, Reasoning.Score);
    assert RerankStep(query, true, hits, rerank).items == Reorder(hits, rankings);
    PositionalRankingKeepsOrder(hits, rankings);
  }
}
