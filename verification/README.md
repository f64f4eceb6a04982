# Product search with cache — a Dafny model

This project models the decision logic of a cache-aside product search service. A request for a free-text query goes through these steps:

1. It consults a keyed cache.
2. It may ask a reasoning service (a language model) to rewrite the query. That step may also adopt a category filter.
3. It runs a lexical multi-field search.
4. It may ask the reasoning service to re-rank the first 20 hits.
5. It writes the assembled result back to the cache.

Around this orchestrator the model covers:

- the keyed cache (`cache.service.ts`);
- a second TTL cache with logical expiry (`redis.service.ts`);
- the post-processing and fallbacks of the reasoning client (`gemini.service.ts`);
- the lexical client's request bodies and answer mapping (`opensearch.service.ts`);
- the HTTP controller that turns query strings into filters and options (`search.controller.ts`).

The model is functional. The caches' stores are finite maps. Each external collaborator is an oracle passed in as a function returning `Option`/`Result`: the cache store's client, the search engine and the language model. Time is a parameter. Every external call a request makes is recorded, in order, in the `calls` of its `Run`.

| file | module | models |
|---|---|---|
| wrappers.dfy | `Wrappers` | `Option`, `Result` |
| seqs.dfy | `Seqs` | prefix/suffix, de-duplication by first occurrence, the stable descending sort |
| catalog.dfy | `Catalog` | products, hits, result items, filter objects (with JavaScript field order) |
| keyed_cache.dfy | `KeyedCache` | src/services/cache.service.ts |
| ttl_cache.dfy | `TtlCache` | src/services/redis.service.ts |
| lexical.dfy | `Lexical` | src/services/opensearch.service.ts |
| reasoning.dfy | `Reasoning` | src/services/gemini.service.ts |
| search_service.dfy | `SearchService` | src/services/search.service.ts |
| search_properties.dfy | `SearchProperties` | request-level properties of the orchestrator |
| search_controller.dfy | `SearchController` | src/controllers/search.controller.ts |

## Modelling decisions

- **Cache keys.** A cache key is `prefix + ":" + md5hex(JSON.stringify(params))`. The digest is an uninterpreted parameter `fingerprint: P -> HexDigest`, where `HexDigest` is a 32-character lower-case hex string. Parameter objects are structured values.
- **Filter field order.** `JSON.stringify` depends on the order in which an object's fields were added. So a filter object is an insertion-ordered list of uniquely named fields. `{...filters, category}` overwrites an existing category in place, and otherwise appends it last.
- **One shared store.** The three namespaces ("search", "suggestions", "product") share one store of a sum type `Payload`.
  - The invariant `SearchService.WellTyped` says each namespace holds only its own kind of payload.
  - It is required by, and preserved by, every service operation. A mistyped cached value is therefore unreachable.
- **Missing products in a ranking.** A ranking entry whose id is not among the top hits becomes an `Orphan` item carrying only the score. This is what `{...undefined, _aiScore}` produces.
- **The production reasoning client.** `SearchProperties.ReasoningEnhance` and `SearchProperties.ReasoningRerank` say that the oracles are `Reasoning.EnhanceSearchQuery` and `Reasoning.RerankProducts` over the model's replies. Under them neither AI step ever fails.

### Behaviour of the code worth knowing

- **Short rankings drop products.** Rankings are not validated. Ids are reassigned by position (src/services/gemini.service.ts:144-147), so a usable answer with fewer entries than candidates re-ranks only that many top products. The rest of the top 20 disappear from the result (`SearchProperties.ReasoningRerankLength`). An answer longer than the candidate list throws, and the fallback order is used.
- **No shape checks on the enhancement.** A parsed enhancement is used as it is (src/services/gemini.service.ts:73). `Reasoning.QueryEnhancement` therefore has three shapes: `null`, a falsy scalar, and any other value whose four fields may each be missing. The orchestrator assigns the search text before it reads the categories, inside one `try` (src/services/search.service.ts:40-44):
  - `null`: reading the text throws, so the caller's query is searched with the caller's filters.
  - `false`, `0` or `""`: the text is `undefined`, and reading the categories then throws. The engine receives a request with no query text.
  - any other value: its text (possibly `undefined`) is searched. A missing category list throws after that, and the filters stay the caller's.
- **Keyed-cache failures mostly propagate.** These store errors reach the caller:
  - the initial read in `get`;
  - `set` and `invalidate`;
  - the key listing and the INFO request in `getStats`.

  Two calls run inside a `try`:
  - `getStats` skips a sampled key whose read fails (src/services/cache.service.ts:115-125).
  - In `get`, a failed write-back of the hit count is caught (src/services/cache.service.ts:53-66). The key is then deleted and the read answers a miss. If that delete fails too, its error reaches the caller.
- **The write key can differ from the read key.** The write key uses the filters after category adoption (src/services/search.service.ts:109), and the read key uses the caller's (:26).
  - When a category was adopted and the digest tells the two parameter objects apart, a repeated request misses again (`SearchProperties.AdoptedWriteMissesOnRepeat`).
  - Through the controller, a write with an adopted category is never read at all (`SearchController.ControllerNeverReadsAdoptedWrite`). The controller puts a category first, or none, while adoption appends it after `inStock`.
- **When the enhancement is recorded.** With the production client, an AI-enabled miss records `queryEnhancement` whenever the model answered nothing usable, because the pass-through enhancement is a value, and whenever the answer is a truthy value. A `null` or falsy answer leaves it out (`SearchProperties.ReasoningEnhancementByShape`).
- **Controller searches always filter on stock.** The schema turns an absent `inStock` into `false`, and the filter object always carries the field. So every controller search filters on `inStock: false` unless the parameter is the literal `true` (`SearchController.ControllerAlwaysFiltersOnStock`).

## Model

| member | source | states |
|---|---|---|
| Seqs.DedupIsFirstOccurrences | src/services/opensearch.service.ts:262-263 | de-duplication yields no duplicates, exactly the input's elements, and keeps them in order of first occurrence |
| Seqs.SortDescIsStableSort | src/services/search.service.ts:75-76 | the descending sort is a permutation, is sorted by score, and keeps the relative order of equal scores |
| Seqs.TopOfSortDesc | src/services/cache.service.ts:128-133 | the first n of the sorted list are sorted, a sub-multiset of the input, and no left-out element outranks one taken |
| Catalog.CandidateOf | src/services/search.service.ts:65-71 | a candidate carries exactly the hit's id, name, description, category and price |
| Catalog.WithCategory | src/services/search.service.ts:44-48 | the spread sets the category, keeps stock and price range, and appends a new category field after the existing ones |
| KeyedCache.GenerateKey | src/services/cache.service.ts:35-41 | a key is the namespace, a colon and a 32-character digest, so it lies in its namespace |
| KeyedCache.KeyDeterminesPrefixAndDigest | src/services/cache.service.ts:35-41 | two derived keys are equal iff their namespaces and digests are equal |
| KeyedCache.Get | src/services/cache.service.ts:43-68 | a hit returns the data and stores it back with one more hit and a fresh expiry; unparseable values are deleted; absent keys change nothing |
| KeyedCache.Set | src/services/cache.service.ts:70-83 | a write replaces the key's value with a fresh entry with zero hits and leaves every other key alone |
| KeyedCache.Invalidate | src/services/cache.service.ts:85-99 | with truthy params exactly the derived key is removed; with none or falsy ones, exactly the namespace's keys; the rest is unchanged |
| KeyedCache.SetThenGet | src/services/cache.service.ts:43-83 | a read after a write returns the written data and counts one hit |
| KeyedCache.RepeatedGetCountsHits | src/services/cache.service.ts:53-62 | two reads return the same data and add two hits without touching the timestamp |
| KeyedCache.NamespacesAreIsolated | src/services/cache.service.ts:35-83 | a write in one namespace does not change what reads in another return |
| KeyedCache.InvalidatedNamespaceMisses | src/services/cache.service.ts:85-99 | after a namespace is invalidated, with no params or falsy ones, every read under it misses |
| KeyedCache.Sample | src/services/cache.service.ts:114-126 | the sample holds exactly the sampled keys whose value parses, each with its hit count, in listing order (for a listing without repeats), and a key holding nothing parseable is skipped |
| KeyedCache.GetStats | src/services/cache.service.ts:101-135 | the key count is the store's size; the top keys are min(10, sample size) records drawn without repetition from the sample of the first 100 listed keys, sorted by hits, none outranked by a left-out sampled key |
| KeyedCache.ListingCountsStore | src/services/cache.service.ts:108-131 | a duplicate-free listing of the store's keys is as long as the store is large |
| TtlCache.StoreKey | src/services/redis.service.ts:115-117 | a store key starts with the configured prefix and ends with the caller's key |
| TtlCache.Get | src/services/redis.service.ts:30-48 | a value is returned iff the store still holds the key (its store expiry has not passed) as an entry whose logical ttl has not run out; a logically expired entry is deleted; every other case answers nothing |
| TtlCache.EffectiveTtl | src/services/redis.service.ts:52 | an absent or zero ttl falls back to the default |
| TtlCache.Set | src/services/redis.service.ts:50-67 | a write stores data, time and ttl with a store expiry of the same ttl; an unreachable store or an integer ttl the store rejects (not positive) changes nothing |
| TtlCache.Delete | src/services/redis.service.ts:69-75 | exactly the prefixed key is removed, or nothing when the store is unreachable |
| TtlCache.Flush | src/services/redis.service.ts:77-86 | exactly the keys carrying the prefix are removed and the rest keep their values |
| TtlCache.Exists | src/services/redis.service.ts:88-96 | true iff the store is reachable and still holds the prefixed key; a key that exists reads back unless it is not an entry or its logical ttl ran out |
| TtlCache.Increment | src/services/redis.service.ts:98-105 | the amount defaults to 1; a key not held counts from zero without an expiry; a counter adds the amount and keeps its expiry; an amount, count or sum outside signed 64 bits, a non-counter or an unreachable store answers 0 and writes nothing |
| TtlCache.Expire | src/services/redis.service.ts:107-113 | a key the store holds gets the new store expiry, a non-positive one deletes it, and a key not held or an error changes nothing |
| TtlCache.SetThenGetWithinTtl | src/services/redis.service.ts:30-67 | a value read no later than its ttl after the write is returned, the boundary included |
| TtlCache.SetThenGetAfterTtl | src/services/redis.service.ts:30-67 | a value read after its ttl is gone, and the key no longer exists |
| TtlCache.FlushThenGetMisses | src/services/redis.service.ts:77-86 | after a flush no key written through the service is readable |
| TtlCache.DeleteThenGetMisses | src/services/redis.service.ts:69-75 | a deleted key reads as absent |
| TtlCache.SetThenExists | src/services/redis.service.ts:50-96 | a written key exists exactly until its ttl has passed |
| TtlCache.UnreachableStoreIsNeutral | src/services/redis.service.ts:30-113 | with the store unreachable every operation leaves it unchanged and answers null, false or 0 |
| TtlCache.ExpireKeepsLogicalExpiry | src/services/redis.service.ts:38-43 | until the new store expiry passes, a read answers what the entry's own logical expiry decides |
| TtlCache.ExpireEvictsAfterDeadline | src/services/redis.service.ts:107-113 | once the new store expiry of a held key has passed, reads miss and the key no longer exists |
| TtlCache.IncrementsAccumulate | src/services/redis.service.ts:98-105 | two increments of a key not held sum up while within signed 64 bits, and the default amount adds 1 |
| TtlCache.IncrementOverflowAnswersZero | src/services/redis.service.ts:98-105 | incrementing the largest 64-bit counter answers 0 and leaves the store unchanged |
| Lexical.ShouldClauses | src/services/opensearch.service.ts:150-178 | exactly three clauses on the same text: fuzzy multi-field, article number boosted 5, EAN boosted 5 |
| Lexical.FilterClauses | src/services/opensearch.service.ts:189-211 | a category term when the category is truthy, a stock term when it is defined, an inclusive price range when given, no other clause, in that order |
| Lexical.BuildQuery | src/services/opensearch.service.ts:146-211 | size 50, the three should-clauses, at least one must match, and a filter list exactly when filters are given |
| Lexical.FilterClausesMeanFilters | src/services/opensearch.service.ts:189-211 | a product passes every emitted clause iff it satisfies every present filter field |
| Lexical.MapResponse | src/services/opensearch.service.ts:218-226 | hits keep the engine's order, each its source with score and highlight; total and took are passed on |
| Lexical.Search | src/services/opensearch.service.ts:146-227 | an engine failure is passed on; otherwise one product per hit, in order, each the hit's source with its score and highlight, with total and took carried over |
| Lexical.GetSuggestions | src/services/opensearch.service.ts:245-264 | at most 10 names, no duplicates, exactly the names among the first 10 matches, in order of first occurrence; a failure is passed on |
| Lexical.GetProductById | src/services/opensearch.service.ts:229-243 | a found document is returned, a 404 gives null, and any other failure is passed on |
| Lexical.BulkOperations | src/services/opensearch.service.ts:134-138 | twice as many operations as products, an index action with the product's id before each product |
| Lexical.BulkIndexesEveryProduct | src/services/opensearch.service.ts:134-138 | the documents of the bulk body are the products in order, each under its own id |
| Reasoning.PassThrough | src/services/gemini.service.ts:77-82 | the fallback keeps the query text, with no categories, no attributes and intent "search" |
| Reasoning.EnhanceSearchQuery | src/services/gemini.service.ts:54-83 | a usable answer is returned as parsed, whatever its shape, and anything else gives the pass-through; a result not of the declared shape came from the model |
| Reasoning.FallbackRanking | src/services/gemini.service.ts:150-154 | one entry per product in input order, scored 100 - 10 * index |
| Reasoning.RerankProducts | src/services/gemini.service.ts:122-155 | never longer than the input, ids follow input position, scores come from a usable answer that is not too long, otherwise the fallback |
| Reasoning.FallbackRankingKeepsOrder | src/services/gemini.service.ts:150-154 | fallback scores strictly decrease, so the descending sort leaves the fallback ranking as it is |
| Reasoning.RerankIgnoresReplyIds | src/services/gemini.service.ts:141-147 | answers with equal score sequences give equal rankings, whatever ids they name |
| SearchService.Resolve | src/services/search.service.ts:21 | without options AI is on and caching is on; absent flags take the same defaults |
| SearchService.EnhanceStep | src/services/search.service.ts:34-54 | with AI on and an enhancement: `null` keeps the text, a falsy value makes it undefined, any other value supplies its text; its first category is adopted only when it has a non-empty list and the caller gave no truthy category, keeping the other fields; otherwise nothing changes |
| SearchService.FindIndex | src/services/search.service.ts:78 | the first hit carrying the id, or none when no hit does |
| SearchService.Candidates | src/services/search.service.ts:65-71 | one candidate per top hit, in order |
| SearchService.Reorder | src/services/search.service.ts:75-89 | the re-ranked list has one item per ranking entry in descending score order, then the hits beyond 20 unchanged |
| SearchService.RerankStep | src/services/search.service.ts:60-94 | re-ranking only with AI on and hits present, on the original text and the first 20 hits; a failure keeps the lexical order |
| SearchService.RecordOf | src/services/search.service.ts:96-105 | the record exists iff the enhancement is a truthy value, and carries the caller's query as original with the value's text, categories and intent |
| SearchService.Search | src/services/search.service.ts:16-114 | every namespace of the store keeps holding only its own kind of payload |
| SearchService.GetSuggestions | src/services/search.service.ts:116-129 | a cached list, even empty, is returned unchanged with one cache read; otherwise the fetch is returned, and the calls are exactly the read, the fetch and, on success only, the write; a failure leaves the store as the read left it |
| SearchService.GetProduct | src/services/search.service.ts:131-146 | a cached product is returned with one cache read; otherwise the lookup's answer is returned and written to the store only when a product was found |
| SearchProperties.CacheHitShortCircuits | src/services/search.service.ts:25-31 | a cached answer is returned unchanged and the cache read is the only call |
| SearchProperties.NoCacheBypassesStore | src/services/search.service.ts:25-111 | with cache bypass the store is neither read nor written |
| SearchProperties.MissSearchesWithPlan | src/services/search.service.ts:34-57 | on a miss enhancement is requested iff AI is on, and the engine gets the planned text and effective filters |
| SearchProperties.RerankOnlyWhenUseful | src/services/search.service.ts:60 | a re-rank happens iff the request missed the cache, AI is on and the lexical search found hits |
| SearchProperties.RerankSeesOriginalTextAndTopHits | src/services/search.service.ts:62-72 | every re-rank is asked about the caller's original text and the first 20 hits, never more |
| SearchProperties.MissAssemblesResult | src/services/search.service.ts:96-105 | `enhanced` equals the AI flag; counts come from the engine; the record is present iff AI is on and the client returned a truthy value |
| SearchProperties.EngineFailureIsFatal | src/services/search.service.ts:57 | a failing lexical search fails the request with nothing re-ranked or written |
| SearchProperties.WriteKeyUsesEffectiveFilters | src/services/search.service.ts:108-111 | the write goes under the query, the filters after adoption and the AI flag |
| SearchProperties.AdoptionChangesWriteParams | src/services/search.service.ts:44-49 | the effective filters differ from the caller's only through adoption, and adopting a non-empty category always changes them |
| SearchProperties.RepeatWithoutAdoptionHits | src/services/search.service.ts:25-111 | without adoption a repeated request is served from the cache with the same answer and no other call |
| SearchProperties.AdoptedWriteMissesOnRepeat | src/services/search.service.ts:26-109 | with adoption, a repeated request misses again when the digests differ |
| SearchProperties.SuggestionsRepeatHits | src/services/search.service.ts:116-129 | fetched suggestions are served from the cache on the next request |
| SearchProperties.ProductRepeat | src/services/search.service.ts:131-146 | a found product is served from the cache next time, and a missing one is looked up again |
| SearchProperties.ReasoningEnhancementByShape | src/services/search.service.ts:38-54 | with the production client: an unusable answer searches the query and records the pass-through; `null` searches the query and records nothing; a falsy value searches no text and records nothing; any other value searches and records its text |
| SearchProperties.ReasoningWellShapedEnhancement | src/services/search.service.ts:38-105 | with the production client a well-shaped answer is searched with its text and recorded with its text, categories and intent |
| SearchProperties.FindIndexOfDistinct | src/services/search.service.ts:78 | with distinct ids the lookup finds each hit at its own position |
| SearchProperties.ReasoningRerankHasNoOrphans | src/services/search.service.ts:75-89 | with the production client every re-ranked item is a product of the lexical result |
| SearchProperties.ReasoningRerankLength | src/services/search.service.ts:75-89 | with the production client the result shrinks by exactly the top products a short answer leaves out |
| SearchProperties.PositionalRankingKeepsOrder | src/services/search.service.ts:75-89 | a non-increasing ranking naming the top hits in order leaves them in place with their scores, the rest following unchanged |
| SearchProperties.ReasoningFallbackKeepsLexicalOrder | src/services/search.service.ts:75-89 | with the fallback ranking the lexical order is kept, top products scored 100 - 10 * index |
| SearchProperties.ReorderKeepsTail | src/services/search.service.ts:85-89 | with one ranking entry per top hit the list keeps its length, and the hits beyond the first 20 follow the re-ranked items unchanged |
| SearchProperties.ReasoningDescendingAnswerKeepsOrder | src/services/search.service.ts:75-89 | an answer with non-increasing scores keeps the lexical order and attaches the answer's scores |
| SearchController.OrElse | src/controllers/search.controller.ts:29-30 | a missing, NaN or zero bound is replaced by its default |
| SearchController.ParsePrice | src/controllers/search.controller.ts:9-10 | an absent or empty price is undefined, otherwise what parseFloat reads |
| SearchController.Utf16Length | src/controllers/search.controller.ts:6 | a string's length in UTF-16 code units lies between its character count and twice that |
| SearchController.ParseSearchQuery | src/controllers/search.controller.ts:5-13 | accepted iff q has 1 to 200 UTF-16 code units; inStock is true only for "true", useAI is true unless given otherwise, noCache only for "true" |
| SearchController.LengthBoundCountsCodeUnits | src/controllers/search.controller.ts:6 | an illustration of the code-unit bound: 101 astral characters are rejected, while 200 plain letters are accepted |
| SearchController.BuildFilters | src/controllers/search.controller.ts:24-32 | category iff non-empty, stock always, price range iff a bound is given with defaults 0 and 999999, in that order |
| SearchController.HandleSearch | src/controllers/search.controller.ts:20-60 | 400 iff the schema rejects, otherwise the service's answer for q with exactly the built options, 500 on failure |
| SearchController.HandleSuggestions | src/controllers/search.controller.ts:62-87 | 400 unless q has 1 to 50 UTF-16 code units, with no call made; otherwise exactly the service's calls and store, 500 on failure, else the service's list |
| SearchController.HandleGetProduct | src/controllers/search.controller.ts:89-113 | 404 iff the service finds nothing, 500 iff it fails, otherwise the product |
| SearchController.ControllerSettings | src/controllers/search.controller.ts:34-38 | the service receives both flags and the filter object, so its own defaults never apply |
| SearchController.ControllerAlwaysFiltersOnStock | src/controllers/search.controller.ts:8-26 | every lexical search from the controller filters on stock, false unless the parameter was "true" |
| SearchController.ControllerNeverReadsAdoptedWrite | src/controllers/search.controller.ts:24-38 | a write with an adopted category never has the parameters a controller request reads with |

## Left out

- Network clients and SDKs (the Redis, OpenSearch and Gemini clients, their timeouts and connection handling) are oracles. Streaming and chunk concatenation of the model's answer are folded into one `Reply` value.
- Prompt texts are not modelled. The price-sensitivity instruction is prompt-only, and no code enforces it.
- MD5, `JSON.stringify` and `JSON.parse` are not computed. The digest is a parameter, and parsing is represented by `Parsed`/`Unparseable` (or `Option`) values. `Unparseable` covers everything that makes the keyed cache's read throw.
- `Date.now` is a parameter. `parseFloat` is a parameter returning a real or NaN.
- Relevance scores and prices are reals. NaN scores are not modelled, and the re-rank sort comparator assumes a total order.
- SearchService.Search: its own contract states only that the store invariant is kept; what a request returns, calls and writes is stated by the `SearchProperties` lemmas about it.
- KeyedCache.Get: store-side expiry (`EX`) is recorded on each slot but never evicts anything. Time-based eviction by the store is not modelled. Store errors in the keyed cache are not modelled either: the initial read's error propagates to the caller, and a failed write-back of the hit count deletes the key and answers a miss, unless that delete fails as well, when its error propagates. In `getStats`, a sampled key whose read fails is skipped.
- SearchProperties.RepeatWithoutAdoptionHits: the keyed cache has no clock, so the lemma speaks of a repeat that comes before the store's one-hour expiry of the entry.
- KeyedCache.Invalidate: glob metacharacters (`*`, `?`, `[`, `\`) in the prefix are not interpreted. Without params the namespace is matched literally as the prefix followed by a colon, which is what `KEYS prefix:*` selects only when the prefix holds none of them.
- KeyedCache.GetStats: the memory figure parsed from the store's INFO text is not modelled. The listing is assumed duplicate-free and to enumerate the store.
- TtlCache: a failure is decided once per operation by `Link`. A partial failure, such as the read succeeding but the delete of an expired entry failing, is not modelled separately. A counter read by `get` answers `undefined` in the source, and the model answers `None`.
- TtlCache: `CACHE_KEY_PREFIX` and `REDIS_CACHE_TTL` are not defined in src/config/index.ts, so they are the `Config` parameter.
- TtlCache.Increment: the answer is the exact integer the store replies with; beyond 2^53 the JavaScript number the client hands back would be rounded. Amounts that are not integers are not modelled.
- TtlCache.Set: the store expiry is a deadline in milliseconds, and the store's own eviction is modelled as a key past its deadline counting as absent. When the key is physically removed, and the store's second resolution, are not modelled. The ttl is an integer: a fractional ttl, which SETEX rejects so that nothing is written, and a NaN ttl, which `||` replaces by the default, are not modelled.
- TtlCache.Expire: `seconds` is an integer; a fractional number of seconds, which EXPIRE rejects so that nothing changes, is not modelled.
- Reasoning.EnhanceSearchQuery: field values of a type other than the declared one (a string as `categories`, a number as `enhancedQuery`) are not modelled; each field is either missing or of its declared type.
- Reasoning.RerankProducts: ranking entries whose `relevanceScore` is not a number are not modelled.
- TtlCache.Flush: glob metacharacters in the prefix are not interpreted. The prefix is matched literally.
- Lexical: relevance scoring, fuzziness, analyzers and the index schema are inside the engine oracle. `indexProduct`, `createIndex` and the client setup are not part of the model.
- Lexical.GetSuggestions: the engine's cap of `size` hits is applied by the model, as the first 10 of the matching names.
- SearchController: array-valued query parameters are not modelled; each parameter is a string or absent. Zod's error details and the response bodies are not modelled, only the statuses and the data returned.
- Concurrency is not modelled: interleaved requests, the lost-update race on the hit counter, and concurrent identical misses.
- scripts/seedProducts.ts, src/index.ts, src/routes/search.routes.ts, the middleware, the logger, src/config/index.ts and src/types/index.ts are not part of this model. They are wiring, glue and constants; the constants used are `cache.ttl = 3600` and `search.maxResults = 50`.
