/** The post-processing half of src/services/gemini.service.ts: what the two
    calls return once the language model's streamed answer has been collected.
    The model is an oracle whose answer is given as a `Reply`; the prompts are
    not modelled. Neither call ever fails: every error becomes a fallback. */
module Reasoning {
  import opened Wrappers
  import opened Catalog
  import Seqs

  /** What `JSON.parse` makes of the enhancement answer, read through the
      `QueryEnhancement` interface, which nothing checks. `null` has no fields,
      so reading one throws; `false`, `0` and `""` are falsy and lack every
      field; any other value (an object, an array, `true`, another number or
      string) is truthy and has each field present or missing. */
  datatype QueryEnhancement =
    | NullValue
    | FalsyValue
    | Value(enhancedQuery: Option<string>,
            categories: Option<seq<string>>,
            attributes: Option<map<string, Scalar>>,
            intent: Option<string>)

  /** The shape the interface declares: an object with every field present. */
  predicate WellShaped(e: QueryEnhancement) {
    && e.Value?
    && e.enhancedQuery.Some?
    && e.categories.Some?
    && e.attributes.Some?
    && e.intent.Some?
  }

  datatype Ranking = Ranking(productId: string, relevanceScore: real)

  /** The model's answer: the call failed (network, quota, a stream error), or
      it produced the concatenated text and what `JSON.parse` makes of it.
      `None` covers every parse result that makes the caller throw: text that
      is not JSON, and, for a ranking, JSON that is not an array, whose `map`
      throws. */
  datatype Reply<T> = CallFailed | Answer(text: string, parsed: Option<T>)

  /** The answer is non-empty and parses; anything else throws inside the call. */
  predicate Usable<T>(reply: Reply<T>) {
    reply.Answer? && reply.text != "" && reply.parsed.Some?
  }

  /** The enhancement used when the model gives nothing usable. */
  function PassThrough(query: string): (e: QueryEnhancement)
    ensures WellShaped(e)
    ensures e.enhancedQuery == Some(query)
    ensures e.categories == Some([]) && e.attributes == Some(map[]) && e.intent == Some("search")
  {
    Value(Some(query), Some([]), Some(map[]), Some("search"))
  }

  /** `enhanceSearchQuery`: the parsed answer as it is, whatever its shape, or
      the pass-through enhancement on an empty answer or any error. */
  function EnhanceSearchQuery(query: string, reply: Reply<QueryEnhancement>): (e: QueryEnhancement)
    ensures Usable(reply) ==> e == reply.parsed.value
    ensures !Usable(reply) ==> e == PassThrough(query)
    ensures !WellShaped(e) ==> Usable(reply)
  {
    if Usable(reply) then reply.parsed.value else PassThrough(query)
  }

  /** The sort key of a ranking entry. */
  function Score(r: Ranking): real {
    r.relevanceScore
  }

  /** The ranking used when the model gives nothing usable: every product in
      input order, scored `100 - 10 * index`. */
  function FallbackRanking(products: seq<Candidate>): (r: seq<Ranking>)
    ensures |r| == |products|
    ensures forall i | 0 <= i < |r| :: r[i] == Ranking(products[i].id, 100.0 - 10.0 * i as real)
  {
    seq(|products|, i requires 0 <= i < |products| => Ranking(products[i].id, 100.0 - 10.0 * i as real))
  }

  /** `rerankProducts`. On a usable answer every parsed entry keeps its score but
      its id is overwritten with the id of the product at the same position, so
      the ids the model names are never used; an answer longer than the product
      list makes `products[index]` undefined, the access throws, and the
      fallback is returned, as it is for every other error. */
  function RerankProducts(products: seq<Candidate>, reply: Reply<seq<Ranking>>): (r: seq<Ranking>)
    ensures |r| <= |products|
    ensures forall i | 0 <= i < |r| :: r[i].productId == products[i].id
    ensures Usable(reply) && |reply.parsed.value| <= |products| ==>
      |r| == |reply.parsed.value| &&
      forall i | 0 <= i < |r| :: r[i].relevanceScore == reply.parsed.value[i].relevanceScore
    ensures !(Usable(reply) && |reply.parsed.value| <= |products|) ==> r == FallbackRanking(products)
  {
    if Usable(reply) && |reply.parsed.value| <= |products| then
      var parsed := reply.parsed.value;
      seq(|parsed|, i requires 0 <= i < |parsed| => Ranking(products[i].id, parsed[i].relevanceScore))
    else FallbackRanking(products)
  }

  /** The fallback scores strictly decrease, so a descending sort keeps the
      fallback ranking in input order. */
  lemma FallbackRankingKeepsOrder(products: seq<Candidate>)
    ensures forall i, j | 0 <= i < j < |FallbackRanking(products)| ::
      Score(FallbackRanking(products)[i]) > Score(FallbackRanking(products)[j])
    ensures Seqs.SortDesc(FallbackRanking(products), Score) == FallbackRanking(products)
  {
    Seqs.SortDescOfSorted(FallbackRanking(products), Score);
  }

  /** Only the scores of a usable answer matter: two answers with the same
      score sequence give the same ranking whatever ids they name. */
  lemma RerankIgnoresReplyIds(products: seq<Candidate>, a: Reply<seq<Ranking>>, b: Reply<seq<Ranking>>)
    requires Usable(a) && Usable(b)
    requires |a.parsed.value| == |b.parsed.value|
    requires forall i | 0 <= i < |a.parsed.value| ::
      a.parsed.value[i].relevanceScore == b.parsed.value[i].relevanceScore
    ensures RerankProducts(products, a) == RerankProducts(products, b)
  {
  }
}
