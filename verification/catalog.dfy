/** The values that flow between the services: catalog products, the filter
    object, lexical hits and the items of the final result list. */
module Catalog {
  import opened Wrappers

  /** A scalar attribute value (material, size, weight, power, warranty, ...). */
  datatype Scalar = Text(text: string) | Number(number: real) | Flag(flag: bool)

  /** An indexed catalog record; read-only to every service modelled here. */
  datatype Product = Product(
    id: string,
    name: string,
    description: string,
    category: string,
    subcategory: Option<string>,
    brand: string,
    price: real,
    attributes: map<string, Scalar>,
    tags: seq<string>,
    inStock: bool,
    ean: Option<string>,
    articleNumber: string)

  /** Highlighted snippets per field name. */
  type Highlight = map<string, seq<string>>

  /** One lexical hit: the stored product plus the engine's `_score` and
      `_highlight` annotations. */
  datatype Hit = Hit(source: Product, score: real, highlight: Option<Highlight>)

  /** What the lexical client returns: hits in engine order, the total match
      count and the engine's latency in milliseconds. */
  datatype SearchResult = SearchResult(products: seq<Hit>, total: nat, took: nat)

  /** One entry of the orchestrator's final product list. */
  datatype ResultItem =
    | Plain(hit: Hit)
      // a lexical hit left as it was
    | Scored(hit: Hit, aiScore: real)
      // a re-ranked product carrying its AI score
    | Orphan(aiScore: real)
      // only an AI score: a ranking entry whose id matched no product

  /** The projection of a product that is submitted for re-ranking. */
  datatype Candidate = Candidate(id: string, name: string, description: string, category: string, price: real)

  function CandidateOf(h: Hit): (c: Candidate)
    ensures c.id == h.source.id && c.name == h.source.name && c.description == h.source.description
    ensures c.category == h.source.category && c.price == h.source.price
  {
    Candidate(h.source.id, h.source.name, h.source.description, h.source.category, h.source.price)
  }

  // ---------------------------------------------------------------------------
  // The filter object. A JavaScript object remembers the order in which its
  // fields were added, and `JSON.stringify` (hence the cache key) depends on
  // that order, so filters are an insertion-ordered list of named fields.
  // ---------------------------------------------------------------------------

  datatype FieldName = CategoryName | InStockName | PriceRangeName

  datatype FilterField =
    | CategoryField(category: string)
    | InStockField(inStock: bool)
    | PriceRangeField(min: real, max: real)

  function NameOf(f: FilterField): FieldName {
    match f
    case CategoryField(_) => CategoryName
    case InStockField(_) => InStockName
    case PriceRangeField(_, _) => PriceRangeName
  }

  /** An object holds each field name at most once. */
  predicate UniqueNames(fs: seq<FilterField>) {
    forall i, j | 0 <= i < j < |fs| :: NameOf(fs[i]) != NameOf(fs[j])
  }

  type Filters = fs: seq<FilterField> | UniqueNames(fs) witness []

  /** `filters[name]`. */
  function FieldOf(fs: seq<FilterField>, name: FieldName): (r: Option<FilterField>)
    ensures r.Some? ==> r.value in fs && NameOf(r.value) == name
    ensures r.None? ==> forall i | 0 <= i < |fs| :: NameOf(fs[i]) != name
    decreases |fs|
  {
    if |fs| == 0 then None
    else if NameOf(fs[0]) == name then Some(fs[0])
    else FieldOf(fs[1..], name)
  }

  /** `filters.category`, absent when the field is. */
  function CategoryOf(fs: Filters): Option<string> {
    match FieldOf(fs, CategoryName)
    case Some(CategoryField(c)) => Some(c)
    case _ => None
  }

  /** `filters.inStock`, absent when the field is. */
  function InStockOf(fs: Filters): Option<bool> {
    match FieldOf(fs, InStockName)
    case Some(InStockField(b)) => Some(b)
    case _ => None
  }

  /** `filters.priceRange` as `(min, max)`, absent when the field is. */
  function PriceRangeOf(fs: Filters): Option<(real, real)> {
    match FieldOf(fs, PriceRangeName)
    case Some(PriceRangeField(lo, hi)) => Some((lo, hi))
    case _ => None
  }

  /** JavaScript truthiness of `filters?.category`: present and not the empty string. */
  predicate HasCategory(filters: Option<Filters>) {
    filters.Some? && CategoryOf(filters.value).Some? && CategoryOf(filters.value).value != ""
  }

  /** Spreading the filters into a new object and setting its category: an
      existing category field is overwritten in place; otherwise the field is
      added last. Spreading no filters at all gives an object with only the
      category. */
  function WithCategory(filters: Option<Filters>, c: string): (r: Filters)
    ensures CategoryOf(r) == Some(c)
    ensures filters.Some? ==> InStockOf(r) == InStockOf(filters.value)
    ensures filters.Some? ==> PriceRangeOf(r) == PriceRangeOf(filters.value)
    ensures filters.None? ==> r == [CategoryField(c)]
    ensures filters.Some? && FieldOf(filters.value, CategoryName).None?
        ==> r == filters.value + [CategoryField(c)]
  {
    match filters
    case None => [CategoryField(c)]
    case Some(fs) =>
      if FieldOf(fs, CategoryName).Some? then
        var r := seq(|fs|, i requires 0 <= i < |fs| => if fs[i].CategoryField? then CategoryField(c) else fs[i]);
        assert forall i | 0 <= i < |fs| :: NameOf(r[i]) == NameOf(fs[i]);
        ReplacedFieldLookup(fs, r, c);
        r
      else
        var r := fs + [CategoryField(c)];
        AppendedFieldLookup(fs, c);
        r
  }

  lemma {:induction false} ReplacedFieldLookup(fs: seq<FilterField>, r: seq<FilterField>, c: string)
    requires |r| == |fs|
    requires forall i | 0 <= i < |fs| :: r[i] == if fs[i].CategoryField? then CategoryField(c) else fs[i]
    requires FieldOf(fs, CategoryName).Some?
    ensures FieldOf(r, CategoryName) == Some(CategoryField(c))
    ensures FieldOf(r, InStockName) == FieldOf(fs, InStockName)
    ensures FieldOf(r, PriceRangeName) == FieldOf(fs, PriceRangeName)
    decreases |fs|
  {
    if NameOf(fs[0]) != CategoryName {
      ReplacedFieldLookup(fs[1..], r[1..], c);
    } else {
      OtherFieldsUnchanged(fs[1..], r[1..], c);
    }
  }

  lemma {:induction false} OtherFieldsUnchanged(fs: seq<FilterField>, r: seq<FilterField>, c: string)
    requires |r| == |fs|
    requires forall i | 0 <= i < |fs| :: r[i] == if fs[i].CategoryField? then CategoryField(c) else fs[i]
    ensures FieldOf(r, InStockName) == FieldOf(fs, InStockName)
    ensures FieldOf(r, PriceRangeName) == FieldOf(fs, PriceRangeName)
    decreases |fs|
  {
    if |fs| > 0 {
      OtherFieldsUnchanged(fs[1..], r[1..], c);
    }
  }

  lemma {:induction false} AppendedFieldLookup(fs: seq<FilterField>, c: string)
    requires FieldOf(fs, CategoryName).None?
    ensures FieldOf(fs + [CategoryField(c)], CategoryName) == Some(CategoryField(c))
    ensures FieldOf(fs + [CategoryField(c)], InStockName) == FieldOf(fs, InStockName)
    ensures FieldOf(fs + [CategoryField(c)], PriceRangeName) == FieldOf(fs, PriceRangeName)
    decreases |fs|
  {
    if |fs| > 0 {
      assert (fs + [CategoryField(c)])[1..] == fs[1..] + [CategoryField(c)];
      AppendedFieldLookup(fs[1..], c);
    }
  }
}
