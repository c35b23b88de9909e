/**
 * The home page's filter bar: seven text filters read from the URL, edited
 * one at a time, and turned back into the URL's parameters on search.
 */
module SearchFilters {
  import opened Common
  import opened FilterParams

  datatype Filters = Filters(
    search: string, propertyType: string, transactionType: string,
    minPrice: string, maxPrice: string, bedrooms: string, province: string)

  datatype FilterKey = Search | PropertyType | TransactionType | MinPrice | MaxPrice | Bedrooms | Province

  /** The key's name as an object key and as a URL parameter. */
  function Name(k: FilterKey): string {
    match k
    case Search => "search"
    case PropertyType => "property_type"
    case TransactionType => "transaction_type"
    case MinPrice => "min_price"
    case MaxPrice => "max_price"
    case Bedrooms => "bedrooms"
    case Province => "province"
  }

  function Value(f: Filters, k: FilterKey): string {
    match k
    case Search => f.search
    case PropertyType => f.propertyType
    case TransactionType => f.transactionType
    case MinPrice => f.minPrice
    case MaxPrice => f.maxPrice
    case Bedrooms => f.bedrooms
    case Province => f.province
  }

  /** `{ ...prev, [key]: value }`. */
  function WithValue(f: Filters, k: FilterKey, v: string): (r: Filters)
    ensures Value(r, k) == v
    ensures forall k' :: k' != k ==> Value(r, k') == Value(f, k')
  {
    match k
    case Search => f.(search := v)
    case PropertyType => f.(propertyType := v)
    case TransactionType => f.(transactionType := v)
    case MinPrice => f.(minPrice := v)
    case MaxPrice => f.(maxPrice := v)
    case Bedrooms => f.(bedrooms := v)
    case Province => f.(province := v)
  }

  /** The position of a key in the object's entries. */
  function Index(k: FilterKey): nat {
    match k
    case Search => 0
    case PropertyType => 1
    case TransactionType => 2
    case MinPrice => 3
    case MaxPrice => 4
    case Bedrooms => 5
    case Province => 6
  }

  /** `Object.entries(filters)`, in declaration order. */
  function Entries(f: Filters): (es: Params)
    ensures |es| == 7
    ensures forall k :: es[Index(k)] == (Name(k), Value(f, k))
  {
    [("search", f.search), ("property_type", f.propertyType), ("transaction_type", f.transactionType),
     ("min_price", f.minPrice), ("max_price", f.maxPrice), ("bedrooms", f.bedrooms), ("province", f.province)]
  }

  lemma EntriesDistinct(f: Filters)
    ensures DistinctKeys(Entries(f))
  {
    var es := Entries(f);
    forall i, j | 0 <= i < j < |es| ensures es[i].0 != es[j].0 {
      assert es[i].0[..2] != es[j].0[..2] || es[i].0 != es[j].0;
    }
  }

  /** The filters as the page opens: each from its URL parameter, '' when absent. */
  function FromUrl(url: Params): Filters {
    Filters(
      OrEmpty(Get(url, "search")), OrEmpty(Get(url, "property_type")), OrEmpty(Get(url, "transaction_type")),
      OrEmpty(Get(url, "min_price")), OrEmpty(Get(url, "max_price")), OrEmpty(Get(url, "bedrooms")),
      OrEmpty(Get(url, "province")))
  }

  /** Each filter is its parameter, or '' when the parameter is absent or empty. */
  lemma FromUrlValue(url: Params, k: FilterKey)
    ensures Value(FromUrl(url), k) == OrEmpty(Get(url, Name(k)))
    ensures Get(url, Name(k)).None? ==> Value(FromUrl(url), k) == ""
  {
  }

  const Cleared := Filters("", "", "", "", "", "", "")

  /** The parameters of a search: exactly the non-empty filters, with their values. */
  lemma SearchParamsExact(f: Filters, k: FilterKey)
    ensures Get(NonEmptyPairs(Entries(f)), Name(k)) == if Value(f, k) != "" then Some(Value(f, k)) else None
  {
    EntriesDistinct(f);
    GetNonEmpty(Entries(f), Index(k));
  }

  /** Reading the filters back from the pushed parameters gives the same filters. */
  lemma SearchRoundTrip(f: Filters)
    ensures FromUrl(NonEmptyPairs(Entries(f))) == f
  {
    forall k ensures Value(FromUrl(NonEmptyPairs(Entries(f))), k) == Value(f, k) {
      SearchParamsExact(f, k);
      FromUrlValue(NonEmptyPairs(Entries(f)), k);
    }
    var g := FromUrl(NonEmptyPairs(Entries(f)));
    assert Value(g, Search) == Value(f, Search) && Value(g, PropertyType) == Value(f, PropertyType);
    assert Value(g, TransactionType) == Value(f, TransactionType) && Value(g, MinPrice) == Value(f, MinPrice);
    assert Value(g, MaxPrice) == Value(f, MaxPrice) && Value(g, Bedrooms) == Value(f, Bedrooms);
    assert Value(g, Province) == Value(f, Province);
  }

  /** After a reset, the page reads the cleared filters from its URL. */
  lemma ResetRoundTrip()
    ensures FromUrl([]) == Cleared
  {
  }

  class SearchFilterBar {
    var filters: Filters
    var pushes: seq<Href>

    constructor (url: Params)
      ensures filters == FromUrl(url) && pushes == []
    {
      filters := FromUrl(url);
      pushes := [];
    }

    /** `handleFilterChange(k, v)`. */
    method FilterChange(k: FilterKey, v: string)
      modifies this`filters
      ensures filters == WithValue(old(filters), k, v)
    {
      filters := WithValue(filters, k, v);
    }

    /** `handleSearch`: `/?` and the non-empty filters, even when there are none. */
    method HandleSearch()
      modifies this`pushes
      ensures pushes == old(pushes) + [Href("/?", NonEmptyPairs(Entries(filters)))]
    {
      EntriesDistinct(filters);
      var params := BuildParams(Entries(filters));
      pushes := pushes + [Href("/?", params)];
    }

    /** `handleReset`. */
    method HandleReset()
      modifies this`filters, this`pushes
      ensures filters == Cleared
      ensures pushes == old(pushes) + [Href("/", [])]
    {
      filters := Cleared;
      pushes := pushes + [Href("/", [])];
    }
  }
}
