/**
 * The dashboard's filter bar: three text filters kept in step with the
 * URL, pushed back as `/dashboard` with a query part only when one of them
 * is set.
 */
module DashboardFilters {
  import opened Common
  import opened Types
  import opened FilterParams
  import Dashboard
  import MockData

  datatype Filters = Filters(search: string, propertyType: string, transactionType: string)

  datatype FilterKey = Search | PropertyType | TransactionType

  function Name(k: FilterKey): string {
    match k
    case Search => "search"
    case PropertyType => "property_type"
    case TransactionType => "transaction_type"
  }

  function Value(f: Filters, k: FilterKey): string {
    match k
    case Search => f.search
    case PropertyType => f.propertyType
    case TransactionType => f.transactionType
  }

  /** `{ ...prev, [key]: value }`. */
  function WithValue(f: Filters, k: FilterKey, v: string): (r: Filters)
    ensures Value(r, k) == v
    ensures forall k' :: k' != k ==> Value(r, k') == Value(f, k')
  {
    match k
    case Search => f.(search := v)
    case PropertyType => f.(propertyType := v)
    case TransactionType => f.(transactionType := v)
  }

  function Index(k: FilterKey): nat {
    match k
    case Search => 0
    case PropertyType => 1
    case TransactionType => 2
  }

  /** `Object.entries(filters)`, in declaration order. */
  function Entries(f: Filters): (es: Params)
    ensures |es| == 3
    ensures forall k :: es[Index(k)] == (Name(k), Value(f, k))
  {
    [("search", f.search), ("property_type", f.propertyType), ("transaction_type", f.transactionType)]
  }

  lemma EntriesDistinct(f: Filters)
    ensures DistinctKeys(Entries(f))
  {
    var es := Entries(f);
    forall i, j | 0 <= i < j < |es| ensures es[i].0 != es[j].0 {
      assert es[i].0[0] != es[j].0[0] || es[i].0 != es[j].0;
    }
  }

  /** The filters the effect copies from the URL. */
  function FromUrl(url: Params): Filters {
    Filters(OrEmpty(Get(url, "search")), OrEmpty(Get(url, "property_type")), OrEmpty(Get(url, "transaction_type")))
  }

  const Cleared := Filters("", "", "")

  /** Where a search goes: the bare dashboard when no filter is set (the
      query string is then empty), otherwise the dashboard with the query. */
  function Target(params: Params): (h: Href)
    ensures h.query == params
    ensures h.path == (if params == [] then "/dashboard" else "/dashboard?")
  {
    if params == [] then Href("/dashboard", []) else Href("/dashboard?", params)
  }

  /** The parameters of a search: exactly the non-empty filters, with their values. */
  lemma SearchParamsExact(f: Filters, k: FilterKey)
    ensures Get(NonEmptyPairs(Entries(f)), Name(k)) == if Value(f, k) != "" then Some(Value(f, k)) else None
  {
    EntriesDistinct(f);
    GetNonEmpty(Entries(f), Index(k));
  }

  /** The URL a search pushes reads back, through the effect, as the same filters. */
  lemma SearchRoundTrip(f: Filters)
    ensures FromUrl(NonEmptyPairs(Entries(f))) == f
  {
    SearchParamsExact(f, Search);
    SearchParamsExact(f, PropertyType);
    SearchParamsExact(f, TransactionType);
  }

  /** A search goes to the bare dashboard, where a reset goes, exactly when no filter is set. */
  lemma BareTargetIffNoFilter(f: Filters)
    ensures Target(NonEmptyPairs(Entries(f))) == Href("/dashboard", []) <==> f == Cleared
  {
    var es := Entries(f);
    NonEmptyPairsNone(es);
    if f != Cleared {
      assert es[0].1 != "" || es[1].1 != "" || es[2].1 != "";
    }
  }

  /** The listings the dashboard then loads for the owner are exactly theirs
      that match every filter that is set. */
  lemma SearchSelects(userId: string, f: Filters, l: Listing)
    ensures Dashboard.OwnerMatches(userId, NonEmptyPairs(Entries(f)), l) <==>
      l.userId == Some(userId) &&
      (f.propertyType != "" ==> l.propertyType == f.propertyType) &&
      (f.transactionType != "" ==> l.transactionType == f.transactionType) &&
      (f.search != "" ==> MockData.SearchHit(l, f.search))
  {
    SearchParamsExact(f, Search);
    SearchParamsExact(f, PropertyType);
    SearchParamsExact(f, TransactionType);
  }

  class DashboardFilterBar {
    var filters: Filters
    var pushes: seq<Href>

    constructor ()
      ensures filters == Cleared && pushes == []
    {
      filters := Cleared;
      pushes := [];
    }

    /** The effect run whenever the URL's parameters change. */
    method SyncFromUrl(url: Params)
      modifies this`filters
      ensures filters == FromUrl(url)
    {
      filters := FromUrl(url);
    }

    /** `handleFilterChange(k, v)`. */
    method FilterChange(k: FilterKey, v: string)
      modifies this`filters
      ensures filters == WithValue(old(filters), k, v)
    {
      filters := WithValue(filters, k, v);
    }

    /** `handleSearch`. */
    method HandleSearch()
      modifies this`pushes
      ensures pushes == old(pushes) + [Target(NonEmptyPairs(Entries(filters)))]
    {
      EntriesDistinct(filters);
      var params := BuildParams(Entries(filters));
      if params == [] {
        pushes := pushes + [Href("/dashboard", [])];
      } else {
        pushes := pushes + [Href("/dashboard?", params)];
      }
    }

    /** `handleReset`. */
    method HandleReset()
      modifies this`filters, this`pushes
      ensures filters == Cleared
      ensures pushes == old(pushes) + [Href("/dashboard", [])]
    {
      filters := Cleared;
      pushes := pushes + [Href("/dashboard", [])];
    }
  }
}
