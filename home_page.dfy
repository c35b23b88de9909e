/**
 * The home page's server side: the configuration check, the listings query
 * (page arithmetic and the filters applied to it), the page data handed to
 * the page content, and the advertisements fetched for the hero slider.
 *
 * The backend's answers are parameters. The query is modelled as data: its
 * conditions, with a meaning on listing rows given by `Admits`.
 */
module HomePage {
  import opened Common
  import opened Types
  import MockData

  const PageSize := 20

  /** `isSupabaseConfigured`: both values set, neither holding its placeholder. */
  function IsSupabaseConfigured(url: Option<string>, key: Option<string>): (r: bool)
    ensures r ==> Truthy(url) && Truthy(key)
    ensures r ==> url.value != "your-project" && key.value != "your-key"
  {
    Truthy(url) && Truthy(key) && !Contains(url.value, "your-project") && !Contains(key.value, "your-key")
  }

  // ---------------------------------------------------------------------
  // Search parameters and filters
  // ---------------------------------------------------------------------

  /** The search parameters the page reads; `None` when absent. */
  datatype RawSearch = RawSearch(
    propertyType: Option<string>,
    transactionType: Option<string>,
    minPrice: Option<string>,
    maxPrice: Option<string>,
    bedrooms: Option<string>,
    province: Option<string>,
    district: Option<string>,
    search: Option<string>)

  /** `p ? Number(p) : undefined`, where `num(p)` is `Number(p)` (`None` for NaN). */
  function NumberParam(p: Option<string>, num: string -> Option<real>): (r: Option<real>)
    ensures !Truthy(p) ==> r.None?
    ensures Truthy(p) ==> r == num(p.value)
  {
    if Truthy(p) then num(p.value) else None
  }

  /** The filters object built from the search parameters. */
  function FiltersFrom(raw: RawSearch, num: string -> Option<real>): (f: MockData.ListingFilter)
    ensures f.propertyType == raw.propertyType && f.province == raw.province
    ensures f.transactionType == raw.transactionType && f.district == raw.district && f.search == raw.search
    ensures f.minPrice == NumberParam(raw.minPrice, num) && f.maxPrice == NumberParam(raw.maxPrice, num)
    ensures f.bedrooms == NumberParam(raw.bedrooms, num)
  {
    MockData.ListingFilter(
      raw.propertyType, raw.transactionType,
      NumberParam(raw.minPrice, num), NumberParam(raw.maxPrice, num), NumberParam(raw.bedrooms, num),
      raw.province, raw.district, raw.search)
  }

  /** `Number(searchParams.page) || 1`, given `Number(...)` (`None` for NaN). */
  function PageNumber(parsed: Option<int>): (page: int)
    ensures page != 0
    ensures parsed.Some? && parsed.value != 0 ==> page == parsed.value
    ensures parsed.None? || parsed.value == 0 ==> page == 1
  {
    if parsed.Some? && parsed.value != 0 then parsed.value else 1
  }

  /** `(page - 1) * limit`. */
  function Offset(page: int): (o: int)
    ensures o % PageSize == 0
    ensures page >= 1 ==> o >= 0
    ensures page == 1 ==> o == 0
  {
    (page - 1) * PageSize
  }

  /** Consecutive pages ask for adjoining, non-overlapping row ranges of 20. */
  lemma OffsetRanges(page: int)
    ensures Offset(page + 1) == Offset(page) + PageSize
    ensures page >= 1 ==> Offset(page) >= 0
    ensures Offset(1) == 0
  {
  }

  // ---------------------------------------------------------------------
  // The listings query
  // ---------------------------------------------------------------------

  datatype Value = TextValue(text: string) | NumberValue(number: real)

  /** A condition of the query builder: `eq`, `gte`, `lte`, and an `or` of
      `ilike %text%` over several columns. */
  datatype Condition =
    | Eq(column: string, value: Value)
    | Gte(column: string, bound: real)
    | Lte(column: string, bound: real)
    | AnyContains(columns: seq<string>, text: string)

  /** The query on `listings`: select all with an exact count, newest first,
      rows `from..to` inclusive, under these conditions. */
  datatype ListingsQuery = ListingsQuery(conditions: seq<Condition>, from: int, to: int)

  function TextColumn(l: Listing, column: string): Option<string> {
    match column
    case "property_type" => Some(l.propertyType)
    case "transaction_type" => Some(l.transactionType)
    case "province" => Some(l.province)
    case "district" => Some(l.district)
    case "title" => Some(l.title)
    case "description" => l.description
    case "address" => Some(l.address)
    case "user_id" => l.userId
    case _ => None
  }

  function NumberColumn(l: Listing, column: string): Option<real> {
    match column
    case "price" => Some(l.price)
    case "bedrooms" => if l.bedrooms.Some? then Some(l.bedrooms.value as real) else None
    case _ => None
  }

  /** Whether a row satisfies a condition; a null column satisfies none. */
  predicate Holds(c: Condition, l: Listing) {
    match c
    case Eq(col, TextValue(v)) => TextColumn(l, col) == Some(v)
    case Eq(col, NumberValue(x)) => NumberColumn(l, col) == Some(x)
    case Gte(col, b) => NumberColumn(l, col).Some? && NumberColumn(l, col).value >= b
    case Lte(col, b) => NumberColumn(l, col).Some? && NumberColumn(l, col).value <= b
    case AnyContains(cols, t) =>
      exists i :: 0 <= i < |cols| && TextColumn(l, cols[i]).Some? &&
        MockData.ContainsIgnoringCase(TextColumn(l, cols[i]).value, t)
  }

  /** A row the query's conditions all admit. */
  predicate Admits(q: ListingsQuery, l: Listing) {
    forall i :: 0 <= i < |q.conditions| ==> Holds(q.conditions[i], l)
  }

  /** The rows the home page asks for, stated field by field: exact equality
      for the type, province and district filters, inclusive price bounds,
      exact bedrooms, and the search text in the title, description or address. */
  predicate ServerMatches(f: MockData.ListingFilter, l: Listing)
    ensures f == MockData.NoFilter ==> ServerMatches(f, l)
    ensures ServerMatches(f, l) && Truthy(f.province) ==> l.province == f.province.value
    ensures ServerMatches(f, l) && Truthy(f.district) ==> l.district == f.district.value
  {
    (Truthy(f.propertyType) ==> l.propertyType == f.propertyType.value) &&
    (Truthy(f.transactionType) ==> l.transactionType == f.transactionType.value) &&
    (MockData.NumTruthy(f.minPrice) ==> l.price >= f.minPrice.value) &&
    (MockData.NumTruthy(f.maxPrice) ==> l.price <= f.maxPrice.value) &&
    (MockData.NumTruthy(f.bedrooms) ==> l.bedrooms.Some? && l.bedrooms.value as real == f.bedrooms.value) &&
    (Truthy(f.province) ==> l.province == f.province.value) &&
    (Truthy(f.district) ==> l.district == f.district.value) &&
    (Truthy(f.search) ==> MockData.SearchHit(l, f.search.value))
  }

  lemma AdmitsAppend(q: ListingsQuery, c: Condition, l: Listing)
    ensures Admits(q.(conditions := q.conditions + [c]), l) <==> Admits(q, l) && Holds(c, l)
  {
    var q' := q.(conditions := q.conditions + [c]);
    if Admits(q, l) && Holds(c, l) {
      forall i | 0 <= i < |q'.conditions| ensures Holds(q'.conditions[i], l) {
        if i < |q.conditions| {
          assert q'.conditions[i] == q.conditions[i];
        }
      }
    }
    if Admits(q', l) {
      assert Holds(q'.conditions[|q.conditions|], l);
      forall i | 0 <= i < |q.conditions| ensures Holds(q.conditions[i], l) {
        assert q'.conditions[i] == q.conditions[i];
      }
    }
  }

  /** The condition a filter step adds to the query. */
  function StageCondition(f: MockData.ListingFilter, st: MockData.Stage): Condition
    requires MockData.Active(f, st)
  {
    match st
    case PropertyType => Eq("property_type", TextValue(f.propertyType.value))
    case TransactionType => Eq("transaction_type", TextValue(f.transactionType.value))
    case MinPrice => Gte("price", f.minPrice.value)
    case MaxPrice => Lte("price", f.maxPrice.value)
    case Bedrooms => Eq("bedrooms", NumberValue(f.bedrooms.value))
    case Province => Eq("province", TextValue(f.province.value))
    case District => Eq("district", TextValue(f.district.value))
    case Search => AnyContains(["title", "description", "address"], f.search.value)
  }

  /** A row passes one step of the server query: the step is inactive or its condition holds. */
  predicate ServerPasses(f: MockData.ListingFilter, st: MockData.Stage, l: Listing) {
    MockData.Active(f, st) ==> Holds(StageCondition(f, st), l)
  }

  /** One guarded step of `getListings`: when the filter value is truthy, the
      query gains the step's condition. */
  method AddCondition(q: ListingsQuery, f: MockData.ListingFilter, st: MockData.Stage) returns (q': ListingsQuery)
    ensures q'.from == q.from && q'.to == q.to
    ensures forall l :: Admits(q', l) <==> Admits(q, l) && ServerPasses(f, st, l)
  {
    q' := q;
    if MockData.Active(f, st) {
      q' := q.(conditions := q.conditions + [StageCondition(f, st)]);
      forall l ensures Admits(q', l) <==> Admits(q, l) && ServerPasses(f, st, l) {
        AdmitsAppend(q, StageCondition(f, st), l);
      }
    }
  }

  /** The eight steps together mean `ServerMatches`. */
  lemma ServerStepsMeaning(f: MockData.ListingFilter, l: Listing)
    ensures ServerMatches(f, l) <==>
      ServerPasses(f, MockData.PropertyType, l) && ServerPasses(f, MockData.TransactionType, l) &&
      ServerPasses(f, MockData.MinPrice, l) && ServerPasses(f, MockData.MaxPrice, l) &&
      ServerPasses(f, MockData.Bedrooms, l) && ServerPasses(f, MockData.Province, l) &&
      ServerPasses(f, MockData.District, l) && ServerPasses(f, MockData.Search, l)
  {
    if Truthy(f.search) {
      SearchConditionMeaning(f.search.value, l);
    }
  }

  /** `getListings`' query: the page's row range, then each filter whose value
      is truthy adds its condition. */
  method ListingsQueryFor(f: MockData.ListingFilter, page: int) returns (q: ListingsQuery)
    ensures q.from == Offset(page) && q.to == q.from + PageSize - 1
    ensures forall l :: Admits(q, l) <==> ServerMatches(f, l)
  {
    var offset := (page - 1) * PageSize;
    q := ListingsQuery([], offset, offset + PageSize - 1);
    q := AddCondition(q, f, MockData.PropertyType);
    q := AddCondition(q, f, MockData.TransactionType);
    q := AddCondition(q, f, MockData.MinPrice);
    q := AddCondition(q, f, MockData.MaxPrice);
    q := AddCondition(q, f, MockData.Bedrooms);
    q := AddCondition(q, f, MockData.Province);
    q := AddCondition(q, f, MockData.District);
    q := AddCondition(q, f, MockData.Search);
    forall l ensures Admits(q, l) <==> ServerMatches(f, l) {
      ServerStepsMeaning(f, l);
    }
  }

  lemma SearchConditionMeaning(t: string, l: Listing)
    ensures Holds(AnyContains(["title", "description", "address"], t), l) <==> MockData.SearchHit(l, t)
  {
    var cols := ["title", "description", "address"];
    if MockData.SearchHit(l, t) {
      if MockData.ContainsIgnoringCase(l.title, t) {
        assert TextColumn(l, cols[0]) == Some(l.title);
      } else if l.description.Some? && MockData.ContainsIgnoringCase(l.description.value, t) {
        assert TextColumn(l, cols[1]) == l.description;
      } else {
        assert TextColumn(l, cols[2]) == Some(l.address);
      }
    }
  }

  /** Every row the server query admits passes the in-memory filter too:
      equality is a case-insensitive substring match. */
  lemma ServerImpliesMock(f: MockData.ListingFilter, l: Listing)
    requires ServerMatches(f, l)
    ensures MockData.Matches(f, l)
  {
    MockData.MatchesIff(f, l);
    if Truthy(f.province) {
      EqualImpliesContains(l.province, f.province.value);
    }
    if Truthy(f.district) {
      EqualImpliesContains(l.district, f.district.value);
    }
  }

  /** The converse fails: the in-memory filter takes a province that merely
      contains the filter text, which the server's equality rejects. */
  lemma MockDoesNotImplyServer(l: Listing)
    requires l.province == "Greater Bangkok"
    ensures MockData.Matches(MockData.NoFilter.(province := Some("bangkok")), l)
    ensures !ServerMatches(MockData.NoFilter.(province := Some("bangkok")), l)
  {
    var f := MockData.NoFilter.(province := Some("bangkok"));
    MockData.MatchesIff(f, l);
    assert ToLower(l.province)[8..15] == "bangkok" == ToLower("bangkok");
    ContainsAt(ToLower(l.province), "bangkok", 8);
  }

  // ---------------------------------------------------------------------
  // The page data
  // ---------------------------------------------------------------------

  /** What the backend answers to the listings query: rows with the exact
      count, an error, or a failure thrown on the way (the placeholder client
      used when the stricter client check fails has no `range`). */
  datatype ListingsReply = Rows(data: Option<seq<Listing>>, count: Option<nat>) | QueryError(message: string) | Thrown(message: string)

  datatype PageData = PageData(listings: seq<Listing>, total: nat, page: int, totalPages: nat, error: Option<string>)

  const NotConfiguredMessage := "Supabase ยังไม่ได้ตั้งค่า กรุณาตรวจสอบไฟล์ .env.local"
  const QueryErrorPrefix := "ไม่สามารถดึงข้อมูลจากฐานข้อมูลได้: "

  /** `Math.ceil(total / 20)`. */
  function TotalPages(total: nat): (pages: nat)
    ensures total == 0 ==> pages == 0
    ensures total > 0 ==> (pages - 1) * PageSize < total <= pages * PageSize
  {
    (total + PageSize - 1) / PageSize
  }

  /** `HomePage`: the page data from `getListings`, or, on any error (not
      configured, a query error, a failure thrown), no listings, total 0,
      page 1 and the error's message. */
  function LoadPage(configured: bool, parsedPage: Option<int>, reply: ListingsReply): (d: PageData)
    ensures d.totalPages == TotalPages(d.total)
    ensures d.error.Some? <==> !configured || !reply.Rows?
    ensures d.error.Some? ==> d.listings == [] && d.total == 0 && d.page == 1 && d.totalPages == 0
    ensures !configured ==> d.error == Some(NotConfiguredMessage)
    ensures configured && reply.QueryError? ==> d.error == Some(QueryErrorPrefix + reply.message)
    ensures configured && reply.Thrown? ==> d.error == Some(reply.message)
    ensures configured && reply.Rows? ==>
      d.page == PageNumber(parsedPage) &&
      d.listings == (if reply.data.Some? then reply.data.value else []) &&
      d.total == (if reply.count.Some? then reply.count.value else 0)
  {
    if !configured then PageData([], 0, 1, 0, Some(NotConfiguredMessage))
    else match reply
      case QueryError(m) => PageData([], 0, 1, 0, Some(QueryErrorPrefix + m))
      case Thrown(m) => PageData([], 0, 1, 0, Some(m))
      case Rows(data, count) =>
        var total := if count.Some? then count.value else 0;
        PageData(if data.Some? then data.value else [], total, PageNumber(parsedPage), TotalPages(total), None)
  }

  // ---------------------------------------------------------------------
  // Advertisements
  // ---------------------------------------------------------------------

  /** A row of the `advertisements` table as the page reads it. */
  datatype AdRow = AdRow(id: string, imageUrl: string, linkUrl: string, title: Option<string>, subtitle: Option<string>)

  /** The backend's answer to the ordered query for active advertisements. */
  datatype AdsReply = AdRows(data: Option<seq<AdRow>>) | AdsError | AdsThrown

  /** A falsy value becomes undefined. */
  function Defined(o: Option<string>): (r: Option<string>)
    ensures r.Some? <==> Truthy(o)
    ensures r.Some? ==> r == o
  {
    if Truthy(o) then o else None
  }

  function ToAdvertisement(row: AdRow): (ad: Advertisement)
    ensures ad.id == row.id && ad.image == row.imageUrl && ad.link == row.linkUrl
    ensures ad.title == Defined(row.title) && ad.subtitle == Defined(row.subtitle)
  {
    Advertisement(row.id, row.imageUrl, row.linkUrl, Defined(row.title), Defined(row.subtitle))
  }

  function MapAds(rows: seq<AdRow>): (ads: seq<Advertisement>)
    ensures |ads| == |rows|
    ensures forall i :: 0 <= i < |rows| ==> ads[i] == ToAdvertisement(rows[i])
  {
    if rows == [] then [] else [ToAdvertisement(rows[0])] + MapAds(rows[1..])
  }

  /** `getAdvertisements`: nothing when not configured or on any error;
      otherwise each row, in the order returned, mapped to an advertisement. */
  function GetAdvertisements(configured: bool, reply: AdsReply): (ads: seq<Advertisement>)
    ensures !configured || !reply.AdRows? || reply.data.None? ==> ads == []
    ensures configured && reply.AdRows? && reply.data.Some? ==>
      |ads| == |reply.data.value| &&
      forall i :: 0 <= i < |ads| ==> ads[i] == ToAdvertisement(reply.data.value[i])
  {
    if configured && reply.AdRows? && reply.data.Some? then MapAds(reply.data.value) else []
  }
}
