/**
 * `filterMockListings`: the in-memory filter used in place of the backend
 * query when it is not configured. Up to eight guarded narrowing steps, each
 * applied only when its filter value is truthy, over a copy of the input.
 *
 * A numeric filter value is `None` when it is undefined or NaN; both are
 * falsy, and so is 0.
 */
module MockData {
  import opened Common
  import opened Types

  datatype ListingFilter = ListingFilter(
    propertyType: Option<string>,
    transactionType: Option<string>,
    minPrice: Option<real>,
    maxPrice: Option<real>,
    bedrooms: Option<real>,
    province: Option<string>,
    district: Option<string>,
    search: Option<string>)

  const NoFilter := ListingFilter(None, None, None, None, None, None, None, None)

  /** JavaScript truthiness of a number that may be undefined or NaN. */
  predicate NumTruthy(o: Option<real>) {
    o.Some? && o.value != 0.0
  }

  /** The eight steps, in the order they are applied. */
  datatype Stage = PropertyType | TransactionType | MinPrice | MaxPrice | Bedrooms | Province | District | Search

  const Order: seq<Stage> := [PropertyType, TransactionType, MinPrice, MaxPrice, Bedrooms, Province, District, Search]

  /** Whether a step runs: its filter value is truthy. */
  predicate Active(f: ListingFilter, st: Stage) {
    match st
    case PropertyType => Truthy(f.propertyType)
    case TransactionType => Truthy(f.transactionType)
    case MinPrice => NumTruthy(f.minPrice)
    case MaxPrice => NumTruthy(f.maxPrice)
    case Bedrooms => NumTruthy(f.bedrooms)
    case Province => Truthy(f.province)
    case District => Truthy(f.district)
    case Search => Truthy(f.search)
  }

  /** `s.toLowerCase().includes(t.toLowerCase())`. */
  predicate ContainsIgnoringCase(s: string, t: string) {
    Contains(ToLower(s), ToLower(t))
  }

  /** The search step's predicate: title, description (when present) or address. */
  predicate SearchHit(l: Listing, q: string) {
    ContainsIgnoringCase(l.title, q) ||
    (l.description.Some? && ContainsIgnoringCase(l.description.value, q)) ||
    ContainsIgnoringCase(l.address, q)
  }

  /** The predicate a running step filters by. */
  predicate Test(f: ListingFilter, st: Stage, l: Listing)
    requires Active(f, st)
  {
    match st
    case PropertyType => l.propertyType == f.propertyType.value
    case TransactionType => l.transactionType == f.transactionType.value
    case MinPrice => l.price >= f.minPrice.value
    case MaxPrice => l.price <= f.maxPrice.value
    case Bedrooms => l.bedrooms.Some? && l.bedrooms.value as real == f.bedrooms.value
    case Province => ContainsIgnoringCase(l.province, f.province.value)
    case District => ContainsIgnoringCase(l.district, f.district.value)
    case Search => SearchHit(l, f.search.value)
  }

  /** A listing survives step `st`: the step does not run, or its predicate holds. */
  predicate Passes(f: ListingFilter, st: Stage, l: Listing) {
    !Active(f, st) || Test(f, st, l)
  }

  /** A listing survives the first n steps. */
  predicate PassesFirst(f: ListingFilter, l: Listing, n: nat)
    requires n <= |Order|
  {
    forall k | 0 <= k < n :: Passes(f, Order[k], l)
  }

  /** Where a step stands in `Order`. */
  function StageIndex(st: Stage): (k: nat)
    ensures k < |Order| && Order[k] == st
  {
    match st
    case PropertyType => 0
    case TransactionType => 1
    case MinPrice => 2
    case MaxPrice => 3
    case Bedrooms => 4
    case Province => 5
    case District => 6
    case Search => 7
  }

  /** Surviving the eight steps of `Order` is passing every step. */
  lemma PassesAllSteps(f: ListingFilter, l: Listing)
    ensures PassesFirst(f, l, |Order|) <==> forall st: Stage :: Passes(f, st, l)
  {
    if PassesFirst(f, l, |Order|) {
      forall st: Stage ensures Passes(f, st, l) {
        assert Order[StageIndex(st)] == st;
      }
    }
  }

  /** A listing is in the result: it survives all eight steps, so the order
      of the steps does not matter for which listings remain. */
  predicate Matches(f: ListingFilter, l: Listing)
    ensures Matches(f, l) <==> forall st: Stage :: Passes(f, st, l)
  {
    PassesAllSteps(f, l);
    PassesFirst(f, l, 8)
  }

  /** The listings of s that survive the first n steps, in order. */
  function Kept(s: seq<Listing>, f: ListingFilter, n: nat): seq<Listing>
    requires n <= |Order|
  {
    if s == [] then []
    else (if PassesFirst(f, s[0], n) then [s[0]] else []) + Kept(s[1..], f, n)
  }

  /** The result `filterMockListings(s, f)` specifies. */
  function Select(s: seq<Listing>, f: ListingFilter): (r: seq<Listing>)
    ensures Subsequence(r, s)
    ensures forall l :: l in r <==> l in s && Matches(f, l)
  {
    KeptIsSubsequence(s, f, 8);
    KeptMembers(s, f);
    Kept(s, f, 8)
  }

  /** One `.filter` step: the listings of s that satisfy the step's predicate. */
  function Narrow(s: seq<Listing>, f: ListingFilter, st: Stage): (r: seq<Listing>)
    requires Active(f, st)
    ensures |r| <= |s|
  {
    if s == [] then []
    else (if Test(f, st, s[0]) then [s[0]] else []) + Narrow(s[1..], f, st)
  }

  lemma {:induction false} KeptNone(s: seq<Listing>, f: ListingFilter)
    ensures Kept(s, f, 0) == s
  {
    if s != [] {
      KeptNone(s[1..], f);
    }
  }

  /** Running step n on the survivors of the first n steps, or skipping it when
      it is inactive, leaves the survivors of the first n + 1. */
  lemma {:induction false} StepKeeps(s: seq<Listing>, f: ListingFilter, n: nat)
    requires n < |Order|
    ensures Active(f, Order[n]) ==> Narrow(Kept(s, f, n), f, Order[n]) == Kept(s, f, n + 1)
    ensures !Active(f, Order[n]) ==> Kept(s, f, n) == Kept(s, f, n + 1)
  {
    if s != [] {
      StepKeeps(s[1..], f, n);
      var l := s[0];
      assert PassesFirst(f, l, n + 1) <==> PassesFirst(f, l, n) && Passes(f, Order[n], l);
      if Active(f, Order[n]) {
        var rest := Kept(s[1..], f, n);
        if PassesFirst(f, l, n) {
          assert Kept(s, f, n) == [l] + rest;
          assert ([l] + rest)[1..] == rest;
        } else {
          assert Kept(s, f, n) == rest;
        }
      }
    }
  }

  /** A guarded step: narrowed by the step's predicate when its filter value is truthy. */
  function Apply(s: seq<Listing>, f: ListingFilter, st: Stage): seq<Listing> {
    if Active(f, st) then Narrow(s, f, st) else s
  }

  /** Each step applied to the survivors of the steps before it leaves the survivors of one more. */
  lemma ApplyKept(s: seq<Listing>, f: ListingFilter, n: nat)
    requires n < |Order|
    ensures Apply(Kept(s, f, n), f, Order[n]) == Kept(s, f, n + 1)
  {
    StepKeeps(s, f, n);
  }

  /** The eight guarded steps, in order, select exactly the matching listings. */
  lemma {:induction false} StepsSelect(s: seq<Listing>, f: ListingFilter)
    ensures Apply(Apply(Apply(Apply(Apply(Apply(Apply(Apply(s, f, PropertyType), f, TransactionType), f, MinPrice),
      f, MaxPrice), f, Bedrooms), f, Province), f, District), f, Search) == Select(s, f)
  {
    KeptNone(s, f);
    ApplyKept(s, f, 0);
    ApplyKept(s, f, 1);
    ApplyKept(s, f, 2);
    ApplyKept(s, f, 3);
    ApplyKept(s, f, 4);
    ApplyKept(s, f, 5);
    ApplyKept(s, f, 6);
    ApplyKept(s, f, 7);
  }

  /** One guarded step of `filterMockListings`. */
  method GuardedStep(f: ListingFilter, st: Stage, filtered: seq<Listing>) returns (r: seq<Listing>)
    ensures r == Apply(filtered, f, st)
    ensures |r| <= |filtered|
  {
    r := filtered;
    if Active(f, st) {
      r := Narrow(filtered, f, st);
    }
  }

  /** `filterMockListings`: a copy of the input narrowed by each step whose
      filter value is truthy. */
  method FilterMockListings(listings: seq<Listing>, f: ListingFilter) returns (filtered: seq<Listing>)
    ensures filtered == Select(listings, f)
  {
    filtered := listings;
    filtered := GuardedStep(f, PropertyType, filtered);
    filtered := GuardedStep(f, TransactionType, filtered);
    filtered := GuardedStep(f, MinPrice, filtered);
    filtered := GuardedStep(f, MaxPrice, filtered);
    filtered := GuardedStep(f, Bedrooms, filtered);
    filtered := GuardedStep(f, Province, filtered);
    filtered := GuardedStep(f, District, filtered);
    filtered := GuardedStep(f, Search, filtered);
    StepsSelect(listings, f);
  }

  // ---------------------------------------------------------------------
  // Properties of the selection
  // ---------------------------------------------------------------------

  /** The conditions a listing must meet, field by field. */
  lemma MatchesIff(f: ListingFilter, l: Listing)
    ensures Matches(f, l) <==>
      (Truthy(f.propertyType) ==> l.propertyType == f.propertyType.value) &&
      (Truthy(f.transactionType) ==> l.transactionType == f.transactionType.value) &&
      (NumTruthy(f.minPrice) ==> l.price >= f.minPrice.value) &&
      (NumTruthy(f.maxPrice) ==> l.price <= f.maxPrice.value) &&
      (NumTruthy(f.bedrooms) ==> l.bedrooms.Some? && l.bedrooms.value as real == f.bedrooms.value) &&
      (Truthy(f.province) ==> ContainsIgnoringCase(l.province, f.province.value)) &&
      (Truthy(f.district) ==> ContainsIgnoringCase(l.district, f.district.value)) &&
      (Truthy(f.search) ==> SearchHit(l, f.search.value))
  {
    assert Order[0] == PropertyType && Order[1] == TransactionType && Order[2] == MinPrice && Order[3] == MaxPrice;
    assert Order[4] == Bedrooms && Order[5] == Province && Order[6] == District && Order[7] == Search;
  }

  /** `a` is an order-preserving subsequence of `b`: b's elements, each kept or dropped. */
  predicate Subsequence<T(==)>(a: seq<T>, b: seq<T>)
    decreases |b|
  {
    if b == [] then a == []
    else (a != [] && a[0] == b[0] && Subsequence(a[1..], b[1..])) || Subsequence(a, b[1..])
  }

  lemma {:induction false} SubsequenceLength<T>(a: seq<T>, b: seq<T>)
    requires Subsequence(a, b)
    ensures |a| <= |b|
    decreases |b|
  {
    if b != [] {
      if a != [] && a[0] == b[0] && Subsequence(a[1..], b[1..]) {
        SubsequenceLength(a[1..], b[1..]);
      } else {
        SubsequenceLength(a, b[1..]);
      }
    }
  }

  lemma {:induction false} KeptIsSubsequence(s: seq<Listing>, f: ListingFilter, n: nat)
    requires n <= |Order|
    ensures Subsequence(Kept(s, f, n), s)
  {
    if s != [] {
      KeptIsSubsequence(s[1..], f, n);
      var k := Kept(s, f, n);
      if PassesFirst(f, s[0], n) {
        assert k == [s[0]] + Kept(s[1..], f, n);
        assert k[0] == s[0] && k[1..] == Kept(s[1..], f, n);
      } else {
        assert k == Kept(s[1..], f, n);
      }
    }
  }

  /** The result is an order-preserving subsequence of the input, holding
      exactly the input's matching listings. */
  lemma {:induction false} SelectIsMatchingSubsequence(s: seq<Listing>, f: ListingFilter)
    ensures Subsequence(Select(s, f), s)
    ensures forall l :: l in Select(s, f) <==> l in s && Matches(f, l)
  {
    KeptIsSubsequence(s, f, |Order|);
    KeptMembers(s, f);
  }

  lemma {:induction false} KeptMembers(s: seq<Listing>, f: ListingFilter)
    ensures forall l :: l in Kept(s, f, |Order|) <==> l in s && Matches(f, l)
  {
    if s != [] {
      KeptMembers(s[1..], f);
      assert s == [s[0]] + s[1..];
    }
  }

  /** With every filter value falsy the result is the input. */
  lemma {:induction false} NoFilterKeepsAll(s: seq<Listing>)
    ensures Select(s, NoFilter) == s
  {
    if s != [] {
      NoFilterKeepsAll(s[1..]);
      MatchesIff(NoFilter, s[0]);
    }
  }

  /** Every result lies within whichever price bounds are set, both inclusive. */
  lemma PriceWithinBounds(s: seq<Listing>, f: ListingFilter, l: Listing)
    requires l in Select(s, f)
    ensures NumTruthy(f.minPrice) ==> f.minPrice.value <= l.price
    ensures NumTruthy(f.maxPrice) ==> l.price <= f.maxPrice.value
  {
    SelectIsMatchingSubsequence(s, f);
    MatchesIff(f, l);
  }

  /** `f2` sets at least the filters `f` sets, to the same values. */
  predicate AddsFilters(f2: ListingFilter, f: ListingFilter) {
    (Truthy(f.propertyType) ==> f2.propertyType == f.propertyType) &&
    (Truthy(f.transactionType) ==> f2.transactionType == f.transactionType) &&
    (NumTruthy(f.minPrice) ==> f2.minPrice == f.minPrice) &&
    (NumTruthy(f.maxPrice) ==> f2.maxPrice == f.maxPrice) &&
    (NumTruthy(f.bedrooms) ==> f2.bedrooms == f.bedrooms) &&
    (Truthy(f.province) ==> f2.province == f.province) &&
    (Truthy(f.district) ==> f2.district == f.district) &&
    (Truthy(f.search) ==> f2.search == f.search)
  }

  /** Adding filters only removes listings. */
  lemma {:induction false} MoreFiltersSelectLess(s: seq<Listing>, f: ListingFilter, f2: ListingFilter)
    requires AddsFilters(f2, f)
    ensures Subsequence(Select(s, f2), Select(s, f))
    ensures |Select(s, f2)| <= |Select(s, f)|
  {
    MoreFiltersSubsequence(s, f, f2);
    SubsequenceLength(Select(s, f2), Select(s, f));
  }

  lemma {:induction false} MoreFiltersSubsequence(s: seq<Listing>, f: ListingFilter, f2: ListingFilter)
    requires AddsFilters(f2, f)
    ensures Subsequence(Select(s, f2), Select(s, f))
  {
    if s != [] {
      MoreFiltersSubsequence(s[1..], f, f2);
      MatchesIff(f, s[0]);
      MatchesIff(f2, s[0]);
      var a, b := Select(s[1..], f2), Select(s[1..], f);
      if Matches(f2, s[0]) {
        assert Select(s, f2) == [s[0]] + a;
        assert Select(s, f) == [s[0]] + b;
        assert Select(s, f2)[1..] == a && Select(s, f)[1..] == b;
      } else if Matches(f, s[0]) {
        assert Select(s, f2) == a;
        assert Select(s, f) == [s[0]] + b;
        assert Select(s, f)[1..] == b;
      } else {
        assert Select(s, f2) == a;
        assert Select(s, f) == b;
      }
    }
  }

  /** A numeric filter of 0 selects the same as no filter (0 is falsy). */
  lemma ZeroPriceFilterIsIgnored(s: seq<Listing>, f: ListingFilter)
    ensures Select(s, f.(minPrice := Some(0.0))) == Select(s, f.(minPrice := None))
    ensures Select(s, f.(maxPrice := Some(0.0))) == Select(s, f.(maxPrice := None))
    ensures Select(s, f.(bedrooms := Some(0.0))) == Select(s, f.(bedrooms := None))
  {
    SameMatchesSameSelect(s, f.(minPrice := Some(0.0)), f.(minPrice := None));
    SameMatchesSameSelect(s, f.(maxPrice := Some(0.0)), f.(maxPrice := None));
    SameMatchesSameSelect(s, f.(bedrooms := Some(0.0)), f.(bedrooms := None));
  }

  lemma {:induction false} SameMatchesSameSelect(s: seq<Listing>, f: ListingFilter, g: ListingFilter)
    requires forall st :: Active(f, st) == Active(g, st)
    requires forall st, l :: Active(f, st) ==> (Test(f, st, l) <==> Test(g, st, l))
    ensures Select(s, f) == Select(s, g)
  {
    if s != [] {
      SameMatchesSameSelect(s[1..], f, g);
      assert Matches(f, s[0]) == Matches(g, s[0]) by {
        assert forall k | 0 <= k < |Order| :: Passes(f, Order[k], s[0]) == Passes(g, Order[k], s[0]);
      }
    }
  }

  /** The bedrooms filter is exact: 4 does not admit a listing with 5. */
  lemma BedroomsExact(f: ListingFilter, l: Listing)
    requires f.bedrooms == Some(4.0) && l.bedrooms == Some(5)
    ensures !Matches(f, l)
  {
    MatchesIff(f, l);
  }

  /** The search admits a listing iff its lower-cased text is part of the
      lower-cased title, description or address. */
  lemma SearchIsCaseInsensitive(l: Listing, q: string)
    ensures SearchHit(l, q) == SearchHit(l, ToLower(q))
  {
    ToLowerIdempotent(q);
  }
}
