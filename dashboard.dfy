/**
 * The owner's dashboard: it waits for authentication, sends a signed-out
 * visitor to sign-in, loads the owner's listings under the filters in the
 * URL, and shows totals of listings, views, featured, sale and rent rows.
 */
module Dashboard {
  import opened Common
  import opened Types
  import HomePage
  import MockData

  // ---------------------------------------------------------------------
  // The owner's query
  // ---------------------------------------------------------------------

  /** The dashboard's query on `listings`: select all, newest first, under
      these conditions (no row range). */
  datatype OwnerQuery = OwnerQuery(conditions: seq<HomePage.Condition>)

  predicate Admits(q: OwnerQuery, l: Listing) {
    forall i :: 0 <= i < |q.conditions| ==> HomePage.Holds(q.conditions[i], l)
  }

  lemma AdmitsAppend(q: OwnerQuery, c: HomePage.Condition, l: Listing)
    ensures Admits(OwnerQuery(q.conditions + [c]), l) <==> Admits(q, l) && HomePage.Holds(c, l)
  {
    var q' := OwnerQuery(q.conditions + [c]);
    if Admits(q', l) {
      assert HomePage.Holds(q'.conditions[|q.conditions|], l);
      forall i | 0 <= i < |q.conditions| ensures HomePage.Holds(q.conditions[i], l) {
        assert q'.conditions[i] == q.conditions[i];
      }
    }
  }

  /** The rows the dashboard asks for: the owner's, of the type(s) in the
      URL when given, and holding the search text in title, description or address. */
  predicate OwnerMatches(userId: string, params: Params, l: Listing)
    ensures OwnerMatches(userId, params, l) ==> l.userId == Some(userId)
    ensures !AnyFilter(params) ==> (OwnerMatches(userId, params, l) <==> l.userId == Some(userId))
  {
    l.userId == Some(userId) &&
    (Truthy(Get(params, "property_type")) ==> l.propertyType == Get(params, "property_type").value) &&
    (Truthy(Get(params, "transaction_type")) ==> l.transactionType == Get(params, "transaction_type").value) &&
    (Truthy(Get(params, "search")) ==> MockData.SearchHit(l, Get(params, "search").value))
  }

  /** One guarded step: a truthy parameter adds its condition. */
  method AddIf(q: OwnerQuery, p: Option<string>, c: HomePage.Condition) returns (q': OwnerQuery)
    ensures Truthy(p) ==> q'.conditions == q.conditions + [c]
    ensures !Truthy(p) ==> q' == q
    ensures forall l :: Admits(q', l) <==> Admits(q, l) && (Truthy(p) ==> HomePage.Holds(c, l))
  {
    q' := q;
    if p.Some? && p.value != "" {
      q' := OwnerQuery(q.conditions + [c]);
      forall l ensures Admits(q', l) <==> Admits(q, l) && HomePage.Holds(c, l) {
        AdmitsAppend(q, c, l);
      }
    }
  }

  /** The query of the load and of the refresh: always scoped to the owner. */
  method OwnerQueryFor(userId: string, params: Params) returns (q: OwnerQuery)
    ensures |q.conditions| >= 1 && q.conditions[0] == HomePage.Eq("user_id", HomePage.TextValue(userId))
    ensures forall l :: Admits(q, l) <==> OwnerMatches(userId, params, l)
  {
    var q0 := OwnerQuery([HomePage.Eq("user_id", HomePage.TextValue(userId))]);
    var propertyType := Get(params, "property_type");
    var transactionType := Get(params, "transaction_type");
    var search := Get(params, "search");
    var q1 := AddIf(q0, propertyType, HomePage.Eq("property_type", HomePage.TextValue(OrEmpty(propertyType))));
    var q2 := AddIf(q1, transactionType, HomePage.Eq("transaction_type", HomePage.TextValue(OrEmpty(transactionType))));
    q := AddIf(q2, search, HomePage.AnyContains(["title", "description", "address"], OrEmpty(search)));
    forall l ensures Admits(q, l) <==> OwnerMatches(userId, params, l) {
      assert Admits(q0, l) <==> l.userId == Some(userId) by {
        assert HomePage.TextColumn(l, "user_id") == l.userId;
        assert HomePage.Holds(q0.conditions[0], l) <==> l.userId == Some(userId);
      }
      assert HomePage.TextColumn(l, "property_type") == Some(l.propertyType);
      assert HomePage.TextColumn(l, "transaction_type") == Some(l.transactionType);
      if Truthy(search) {
        HomePage.SearchConditionMeaning(search.value, l);
      }
    }
  }

  // ---------------------------------------------------------------------
  // Statistics
  // ---------------------------------------------------------------------

  /** `reduce((sum, l) => sum + (l.views || 0), 0)`. */
  function TotalViews(ls: seq<Listing>): (total: int)
    ensures (forall i :: 0 <= i < |ls| ==> ls[i].views.None? || ls[i].views.value >= 0) ==> total >= 0
    ensures ls == [] ==> total == 0
    decreases |ls|
  {
    if ls == [] then 0 else TotalViews(ls[..|ls| - 1]) + (if ls[|ls| - 1].views.Some? then ls[|ls| - 1].views.value else 0)
  }

  /** The total over two runs of rows is the sum of their totals. */
  lemma {:induction false} TotalViewsAppend(a: seq<Listing>, b: seq<Listing>)
    ensures TotalViews(a + b) == TotalViews(a) + TotalViews(b)
    decreases |b|
  {
    if b != [] {
      assert (a + b)[..|a + b| - 1] == a + b[..|b| - 1];
      assert (a + b)[|a + b| - 1] == b[|b| - 1];
      TotalViewsAppend(a, b[..|b| - 1]);
    } else {
      assert a + b == a;
    }
  }

  /** Rows without a views count add nothing. */
  lemma {:induction false} UnviewedAddsNothing(ls: seq<Listing>, l: Listing)
    requires l.views.None? || l.views == Some(0)
    ensures TotalViews(ls + [l]) == TotalViews(ls)
  {
    assert (ls + [l])[..|ls + [l]| - 1] == ls;
  }

  /** `listings.filter(p).length`. */
  function CountWhere(ls: seq<Listing>, p: Listing -> bool): (n: nat)
    ensures n <= |ls|
    decreases |ls|
  {
    if ls == [] then 0 else CountWhere(ls[..|ls| - 1], p) + (if p(ls[|ls| - 1]) then 1 else 0)
  }

  predicate IsFeatured(l: Listing) { l.isFeatured }
  /** The counts compare the stored type exactly. */
  predicate IsSale(l: Listing) { l.transactionType == "sale" }
  predicate IsRent(l: Listing) { l.transactionType == "rent" }

  /** The featured figure: every featured row once. */
  function FeaturedCount(ls: seq<Listing>): (n: nat)
    ensures n <= |ls|
    ensures n == 0 <==> forall i :: 0 <= i < |ls| ==> !ls[i].isFeatured
    ensures n == |ls| <==> forall i :: 0 <= i < |ls| ==> ls[i].isFeatured
  {
    CountWhereNone(ls, IsFeatured); CountWhereAll(ls, IsFeatured);
    CountWhere(ls, IsFeatured)
  }

  /** The sale figure: every row stored as exactly 'sale'. */
  function SaleCount(ls: seq<Listing>): (n: nat)
    ensures n <= |ls|
    ensures n == 0 <==> forall i :: 0 <= i < |ls| ==> ls[i].transactionType != "sale"
    ensures n == |ls| <==> forall i :: 0 <= i < |ls| ==> ls[i].transactionType == "sale"
  {
    CountWhereNone(ls, IsSale); CountWhereAll(ls, IsSale);
    CountWhere(ls, IsSale)
  }

  /** The rent figure: every row stored as exactly 'rent'. */
  function RentCount(ls: seq<Listing>): (n: nat)
    ensures n <= |ls|
    ensures n == 0 <==> forall i :: 0 <= i < |ls| ==> ls[i].transactionType != "rent"
    ensures n == |ls| <==> forall i :: 0 <= i < |ls| ==> ls[i].transactionType == "rent"
  {
    CountWhereNone(ls, IsRent); CountWhereAll(ls, IsRent);
    CountWhere(ls, IsRent)
  }

  /** A count is 0 exactly when no row satisfies the predicate. */
  lemma {:induction false} CountWhereNone(ls: seq<Listing>, p: Listing -> bool)
    ensures CountWhere(ls, p) == 0 <==> forall i :: 0 <= i < |ls| ==> !p(ls[i])
    decreases |ls|
  {
    if ls != [] {
      var init := ls[..|ls| - 1];
      CountWhereNone(init, p);
      assert forall i :: 0 <= i < |init| ==> init[i] == ls[i];
    }
  }

  /** A count is the length exactly when every row satisfies the predicate. */
  lemma {:induction false} CountWhereAll(ls: seq<Listing>, p: Listing -> bool)
    ensures CountWhere(ls, p) == |ls| <==> forall i :: 0 <= i < |ls| ==> p(ls[i])
    decreases |ls|
  {
    if ls != [] {
      var init := ls[..|ls| - 1];
      CountWhereAll(init, p);
      assert forall i :: 0 <= i < |init| ==> init[i] == ls[i];
    }
  }

  /** Two predicates that never hold together count at most every row once. */
  lemma {:induction false} DisjointCounts(ls: seq<Listing>, p: Listing -> bool, q: Listing -> bool)
    requires forall l :: !(p(l) && q(l))
    ensures CountWhere(ls, p) + CountWhere(ls, q) <= |ls|
    decreases |ls|
  {
    if ls != [] {
      DisjointCounts(ls[..|ls| - 1], p, q);
    }
  }

  /** No row is both sale and rent, so the two counts never exceed the number
      of listings; rows typed otherwise (a prefixed or capitalised type) are in neither. */
  lemma SaleAndRentBound(ls: seq<Listing>)
    ensures SaleCount(ls) + RentCount(ls) <= |ls|
  {
    DisjointCounts(ls, IsSale, IsRent);
  }

  /** A count is the number of indexes whose row satisfies the predicate. */
  lemma {:induction false} CountWhereMeaning(ls: seq<Listing>, p: Listing -> bool)
    ensures CountWhere(ls, p) == |set i | 0 <= i < |ls| && p(ls[i])|
    decreases |ls|
  {
    if ls != [] {
      var init := ls[..|ls| - 1];
      CountWhereMeaning(init, p);
      var s := set i | 0 <= i < |init| && p(init[i]);
      var s' := set i | 0 <= i < |ls| && p(ls[i]);
      assert s == set i | 0 <= i < |ls| - 1 && p(ls[i]);
      if p(ls[|ls| - 1]) {
        assert s' == s + {|ls| - 1};
      } else {
        assert s' == s;
      }
    }
  }

  /** A type stored with its key prefix counts as neither sale nor rent. */
  lemma PrefixedTypeIsUncounted(l: Listing)
    requires l.transactionType == "transaction.sale"
    ensures SaleCount([l]) == 0 && RentCount([l]) == 0
  {
    assert [l][..0] == [];
  }

  // ---------------------------------------------------------------------
  // The page
  // ---------------------------------------------------------------------

  /** The answer to the listings query. */
  datatype FetchReply = Fetched(data: Option<seq<Listing>>) | FetchFailed(message: string) | FetchThrew

  /** The error banner: the translated error with the backend's message, or alone after a throw. */
  datatype LoadError = QueryFailed(message: string) | LoadThrew

  datatype DashboardEffect = PushTo(href: string) | FetchListings(query: OwnerQuery)

  const SignInHref := "/auth/signin?redirect=/dashboard"

  /** The rows a reply leaves on the page after the first load: the data, or none. */
  function LoadedListings(reply: FetchReply): (ls: seq<Listing>)
    ensures reply.Fetched? && reply.data.Some? ==> ls == reply.data.value
    ensures !(reply.Fetched? && reply.data.Some?) ==> ls == []
  {
    if reply.Fetched? && reply.data.Some? then reply.data.value else []
  }

  /** The banner after a reply; a successful reply keeps what was there. */
  function ErrorAfter(reply: FetchReply, previous: Option<LoadError>): (e: Option<LoadError>)
    ensures reply.Fetched? ==> e == previous
    ensures reply.FetchFailed? ==> e == Some(QueryFailed(reply.message))
    ensures reply.FetchThrew? ==> e == Some(LoadThrew)
  {
    match reply
    case Fetched(_) => previous
    case FetchFailed(message) => Some(QueryFailed(message))
    case FetchThrew => Some(LoadThrew)
  }

  class DashboardPage {
    var listings: seq<Listing>
    var loading: bool
    var error: Option<LoadError>
    var effects: seq<DashboardEffect>

    constructor ()
      ensures listings == [] && loading && error.None? && effects == []
    {
      listings, loading, error, effects := [], true, None, [];
    }

    /** The load effect. While authentication loads nothing happens; with
        no user afterwards the page goes to sign-in without a query;
        otherwise the owner's query runs and loading ends. */
    method Load(authLoading: bool, user: Option<User>, params: Params, reply: FetchReply)
      modifies this`listings, this`loading, this`error, this`effects
      ensures authLoading ==>
        listings == old(listings) && loading == old(loading) && error == old(error) && effects == old(effects)
      ensures !authLoading && user.None? ==>
        effects == old(effects) + [PushTo(SignInHref)] &&
        listings == old(listings) && loading == old(loading) && error == old(error)
      ensures !authLoading && user.Some? ==>
        |effects| == |old(effects)| + 1 && effects[..|old(effects)|] == old(effects) &&
        effects[|old(effects)|].FetchListings? &&
        (forall l :: Admits(effects[|old(effects)|].query, l) <==> OwnerMatches(user.value.id, params, l)) &&
        listings == LoadedListings(reply) && error == ErrorAfter(reply, old(error)) && !loading
    {
      if authLoading {
        return;
      }
      if user.None? {
        effects := effects + [PushTo(SignInHref)];
        return;
      }
      loading := true;
      var q := OwnerQueryFor(user.value.id, params);
      effects := effects + [FetchListings(q)];
      listings := LoadedListings(reply);
      error := ErrorAfter(reply, error);
      loading := false;
    }

    /** `refreshListings`, the cards' callback: the same query, but an error
        keeps the listings already shown. */
    method Refresh(user: Option<User>, params: Params, reply: FetchReply)
      modifies this`listings, this`error, this`effects
      ensures user.None? ==> listings == old(listings) && error == old(error) && effects == old(effects)
      ensures user.Some? ==>
        |effects| == |old(effects)| + 1 && effects[..|old(effects)|] == old(effects) &&
        effects[|old(effects)|].FetchListings? &&
        (forall l :: Admits(effects[|old(effects)|].query, l) <==> OwnerMatches(user.value.id, params, l)) &&
        error == ErrorAfter(reply, old(error)) &&
        listings == (if reply.Fetched? then LoadedListings(reply) else old(listings))
    {
      if user.None? {
        return;
      }
      var q := OwnerQueryFor(user.value.id, params);
      effects := effects + [FetchListings(q)];
      if reply.Fetched? {
        listings := LoadedListings(reply);
      }
      error := ErrorAfter(reply, error);
    }
  }

  /** The figures the page shows. */
  datatype Stats = Stats(total: nat, views: int, featured: nat, sale: nat, rent: nat)

  function StatsOf(ls: seq<Listing>): (s: Stats)
    ensures s.total == |ls| && s.views == TotalViews(ls)
    ensures s.featured == FeaturedCount(ls) && s.sale == SaleCount(ls) && s.rent == RentCount(ls)
    ensures s.featured <= s.total && s.sale + s.rent <= s.total
  {
    SaleAndRentBound(ls);
    Stats(|ls|, TotalViews(ls), FeaturedCount(ls), SaleCount(ls), RentCount(ls))
  }

  /** The empty-state line: the filtered variant when a filter is in the URL. */
  datatype EmptyText = NoListingsFiltered | NoListings

  predicate AnyFilter(params: Params) {
    Truthy(Get(params, "property_type")) || Truthy(Get(params, "transaction_type")) || Truthy(Get(params, "search"))
  }

  /** What the page draws: a spinner, nothing (the redirect is under way),
      or the board with its figures and, without rows, the empty-state line. */
  datatype Screen = Spinner | Blank | Board(stats: Stats, empty: Option<EmptyText>)

  function ScreenOf(authLoading: bool, loading: bool, user: Option<User>, ls: seq<Listing>, params: Params): (s: Screen)
    ensures s.Spinner? <==> authLoading || loading
    ensures s.Blank? <==> !authLoading && !loading && user.None?
    ensures s.Board? ==> s.stats == StatsOf(ls) && (s.empty.Some? <==> ls == [])
    ensures s.Board? && ls == [] ==> (s.empty == Some(NoListingsFiltered) <==> AnyFilter(params))
  {
    if authLoading || loading then Spinner
    else if user.None? then Blank
    else Board(StatsOf(ls), if ls == [] then Some(if AnyFilter(params) then NoListingsFiltered else NoListings) else None)
  }

  /** The welcome name: the trimmed full name, else the generic "user" text (None). */
  function WelcomeName(p: Option<Profile>): (n: Option<string>)
    ensures n.Some? ==> n.value != "" && p.Some? && p.value.fullName.Some? && n.value == Trim(p.value.fullName.value)
    ensures n.None? ==> p.None? || p.value.fullName.None? || Trim(p.value.fullName.value) == ""
  {
    if p.Some? && p.value.fullName.Some? && Trim(p.value.fullName.value) != "" then Some(Trim(p.value.fullName.value)) else None
  }

  /** A first load that fails leaves an empty board showing the error; a
      refresh that fails afterwards keeps the rows that were shown. */
  lemma FailedLoadThenRefresh(shown: seq<Listing>, message: string)
    ensures LoadedListings(FetchFailed(message)) == []
    ensures ErrorAfter(FetchFailed(message), None) == Some(QueryFailed(message))
    ensures ErrorAfter(Fetched(Some(shown)), Some(QueryFailed(message))) == Some(QueryFailed(message))
  {
  }
}
