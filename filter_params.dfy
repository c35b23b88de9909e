/**
 * The step both filter bars share: walk the filter object's entries in
 * order and `set` a URL parameter for each non-empty value.
 */
module FilterParams {
  import opened Common

  /** A navigation target: the path (with '?' when a query part follows)
      and the parameters `toString` serialises after it. */
  datatype Href = Href(path: string, query: Params)

  /** The entries of a JavaScript object: no key twice. */
  predicate DistinctKeys(xs: Params) {
    forall i, j :: 0 <= i < j < |xs| ==> xs[i].0 != xs[j].0
  }

  /** The entries whose value is non-empty, in order. */
  function NonEmptyPairs(xs: Params): (r: Params)
    ensures |r| <= |xs|
    decreases |xs|
  {
    if xs == [] then []
    else NonEmptyPairs(xs[..|xs| - 1]) + (if xs[|xs| - 1].1 != "" then [xs[|xs| - 1]] else [])
  }

  /** Every kept entry is an entry. */
  lemma {:induction false} NonEmptyPairsFrom(xs: Params)
    ensures forall p :: p in NonEmptyPairs(xs) ==> p in xs
    decreases |xs|
  {
    if xs != [] {
      NonEmptyPairsFrom(xs[..|xs| - 1]);
      forall p | p in xs[..|xs| - 1] ensures p in xs {
        var j :| 0 <= j < |xs| - 1 && xs[..|xs| - 1][j] == p;
        assert xs[j] == p;
      }
    }
  }

  /** Nothing is kept exactly when every value is empty. */
  lemma {:induction false} NonEmptyPairsNone(xs: Params)
    ensures NonEmptyPairs(xs) == [] <==> forall i :: 0 <= i < |xs| ==> xs[i].1 == ""
    decreases |xs|
  {
    if xs != [] {
      var init := xs[..|xs| - 1];
      NonEmptyPairsNone(init);
      assert forall i :: 0 <= i < |init| ==> init[i] == xs[i];
    }
  }

  /** `set` of a key not yet present appends the pair. */
  lemma {:induction false} SetParamFresh(q: Params, k: string, v: string)
    requires forall j :: 0 <= j < |q| ==> q[j].0 != k
    ensures SetParam(q, k, v) == q + [(k, v)]
    decreases |q|
  {
    if q != [] {
      SetParamFresh(q[1..], k, v);
      assert [q[0]] + (q[1..] + [(k, v)]) == q + [(k, v)];
    }
  }

  /** `get` after appending a pair: an earlier pair of the same name still wins. */
  lemma {:induction false} GetSnoc(q: Params, p: (string, string), k: string)
    ensures Get(q + [p], k) == if Get(q, k).Some? then Get(q, k) else if p.0 == k then Some(p.1) else None
    decreases |q|
  {
    if q == [] {
      assert q + [p] == [p];
    } else {
      assert (q + [p])[1..] == q[1..] + [p];
      GetSnoc(q[1..], p, k);
    }
  }

  /** The walk of `handleSearch`: for each entry in order, a non-empty value is `set`. */
  method BuildParams(entries: Params) returns (params: Params)
    requires DistinctKeys(entries)
    ensures params == NonEmptyPairs(entries)
  {
    params := [];
    for i := 0 to |entries|
      invariant params == NonEmptyPairs(entries[..i])
    {
      var (key, value) := entries[i];
      assert entries[..i + 1][..i] == entries[..i];
      if value != "" {
        NonEmptyPairsFrom(entries[..i]);
        forall j | 0 <= j < |params| ensures params[j].0 != key {
          assert params[j] in entries[..i];
          var m :| 0 <= m < i && entries[..i][m] == params[j];
          assert entries[m] == params[j];
        }
        SetParamFresh(params, key, value);
        params := SetParam(params, key, value);
      }
    }
    assert entries[..|entries|] == entries;
  }

  /** With distinct keys, the parameter of an entry's key is its value when
      non-empty and absent otherwise. */
  lemma {:induction false} GetNonEmpty(xs: Params, m: nat)
    requires DistinctKeys(xs) && m < |xs|
    ensures Get(NonEmptyPairs(xs), xs[m].0) == if xs[m].1 != "" then Some(xs[m].1) else None
    decreases |xs|
  {
    var init, last := xs[..|xs| - 1], xs[|xs| - 1];
    var k := xs[m].0;
    if last.1 != "" {
      assert NonEmptyPairs(xs) == NonEmptyPairs(init) + [last];
      GetSnoc(NonEmptyPairs(init), last, k);
    } else {
      assert NonEmptyPairs(xs) == NonEmptyPairs(init);
    }
    if m < |xs| - 1 {
      assert init[m] == xs[m];
      GetNonEmpty(init, m);
      assert last.0 != k;
    } else {
      GetAbsent(init, k);
    }
  }

  /** A key none of the entries carries has no parameter. */
  lemma {:induction false} GetAbsent(xs: Params, k: string)
    requires forall j :: 0 <= j < |xs| ==> xs[j].0 != k
    ensures Get(NonEmptyPairs(xs), k).None?
  {
    NonEmptyPairsFrom(xs);
    var r := NonEmptyPairs(xs);
    forall j | 0 <= j < |r| ensures r[j].0 != k {
      assert r[j] in xs;
    }
  }
}
