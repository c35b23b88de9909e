/**
 * Values and string primitives shared by every part of the model: optional
 * values, JavaScript truthiness of strings, `trim`, `toLowerCase`,
 * `includes`, `startsWith`, the ordered key/value lists that `URLSearchParams`
 * holds, and the two array idioms the forms use (`slice(0, n)` and
 * `filter((_, i) => i !== index)`).
 */
module Common {

  datatype Option<T> = None | Some(value: T)

  /** `s || ''` for a value that may be null or undefined. */
  function OrEmpty(o: Option<string>): string {
    if o.Some? then o.value else ""
  }

  /** JavaScript truthiness of a string that may be null or undefined. */
  predicate Truthy(o: Option<string>) {
    o.Some? && o.value != ""
  }

  /** `s.trim() || null`: the empty string becomes null. */
  function EmptyToNull(s: string): (r: Option<string>)
    ensures r.None? <==> s == ""
    ensures r.Some? ==> r.value == s
  {
    if s == "" then None else Some(s)
  }

  // ---------------------------------------------------------------------
  // trim
  // ---------------------------------------------------------------------

  /** The characters `String.prototype.trim` removes: white space and line terminators. */
  predicate IsWhite(c: char) {
    c == '\t' || c == '\n' || c == '\U{000B}' || c == '\U{000C}' || c == '\r' || c == ' ' ||
    c == '\U{00A0}' || c == '\U{1680}' || ('\U{2000}' <= c <= '\U{200A}') ||
    c == '\U{2028}' || c == '\U{2029}' || c == '\U{202F}' || c == '\U{205F}' ||
    c == '\U{3000}' || c == '\U{FEFF}'
  }

  function TrimStart(s: string): (r: string)
    ensures |r| <= |s|
  {
    if s != [] && IsWhite(s[0]) then TrimStart(s[1..]) else s
  }

  function TrimEnd(s: string): (r: string)
    ensures |r| <= |s|
  {
    if s != [] && IsWhite(s[|s| - 1]) then TrimEnd(s[..|s| - 1]) else s
  }

  /** `TrimStart` drops exactly the white space at the front. */
  lemma {:induction false} TrimStartFacts(s: string)
    ensures var r := TrimStart(s);
      r == s[|s| - |r|..] && (r == [] || !IsWhite(r[0])) &&
      forall i :: 0 <= i < |s| - |r| ==> IsWhite(s[i])
  {
    if s != [] && IsWhite(s[0]) {
      TrimStartFacts(s[1..]);
      var r := TrimStart(s[1..]);
      forall i | 0 <= i < |s| - |r|
        ensures IsWhite(s[i])
      {
        if i > 0 {
          assert s[i] == s[1..][i - 1];
        }
      }
    }
  }

  /** `TrimEnd` drops exactly the white space at the back. */
  lemma {:induction false} TrimEndFacts(s: string)
    ensures var r := TrimEnd(s);
      r == s[..|r|] && (r == [] || !IsWhite(r[|r| - 1])) &&
      forall i :: |r| <= i < |s| ==> IsWhite(s[i])
  {
    if s != [] && IsWhite(s[|s| - 1]) {
      TrimEndFacts(s[..|s| - 1]);
      var r := TrimEnd(s[..|s| - 1]);
      forall i | |r| <= i < |s|
        ensures IsWhite(s[i])
      {
        if i < |s| - 1 {
          assert s[i] == s[..|s| - 1][i];
        }
      }
    }
  }

  /** `s.trim()`. */
  function Trim(s: string): string {
    TrimEnd(TrimStart(s))
  }

  /** A trimmed string is a contiguous piece of the input with white space only around it. */
  lemma TrimShape(s: string)
    ensures var r := Trim(s);
      r == [] || (!IsWhite(r[0]) && !IsWhite(r[|r| - 1]))
    ensures exists a: nat, b: nat :: (a <= b <= |s| && Trim(s) == s[a..b] &&
      (forall i :: 0 <= i < a ==> IsWhite(s[i])) && (forall i :: b <= i < |s| ==> IsWhite(s[i])))
  {
    var t := TrimStart(s);
    var r := TrimEnd(t);
    TrimStartFacts(s);
    TrimEndFacts(t);
    var a := |s| - |t|;
    var b := a + |r|;
    assert t == s[a..];
    assert r == t[..|r|];
    assert r == s[a..b];
    if r != [] {
      assert TrimStart(r) == r by {
        assert r[0] == t[0];
        TrimStartFacts(r);
      }
    }
    assert forall i :: b <= i < |s| ==> IsWhite(s[i]) by {
      forall i | b <= i < |s| ensures IsWhite(s[i]) {
        assert s[i] == t[i - a];
      }
    }
  }

  /** Trimming a string that has no white space at either end changes nothing. */
  lemma TrimUnchanged(s: string)
    requires s == [] || (!IsWhite(s[0]) && !IsWhite(s[|s| - 1]))
    ensures Trim(s) == s
  {
  }

  /** Trimming twice is trimming once. */
  lemma TrimIdempotent(s: string)
    ensures Trim(Trim(s)) == Trim(s)
  {
    TrimShape(s);
    TrimUnchanged(Trim(s));
  }

  /** An empty trimmed string means the input was all white space. */
  lemma TrimEmptyIffAllWhite(s: string)
    ensures Trim(s) == "" <==> forall i :: 0 <= i < |s| ==> IsWhite(s[i])
  {
    TrimShape(s);
    if forall i :: 0 <= i < |s| ==> IsWhite(s[i]) {
      TrimStartAllWhite(s);
    }
  }

  lemma {:induction false} TrimStartAllWhite(s: string)
    requires forall i :: 0 <= i < |s| ==> IsWhite(s[i])
    ensures TrimStart(s) == ""
  {
    if s != [] {
      TrimStartAllWhite(s[1..]);
    }
  }

  // ---------------------------------------------------------------------
  // toLowerCase, includes, startsWith
  // ---------------------------------------------------------------------

  function LowerChar(c: char): char {
    if 'A' <= c <= 'Z' then (c as int + 32) as char else c
  }

  /** `s.toLowerCase()` on the Latin capitals; every other character is kept. */
  function ToLower(s: string): (r: string)
    ensures |r| == |s|
    ensures forall i :: 0 <= i < |s| ==> r[i] == LowerChar(s[i])
  {
    seq(|s|, i requires 0 <= i < |s| => LowerChar(s[i]))
  }

  lemma ToLowerIdempotent(s: string)
    ensures ToLower(ToLower(s)) == ToLower(s)
  {
  }

  /** `s.startsWith(p)`. */
  predicate StartsWith(s: string, p: string) {
    p <= s
  }

  /** `s.includes(t)`: t occurs in s at some position. */
  predicate Contains(s: string, t: string)
    decreases |s|
  {
    t <= s || (s != [] && Contains(s[1..], t))
  }

  /** Every string contains itself and the empty string. */
  lemma ContainsSelfAndEmpty(s: string)
    ensures Contains(s, s) && Contains(s, "")
  {
  }

  /** A string contains every piece of it. */
  lemma {:induction false} ContainsAt(s: string, t: string, k: nat)
    requires k + |t| <= |s| && s[k..k + |t|] == t
    ensures Contains(s, t)
  {
    if k > 0 {
      ContainsAt(s[1..], t, k - 1);
      assert s[1..][k - 1..k - 1 + |t|] == s[k..k + |t|];
    } else {
      assert t <= s;
    }
  }

  /** A string lacks every text that has a character the string lacks. */
  lemma {:induction false} NotContainsChar(s: string, t: string, c: char)
    requires c in t && c !in s
    ensures !Contains(s, t)
    decreases |s|
  {
    if s != [] {
      NotContainsChar(s[1..], t, c);
    }
  }

  /** Equal strings contain each other, so an equality match is also an `includes` match. */
  lemma EqualImpliesContains(s: string, t: string)
    requires s == t
    ensures Contains(ToLower(s), ToLower(t))
  {
  }

  // ---------------------------------------------------------------------
  // Decimal rendering for `String(n)` on integers
  // ---------------------------------------------------------------------

  function DigitChar(d: int): char
    requires 0 <= d < 10
  {
    "0123456789"[d]
  }

  function NatToString(n: nat): (r: string)
    ensures |r| >= 1
    decreases n
  {
    if n < 10 then [DigitChar(n)] else NatToString(n / 10) + [DigitChar(n % 10)]
  }

  /** `String(n)` for an integer n. */
  function IntToString(n: int): string {
    if n < 0 then "-" + NatToString(-n) else NatToString(n)
  }

  // ---------------------------------------------------------------------
  // URLSearchParams as an ordered list of (name, value) pairs
  // ---------------------------------------------------------------------

  type Params = seq<(string, string)>

  /** `params.get(k)`: the value of the first pair named k. */
  function Get(q: Params, k: string): (r: Option<string>)
    ensures r.Some? <==> exists i :: 0 <= i < |q| && q[i].0 == k
  {
    if q == [] then None else if q[0].0 == k then Some(q[0].1) else Get(q[1..], k)
  }

  /** The value `get` finds is that of the first pair with the name. */
  lemma {:induction false} GetFindsFirst(q: Params, k: string)
    ensures Get(q, k).Some? ==>
      exists i :: 0 <= i < |q| && q[i].0 == k && Get(q, k).value == q[i].1 && forall j :: 0 <= j < i ==> q[j].0 != k
    decreases |q|
  {
    if q != [] && q[0].0 != k && Get(q, k).Some? {
      GetFindsFirst(q[1..], k);
      var i :| 0 <= i < |q[1..]| && q[1..][i].0 == k && Get(q[1..], k).value == q[1..][i].1 && forall j :: 0 <= j < i ==> q[1..][j].0 != k;
      assert forall j :: 0 <= j < i + 1 ==> q[j].0 != k by {
        forall j | 0 <= j < i + 1 ensures q[j].0 != k {
          if j > 0 { assert q[j] == q[1..][j - 1]; }
        }
      }
      assert q[i + 1] == q[1..][i];
    }
  }

  /** `params.set(k, v)`: the first pair named k gets value v and later pairs named k
      are dropped; when there is none the pair is appended. */
  function SetParam(q: Params, k: string, v: string): (r: Params)
    ensures Get(r, k) == Some(v)
    ensures forall k' :: k' != k ==> Get(r, k') == Get(q, k')
  {
    if q == [] then [(k, v)]
    else if q[0].0 == k then [(k, v)] + Without(q[1..], k)
    else [q[0]] + SetParam(q[1..], k, v)
  }

  /** The pairs of q not named k, in order. */
  function Without(q: Params, k: string): (r: Params)
    ensures Get(r, k).None?
    ensures forall k' :: k' != k ==> Get(r, k') == Get(q, k')
    ensures |r| <= |q|
  {
    if q == [] then []
    else if q[0].0 == k then Without(q[1..], k)
    else [q[0]] + Without(q[1..], k)
  }

  // ---------------------------------------------------------------------
  // Array idioms
  // ---------------------------------------------------------------------

  /** `s.slice(0, n)`. */
  function Take<T>(s: seq<T>, n: nat): (r: seq<T>)
    ensures |r| == if |s| < n then |s| else n
    ensures r <= s
  {
    if |s| <= n then s else s[..n]
  }

  /** `s.filter((_, i) => i !== index)`: drops the element at `index` when there is one. */
  function RemoveAt<T>(s: seq<T>, index: int): (r: seq<T>)
    ensures 0 <= index < |s| ==> r == s[..index] + s[index + 1..]
    ensures !(0 <= index < |s|) ==> r == s
    decreases |s|
  {
    if s == [] then []
    else (if index == 0 then [] else [s[0]]) + RemoveAt(s[1..], index - 1)
  }
}
