/** Shared vocabulary: optional values, clamps and rounding of money, and sums over lists. */
module Prelude {

  /** Database identifiers; only their equality matters. */
  type Id = nat

  datatype Option<+T> = None | Some(value: T)

  function Max0(x: real): real {
    if x < 0.0 then 0.0 else x
  }

  function Min(x: real, y: real): real {
    if x <= y then x else y
  }

  /** `Math.round(n * 100) / 100`. */
  function Round(x: real): real {
    (100.0 * x + 0.5).Floor as real / 100.0
  }

  /** An amount that is a whole number of hundredths. */
  predicate IsCents(x: real) {
    Round(x) == x
  }

  lemma FloorMonotone(x: real, y: real)
    requires x <= y
    ensures x.Floor <= y.Floor
  {
    assert x.Floor as real <= x <= y < (y.Floor + 1) as real;
  }

  lemma RoundMonotone(x: real, y: real)
    requires x <= y
    ensures Round(x) <= Round(y)
  {
    FloorMonotone(100.0 * x + 0.5, 100.0 * y + 0.5);
  }

  lemma CentsFromInt(k: int)
    ensures IsCents(k as real / 100.0)
  {
    assert 100.0 * (k as real / 100.0) + 0.5 == k as real + 0.5;
    assert (k as real + 0.5).Floor == k;
  }

  lemma RoundIsCents(x: real)
    ensures IsCents(Round(x))
  {
    CentsFromInt((100.0 * x + 0.5).Floor);
  }

  lemma CentsAdd(x: real, y: real)
    requires IsCents(x) && IsCents(y)
    ensures IsCents(x + y)
  {
    var j, k := (100.0 * x + 0.5).Floor, (100.0 * y + 0.5).Floor;
    assert x + y == (j + k) as real / 100.0;
    CentsFromInt(j + k);
  }

  /** The value `Array.prototype.find` would return, as an index. */
  function Find<T>(s: seq<T>, p: T -> bool): (r: Option<nat>)
    ensures r.Some? ==> r.value < |s| && p(s[r.value]) && forall j :: 0 <= j < r.value ==> !p(s[j])
    ensures r.None? ==> forall j :: 0 <= j < |s| ==> !p(s[j])
  {
    if s == [] then None
    else if p(s[0]) then Some(0)
    else
      match Find(s[1..], p)
      case None => None
      case Some(k) => Some(k + 1)
  }

  lemma AppendAssociates<T>(a: seq<T>, b: seq<T>, c: seq<T>)
    ensures a + b + c == a + (b + c)
  {
  }

  function Sum<T>(s: seq<T>, f: T -> real): real {
    if s == [] then 0.0 else Sum(s[..|s| - 1], f) + f(s[|s| - 1])
  }

  lemma SumAppend<T>(s: seq<T>, x: T, f: T -> real)
    ensures Sum(s + [x], f) == Sum(s, f) + f(x)
  {
    assert (s + [x])[..|s|] == s;
  }

  lemma SumOne<T>(x: T, f: T -> real)
    ensures Sum([x], f) == f(x)
  {
    assert [x] == [] + [x];
    SumAppend([], x, f);
  }

  lemma SumTwo<T>(x: T, y: T, f: T -> real)
    ensures Sum([x, y], f) == f(x) + f(y)
  {
    SumOne(x, f);
    assert [x, y] == [x] + [y];
    SumAppend([x], y, f);
  }

  lemma {:induction false} SumConcat<T>(s: seq<T>, t: seq<T>, f: T -> real)
    ensures Sum(s + t, f) == Sum(s, f) + Sum(t, f)
  {
    if t == [] {
      assert s + t == s;
    } else {
      SumConcat(s, t[..|t| - 1], f);
      assert s + t == (s + t[..|t| - 1]) + [t[|t| - 1]];
      SumAppend(s + t[..|t| - 1], t[|t| - 1], f);
    }
  }

  lemma {:induction false} SumUpdate<T>(s: seq<T>, i: nat, x: T, f: T -> real)
    requires i < |s|
    ensures Sum(s[i := x], f) == Sum(s, f) - f(s[i]) + f(x)
  {
    var n := |s| - 1;
    if i == n {
      assert s[i := x][..n] == s[..n];
    } else {
      assert s[i := x][..n] == s[..n][i := x];
      SumUpdate(s[..n], i, x, f);
    }
  }

  /** Lists that agree entry by entry have equal sums. */
  lemma {:induction false} SumSame<S, T>(s: seq<S>, t: seq<T>, f: S -> real, g: T -> real)
    requires |s| == |t| && forall i :: 0 <= i < |s| ==> f(s[i]) == g(t[i])
    ensures Sum(s, f) == Sum(t, g)
  {
    if s != [] {
      SumSame(s[..|s| - 1], t[..|t| - 1], f, g);
    }
  }

  /** Two measures that agree on every entry have equal sums. */
  lemma SumAgree<T>(s: seq<T>, f: T -> real, g: T -> real)
    requires forall x :: x in s ==> f(x) == g(x)
    ensures Sum(s, f) == Sum(s, g)
  {
    SumSame(s, s, f, g);
  }

  lemma {:induction false} SumAtMost<T>(s: seq<T>, f: T -> real, g: T -> real)
    requires forall x :: x in s ==> f(x) <= g(x)
    ensures Sum(s, f) <= Sum(s, g)
  {
    if s != [] {
      assert forall x :: x in s[..|s| - 1] ==> x in s;
      SumAtMost(s[..|s| - 1], f, g);
    }
  }

  lemma {:induction false} SumOfSums<T>(s: seq<T>, f: T -> real, g: T -> real, h: T -> real)
    requires forall x :: x in s ==> f(x) == g(x) + h(x)
    ensures Sum(s, f) == Sum(s, g) + Sum(s, h)
  {
    if s != [] {
      assert forall x :: x in s[..|s| - 1] ==> x in s;
      SumOfSums(s[..|s| - 1], f, g, h);
    }
  }

  lemma {:induction false} SumZero<T>(s: seq<T>, f: T -> real)
    requires forall x :: x in s ==> f(x) == 0.0
    ensures Sum(s, f) == 0.0
  {
    if s != [] {
      assert forall x :: x in s[..|s| - 1] ==> x in s;
      SumZero(s[..|s| - 1], f);
    }
  }

  /** A sum of non-negative terms bounds each of its terms. */
  lemma {:induction false} SumNonNegative<T>(s: seq<T>, f: T -> real)
    requires forall x :: x in s ==> f(x) >= 0.0
    ensures Sum(s, f) >= 0.0
    ensures forall x :: x in s ==> f(x) <= Sum(s, f)
  {
    if s != [] {
      assert forall x :: x in s[..|s| - 1] ==> x in s;
      SumNonNegative(s[..|s| - 1], f);
      assert forall x :: x in s ==> x in s[..|s| - 1] || x == s[|s| - 1];
    }
  }

  /** A sum of non-negative terms is zero exactly when every term is. */
  lemma SumZeroIff<T>(s: seq<T>, f: T -> real)
    requires forall x :: x in s ==> f(x) >= 0.0
    ensures Sum(s, f) >= 0.0
    ensures Sum(s, f) == 0.0 <==> forall x :: x in s ==> f(x) == 0.0
  {
    SumNonNegative(s, f);
    if forall x :: x in s ==> f(x) == 0.0 { SumZero(s, f); }
  }

  /** Two measures that drop alike, entry by entry, drop alike in sum. */
  lemma {:induction false} SumDrops<T>(s: seq<T>, t: seq<T>, f: T -> real, f': T -> real, g: T -> real, g': T -> real)
    requires |s| == |t| && forall i :: 0 <= i < |s| ==> f(s[i]) - f'(t[i]) == g(s[i]) - g'(t[i])
    ensures Sum(s, f) - Sum(t, f') == Sum(s, g) - Sum(t, g')
  {
    if s != [] {
      SumDrops(s[..|s| - 1], t[..|t| - 1], f, f', g, g');
    }
  }
}
