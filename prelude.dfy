// Shared building blocks: an optional value and sums over sequences.
module Prelude {

  datatype Option<T> = None | Some(value: T)

  /** Left-to-right sum, the shape of a `reduce((acc, x) => acc + x, 0)`. */
  function Sum(s: seq<real>): real
  {
    if s == [] then 0.0 else Sum(s[..|s| - 1]) + s[|s| - 1]
  }

  lemma {:induction false} SumAppend(a: seq<real>, b: seq<real>)
    ensures Sum(a + b) == Sum(a) + Sum(b)
    decreases |b|
  {
    if b == [] {
      assert a + b == a;
    } else {
      assert (a + b)[..|a + b| - 1] == a + b[..|b| - 1];
      SumAppend(a, b[..|b| - 1]);
    }
  }

  lemma {:induction false} SumNonNegative(s: seq<real>)
    requires forall i :: 0 <= i < |s| ==> s[i] >= 0.0
    ensures Sum(s) >= 0.0
    decreases |s|
  {
    if s != [] {
      SumNonNegative(s[..|s| - 1]);
    }
  }

  /** Number of occurrences of `x` in `s`. */
  function Count<T(==)>(s: seq<T>, x: T): nat
  {
    if s == [] then 0 else Count(s[..|s| - 1], x) + (if s[|s| - 1] == x then 1 else 0)
  }

  lemma {:induction false} CountAppend<T>(a: seq<T>, b: seq<T>, x: T)
    ensures Count(a + b, x) == Count(a, x) + Count(b, x)
    decreases |b|
  {
    if b == [] {
      assert a + b == a;
    } else {
      assert (a + b)[..|a + b| - 1] == a + b[..|b| - 1];
      CountAppend(a, b[..|b| - 1], x);
    }
  }

  lemma {:induction false} CountPositive<T>(s: seq<T>, x: T)
    ensures (Count(s, x) > 0) == (x in s)
    decreases |s|
  {
    if s != [] {
      CountPositive(s[..|s| - 1], x);
      assert s == s[..|s| - 1] + [s[|s| - 1]];
    }
  }

  /** A non-empty sequence has its first element as a member. */
  lemma HeadIn<T>(s: seq<T>)
    ensures s == [] || s[0] in s
  {
  }

  function MaxReal(a: real, b: real): real
  {
    if a >= b then a else b
  }

  lemma DivBounds(a: nat, b: int)
    requires b > 0
    ensures 0 <= (a / b) * b <= a < (a / b) * b + b
  {
    var q, m := a / b, a % b;
    assert a == b * q + m && 0 <= m < b;
    assert q * b == b * q;
    assert 0 <= q;
    MulNonNegative(q, b);
  }

  lemma MulNonNegative(x: int, y: int)
    requires 0 <= x && 0 <= y
    ensures 0 <= x * y
  {
  }

  /**
   * C's `(int)` cast and Python's `int()` applied to the exact quotient a / b:
   * truncation toward zero.
   */
  function TruncDiv(a: int, b: int): (q: int)
    requires b > 0
    ensures 0 <= a ==> 0 <= q * b <= a < q * b + b
    ensures a < 0 ==> q * b - b < a <= q * b <= 0
  {
    if a >= 0 then
      DivBounds(a, b);
      a / b
    else
      DivBounds(-a, b);
      assert -((-a) / b) * b == -(((-a) / b) * b);
      -((-a) / b)
  }

  /** An object filled by `entries.forEach(([k, v]) => obj[k] = v)`: a later entry overwrites an earlier one. */
  function MapOf<K, V>(entries: seq<(K, V)>): map<K, V>
  {
    if entries == [] then map[]
    else MapOf(entries[..|entries| - 1])[entries[|entries| - 1].0 := entries[|entries| - 1].1]
  }

  /** A key is present exactly when some entry names it. */
  lemma {:induction false} MapOfKeys<K, V>(entries: seq<(K, V)>, k: K)
    ensures k in MapOf(entries) <==> exists i :: 0 <= i < |entries| && entries[i].0 == k
    decreases |entries|
  {
    if entries != [] {
      var front := entries[..|entries| - 1];
      MapOfKeys(front, k);
      if k in MapOf(front) {
        var i :| 0 <= i < |front| && front[i].0 == k;
        assert entries[i] == front[i];
      }
      if entries[|entries| - 1].0 != k && k !in MapOf(front) {
        forall i | 0 <= i < |entries|
          ensures entries[i].0 != k
        {
          if i < |front| {
            assert entries[i] == front[i];
          }
        }
      }
    }
  }

  /** The value kept under a key is that of the last entry naming it. */
  lemma {:induction false} MapOfLast<K, V>(entries: seq<(K, V)>, i: int)
    requires 0 <= i < |entries|
    requires forall j :: i < j < |entries| ==> entries[j].0 != entries[i].0
    ensures entries[i].0 in MapOf(entries) && MapOf(entries)[entries[i].0] == entries[i].1
    decreases |entries|
  {
    var front := entries[..|entries| - 1];
    if i < |front| {
      forall j | i < j < |front|
        ensures front[j].0 != front[i].0
      {
        assert front[j] == entries[j];
      }
      MapOfLast(front, i);
      assert front[i] == entries[i];
    }
  }
}
