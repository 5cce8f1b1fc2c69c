// A plain JavaScript object used as a dictionary keyed by record ids.
// `Object.keys`, `Object.values` and `Object.entries` list integer keys in
// increasing order, whatever order they were set in, so an object is kept
// as its entries sorted by key.
module JsObjects {
  import opened Prelude

  type Dict<V> = seq<(int, V)>

  predicate Ordered<V>(d: Dict<V>)
  {
    forall i, j :: 0 <= i < j < |d| ==> d[i].0 < d[j].0
  }

  /** `obj[k]`: None stands for `undefined`. */
  function Get<V>(d: Dict<V>, k: int): Option<V>
    decreases |d|
  {
    if d == [] then None
    else if d[0].0 == k then Some(d[0].1)
    else Get(d[1..], k)
  }

  /** `Object.keys(obj)`, read back as numbers. */
  function Keys<V>(d: Dict<V>): (r: seq<int>)
    ensures |r| == |d| && forall i :: 0 <= i < |d| ==> r[i] == d[i].0
  {
    seq(|d|, i requires 0 <= i < |d| => d[i].0)
  }

  lemma ConsOrdered<V>(e: (int, V), rest: Dict<V>)
    requires Ordered(rest) && forall i :: 0 <= i < |rest| ==> e.0 < rest[i].0
    ensures Ordered([e] + rest)
  {
    var r := [e] + rest;
    forall i, j | 0 <= i < j < |r|
      ensures r[i].0 < r[j].0
    {
      assert r[j] == rest[j - 1];
      if i > 0 {
        assert r[i] == rest[i - 1];
      }
    }
  }

  /** In an ordered object, a key below the first one is absent. */
  lemma {:induction false} GetBelow<V>(d: Dict<V>, k: int)
    requires Ordered(d) && (d == [] || k < d[0].0)
    ensures Get(d, k) == None
    decreases |d|
  {
    if d != [] {
      assert Ordered(d[1..]);
      if |d| > 1 {
        assert d[1..][0] == d[1];
      }
      GetBelow(d[1..], k);
    }
  }

  /** A key is present exactly when some entry has it. */
  lemma {:induction false} GetSome<V>(d: Dict<V>, k: int)
    ensures Get(d, k).Some? <==> k in Keys(d)
    decreases |d|
  {
    if d != [] {
      GetSome(d[1..], k);
      assert Keys(d) == [d[0].0] + Keys(d[1..]);
    }
  }

  /** `obj[k] = v`: the key takes the value, every other key keeps its own. */
  function Put<V>(d: Dict<V>, k: int, v: V): (r: Dict<V>)
    requires Ordered(d)
    ensures Ordered(r)
    ensures Get(r, k) == Some(v)
    ensures forall j :: j != k ==> Get(r, j) == Get(d, j)
    ensures r != [] && r[0].0 == (if d != [] && d[0].0 < k then d[0].0 else k)
    decreases |d|
  {
    if d == [] then [(k, v)]
    else if k < d[0].0 then
      ConsOrdered((k, v), d);
      [(k, v)] + d
    else if k == d[0].0 then
      assert Ordered(d[1..]);
      ConsOrdered((k, v), d[1..]);
      assert forall j :: j != k ==> Get(d, j) == Get(d[1..], j);
      [(k, v)] + d[1..]
    else
      var rest := Put(d[1..], k, v);
      assert d[0].0 < rest[0].0;
      ConsOrdered(d[0], rest);
      [d[0]] + rest
  }

  /** Two ordered objects that agree on every key are the same object. */
  lemma {:induction false} Extensional<V>(a: Dict<V>, b: Dict<V>)
    requires Ordered(a) && Ordered(b)
    requires forall k :: Get(a, k) == Get(b, k)
    ensures a == b
    decreases |a| + |b|
  {
    FirstEntry(a);
    FirstEntry(b);
    if a != [] && b != [] {
      assert Ordered(a[1..]) && Ordered(b[1..]);
      if a[0].0 < b[0].0 {
        GetBelow(b, a[0].0);
      } else if b[0].0 < a[0].0 {
        GetBelow(a, b[0].0);
      } else {
        assert Get(a, a[0].0) == Get(b, b[0].0);
        forall k
          ensures Get(a[1..], k) == Get(b[1..], k)
        {
          if k != a[0].0 {
            assert Get(a, k) == Get(a[1..], k) && Get(b, k) == Get(b[1..], k);
          } else {
            if |a| > 1 {
              assert a[1..][0] == a[1];
            }
            if |b| > 1 {
              assert b[1..][0] == b[1];
            }
            GetBelow(a[1..], k);
            GetBelow(b[1..], k);
          }
        }
        Extensional(a[1..], b[1..]);
        assert a == [a[0]] + a[1..] && b == [b[0]] + b[1..];
      }
    }
  }

  lemma FirstEntry<V>(d: Dict<V>)
    ensures d == [] || Get(d, d[0].0) == Some(d[0].1)
  {
  }

  /** The object a `forEach` builds by giving every listed key the same value. */
  function Uniform<V>(ks: seq<int>, v: V): (r: Dict<V>)
    ensures Ordered(r)
    decreases |ks|
  {
    if ks == [] then [] else Put(Uniform(ks[..|ks| - 1], v), ks[|ks| - 1], v)
  }

  /** Exactly the listed keys are set, each to the same value. */
  lemma {:induction false} UniformSpec<V>(ks: seq<int>, v: V, k: int)
    ensures Get(Uniform(ks, v), k) == if k in ks then Some(v) else None
    decreases |ks|
  {
    if ks != [] {
      var front := ks[..|ks| - 1];
      UniformSpec(front, v, k);
      assert ks == front + [ks[|ks| - 1]];
    }
  }

  /**
   * `const o = {}; ks.forEach(k => o[k] = v)`, the loop as written: the
   * object it leaves has exactly the listed keys, all holding `v`.
   */
  method FillAll<V>(ks: seq<int>, v: V) returns (o: Dict<V>)
    ensures o == Uniform(ks, v)
    ensures forall k :: Get(o, k) == if k in ks then Some(v) else None
  {
    o := [];
    var i := 0;
    while i < |ks|
      invariant 0 <= i <= |ks|
      invariant o == Uniform(ks[..i], v)
    {
      assert ks[..i + 1][..i] == ks[..i];
      o := Put(o, ks[i], v);
      i := i + 1;
    }
    assert ks[..|ks|] == ks;
    forall k
      ensures Get(o, k) == if k in ks then Some(v) else None
    {
      UniformSpec(ks, v, k);
    }
  }

  /** The object built from `[key, value]` pairs in turn: a later pair overwrites an earlier one. */
  function FromPairs<V>(ps: seq<(int, V)>): (r: Dict<V>)
    ensures Ordered(r)
    decreases |ps|
  {
    if ps == [] then [] else Put(FromPairs(ps[..|ps| - 1]), ps[|ps| - 1].0, ps[|ps| - 1].1)
  }

  /** A key no pair names is absent. */
  lemma {:induction false} FromPairsAbsent<V>(ps: seq<(int, V)>, k: int)
    requires forall i :: 0 <= i < |ps| ==> ps[i].0 != k
    ensures Get(FromPairs(ps), k) == None
    decreases |ps|
  {
    if ps != [] {
      FromPairsAbsent(ps[..|ps| - 1], k);
    }
  }

  /** A key holds the value of the last pair naming it. */
  lemma {:induction false} FromPairsLast<V>(ps: seq<(int, V)>, i: int)
    requires 0 <= i < |ps| && forall j :: i < j < |ps| ==> ps[j].0 != ps[i].0
    ensures Get(FromPairs(ps), ps[i].0) == Some(ps[i].1)
    decreases |ps|
  {
    var front := ps[..|ps| - 1];
    if i < |front| {
      assert forall j :: i < j < |front| ==> front[j] == ps[j];
      FromPairsLast(front, i);
    }
  }

  /**
   * `const o = {}; ps.forEach(([k, v]) => o[k] = v)`, the loop as written:
   * the object it leaves is the one the pairs build in turn.
   */
  method FillPairs<V>(ps: seq<(int, V)>) returns (o: Dict<V>)
    ensures o == FromPairs(ps)
  {
    o := [];
    var i := 0;
    while i < |ps|
      invariant 0 <= i <= |ps|
      invariant o == FromPairs(ps[..i])
    {
      assert ps[..i + 1][..i] == ps[..i];
      o := Put(o, ps[i].0, ps[i].1);
      i := i + 1;
    }
    assert ps[..|ps|] == ps;
  }

  /** `Object.values(obj).filter(Boolean).length` for an object of flags. */
  function CountTrue(d: Dict<bool>): (n: nat)
    ensures n <= |d|
    decreases |d|
  {
    if d == [] then 0 else (if d[0].1 then 1 else 0) + CountTrue(d[1..])
  }

  /** Setting a flag moves the count of true flags by the old and the new value. */
  lemma {:induction false} CountTruePut(d: Dict<bool>, k: int, v: bool)
    requires Ordered(d)
    ensures CountTrue(Put(d, k, v)) == CountTrue(d) - (if Get(d, k) == Some(true) then 1 else 0) + (if v then 1 else 0)
    decreases |d|
  {
    if d != [] {
      var r := Put(d, k, v);
      if k < d[0].0 {
        GetBelow(d, k);
        assert r == [(k, v)] + d;
        assert r[1..] == d;
      } else if k == d[0].0 {
        assert r[1..] == d[1..];
      } else {
        assert Ordered(d[1..]);
        CountTruePut(d[1..], k, v);
        assert r[1..] == Put(d[1..], k, v);
      }
    }
  }

  /** Keys that are all different, as a `forEach` over record ids lists them. */
  predicate Distinct(ks: seq<int>)
  {
    forall i, j :: 0 <= i < j < |ks| ==> ks[i] != ks[j]
  }

  /** Flagging every one of a list of different keys `true` counts each once; flagging them `false` counts none. */
  lemma {:induction false} UniformCount(ks: seq<int>, v: bool)
    requires Distinct(ks)
    ensures CountTrue(Uniform(ks, v)) == if v then |ks| else 0
    decreases |ks|
  {
    if ks != [] {
      var front := ks[..|ks| - 1];
      var last := ks[|ks| - 1];
      assert Distinct(front);
      UniformCount(front, v);
      UniformSpec(front, v, last);
      CountTruePut(Uniform(front, v), last, v);
    }
  }

  /** `delete obj[k]`: the key goes, every other key keeps its own value. */
  function Delete<V>(d: Dict<V>, k: int): (r: Dict<V>)
    requires Ordered(d)
    ensures Ordered(r)
    ensures Get(r, k) == None
    ensures forall j :: j != k ==> Get(r, j) == Get(d, j)
    ensures forall i :: 0 <= i < |r| ==> r[i] in d
    decreases |d|
  {
    if d == [] then []
    else
      assert Ordered(d[1..]);
      var rest := Delete(d[1..], k);
      if d[0].0 == k then
        assert |d| > 1 ==> d[1..][0] == d[1];
        GetBelow(d[1..], k);
        rest
      else
        forall i | 0 <= i < |rest|
          ensures d[0].0 < rest[i].0
        {
          var l :| 0 <= l < |d[1..]| && d[1..][l] == rest[i];
          assert d[l + 1] == rest[i];
        }
        ConsOrdered(d[0], rest);
        var r := [d[0]] + rest;
        assert r[1..] == rest;
        r
  }

  /** Deleting a key undoes setting it. */
  lemma DeleteAfterPut<V>(d: Dict<V>, k: int, v: V)
    requires Ordered(d)
    ensures Delete(Put(d, k, v), k) == Delete(d, k)
  {
    var a := Delete(Put(d, k, v), k);
    var b := Delete(d, k);
    forall j
      ensures Get(a, j) == Get(b, j)
    {
    }
    Extensional(a, b);
  }
}
