/**
 * Numeric helpers of the tables script: the accumulator loops behind
 * `sum`, `min` and `max`, the 1/128 quantisation `roundError`, and
 * `mapMap` over a string-keyed dictionary.
 *
 * The optional `reduce` callback of `sum`, `min` and `max` is modelled by
 * mapping it over the array first: every callback in the script is a pure
 * function of the element and its index.
 */
module Aggregates {

  /** A number as `min` and `max` can return it: finite, or the infinity
      that seeds the accumulator when the array is empty. */
  datatype Extended = Finite(value: real) | PosInf | NegInf

  /** The sum of a sequence, folded from the left as the loop does. */
  function Sum(s: seq<real>): real
  {
    if |s| == 0 then 0.0 else Sum(s[..|s| - 1]) + s[|s| - 1]
  }

  /** `sum(arr)`: the accumulator loop. */
  method SumOf(arr: seq<real>) returns (res: real)
    ensures res == Sum(arr)
  {
    res := 0.0;
    for i := 0 to |arr|
      invariant res == Sum(arr[..i])
    {
      assert arr[..i + 1][..i] == arr[..i];
      res := res + arr[i];
    }
    assert arr[..|arr|] == arr;
  }

  /** Raising one element raises the sum by the same amount. */
  lemma {:induction false} SumUpdate(s: seq<real>, i: nat, d: real)
    requires i < |s|
    ensures Sum(s[i := s[i] + d]) == Sum(s) + d
  {
    var t := s[i := s[i] + d];
    if i == |s| - 1 {
      assert t[..|t| - 1] == s[..|s| - 1];
    } else {
      assert t[..|t| - 1] == s[..|s| - 1][i := s[i] + d];
      SumUpdate(s[..|s| - 1], i, d);
    }
  }

  /** The sum of a concatenation is the sum of the parts. */
  lemma {:induction false} SumAppend(a: seq<real>, b: seq<real>)
    ensures Sum(a + b) == Sum(a) + Sum(b)
  {
    if |b| == 0 {
      assert a + b == a;
    } else {
      assert (a + b)[..|a + b| - 1] == a + b[..|b| - 1];
      SumAppend(a, b[..|b| - 1]);
    }
  }

  /** `n < res` against a possibly infinite accumulator. */
  predicate Below(x: real, e: Extended)
  {
    match e
    case Finite(v) => x < v
    case PosInf => true
    case NegInf => false
  }

  /** `n > res` against a possibly infinite accumulator. */
  predicate Above(x: real, e: Extended)
  {
    match e
    case Finite(v) => x > v
    case PosInf => false
    case NegInf => true
  }

  /** `min(arr)`: +infinity for an empty array, otherwise the least element. */
  function Min(s: seq<real>): (r: Extended)
    ensures |s| == 0 <==> r == PosInf
    ensures |s| > 0 ==> r.Finite?
    ensures r.Finite? ==> exists k :: 0 <= k < |s| && s[k] == r.value
    ensures r.Finite? ==> forall k :: 0 <= k < |s| ==> r.value <= s[k]
  {
    if |s| == 0 then PosInf
    else
      var m := Min(s[..|s| - 1]);
      if Below(s[|s| - 1], m) then Finite(s[|s| - 1]) else m
  }

  /** `max(arr)`: -infinity for an empty array, otherwise the greatest element. */
  function Max(s: seq<real>): (r: Extended)
    ensures |s| == 0 <==> r == NegInf
    ensures |s| > 0 ==> r.Finite?
    ensures r.Finite? ==> exists k :: 0 <= k < |s| && s[k] == r.value
    ensures r.Finite? ==> forall k :: 0 <= k < |s| ==> s[k] <= r.value
  {
    if |s| == 0 then NegInf
    else
      var m := Max(s[..|s| - 1]);
      if Above(s[|s| - 1], m) then Finite(s[|s| - 1]) else m
  }

  /** `min(arr)`: the accumulator loop seeded with +infinity. */
  method MinOf(arr: seq<real>) returns (res: Extended)
    ensures res == Min(arr)
  {
    res := PosInf;
    for i := 0 to |arr|
      invariant res == Min(arr[..i])
    {
      assert arr[..i + 1][..i] == arr[..i];
      var n := arr[i];
      if Below(n, res) {
        res := Finite(n);
      }
    }
    assert arr[..|arr|] == arr;
  }

  /** `max(arr)`: the accumulator loop seeded with -infinity. */
  method MaxOf(arr: seq<real>) returns (res: Extended)
    ensures res == Max(arr)
  {
    res := NegInf;
    for i := 0 to |arr|
      invariant res == Max(arr[..i])
    {
      assert arr[..i + 1][..i] == arr[..i];
      var n := arr[i];
      if Above(n, res) {
        res := Finite(n);
      }
    }
    assert arr[..|arr|] == arr;
  }

  /** `Math.round(x)`: the nearest integer, halves rounded up. */
  function Round(x: real): (r: int)
    ensures x - 0.5 < r as real <= x + 0.5
  {
    (x + 0.5).Floor
  }

  /** The quantum of `roundError`: `1 << 7`. */
  const Quantum: int := 128

  /** `roundError(n)`: `n` quantised to the nearest multiple of 1/128. */
  function RoundError(n: real): (r: real)
    ensures n - 1.0 / 256.0 < r <= n + 1.0 / 256.0
  {
    var k := Round(n * Quantum as real);
    QuantumBounds(n, k);
    k as real / Quantum as real
  }

  lemma QuantumBounds(n: real, k: int)
    requires n * 128.0 - 0.5 < k as real <= n * 128.0 + 0.5
    ensures n - 1.0 / 256.0 < k as real / 128.0 <= n + 1.0 / 256.0
  {
  }

  /** `roundError` maps exactly the half-open interval [255/256, 257/256) to 1. */
  lemma RoundErrorIsOne(n: real)
    ensures RoundError(n) == 1.0 <==> 255.0 / 256.0 <= n < 257.0 / 256.0
  {
    var f := (n * 128.0 + 0.5).Floor;
    assert f as real <= n * 128.0 + 0.5 < f as real + 1.0;
    if RoundError(n) == 1.0 {
      assert f == 128;
    }
    if 255.0 / 256.0 <= n < 257.0 / 256.0 {
      assert 128.0 <= n * 128.0 + 0.5 < 129.0;
      assert f == 128;
    }
  }

  /** `mapMap(map, fn)`: a new dictionary with the same keys, each value
      replaced by `fn(value, key)`. */
  method MapMap<T, U>(m: map<string, T>, fn: (T, string) -> U) returns (result: map<string, U>)
    ensures result.Keys == m.Keys
    ensures forall k :: k in m ==> result[k] == fn(m[k], k)
  {
    result := map[];
    var todo := m.Keys;
    while todo != {}
      invariant todo <= m.Keys
      invariant result.Keys == m.Keys - todo
      invariant forall k :: k in result ==> result[k] == fn(m[k], k)
      decreases todo
    {
      var k :| k in todo;
      result := result[k := fn(m[k], k)];
      todo := todo - {k};
    }
  }
}
