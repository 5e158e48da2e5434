/**
 * `Object.keys(unitCost).sort()`: the key set of a cost map in the order of
 * JavaScript's default string comparison.
 */
module SortedNames {

  /** The default `sort` order on strings: character by character, a proper
      prefix before any of its extensions. */
  predicate Less(a: string, b: string)
    decreases |a|
  {
    if |a| == 0 then |b| > 0
    else if |b| == 0 then false
    else if a[0] != b[0] then a[0] < b[0]
    else Less(a[1..], b[1..])
  }

  lemma {:induction false} LessIrreflexive(a: string)
    ensures !Less(a, a)
  {
    if |a| > 0 {
      LessIrreflexive(a[1..]);
    }
  }

  lemma {:induction false} LessTransitive(a: string, b: string, c: string)
    requires Less(a, b) && Less(b, c)
    ensures Less(a, c)
    decreases |a|
  {
    if |a| > 0 && a[0] == b[0] && b[0] == c[0] {
      LessTransitive(a[1..], b[1..], c[1..]);
    }
  }

  lemma {:induction false} LessTotal(a: string, b: string)
    requires a != b
    ensures Less(a, b) || Less(b, a)
    decreases |a|
  {
    if |a| > 0 && |b| > 0 && a[0] == b[0] {
      assert a == [a[0]] + a[1..] && b == [b[0]] + b[1..];
      LessTotal(a[1..], b[1..]);
    }
  }

  lemma {:induction false} LessAsymmetric(a: string, b: string)
    requires Less(a, b)
    ensures !Less(b, a)
  {
    if Less(b, a) {
      LessTransitive(a, b, a);
      LessIrreflexive(a);
    }
  }

  /** Strictly ascending: sorted, and therefore free of duplicates. */
  ghost predicate StrictlySorted(s: seq<string>)
  {
    forall i, j :: 0 <= i < j < |s| ==> Less(s[i], s[j])
  }

  /** The least name of a non-empty set, found by scanning it. */
  method LeastOf(names: set<string>) returns (x: string)
    requires names != {}
    ensures x in names
    ensures forall y :: y in names && y != x ==> Less(x, y)
  {
    x :| x in names;
    var rest := names - {x};
    while rest != {}
      invariant x in names && rest <= names && x !in rest
      invariant forall y :: y in names - rest && y != x ==> Less(x, y)
      decreases rest
    {
      var y :| y in rest;
      if Less(y, x) {
        forall z | z in names - rest && z != y
          ensures Less(y, z)
        {
          if z != x {
            LessTransitive(y, x, z);
          }
        }
        x := y;
      } else {
        LessTotal(x, y);
      }
      rest := rest - {y};
    }
  }

  /** The keys of `m`, sorted: a strictly ascending sequence of exactly the keys. */
  method SortedKeys<V>(m: map<string, V>) returns (names: seq<string>)
    ensures StrictlySorted(names)
    ensures forall n :: n in names <==> n in m
    ensures |names| == |m|
  {
    names := [];
    var rest := m.Keys;
    while rest != {}
      invariant rest <= m.Keys
      invariant forall n :: n in names <==> n in m && n !in rest
      invariant |names| + |rest| == |m.Keys|
      invariant StrictlySorted(names)
      invariant forall i, y :: 0 <= i < |names| && y in rest ==> Less(names[i], y)
      decreases rest
    {
      var x := LeastOf(rest);
      names := names + [x];
      rest := rest - {x};
    }
  }
}
