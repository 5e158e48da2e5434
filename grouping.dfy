/**
 * `groupBy(items, keyFunc)`: the items split into groups of equal key, the
 * groups listed in order of their key's first appearance and each group
 * keeping the input order of its items.
 */
module Grouping {
  import opened Wrappers

  datatype Group<T, K> = Group(key: K, items: seq<T>)

  /** Index of the first group carrying key `k`, or `None`: the inner loop. */
  function FindGroup<T, K(==)>(gs: seq<Group<T, K>>, k: K): (o: Option<nat>)
    ensures o.Some? ==> o.value < |gs| && gs[o.value].key == k
    ensures o.None? <==> forall i :: 0 <= i < |gs| ==> gs[i].key != k
  {
    if |gs| == 0 then None
    else if gs[0].key == k then Some(0)
    else match FindGroup(gs[1..], k)
      case None => None
      case Some(j) => Some(j + 1)
  }

  /** One turn of the outer loop: put `x` into the group of its key, or
      open a new group at the end. */
  function Place<T, K(==)>(gs: seq<Group<T, K>>, x: T, keyFunc: T -> K): seq<Group<T, K>>
  {
    match FindGroup(gs, keyFunc(x))
    case None => gs + [Group(keyFunc(x), [x])]
    case Some(j) => gs[j := gs[j].(items := gs[j].items + [x])]
  }

  /** The groups after the whole input has been placed, item by item. */
  function Grouped<T, K(==)>(s: seq<T>, keyFunc: T -> K): seq<Group<T, K>>
  {
    if |s| == 0 then [] else Place(Grouped(s[..|s| - 1], keyFunc), s[|s| - 1], keyFunc)
  }

  /** The items of `s` with key `k`, in input order: the reference
      definition of a group's contents. */
  function Members<T, K(==)>(s: seq<T>, keyFunc: T -> K, k: K): seq<T>
  {
    if |s| == 0 then []
    else Members(s[..|s| - 1], keyFunc, k) + (if keyFunc(s[|s| - 1]) == k then [s[|s| - 1]] else [])
  }

  /** Position of the first item with key `k`, or `|s|` if there is none. */
  function FirstIndex<T, K(==)>(s: seq<T>, keyFunc: T -> K, k: K): (r: nat)
    ensures r <= |s|
    ensures r < |s| ==> keyFunc(s[r]) == k
    ensures forall p :: 0 <= p < r ==> keyFunc(s[p]) != k
  {
    if |s| == 0 then 0
    else if keyFunc(s[0]) == k then 0
    else 1 + FirstIndex(s[1..], keyFunc, k)
  }

  /** The items of all groups, group after group. */
  function Flatten<T, K>(gs: seq<Group<T, K>>): seq<T>
  {
    if |gs| == 0 then [] else gs[0].items + Flatten(gs[1..])
  }

  ghost predicate Occurs<T, K>(s: seq<T>, keyFunc: T -> K, k: K)
  {
    FirstIndex(s, keyFunc, k) < |s|
  }

  /** Keys are pairwise distinct. */
  ghost predicate DistinctKeys<T, K>(gs: seq<Group<T, K>>)
  {
    forall i, j :: 0 <= i < j < |gs| ==> gs[i].key != gs[j].key
  }

  /** Every group lists exactly the items of its key, in input order. */
  ghost predicate ExactMembers<T, K>(s: seq<T>, keyFunc: T -> K, gs: seq<Group<T, K>>)
  {
    forall i :: 0 <= i < |gs| ==> gs[i].items == Members(s, keyFunc, gs[i].key)
  }

  /** Every key of the input has a group, and every group's key occurs. */
  ghost predicate SameKeys<T, K>(s: seq<T>, keyFunc: T -> K, gs: seq<Group<T, K>>)
  {
    && (forall q :: 0 <= q < |s| ==> FindGroup(gs, keyFunc(s[q])).Some?)
    && (forall i :: 0 <= i < |gs| ==> Occurs(s, keyFunc, gs[i].key))
  }

  /** Groups come in order of their key's first appearance in the input. */
  ghost predicate FirstAppearance<T, K>(s: seq<T>, keyFunc: T -> K, gs: seq<Group<T, K>>)
  {
    forall i, j :: 0 <= i < j < |gs| ==> FirstIndex(s, keyFunc, gs[i].key) < FirstIndex(s, keyFunc, gs[j].key)
  }

  /** What `groupBy` promises of its result. */
  ghost predicate GroupsOf<T, K>(s: seq<T>, keyFunc: T -> K, gs: seq<Group<T, K>>)
  {
    DistinctKeys(gs) && ExactMembers(s, keyFunc, gs) && SameKeys(s, keyFunc, gs) && FirstAppearance(s, keyFunc, gs)
  }

  /** The first appearance of a key in an input extended by one item. */
  lemma {:induction false} FirstIndexSnoc<T, K>(s: seq<T>, keyFunc: T -> K, x: T, k: K)
    ensures FirstIndex(s + [x], keyFunc, k)
         == if FirstIndex(s, keyFunc, k) < |s| then FirstIndex(s, keyFunc, k)
            else if keyFunc(x) == k then |s| else |s| + 1
  {
    if |s| > 0 && keyFunc(s[0]) != k {
      assert (s + [x])[1..] == s[1..] + [x];
      FirstIndexSnoc(s[1..], keyFunc, x, k);
    }
  }

  /** A key that does not occur has no members. */
  lemma {:induction false} MembersEmpty<T, K>(s: seq<T>, keyFunc: T -> K, k: K)
    requires !Occurs(s, keyFunc, k)
    ensures Members(s, keyFunc, k) == []
  {
    if |s| > 0 {
      var init := s[..|s| - 1];
      assert !Occurs(init, keyFunc, k) by {
        assert s == init + [s[|s| - 1]];
        FirstIndexSnoc(init, keyFunc, s[|s| - 1], k);
      }
      MembersEmpty(init, keyFunc, k);
    }
  }

  /** Each placement keeps the keys distinct. */
  lemma {:induction false} GroupedDistinct<T, K>(s: seq<T>, keyFunc: T -> K)
    ensures DistinctKeys(Grouped(s, keyFunc))
  {
    if |s| > 0 {
      GroupedDistinct(s[..|s| - 1], keyFunc);
    }
  }

  /** Placing keeps the keys of the groups already open, at their positions. */
  lemma PlaceKeepsKeys<T, K>(gs: seq<Group<T, K>>, x: T, keyFunc: T -> K)
    ensures |Place(gs, x, keyFunc)| >= |gs|
    ensures forall i :: 0 <= i < |gs| ==> Place(gs, x, keyFunc)[i].key == gs[i].key
  {
  }

  /** After placing `x` its key has a group. */
  lemma PlaceHasKey<T, K>(gs: seq<Group<T, K>>, x: T, keyFunc: T -> K)
    ensures FindGroup(Place(gs, x, keyFunc), keyFunc(x)).Some?
  {
    match FindGroup(gs, keyFunc(x))
    case None =>
      assert Place(gs, x, keyFunc)[|gs|].key == keyFunc(x);
    case Some(j) =>
      assert Place(gs, x, keyFunc)[j].key == keyFunc(x);
  }

  /** A key whose group was found is still found once more groups follow. */
  lemma FoundStaysFound<T, K>(gs: seq<Group<T, K>>, gs': seq<Group<T, K>>, k: K)
    requires FindGroup(gs, k).Some?
    requires |gs'| >= |gs| && forall i :: 0 <= i < |gs| ==> gs'[i].key == gs[i].key
    ensures FindGroup(gs', k).Some?
  {
    var i := FindGroup(gs, k).value;
    assert gs'[i].key == k;
  }

  /** A key that occurs in the input has a group. */
  lemma OccursHasGroup<T, K>(s: seq<T>, keyFunc: T -> K, gs: seq<Group<T, K>>, k: K)
    requires SameKeys(s, keyFunc, gs)
    ensures Occurs(s, keyFunc, k) ==> FindGroup(gs, k).Some?
  {
    if Occurs(s, keyFunc, k) {
      var p := FirstIndex(s, keyFunc, k);
      assert keyFunc(s[p]) == k;
    }
  }

  /** Placing the last item keeps every key of the input covered. */
  lemma PlaceSameKeys<T, K>(s: seq<T>, keyFunc: T -> K, gs: seq<Group<T, K>>)
    requires |s| > 0 && SameKeys(s[..|s| - 1], keyFunc, gs)
    ensures SameKeys(s, keyFunc, Place(gs, s[|s| - 1], keyFunc))
  {
    var init, x := s[..|s| - 1], s[|s| - 1];
    var gs' := Place(gs, x, keyFunc);
    PlaceKeepsKeys(gs, x, keyFunc);
    PlaceHasKey(gs, x, keyFunc);
    assert s == init + [x];
    forall q | 0 <= q < |s|
      ensures FindGroup(gs', keyFunc(s[q])).Some?
    {
      if q < |init| {
        assert s[q] == init[q];
        FoundStaysFound(gs, gs', keyFunc(init[q]));
      }
    }
    forall i | 0 <= i < |gs'|
      ensures Occurs(s, keyFunc, gs'[i].key)
    {
      FirstIndexSnoc(init, keyFunc, x, gs'[i].key);
      if i < |gs| {
        assert Occurs(init, keyFunc, gs[i].key);
      } else {
        assert FindGroup(gs, keyFunc(x)).None?;
        assert gs' == gs + [Group(keyFunc(x), [x])];
      }
    }
  }

  /** Placing the last item keeps every group equal to the members of its key. */
  lemma PlaceExactMembers<T, K>(s: seq<T>, keyFunc: T -> K, gs: seq<Group<T, K>>)
    requires |s| > 0 && DistinctKeys(gs)
    requires SameKeys(s[..|s| - 1], keyFunc, gs) && ExactMembers(s[..|s| - 1], keyFunc, gs)
    ensures ExactMembers(s, keyFunc, Place(gs, s[|s| - 1], keyFunc))
  {
    var init, x := s[..|s| - 1], s[|s| - 1];
    var gs' := Place(gs, x, keyFunc);
    var k := keyFunc(x);
    match FindGroup(gs, k)
    case None =>
      OccursHasGroup(init, keyFunc, gs, k);
      MembersEmpty(init, keyFunc, k);
      assert gs' == gs + [Group(k, [x])];
    case Some(j) =>
      assert gs' == gs[j := gs[j].(items := gs[j].items + [x])];
      forall i | 0 <= i < |gs'| && i != j
        ensures gs'[i].key != k
      {
      }
  }

  /** Placing the last item keeps the groups in order of first appearance. */
  lemma PlaceFirstAppearance<T, K>(s: seq<T>, keyFunc: T -> K, gs: seq<Group<T, K>>)
    requires |s| > 0 && SameKeys(s[..|s| - 1], keyFunc, gs) && FirstAppearance(s[..|s| - 1], keyFunc, gs)
    ensures FirstAppearance(s, keyFunc, Place(gs, s[|s| - 1], keyFunc))
  {
    var init, x := s[..|s| - 1], s[|s| - 1];
    var gs' := Place(gs, x, keyFunc);
    PlaceKeepsKeys(gs, x, keyFunc);
    assert s == init + [x];
    OccursHasGroup(init, keyFunc, gs, keyFunc(x));
    forall i, j | 0 <= i < j < |gs'|
      ensures FirstIndex(s, keyFunc, gs'[i].key) < FirstIndex(s, keyFunc, gs'[j].key)
    {
      FirstIndexSnoc(init, keyFunc, x, gs'[i].key);
      FirstIndexSnoc(init, keyFunc, x, gs'[j].key);
      assert Occurs(init, keyFunc, gs[i].key);
      if j < |gs| {
        assert Occurs(init, keyFunc, gs[j].key);
      } else {
        assert FindGroup(gs, keyFunc(x)).None?;
        assert gs' == gs + [Group(keyFunc(x), [x])];
      }
    }
  }

  /** Groups hold exactly the members of their key, and cover the input's keys. */
  lemma {:induction false} GroupedContents<T, K>(s: seq<T>, keyFunc: T -> K)
    ensures ExactMembers(s, keyFunc, Grouped(s, keyFunc))
    ensures SameKeys(s, keyFunc, Grouped(s, keyFunc))
  {
    if |s| > 0 {
      var init := s[..|s| - 1];
      GroupedContents(init, keyFunc);
      GroupedDistinct(init, keyFunc);
      PlaceSameKeys(s, keyFunc, Grouped(init, keyFunc));
      PlaceExactMembers(s, keyFunc, Grouped(init, keyFunc));
    }
  }

  /** Groups are opened in order of first appearance. */
  lemma {:induction false} GroupedFirstAppearance<T, K>(s: seq<T>, keyFunc: T -> K)
    ensures FirstAppearance(s, keyFunc, Grouped(s, keyFunc))
  {
    if |s| > 0 {
      var init := s[..|s| - 1];
      GroupedFirstAppearance(init, keyFunc);
      GroupedContents(init, keyFunc);
      PlaceFirstAppearance(s, keyFunc, Grouped(init, keyFunc));
    }
  }

  /** The groups of `groupBy` satisfy all of its promises. */
  lemma GroupedIsGroupsOf<T, K>(s: seq<T>, keyFunc: T -> K)
    ensures GroupsOf(s, keyFunc, Grouped(s, keyFunc))
  {
    GroupedDistinct(s, keyFunc);
    GroupedContents(s, keyFunc);
    GroupedFirstAppearance(s, keyFunc);
  }

  /** Concatenating the groups gives back the input, regrouped: a permutation. */
  lemma {:induction false} GroupedIsPermutation<T, K>(s: seq<T>, keyFunc: T -> K)
    ensures multiset(Flatten(Grouped(s, keyFunc))) == multiset(s)
  {
    if |s| > 0 {
      var init, x := s[..|s| - 1], s[|s| - 1];
      var gs := Grouped(init, keyFunc);
      GroupedIsPermutation(init, keyFunc);
      assert s == init + [x];
      match FindGroup(gs, keyFunc(x))
      case None =>
        FlattenAppend(gs, Group(keyFunc(x), [x]));
      case Some(j) =>
        FlattenUpdate(gs, j, x);
    }
  }

  lemma {:induction false} FlattenAppend<T, K>(gs: seq<Group<T, K>>, g: Group<T, K>)
    ensures multiset(Flatten(gs + [g])) == multiset(Flatten(gs)) + multiset(g.items)
  {
    if |gs| == 0 {
      assert Flatten([g]) == g.items + Flatten([g][1..]);
    } else {
      assert (gs + [g])[1..] == gs[1..] + [g];
      FlattenAppend(gs[1..], g);
    }
  }

  lemma {:induction false} FlattenUpdate<T, K>(gs: seq<Group<T, K>>, j: nat, x: T)
    requires j < |gs|
    ensures multiset(Flatten(gs[j := gs[j].(items := gs[j].items + [x])])) == multiset(Flatten(gs)) + multiset{x}
  {
    var gs' := gs[j := gs[j].(items := gs[j].items + [x])];
    if j == 0 {
      assert gs'[1..] == gs[1..];
    } else {
      assert gs'[1..] == gs[1..][j - 1 := gs[j].(items := gs[j].items + [x])];
      FlattenUpdate(gs[1..], j - 1, x);
    }
  }

  /** The first group with a matching key is the one `FindGroup` returns. */
  lemma {:induction false} FirstMatch<T, K>(gs: seq<Group<T, K>>, k: K, j: nat)
    requires j < |gs| && gs[j].key == k
    requires forall i :: 0 <= i < j ==> gs[i].key != k
    ensures FindGroup(gs, k) == Some(j)
  {
    if j > 0 {
      FirstMatch(gs[1..], k, j - 1);
    }
  }

  /** `groupBy`: for each item, a linear search of the groups so far; the
      item joins the group it finds or opens a new one. */
  method GroupBy<T, K(==)>(items: seq<T>, keyFunc: T -> K) returns (outputs: seq<Group<T, K>>)
    ensures outputs == Grouped(items, keyFunc)
    ensures GroupsOf(items, keyFunc, outputs)
    ensures multiset(Flatten(outputs)) == multiset(items)
  {
    outputs := [];
    for n := 0 to |items|
      invariant outputs == Grouped(items[..n], keyFunc)
    {
      var item := items[n];
      var key := keyFunc(item);
      var group: Option<nat> := None;
      var j := 0;
      while j < |outputs|
        invariant 0 <= j <= |outputs|
        invariant forall i :: 0 <= i < j ==> outputs[i].key != key
        invariant group.Some? ==> group == FindGroup(outputs, key)
      {
        if outputs[j].key == key {
          FirstMatch(outputs, key, j);
          group := Some(j);
          break;
        }
        j := j + 1;
      }
      assert items[..n + 1][..n] == items[..n];
      if group.None? {
        outputs := outputs + [Group(key, [item])];
      } else {
        var g := group.value;
        outputs := outputs[g := outputs[g].(items := outputs[g].items + [item])];
      }
    }
    assert items[..|items|] == items;
    GroupedIsGroupsOf(items, keyFunc);
    GroupedIsPermutation(items, keyFunc);
  }
}
