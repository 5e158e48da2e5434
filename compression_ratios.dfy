/**
 * `computeStackRatio` and `computeBeltRatio`: how many stacks (or items) of
 * item ingredients go into one stack (or item) of the primary product.
 * Fluid ingredients are skipped by both.
 */
module CompressionRatios {
  import opened Catalog

  /** Every item ingredient has a known, positive stack size. */
  ghost predicate StacksKnown(ings: seq<Entry>, stackSize: map<string, int>)
  {
    forall i :: 0 <= i < |ings| && ings[i].kind == Item ==> ings[i].name in stackSize && stackSize[ings[i].name] > 0
  }

  /** The fraction of a stack of size `size` that `amount` items take. */
  function PerStack(amount: real, size: int): (f: real)
    requires size > 0
    ensures amount >= 0.0 ==> f >= 0.0
  {
    amount / size as real
  }

  /** Fraction of a stack that the item ingredients take: the sum of
      `amount / stack_size` over the non-fluid entries. */
  function StackFraction(ings: seq<Entry>, stackSize: map<string, int>): real
    requires StacksKnown(ings, stackSize)
  {
    if |ings| == 0 then 0.0
    else
      var last := ings[|ings| - 1];
      StackFraction(ings[..|ings| - 1], stackSize)
      + (if last.kind == Fluid then 0.0 else PerStack(last.amount, stackSize[last.name]))
  }

  /** The total amount of the item ingredients. */
  function ItemAmount(ings: seq<Entry>): real
  {
    if |ings| == 0 then 0.0
    else
      var last := ings[|ings| - 1];
      ItemAmount(ings[..|ings| - 1]) + (if last.kind == Fluid then 0.0 else last.amount)
  }

  /** The item ingredients, in order. */
  function ItemsOnly(ings: seq<Entry>): (r: seq<Entry>)
    ensures forall i :: 0 <= i < |r| ==> r[i].kind == Item
    ensures forall e :: e in r ==> e in ings
  {
    if |ings| == 0 then []
    else
      var last := ings[|ings| - 1];
      ItemsOnly(ings[..|ings| - 1]) + (if last.kind == Fluid then [] else [last])
  }

  /** Every item entry is kept as often as it occurs, and no fluid entry is. */
  lemma {:induction false} ItemsOnlyCounts(ings: seq<Entry>)
    ensures forall e :: multiset(ItemsOnly(ings))[e] == if e.kind == Item then multiset(ings)[e] else 0
  {
    if |ings| > 0 {
      var init, last := ings[..|ings| - 1], ings[|ings| - 1];
      assert ings == init + [last];
      ItemsOnlyCounts(init);
    }
  }

  /** Keeping the item entries commutes with appending: the order of the
      list is kept. */
  lemma {:induction false} ItemsOnlyAppend(xs: seq<Entry>, ys: seq<Entry>)
    ensures ItemsOnly(xs + ys) == ItemsOnly(xs) + ItemsOnly(ys)
    decreases |ys|
  {
    if |ys| > 0 {
      var init, last := ys[..|ys| - 1], ys[|ys| - 1];
      assert (xs + ys)[..|xs + ys| - 1] == xs + init;
      ItemsOnlyAppend(xs, init);
    } else {
      assert xs + ys == xs;
    }
  }

  method ComputeStackRatio(r: Recipe, stackSize: map<string, int>) returns (ratio: real)
    requires |r.products| > 0 && r.products[0].amount > 0.0
    requires r.products[0].name in stackSize && stackSize[r.products[0].name] > 0
    requires StacksKnown(r.ingredients, stackSize)
    ensures ratio == StackFraction(r.ingredients, stackSize) / PerStack(r.products[0].amount, stackSize[r.products[0].name])
  {
    var output := r.products[0];
    var stackFractionPerOutput := PerStack(output.amount, stackSize[output.name]);
    var inputStackFraction := 0.0;
    for i := 0 to |r.ingredients|
      invariant inputStackFraction == StackFraction(r.ingredients[..i], stackSize)
    {
      assert r.ingredients[..i + 1][..i] == r.ingredients[..i];
      var inp := r.ingredients[i];
      if inp.kind == Fluid {
        continue;
      }
      inputStackFraction := inputStackFraction + PerStack(inp.amount, stackSize[inp.name]);
    }
    assert r.ingredients[..|r.ingredients|] == r.ingredients;
    ratio := inputStackFraction / stackFractionPerOutput;
  }

  method ComputeBeltRatio(r: Recipe) returns (ratio: real)
    requires |r.products| > 0 && r.products[0].amount > 0.0
    ensures ratio == ItemAmount(r.ingredients) / r.products[0].amount
  {
    var output := r.products[0];
    var stackFractionPerOutput := output.amount;
    var inputStackFraction := 0.0;
    for i := 0 to |r.ingredients|
      invariant inputStackFraction == ItemAmount(r.ingredients[..i])
    {
      assert r.ingredients[..i + 1][..i] == r.ingredients[..i];
      var inp := r.ingredients[i];
      if inp.kind == Fluid {
        continue;
      }
      inputStackFraction := inputStackFraction + inp.amount;
    }
    assert r.ingredients[..|r.ingredients|] == r.ingredients;
    ratio := inputStackFraction / stackFractionPerOutput;
  }

  /** Fluid ingredients contribute nothing: the stack fraction of a list is
      that of its item ingredients alone. */
  lemma {:induction false} StackFractionSkipsFluids(ings: seq<Entry>, stackSize: map<string, int>)
    requires StacksKnown(ings, stackSize)
    ensures StacksKnown(ItemsOnly(ings), stackSize)
    ensures StackFraction(ings, stackSize) == StackFraction(ItemsOnly(ings), stackSize)
  {
    if |ings| > 0 {
      var init, last := ings[..|ings| - 1], ings[|ings| - 1];
      assert StacksKnown(init, stackSize) by {
        forall i | 0 <= i < |init| ensures init[i] == ings[i] { }
      }
      StackFractionSkipsFluids(init, stackSize);
      var p := ItemsOnly(init);
      var r := ItemsOnly(ings);
      if last.kind == Item {
        assert r == p + [last];
        assert r[..|r| - 1] == p;
        assert StackFraction(r, stackSize) == StackFraction(p, stackSize) + PerStack(last.amount, stackSize[last.name]);
      } else {
        assert r == p;
      }
    }
  }

  /** The same for the belt ratio's item amount. */
  lemma {:induction false} ItemAmountSkipsFluids(ings: seq<Entry>)
    ensures ItemAmount(ings) == ItemAmount(ItemsOnly(ings))
  {
    if |ings| > 0 {
      var init, last := ings[..|ings| - 1], ings[|ings| - 1];
      ItemAmountSkipsFluids(init);
      var p := ItemsOnly(init);
      var r := ItemsOnly(ings);
      if last.kind == Item {
        assert r == p + [last];
        assert r[..|r| - 1] == p;
        assert ItemAmount(r) == ItemAmount(p) + last.amount;
      } else {
        assert r == p;
      }
    }
  }

  /** When every item involved stacks to the same size, the stack fraction is
      the item amount over that size. */
  lemma {:induction false} UniformStackFraction(ings: seq<Entry>, stackSize: map<string, int>, size: int)
    requires size > 0
    requires forall i :: 0 <= i < |ings| && ings[i].kind == Item ==> ings[i].name in stackSize && stackSize[ings[i].name] == size
    ensures StacksKnown(ings, stackSize)
    ensures StackFraction(ings, stackSize) == ItemAmount(ings) / size as real
  {
    if |ings| > 0 {
      var init, last := ings[..|ings| - 1], ings[|ings| - 1];
      assert forall i :: 0 <= i < |init| ==> init[i] == ings[i];
      UniformStackFraction(init, stackSize, size);
      var s := size as real;
      var x := if last.kind == Fluid then 0.0 else last.amount;
      assert StackFraction(ings, stackSize) == StackFraction(init, stackSize) + PerStack(x, size);
      assert ItemAmount(ings) == ItemAmount(init) + x;
      DivideSum(ItemAmount(init), x, s);
    }
  }

  lemma DivideSum(a: real, b: real, s: real)
    requires s > 0.0
    ensures a / s + b / s == (a + b) / s
  {
  }

  /** When the product and every item ingredient share one stack size, the
      stack ratio and the belt ratio agree. */
  lemma UniformStacksGiveBeltRatio(r: Recipe, stackSize: map<string, int>, size: int)
    requires |r.products| > 0 && r.products[0].amount > 0.0
    requires size > 0 && r.products[0].name in stackSize && stackSize[r.products[0].name] == size
    requires forall i :: 0 <= i < |r.ingredients| && r.ingredients[i].kind == Item ==>
               r.ingredients[i].name in stackSize && stackSize[r.ingredients[i].name] == size
    ensures StacksKnown(r.ingredients, stackSize)
    ensures StackFraction(r.ingredients, stackSize) / PerStack(r.products[0].amount, size)
         == ItemAmount(r.ingredients) / r.products[0].amount
  {
    UniformStackFraction(r.ingredients, stackSize, size);
    CancelSize(ItemAmount(r.ingredients), r.products[0].amount, size as real);
  }

  lemma CancelSize(a: real, p: real, s: real)
    requires s > 0.0 && p > 0.0
    ensures (a / s) / (p / s) == a / p
  {
    var x, y := a / s, p / s;
    assert x * s == a && y * s == p && y > 0.0;
    assert (x / y) * p == (x / y) * y * s == x * s;
  }
}
