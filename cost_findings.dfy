/**
 * The recursive call of `getIntermediateInputs` passes `ing.amount`, the
 * ingredient amount of ONE craft of the parent, as the demand of the child
 * recipe: the demand the parent itself was asked for is dropped. A
 * boundary item two levels down is therefore costed as if the parent were
 * made once, however much of it the grandparent needs.
 *
 * This module shows the effect on a three-level catalog and gives the
 * evidently intended resolver, which hands the child the amount of the
 * ingredient actually consumed (`amount * ing.amount / outputFactor`), and
 * proves that the intended resolver is linear in the demand.
 */
module CostFindings {
  import opened Wrappers
  import opened Catalog
  import opened RecipeCost

  // ---------------------------------------------------------------------
  // The code as written, on a small catalog

  /** `t` is made from 2 `x`, `x` from 3 `y`, `y` from 1 `z`; every recipe
      makes one unit. */
  const Sample: seq<Recipe> := [
    Recipe("t", "crafting", [Entry("x", 2.0, Item)], [Entry("t", 1.0, Item)]),
    Recipe("x", "crafting", [Entry("y", 3.0, Item)], [Entry("x", 1.0, Item)]),
    Recipe("y", "crafting", [Entry("z", 1.0, Item)], [Entry("y", 1.0, Item)])
  ]

  const SampleBoundary: seq<string> := ["z"]

  lemma SampleWellFormed()
    ensures WellFormed(Sample)
  {
    forall r | r in Sample
      ensures Positive(r)
    {
    }
  }

  /** The producers the resolver finds on the sample catalog. */
  lemma SampleProducers()
    ensures Producers(Sample, "x") == [Sample[1]]
    ensures Producers(Sample, "y") == [Sample[2]]
  {
    assert Produces(Sample[1], "x") by { assert Sample[1].products[0].name == "x"; }
    assert Produces(Sample[2], "y") by { assert Sample[2].products[0].name == "y"; }
    assert !Produces(Sample[0], "x") && !Produces(Sample[2], "x");
    assert !Produces(Sample[0], "y") && !Produces(Sample[1], "y");
    assert Sample[1..][1..][1..] == [];
  }

  /** As written: one `t` is costed at 3 `z`, although it takes 2 * 3 * 1 = 6. */
  lemma {:induction false} AsWrittenUndercounts(demand: real)
    ensures WellFormed(Sample) && ExpandResult(demand) == Ok(map["z" := 3.0])
  {
    SampleWellFormed();
    SampleProducers();
    var y := Sample[2];
    assert FluidFree(y) && FluidFree(Sample[1]);
    assert Expand(Sample, SampleBoundary, y, 3.0, map[], 0) == Ok(map["z" := 3.0]) by {
      assert ExpandFrom(Sample, SampleBoundary, y, 3.0, 1, map["z" := 3.0], 0) == Ok(map["z" := 3.0]);
    }
    assert Expand(Sample, SampleBoundary, Sample[1], 2.0, map[], 1) == Ok(map["z" := 3.0]) by {
      assert ExpandFrom(Sample, SampleBoundary, Sample[1], 2.0, 1, map["z" := 3.0], 1) == Ok(map["z" := 3.0]);
    }
    assert ExpandFrom(Sample, SampleBoundary, Sample[0], demand, 1, map["z" := 3.0], 2) == Ok(map["z" := 3.0]);
  }

  /** The as-written expansion of `demand` units of `t`, with enough fuel. */
  function ExpandResult(demand: real): Result<Costs, CostError>
    requires WellFormed(Sample)
  {
    Expand(Sample, SampleBoundary, Sample[0], demand, map[], 2)
  }

  /** As written, the cost is not even proportional to the demand: two `t`
      cost the same as one. */
  lemma AsWrittenNotLinear()
    ensures WellFormed(Sample) && ExpandResult(2.0) == ExpandResult(1.0)
  {
    AsWrittenUndercounts(1.0);
    AsWrittenUndercounts(2.0);
  }

  // ---------------------------------------------------------------------
  // The evidently intended resolver

  /** `getIntermediateInputs` with the recursive call given the amount of
      the ingredient consumed, `amount * ing.amount / outputFactor`. */
  function ExpandPerUnit(cat: seq<Recipe>, boundary: seq<string>, r: Recipe, amount: real, acc: Costs, fuel: nat): Result<Costs, CostError>
    requires WellFormed(cat) && r in cat
    decreases fuel, 1, 0
  {
    ExpandFromPerUnit(cat, boundary, r, amount, 0, acc, fuel)
  }

  function ExpandFromPerUnit(cat: seq<Recipe>, boundary: seq<string>, r: Recipe, amount: real, k: nat, acc: Costs, fuel: nat): Result<Costs, CostError>
    requires WellFormed(cat) && r in cat && k <= |r.ingredients|
    decreases fuel, 0, |r.ingredients| - k + 1
  {
    if k == |r.ingredients| then Ok(acc)
    else match AddIngredientPerUnit(cat, boundary, OutputFactor(r), amount, r.ingredients[k], acc, fuel)
      case Err(e) => Err(e)
      case Ok(next) => ExpandFromPerUnit(cat, boundary, r, amount, k + 1, next, fuel)
  }

  /** `AddIngredient` with the corrected recursive demand; the fluid and
      boundary branches are unchanged. */
  function AddIngredientPerUnit(cat: seq<Recipe>, boundary: seq<string>, factor: real, amount: real, ing: Entry, acc: Costs, fuel: nat): Result<Costs, CostError>
    requires WellFormed(cat) && factor > 0.0
    decreases fuel, 0, 0
  {
    if ing.kind == Fluid || ing.name in boundary then
      AddIngredient(cat, boundary, factor, amount, ing, acc, fuel)
    else
      match FirstFluidFree(Producers(cat, ing.name))
      case None => Err(NoProducer(ing.name))
      case Some(rec) =>
        if fuel == 0 then Err(OutOfFuel)
        else ExpandPerUnit(cat, boundary, rec, Share(amount, ing.amount, factor), acc, fuel - 1)
  }

  /** Two cost dictionaries added entry by entry. */
  function Merge(m1: Costs, m2: Costs): (r: Costs)
    ensures r.Keys == m1.Keys + m2.Keys
    ensures forall key :: Get(r, key) == Get(m1, key) + Get(m2, key)
  {
    map key | key in m1.Keys + m2.Keys :: Get(m1, key) + Get(m2, key)
  }

  /** The error a result reports, if any. */
  function Failure(res: Result<Costs, CostError>): Option<CostError>
  {
    if res.Ok? then None else Some(res.error)
  }

  /** Two results added: the sum of the dictionaries when both succeed. */
  function Combined(r1: Result<Costs, CostError>, r2: Result<Costs, CostError>): Result<Costs, CostError>
  {
    match (r1, r2)
    case (Ok(m1), Ok(m2)) => Ok(Merge(m1, m2))
    case (Err(e), _) => Err(e)
    case (_, Err(e)) => Err(e)
  }

  lemma ShareAdds(a: real, b: real, q: real, per: real)
    requires per > 0.0
    ensures Share(a + b, q, per) == Share(a, q, per) + Share(b, q, per)
  {
  }

  lemma IncrementedMerges(m1: Costs, m2: Costs, key: string, x1: real, x2: real)
    ensures Incremented(Merge(m1, m2), key, x1 + x2) == Merge(Incremented(m1, key, x1), Incremented(m2, key, x2))
  {
    var lhs := Incremented(Merge(m1, m2), key, x1 + x2);
    var rhs := Merge(Incremented(m1, key, x1), Incremented(m2, key, x2));
    assert forall k :: k in lhs ==> lhs[k] == Get(lhs, k) && rhs[k] == Get(rhs, k);
  }

  /** Whether the corrected resolver fails, and how, depends only on the
      catalog and the recipe: not on the demand nor on the dictionary. */
  lemma {:induction false} ExpandPerUnitFailure(cat: seq<Recipe>, boundary: seq<string>, r: Recipe, a1: real, acc1: Costs, a2: real, acc2: Costs, fuel: nat)
    requires WellFormed(cat) && r in cat
    ensures Failure(ExpandPerUnit(cat, boundary, r, a1, acc1, fuel)) == Failure(ExpandPerUnit(cat, boundary, r, a2, acc2, fuel))
    decreases fuel, 1, 0
  {
    ExpandFromPerUnitFailure(cat, boundary, r, a1, acc1, a2, acc2, 0, fuel);
  }

  lemma {:induction false} ExpandFromPerUnitFailure(cat: seq<Recipe>, boundary: seq<string>, r: Recipe, a1: real, acc1: Costs, a2: real, acc2: Costs, k: nat, fuel: nat)
    requires WellFormed(cat) && r in cat && k <= |r.ingredients|
    ensures Failure(ExpandFromPerUnit(cat, boundary, r, a1, k, acc1, fuel)) == Failure(ExpandFromPerUnit(cat, boundary, r, a2, k, acc2, fuel))
    decreases fuel, 0, |r.ingredients| - k + 1
  {
    if k < |r.ingredients| {
      var ing := r.ingredients[k];
      var s1 := AddIngredientPerUnit(cat, boundary, OutputFactor(r), a1, ing, acc1, fuel);
      var s2 := AddIngredientPerUnit(cat, boundary, OutputFactor(r), a2, ing, acc2, fuel);
      AddIngredientPerUnitFailure(cat, boundary, OutputFactor(r), a1, acc1, a2, acc2, ing, fuel);
      if s1.Ok? {
        ExpandFromPerUnitFailure(cat, boundary, r, a1, s1.value, a2, s2.value, k + 1, fuel);
      }
    }
  }

  lemma {:induction false} AddIngredientPerUnitFailure(cat: seq<Recipe>, boundary: seq<string>, factor: real, a1: real, acc1: Costs, a2: real, acc2: Costs, ing: Entry, fuel: nat)
    requires WellFormed(cat) && factor > 0.0
    ensures Failure(AddIngredientPerUnit(cat, boundary, factor, a1, ing, acc1, fuel)) == Failure(AddIngredientPerUnit(cat, boundary, factor, a2, ing, acc2, fuel))
    decreases fuel, 0, 0
  {
    var recs := Producers(cat, ing.name);
    if ing.kind != Fluid && ing.name !in boundary && FirstFluidFree(recs).Some? && fuel > 0 {
      var rec := FirstFluidFree(recs).value;
      ExpandPerUnitFailure(cat, boundary, rec, Share(a1, ing.amount, factor), acc1, Share(a2, ing.amount, factor), acc2, fuel - 1);
    }
  }

  /** The corrected resolver is additive: expanding the sum of two demands,
      from the sum of two dictionaries, gives the sum of the two expansions
      (or their common error). In particular twice the demand costs twice as
      much of every boundary item. */
  lemma {:induction false} ExpandPerUnitAdditive(cat: seq<Recipe>, boundary: seq<string>, r: Recipe, a1: real, acc1: Costs, a2: real, acc2: Costs, fuel: nat)
    requires WellFormed(cat) && r in cat
    ensures ExpandPerUnit(cat, boundary, r, a1 + a2, Merge(acc1, acc2), fuel)
         == Combined(ExpandPerUnit(cat, boundary, r, a1, acc1, fuel), ExpandPerUnit(cat, boundary, r, a2, acc2, fuel))
    decreases fuel, 1, 0
  {
    ExpandFromPerUnitAdditive(cat, boundary, r, a1, acc1, a2, acc2, 0, fuel);
  }

  lemma {:induction false} ExpandFromPerUnitAdditive(cat: seq<Recipe>, boundary: seq<string>, r: Recipe, a1: real, acc1: Costs, a2: real, acc2: Costs, k: nat, fuel: nat)
    requires WellFormed(cat) && r in cat && k <= |r.ingredients|
    ensures ExpandFromPerUnit(cat, boundary, r, a1 + a2, k, Merge(acc1, acc2), fuel)
         == Combined(ExpandFromPerUnit(cat, boundary, r, a1, k, acc1, fuel), ExpandFromPerUnit(cat, boundary, r, a2, k, acc2, fuel))
    decreases fuel, 0, |r.ingredients| - k + 1
  {
    if k < |r.ingredients| {
      var ing := r.ingredients[k];
      var s1 := AddIngredientPerUnit(cat, boundary, OutputFactor(r), a1, ing, acc1, fuel);
      var s2 := AddIngredientPerUnit(cat, boundary, OutputFactor(r), a2, ing, acc2, fuel);
      AddIngredientPerUnitAdditive(cat, boundary, OutputFactor(r), a1, acc1, a2, acc2, ing, fuel);
      AddIngredientPerUnitFailure(cat, boundary, OutputFactor(r), a1, acc1, a2, acc2, ing, fuel);
      if s1.Ok? {
        ExpandFromPerUnitAdditive(cat, boundary, r, a1, s1.value, a2, s2.value, k + 1, fuel);
        ExpandFromPerUnitFailure(cat, boundary, r, a1, s1.value, a2, s2.value, k + 1, fuel);
      }
    }
  }

  lemma {:induction false} AddIngredientPerUnitAdditive(cat: seq<Recipe>, boundary: seq<string>, factor: real, a1: real, acc1: Costs, a2: real, acc2: Costs, ing: Entry, fuel: nat)
    requires WellFormed(cat) && factor > 0.0
    ensures AddIngredientPerUnit(cat, boundary, factor, a1 + a2, ing, Merge(acc1, acc2), fuel)
         == Combined(AddIngredientPerUnit(cat, boundary, factor, a1, ing, acc1, fuel), AddIngredientPerUnit(cat, boundary, factor, a2, ing, acc2, fuel))
    decreases fuel, 0, 0
  {
    var recs := Producers(cat, ing.name);
    if ing.kind == Fluid {
      FluidAdditive(cat, boundary, factor, a1, acc1, a2, acc2, ing, fuel);
    } else if ing.name in boundary {
      BoundaryAdditive(cat, boundary, factor, a1, acc1, a2, acc2, ing, fuel);
    } else if FirstFluidFree(recs).Some? && fuel > 0 {
      var rec := FirstFluidFree(recs).value;
      var s1 := Share(a1, ing.amount, factor);
      var s2 := Share(a2, ing.amount, factor);
      ShareAdds(a1, a2, ing.amount, factor);
      ExpandPerUnitAdditive(cat, boundary, rec, s1, acc1, s2, acc2, fuel - 1);
    }
  }

  lemma FluidAdditive(cat: seq<Recipe>, boundary: seq<string>, factor: real, a1: real, acc1: Costs, a2: real, acc2: Costs, ing: Entry, fuel: nat)
    requires WellFormed(cat) && factor > 0.0 && ing.kind == Fluid
    ensures AddIngredient(cat, boundary, factor, a1 + a2, ing, Merge(acc1, acc2), fuel)
         == Combined(AddIngredient(cat, boundary, factor, a1, ing, acc1, fuel), AddIngredient(cat, boundary, factor, a2, ing, acc2, fuel))
  {
    var barreling := FindBarreling(cat, ing.name);
    FluidStep(cat, boundary, factor, a1, ing, acc1, fuel);
    FluidStep(cat, boundary, factor, a2, ing, acc2, fuel);
    FluidStep(cat, boundary, factor, a1 + a2, ing, Merge(acc1, acc2), fuel);
    if barreling.Ok? {
      var b := barreling.value;
      var s1 := Share(a1, ing.amount, b.perBarrel);
      var s2 := Share(a2, ing.amount, b.perBarrel);
      ShareAdds(a1, a2, ing.amount, b.perBarrel);
      ChargeMerges(acc1, acc2, b, s1, s2);
    }
  }

  lemma ChargeMerges(m1: Costs, m2: Costs, b: Barreling, x1: real, x2: real)
    ensures ChargeBarreling(Merge(m1, m2), b, x1 + x2) == Merge(ChargeBarreling(m1, b, x1), ChargeBarreling(m2, b, x2))
  {
    IncrementedMerges(m1, m2, b.input, x1, x2);
    IncrementedMerges(Incremented(m1, b.input, x1), Incremented(m2, b.input, x2), b.barrel, x1, x2);
  }

  lemma BoundaryAdditive(cat: seq<Recipe>, boundary: seq<string>, factor: real, a1: real, acc1: Costs, a2: real, acc2: Costs, ing: Entry, fuel: nat)
    requires WellFormed(cat) && factor > 0.0 && ing.kind == Item && ing.name in boundary
    ensures AddIngredient(cat, boundary, factor, a1 + a2, ing, Merge(acc1, acc2), fuel)
         == Combined(AddIngredient(cat, boundary, factor, a1, ing, acc1, fuel), AddIngredient(cat, boundary, factor, a2, ing, acc2, fuel))
  {
    var s1 := Share(a1, ing.amount, factor);
    var s2 := Share(a2, ing.amount, factor);
    ShareAdds(a1, a2, ing.amount, factor);
    IncrementedMerges(acc1, acc2, ing.name, s1, s2);
  }

  /** With the corrected resolver, twice the demand costs exactly twice as
      much of every item; compare `AsWrittenNotLinear`. */
  lemma DoubleDemand(cat: seq<Recipe>, boundary: seq<string>, r: Recipe, amount: real, fuel: nat)
    requires WellFormed(cat) && r in cat
    requires ExpandPerUnit(cat, boundary, r, amount, map[], fuel).Ok?
    ensures ExpandPerUnit(cat, boundary, r, 2.0 * amount, map[], fuel).Ok?
    ensures forall key :: Get(ExpandPerUnit(cat, boundary, r, 2.0 * amount, map[], fuel).value, key)
                       == 2.0 * Get(ExpandPerUnit(cat, boundary, r, amount, map[], fuel).value, key)
  {
    assert Merge(map[], map[]) == map[];
    assert 2.0 * amount == amount + amount;
    ExpandPerUnitAdditive(cat, boundary, r, amount, map[], amount, map[], fuel);
  }

  /** The corrected resolver charges one `t` the full 6 `z`. */
  lemma {:induction false} PerUnitCountsEveryLevel()
    ensures WellFormed(Sample) && ExpandPerUnit(Sample, SampleBoundary, Sample[0], 1.0, map[], 2) == Ok(map["z" := 6.0])
  {
    SampleWellFormed();
    SampleProducers();
    var y := Sample[2];
    assert FluidFree(y) && FluidFree(Sample[1]);
    assert Share(1.0, 2.0, 1.0) == 2.0 && Share(2.0, 3.0, 1.0) == 6.0 && Share(6.0, 1.0, 1.0) == 6.0;
    assert ExpandPerUnit(Sample, SampleBoundary, y, 6.0, map[], 0) == Ok(map["z" := 6.0]) by {
      assert ExpandFromPerUnit(Sample, SampleBoundary, y, 6.0, 1, map["z" := 6.0], 0) == Ok(map["z" := 6.0]);
    }
    assert ExpandPerUnit(Sample, SampleBoundary, Sample[1], 2.0, map[], 1) == Ok(map["z" := 6.0]) by {
      assert ExpandFromPerUnit(Sample, SampleBoundary, Sample[1], 2.0, 1, map["z" := 6.0], 1) == Ok(map["z" := 6.0]);
    }
    assert ExpandFromPerUnit(Sample, SampleBoundary, Sample[0], 1.0, 1, map["z" := 6.0], 2) == Ok(map["z" := 6.0]);
  }
}
