/**
 * `computeRecipeCost(recipeName, intermediateItemNames)`: walk the recipe
 * catalog from a target recipe down to a list of boundary ("intermediate")
 * item names, accumulating how much of each boundary item one craft of the
 * target needs.
 *
 * The model follows the code as written, including three of its quirks:
 * the output factor of `copper-cable` is multiplied by 1.4; the recursive
 * call receives the ingredient amount unscaled; and the fluid branch does
 * not divide by the output factor.
 *
 * The source never detects cycles in the catalog; the model bounds the
 * depth of recursion with `fuel` and reports `OutOfFuel` when it runs out.
 */
module RecipeCost {
  import opened Wrappers
  import opened Catalog

  datatype CostError =
    | UnknownRecipe(recipe: string)                 // `recipes[recipeName]` is undefined
    | BarrelingNotUnique(fluid: string, matches: nat) // "Too many barreling recipes?"
    | MalformedBarreling(recipe: string)            // the barreling recipe lacks an ingredient or a barrel product
    | NoProducer(item: string)                      // "Didn't find any recipes to produce ..."
    | OutOfFuel                                     // recursion deeper than the fuel bound

  /** A `RecipeCost` dictionary: item name to amount. */
  type Costs = map<string, real>

  const CopperCable: string := "copper-cable"
  const CopperCableBonus: real := 1.4
  const BarrelingCategory: string := "crafting-with-fluid"
  const EmptyBarrel: string := "empty-barrel"

  /** `map[key] || 0`. */
  function Get(m: Costs, key: string): (v: real)
    ensures key in m ==> v == m[key]
    ensures key !in m ==> v == 0.0
  {
    if key in m then m[key] else 0.0
  }

  /** `increment(map, key, amount)`: the dictionary after adding `amount`
      to the entry of `key`. */
  function Incremented(m: Costs, key: string, amount: real): (r: Costs)
    ensures r.Keys == m.Keys + {key}
    ensures r[key] == Get(m, key) + amount
    ensures forall k :: k in m && k != key ==> r[k] == m[k]
  {
    m[key := Get(m, key) + amount]
  }

  /** The recipes that list `item` among their products, in catalog order. */
  function Producers(cat: seq<Recipe>, item: string): (rs: seq<Recipe>)
    ensures forall r :: r in rs <==> r in cat && Produces(r, item)
  {
    if |cat| == 0 then []
    else (if Produces(cat[0], item) then [cat[0]] else []) + Producers(cat[1..], item)
  }

  /** A barreling recipe: category `crafting-with-fluid` and an `empty-barrel` product. */
  predicate IsBarreling(r: Recipe)
  {
    r.category == BarrelingCategory && Produces(r, EmptyBarrel)
  }

  function BarrelRecipes(rs: seq<Recipe>): (bs: seq<Recipe>)
    ensures forall b :: b in bs <==> b in rs && IsBarreling(b)
  {
    if |rs| == 0 then []
    else (if IsBarreling(rs[0]) then [rs[0]] else []) + BarrelRecipes(rs[1..])
  }

  /** The first recipe all of whose ingredients are items, if any. */
  function FirstFluidFree(rs: seq<Recipe>): (o: Option<Recipe>)
    ensures o.Some? ==> o.value in rs && FluidFree(o.value)
    ensures o.None? <==> forall r :: r in rs ==> !FluidFree(r)
  {
    if |rs| == 0 then None
    else if FluidFree(rs[0]) then Some(rs[0])
    else FirstFluidFree(rs[1..])
  }

  /** `products.filter(i => i.name === name)[0]`. */
  function FirstNamed(es: seq<Entry>, name: string): (o: Option<Entry>)
    ensures o.Some? ==> o.value in es && o.value.name == name
    ensures o.Some? ==> exists i :: 0 <= i < |es| && es[i] == o.value && forall j :: 0 <= j < i ==> es[j].name != name
    ensures o.None? <==> forall e :: e in es ==> e.name != name
  {
    if |es| == 0 then None
    else if es[0].name == name then Some(es[0])
    else FirstNamed(es[1..], name)
  }

  /** `products.filter(i => i.name !== name)[0]`. */
  function FirstOtherThan(es: seq<Entry>, name: string): (o: Option<Entry>)
    ensures o.Some? ==> o.value in es && o.value.name != name
    ensures o.Some? ==> exists i :: 0 <= i < |es| && es[i] == o.value && forall j :: 0 <= j < i ==> es[j].name == name
    ensures o.None? <==> forall e :: e in es ==> e.name == name
  {
    if |es| == 0 then None
    else if es[0].name != name then Some(es[0])
    else FirstOtherThan(es[1..], name)
  }

  /** `amount * ing.amount / per`: the share of an ingredient amount `q`
      needed for `amount` crafts when one craft yields `per`. */
  function Share(amount: real, q: real, per: real): (r: real)
    requires per > 0.0
    ensures amount >= 0.0 && q >= 0.0 ==> r >= 0.0
  {
    amount * q / per
  }

  /** The amount of the primary product, raised by 1.4 for `copper-cable`. */
  function OutputFactor(r: Recipe): (f: real)
    requires Positive(r)
    ensures f > 0.0
  {
    var f := r.products[0].amount;
    if r.name == CopperCable then f * CopperCableBonus else f
  }

  /** `getIntermediateInputs(r, amount)` applied to the dictionary `acc`:
      every ingredient of `r`, in order. */
  function Expand(cat: seq<Recipe>, boundary: seq<string>, r: Recipe, amount: real, acc: Costs, fuel: nat): (res: Result<Costs, CostError>)
    requires WellFormed(cat) && r in cat
    ensures res.Ok? ==> acc.Keys <= res.value.Keys
    ensures res.Err? ==> !res.error.UnknownRecipe?
    ensures |r.ingredients| == 0 ==> res == Ok(acc)
    decreases fuel, 1, 0
  {
    ExpandFrom(cat, boundary, r, amount, 0, acc, fuel)
  }

  /** The ingredients of `r` from position `k` on. */
  function ExpandFrom(cat: seq<Recipe>, boundary: seq<string>, r: Recipe, amount: real, k: nat, acc: Costs, fuel: nat): (res: Result<Costs, CostError>)
    requires WellFormed(cat) && r in cat && k <= |r.ingredients|
    ensures res.Ok? ==> acc.Keys <= res.value.Keys
    ensures res.Err? ==> !res.error.UnknownRecipe?
    decreases fuel, 0, |r.ingredients| - k + 1
  {
    if k == |r.ingredients| then Ok(acc)
    else match AddIngredient(cat, boundary, OutputFactor(r), amount, r.ingredients[k], acc, fuel)
      case Err(e) => Err(e)
      case Ok(next) => ExpandFrom(cat, boundary, r, amount, k + 1, next, fuel)
  }

  /** What a fluid ingredient is charged to. The barreling recipe that
      produces the fluid is the one that empties a filled barrel: `input` is
      its first ingredient (the filled barrel), `barrel` its first product not
      named after the fluid (the empty barrel), and `perBarrel` the amount of
      fluid it yields. */
  datatype Barreling = Barreling(input: string, barrel: string, perBarrel: real)

  /** Lines 686-690: the unique barreling recipe among the producers of the
      fluid, its fluid product and its other product. */
  function FindBarreling(cat: seq<Recipe>, fluid: string): (b: Result<Barreling, CostError>)
    requires WellFormed(cat)
    ensures b.Ok? ==> b.value.perBarrel > 0.0
  {
    var barrels := BarrelRecipes(Producers(cat, fluid));
    if |barrels| != 1 then Err(BarrelingNotUnique(fluid, |barrels|))
    else
      var br := barrels[0];
      match (FirstNamed(br.products, fluid), FirstOtherThan(br.products, fluid))
      case (Some(f), Some(barrel)) =>
        if |br.ingredients| == 0 then Err(MalformedBarreling(br.name))
        else
          ProductPositive(cat, br, f);
          Ok(Barreling(br.ingredients[0].name, barrel.name, f.amount))
      case _ => Err(MalformedBarreling(br.name))
  }

  /** The barreling found is read off the unique barreling producer of the
      fluid: its first ingredient, its first product with another name and
      the amount of its first product named after the fluid. It is an error
      exactly when there is not exactly one such producer (reporting their
      number) or that producer lacks one of the three. */
  lemma BarrelingOfRecipe(cat: seq<Recipe>, fluid: string)
    requires WellFormed(cat)
    ensures var barrels := BarrelRecipes(Producers(cat, fluid));
      FindBarreling(cat, fluid).Ok? <==> (|barrels| == 1 && |barrels[0].ingredients| > 0 &&
        FirstNamed(barrels[0].products, fluid).Some? && FirstOtherThan(barrels[0].products, fluid).Some?)
    ensures FindBarreling(cat, fluid).Ok? ==>
      var br := BarrelRecipes(Producers(cat, fluid))[0];
      br in cat && IsBarreling(br) && Produces(br, fluid) &&
      FindBarreling(cat, fluid).value == Barreling(br.ingredients[0].name,
        FirstOtherThan(br.products, fluid).value.name, FirstNamed(br.products, fluid).value.amount)
    ensures var barrels := BarrelRecipes(Producers(cat, fluid));
      FindBarreling(cat, fluid).Err? ==>
        FindBarreling(cat, fluid).error ==
          if |barrels| != 1 then BarrelingNotUnique(fluid, |barrels|) else MalformedBarreling(barrels[0].name)
  {
    var barrels := BarrelRecipes(Producers(cat, fluid));
    if |barrels| == 1 {
      assert barrels[0] in barrels;
    }
  }

  /** Lines 691-692: the same share charged to the filled barrel and then to
      the empty barrel. */
  function ChargeBarreling(acc: Costs, b: Barreling, share: real): Costs
  {
    Incremented(Incremented(acc, b.input, share), b.barrel, share)
  }

  /** One turn of the ingredient loop, for a recipe with output factor `factor`
      expanded for `amount` crafts. */
  function AddIngredient(cat: seq<Recipe>, boundary: seq<string>, factor: real, amount: real, ing: Entry, acc: Costs, fuel: nat): (res: Result<Costs, CostError>)
    requires WellFormed(cat) && factor > 0.0
    ensures res.Ok? ==> acc.Keys <= res.value.Keys
    ensures res.Err? ==> !res.error.UnknownRecipe?
    decreases fuel, 0, 0
  {
    if ing.kind == Fluid then
      match FindBarreling(cat, ing.name)
      case Err(e) => Err(e)
      case Ok(b) =>
        Ok(ChargeBarreling(acc, b, Share(amount, ing.amount, b.perBarrel)))
    else if ing.name in boundary then
      Ok(Incremented(acc, ing.name, Share(amount, ing.amount, factor)))
    else
      match FirstFluidFree(Producers(cat, ing.name))
      case None => Err(NoProducer(ing.name))
      case Some(rec) =>
        if fuel == 0 then Err(OutOfFuel) else Expand(cat, boundary, rec, ing.amount, acc, fuel - 1)
  }

  /** `recipes[name]`: the catalog entry of that name. */
  function Lookup(cat: seq<Recipe>, name: string): (o: Option<Recipe>)
    ensures o.Some? ==> o.value in cat && o.value.name == name
    ensures o.Some? ==> exists i :: 0 <= i < |cat| && cat[i] == o.value && forall j :: 0 <= j < i ==> cat[j].name != name
    ensures o.None? <==> forall r :: r in cat ==> r.name != name
  {
    if |cat| == 0 then None
    else if cat[0].name == name then Some(cat[0])
    else Lookup(cat[1..], name)
  }

  /** `computeRecipeCost`: the cost dictionary of one craft of the target,
      or the error that aborted it. */
  function ComputeCost(cat: seq<Recipe>, recipeName: string, boundary: seq<string>, fuel: nat): (res: Result<Costs, CostError>)
    requires WellFormed(cat)
    ensures res == Err(UnknownRecipe(recipeName)) <==> Lookup(cat, recipeName).None?
    ensures Lookup(cat, recipeName).Some? && |Lookup(cat, recipeName).value.ingredients| == 0 ==> res == Ok(map[])
  {
    match Lookup(cat, recipeName)
    case None => Err(UnknownRecipe(recipeName))
    case Some(r) => Expand(cat, boundary, r, 1.0, map[], fuel)
  }

  /** The shared state of one `computeRecipeCost` call: the catalog, the
      boundary names and the `result` dictionary the recursion fills in. */
  class Resolver {
    const catalog: seq<Recipe>
    const boundary: seq<string>
    var result: Costs

    constructor (catalog: seq<Recipe>, boundary: seq<string>)
      ensures this.catalog == catalog && this.boundary == boundary && result == map[]
    {
      this.catalog := catalog;
      this.boundary := boundary;
      result := map[];
    }

    /** `increment(result, key, amount)`. */
    method Increment(key: string, amount: real)
      modifies this
      ensures result == Incremented(old(result), key, amount)
    {
      result := result[key := Get(result, key) + amount];
    }

    /** `getIntermediateInputs(r, amount)`: `None` when it returns normally,
        the error when it throws. */
    method GetIntermediateInputs(r: Recipe, amount: real, fuel: nat) returns (failure: Option<CostError>)
      requires WellFormed(catalog) && r in catalog
      modifies this
      decreases fuel, 1
      ensures Expand(catalog, boundary, r, amount, old(result), fuel)
           == if failure.None? then Ok(result) else Err(failure.value)
    {
      var outputFactor := r.products[0].amount;
      if r.name == CopperCable {
        outputFactor := outputFactor * CopperCableBonus;
      }
      assert outputFactor == OutputFactor(r);
      var k := 0;
      while k < |r.ingredients|
        invariant 0 <= k <= |r.ingredients|
        invariant Expand(catalog, boundary, r, amount, old(result), fuel)
               == ExpandFrom(catalog, boundary, r, amount, k, result, fuel)
      {
        failure := AddOne(outputFactor, amount, r.ingredients[k], fuel);
        if failure.Some? {
          return;
        }
        k := k + 1;
      }
      return None;
    }

    /** The body of the ingredient loop for one ingredient `ing` of a recipe
        with output factor `factor`. */
    method AddOne(factor: real, amount: real, ing: Entry, fuel: nat) returns (failure: Option<CostError>)
      requires WellFormed(catalog) && factor > 0.0
      modifies this
      decreases fuel, 0
      ensures AddIngredient(catalog, boundary, factor, amount, ing, old(result), fuel)
           == if failure.None? then Ok(result) else Err(failure.value)
    {
      var recs := Producers(catalog, ing.name);
      if ing.kind == Fluid {
        var barreling := FindBarreling(catalog, ing.name);
        if barreling.Err? {
          return Some(barreling.error);
        }
        var b := barreling.value;
        var share := Share(amount, ing.amount, b.perBarrel);
        Increment(b.input, share);
        Increment(b.barrel, share);
        return None;
      } else if ing.name in boundary {
        Increment(ing.name, Share(amount, ing.amount, factor));
        return None;
      } else {
        var rec := FindProducer(recs);
        if rec.None? {
          return Some(NoProducer(ing.name));
        }
        if fuel == 0 {
          return Some(OutOfFuel);
        }
        failure := GetIntermediateInputs(rec.value, ing.amount, fuel - 1);
      }
    }
  }

  /** Every product of a catalog recipe has a positive amount. */
  lemma ProductPositive(cat: seq<Recipe>, r: Recipe, e: Entry)
    requires WellFormed(cat) && r in cat && e in r.products
    ensures e.amount > 0.0
  {
    var i :| 0 <= i < |r.products| && r.products[i] == e;
  }

  /** The loop over candidate producers: the first one whose ingredients are
      all items. */
  method FindProducer(recs: seq<Recipe>) returns (found: Option<Recipe>)
    ensures found == FirstFluidFree(recs)
  {
    for j := 0 to |recs|
      invariant FirstFluidFree(recs) == FirstFluidFree(recs[j..])
    {
      if FluidFree(recs[j]) {
        return Some(recs[j]);
      }
      assert recs[j..][1..] == recs[j + 1..];
    }
    return None;
  }

  /** `computeRecipeCost`: a fresh resolver, one expansion of the target for
      one craft, its dictionary or its error. */
  method ComputeRecipeCost(cat: seq<Recipe>, recipeName: string, boundary: seq<string>, fuel: nat)
    returns (cost: Result<Costs, CostError>)
    requires WellFormed(cat)
    ensures cost == ComputeCost(cat, recipeName, boundary, fuel)
  {
    var target := Lookup(cat, recipeName);
    if target.None? {
      return Err(UnknownRecipe(recipeName));
    }
    var resolver := new Resolver(cat, boundary);
    var failure := resolver.GetIntermediateInputs(target.value, 1.0, fuel);
    cost := if failure.None? then Ok(resolver.result) else Err(failure.value);
  }

  // ---------------------------------------------------------------------
  // Properties of the resolver

  /** Every value of a cost dictionary is non-negative. */
  ghost predicate NonNegativeCosts(m: Costs)
  {
    forall key :: key in m ==> m[key] >= 0.0
  }

  /** Costs only accumulate: an expansion keeps every key of the dictionary
      it starts from, and, when no amount in the catalog is negative, it
      never lowers an entry and never produces a negative one. */
  lemma {:induction false} ExpandGrows(cat: seq<Recipe>, boundary: seq<string>, r: Recipe, amount: real, acc: Costs, fuel: nat)
    requires WellFormed(cat) && r in cat
    requires Expand(cat, boundary, r, amount, acc, fuel).Ok?
    ensures acc.Keys <= Expand(cat, boundary, r, amount, acc, fuel).value.Keys
    ensures NonNegative(cat) && amount >= 0.0 ==>
      forall key :: key in acc ==> Expand(cat, boundary, r, amount, acc, fuel).value[key] >= acc[key]
    ensures NonNegative(cat) && amount >= 0.0 && NonNegativeCosts(acc) ==>
      NonNegativeCosts(Expand(cat, boundary, r, amount, acc, fuel).value)
    decreases fuel, 1, 0
  {
    ExpandFromGrows(cat, boundary, r, amount, 0, acc, fuel);
  }

  lemma {:induction false} ExpandFromGrows(cat: seq<Recipe>, boundary: seq<string>, r: Recipe, amount: real, k: nat, acc: Costs, fuel: nat)
    requires WellFormed(cat) && r in cat && k <= |r.ingredients|
    requires ExpandFrom(cat, boundary, r, amount, k, acc, fuel).Ok?
    ensures acc.Keys <= ExpandFrom(cat, boundary, r, amount, k, acc, fuel).value.Keys
    ensures NonNegative(cat) && amount >= 0.0 ==>
      forall key :: key in acc ==> ExpandFrom(cat, boundary, r, amount, k, acc, fuel).value[key] >= acc[key]
    ensures NonNegative(cat) && amount >= 0.0 && NonNegativeCosts(acc) ==>
      NonNegativeCosts(ExpandFrom(cat, boundary, r, amount, k, acc, fuel).value)
    decreases fuel, 0, |r.ingredients| - k + 1
  {
    if k < |r.ingredients| {
      var ing := r.ingredients[k];
      var next := AddIngredient(cat, boundary, OutputFactor(r), amount, ing, acc, fuel).value;
      AddIngredientGrows(cat, boundary, OutputFactor(r), amount, ing, acc, fuel);
      ExpandFromGrows(cat, boundary, r, amount, k + 1, next, fuel);
    }
  }

  lemma {:induction false} AddIngredientGrows(cat: seq<Recipe>, boundary: seq<string>, factor: real, amount: real, ing: Entry, acc: Costs, fuel: nat)
    requires WellFormed(cat) && factor > 0.0
    requires AddIngredient(cat, boundary, factor, amount, ing, acc, fuel).Ok?
    ensures acc.Keys <= AddIngredient(cat, boundary, factor, amount, ing, acc, fuel).value.Keys
    ensures NonNegative(cat) && amount >= 0.0 && ing.amount >= 0.0 ==>
      forall key :: key in acc ==> AddIngredient(cat, boundary, factor, amount, ing, acc, fuel).value[key] >= acc[key]
    ensures NonNegative(cat) && amount >= 0.0 && ing.amount >= 0.0 && NonNegativeCosts(acc) ==>
      NonNegativeCosts(AddIngredient(cat, boundary, factor, amount, ing, acc, fuel).value)
    decreases fuel, 0, 0
  {
    if ing.kind != Fluid && ing.name !in boundary {
      var rec := FirstFluidFree(Producers(cat, ing.name)).value;
      ExpandGrows(cat, boundary, rec, ing.amount, acc, fuel - 1);
    }
  }

  /** The fuel bound only cuts the recursion off: whatever an expansion
      returns other than `OutOfFuel`, it returns with any larger bound too. */
  lemma {:induction false} ExpandFuel(cat: seq<Recipe>, boundary: seq<string>, r: Recipe, amount: real, acc: Costs, fuel: nat, more: nat)
    requires WellFormed(cat) && r in cat && fuel <= more
    requires Expand(cat, boundary, r, amount, acc, fuel) != Err(OutOfFuel)
    ensures Expand(cat, boundary, r, amount, acc, more) == Expand(cat, boundary, r, amount, acc, fuel)
    decreases fuel, 1, 0
  {
    ExpandFromFuel(cat, boundary, r, amount, 0, acc, fuel, more);
  }

  lemma {:induction false} ExpandFromFuel(cat: seq<Recipe>, boundary: seq<string>, r: Recipe, amount: real, k: nat, acc: Costs, fuel: nat, more: nat)
    requires WellFormed(cat) && r in cat && k <= |r.ingredients| && fuel <= more
    requires ExpandFrom(cat, boundary, r, amount, k, acc, fuel) != Err(OutOfFuel)
    ensures ExpandFrom(cat, boundary, r, amount, k, acc, more) == ExpandFrom(cat, boundary, r, amount, k, acc, fuel)
    decreases fuel, 0, |r.ingredients| - k + 1
  {
    if k < |r.ingredients| {
      var ing := r.ingredients[k];
      var step := AddIngredient(cat, boundary, OutputFactor(r), amount, ing, acc, fuel);
      AddIngredientFuel(cat, boundary, OutputFactor(r), amount, ing, acc, fuel, more);
      if step.Ok? {
        ExpandFromFuel(cat, boundary, r, amount, k + 1, step.value, fuel, more);
      }
    }
  }

  lemma {:induction false} AddIngredientFuel(cat: seq<Recipe>, boundary: seq<string>, factor: real, amount: real, ing: Entry, acc: Costs, fuel: nat, more: nat)
    requires WellFormed(cat) && factor > 0.0 && fuel <= more
    ensures AddIngredient(cat, boundary, factor, amount, ing, acc, fuel) != Err(OutOfFuel) ==>
      AddIngredient(cat, boundary, factor, amount, ing, acc, more) == AddIngredient(cat, boundary, factor, amount, ing, acc, fuel)
    decreases fuel, 0, 0
  {
    if ing.kind != Fluid && ing.name !in boundary && fuel > 0 {
      var recs := Producers(cat, ing.name);
      if FirstFluidFree(recs).Some? {
        var rec := FirstFluidFree(recs).value;
        if Expand(cat, boundary, rec, ing.amount, acc, fuel - 1) != Err(OutOfFuel) {
          ExpandFuel(cat, boundary, rec, ing.amount, acc, fuel - 1, more - 1);
        }
      }
    }
  }

  /** `computeRecipeCost` with a larger fuel bound agrees with every answer
      that did not run out of fuel. */
  lemma ComputeCostFuel(cat: seq<Recipe>, recipeName: string, boundary: seq<string>, fuel: nat, more: nat)
    requires WellFormed(cat) && fuel <= more
    requires ComputeCost(cat, recipeName, boundary, fuel) != Err(OutOfFuel)
    ensures ComputeCost(cat, recipeName, boundary, more) == ComputeCost(cat, recipeName, boundary, fuel)
  {
    var target := Lookup(cat, recipeName);
    if target.Some? {
      ExpandFuel(cat, boundary, target.value, 1.0, map[], fuel, more);
    }
  }

  /** Every boundary item listed as an ingredient of the recipe (from position
      `k` on) is a key of the finished dictionary. */
  lemma {:induction false} BoundaryIngredientsCosted(cat: seq<Recipe>, boundary: seq<string>, r: Recipe, amount: real, k: nat, acc: Costs, fuel: nat)
    requires WellFormed(cat) && r in cat && k <= |r.ingredients|
    requires ExpandFrom(cat, boundary, r, amount, k, acc, fuel).Ok?
    ensures forall j :: k <= j < |r.ingredients| && r.ingredients[j].kind == Item && r.ingredients[j].name in boundary ==>
      r.ingredients[j].name in ExpandFrom(cat, boundary, r, amount, k, acc, fuel).value
    decreases |r.ingredients| - k
  {
    if k < |r.ingredients| {
      var next := AddIngredient(cat, boundary, OutputFactor(r), amount, r.ingredients[k], acc, fuel).value;
      AddIngredientGrows(cat, boundary, OutputFactor(r), amount, r.ingredients[k], acc, fuel);
      ExpandFromGrows(cat, boundary, r, amount, k + 1, next, fuel);
      BoundaryIngredientsCosted(cat, boundary, r, amount, k + 1, next, fuel);
    }
  }

  /** After a successful `computeRecipeCost`, every boundary item the target
      recipe lists as an ingredient has an entry. */
  lemma TargetBoundaryCosted(cat: seq<Recipe>, recipeName: string, boundary: seq<string>, fuel: nat)
    requires WellFormed(cat)
    requires ComputeCost(cat, recipeName, boundary, fuel).Ok?
    ensures Lookup(cat, recipeName).Some?
    ensures forall ing :: ing in Lookup(cat, recipeName).value.ingredients && ing.kind == Item && ing.name in boundary ==>
      ing.name in ComputeCost(cat, recipeName, boundary, fuel).value
  {
    var r := Lookup(cat, recipeName).value;
    BoundaryIngredientsCosted(cat, boundary, r, 1.0, 0, map[], fuel);
  }

  /** The ingredient names from position `k` on are pairwise distinct. */
  ghost predicate DistinctFrom(ings: seq<Entry>, k: nat)
  {
    forall i, j :: k <= i < j < |ings| ==> ings[i].name != ings[j].name
  }

  /** A recipe made only of boundary items, each named once: the dictionary
      gains exactly `amount * ing.amount / outputFactor` for each of them,
      and nothing else changes. */
  lemma {:induction false} DirectCost(cat: seq<Recipe>, boundary: seq<string>, r: Recipe, amount: real, k: nat, acc: Costs, fuel: nat)
    requires WellFormed(cat) && r in cat && k <= |r.ingredients|
    requires forall j :: k <= j < |r.ingredients| ==> r.ingredients[j].kind == Item && r.ingredients[j].name in boundary
    requires DistinctFrom(r.ingredients, k)
    ensures ExpandFrom(cat, boundary, r, amount, k, acc, fuel).Ok?
    ensures forall j :: k <= j < |r.ingredients| ==>
      Get(ExpandFrom(cat, boundary, r, amount, k, acc, fuel).value, r.ingredients[j].name)
        == Get(acc, r.ingredients[j].name) + Share(amount, r.ingredients[j].amount, OutputFactor(r))
    ensures forall key :: (forall j :: k <= j < |r.ingredients| ==> r.ingredients[j].name != key) ==>
      Get(ExpandFrom(cat, boundary, r, amount, k, acc, fuel).value, key) == Get(acc, key)
    decreases |r.ingredients| - k
  {
    if k < |r.ingredients| {
      var ing := r.ingredients[k];
      var next := Incremented(acc, ing.name, Share(amount, ing.amount, OutputFactor(r)));
      assert AddIngredient(cat, boundary, OutputFactor(r), amount, ing, acc, fuel) == Ok(next);
      DirectCost(cat, boundary, r, amount, k + 1, next, fuel);
    }
  }

  /** A fluid ingredient (lines 684-692): the filled barrel and the empty
      barrel of its emptying recipe each gain `amount * ing.amount` over the
      fluid per barrel, and nothing else changes. The output factor of the
      recipe being expanded and the fuel play no part. */
  lemma FluidCost(cat: seq<Recipe>, boundary: seq<string>, factor: real, amount: real, ing: Entry, acc: Costs, fuel: nat)
    requires WellFormed(cat) && factor > 0.0 && ing.kind == Fluid && FindBarreling(cat, ing.name).Ok?
    ensures AddIngredient(cat, boundary, factor, amount, ing, acc, fuel).Ok?
    ensures var b := FindBarreling(cat, ing.name).value;
      var share := Share(amount, ing.amount, b.perBarrel);
      var res := AddIngredient(cat, boundary, factor, amount, ing, acc, fuel).value;
      res.Keys == acc.Keys + {b.input, b.barrel} &&
      (b.input != b.barrel ==>
        Get(res, b.input) == Get(acc, b.input) + share && Get(res, b.barrel) == Get(acc, b.barrel) + share) &&
      (b.input == b.barrel ==> Get(res, b.input) == Get(acc, b.input) + share + share) &&
      forall k :: k in acc && k != b.input && k != b.barrel ==> res[k] == acc[k]
    ensures forall factor', fuel' :: factor' > 0.0 ==>
      AddIngredient(cat, boundary, factor', amount, ing, acc, fuel') == AddIngredient(cat, boundary, factor, amount, ing, acc, fuel)
  {
    var b := FindBarreling(cat, ing.name).value;
    var share := Share(amount, ing.amount, b.perBarrel);
    assert AddIngredient(cat, boundary, factor, amount, ing, acc, fuel) == Ok(ChargeBarreling(acc, b, share));
  }

  /** The fluid branch of `AddIngredient` on its own. */
  lemma FluidStep(cat: seq<Recipe>, boundary: seq<string>, factor: real, amount: real, ing: Entry, acc: Costs, fuel: nat)
    requires WellFormed(cat) && factor > 0.0 && ing.kind == Fluid
    ensures AddIngredient(cat, boundary, factor, amount, ing, acc, fuel) ==
      match FindBarreling(cat, ing.name)
      case Err(e) => Err(e)
      case Ok(b) => Ok(ChargeBarreling(acc, b, Share(amount, ing.amount, b.perBarrel)))
  {
  }

  /** The two errors an ingredient can raise itself: a fluid without a
      usable barreling recipe, and an item outside the boundary that no
      fluid-free recipe produces. */
  lemma IngredientErrors(cat: seq<Recipe>, boundary: seq<string>, factor: real, amount: real, ing: Entry, acc: Costs, fuel: nat)
    requires WellFormed(cat) && factor > 0.0
    ensures ing.kind == Fluid && FindBarreling(cat, ing.name).Err? ==>
      AddIngredient(cat, boundary, factor, amount, ing, acc, fuel) == Err(FindBarreling(cat, ing.name).error)
    ensures ing.kind == Item && ing.name !in boundary && FirstFluidFree(Producers(cat, ing.name)).None? ==>
      AddIngredient(cat, boundary, factor, amount, ing, acc, fuel) == Err(NoProducer(ing.name))
  {
  }

  /** Emptying a barrel of sulfuric acid yields 50 acid and one empty barrel. */
  const AcidCatalog: seq<Recipe> := [
    Recipe("empty-sulfuric-acid-barrel", BarrelingCategory,
      [Entry("sulfuric-acid-barrel", 1.0, Item)],
      [Entry("sulfuric-acid", 50.0, Fluid), Entry(EmptyBarrel, 1.0, Item)])]

  /** 25 acid, in a recipe that yields 2, cost half a filled barrel and half
      an empty barrel: no division by the output factor 2. */
  lemma AcidExample()
    ensures WellFormed(AcidCatalog)
    ensures AddIngredient(AcidCatalog, [], 2.0, 1.0, Entry("sulfuric-acid", 25.0, Fluid), map[], 0)
         == Ok(map["sulfuric-acid-barrel" := 0.5, EmptyBarrel := 0.5])
  {
    var br := AcidCatalog[0];
    assert Produces(br, "sulfuric-acid") by { assert br.products[0].name == "sulfuric-acid"; }
    assert IsBarreling(br) by { assert br.products[1].name == EmptyBarrel; }
    assert Producers(AcidCatalog, "sulfuric-acid") == [br];
    assert BarrelRecipes([br]) == [br];
    assert FindBarreling(AcidCatalog, "sulfuric-acid") == Ok(Barreling("sulfuric-acid-barrel", EmptyBarrel, 50.0));
  }

  /** The position of the first catalog recipe that produces `item` and
      takes no fluid, or `|cat|` when there is none. */
  function FirstUsable(cat: seq<Recipe>, item: string): (j: nat)
    ensures j <= |cat|
    ensures forall i :: 0 <= i < j ==> !(Produces(cat[i], item) && FluidFree(cat[i]))
    ensures j < |cat| ==> Produces(cat[j], item) && FluidFree(cat[j])
  {
    if |cat| == 0 then 0
    else if Produces(cat[0], item) && FluidFree(cat[0]) then 0
    else 1 + FirstUsable(cat[1..], item)
  }

  /** The producer the resolver descends into (the first fluid-free recipe
      among the producers, the `for (const rec of recs)` loop) is the first
      recipe in catalog order that produces the item and takes no fluid. */
  lemma {:induction false} FirstProducerInCatalogOrder(cat: seq<Recipe>, item: string)
    ensures FirstFluidFree(Producers(cat, item))
         == if FirstUsable(cat, item) < |cat| then Some(cat[FirstUsable(cat, item)]) else None
  {
    if |cat| > 0 {
      var rest := Producers(cat[1..], item);
      var j := FirstUsable(cat[1..], item);
      FirstProducerInCatalogOrder(cat[1..], item);
      if Produces(cat[0], item) && FluidFree(cat[0]) {
        assert Producers(cat, item) == [cat[0]] + rest;
      } else {
        assert FirstUsable(cat, item) == 1 + j;
        assert FirstFluidFree(Producers(cat, item)) == FirstFluidFree(rest) by {
          if Produces(cat[0], item) {
            assert Producers(cat, item) == [cat[0]] + rest;
            assert ([cat[0]] + rest)[1..] == rest;
          } else {
            assert Producers(cat, item) == rest;
          }
        }
        if j < |cat[1..]| {
          assert cat[1..][j] == cat[1 + j];
        }
      }
    }
  }
}
