/**
 * The game-data records the core reads: recipes with their ingredient and
 * product lists. The catalog is a sequence of recipes in `Object.keys`
 * order; stack sizes of items are a map from item name to stack size.
 */
module Catalog {

  /** The `type` of an ingredient or product. */
  datatype Kind = Item | Fluid

  /** One ingredient or product of a recipe: `{ name, amount, type }`. */
  datatype Entry = Entry(name: string, amount: real, kind: Kind)

  datatype Recipe = Recipe(name: string, category: string, ingredients: seq<Entry>, products: seq<Entry>)

  /** `r.products.some(o => o.name === item)`. */
  predicate Produces(r: Recipe, item: string)
  {
    exists i :: 0 <= i < |r.products| && r.products[i].name == item
  }

  /** `r.ingredients.every(i => i.type !== 'fluid')`. */
  predicate FluidFree(r: Recipe)
  {
    forall i :: 0 <= i < |r.ingredients| ==> r.ingredients[i].kind != Fluid
  }

  /** A recipe whose primary product exists and every product amount is positive,
      so that dividing by a product amount is defined. */
  ghost predicate Positive(r: Recipe)
  {
    |r.products| > 0 && forall i :: 0 <= i < |r.products| ==> r.products[i].amount > 0.0
  }

  ghost predicate WellFormed(cat: seq<Recipe>)
  {
    forall r :: r in cat ==> Positive(r)
  }

  /** Every amount in the catalog is non-negative. */
  ghost predicate NonNegative(cat: seq<Recipe>)
  {
    forall r :: r in cat ==> forall i :: 0 <= i < |r.ingredients| ==> r.ingredients[i].amount >= 0.0
  }
}
