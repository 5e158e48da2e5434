# factorio-reference tables: a Dafny model

This project models the computational core of `src/tables.ts`, the script that builds the
reference tables of factorio-reference. The core has four parts:

- **The recipe-cost resolver.** `computeRecipeCost` walks the recipe catalog from a target
  recipe down to a list of boundary ("intermediate") items. It accumulates, in a shared
  dictionary, how much of each boundary item one craft of the target needs. A fluid
  ingredient is charged to the unique barreling recipe that produces it, the one that
  empties a filled barrel: its first ingredient (the filled barrel) and its first product
  not named after the fluid (the empty barrel) each get the fluid amount over the fluid
  per barrel.
- **The cargo-wagon allocator.** `CargoRatios.computeAllocation` splits the 40 slots of a
  wagon among the inputs of a recipe. It starts from one stack each. Each pass gives one
  more stack to every input whose output is within the 1/128 quantisation of the smallest
  output. It keeps the allocation with the best bottleneck count.
- **The compression ratios.** `computeStackRatio` and `computeBeltRatio` compare the
  ingredients of a recipe with its first product, per stack or per item.
- **The helpers.** `sum`, `min`, `max`, `roundError`, `increment`, `mapMap` and `groupBy`.

The model is organised as follows:

- Loops and in-place updates are kept as loops and in-place updates:
  - the resolver is the class `RecipeCost.Resolver`, whose methods update its `result`
    dictionary;
  - the allocator's `realAlloc` is an `array<int>` updated pass by pass;
  - `groupBy`, `sum`, `min`, `max`, `mapMap` and the ratio functions are accumulator loops.
- Each such method is proved equal to a specification function:
  - `RecipeCost.Expand` for the resolver;
  - `CargoRatios.Run` for the allocator loop;
  - `Grouping.Grouped`, `Aggregates.Sum`/`Min`/`Max` and
    `CompressionRatios.StackFraction`/`ItemAmount` for the others.
- The properties are proved about those functions.

Modules:

- `Wrappers`: `Option` and `Result`.
- `Aggregates`: `sum`, `min`, `max`, `roundError`, `mapMap`.
- `SortedNames`: `Object.keys(...).sort()`.
- `Catalog`: recipes, ingredients and products.
- `CompressionRatios`: the two ratio functions.
- `Grouping`: `groupBy`.
- `RecipeCost`: the resolver as the code is written.
- `CostFindings`: a defect of the resolver and its correction.
- `CargoRatios`: the allocator.

Numbers are Dafny `real`s, so the model is exact arithmetic rather than IEEE doubles. Four
things are supplied by the caller rather than read from global tables:

- the recipe catalog, a sequence of recipes in `Object.keys` order;
- the stack sizes, a map from item name to stack size;
- the list of boundary items;
- for the allocator, the amount of the recipe's first product.

`Math.round(x)` is modelled as the floor of `x + 0.5`; `Math.floor` as `Floor`.

Two behaviours of the code on edge inputs; the model follows the code:

- With an empty cost dictionary, `computeAllocation` does not return an empty result. No
  index is ever constrained, so every pass "improves" without using a slot, and the loop
  never ends. `CargoRatios.ComputeAllocation` therefore requires at least one input.
- With more than 40 inputs there is no error. `remainingSlots` starts negative, the loop
  never runs, and every input gets one stack.

## Model

| member | source | states |
|---|---|---|
| Aggregates.SumOf | src/tables.ts:611-619 | the accumulator loop returns the left-to-right sum of the array |
| Aggregates.SumUpdate | src/tables.ts:611-619 | raising one element by d raises the sum by d |
| Aggregates.SumAppend | src/tables.ts:611-619 | the sum of a concatenation is the sum of the sums |
| Aggregates.Min | src/tables.ts:621-632 | +Infinity exactly for an empty array; otherwise a finite value that is one of the elements and no greater than any of them |
| Aggregates.MinOf | src/tables.ts:621-632 | the loop seeded with Infinity and updated on `n < res` returns `Min` of the array |
| Aggregates.Max | src/tables.ts:634-645 | -Infinity exactly for an empty array; otherwise one of the elements and no smaller than any of them |
| Aggregates.MaxOf | src/tables.ts:634-645 | the loop seeded with -Infinity and updated on `n > res` returns `Max` of the array |
| Aggregates.Round | src/tables.ts:604 | `Math.round(x)` is the integer r with x - 1/2 < r <= x + 1/2: the nearest one, halves rounded up |
| Aggregates.RoundError | src/tables.ts:602-605 | `roundError(n)` lies within 1/256 of n: above n - 1/256 and at most n + 1/256 |
| Aggregates.RoundErrorIsOne | src/tables.ts:602-605 | `roundError(n) === 1` holds exactly for n in [255/256, 257/256) |
| Aggregates.MapMap | src/tables.ts:660-666 | the new dictionary has the same keys and maps each key k to fn(value of k, k) |
| SortedNames.LessIrreflexive | src/tables.ts:774 | no name sorts before itself |
| SortedNames.LessTransitive | src/tables.ts:774 | the default string order is transitive |
| SortedNames.LessTotal | src/tables.ts:774 | two different names are always ordered one way or the other |
| SortedNames.LessAsymmetric | src/tables.ts:774 | two names are never ordered both ways |
| SortedNames.LeastOf | src/tables.ts:774 | returns a member of a non-empty set of names that sorts before all the others |
| SortedNames.SortedKeys | src/tables.ts:774 | the keys of the dictionary, each exactly once, in strictly increasing string order |
| CompressionRatios.ItemsOnly | src/tables.ts:539-541 | the kept entries are all items and all come from the list |
| CompressionRatios.ItemsOnlyCounts | src/tables.ts:539-541 | every item entry is kept as often as it occurs in the list, and no fluid entry is kept |
| CompressionRatios.ItemsOnlyAppend | src/tables.ts:539-541 | keeping the items of two lists one after the other is keeping the items of their concatenation: the order is kept |
| CompressionRatios.ComputeStackRatio | src/tables.ts:534-545 | the loop returns the summed stack fractions of the item ingredients over the stack fraction of one output |
| CompressionRatios.ComputeBeltRatio | src/tables.ts:547-558 | the loop returns the summed amounts of the item ingredients over the amount of the output |
| CompressionRatios.StackFractionSkipsFluids | src/tables.ts:538-542 | the stack fraction of the ingredients equals that of their item ingredients alone |
| CompressionRatios.ItemAmountSkipsFluids | src/tables.ts:551-555 | the item amount of the ingredients equals that of their item ingredients alone |
| CompressionRatios.UniformStackFraction | src/tables.ts:538-542 | when every item ingredient has stack size s, the stack fraction is the item amount over s |
| CompressionRatios.UniformStacksGiveBeltRatio | src/tables.ts:534-558 | when the product and every item ingredient share one stack size, the stack ratio equals the belt ratio |
| Grouping.FindGroup | src/tables.ts:200-205 | the inner search finds a group with that key, and finds none exactly when no group has that key |
| Grouping.FirstIndex | src/tables.ts:196-214 | the position of the first item with the key, or the length when there is none |
| Grouping.GroupedDistinct | src/tables.ts:196-214 | no two groups share a key |
| Grouping.GroupedContents | src/tables.ts:196-214 | each group holds exactly the items of its key, in input order; every item's key has a group, and every group's key occurs |
| Grouping.GroupedFirstAppearance | src/tables.ts:196-214 | groups are listed in order of their key's first appearance in the input |
| Grouping.GroupedIsGroupsOf | src/tables.ts:196-214 | the groups satisfy all of the above at once |
| Grouping.GroupedIsPermutation | src/tables.ts:196-214 | concatenating the groups gives a permutation of the input |
| Grouping.GroupBy | src/tables.ts:196-214 | the nested loops return `Grouped`, the groups of the input as above, and they rearrange the items without losing or adding any |
| RecipeCost.Get | src/tables.ts:657 | the entry of a present key, and 0 for an absent one, as `map[key]` defaulting to 0 |
| RecipeCost.Incremented | src/tables.ts:656-658 | the key gains `amount` over its old value (0 if absent); its key is added; every other entry is unchanged |
| RecipeCost.Resolver.Increment | src/tables.ts:656-658 | `increment(result, key, amount)` replaces `result` by `Incremented` |
| RecipeCost.Producers | src/tables.ts:682 | exactly the catalog recipes that list the item among their products |
| RecipeCost.BarrelRecipes | src/tables.ts:686 | exactly the producers of category `crafting-with-fluid` that produce `empty-barrel` |
| RecipeCost.FirstFluidFree | src/tables.ts:698-704 | a recipe found is one of the candidates and takes no fluid; none is found exactly when no candidate is fluid-free |
| RecipeCost.FirstNamed | src/tables.ts:689 | the product with the fluid's name at the lowest position, with no such product before it; none exactly when no product has the name |
| RecipeCost.FirstOtherThan | src/tables.ts:690 | the product with another name at the lowest position, with every product before it named after the fluid; none exactly when all are |
| RecipeCost.FindBarreling | src/tables.ts:686-690 | a barreling found has a positive fluid amount per barrel, so the division at lines 691-692 is defined |
| RecipeCost.BarrelingOfRecipe | src/tables.ts:686-690 | the barreling is read off the unique barreling producer of the fluid: its first ingredient, its first product with another name and the amount of its first product named after the fluid; otherwise the number of barreling producers, or the malformed recipe, is the error |
| RecipeCost.FluidCost | src/tables.ts:684-692 | a fluid ingredient adds `amount * ing.amount / fluid.amount` to the filled barrel and to the empty barrel (twice to one key if they coincide), changes nothing else, and does not depend on the output factor or the fuel |
| RecipeCost.AcidExample | src/tables.ts:684-692 | 25 sulfuric acid, at 50 per barrel, in a recipe that yields 2, cost 0.5 filled barrel and 0.5 `empty-barrel` |
| RecipeCost.IngredientErrors | src/tables.ts:686-709 | a fluid without a usable barreling recipe fails with the barreling error; an item outside the boundary with no fluid-free producer fails with `NoProducer` |
| RecipeCost.Expand | src/tables.ts:674-712 | the expansion of one recipe keeps every key it starts with, never reports an unknown recipe, and leaves a recipe without ingredients unchanged |
| RecipeCost.ExpandFrom | src/tables.ts:680-711 | the ingredients from position k on keep every key and never report an unknown recipe |
| RecipeCost.AddIngredient | src/tables.ts:681-710 | one ingredient's branch keeps every key and never reports an unknown recipe |
| RecipeCost.ComputeCost | src/tables.ts:668-673 | the result is `UnknownRecipe` exactly when the catalog has no recipe of that name; a target without ingredients costs nothing |
| RecipeCost.Share | src/tables.ts:691-692 | `amount * ing.amount / per` is non-negative for non-negative amounts |
| RecipeCost.OutputFactor | src/tables.ts:676-678 | the output factor, including the copper-cable 1.4 bonus, is positive |
| RecipeCost.Lookup | src/tables.ts:671 | `recipes[name]`: the recipe of that name at the lowest catalog position, found exactly when the catalog has one |
| RecipeCost.FindProducer | src/tables.ts:698-704 | the `for (const rec of recs)` loop with `break` returns the first fluid-free candidate |
| RecipeCost.Resolver.GetIntermediateInputs | src/tables.ts:674-712 | the recursion leaves in `result` exactly what `Expand` computes from the old dictionary, or reports the error `Expand` reports |
| RecipeCost.Resolver.AddOne | src/tables.ts:680-710 | one ingredient's branch (fluid, boundary item or recursion) changes `result` exactly as `AddIngredient` says, or fails as it says |
| RecipeCost.ComputeRecipeCost | src/tables.ts:668-673 | a fresh dictionary filled by one expansion of the named recipe for one craft; an unknown name is an error |
| RecipeCost.ExpandGrows | src/tables.ts:656-658 | an expansion keeps every key it starts with; with non-negative amounts it never lowers an entry and never makes one negative |
| RecipeCost.ExpandFuel | src/tables.ts:674-712 | any result other than running out of fuel stays the same with a larger fuel bound |
| RecipeCost.ComputeCostFuel | src/tables.ts:668-673 | the same holds for `computeRecipeCost` |
| RecipeCost.BoundaryIngredientsCosted | src/tables.ts:694-695 | after a successful expansion, every boundary item among the remaining ingredients has an entry |
| RecipeCost.TargetBoundaryCosted | src/tables.ts:668-714 | after a successful `computeRecipeCost`, every boundary item the target lists as an ingredient has an entry |
| RecipeCost.DirectCost | src/tables.ts:694-695 | for a recipe made only of distinct boundary items, each gains exactly `amount * ing.amount / outputFactor` and nothing else changes |
| RecipeCost.FirstUsable | src/tables.ts:682-704 | the position of the first catalog recipe that produces the item without fluid, none such before it |
| RecipeCost.FirstProducerInCatalogOrder | src/tables.ts:682-704 | the producer the resolver descends into is exactly the first such catalog recipe in catalog order, or none |
| CostFindings.SampleWellFormed | src/tables.ts:668-714 | the three-recipe sample catalog t ← 2 x, x ← 3 y, y ← 1 z is well formed |
| CostFindings.SampleProducers | src/tables.ts:682 | on the sample, x is produced only by its recipe and y only by its recipe |
| CostFindings.AsWrittenUndercounts | src/tables.ts:700 | as written, any demand of t costs 3 z, while one t needs 2 · 3 · 1 = 6 |
| CostFindings.AsWrittenNotLinear | src/tables.ts:700 | as written, two t cost the same as one |
| CostFindings.ExpandPerUnitFailure | src/tables.ts:674-712 | with the corrected recursion, whether and how it fails does not depend on the demand or the dictionary |
| CostFindings.ExpandPerUnitAdditive | src/tables.ts:674-712 | with the corrected recursion, the costs of two demands add up, entry by entry |
| CostFindings.DoubleDemand | src/tables.ts:674-712 | with the corrected recursion, twice the demand costs exactly twice of every item |
| CostFindings.PerUnitCountsEveryLevel | src/tables.ts:700 | with the corrected recursion, one t costs 6 z |
| CostFindings.IncrementedMerges | src/tables.ts:656-658 | incrementing a sum of dictionaries by a sum equals summing the incremented dictionaries |
| CargoRatios.Quantity | src/tables.ts:822-824 | the items held by an input's stacks are positive |
| CargoRatios.OutputFrom | src/tables.ts:840-842 | an input's output is positive |
| CargoRatios.Smallest | src/tables.ts:836-838 | the smallest output is positive, attained by some input and no greater than any input's output |
| CargoRatios.LoadFactorBounds | src/tables.ts:832-834 | `loadFactor(i)` is at least 1, and exactly 1 when input i yields the smallest output |
| CargoRatios.ConstrainedMeans | src/tables.ts:791 | `roundError(loadFactor(i)) === 1` holds exactly when input i yields less than 257/256 of the smallest output |
| CargoRatios.ConstrainedBelow | src/tables.ts:789-794 | the constrained indices are in range, strictly ascending, and exactly those whose rounded load factor is 1 |
| CargoRatios.BottlenecksBelow | src/tables.ts:803 | the bottleneck count never exceeds the number of inputs considered |
| CargoRatios.Grant | src/tables.ts:796-799 | incrementing the listed stacks keeps the length and never lowers a stack |
| CargoRatios.Step | src/tables.ts:788-807 | one pass keeps one stack or more for every input |
| CargoRatios.Run | src/tables.ts:787-808 | the loop ends with every input holding a stack, and with no improvement or no free slot |
| CargoRatios.FinalAllocation | src/tables.ts:810-812 | the allocation kept (the copy, or the live one) gives every input a stack |
| CargoRatios.SmallestOutput | src/tables.ts:836-838 | `min` over the outputs returns `Smallest` |
| CargoRatios.ConstrainedIndices | src/tables.ts:789-794 | the index loop returns exactly the constrained indices, in order |
| CargoRatios.CountBottlenecks | src/tables.ts:803 | the filter counts exactly the inputs whose output equals the smallest |
| CargoRatios.InitialAllocation | src/tables.ts:775-779 | a new array with one stack for each input |
| CargoRatios.GrantAll | src/tables.ts:796-799 | each listed index gets one more stack, in order, and nothing else changes, as `Grant` says |
| CargoRatios.Pass | src/tables.ts:788-807 | one pass changes the array and the loop variables exactly as `Step` says |
| CargoRatios.Settle | src/tables.ts:781-812 | the loop and `realAlloc = lastPerfect` end with exactly the allocation `Run` describes |
| CargoRatios.SortedInputsValid | src/tables.ts:774 | the sorted key list of a non-empty dictionary with positive costs and stack sizes is valid input |
| CargoRatios.ComputeAllocation | src/tables.ts:766-843 | the names are the dictionary's keys, each once, in sorted order; the returned object is exactly `Report` of the allocation `Run` settles on |
| CargoRatios.BottleneckIsConstrained | src/tables.ts:789-807 | every pass has at least one constrained index and at least one bottleneck, so each granting pass uses a slot and the loop ends |
| CargoRatios.BottlenecksCounted | src/tables.ts:803 | an input with the smallest output is counted |
| CargoRatios.GrantContents | src/tables.ts:796-799 | with distinct indices, exactly the listed inputs gain one stack |
| CargoRatios.GrantTotal | src/tables.ts:796-799 | granting uses one slot per listed index |
| CargoRatios.OnesTotal | src/tables.ts:783 | the initial allocation uses one slot per input |
| CargoRatios.InitInvariant | src/tables.ts:775-785 | the state before the loop satisfies the loop invariant |
| CargoRatios.StepInvariant | src/tables.ts:788-807 | a pass preserves the invariant: every input keeps a stack; the stacks and the free slots add up to 40; a kept copy records its own bottleneck count; with at most 40 inputs no slot count goes negative and a kept copy fits |
| CargoRatios.RunInvariant | src/tables.ts:787-808 | the invariant holds when the loop exits |
| CargoRatios.WithinSlots | src/tables.ts:783-799 | with at most 40 inputs the returned allocation takes at most 40 slots |
| CargoRatios.FewInputs | src/tables.ts:804-812 | with fewer than 40 inputs a copy is always kept and returned, and its bottleneck count, at least 1, is the recorded one |
| CargoRatios.RunKeepsCopy | src/tables.ts:804-807 | once a copy is kept, a copy is kept to the end |
| CargoRatios.ManyInputs | src/tables.ts:783-787 | with 40 inputs or more every input gets exactly one stack |
| CargoRatios.RunOnlyAdds | src/tables.ts:795-799 | stacks are only ever added |
| CargoRatios.RecordIsBest | src/tables.ts:803-807 | the recorded bottleneck count is at least that of every pass, and is one of them unless no pass beat the starting record |
| CargoRatios.Leftover | src/tables.ts:826-830 | no input is short of the crafts the floor of the smallest output asks for, and the leftover is at most the input's quantity |
| CargoRatios.ReportQuantities | src/tables.ts:814-824 | the report lists the names, the allocation and, per input, allocation × stack size |
| CargoRatios.Report | src/tables.ts:814-820 | the report carries the names and the allocation, one quantity and one leftover per input, and every leftover lies between 0 and its quantity |
| CargoRatios.ReportOutput | src/tables.ts:815 | the reported output is at most what any input's stacks yield, times the recipe's yield |

## Left out

- `Catalog.WellFormed`: the model requires a first product and only positive product
  amounts of every catalog recipe, including recipes the resolver never visits. The source
  divides by `outputs[0].amount` and `fluid.amount` only in the recipes it visits; a zero
  there gives Infinity or NaN, which exact reals do not have, and a missing product is a
  `TypeError`. Requiring it of the whole catalog keeps the requires independent of the
  path the recursion takes, so catalogs with a malformed but unvisited recipe are excluded.
- `CargoRatios.Valid`: the model requires a positive unit cost and a positive stack size
  for every input. In the source a zero unit cost gives that input the output Infinity
  (line 841). Such an input is then never constrained (line 791), never counted as a
  bottleneck (line 803), and its leftover is its whole quantity (line 829). Exact reals have
  no Infinity, so these inputs, and zero stack sizes, are outside the model.
- The presentation layer of `src/tables.ts` is not modelled: the table builders, the cell
  formatters and the HTML rendering. They lay out results and compute nothing the core
  promises.
- Loading the game data (`recipes`, `items`) is not modelled. The catalog and the stack
  sizes are parameters.
- `computeAllocation` calls `computeRecipeCost(recipe, IntegerStacks.intermediates)` and
  reads `recipes[recipe].products[0].amount`. This call is not composed in the model:
  `CargoRatios.ComputeAllocation` takes the cost dictionary and the product amount as
  parameters.
- The `level` counter and `tab` in the resolver are not modelled. They are never read.
- Three values in `computeAllocation` are never used and are not modelled: `stackCost`,
  `minimumStackAlloc` and `minimumMultiplier` (lines 768-772). Neither is
  `isAlmostInteger`.
- Two unused values are not modelled either: `smallestOutput` at line 786 and `consumed` at
  line 828.
- Floating point is not modelled: rounding, overflow and NaN. All arithmetic is on exact
  reals. So `roundError`, the `===` comparisons and `Math.floor` are exact.
- `SortedNames.Less` compares Dafny characters, not UTF-16 code units. The two orders agree
  on the catalog's ASCII names.
- The optional `reduce` callbacks of `sum`, `min` and `max` are modelled by mapping the
  callback over the array first. Every callback in the script is a pure function of the
  element and its index.
- `RecipeCost.Expand`: the source never detects a cycle in the catalog. The model bounds
  the depth of recursion with a fuel parameter and reports `OutOfFuel`.
  `RecipeCost.ExpandFuel` shows that the bound changes no other answer.
- `RecipeCost.AddIngredient`: the model stops at the first thrown error. The source may
  apply one increment before a `TypeError` in the fluid branch ("barrel" missing). That
  partial update is discarded anyway, because the exception leaves `computeRecipeCost`.
- `RecipeCost.CostError`: the source signals missing data with JavaScript `TypeError`s.
  The model names each of them instead: `UnknownRecipe`, `MalformedBarreling`.
- `Grouping.GroupBy` compares keys with Dafny equality. This matches `===` on primitive
  keys; the only use groups by a number.
- The fluid branch of the resolver (lines 691-692) does not divide by `outputFactor`. It is
  modelled as written, and the corrected resolver of `CostFindings` keeps it unchanged.
  Whether it was intended cannot be decided from the code.
- The copper-cable bonus `outputFactor *= 1.4` (line 678) is modelled as written.

## Findings

| source | as written | input that shows it | evidently intended | confidence | as-written member | corrected member |
|---|---|---|---|---|---|---|
| src/tables.ts:700 | the recursive call `getIntermediateInputs(rec, ing.amount)` passes the ingredient amount of one craft and drops the parent's demand `amount` and its `outputFactor` | catalog t ← 2 x, x ← 3 y, y ← 1 z, boundary [z]: one t is costed at 3 z, and two t also at 3 z | pass the amount of the ingredient consumed, `amount * ing.amount / outputFactor`, so that one t costs 6 z and costs scale with demand | not executed | CostFindings.AsWrittenUndercounts | CostFindings.ExpandPerUnitAdditive |
