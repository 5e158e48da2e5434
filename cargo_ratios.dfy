/**
 * `CargoRatios.computeAllocation`: split the 40 slots of a cargo wagon
 * among the inputs of a recipe so that the inputs run out as evenly as
 * possible.
 *
 * Every input starts with one stack. Each pass gives one more stack to
 * every "constrained" input, the inputs whose output (how many crafts
 * their slots feed) is within 1/256 of the smallest output, provided there
 * are enough free slots for all of them; the pass then counts the
 * bottlenecks (inputs whose output equals the smallest) and keeps a copy of
 * the allocation whenever that count is at least the best seen so far. The
 * loop stops once a pass could not grant, or no slot is left.
 *
 * `CargoRatios.Run` gives the loop as a function over `LoopState`, and
 * `CargoRatios.ComputeAllocation` runs it in place on an array and is
 * proved to end in the state `Run` describes.
 */
module CargoRatios {
  import opened Wrappers
  import opened Aggregates
  import opened SortedNames

  /** The slots of a cargo wagon. */
  const Slots: int := 40

  /** The initial `lastBottleneckCount`, below every real count. */
  const NoCount: int := -100

  /** The inputs in `names` order with their cost per craft and stack size. */
  datatype Cargo = Cargo(names: seq<string>, unitCost: map<string, real>, stackSize: map<string, int>)

  /** At least one input, each with a positive cost and a positive stack
      size; with no input the loop of the source never ends. */
  ghost predicate Valid(c: Cargo)
  {
    |c.names| > 0 &&
    forall i :: 0 <= i < |c.names| ==>
      c.names[i] in c.unitCost && c.unitCost[c.names[i]] > 0.0 &&
      c.names[i] in c.stackSize && c.stackSize[c.names[i]] > 0
  }

  /** An allocation of at least one stack to every input. */
  predicate Fits(c: Cargo, alloc: seq<int>)
  {
    |alloc| == |c.names| && forall i :: 0 <= i < |alloc| ==> alloc[i] >= 1
  }

  lemma MulPositive(a: real, b: real)
    requires a > 0.0 && b > 0.0
    ensures a * b > 0.0
  {
  }

  /** `quantity(i)`: the items the stacks of input `i` hold. */
  function Quantity(c: Cargo, alloc: seq<int>, i: int): (q: real)
    requires Valid(c) && Fits(c, alloc) && 0 <= i < |alloc|
    ensures q > 0.0
  {
    MulPositive(alloc[i] as real, c.stackSize[c.names[i]] as real);
    alloc[i] as real * c.stackSize[c.names[i]] as real
  }

  /** `outputFrom(i)`: the crafts the stacks of input `i` are enough for. */
  function OutputFrom(c: Cargo, alloc: seq<int>, i: int): (o: real)
    requires Valid(c) && Fits(c, alloc) && 0 <= i < |alloc|
    ensures o > 0.0
  {
    Quantity(c, alloc, i) / c.unitCost[c.names[i]]
  }

  /** The outputs of all inputs, in `names` order. */
  function Outputs(c: Cargo, alloc: seq<int>): (os: seq<real>)
    requires Valid(c) && Fits(c, alloc)
    ensures |os| == |alloc|
    ensures forall i :: 0 <= i < |alloc| ==> os[i] == OutputFrom(c, alloc, i)
  {
    seq(|alloc|, i requires 0 <= i < |alloc| => OutputFrom(c, alloc, i))
  }

  /** `getSmallestOutput()`: the output of the input that runs out first. */
  function Smallest(c: Cargo, alloc: seq<int>): (s: real)
    requires Valid(c) && Fits(c, alloc)
    ensures forall i :: 0 <= i < |alloc| ==> s <= OutputFrom(c, alloc, i)
    ensures exists i :: 0 <= i < |alloc| && OutputFrom(c, alloc, i) == s
    ensures s > 0.0
  {
    Min(Outputs(c, alloc)).value
  }

  /** `loadFactor(i)`: how many times the smallest output input `i` yields. */
  function LoadFactor(c: Cargo, alloc: seq<int>, i: int): real
    requires Valid(c) && Fits(c, alloc) && 0 <= i < |alloc|
  {
    OutputFrom(c, alloc, i) / Smallest(c, alloc)
  }

  /** No input yields less than the smallest output, and the load factor is
      exactly 1 for the inputs that yield it. */
  lemma LoadFactorBounds(c: Cargo, alloc: seq<int>, i: int)
    requires Valid(c) && Fits(c, alloc) && 0 <= i < |alloc|
    ensures LoadFactor(c, alloc, i) >= 1.0
    ensures LoadFactor(c, alloc, i) == 1.0 <==> OutputFrom(c, alloc, i) == Smallest(c, alloc)
  {
    RatioOfSmallest(OutputFrom(c, alloc, i), Smallest(c, alloc));
  }

  lemma RatioOfSmallest(o: real, s: real)
    requires 0.0 < s <= o
    ensures o / s >= 1.0
    ensures o / s == 1.0 <==> o == s
  {
  }

  /** `roundError(loadFactor(i)) === 1`: input `i` is a bottleneck up to the
      1/128 quantisation, that is, its output is less than 257/256 of the
      smallest. */
  predicate IsConstrained(c: Cargo, alloc: seq<int>, i: int)
    requires Valid(c) && Fits(c, alloc) && 0 <= i < |alloc|
  {
    RoundError(LoadFactor(c, alloc, i)) == 1.0
  }

  /** Since no load factor is below 1, an input is constrained exactly when
      its output is less than 257/256 of the smallest. */
  lemma ConstrainedMeans(c: Cargo, alloc: seq<int>, i: int)
    requires Valid(c) && Fits(c, alloc) && 0 <= i < |alloc|
    ensures IsConstrained(c, alloc, i) <==> LoadFactor(c, alloc, i) < 257.0 / 256.0
  {
    RoundErrorIsOne(LoadFactor(c, alloc, i));
    LoadFactorBounds(c, alloc, i);
  }

  /** `leftover(i)`: the items of input `i` left when the smallest output,
      rounded down, has been crafted; no input is short of them. */
  function Leftover(c: Cargo, alloc: seq<int>, i: int): (r: real)
    requires Valid(c) && Fits(c, alloc) && 0 <= i < |alloc|
    ensures 0.0 <= r <= Quantity(c, alloc, i)
  {
    var s, o := Smallest(c, alloc), OutputFrom(c, alloc, i);
    var cost, q := c.unitCost[c.names[i]], Quantity(c, alloc, i);
    assert s <= o;
    CoversFloor(s, o, cost, q);
    Remainder(q, s, cost)
  }

  /** `q - Math.floor(s) * cost`: what is left of `q` after `floor(s)` crafts at `cost` each. */
  function Remainder(q: real, s: real, cost: real): real
  {
    q - s.Floor as real * cost
  }

  /** The constrained indices below `k`, in ascending order. */
  function ConstrainedBelow(c: Cargo, alloc: seq<int>, k: int): (idx: seq<int>)
    requires Valid(c) && Fits(c, alloc) && 0 <= k <= |alloc|
    ensures |idx| <= k
    ensures forall j :: 0 <= j < |idx| ==> 0 <= idx[j] < k
    ensures forall i :: 0 <= i < k ==> (i in idx <==> IsConstrained(c, alloc, i))
    ensures forall j1, j2 :: 0 <= j1 < j2 < |idx| ==> idx[j1] < idx[j2]
  {
    if k == 0 then []
    else ConstrainedBelow(c, alloc, k - 1) + (if IsConstrained(c, alloc, k - 1) then [k - 1] else [])
  }

  /** `constrainedIndices` of one pass. */
  function Constrained(c: Cargo, alloc: seq<int>): seq<int>
    requires Valid(c) && Fits(c, alloc)
  {
    ConstrainedBelow(c, alloc, |alloc|)
  }

  /** How many inputs below `k` have exactly the smallest output. */
  function BottlenecksBelow(c: Cargo, alloc: seq<int>, k: int): (n: nat)
    requires Valid(c) && Fits(c, alloc) && 0 <= k <= |alloc|
    ensures n <= k
  {
    if k == 0 then 0
    else BottlenecksBelow(c, alloc, k - 1) + (if OutputFrom(c, alloc, k - 1) == Smallest(c, alloc) then 1 else 0)
  }

  /** `bottleneckCount`: the inputs whose output is the smallest. */
  function BottleneckCount(c: Cargo, alloc: seq<int>): nat
    requires Valid(c) && Fits(c, alloc)
  {
    BottlenecksBelow(c, alloc, |alloc|)
  }

  /** `realAlloc[i]++` for each index of `idx`, in order. */
  function Grant(alloc: seq<int>, idx: seq<int>): (r: seq<int>)
    requires forall j :: 0 <= j < |idx| ==> 0 <= idx[j] < |alloc|
    ensures |r| == |alloc|
    ensures forall i :: 0 <= i < |alloc| ==> r[i] >= alloc[i]
  {
    if |idx| == 0 then alloc
    else
      var before := Grant(alloc, idx[..|idx| - 1]);
      before[idx[|idx| - 1] := before[idx[|idx| - 1]] + 1]
  }

  /** The allocation as the numbers `sum` adds up. */
  function AsReals(alloc: seq<int>): (r: seq<real>)
    ensures |r| == |alloc|
    ensures forall i :: 0 <= i < |alloc| ==> r[i] == alloc[i] as real
  {
    seq(|alloc|, i requires 0 <= i < |alloc| => alloc[i] as real)
  }

  /** `sum(realAlloc)`: the slots an allocation takes. */
  function Total(alloc: seq<int>): real
  {
    Sum(AsReals(alloc))
  }

  /** One stack for each of `n` inputs. */
  function Ones(n: nat): (r: seq<int>)
    ensures |r| == n && forall i :: 0 <= i < n ==> r[i] == 1
  {
    seq(n, _ => 1)
  }

  /** The variables of the `while (improved && remainingSlots > 0)` loop. */
  datatype LoopState = LoopState(
    alloc: seq<int>,             // realAlloc
    remaining: int,              // remainingSlots
    improved: bool,              // improved
    lastCount: int,              // lastBottleneckCount
    lastPerfect: Option<seq<int>>) // lastPerfect

  /** The state before the loop. */
  function Init(c: Cargo): LoopState
  {
    LoopState(Ones(|c.names|), Slots - |c.names|, true, NoCount, None)
  }

  /** One pass of the loop body. */
  function Step(c: Cargo, s: LoopState): (t: LoopState)
    requires Valid(c) && Fits(c, s.alloc)
    ensures Fits(c, t.alloc)
  {
    var idx := Constrained(c, s.alloc);
    var grant := |idx| <= s.remaining;
    var alloc := if grant then Grant(s.alloc, idx) else s.alloc;
    var remaining := if grant then s.remaining - |idx| else s.remaining;
    var count := BottleneckCount(c, alloc);
    if count >= s.lastCount then LoopState(alloc, remaining, grant, count, Some(alloc))
    else LoopState(alloc, remaining, grant, s.lastCount, s.lastPerfect)
  }

  /** The loop's variant: free slots, plus one while a pass may still run. */
  function Measure(s: LoopState): nat
  {
    (if s.remaining > 0 then s.remaining else 0) + (if s.improved then 1 else 0)
  }

  /** The loop, from state `s` to its exit. */
  function Run(c: Cargo, s: LoopState): (t: LoopState)
    requires Valid(c) && Fits(c, s.alloc)
    ensures Fits(c, t.alloc)
    ensures !t.improved || t.remaining <= 0
    decreases Measure(s)
  {
    if s.improved && s.remaining > 0 then
      BottleneckIsConstrained(c, s.alloc);
      Run(c, Step(c, s))
    else s
  }

  /** `if (lastPerfect) realAlloc = lastPerfect`. */
  function Final(s: LoopState): seq<int>
  {
    if s.lastPerfect.Some? then s.lastPerfect.value else s.alloc
  }

  /** The object `computeAllocation` returns. */
  datatype Allocation = Allocation(
    output: real,
    realAlloc: seq<int>,
    names: seq<string>,
    quantity: seq<real>,
    leftover: seq<real>)

  /** The returned object for the final allocation `alloc`; `primaryOutput`
      is the amount of the recipe's first product. */
  function Report(c: Cargo, alloc: seq<int>, primaryOutput: real): (a: Allocation)
    requires Valid(c) && Fits(c, alloc)
    ensures a.names == c.names && a.realAlloc == alloc
    ensures |a.quantity| == |a.leftover| == |c.names|
    ensures forall i :: 0 <= i < |c.names| ==> 0.0 <= a.leftover[i] <= a.quantity[i]
  {
    Allocation(
      Smallest(c, alloc) * primaryOutput,
      alloc,
      c.names,
      seq(|alloc|, i requires 0 <= i < |alloc| => Quantity(c, alloc, i)),
      seq(|alloc|, i requires 0 <= i < |alloc| => Leftover(c, alloc, i)))
  }

  /** What `computeAllocation` returns for the inputs `c`. */
  function Allocate(c: Cargo, primaryOutput: real): Allocation
    requires Valid(c)
  {
    Report(c, FinalAllocation(c), primaryOutput)
  }

  /** The allocation the loop ends with. */
  function FinalAllocation(c: Cargo): (alloc: seq<int>)
    requires Valid(c)
    ensures Fits(c, alloc)
  {
    InitInvariant(c);
    RunInvariant(c, Init(c));
    Final(Run(c, Init(c)))
  }

  // ---------------------------------------------------------------------
  // The loop in place

  /** `getSmallestOutput()`: `min` over the outputs of the allocation. */
  method SmallestOutput(c: Cargo, alloc: seq<int>) returns (smallest: real)
    requires Valid(c) && Fits(c, alloc)
    ensures smallest == Smallest(c, alloc)
  {
    var m := MinOf(Outputs(c, alloc));
    smallest := m.value;
  }

  /** The `constrainedIndices` loop of one pass. */
  method ConstrainedIndices(c: Cargo, alloc: seq<int>) returns (idx: seq<int>)
    requires Valid(c) && Fits(c, alloc)
    ensures idx == Constrained(c, alloc)
  {
    idx := [];
    for i := 0 to |alloc|
      invariant idx == ConstrainedBelow(c, alloc, i)
    {
      var smallest := SmallestOutput(c, alloc);
      if RoundError(OutputFrom(c, alloc, i) / smallest) == 1.0 {
        idx := idx + [i];
      }
    }
  }

  /** `names.filter((n, i) => outputFrom(i) === getSmallestOutput()).length`. */
  method CountBottlenecks(c: Cargo, alloc: seq<int>) returns (count: nat)
    requires Valid(c) && Fits(c, alloc)
    ensures count == BottleneckCount(c, alloc)
  {
    count := 0;
    for i := 0 to |alloc|
      invariant count == BottlenecksBelow(c, alloc, i)
    {
      var smallest := SmallestOutput(c, alloc);
      if OutputFrom(c, alloc, i) == smallest {
        count := count + 1;
      }
    }
  }

  /** `for (const input of names) realAlloc.push(1)`. */
  method InitialAllocation(n: nat) returns (realAlloc: array<int>)
    ensures fresh(realAlloc)
    ensures realAlloc[..] == Ones(n)
  {
    realAlloc := new int[n];
    for i := 0 to n
      invariant realAlloc[..i] == Ones(i)
    {
      realAlloc[i] := 1;
      assert realAlloc[..i + 1] == realAlloc[..i] + [1];
    }
    assert realAlloc[..] == realAlloc[..n];
  }

  /** `for (const i of constrained) { realAlloc[i]++; remainingSlots--; }`:
      one more stack for each index, in order. */
  method GrantAll(realAlloc: array<int>, idx: seq<int>)
    requires forall j :: 0 <= j < |idx| ==> 0 <= idx[j] < realAlloc.Length
    modifies realAlloc
    ensures realAlloc[..] == Grant(old(realAlloc[..]), idx)
  {
    ghost var start := realAlloc[..];
    for j := 0 to |idx|
      invariant realAlloc[..] == Grant(start, idx[..j])
    {
      assert idx[..j + 1][..j] == idx[..j];
      realAlloc[idx[j]] := realAlloc[idx[j]] + 1;
    }
    assert idx[..|idx|] == idx;
  }

  /** One pass of the loop body on the live array. */
  method Pass(c: Cargo, realAlloc: array<int>, remaining: int, lastCount: int, lastPerfect: Option<seq<int>>)
    returns (remaining': int, improved: bool, lastCount': int, lastPerfect': Option<seq<int>>)
    requires Valid(c) && Fits(c, realAlloc[..])
    modifies realAlloc
    ensures LoopState(realAlloc[..], remaining', improved, lastCount', lastPerfect')
         == Step(c, LoopState(old(realAlloc[..]), remaining, true, lastCount, lastPerfect))
  {
    ghost var s := LoopState(realAlloc[..], remaining, true, lastCount, lastPerfect);
    improved := false;
    remaining' := remaining;
    var constrained := ConstrainedIndices(c, realAlloc[..]);
    if |constrained| <= remaining' {
      GrantAll(realAlloc, constrained);
      remaining' := remaining' - |constrained|;
      improved := true;
    }
    var count := CountBottlenecks(c, realAlloc[..]);
    lastCount', lastPerfect' := lastCount, lastPerfect;
    if count >= lastCount {
      lastPerfect' := Some(realAlloc[..]);
      lastCount' := count;
    }
  }

  /** The `while (improved && remainingSlots > 0)` loop and the final
      `realAlloc = lastPerfect`, starting from one stack per input. */
  method Settle(c: Cargo, realAlloc: array<int>) returns (final: seq<int>)
    requires Valid(c) && realAlloc[..] == Ones(|c.names|)
    modifies realAlloc
    ensures final == FinalAllocation(c)
  {
    var lastCount := NoCount;
    var lastPerfect: Option<seq<int>> := None;
    var used := SumOf(AsReals(realAlloc[..]));
    OnesTotal(|c.names|);
    var remaining := Slots - used.Floor;
    var improved := true;
    assert LoopState(realAlloc[..], remaining, improved, lastCount, lastPerfect) == Init(c);
    while improved && remaining > 0
      invariant Fits(c, realAlloc[..])
      invariant Run(c, LoopState(realAlloc[..], remaining, improved, lastCount, lastPerfect)) == Run(c, Init(c))
      decreases Measure(LoopState(realAlloc[..], remaining, improved, lastCount, lastPerfect))
    {
      BottleneckIsConstrained(c, realAlloc[..]);
      remaining, improved, lastCount, lastPerfect := Pass(c, realAlloc, remaining, lastCount, lastPerfect);
    }
    final := if lastPerfect.Some? then lastPerfect.value else realAlloc[..];
  }

  /** `Object.keys(unitCost).sort()` gives inputs the allocator accepts. */
  lemma SortedInputsValid(unitCost: map<string, real>, stackSize: map<string, int>, names: seq<string>)
    requires |unitCost| > 0
    requires forall k :: k in unitCost ==> unitCost[k] > 0.0 && k in stackSize && stackSize[k] > 0
    requires |names| == |unitCost| && forall k :: k in names <==> k in unitCost
    ensures Valid(Cargo(names, unitCost, stackSize))
  {
    forall i | 0 <= i < |names|
      ensures names[i] in unitCost
    {
      assert names[i] in names;
    }
  }

  /** `computeAllocation` for the cost dictionary `unitCost` of one craft,
      the stack sizes of its items and the amount `primaryOutput` of the
      recipe's first product: the inputs in sorted order and the report of
      the allocation the loop settles on. */
  method ComputeAllocation(unitCost: map<string, real>, stackSize: map<string, int>, primaryOutput: real)
    returns (a: Allocation)
    requires |unitCost| > 0
    requires forall k :: k in unitCost ==> unitCost[k] > 0.0 && k in stackSize && stackSize[k] > 0
    ensures StrictlySorted(a.names) && |a.names| == |unitCost|
    ensures forall k :: k in a.names <==> k in unitCost
    ensures Valid(Cargo(a.names, unitCost, stackSize))
    ensures a == Allocate(Cargo(a.names, unitCost, stackSize), primaryOutput)
  {
    var names := SortedKeys(unitCost);
    var c := Cargo(names, unitCost, stackSize);
    SortedInputsValid(unitCost, stackSize, names);
    var n := |names|;
    var realAlloc := InitialAllocation(n);
    var final := Settle(c, realAlloc);
    a := Report(c, final, primaryOutput);
  }

  // ---------------------------------------------------------------------
  // Properties

  /** Every pass has something to grant: an input with the smallest output
      has load factor 1, so it is constrained. */
  lemma BottleneckIsConstrained(c: Cargo, alloc: seq<int>)
    requires Valid(c) && Fits(c, alloc)
    ensures |Constrained(c, alloc)| >= 1
    ensures BottleneckCount(c, alloc) >= 1
  {
    var i :| 0 <= i < |alloc| && OutputFrom(c, alloc, i) == Smallest(c, alloc);
    DivSelf(Smallest(c, alloc));
    RoundErrorIsOne(1.0);
    assert i in Constrained(c, alloc);
    BottlenecksCounted(c, alloc, |alloc|, i);
  }

  lemma DivSelf(x: real)
    requires x > 0.0
    ensures x / x == 1.0
  {
  }

  lemma {:induction false} BottlenecksCounted(c: Cargo, alloc: seq<int>, k: int, i: int)
    requires Valid(c) && Fits(c, alloc) && 0 <= i < k <= |alloc|
    requires OutputFrom(c, alloc, i) == Smallest(c, alloc)
    ensures BottlenecksBelow(c, alloc, k) >= 1
  {
    if i < k - 1 {
      BottlenecksCounted(c, alloc, k - 1, i);
    }
  }

  /** With distinct indices, `Grant` adds one stack exactly to the listed inputs. */
  lemma {:induction false} GrantContents(alloc: seq<int>, idx: seq<int>)
    requires forall j :: 0 <= j < |idx| ==> 0 <= idx[j] < |alloc|
    requires forall j1, j2 :: 0 <= j1 < j2 < |idx| ==> idx[j1] < idx[j2]
    ensures forall i :: 0 <= i < |alloc| ==> Grant(alloc, idx)[i] == if i in idx then alloc[i] + 1 else alloc[i]
  {
    if |idx| > 0 {
      var p := idx[..|idx| - 1];
      GrantContents(alloc, p);
      forall i | 0 <= i < |alloc|
        ensures Grant(alloc, idx)[i] == if i in idx then alloc[i] + 1 else alloc[i]
      {
        assert i in idx <==> i in p || i == idx[|idx| - 1];
        if i == idx[|idx| - 1] {
          assert i !in p;
        }
      }
    }
  }

  /** `Grant` takes one slot per listed index. */
  lemma {:induction false} GrantTotal(alloc: seq<int>, idx: seq<int>)
    requires forall j :: 0 <= j < |idx| ==> 0 <= idx[j] < |alloc|
    ensures Total(Grant(alloc, idx)) == Total(alloc) + |idx| as real
  {
    if |idx| > 0 {
      var before := Grant(alloc, idx[..|idx| - 1]);
      var i := idx[|idx| - 1];
      GrantTotal(alloc, idx[..|idx| - 1]);
      assert AsReals(before[i := before[i] + 1]) == AsReals(before)[i := AsReals(before)[i] + 1.0];
      SumUpdate(AsReals(before), i, 1.0);
    }
  }

  /** The initial allocation takes one slot per input. */
  lemma {:induction false} OnesTotal(n: nat)
    ensures Total(Ones(n)) == n as real
  {
    if n > 0 {
      OnesTotal(n - 1);
      assert AsReals(Ones(n))[..n - 1] == AsReals(Ones(n - 1));
    }
  }

  /** What every state of the loop satisfies: each input holds at least one
      stack; the stacks and the free slots add up to 40; a kept copy is an
      allocation whose bottleneck count is the recorded one, and no copy is
      kept only before the first pass; and with at most 40 inputs, free slots
      never go negative and a kept copy fits in the wagon. */
  ghost predicate Inv(c: Cargo, s: LoopState)
    requires Valid(c)
  {
    Fits(c, s.alloc) &&
    Total(s.alloc) == (Slots - s.remaining) as real &&
    (s.lastPerfect.Some? ==> Fits(c, s.lastPerfect.value) && s.lastCount == BottleneckCount(c, s.lastPerfect.value)) &&
    (s.lastPerfect.None? ==> s.lastCount == NoCount) &&
    (|c.names| <= Slots ==> s.remaining >= 0 && (s.lastPerfect.Some? ==> Total(s.lastPerfect.value) <= Slots as real))
  }

  lemma InitInvariant(c: Cargo)
    requires Valid(c)
    ensures Inv(c, Init(c))
  {
    OnesTotal(|c.names|);
  }

  lemma StepInvariant(c: Cargo, s: LoopState)
    requires Valid(c) && Inv(c, s)
    ensures Inv(c, Step(c, s))
  {
    StepBudget(c, s);
    SnapshotInvariant(c, s);
  }

  /** After one pass the stacks and the free slots still add up to 40, and
      with at most 40 inputs no slot count is negative. */
  lemma StepBudget(c: Cargo, s: LoopState)
    requires Valid(c) && Inv(c, s)
    ensures Total(Step(c, s).alloc) == (Slots - Step(c, s).remaining) as real
    ensures |c.names| <= Slots ==> Step(c, s).remaining >= 0
  {
    var idx := Constrained(c, s.alloc);
    var t := Step(c, s);
    if |idx| <= s.remaining {
      GrantTotal(s.alloc, idx);
      assert t.alloc == Grant(s.alloc, idx) && t.remaining == s.remaining - |idx|;
    } else {
      assert t.alloc == s.alloc && t.remaining == s.remaining;
    }
  }

  /** After one pass the kept copy, if any, fits and carries the recorded
      count, and it is either the new allocation or the copy kept before. */
  lemma SnapshotInvariant(c: Cargo, s: LoopState)
    requires Valid(c) && Inv(c, s)
    ensures Step(c, s).lastPerfect.Some? ==>
      Fits(c, Step(c, s).lastPerfect.value) && Step(c, s).lastCount == BottleneckCount(c, Step(c, s).lastPerfect.value)
    ensures Step(c, s).lastPerfect.None? ==> Step(c, s).lastCount == NoCount
    ensures Step(c, s).lastPerfect == Some(Step(c, s).alloc) || Step(c, s).lastPerfect == s.lastPerfect
  {
    var t := Step(c, s);
    if BottleneckCount(c, t.alloc) >= s.lastCount {
      assert t.lastPerfect == Some(t.alloc) && t.lastCount == BottleneckCount(c, t.alloc);
    } else {
      assert t.lastPerfect == s.lastPerfect && t.lastCount == s.lastCount;
    }
  }

  /** The invariant holds when the loop exits. */
  lemma {:induction false} RunInvariant(c: Cargo, s: LoopState)
    requires Valid(c) && Inv(c, s)
    ensures Inv(c, Run(c, s))
    decreases Measure(s)
  {
    if s.improved && s.remaining > 0 {
      BottleneckIsConstrained(c, s.alloc);
      StepInvariant(c, s);
      RunInvariant(c, Step(c, s));
    }
  }

  /** With at most 40 inputs the allocation returned fits in the wagon. */
  lemma WithinSlots(c: Cargo)
    requires Valid(c) && |c.names| <= Slots
    ensures Total(FinalAllocation(c)) <= Slots as real
  {
    InitInvariant(c);
    RunInvariant(c, Init(c));
  }

  /** With fewer than 40 inputs at least one pass runs, so the allocation
      returned is the copy the last pass that matched the best bottleneck
      count kept, and that count is the recorded one. */
  lemma FewInputs(c: Cargo)
    requires Valid(c) && |c.names| < Slots
    ensures Run(c, Init(c)).lastPerfect.Some?
    ensures FinalAllocation(c) == Run(c, Init(c)).lastPerfect.value
    ensures Run(c, Init(c)).lastCount == BottleneckCount(c, FinalAllocation(c)) >= 1
  {
    var s := Init(c);
    InitInvariant(c);
    StepInvariant(c, s);
    BottleneckIsConstrained(c, Step(c, s).alloc);
    RunKeepsCopy(c, Step(c, s));
    RunInvariant(c, s);
  }

  /** Once a copy is kept, one is kept to the end, with a count of at least
      one. */
  lemma {:induction false} RunKeepsCopy(c: Cargo, s: LoopState)
    requires Valid(c) && Fits(c, s.alloc) && s.lastPerfect.Some? && s.lastCount >= 1
    ensures Run(c, s).lastPerfect.Some? && Run(c, s).lastCount >= 1
    decreases Measure(s)
  {
    if s.improved && s.remaining > 0 {
      StepRecords(c, s);
      UnfoldPass(c, s);
      RunKeepsCopy(c, Step(c, s));
    }
  }

  /** With 40 inputs or more no pass runs (no slot is free) and every input
      gets exactly one stack. */
  lemma ManyInputs(c: Cargo)
    requires Valid(c) && |c.names| >= Slots
    ensures FinalAllocation(c) == Ones(|c.names|)
  {
  }

  /** Stacks are only ever added. */
  lemma {:induction false} RunOnlyAdds(c: Cargo, s: LoopState)
    requires Valid(c) && Fits(c, s.alloc)
    ensures forall i :: 0 <= i < |s.alloc| ==> Run(c, s).alloc[i] >= s.alloc[i]
    decreases Measure(s)
  {
    if s.improved && s.remaining > 0 {
      BottleneckIsConstrained(c, s.alloc);
      RunOnlyAdds(c, Step(c, s));
    }
  }

  /** The bottleneck count of every pass the loop runs from `s`, in order. */
  ghost function PassCounts(c: Cargo, s: LoopState): seq<nat>
    requires Valid(c) && Fits(c, s.alloc)
    decreases Measure(s)
  {
    if s.improved && s.remaining > 0 then
      BottleneckIsConstrained(c, s.alloc);
      [BottleneckCount(c, Step(c, s).alloc)] + PassCounts(c, Step(c, s))
    else []
  }

  /** The recorded count is the best of all passes (ties go to the later
      pass, whose copy replaces the earlier one), and it is one of them
      unless no pass beat the starting record. */
  lemma {:induction false} RecordIsBest(c: Cargo, s: LoopState)
    requires Valid(c) && Fits(c, s.alloc)
    ensures forall j :: 0 <= j < |PassCounts(c, s)| ==> PassCounts(c, s)[j] <= Run(c, s).lastCount
    ensures s.lastCount <= Run(c, s).lastCount
    ensures Run(c, s).lastCount == s.lastCount || Run(c, s).lastCount in PassCounts(c, s)
    decreases Measure(s)
  {
    if s.improved && s.remaining > 0 {
      BottleneckIsConstrained(c, s.alloc);
      var t := Step(c, s);
      RecordIsBest(c, t);
      StepRecords(c, s);
      UnfoldPass(c, s);
      var here, later := PassCounts(c, s), PassCounts(c, t);
      forall j | 0 < j < |here|
        ensures here[j] <= Run(c, s).lastCount
      {
        assert here[j] == later[j - 1];
      }
      assert Run(c, s).lastCount == s.lastCount || Run(c, s).lastCount == here[0] || Run(c, s).lastCount in later;
    }
  }

  /** One pass never lowers the record and keeps either the old one or its own count. */
  lemma StepRecords(c: Cargo, s: LoopState)
    requires Valid(c) && Fits(c, s.alloc)
    ensures BottleneckCount(c, Step(c, s).alloc) <= Step(c, s).lastCount
    ensures s.lastCount <= Step(c, s).lastCount
    ensures Step(c, s).lastCount == s.lastCount || Step(c, s).lastCount == BottleneckCount(c, Step(c, s).alloc)
  {
  }

  lemma UnfoldPass(c: Cargo, s: LoopState)
    requires Valid(c) && Fits(c, s.alloc) && s.improved && s.remaining > 0
    ensures PassCounts(c, s) == [BottleneckCount(c, Step(c, s).alloc)] + PassCounts(c, Step(c, s))
    ensures Run(c, s) == Run(c, Step(c, s))
  {
    BottleneckIsConstrained(c, s.alloc);
    BottleneckIsConstrained(c, Step(c, s).alloc);
  }

  lemma MulNonNegative(a: real, b: real)
    requires a >= 0.0 && b >= 0.0
    ensures a * b >= 0.0
  {
  }

  lemma FloorMul(s: real, cost: real, q: real)
    requires cost > 0.0 && s >= 0.0 && s <= q / cost
    ensures s.Floor as real * cost <= q
  {
    assert s.Floor as real <= s;
    assert s.Floor as real * cost <= s * cost;
    assert s * cost <= q;
  }

  /** No input is short: the stacks of every input cover the crafts the
      smallest output, rounded down, asks for. */
  lemma CoversFloor(s: real, o: real, cost: real, q: real)
    requires cost > 0.0 && 0.0 <= s <= o && o == q / cost
    ensures 0.0 <= Remainder(q, s, cost) <= q
  {
    FloorMul(s, cost, q);
    assert s.Floor >= 0;
    MulNonNegative(s.Floor as real, cost);
  }

  /** The report lists every input with `alloc[i]` stacks' worth of items. */
  lemma ReportQuantities(c: Cargo, alloc: seq<int>, primaryOutput: real)
    requires Valid(c) && Fits(c, alloc)
    ensures Report(c, alloc, primaryOutput).names == c.names
    ensures Report(c, alloc, primaryOutput).realAlloc == alloc
    ensures |Report(c, alloc, primaryOutput).quantity| == |c.names|
    ensures forall i :: 0 <= i < |c.names| ==>
      Report(c, alloc, primaryOutput).quantity[i] == alloc[i] as real * c.stackSize[c.names[i]] as real
  {
  }

  /** The reported output is what the bottleneck input yields: no input
      yields less. */
  lemma ReportOutput(c: Cargo, alloc: seq<int>, primaryOutput: real, i: int)
    requires Valid(c) && Fits(c, alloc) && 0 <= i < |alloc| && primaryOutput >= 0.0
    ensures Report(c, alloc, primaryOutput).output <= OutputFrom(c, alloc, i) * primaryOutput
  {
    MulMonotone(Smallest(c, alloc), OutputFrom(c, alloc, i), primaryOutput);
  }

  lemma MulMonotone(a: real, b: real, k: real)
    requires a <= b && k >= 0.0
    ensures a * k <= b * k
  {
  }
}
