/**
 * test.js: weighted random choice over a population (cumulative weights
 * and a lower-bound binary search), an integer range, and a uniform pick.
 * Every `Math.random()` is a `Draw`; the k draws of one `randomChoices`
 * call are the stream `draws`.
 */
module Choices {
  import opened Pointer

  /** The `population` argument: an array, or any other value. */
  datatype Population<T> = Items(items: seq<T>) | NotAnArray

  /** The destructured options object `{ weights, cumWeights, k = 1 }`. */
  datatype ChoiceOptions = ChoiceOptions(weights: Option<seq<real>>, cumWeights: Option<seq<real>>, k: Option<int>)

  /** The errors thrown: a population that is not an array, both kinds of weights, an empty array. */
  datatype ChoiceError = PopulationNotArray | BothWeights | EmptyArray

  predicate Sorted(s: seq<real>) {
    forall i, j :: 0 <= i <= j < |s| ==> s[i] <= s[j]
  }

  /** A sequence whose neighbours never decrease is sorted. */
  lemma ConsecutiveSorted(s: seq<real>)
    requires forall i :: 0 < i < |s| ==> s[i - 1] <= s[i]
    ensures Sorted(s)
  {
    forall i, j | 0 <= i <= j < |s|
      ensures s[i] <= s[j]
    {
      var m := i;
      while m < j
        invariant i <= m <= j
        invariant s[i] <= s[m]
      {
        m := m + 1;
      }
    }
  }

  /** The sum of the weights. */
  function Sum(s: seq<real>): real {
    if s == [] then 0.0 else Sum(s[..|s| - 1]) + s[|s| - 1]
  }

  /** Entry `i` is the sum of the first `i + 1` weights. */
  function PrefixSums(weights: seq<real>): (cum: seq<real>)
    ensures |cum| == |weights|
  {
    seq(|weights|, i requires 0 <= i < |weights| => Sum(weights[..i + 1]))
  }

  /** Each prefix sum adds one weight to the previous one, so the weights are their differences. */
  lemma PrefixSumsDifferences(weights: seq<real>)
    ensures var cum := PrefixSums(weights);
      (|weights| > 0 ==> cum[0] == weights[0]) &&
      forall i :: 0 < i < |weights| ==> cum[i] - cum[i - 1] == weights[i]
  {
    var cum := PrefixSums(weights);
    if |weights| > 0 {
      assert weights[..1][..0] == [];
      assert cum[0] == Sum(weights[..1]) == Sum([]) + weights[0];
    }
    forall i | 0 < i < |weights|
      ensures cum[i] - cum[i - 1] == weights[i]
    {
      assert weights[..i + 1][..i] == weights[..i];
      assert cum[i] == Sum(weights[..i + 1]) == Sum(weights[..i]) + weights[i];
    }
  }

  /** The last cumulative weight, the `total` of `randomChoices`, is the sum of all weights. */
  lemma TotalIsSum(weights: seq<real>)
    ensures Total(PrefixSums(weights)) == Sum(weights)
  {
    if |weights| > 0 {
      assert weights[..|weights|] == weights;
    }
  }

  /** Non-negative weights give a sorted cumulative array whose last entry is their sum. */
  lemma PrefixSumsSorted(weights: seq<real>)
    requires forall i :: 0 <= i < |weights| ==> weights[i] >= 0.0
    ensures Sorted(PrefixSums(weights))
    ensures |weights| > 0 ==> PrefixSums(weights)[|weights| - 1] == Sum(weights) >= 0.0
  {
    PrefixSumsDifferences(weights);
    ConsecutiveSorted(PrefixSums(weights));
    if |weights| > 0 {
      assert weights[..|weights|] == weights;
    }
  }

  /** `reduce` in test.js: push the first weight, then each weight plus the previous entry. */
  method CumulativeWeights(weights: seq<real>) returns (cum: seq<real>)
    ensures cum == PrefixSums(weights)
  {
    cum := [];
    var i := 0;
    while i < |weights|
      invariant 0 <= i <= |weights|
      invariant |cum| == i
      invariant forall j :: 0 <= j < i ==> cum[j] == Sum(weights[..j + 1])
    {
      assert weights[..i + 1][..i] == weights[..i];
      var c := if i == 0 then weights[i] else weights[i] + cum[i - 1];
      cum := cum + [c];
      i := i + 1;
    }
  }

  /** The default weights `population.map((_, i) => i + 1)`. */
  function EqualWeights(n: nat): (cum: seq<real>)
    ensures |cum| == n
  {
    seq(n, i requires 0 <= i < n => (i + 1) as real)
  }

  lemma {:induction false} SumOfOnes(n: nat)
    ensures Sum(seq(n, _ => 1.0)) == n as real
  {
    if n > 0 {
      assert seq(n, _ => 1.0)[..n - 1] == seq(n - 1, _ => 1.0);
      SumOfOnes(n - 1);
    }
  }

  /** The default weights are the cumulative weights of n unit weights. */
  lemma EqualWeightsAreUnitPrefixSums(n: nat)
    ensures EqualWeights(n) == PrefixSums(seq(n, _ => 1.0))
  {
    var ones := seq(n, _ => 1.0);
    forall i | 0 <= i < n
      ensures EqualWeights(n)[i] == PrefixSums(ones)[i]
    {
      assert ones[..i + 1] == seq(i + 1, _ => 1.0);
      SumOfOnes(i + 1);
    }
  }

  /** The cumulative array: a copy of `cumWeights`, the prefix sums of `weights`, or the default. */
  function Cumulative(n: nat, options: ChoiceOptions): seq<real> {
    if options.cumWeights.Some? then options.cumWeights.value
    else if options.weights.Some? then PrefixSums(options.weights.value)
    else EqualWeights(n)
  }

  /** `cumulative[cumulative.length - 1] || 0`. */
  function Total(cum: seq<real>): real {
    if cum == [] then 0.0 else cum[|cum| - 1]
  }

  /** The length of `Array.from({ length: k })`: a negative k gives no picks. */
  function PickCount(k: Option<int>): nat {
    var n := k.GetOr(1);
    if n < 0 then 0 else n
  }

  /** `i` splits `cum` at `rand`: every entry before it is below, the one at it is not. */
  predicate Splits(cum: seq<real>, rand: real, i: int) {
    0 <= i <= |cum| && (i == 0 || cum[i - 1] < rand) && (i == |cum| || cum[i] >= rand)
  }

  /** The first index whose entry is at least `rand`, or `|cum|` if none is. */
  function FirstAtLeast(cum: seq<real>, rand: real): (i: nat)
    ensures i <= |cum|
    ensures forall j :: 0 <= j < i ==> cum[j] < rand
    ensures i < |cum| ==> cum[i] >= rand
  {
    if cum == [] then 0
    else if cum[0] >= rand then 0
    else 1 + FirstAtLeast(cum[1..], rand)
  }

  /** The binary search of test.js between `left` and `right` inclusive; `>> 1` of a non-negative sum halves it. */
  function Search(cum: seq<real>, rand: real, left: int, right: int): (i: int)
    requires 0 <= left <= right + 1 <= |cum|
    ensures left <= i <= right + 1
    decreases right + 1 - left
  {
    if left > right then left
    else
      var mid := (left + right) / 2;
      if cum[mid] < rand then Search(cum, rand, mid + 1, right)
      else Search(cum, rand, left, mid - 1)
  }

  /** The search keeps entries left of `left` below `rand` and right of `right` not, so it ends at a split. */
  lemma {:induction false} SearchSplits(cum: seq<real>, rand: real, left: int, right: int)
    requires 0 <= left <= right + 1 <= |cum|
    requires left == 0 || cum[left - 1] < rand
    requires right + 1 == |cum| || cum[right + 1] >= rand
    ensures Splits(cum, rand, Search(cum, rand, left, right))
    decreases right + 1 - left
  {
    if left <= right {
      var mid := (left + right) / 2;
      if cum[mid] < rand {
        SearchSplits(cum, rand, mid + 1, right);
      } else {
        SearchSplits(cum, rand, left, mid - 1);
      }
    }
  }

  /** In a sorted array the only split is the first index at or above `rand`. */
  lemma SplitIsFirst(cum: seq<real>, rand: real, i: int)
    requires Sorted(cum) && Splits(cum, rand, i)
    ensures i == FirstAtLeast(cum, rand)
  {
  }

  /** On sorted cumulative weights the search is a lower bound: the first entry at or above `rand`. */
  lemma SearchIsLowerBound(cum: seq<real>, rand: real)
    requires Sorted(cum)
    ensures Search(cum, rand, 0, |cum| - 1) == FirstAtLeast(cum, rand)
  {
    SearchSplits(cum, rand, 0, |cum| - 1);
    SplitIsFirst(cum, rand, Search(cum, rand, 0, |cum| - 1));
  }

  /** The `while (left <= right)` loop of `randomChoices`. */
  method LowerBound(cum: seq<real>, rand: real) returns (left: int)
    ensures left == Search(cum, rand, 0, |cum| - 1)
    ensures Splits(cum, rand, left)
  {
    left := 0;
    var right := |cum| - 1;
    while left <= right
      invariant 0 <= left <= right + 1 <= |cum|
      invariant left == 0 || cum[left - 1] < rand
      invariant right + 1 == |cum| || cum[right + 1] >= rand
      invariant Search(cum, rand, left, right) == Search(cum, rand, 0, |cum| - 1)
      decreases right + 1 - left
    {
      var mid := (left + right) / 2;
      if cum[mid] < rand {
        left := mid + 1;
      } else {
        right := mid - 1;
      }
    }
  }

  /** `Math.random() * total`: in [0, total) for a positive total. */
  function RandomBelow(r: Draw, total: real): (rand: real)
    ensures total > 0.0 ==> 0.0 <= rand < total
  {
    if total > 0.0 then ScaleBelow(r, total); r * total else r * total
  }

  /** One pick: search for `Math.random() * total`. */
  function Pick<T>(population: seq<T>, cum: seq<real>, total: real, r: Draw): (p: Option<T>)
    ensures p.Some? <==> |population| > 0
    ensures p.Some? ==> p.value in population
  {
    PickAt(population, cum, RandomBelow(r, total))
  }

  /** `population[Math.min(left, population.length - 1)]` for the search's `left`; undefined for an empty population. */
  function PickAt<T>(population: seq<T>, cum: seq<real>, rand: real): (p: Option<T>)
    ensures p.Some? <==> |population| > 0
    ensures p.Some? ==> p.value in population
  {
    var left := Search(cum, rand, 0, |cum| - 1);
    var i := if left < |population| - 1 then left else |population| - 1;
    if 0 <= i then Some(population[i]) else None
  }

  /** `randomChoices(population, options)`, pick `j` drawing `draws(j)`. */
  function Choices<T>(population: Population<T>, options: ChoiceOptions, draws: nat -> Draw): (res: Result<seq<Option<T>>, ChoiceError>)
    ensures res.Err? <==> population.NotAnArray? || (options.weights.Some? && options.cumWeights.Some?)
    ensures population.NotAnArray? ==> res == Err(PopulationNotArray)
    ensures population.Items? && options.weights.Some? && options.cumWeights.Some? ==> res == Err(BothWeights)
    ensures res.Ok? ==> |res.value| == PickCount(options.k)
  {
    if population.NotAnArray? then Err(PopulationNotArray)
    else if options.weights.Some? && options.cumWeights.Some? then Err(BothWeights)
    else
      var cum := Cumulative(|population.items|, options);
      Ok(seq(PickCount(options.k), j requires 0 <= j => Pick(population.items, cum, Total(cum), draws(j))))
  }

  /** Pick `j` of a successful call is `Pick` with the cumulative weights, their total and `draws(j)`. */
  lemma ChoicesPicks<T>(population: seq<T>, options: ChoiceOptions, draws: nat -> Draw)
    requires !(options.weights.Some? && options.cumWeights.Some?)
    ensures var res := Choices(Items(population), options, draws);
      var cum := Cumulative(|population|, options);
      res.Ok? && forall j :: 0 <= j < |res.value| ==> res.value[j] == Pick(population, cum, Total(cum), draws(j))
  {
  }

  /** Every pick of a successful call is an element of the population, and none is missing unless the population is empty. */
  lemma PicksFromPopulation<T>(population: seq<T>, options: ChoiceOptions, draws: nat -> Draw)
    requires !(options.weights.Some? && options.cumWeights.Some?)
    ensures var res := Choices(Items(population), options, draws);
      res.Ok? &&
      (forall j :: 0 <= j < |res.value| ==> (res.value[j].Some? <==> |population| > 0)) &&
      (forall j :: 0 <= j < |res.value| && res.value[j].Some? ==> res.value[j].value in population)
  {
    ChoicesPicks(population, options, draws);
  }

  /**
   * With non-negative weights, a value `rand` in [0, sum) lies inside the
   * cumulative array: the pick is the element at the first entry at or
   * above it.
   */
  lemma WeightedSearch<T>(population: seq<T>, weights: seq<real>, rand: real)
    requires |population| == |weights|
    requires forall i :: 0 <= i < |weights| ==> weights[i] >= 0.0
    requires 0.0 <= rand < Sum(weights)
    ensures var i := FirstAtLeast(PrefixSums(weights), rand);
      i < |weights| && PickAt(population, PrefixSums(weights), rand) == Some(population[i])
  {
    assert |weights| > 0;
    PrefixSumsSorted(weights);
    SearchFindsInterval(PrefixSums(weights), rand);
  }

  /**
   * The index found for `rand` in [0, sum) is the element whose weight
   * interval holds it: the weights before it add up to less than `rand`,
   * the weights up to it to at least `rand`.
   */
  lemma WeightedInterval(weights: seq<real>, rand: real)
    requires forall i :: 0 <= i < |weights| ==> weights[i] >= 0.0
    requires 0.0 <= rand < Sum(weights)
    ensures var i := FirstAtLeast(PrefixSums(weights), rand);
      i < |weights| && (i == 0 || Sum(weights[..i]) < rand) && rand <= Sum(weights[..i + 1])
  {
    var cum := PrefixSums(weights);
    assert |weights| > 0;
    PrefixSumsSorted(weights);
    SearchFindsInterval(cum, rand);
    var i := FirstAtLeast(cum, rand);
    assert cum[i] == Sum(weights[..i + 1]);
    if i > 0 {
      assert cum[i - 1] == Sum(weights[..i]);
    }
  }

  /** In a sorted array whose last entry exceeds `rand`, the search stops inside the array, at the first entry at or above `rand`. */
  lemma SearchFindsInterval(cum: seq<real>, rand: real)
    requires Sorted(cum) && cum != [] && rand < cum[|cum| - 1]
    ensures FirstAtLeast(cum, rand) < |cum|
    ensures Search(cum, rand, 0, |cum| - 1) == FirstAtLeast(cum, rand)
  {
    SearchIsLowerBound(cum, rand);
  }

  /**
   * With non-negative weights of positive sum, a pick drawing `r` is the
   * element at the first cumulative weight at or above `r` times the sum;
   * every pick of `randomChoices` is one of these (`ChoicesPicks`).
   */
  lemma WeightedPick<T>(population: seq<T>, weights: seq<real>, r: Draw)
    requires |population| == |weights|
    requires forall i :: 0 <= i < |weights| ==> weights[i] >= 0.0
    requires Sum(weights) > 0.0
    ensures var cum := PrefixSums(weights);
      var i := FirstAtLeast(cum, RandomBelow(r, Sum(weights)));
      i < |population| && Pick(population, cum, Total(cum), r) == Some(population[i])
  {
    TotalIsSum(weights);
    WeightedSearch(population, weights, RandomBelow(r, Sum(weights)));
  }

  /**
   * The call at test.js:62-63 passes the weights as a plain array: no option
   * is destructured from it, so the pick uses the default equal weights.
   */
  lemma PositionalWeightsIgnored<T>(population: seq<T>, draws: nat -> Draw)
    requires |population| > 0
    ensures var res := Choices(Items(population), ChoiceOptions(None, None, None), draws);
      Cumulative(|population|, ChoiceOptions(None, None, None)) == PrefixSums(seq(|population|, _ => 1.0)) &&
      res.Ok? && |res.value| == 1 && res.value[0].Some? && res.value[0].value in population
  {
    EqualWeightsAreUnitPrefixSums(|population|);
    PicksFromPopulation(population, ChoiceOptions(None, None, None), draws);
  }

  /** `randomChoices`: validate, build the cumulative weights, and search once per pick. */
  method RandomChoices<T>(population: Population<T>, options: ChoiceOptions, draws: nat -> Draw)
    returns (res: Result<seq<Option<T>>, ChoiceError>)
    ensures res == Choices(population, options, draws)
  {
    if population.NotAnArray? {
      return Err(PopulationNotArray);
    }
    if options.weights.Some? && options.cumWeights.Some? {
      return Err(BothWeights);
    }
    var items := population.items;
    var cum: seq<real>;
    if options.cumWeights.Some? {
      cum := options.cumWeights.value;
    } else if options.weights.Some? {
      cum := CumulativeWeights(options.weights.value);
    } else {
      cum := EqualWeights(|items|);
    }
    assert cum == Cumulative(|items|, options);
    var picks := PickEach(items, cum, Total(cum), PickCount(options.k), draws);
    ChoicesPicks(items, options, draws);
    assert picks == Choices(population, options, draws).value;
    return Ok(picks);
  }

  /** `Array.from({ length: k }, ...)`: one pick per draw, in order. */
  method PickEach<T>(items: seq<T>, cum: seq<real>, total: real, count: nat, draws: nat -> Draw)
    returns (picks: seq<Option<T>>)
    ensures |picks| == count
    ensures forall m :: 0 <= m < count ==> picks[m] == Pick(items, cum, total, draws(m))
  {
    picks := [];
    var j := 0;
    while j < count
      invariant 0 <= j <= count
      invariant |picks| == j
      invariant forall m :: 0 <= m < j ==> picks[m] == Pick(items, cum, total, draws(m))
    {
      var p := PickOne(items, cum, total, draws(j));
      picks := picks + [p];
      j := j + 1;
    }
  }

  /** The callback of `Array.from`: scale the draw by the total, search, and clamp the index. */
  method PickOne<T>(items: seq<T>, cum: seq<real>, total: real, r: Draw) returns (p: Option<T>)
    ensures p == Pick(items, cum, total, r)
  {
    var rand := r * total;
    assert rand == RandomBelow(r, total);
    var left := LowerBound(cum, rand);
    var i := if left < |items| - 1 then left else |items| - 1;
    p := if 0 <= i then Some(items[i]) else None;
  }

  /** `range(start, end)`: the integers from `start` up to, not including, `end`. */
  function Range(start: int, end: int): (r: seq<int>)
    ensures |r| == if end > start then end - start else 0
  {
    seq(if end > start then end - start else 0, i requires 0 <= i => start + i)
  }

  /** A range holds exactly the integers in [start, end), in increasing order. */
  lemma RangeMembers(start: int, end: int)
    ensures forall x :: x in Range(start, end) <==> start <= x < end
    ensures forall i, j :: 0 <= i < j < |Range(start, end)| ==> Range(start, end)[i] < Range(start, end)[j]
  {
    forall x | start <= x < end
      ensures x in Range(start, end)
    {
      assert Range(start, end)[x - start] == x;
    }
  }

  /** Adjacent ranges concatenate. */
  lemma RangeConcat(a: int, b: int, c: int)
    requires a <= b <= c
    ensures Range(a, b) + Range(b, c) == Range(a, c)
  {
  }

  /** `Math.floor(Math.random() * n)`: index `i` is drawn exactly when `r * n` lies in [i, i + 1). */
  function RandomIndex(n: nat, r: Draw): (i: int)
    requires n > 0
    ensures 0 <= i < n
    ensures i as real <= r * n as real < i as real + 1.0
  {
    ScaleBelow(r, n as real);
    (r * n as real).Floor
  }

  /** `randomChoice(arr)`: throws on an empty array, otherwise a uniformly indexed element. */
  function RandomChoice<T>(arr: seq<T>, r: Draw): (res: Result<T, ChoiceError>)
    ensures res.Err? <==> |arr| == 0
    ensures res.Err? ==> res.error == EmptyArray
    ensures res.Ok? ==> res.value in arr
  {
    if |arr| == 0 then Err(EmptyArray) else Ok(arr[RandomIndex(|arr|, r)])
  }

  /**
   * The demo at test.js:57: a weighted pick among [20, 45], [45, 75] and
   * [75, 100], spread into `range`, then a uniform pick from that range, is
   * an integer in [20, 100).
   */
  lemma DemoChoice(draws: nat -> Draw, r: Draw)
    ensures var res := Choices(Items([(20, 45), (45, 75), (75, 100)]), ChoiceOptions(Some([0.2, 0.65, 0.15]), None, None), draws);
      res.Ok? && |res.value| == 1 && res.value[0].Some? &&
      var choice := RandomChoice(Range(res.value[0].value.0, res.value[0].value.1), r);
      choice.Ok? && 20 <= choice.value < 100
  {
    var population := [(20, 45), (45, 75), (75, 100)];
    var res := Choices(Items(population), ChoiceOptions(Some([0.2, 0.65, 0.15]), None, None), draws);
    PicksFromPopulation(population, ChoiceOptions(Some([0.2, 0.65, 0.15]), None, None), draws);
    var pair := res.value[0].value;
    assert pair in population;
    RangeMembers(pair.0, pair.1);
    assert pair.0 in Range(pair.0, pair.1);
  }
}
