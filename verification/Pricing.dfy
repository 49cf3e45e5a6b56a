/**
 Pricing of calls (internal/budget/pricing.go): the actual cost of a call and the worst-case
 estimate reserved for it beforehand. Prices and intermediate products are reals.
 */
module Pricing {

  datatype Price = Price(input: real, output: real, cachedInput: real)

  datatype Usage = Usage(prompt: int, completion: int, cached: int)

  datatype Priced = Priced(micros: int) | Unpriced

  function Ceil(v: real): int {
    -((-v).Floor)
  }

  /** Round half away from zero. */
  function Round(v: real): int {
    if v >= 0.0 then (v + 0.5).Floor else -((-v + 0.5).Floor)
  }

  function NotNegative(n: int): nat {
    if n < 0 then 0 else n
  }

  function CachedPrice(p: Price): real {
    if p.cachedInput == 0.0 then p.input else p.cachedInput
  }

  function Value(p: Price, uncached: real, cached: real, completion: real): real {
    uncached * p.input + cached * CachedPrice(p) + completion * p.output
  }

  function Cost(p: Price, u: Usage): int {
    var prompt, completion := NotNegative(u.prompt), NotNegative(u.completion);
    Round(Value(p, (prompt - u.cached) as real, u.cached as real, completion as real))
  }

  function CostMicros(prices: map<string, Price>, target: string, u: Usage): Priced {
    if target !in prices then Unpriced else Priced(Cost(prices[target], u))
  }

  const MAX_TOKENS := 10_000_000

  function CappedTokens(n: int): nat {
    if n > MAX_TOKENS then MAX_TOKENS else NotNegative(n)
  }

  function Worst(p: Price, prompt: real, most: real): real {
    prompt * p.input + most * p.output
  }

  function TargetEstimate(p: Price, prompt: nat, maxTokens: nat): int {
    Ceil(Worst(p, prompt as real, maxTokens as real))
  }

  /** The largest estimate of any of the targets, at least 0. */
  function LargestEstimate(prices: map<string, Price>, targets: seq<string>, prompt: nat, max: nat): nat
    requires forall t :: t in targets ==> t in prices
  {
    if targets == [] then 0
    else
      var rest := LargestEstimate(prices, targets[..|targets| - 1], prompt, max);
      var e := TargetEstimate(prices[targets[|targets| - 1]], prompt, max);
      if e > rest then e else rest
  }

  /** What is estimated for a list of targets, if all of them are priced. */
  function Estimate(prices: map<string, Price>, targets: seq<string>, promptTokens: int, maxTokens: int): Priced {
    if targets == [] || exists t :: t in targets && t !in prices then Unpriced
    else Priced(LargestEstimate(prices, targets, NotNegative(promptTokens), CappedTokens(maxTokens)))
  }

  lemma {:induction false} LargestCovers(prices: map<string, Price>, targets: seq<string>, prompt: nat, max: nat,
                                         t: string)
    requires t in targets && forall u :: u in targets ==> u in prices
    ensures TargetEstimate(prices[t], prompt, max) <= LargestEstimate(prices, targets, prompt, max)
    decreases |targets|
  {
    if t != targets[|targets| - 1] {
      LargestCovers(prices, targets[..|targets| - 1], prompt, max, t);
    }
  }

  lemma {:induction false} LargestAttained(prices: map<string, Price>, targets: seq<string>, prompt: nat, max: nat)
    requires forall u :: u in targets ==> u in prices
    ensures var most := LargestEstimate(prices, targets, prompt, max);
            most == 0 || exists t :: t in targets && TargetEstimate(prices[t], prompt, max) == most
    decreases |targets|
  {
    if targets != [] {
      LargestAttained(prices, targets[..|targets| - 1], prompt, max);
      assert targets[|targets| - 1] in targets;
    }
  }

  /** The estimate is a bound for every listed target, attained by one of them unless it is 0, and
      exists exactly when there is a target and all of them are priced. */
  method EstimateMaxMicros(prices: map<string, Price>, targets: seq<string>, promptTokens: int, maxTokens: int)
    returns (est: nat, ok: bool)
    ensures ok <==> targets != [] && forall t :: t in targets ==> t in prices
    ensures !ok ==> est == 0
    ensures ok ==> forall t :: t in targets ==>
              TargetEstimate(prices[t], NotNegative(promptTokens), CappedTokens(maxTokens)) <= est
    ensures ok && est > 0 ==>
              exists t :: t in targets
                          && est == TargetEstimate(prices[t], NotNegative(promptTokens), CappedTokens(maxTokens))
    ensures Estimate(prices, targets, promptTokens, maxTokens) == if ok then Priced(est) else Unpriced
  {
    if |targets| == 0 {
      return 0, false;
    }
    var max := CappedTokens(maxTokens);
    var prompt := NotNegative(promptTokens);
    est := 0;
    var i := 0;
    while i < |targets|
      invariant 0 <= i <= |targets|
      invariant forall j :: 0 <= j < i ==> targets[j] in prices
      invariant forall j :: 0 <= j < i ==> TargetEstimate(prices[targets[j]], prompt, max) <= est
      invariant est == LargestEstimate(prices, targets[..i], prompt, max)
      invariant est == 0 || exists j :: 0 <= j < i && est == TargetEstimate(prices[targets[j]], prompt, max)
    {
      if targets[i] !in prices {
        return 0, false;
      }
      assert targets[..i + 1][..i] == targets[..i];
      var e := TargetEstimate(prices[targets[i]], prompt, max);
      if e > est {
        est := e;
      }
      i := i + 1;
    }
    assert targets[..i] == targets;
    ok := true;
  }

  // ----- actual cost never exceeds the estimate

  lemma RoundWithinCeil(v: real, w: real)
    requires v <= w
    ensures Round(v) <= Ceil(w)
  {
    var c := Ceil(w);
    assert w <= c as real;
    if v < 0.0 {
      var f := (-v + 0.5).Floor;
      assert f as real <= -v + 0.5 < f as real + 1.0;
      assert -(f as real) < v + 0.5 <= c as real + 0.5;
    } else {
      var f := (v + 0.5).Floor;
      assert f as real <= v + 0.5 <= c as real + 0.5;
    }
  }

  lemma ScaleMore(a: real, b: real, p: real)
    requires a <= b && 0.0 <= p
    ensures a * p <= b * p
  {
  }

  lemma ScaleLess(a: real, c: real, i: real)
    requires 0.0 <= a && c <= i
    ensures a * c <= a * i
  {
    assert a * (i - c) >= 0.0;
  }

  lemma Gather(a: real, b: real, p: real)
    ensures a * p + b * p == (a + b) * p
  {
  }

  lemma BillBounded(i: real, o: real, c: real, uncached: real, cached: real, completion: real, prompt: real, most: real)
    requires 0.0 <= i && 0.0 <= o && c <= i && 0.0 <= cached && uncached + cached <= prompt && completion <= most
    ensures uncached * i + cached * c + completion * o <= prompt * i + most * o
  {
    ScaleLess(cached, c, i);
    Gather(uncached, cached, i);
    ScaleMore(uncached + cached, prompt, i);
    ScaleMore(completion, most, o);
  }

  lemma ValueBounded(p: Price, uncached: real, cached: real, completion: real, prompt: real, most: real)
    requires Sane(p) && 0.0 <= cached && uncached + cached <= prompt && completion <= most
    ensures Value(p, uncached, cached, completion) <= Worst(p, prompt, most)
  {
    BillBounded(p.input, p.output, CachedPrice(p), uncached, cached, completion, prompt, most);
  }

  /** The usage stays within what was estimated. */
  predicate WithinEstimate(u: Usage, promptTokens: int, maxTokens: int) {
    && 0 <= u.cached && NotNegative(u.prompt) <= NotNegative(promptTokens)
    && NotNegative(u.completion) <= CappedTokens(maxTokens)
  }

  /** Non-negative prices, and cached input no dearer than input. */
  predicate Sane(p: Price) {
    0.0 <= p.input && 0.0 <= p.output && CachedPrice(p) <= p.input
  }

  /** A call within its estimated usage costs at most the estimate of its target. */
  lemma CostWithinEstimate(p: Price, u: Usage, promptTokens: int, maxTokens: int)
    requires Sane(p) && WithinEstimate(u, promptTokens, maxTokens)
    ensures Cost(p, u) <= TargetEstimate(p, NotNegative(promptTokens), CappedTokens(maxTokens))
  {
    var prompt, completion := NotNegative(u.prompt), NotNegative(u.completion);
    var est, most := NotNegative(promptTokens) as real, CappedTokens(maxTokens) as real;
    SplitSum(prompt, u.cached);
    RoundedBounded(p, (prompt - u.cached) as real, u.cached as real, completion as real, est, most);
  }

  ghost predicate EstimateBounds(p: Price) {
    forall u, prompt, max :: WithinEstimate(u, prompt, max)
      ==> Cost(p, u) <= TargetEstimate(p, NotNegative(prompt), CappedTokens(max))
  }

  /** For non-negative prices, the estimate bounds every call within it exactly when cached input is no
      dearer than input: the code reserves the plain input price. */
  lemma EstimateBoundsIff(p: Price)
    requires 0.0 <= p.input && 0.0 <= p.output
    ensures EstimateBounds(p) <==> CachedPrice(p) <= p.input
  {
    if CachedPrice(p) <= p.input {
      forall u, prompt, max | WithinEstimate(u, prompt, max)
        ensures Cost(p, u) <= TargetEstimate(p, NotNegative(prompt), CappedTokens(max))
      {
        CostWithinEstimate(p, u, prompt, max);
      }
    } else {
      var n := Enough(CachedPrice(p), p.input);
      CachedOverrun(p, n);
      assert WithinEstimate(Usage(n, 0, n), n, 0);
    }
  }

  /** So many units that a dearer price costs two more. */
  lemma Enough(dear: real, cheap: real) returns (n: nat)
    requires dear > cheap
    ensures n as real * dear > n as real * cheap + 2.0
  {
    var d := dear - cheap;
    var q := 2.0 / d;
    n := q.Floor + 1;
    ScaleStrictly(q, n as real, d);
    DivTimes(2.0, d);
    Spread(n as real, dear, cheap);
  }

  lemma DivTimes(a: real, d: real)
    requires d > 0.0
    ensures a / d * d == a
  {
  }

  lemma Spread(x: real, a: real, b: real)
    ensures x * (a - b) == x * a - x * b
  {
  }

  lemma ScaleStrictly(a: real, b: real, d: real)
    requires a < b && 0.0 < d
    ensures a * d < b * d
  {
  }

  lemma OneTerm(p: Price, x: real)
    ensures Value(p, 0.0, x, 0.0) == x * CachedPrice(p) && Worst(p, x, 0.0) == x * p.input
  {
  }

  lemma CachedOverrun(p: Price, n: nat)
    requires n as real * CachedPrice(p) > n as real * p.input + 2.0
    ensures Cost(p, Usage(n, 0, n)) > TargetEstimate(p, n, 0)
  {
    var x := n as real;
    OneTerm(p, x);
    assert Cost(p, Usage(n, 0, n)) == Round(Value(p, 0.0, x, 0.0));
    assert TargetEstimate(p, n, 0) == Ceil(Worst(p, x, 0.0));
    FarApart(Value(p, 0.0, x, 0.0), Worst(p, x, 0.0));
  }

  lemma FarApart(v: real, w: real)
    requires v > w + 2.0
    ensures Round(v) > Ceil(w)
  {
    RoundNearest(v);
    CeilNear(w);
  }

  lemma RoundNearest(v: real)
    ensures v - 0.5 <= Round(v) as real <= v + 0.5
  {
  }

  lemma CeilNear(v: real)
    ensures v <= Ceil(v) as real < v + 1.0
  {
  }

  /** What the cached part of a prompt saves. */
  function Discount(p: Price, cached: real): real {
    cached * (p.input - CachedPrice(p))
  }

  /** The cost is the worst case of the usage itself less the cached discount, to the nearest micro. */
  lemma CostIsBillLessDiscount(p: Price, u: Usage)
    ensures var bill := Worst(p, NotNegative(u.prompt) as real, NotNegative(u.completion) as real);
            var v := bill - Discount(p, u.cached as real);
            v - 0.5 <= Cost(p, u) as real <= v + 0.5
  {
    var prompt, completion := NotNegative(u.prompt), NotNegative(u.completion);
    SplitSum(prompt, u.cached);
    ValueSplit(p, (prompt - u.cached) as real, u.cached as real, completion as real);
    RoundNearest(Value(p, (prompt - u.cached) as real, u.cached as real, completion as real));
  }

  lemma ValueSplit(p: Price, uncached: real, cached: real, completion: real)
    ensures Value(p, uncached, cached, completion) == Worst(p, uncached + cached, completion) - Discount(p, cached)
  {
  }

  /** The estimate is no larger than it must be: a call that uses all of it with nothing cached costs the
      estimate or one micro less. */
  lemma EstimateTight(p: Price, prompt: nat, max: nat)
    ensures TargetEstimate(p, prompt, max) - 1 <= Cost(p, Usage(prompt, max, 0)) <= TargetEstimate(p, prompt, max)
  {
    var v := Worst(p, prompt as real, max as real);
    ValueSplit(p, prompt as real, 0.0, max as real);
    assert Value(p, prompt as real, 0.0, max as real) == v;
    RoundWithinCeil(v, v);
    RoundNearest(v);
    CeilNear(v);
  }

  lemma SplitSum(a: int, b: int)
    ensures (a - b) as real + b as real == a as real
  {
  }

  lemma RoundedBounded(p: Price, uncached: real, cached: real, completion: real, prompt: real, most: real)
    requires Sane(p) && 0.0 <= cached && uncached + cached <= prompt && completion <= most
    ensures Round(Value(p, uncached, cached, completion)) <= Ceil(Worst(p, prompt, most))
  {
    ValueBounded(p, uncached, cached, completion, prompt, most);
    RoundWithinCeil(Value(p, uncached, cached, completion), Worst(p, prompt, most));
  }

  lemma ValueNotNegative(p: Price, uncached: real, cached: real, completion: real)
    requires Sane(p) && 0.0 <= p.cachedInput && 0.0 <= cached && 0.0 <= uncached && 0.0 <= completion
    ensures Value(p, uncached, cached, completion) >= 0.0
  {
    ScaleMore(0.0, uncached, p.input);
    ScaleMore(0.0, cached, CachedPrice(p));
    ScaleMore(0.0, completion, p.output);
  }

  lemma RoundNotNegative(v: real)
    requires v >= 0.0
    ensures Round(v) >= 0
  {
    assert (v + 0.5).Floor as real + 1.0 > v + 0.5;
  }

  /** And it is not negative when the cached tokens are part of the prompt. */
  lemma CostNotNegative(p: Price, u: Usage)
    requires Sane(p) && 0.0 <= p.cachedInput && 0 <= u.cached <= NotNegative(u.prompt)
    ensures Cost(p, u) >= 0
  {
    var uncached, cached := (NotNegative(u.prompt) - u.cached) as real, u.cached as real;
    var completion := NotNegative(u.completion) as real;
    ValueNotNegative(p, uncached, cached, completion);
    RoundNotNegative(Value(p, uncached, cached, completion));
  }

  // ----- the cap on output tokens

  /** The usage stays within what the request asked for, before the cap. */
  predicate WithinRequest(u: Usage, promptTokens: int, maxTokens: int) {
    && 0 <= u.cached && NotNegative(u.prompt) <= NotNegative(promptTokens)
    && NotNegative(u.completion) <= NotNegative(maxTokens)
  }

  ghost predicate CapHolds(p: Price, promptTokens: int, maxTokens: int) {
    forall u :: WithinRequest(u, promptTokens, maxTokens)
      ==> Cost(p, u) <= TargetEstimate(p, NotNegative(promptTokens), CappedTokens(maxTokens))
  }

  lemma RoundGrows(v: real, w: real)
    requires v <= w
    ensures Round(v) <= Round(w)
  {
  }

  /** No usage within the request costs more than using all of it with nothing cached. */
  lemma CostWithinRequest(p: Price, u: Usage, promptTokens: int, maxTokens: int)
    requires Sane(p) && WithinRequest(u, promptTokens, maxTokens)
    ensures Cost(p, u) <= Round(Worst(p, NotNegative(promptTokens) as real, NotNegative(maxTokens) as real))
  {
    var prompt, completion := NotNegative(u.prompt), NotNegative(u.completion);
    var uncached, cached := (prompt - u.cached) as real, u.cached as real;
    var est, most := NotNegative(promptTokens) as real, NotNegative(maxTokens) as real;
    SplitSum(prompt, u.cached);
    ValueBounded(p, uncached, cached, completion as real, est, most);
    RoundGrows(Value(p, uncached, cached, completion as real), Worst(p, est, most));
  }

  lemma FullCost(p: Price, prompt: nat, max: nat)
    ensures Cost(p, Usage(prompt, max, 0)) == Round(Worst(p, prompt as real, max as real))
  {
    ValueSplit(p, prompt as real, 0.0, max as real);
  }

  /** The cap on output tokens is harmless for a request exactly when it does not apply, or when the
      uncapped worst case, rounded, still fits in the capped estimate. */
  lemma CapHoldsIff(p: Price, promptTokens: int, maxTokens: int)
    requires Sane(p)
    ensures var prompt := NotNegative(promptTokens) as real;
            CapHolds(p, promptTokens, maxTokens) <==>
              || maxTokens <= MAX_TOKENS
              || Round(Worst(p, prompt, maxTokens as real)) <= Ceil(Worst(p, prompt, MAX_TOKENS as real))
  {
    if maxTokens <= MAX_TOKENS {
      forall u | WithinRequest(u, promptTokens, maxTokens)
        ensures Cost(p, u) <= TargetEstimate(p, NotNegative(promptTokens), CappedTokens(maxTokens))
      {
        CostWithinEstimate(p, u, promptTokens, maxTokens);
      }
    } else {
      var n := NotNegative(promptTokens);
      FullCost(p, n, maxTokens);
      assert WithinRequest(Usage(n, maxTokens, 0), promptTokens, maxTokens);
      forall u | WithinRequest(u, promptTokens, maxTokens)
        ensures Cost(p, u) <= Round(Worst(p, n as real, maxTokens as real))
      {
        CostWithinRequest(p, u, promptTokens, maxTokens);
      }
    }
  }

  /** For example: twenty million output tokens at one micro each. */
  lemma CapCanBeOutrun()
    ensures var p := Price(0.0, 1.0, 0.0);
            && WithinRequest(Usage(0, 20_000_000, 0), 0, 20_000_000)
            && Cost(p, Usage(0, 20_000_000, 0)) == 20_000_000
            && TargetEstimate(p, 0, CappedTokens(20_000_000)) == 10_000_000
  {
    var p := Price(0.0, 1.0, 0.0);
    assert CappedTokens(20_000_000) == 10_000_000;
    assert TargetEstimate(p, 0, 10_000_000) == Ceil(10_000_000.0);
    assert Cost(p, Usage(0, 20_000_000, 0)) == Round(20_000_000.0);
  }

  lemma RoundSign(v: real)
    ensures Round(v) >= 0 <==> v > -0.5
  {
  }

  /** Exactly when a cost is not negative: the cached discount, less half a micro, does not reach the plain
      price of the usage. */
  lemma CostNotNegativeIff(p: Price, u: Usage)
    ensures var bill := Worst(p, NotNegative(u.prompt) as real, NotNegative(u.completion) as real);
            Cost(p, u) >= 0 <==> Discount(p, u.cached as real) < bill + 0.5
  {
    var prompt, completion := NotNegative(u.prompt), NotNegative(u.completion);
    SplitSum(prompt, u.cached);
    ValueSplit(p, (prompt - u.cached) as real, u.cached as real, completion as real);
    RoundSign(Value(p, (prompt - u.cached) as real, u.cached as real, completion as real));
  }

  /** For example, a hundred cached tokens at half price beyond an empty prompt. */
  lemma CostCanBeNegative()
    ensures var p := Price(1.0, 1.0, 0.5);
            Sane(p) && Cost(p, Usage(0, 0, 100)) == -50
  {
    var p := Price(1.0, 1.0, 0.5);
    assert Value(p, -100.0, 100.0, 0.0) == -50.0;
    assert Cost(p, Usage(0, 0, 100)) == Round(-50.0);
  }

  /** Without a discount, cached tokens beyond the prompt cost nothing. */
  lemma NoDiscountNoLoss(p: Price, n: nat)
    requires CachedPrice(p) == p.input
    ensures Cost(p, Usage(0, 0, n)) == 0
  {
    var x := n as real;
    assert Discount(p, x) == 0.0;
    assert Worst(p, 0.0, 0.0) == 0.0;
    SplitSum(0, n);
    ValueSplit(p, (0 - n) as real, x, 0.0);
    assert Value(p, (0 - n) as real, x, 0.0) == 0.0;
  }

  // ----- edge cases of the cost

  /** Rounding is to the nearest integer, ties away from zero. */
  lemma RoundTies(n: int)
    ensures Round(n as real) == n
    ensures n >= 0 ==> Round(n as real + 0.5) == n + 1 && Round(-(n as real) - 0.5) == -n - 1
  {
  }

  /** When no cached price is listed, cached tokens cost what plain ones do. */
  lemma UnlistedCachedPrice(p: Price, prompt: int, completion: int, cached: int)
    requires p.cachedInput == 0.0
    ensures Cost(p, Usage(prompt, completion, cached)) == Cost(p, Usage(prompt, completion, 0))
  {
    var n, c := NotNegative(prompt), NotNegative(completion) as real;
    assert Discount(p, cached as real) == 0.0 == Discount(p, 0.0);
    SplitSum(n, cached);
    ValueSplit(p, (n - cached) as real, cached as real, c);
    ValueSplit(p, n as real, 0.0, c);
  }

  /** A listed one replaces the input price for the cached part. */
  lemma ListedCachedPrice(p: Price, x: real)
    requires p.cachedInput != 0.0
    ensures Discount(p, x) == x * (p.input - p.cachedInput)
  {
  }

  /** Negative token counts cost nothing. */
  lemma NegativeTokensFree(p: Price, prompt: int, completion: int)
    requires prompt <= 0 && completion <= 0
    ensures Cost(p, Usage(prompt, completion, 0)) == 0
  {
    ValueSplit(p, 0.0, 0.0, 0.0);
    assert Worst(p, 0.0, 0.0) == 0.0 && Discount(p, 0.0) == 0.0;
    RoundTies(0);
  }

  /** For example, at 3 per prompt token, 15 per completion token and a cached price of 1: 800 plain and 200 cached
      prompt tokens and 500 completion tokens. */
  lemma KnownCost()
    ensures Cost(Price(3.0, 15.0, 1.0), Usage(1000, 500, 200)) == 10_100
  {
    var p := Price(3.0, 15.0, 1.0);
    assert Value(p, 800.0, 200.0, 500.0) == 10_100.0;
    RoundTies(10_100);
  }
}
