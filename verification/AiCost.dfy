/**
 Cost of a model call in micros (packages/contracts/src/automation-ai.ts): prices are micros per
 million tokens, and the exact price is rounded up once, over both kinds of tokens.
 */
module AiCost {
  import opened Wrappers

  const MAX_SAFE: int := 9007199254740991
  const MILLION: int := 1000000
  const PROMPT_OVERHEAD: int := 8192

  /** A number as the callers hand it in; anything but a whole number fails the schema. */
  datatype Number = Whole(value: int) | Fraction

  datatype Usage = Usage(inputTokens: Number, outputTokens: Number)

  datatype Model = Model(name: string, inputPrice: Number, outputPrice: Number)

  datatype Error = UsageInvalid | PriceInvalid | CostOverflow

  datatype Outcome = Cost(micros: int) | Failed(error: Error)

  predicate IsInteger(n: Number) {
    n.Whole? && 0 <= n.value <= MAX_SAFE
  }

  predicate IsAlphanumeric(c: char) {
    'A' <= c <= 'Z' || 'a' <= c <= 'z' || '0' <= c <= '9'
  }

  predicate IsModelName(name: string) {
    1 <= |name| <= 200 && IsAlphanumeric(name[0]) &&
    forall i :: 1 <= i < |name| ==> IsAlphanumeric(name[i]) || name[i] in "._:/-"
  }

  predicate ValidUsage(usage: Usage) {
    IsInteger(usage.inputTokens) && IsInteger(usage.outputTokens)
  }

  predicate ValidModel(model: Model) {
    IsModelName(model.name) && IsInteger(model.inputPrice) && IsInteger(model.outputPrice)
  }

  /** Millionths of a micro: the price before rounding. */
  function Exact(model: Model, usage: Usage): (e: nat)
    requires ValidModel(model) && ValidUsage(usage)
  {
    ProductIsNat(usage.inputTokens.value, model.inputPrice.value);
    ProductIsNat(usage.outputTokens.value, model.outputPrice.value);
    usage.inputTokens.value * model.inputPrice.value + usage.outputTokens.value * model.outputPrice.value
  }

  lemma ProductIsNat(a: int, b: int)
    requires a >= 0 && b >= 0
    ensures a * b >= 0
  {
  }

  /** The least whole number of micros that pays the price of both kinds of tokens, in millionths of a micro. */
  function EstimateAiCost(model: Model, usage: Usage): (r: Outcome)
    ensures r == Failed(UsageInvalid) <==> !ValidUsage(usage)
    ensures r == Failed(PriceInvalid) <==> ValidUsage(usage) && !ValidModel(model)
    ensures r == Failed(CostOverflow) <==>
      && ValidUsage(usage) && ValidModel(model)
      && usage.inputTokens.value * model.inputPrice.value + usage.outputTokens.value * model.outputPrice.value
           > 9007199254740991 * 1000000
    ensures r.Cost? ==>
      && ValidUsage(usage) && ValidModel(model) && 0 <= r.micros <= 9007199254740991
      && (r.micros - 1) * 1000000
           < usage.inputTokens.value * model.inputPrice.value + usage.outputTokens.value * model.outputPrice.value
           <= r.micros * 1000000
  {
    if !ValidUsage(usage) then Failed(UsageInvalid)
    else if !ValidModel(model) then Failed(PriceInvalid)
    else
      var micro := (Exact(model, usage) + 999999) / MILLION;
      if micro > MAX_SAFE then Failed(CostOverflow) else Cost(micro)
  }

  /** Worst case of a configured call: one input token per byte of content plus a fixed overhead. */
  function MaximumAiCost(contentBytes: nat, maxOutputTokens: Number, model: Model): Outcome {
    EstimateAiCost(model, Usage(Whole(contentBytes + PROMPT_OVERHEAD), maxOutputTokens))
  }

  predicate Within(small: Usage, large: Usage)
    requires ValidUsage(small) && ValidUsage(large)
  {
    small.inputTokens.value <= large.inputTokens.value && small.outputTokens.value <= large.outputTokens.value
  }

  lemma ExactIsMonotone(model: Model, small: Usage, large: Usage)
    requires ValidModel(model) && ValidUsage(small) && ValidUsage(large) && Within(small, large)
    ensures Exact(model, small) <= Exact(model, large)
  {
    ProductIsMonotone(small.inputTokens.value, large.inputTokens.value, model.inputPrice.value);
    ProductIsMonotone(small.outputTokens.value, large.outputTokens.value, model.outputPrice.value);
  }

  lemma ProductIsMonotone(a: int, b: int, c: int)
    requires a <= b && c >= 0
    ensures a * c <= b * c
  {
  }

  /** A call that stays within a priced one is priced too, and costs no more. */
  lemma CostIsMonotone(model: Model, small: Usage, large: Usage)
    requires ValidUsage(small) && ValidUsage(large) && Within(small, large)
    requires EstimateAiCost(model, large).Cost?
    ensures EstimateAiCost(model, small).Cost?
    ensures EstimateAiCost(model, small).micros <= EstimateAiCost(model, large).micros
  {
    ExactIsMonotone(model, small, large);
  }

  /** The reservation made before the call covers every usage the provider may report within the limits. */
  lemma MaximumCoversEveryUsage(contentBytes: nat, maxOutputTokens: Number, model: Model, usage: Usage)
    requires MaximumAiCost(contentBytes, maxOutputTokens, model).Cost?
    requires ValidUsage(usage)
    requires usage.inputTokens.value <= contentBytes + PROMPT_OVERHEAD
    requires usage.outputTokens.value <= maxOutputTokens.value
    ensures EstimateAiCost(model, usage).Cost?
    ensures EstimateAiCost(model, usage).micros <= MaximumAiCost(contentBytes, maxOutputTokens, model).micros
  {
    CostIsMonotone(model, usage, Usage(Whole(contentBytes + PROMPT_OVERHEAD), maxOutputTokens));
  }

  ghost predicate AllValid(parts: seq<Usage>) {
    forall i :: 0 <= i < |parts| ==> ValidUsage(parts[i])
  }

  /** The usage of several calls taken as one. */
  function Total(parts: seq<Usage>): (t: Usage)
    requires AllValid(parts)
    ensures t.inputTokens.Whole? && t.outputTokens.Whole?
    ensures t.inputTokens.value >= 0 && t.outputTokens.value >= 0
  {
    if parts == [] then Usage(Whole(0), Whole(0))
    else
      var rest := Total(parts[1..]);
      Usage(Whole(parts[0].inputTokens.value + rest.inputTokens.value),
            Whole(parts[0].outputTokens.value + rest.outputTokens.value))
  }

  /** What several calls cost when each is charged on its own. */
  function SumOfCosts(model: Model, parts: seq<Usage>): Option<int> {
    if parts == [] then Some(0)
    else
      var first, rest := EstimateAiCost(model, parts[0]), SumOfCosts(model, parts[1..]);
      if first.Cost? && rest.Some? then Some(first.micros + rest.value) else None
  }

  /**
   Charging calls one by one is never cheaper than charging them together, and k calls are at most
   k - 1 micros dearer.
   */
  lemma {:induction false} SplittingCostsAtMostOneMicroACut(model: Model, parts: seq<Usage>)
    requires |parts| > 0 && AllValid(parts)
    requires EstimateAiCost(model, Total(parts)).Cost?
    ensures SumOfCosts(model, parts).Some?
    ensures var whole := EstimateAiCost(model, Total(parts)).micros;
      whole <= SumOfCosts(model, parts).value <= whole + |parts| - 1
  {
    var first, rest := parts[0], parts[1..];
    if rest == [] {
      assert Total(rest) == Usage(Whole(0), Whole(0));
      assert Total(parts) == first;
      assert SumOfCosts(model, rest) == Some(0);
    } else {
      var whole, tail := Total(parts), Total(rest);
      CostIsMonotone(model, first, whole);
      CostIsMonotone(model, tail, whole);
      SplittingCostsAtMostOneMicroACut(model, rest);
      ExactIsAdditive(model, first, tail, whole);
    }
  }

  lemma ExactIsAdditive(model: Model, first: Usage, rest: Usage, whole: Usage)
    requires ValidModel(model) && ValidUsage(first) && ValidUsage(rest) && ValidUsage(whole)
    requires whole.inputTokens.value == first.inputTokens.value + rest.inputTokens.value
    requires whole.outputTokens.value == first.outputTokens.value + rest.outputTokens.value
    ensures Exact(model, whole) == Exact(model, first) + Exact(model, rest)
  {
    Distributes(first.inputTokens.value, rest.inputTokens.value, model.inputPrice.value);
    Distributes(first.outputTokens.value, rest.outputTokens.value, model.outputPrice.value);
  }

  lemma Distributes(a: int, b: int, c: int)
    ensures (a + b) * c == a * c + b * c
  {
  }

  /** The bound is met: k calls of one cheap token each are charged k micros instead of one. */
  lemma {:induction false} SplittingBoundIsMet(k: nat)
    requires 1 <= k <= MILLION
    ensures var model := Model("m", Whole(1), Whole(0));
      var parts := seq(k, i => Usage(Whole(1), Whole(0)));
      AllValid(parts) && Total(parts) == Usage(Whole(k), Whole(0)) &&
      EstimateAiCost(model, Total(parts)) == Cost(1) && SumOfCosts(model, parts) == Some(k)
  {
    var model := Model("m", Whole(1), Whole(0));
    var parts := seq(k, i => Usage(Whole(1), Whole(0)));
    var rest := seq(k - 1, i => Usage(Whole(1), Whole(0)));
    assert parts[1..] == rest;
    assert EstimateAiCost(model, parts[0]) == Cost(1);
    if k == 1 {
      assert rest == [];
      assert SumOfCosts(model, rest) == Some(0);
    } else {
      SplittingBoundIsMet(k - 1);
    }
  }
}
