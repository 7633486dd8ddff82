/**
 The price of a turn: priced on its total usage, or call by call where the rate of a call
 depends on its prompt length or on fast mode. Money is `real`; rounding is not modelled.
 */
module TurnCost {
  import opened Options

  datatype Rates = Rates(input: real, output: real, cacheRead: Option<real>, cacheWrite: Option<real>, cacheWrite5m: Option<real>)

  datatype LongPrompt = LongPrompt(above: int, rates: Rates)

  /** One row of the model catalog. */
  datatype Pricing = Pricing(base: Rates, longPrompt: Option<LongPrompt>, fastMultiplier: Option<real>)

  datatype Usage = Usage(
    promptTokens: int,
    completionTokens: int,
    cachedInput: Option<int>,
    cacheCreation: Option<int>,
    cacheCreation5m: Option<int>,
    fast: bool)

  datatype Cost = Cost(input: real, cache: real, cacheRead: real, cacheWrite: real, output: real, total: real)

  const NO_COST := Cost(0.0, 0.0, 0.0, 0.0, 0.0, 0.0)

  function Plus(a: Cost, b: Cost): Cost {
    Cost(a.input + b.input, a.cache + b.cache, a.cacheRead + b.cacheRead, a.cacheWrite + b.cacheWrite,
         a.output + b.output, a.total + b.total)
  }

  function Or(o: Option<int>): int { if o.Some? then o.value else 0 }

  function Max0(n: int): nat { if n > 0 then n else 0 }

  function Min(a: int, b: int): int { if a <= b then a else b }

  function RatesForPrompt(p: Pricing, promptTokens: int): Rates {
    if p.longPrompt.Some? && promptTokens > p.longPrompt.value.above then p.longPrompt.value.rates else p.base
  }

  function ReadRate(r: Rates): real { if r.cacheRead.Some? then r.cacheRead.value else r.input }

  function WriteRate(r: Rates): real { if r.cacheWrite.Some? then r.cacheWrite.value else r.input }

  function Write5mRate(r: Rates): real { if r.cacheWrite5m.Some? then r.cacheWrite5m.value else WriteRate(r) }

  /** The tokens of a call, by the rate that bills them. */
  datatype Buckets = Buckets(regular: nat, read: nat, write: nat, write5m: nat, output: int)

  function BucketsOf(u: Usage): Buckets {
    var read, write := Max0(Or(u.cachedInput)), Max0(Or(u.cacheCreation));
    var write5m := Min(write, Max0(Or(u.cacheCreation5m)));
    Buckets(Max0(u.promptTokens - read - write), read, write - write5m, write5m, u.completionTokens)
  }

  function Amount(tokens: int, rate: real): real { tokens as real * rate }

  function Bill(amount: real, scale: real): real { amount * scale / 1000000.0 }

  function PriceAt(r: Rates, scale: real, b: Buckets): Cost {
    var input := Bill(Amount(b.regular, r.input), scale);
    var read := Bill(Amount(b.read, ReadRate(r)), scale);
    var write := Bill(Amount(b.write, WriteRate(r)) + Amount(b.write5m, Write5mRate(r)), scale);
    var output := Bill(Amount(b.output, r.output), scale);
    Cost(input, read + write, read, write, output, input + (read + write) + output)
  }

  function Scale(p: Pricing, fast: bool): real {
    if fast && p.fastMultiplier.Some? then p.fastMultiplier.value else 1.0
  }

  /** The price of one call, or nothing when the model is not in the catalog. */
  function EstimateCost(row: Option<Pricing>, u: Usage): Cost {
    if row.None? then NO_COST
    else PriceAt(RatesForPrompt(row.value, u.promptTokens), Scale(row.value, u.fast), BucketsOf(u))
  }

  /** The definition: a turn costs what its calls cost. */
  function SumOfCalls(row: Option<Pricing>, calls: seq<Usage>): Cost {
    if calls == [] then NO_COST
    else Plus(SumOfCalls(row, calls[..|calls| - 1]), EstimateCost(row, calls[|calls| - 1]))
  }

  predicate PricedPerCall(row: Option<Pricing>, calls: seq<Usage>) {
    (row.Some? && row.value.longPrompt.Some?) || exists i :: 0 <= i < |calls| && calls[i].fast
  }

  function TurnCost(row: Option<Pricing>, total: Usage, calls: Option<seq<Usage>>): Cost {
    if calls.None? || calls.value == [] || !PricedPerCall(row, calls.value) then EstimateCost(row, total)
    else SumOfCalls(row, calls.value)
  }

  method EstimateTurnCostBreakdown(row: Option<Pricing>, total: Usage, calls: Option<seq<Usage>>) returns (sum: Cost)
    ensures sum == TurnCost(row, total, calls)
  {
    var perCall := (row.Some? && row.value.longPrompt.Some?) ||
                   (calls.Some? && exists i :: 0 <= i < |calls.value| && calls.value[i].fast);
    if !perCall || calls.None? || calls.value == [] {
      return EstimateCost(row, total);
    }
    sum := NO_COST;
    for i := 0 to |calls.value|
      invariant sum == SumOfCalls(row, calls.value[..i])
    {
      assert calls.value[..i + 1][..|calls.value[..i + 1]| - 1] == calls.value[..i];
      var c := EstimateCost(row, calls.value[i]);
      sum := Cost(sum.input + c.input, sum.cache + c.cache, sum.cacheRead + c.cacheRead, sum.cacheWrite + c.cacheWrite,
                  sum.output + c.output, sum.total + c.total);
    }
    assert calls.value[..|calls.value|] == calls.value;
  }

  // ---------------------------------------------------------------- what a call is billed at

  /** Over the threshold a call costs what it would at a model whose only rates are the long ones; else the base ones. */
  lemma {:induction false} RatesByPromptLength(p: Pricing, u: Usage)
    ensures (p.longPrompt.Some? && u.promptTokens > p.longPrompt.value.above) ==>
              EstimateCost(Some(p), u) == EstimateCost(Some(Pricing(p.longPrompt.value.rates, None, p.fastMultiplier)), u)
    ensures !(p.longPrompt.Some? && u.promptTokens > p.longPrompt.value.above) ==>
              EstimateCost(Some(p), u) == EstimateCost(Some(Pricing(p.base, None, p.fastMultiplier)), u)
  {
  }

  /** A count as billed: what is missing or negative is none. */
  function Counted(o: Option<int>): nat {
    match o
    case None => 0
    case Some(n) => if n < 0 then 0 else n
  }

  /**
   Each part of a call's price at plain list rates: cached tokens at their own rates, or at the
   input rate where the row has none; 5-minute writes, at most all writes, apart from the rest;
   what is left of the prompt at the input rate.
   */
  lemma {:induction false} PartsOfCall(r: Rates, u: Usage)
    requires !u.fast
    ensures var c := EstimateCost(Some(Pricing(r, None, None)), u);
            var (read, write, write5m) := (Counted(u.cachedInput), Counted(u.cacheCreation), Counted(u.cacheCreation5m));
            var readRate := if r.cacheRead == None then r.input else r.cacheRead.value;
            var writeRate := if r.cacheWrite == None then r.input else r.cacheWrite.value;
            var short := if write5m > write then write else write5m;
            && c.cacheRead * 1000000.0 == read as real * readRate
            && c.cacheWrite * 1000000.0
            == (write - short) as real * writeRate
               + short as real * (if r.cacheWrite5m == None then writeRate else r.cacheWrite5m.value)
            && c.input * 1000000.0 == (if read + write > u.promptTokens then 0.0 else (u.promptTokens - read - write) as real * r.input)
            && c.output * 1000000.0 == u.completionTokens as real * r.output
            && c.cache == c.cacheRead + c.cacheWrite && c.total == c.input + c.cache + c.output
  {
    BucketsMean(u);
    BilledParts(r, BucketsOf(u));
    assert EstimateCost(Some(Pricing(r, None, None)), u) == PriceAt(r, 1.0, BucketsOf(u));
    hide PriceAt, BucketsOf, EstimateCost, Counted;
  }

  lemma {:induction false} BucketsMean(u: Usage)
    ensures var b := BucketsOf(u);
            var (read, write, write5m) := (Counted(u.cachedInput), Counted(u.cacheCreation), Counted(u.cacheCreation5m));
            && b.read == read && b.write5m == (if write5m > write then write else write5m) && b.write == write - b.write5m
            && b.regular == (if read + write > u.promptTokens then 0 else u.promptTokens - read - write)
            && b.output == u.completionTokens
  {
  }

  lemma {:induction false} BilledParts(r: Rates, b: Buckets)
    ensures var c := PriceAt(r, 1.0, b);
            && c.input * 1000000.0 == b.regular as real * r.input
            && c.cacheRead * 1000000.0 == b.read as real * ReadRate(r)
            && c.cacheWrite * 1000000.0 == b.write as real * WriteRate(r) + b.write5m as real * Write5mRate(r)
            && c.output * 1000000.0 == b.output as real * r.output
            && c.cache == c.cacheRead + c.cacheWrite && c.total == c.input + c.cache + c.output
  {
    BillIs(Amount(b.regular, r.input));
    BillIs(Amount(b.read, ReadRate(r)));
    BillIs(Amount(b.write, WriteRate(r)) + Amount(b.write5m, Write5mRate(r)));
    BillIs(Amount(b.output, r.output));
    hide Bill;
  }

  lemma {:induction false} BillIs(amount: real)
    ensures Bill(amount, 1.0) * 1000000.0 == amount
  {
  }

  /** A model that is not in the catalog costs nothing. */
  lemma {:induction false} UnknownIsFree(u: Usage, total: Usage, calls: Option<seq<Usage>>)
    ensures EstimateCost(None, u) == Cost(0.0, 0.0, 0.0, 0.0, 0.0, 0.0)
    ensures TurnCost(None, total, calls) == Cost(0.0, 0.0, 0.0, 0.0, 0.0, 0.0)
  {
    if calls.Some? {
      SumOfFree(calls.value);
    }
  }

  lemma {:induction false} SumOfFree(calls: seq<Usage>)
    ensures SumOfCalls(None, calls) == NO_COST
  {
    if calls != [] {
      SumOfFree(calls[..|calls| - 1]);
    }
  }

  datatype CostPart = InputPart | CachePart | ReadPart | WritePart | OutputPart | TotalPart

  function PartOf(c: Cost, part: CostPart): real {
    match part
    case InputPart => c.input
    case CachePart => c.cache
    case ReadPart => c.cacheRead
    case WritePart => c.cacheWrite
    case OutputPart => c.output
    case TotalPart => c.total
  }

  function SumOfPart(row: Option<Pricing>, calls: seq<Usage>, part: CostPart): real {
    if calls == [] then 0.0
    else SumOfPart(row, calls[..|calls| - 1], part) + PartOf(EstimateCost(row, calls[|calls| - 1]), part)
  }

  lemma {:induction false} SumsByPart(row: Option<Pricing>, calls: seq<Usage>, part: CostPart)
    ensures PartOf(SumOfCalls(row, calls), part) == SumOfPart(row, calls, part)
  {
    if calls != [] {
      SumsByPart(row, calls[..|calls| - 1], part);
    }
  }

  /**
   How a turn is priced, well-formed or not: part by part over its reported calls when the model
   has long rates or a call ran fast, and on its total otherwise or when none was reported.
   */
  lemma {:induction false} TurnPricedBy(row: Option<Pricing>, total: Usage, calls: Option<seq<Usage>>, part: CostPart)
    ensures PartOf(TurnCost(row, total, calls), part)
         == if calls.Some? && calls.value != []
               && ((row.Some? && row.value.longPrompt.Some?) || exists i :: 0 <= i < |calls.value| && calls.value[i].fast)
            then SumOfPart(row, calls.value, part)
            else PartOf(EstimateCost(row, total), part)
  {
    if calls.Some? {
      SumsByPart(row, calls.value, part);
    }
  }

  // ---------------------------------------------------------------- every price

  ghost predicate RatesOk(r: Rates) {
    r.input >= 0.0 && r.output >= 0.0 && ReadRate(r) >= 0.0 && WriteRate(r) >= 0.0 && Write5mRate(r) >= 0.0
  }

  ghost predicate PricingOk(row: Option<Pricing>) {
    row.Some? ==>
      && RatesOk(row.value.base)
      && (row.value.longPrompt.Some? ==> RatesOk(row.value.longPrompt.value.rates))
      && (row.value.fastMultiplier.Some? ==> row.value.fastMultiplier.value >= 0.0)
  }

  ghost predicate AddsUp(c: Cost) {
    && c.total == c.input + c.cache + c.output
    && c.cache == c.cacheRead + c.cacheWrite
    && c.input >= 0.0 && c.cacheRead >= 0.0 && c.cacheWrite >= 0.0 && c.output >= 0.0
  }

  lemma {:induction false} AmountBounds(tokens: int, rate: real)
    requires tokens >= 0 && rate >= 0.0
    ensures Amount(tokens, rate) >= 0.0
  {
  }

  lemma {:induction false} BillBounds(amount: real, scale: real)
    requires amount >= 0.0 && scale >= 0.0
    ensures Bill(amount, scale) >= 0.0
  {
  }

  lemma {:induction false} PriceAddsUp(r: Rates, scale: real, b: Buckets)
    requires RatesOk(r) && scale >= 0.0 && b.output >= 0
    ensures AddsUp(PriceAt(r, scale, b))
  {
    hide Amount, Bill;
    AmountBounds(b.regular, r.input);
    AmountBounds(b.read, ReadRate(r));
    AmountBounds(b.write, WriteRate(r));
    AmountBounds(b.write5m, Write5mRate(r));
    AmountBounds(b.output, r.output);
    BillBounds(Amount(b.regular, r.input), scale);
    BillBounds(Amount(b.read, ReadRate(r)), scale);
    BillBounds(Amount(b.write, WriteRate(r)) + Amount(b.write5m, Write5mRate(r)), scale);
    BillBounds(Amount(b.output, r.output), scale);
  }

  lemma {:induction false} CallAddsUp(row: Option<Pricing>, u: Usage)
    requires PricingOk(row) && u.completionTokens >= 0
    ensures AddsUp(EstimateCost(row, u))
  {
    hide PriceAt;
    if row.Some? {
      PriceAddsUp(RatesForPrompt(row.value, u.promptTokens), Scale(row.value, u.fast), BucketsOf(u));
    }
  }

  lemma {:induction false} CallsAddUp(row: Option<Pricing>, calls: seq<Usage>)
    requires PricingOk(row) && forall i :: 0 <= i < |calls| ==> calls[i].completionTokens >= 0
    ensures AddsUp(SumOfCalls(row, calls))
  {
    hide EstimateCost;
    if calls != [] {
      CallsAddUp(row, calls[..|calls| - 1]);
      CallAddsUp(row, calls[|calls| - 1]);
    }
  }

  /** However a turn is priced, its parts are not negative and its total is their sum. */
  lemma {:induction false} TurnAddsUp(row: Option<Pricing>, total: Usage, calls: Option<seq<Usage>>)
    requires PricingOk(row) && total.completionTokens >= 0
    requires calls.Some? ==> forall i :: 0 <= i < |calls.value| ==> calls.value[i].completionTokens >= 0
    ensures AddsUp(TurnCost(row, total, calls)) && TurnCost(row, total, calls).total >= 0.0
  {
    hide EstimateCost;
    CallAddsUp(row, total);
    if calls.Some? {
      CallsAddUp(row, calls.value);
    }
  }

  /**
   A call costs its whole prompt at the input rate, corrected for what was cached: reads and
   writes by how far their rates are from the input rate, 5-minute writes from the write rate.
   */
  lemma {:induction false} CostIsCorrectedFullPrice(p: Pricing, u: Usage)
    requires WellFormed(u) && !u.fast
    ensures var r := RatesForPrompt(p, u.promptTokens);
            EstimateCost(Some(p), u).total * 1000000.0 ==
              u.promptTokens as real * r.input + u.completionTokens as real * r.output
              + Or(u.cachedInput) as real * (ReadRate(r) - r.input)
              + Or(u.cacheCreation) as real * (WriteRate(r) - r.input)
              + Or(u.cacheCreation5m) as real * (Write5mRate(r) - WriteRate(r))
  {
    var r, b := RatesForPrompt(p, u.promptTokens), BucketsOf(u);
    BucketsWellFormed(u);
    FullPrice(r, b);
    hide PriceAt;
    AmountGap(Or(u.cachedInput), ReadRate(r), r.input);
    AmountGap(Or(u.cacheCreation), WriteRate(r), r.input);
    AmountGap(Or(u.cacheCreation5m), Write5mRate(r), WriteRate(r));
    AmountAdds(b.regular, b.read, r.input);
    AmountAdds(b.regular + b.read, Or(u.cacheCreation), r.input);
    AmountAdds(b.write, b.write5m, WriteRate(r));
  }

  lemma {:induction false} AmountGap(n: int, a: real, b: real)
    ensures n as real * (a - b) == Amount(n, a) - Amount(n, b)
  {
  }

  lemma {:induction false} FullPrice(r: Rates, b: Buckets)
    ensures PriceAt(r, 1.0, b).total * 1000000.0
         == Amount(b.regular, r.input) + Amount(b.read, ReadRate(r)) + Amount(b.write, WriteRate(r))
            + Amount(b.write5m, Write5mRate(r)) + Amount(b.output, r.output)
  {
    hide Amount;
  }

  /** Every part of a fast call's price is a multiple of that part at standard speed, or the same when none is catalogued. */
  lemma {:induction false} FastMultiplies(p: Pricing, u: Usage, part: CostPart)
    ensures PartOf(EstimateCost(Some(p), u.(fast := true)), part)
         == PartOf(EstimateCost(Some(p), u.(fast := false)), part) * (if p.fastMultiplier.Some? then p.fastMultiplier.value else 1.0)
  {
    var r, b := RatesForPrompt(p, u.promptTokens), BucketsOf(u);
    ScaleParts(r, Scale(p, true), b, part);
    hide PriceAt, PartOf;
    assert BucketsOf(u.(fast := true)) == b && BucketsOf(u.(fast := false)) == b;
  }

  lemma {:induction false} ScaleParts(r: Rates, scale: real, b: Buckets, part: CostPart)
    ensures PartOf(PriceAt(r, scale, b), part) == PartOf(PriceAt(r, 1.0, b), part) * scale
  {
    hide Amount, Bill;
    BillScales(Amount(b.regular, r.input), scale);
    BillScales(Amount(b.read, ReadRate(r)), scale);
    BillScales(Amount(b.write, WriteRate(r)) + Amount(b.write5m, Write5mRate(r)), scale);
    BillScales(Amount(b.output, r.output), scale);
    var one := PriceAt(r, 1.0, b);
    assert (one.cacheRead + one.cacheWrite) * scale == one.cacheRead * scale + one.cacheWrite * scale;
    assert (one.input + one.cache + one.output) * scale == one.input * scale + one.cache * scale + one.output * scale;
  }

  lemma {:induction false} BillScales(amount: real, scale: real)
    ensures Bill(amount, scale) == Bill(amount, 1.0) * scale
  {
  }

  // ---------------------------------------------------------------- the shortcut against the definition

  /** Usage as the gateway reports it: cached tokens are part of the prompt, 5-minute writes part of the writes. */
  ghost predicate WellFormed(u: Usage) {
    && u.completionTokens >= 0
    && 0 <= Or(u.cachedInput) && 0 <= Or(u.cacheCreation) && 0 <= Or(u.cacheCreation5m)
    && Or(u.cachedInput) + Or(u.cacheCreation) <= u.promptTokens
    && Or(u.cacheCreation5m) <= Or(u.cacheCreation)
  }

  ghost predicate AllWellFormed(calls: seq<Usage>) {
    forall i :: 0 <= i < |calls| ==> WellFormed(calls[i])
  }

  function AddCount(a: Option<int>, b: Option<int>): Option<int> {
    if a.None? && b.None? then None else Some(Or(a) + Or(b))
  }

  function AddUsage(a: Usage, b: Usage): Usage {
    Usage(a.promptTokens + b.promptTokens, a.completionTokens + b.completionTokens,
          AddCount(a.cachedInput, b.cachedInput), AddCount(a.cacheCreation, b.cacheCreation),
          AddCount(a.cacheCreation5m, b.cacheCreation5m), a.fast || b.fast)
  }

  /** The usage of a turn is the sum over its calls. */
  function SumUsage(calls: seq<Usage>): Usage {
    if calls == [] then Usage(0, 0, None, None, None, false)
    else AddUsage(SumUsage(calls[..|calls| - 1]), calls[|calls| - 1])
  }

  lemma {:induction false} SumWellFormed(calls: seq<Usage>)
    requires AllWellFormed(calls)
    ensures WellFormed(SumUsage(calls))
    ensures SumUsage(calls).fast <==> exists i :: 0 <= i < |calls| && calls[i].fast
    ensures forall i :: 0 <= i < |calls| ==> calls[i].promptTokens <= SumUsage(calls).promptTokens
  {
    if calls != [] {
      var n := |calls| - 1;
      SumWellFormed(calls[..n]);
      assert forall i :: 0 <= i < n ==> calls[..n][i] == calls[i];
      assert WellFormed(calls[n]);
      if calls[n].fast {
      } else if i :| 0 <= i < |calls| && calls[i].fast {
        assert calls[..n][i].fast;
      }
    }
  }

  function AddBuckets(a: Buckets, b: Buckets): Buckets {
    Buckets(a.regular + b.regular, a.read + b.read, a.write + b.write, a.write5m + b.write5m, a.output + b.output)
  }

  lemma {:induction false} BucketsWellFormed(u: Usage)
    requires WellFormed(u)
    ensures var (read, write, write5m) := (Or(u.cachedInput), Or(u.cacheCreation), Or(u.cacheCreation5m));
            BucketsOf(u) == Buckets(u.promptTokens - read - write, read, write - write5m, write5m, u.completionTokens)
  {
  }

  lemma {:induction false} BucketsAdd(a: Usage, b: Usage)
    requires WellFormed(a) && WellFormed(b)
    ensures BucketsOf(AddUsage(a, b)) == AddBuckets(BucketsOf(a), BucketsOf(b))
  {
    BucketsWellFormed(a);
    BucketsWellFormed(b);
    BucketsWellFormed(AddUsage(a, b));
  }

  lemma {:induction false} AmountAdds(m: int, n: int, rate: real)
    ensures Amount(m + n, rate) == Amount(m, rate) + Amount(n, rate)
  {
    assert (m + n) as real == m as real + n as real;
  }

  lemma {:induction false} BillAdds(x: real, y: real, scale: real)
    ensures Bill(x + y, scale) == Bill(x, scale) + Bill(y, scale)
  {
    assert (x + y) * scale == x * scale + y * scale;
  }

  lemma {:induction false} PriceAdds(r: Rates, scale: real, a: Buckets, b: Buckets)
    ensures PriceAt(r, scale, AddBuckets(a, b)) == Plus(PriceAt(r, scale, a), PriceAt(r, scale, b))
  {
    hide Amount, Bill;
    AmountAdds(a.regular, b.regular, r.input);
    AmountAdds(a.read, b.read, ReadRate(r));
    AmountAdds(a.write, b.write, WriteRate(r));
    AmountAdds(a.write5m, b.write5m, Write5mRate(r));
    AmountAdds(a.output, b.output, r.output);
    BillAdds(Amount(a.regular, r.input), Amount(b.regular, r.input), scale);
    BillAdds(Amount(a.read, ReadRate(r)), Amount(b.read, ReadRate(r)), scale);
    BillAdds(Amount(a.output, r.output), Amount(b.output, r.output), scale);
    var x := Amount(a.write, WriteRate(r)) + Amount(a.write5m, Write5mRate(r));
    var y := Amount(b.write, WriteRate(r)) + Amount(b.write5m, Write5mRate(r));
    BillAdds(x, y, scale);
    assert x + y == Amount(a.write + b.write, WriteRate(r)) + Amount(a.write5m + b.write5m, Write5mRate(r));
  }

  lemma {:induction false} LinearPricing(row: Option<Pricing>, calls: seq<Usage>)
    requires AllWellFormed(calls)
    requires row.Some? ==> row.value.longPrompt.None?
    requires forall i :: 0 <= i < |calls| ==> !calls[i].fast
    ensures EstimateCost(row, SumUsage(calls)) == SumOfCalls(row, calls)
  {
    SumWellFormed(calls);
    if calls != [] {
      var front, u := calls[..|calls| - 1], calls[|calls| - 1];
      SumWellFormed(front);
      LinearPricing(row, front);
      if row.Some? {
        BucketsAdd(SumUsage(front), u);
        PriceAdds(row.value.base, 1.0, BucketsOf(SumUsage(front)), BucketsOf(u));
      }
    }
  }

  /** A reported turn costs exactly what its calls cost, by whichever way the code prices it. */
  lemma {:induction false} TurnCostsItsCalls(row: Option<Pricing>, calls: seq<Usage>)
    requires AllWellFormed(calls)
    ensures TurnCost(row, SumUsage(calls), Some(calls)) == SumOfCalls(row, calls)
  {
    if calls == [] || PricedPerCall(row, calls) {
      if calls == [] && row.Some? {
        assert BucketsOf(SumUsage([])) == Buckets(0, 0, 0, 0, 0);
        var r := RatesForPrompt(row.value, 0);
        assert PriceAt(r, 1.0, Buckets(0, 0, 0, 0, 0)) == NO_COST;
      }
    } else {
      LinearPricing(row, calls);
    }
  }

  // ---------------------------------------------------------------- prompt-length rates

  ghost predicate AtLeast(hi: Rates, lo: Rates) {
    && hi.input >= lo.input && hi.output >= lo.output
    && ReadRate(hi) >= ReadRate(lo) && WriteRate(hi) >= WriteRate(lo) && Write5mRate(hi) >= Write5mRate(lo)
  }

  /** Long prompts are never cheaper per token than short ones. */
  ghost predicate LongCostsMore(p: Pricing) {
    p.longPrompt.Some? ==> AtLeast(p.longPrompt.value.rates, p.base)
  }

  lemma {:induction false} AmountMonotone(n: int, lo: real, hi: real)
    requires n >= 0 && lo <= hi
    ensures Amount(n, lo) <= Amount(n, hi)
  {
    AmountBounds(n, hi - lo);
    assert n as real * (hi - lo) == n as real * hi - n as real * lo;
  }

  lemma {:induction false} BillMonotone(lo: real, hi: real)
    requires lo <= hi
    ensures Bill(lo, 1.0) <= Bill(hi, 1.0)
  {
  }

  lemma {:induction false} PriceMonotone(hi: Rates, lo: Rates, b: Buckets)
    requires AtLeast(hi, lo) && b.output >= 0
    ensures PriceAt(lo, 1.0, b).total <= PriceAt(hi, 1.0, b).total
  {
    hide Amount, Bill;
    AmountMonotone(b.regular, lo.input, hi.input);
    AmountMonotone(b.read, ReadRate(lo), ReadRate(hi));
    AmountMonotone(b.write, WriteRate(lo), WriteRate(hi));
    AmountMonotone(b.write5m, Write5mRate(lo), Write5mRate(hi));
    AmountMonotone(b.output, lo.output, hi.output);
    BillMonotone(Amount(b.regular, lo.input), Amount(b.regular, hi.input));
    BillMonotone(Amount(b.read, ReadRate(lo)), Amount(b.read, ReadRate(hi)));
    BillMonotone(Amount(b.write, WriteRate(lo)) + Amount(b.write5m, Write5mRate(lo)),
                 Amount(b.write, WriteRate(hi)) + Amount(b.write5m, Write5mRate(hi)));
    BillMonotone(Amount(b.output, lo.output), Amount(b.output, hi.output));
  }

  /** The calls priced at one rate, whatever their length. */
  lemma {:induction false} CallsBelow(p: Pricing, r: Rates, calls: seq<Usage>)
    requires AllWellFormed(calls)
    requires forall i :: 0 <= i < |calls| ==> !calls[i].fast && AtLeast(r, RatesForPrompt(p, calls[i].promptTokens))
    ensures SumOfCalls(Some(p), calls).total <= PriceAt(r, 1.0, BucketsOf(SumUsage(calls))).total
  {
    if calls != [] {
      var front, u := calls[..|calls| - 1], calls[|calls| - 1];
      CallsBelow(p, r, front);
      assert WellFormed(u) && !u.fast;
      PriceMonotone(r, RatesForPrompt(p, u.promptTokens), BucketsOf(u));
      SumWellFormed(front);
      BucketsAdd(SumUsage(front), u);
      PriceAdds(r, 1.0, BucketsOf(SumUsage(front)), BucketsOf(u));
    }
  }

  /** Pricing a prompt-length model on its total never undercharges, because a sum is in a bracket at least as high. */
  lemma {:induction false} TotalNeverBelowCalls(p: Pricing, calls: seq<Usage>)
    requires AllWellFormed(calls) && LongCostsMore(p)
    requires forall i :: 0 <= i < |calls| ==> !calls[i].fast
    ensures SumOfCalls(Some(p), calls).total <= EstimateCost(Some(p), SumUsage(calls)).total
    ensures SumOfCalls(Some(p), calls).total <= TurnCost(Some(p), SumUsage(calls), None).total
  {
    SumWellFormed(calls);
    CallsBelow(p, RatesForPrompt(p, SumUsage(calls).promptTokens), calls);
  }

  lemma {:induction false} TwoCalls(row: Option<Pricing>, a: Usage, b: Usage)
    ensures SumOfCalls(row, [a, b]) == Plus(Plus(NO_COST, EstimateCost(row, a)), EstimateCost(row, b))
    ensures SumUsage([a, b]) == AddUsage(AddUsage(Usage(0, 0, None, None, None, false), a), b)
  {
    hide EstimateCost, Plus, AddUsage;
    assert [a, b][..1] == [a] && [a][..0] == [];
    assert SumOfCalls(row, [a]) == Plus(SumOfCalls(row, []), EstimateCost(row, a));
    assert SumUsage([a]) == AddUsage(SumUsage([]), a);
  }

  /** Uncached prompt tokens at one input rate. */
  lemma {:induction false} PromptPrice(r: Rates, tokens: nat)
    ensures PriceAt(r, 1.0, Buckets(tokens, 0, 0, 0, 0)).total == tokens as real * r.input / 1000000.0
  {
  }

  lemma {:induction false} PromptPriceGrows(lo: real, hi: real, tokens: nat)
    requires 0.0 <= lo < hi && tokens > 0
    ensures tokens as real * lo / 1000000.0 + tokens as real * lo / 1000000.0 < (tokens + tokens) as real * hi / 1000000.0
  {
    var n := tokens as real;
    assert n * (hi - lo) > 0.0;
    assert n * hi == n * lo + n * (hi - lo);
    assert (tokens + tokens) as real * hi == n * hi + n * hi;
  }

  /** The two prices do differ: two equal calls at or under the threshold whose sum is over it. */
  lemma {:induction false} ThresholdGap(p: Pricing, tokens: nat)
    requires p.longPrompt.Some? && 0.0 <= p.base.input < p.longPrompt.value.rates.input
    requires 0 < tokens <= p.longPrompt.value.above < tokens + tokens
    ensures var call := Usage(tokens, 0, None, None, None, false);
            SumOfCalls(Some(p), [call, call]).total < EstimateCost(Some(p), SumUsage([call, call])).total
  {
    hide PriceAt, SumOfCalls, SumUsage;
    var call := Usage(tokens, 0, None, None, None, false);
    TwoCalls(Some(p), call, call);
    PromptPrice(p.base, tokens);
    PromptPrice(p.longPrompt.value.rates, tokens + tokens);
    PromptPriceGrows(p.base.input, p.longPrompt.value.rates.input, tokens);
    assert BucketsOf(call) == Buckets(tokens, 0, 0, 0, 0);
    assert BucketsOf(SumUsage([call, call])) == Buckets(tokens + tokens, 0, 0, 0, 0);
  }

  lemma {:induction false} InputPrice(r: Rates, b: Buckets)
    ensures PriceAt(r, 1.0, b).input == b.regular as real * r.input / 1000000.0
  {
  }

  /** Well-formed usage is needed: a call whose reported cache exceeds its prompt hides another call's input. */
  lemma {:induction false} MalformedUsageBreaksShortcut(p: Pricing, tokens: nat)
    requires p.longPrompt.None? && p.base.input > 0.0 && tokens > 0
    ensures var bad, plain := Usage(0, 0, Some(tokens), None, None, false), Usage(tokens, 0, None, None, None, false);
            TurnCost(Some(p), SumUsage([bad, plain]), Some([bad, plain])) != SumOfCalls(Some(p), [bad, plain])
  {
    var bad, plain := Usage(0, 0, Some(tokens), None, None, false), Usage(tokens, 0, None, None, None, false);
    TwoCalls(Some(p), bad, plain);
    InputPrice(p.base, BucketsOf(bad));
    InputPrice(p.base, BucketsOf(plain));
    InputPrice(p.base, BucketsOf(SumUsage([bad, plain])));
    hide PriceAt, SumOfCalls, SumUsage;
    assert BucketsOf(bad).regular == 0 && BucketsOf(plain).regular == tokens;
    assert BucketsOf(SumUsage([bad, plain])).regular == 0;
    assert tokens as real * p.base.input > 0.0;
  }
}
