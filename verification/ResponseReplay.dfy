/**
 The replay loop: generate, let the hooks judge the output, generate again while they ask for
 it; and the spend of all the passes folded into one.

 The model and the hooks are the functions `generate` and `evaluate` of the pass number; the
 abort signal is read after each pass, and `aborted` says what it reads.
 */
module ResponseReplay {
  import opened Options
  import opened TurnCost

  datatype Outcome = Outcome(replace: Option<string>, regenerate: bool)

  method GenerateWithReplay(generate: nat -> string, evaluate: nat -> Outcome, max: nat, aborted: nat -> bool)
    returns (result: string, finalText: string, outcome: Outcome, passes: nat)
    // between one generation and the cap plus one, each asked for by the pass before it
    ensures 1 <= passes <= max + 1
    ensures forall n :: 0 <= n < passes - 1 ==> evaluate(n).regenerate && !aborted(n)
    ensures evaluate(passes - 1).regenerate ==> passes == max + 1 || aborted(passes - 1)
    // the last pass is what is delivered
    ensures result == generate(passes - 1) && outcome == evaluate(passes - 1)
    ensures outcome.regenerate <==> evaluate(passes - 1).regenerate
    // a regenerate request is left pending only at the cap or on abort, and then no replacement applies
    ensures outcome.regenerate ==> (passes == max + 1 || aborted(passes - 1)) && finalText == result
    ensures !outcome.regenerate ==> finalText == if outcome.replace.Some? then outcome.replace.value else result
  {
    var regen := 0;
    result := generate(regen);
    outcome := evaluate(regen);
    while outcome.regenerate && regen < max && !aborted(regen)
      invariant 0 <= regen <= max
      invariant result == generate(regen) && outcome == evaluate(regen)
      invariant forall n :: 0 <= n < regen ==> evaluate(n).regenerate && !aborted(n)
      decreases max - regen
    {
      regen := regen + 1;
      result := generate(regen);
      outcome := evaluate(regen);
    }
    passes := regen + 1;
    finalText := if outcome.regenerate then result
                 else if outcome.replace.Some? then outcome.replace.value else result;
  }

  // ---------------------------------------------------------------- spend

  datatype PassUsage = PassUsage(promptTokens: nat, completionTokens: nat, cached: Option<nat>, created: Option<nat>, created5m: Option<nat>)

  datatype Pass = Pass(durationMs: nat, toolBuildingMs: nat, usage: PassUsage, cost: Option<Cost>)

  datatype Spend = Spend(
    llmCallMs: nat, toolBuildingMs: nat, promptTokens: nat, completionTokens: nat,
    cached: nat, created: nat, created5m: Option<nat>, cost: Option<Cost>)

  const EMPTY_SPEND := Spend(0, 0, 0, 0, 0, 0, None, None)

  function Or0(o: Option<nat>): nat { if o.Some? then o.value else 0 }

  function AddPassSpend(acc: Spend, pass: Pass): Spend {
    Spend(acc.llmCallMs + pass.durationMs,
          acc.toolBuildingMs + pass.toolBuildingMs,
          acc.promptTokens + pass.usage.promptTokens,
          acc.completionTokens + pass.usage.completionTokens,
          acc.cached + Or0(pass.usage.cached),
          acc.created + Or0(pass.usage.created),
          if acc.created5m.Some? || pass.usage.created5m.Some? then Some(Or0(acc.created5m) + Or0(pass.usage.created5m)) else None,
          if pass.cost.None? then acc.cost
          else if acc.cost.None? then pass.cost
          else Some(Plus(acc.cost.value, pass.cost.value)))
  }

  function Total(passes: seq<Pass>): Spend {
    if passes == [] then EMPTY_SPEND else AddPassSpend(Total(passes[..|passes| - 1]), passes[|passes| - 1])
  }

  /** The counts a pass and a spend both have. */
  datatype Count = LlmCallMs | ToolBuildingMs | PromptTokens | CompletionTokens | Cached | Created | Created5m

  function CountIn(pass: Pass, count: Count): nat {
    match count
    case LlmCallMs => pass.durationMs
    case ToolBuildingMs => pass.toolBuildingMs
    case PromptTokens => pass.usage.promptTokens
    case CompletionTokens => pass.usage.completionTokens
    case Cached => Or0(pass.usage.cached)
    case Created => Or0(pass.usage.created)
    case Created5m => Or0(pass.usage.created5m)
  }

  function CountOf(spend: Spend, count: Count): nat {
    match count
    case LlmCallMs => spend.llmCallMs
    case ToolBuildingMs => spend.toolBuildingMs
    case PromptTokens => spend.promptTokens
    case CompletionTokens => spend.completionTokens
    case Cached => spend.cached
    case Created => spend.created
    case Created5m => Or0(spend.created5m)
  }

  function SumOver(passes: seq<Pass>, count: Count): nat {
    if passes == [] then 0 else SumOver(passes[..|passes| - 1], count) + CountIn(passes[|passes| - 1], count)
  }

  function SumCosts(costs: seq<Cost>): Cost {
    if costs == [] then NO_COST else Plus(SumCosts(costs[..|costs| - 1]), costs[|costs| - 1])
  }

  /** The costs of the passes that reported one. */
  function Reported(passes: seq<Pass>): seq<Cost> {
    if passes == [] then []
    else Reported(passes[..|passes| - 1]) + if passes[|passes| - 1].cost.Some? then [passes[|passes| - 1].cost.value] else []
  }

  /** The folded spend is the componentwise sum over every pass, and a part is absent only if every pass left it out. */
  lemma {:induction false} TotalIsSum(passes: seq<Pass>)
    ensures var t := Total(passes);
            && (forall count :: CountOf(t, count) == SumOver(passes, count))
            && (t.created5m.None? <==> forall i :: 0 <= i < |passes| ==> passes[i].usage.created5m.None?)
            && t.cost == (if Reported(passes) == [] then None else Some(SumCosts(Reported(passes))))
  {
    if passes != [] {
      var front, pass := passes[..|passes| - 1], passes[|passes| - 1];
      TotalIsSum(front);
      assert passes == front + [pass];
      if pass.cost.Some? {
        var costs := Reported(front) + [pass.cost.value];
        assert costs[..|costs| - 1] == Reported(front);
        assert Plus(NO_COST, pass.cost.value) == pass.cost.value;
      } else {
        assert Reported(passes) == Reported(front);
      }
    }
  }

  function SumOfParts(costs: seq<Cost>, part: CostPart): real {
    if costs == [] then 0.0 else SumOfParts(costs[..|costs| - 1], part) + PartOf(costs[|costs| - 1], part)
  }

  /** The folded cost sums each part apart. */
  lemma {:induction false} CostsByPart(costs: seq<Cost>, part: CostPart)
    ensures PartOf(SumCosts(costs), part) == SumOfParts(costs, part)
  {
    if costs != [] {
      CostsByPart(costs[..|costs| - 1], part);
    }
  }

  ghost predicate SpendOk(created: nat, created5m: nat, cost: Option<Cost>) {
    created5m <= created && (cost.Some? ==> AddsUp(cost.value))
  }

  /** What each pass keeps, the sum keeps: the cost adds up and 5-minute writes stay within the writes. */
  lemma {:induction false} TotalAddsUp(passes: seq<Pass>)
    requires forall i :: 0 <= i < |passes| ==>
               SpendOk(Or0(passes[i].usage.created), Or0(passes[i].usage.created5m), passes[i].cost)
    ensures SpendOk(Total(passes).created, Or0(Total(passes).created5m), Total(passes).cost)
  {
    if passes != [] {
      TotalAddsUp(passes[..|passes| - 1]);
      var last := passes[|passes| - 1];
      assert SpendOk(Or0(last.usage.created), Or0(last.usage.created5m), last.cost);
    }
  }
}
