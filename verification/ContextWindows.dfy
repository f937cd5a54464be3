/** core/context.py `ContextWindowManager.build_context`: splitting the token budget over the layers. */
module ContextWindows {
  import opened Wrappers

  function EstimateTokens(text: string): (n: nat)
    ensures n >= 1
  {
    if |text| / 4 > 1 then |text| / 4 else 1
  }

  /** Python's `text[:n]`, which counts from the end when `n` is negative. */
  function Take(text: string, n: int): (r: string)
    ensures |r| <= |text| && (n >= 0 ==> |r| <= n)
  {
    if n >= |text| then text
    else if n >= 0 then text[..n]
    else if |text| + n >= 0 then text[..|text| + n]
    else ""
  }

  /** A text cut to four characters a token uses the whole budget, or the text is short enough already. */
  lemma TakeFits(text: string, budget: int)
    ensures Take(text, budget * 4) <= text
    ensures budget >= 1 ==>
              EstimateTokens(Take(text, budget * 4)) == if EstimateTokens(text) > budget then budget
                                                        else EstimateTokens(text)
  {
  }

  datatype Request = Request(l3: bool, l4: bool, l5: bool)

  /** Optional inputs are "" when absent; `decisions` holds the reasoning summaries. */
  datatype Inputs = Inputs(activeTask: string, worldJson: string, decisions: seq<string>, longTerm: string,
                           archived: string, requested: Request)

  datatype Bundle = Bundle(l1: string, l2: string, l3: Option<string>, l4: Option<string>, l5: Option<string>,
                           estimatedTokens: int)

  function JoinLines(lines: seq<string>): string {
    if lines == [] then "" else if |lines| == 1 then lines[0] else lines[0] + "\n" + JoinLines(lines[1..])
  }

  function LastFive(xs: seq<string>): seq<string> { if |xs| > 5 then xs[|xs| - 5..] else xs }

  function Tokens(layer: Option<string>): nat { if layer.Some? then EstimateTokens(layer.value) else 0 }

  function L1(i: Inputs): string { "Active Task: " + i.activeTask }

  /** Layers L1 to L4, the ones charged to the budget. */
  function Charged(b: Bundle): nat { EstimateTokens(b.l1) + EstimateTokens(b.l2) + Tokens(b.l3) + Tokens(b.l4) }

  /** The reported use of layers L1 and L2 alone. */
  function BasicUse(maxTokens: int, activeTask: string, worldJson: string): int {
    var use := EstimateTokens("Active Task: " + activeTask) + EstimateTokens(worldJson);
    if use <= maxTokens then use else maxTokens
  }

  /**
   * Conservation holds exactly when layer L1 leaves something: then all five layers together stay
   * within the maximum and the reported use is the sum of L1 to L4. Otherwise L1 and L2 alone exceed the
   * maximum and the report, which is capped at it, understates them.
   */
  method BuildContext(maxTokens: int, i: Inputs) returns (b: Bundle)
    ensures b.l1 == L1(i) && b.l2 <= i.worldJson
    ensures EstimateTokens(L1(i)) < maxTokens <==> Charged(b) + Tokens(b.l5) <= maxTokens
    ensures EstimateTokens(L1(i)) < maxTokens <==> b.estimatedTokens == Charged(b)
    ensures EstimateTokens(L1(i)) >= maxTokens ==> b.estimatedTokens == maxTokens
    ensures EstimateTokens(L1(i)) + EstimateTokens(i.worldJson) <= maxTokens ==> b.l2 == i.worldJson
    ensures i.decisions == [] && i.longTerm == "" ==>
        b.estimatedTokens == BasicUse(maxTokens, i.activeTask, i.worldJson)
    ensures b.l3.Some? ==> b.l3.value == JoinLines(LastFive(i.decisions)) && i.decisions != []
    ensures b.l4.Some? ==> i.requested.l4 && b.l4.value <= i.longTerm
    ensures b.l5.Some? ==> i.requested.l5 && b.l5.value <= i.archived
    ensures var left := maxTokens - EstimateTokens(b.l1) - EstimateTokens(b.l2);
            var lines := JoinLines(LastFive(i.decisions));
            && (b.l3.Some? <==>
                  i.decisions != [] && (i.requested.l3 || left > 500) && EstimateTokens(lines) <= left)
            && (b.l4.Some? <==> i.longTerm != "" && i.requested.l4 && left - Tokens(b.l3) > 300)
            && (b.l4.Some? ==> b.l4.value == Take(i.longTerm, 4 * (left - Tokens(b.l3))))
            && (b.l5.Some? <==> i.archived != "" && i.requested.l5 && left - Tokens(b.l3) - Tokens(b.l4) > 200)
            && (b.l5.Some? ==> b.l5.value == Take(i.archived, 4 * (left - Tokens(b.l3) - Tokens(b.l4))))
  {
    hide EstimateTokens, Take, JoinLines, LastFive;
    var budget := maxTokens;
    var l1 := L1(i);
    budget := budget - EstimateTokens(l1);

    var l2 := i.worldJson;
    if EstimateTokens(l2) > budget {
      TakeFits(l2, budget);
      l2 := Take(l2, budget * 4);
    }
    budget := budget - EstimateTokens(l2);

    var l3, l4, l5: Option<string> := None, None, None;
    if i.decisions != [] && (i.requested.l3 || budget > 500) {
      var text := JoinLines(LastFive(i.decisions));
      if EstimateTokens(text) <= budget {
        l3 := Some(text);
        budget := budget - EstimateTokens(text);
      }
    }
    if i.longTerm != "" && i.requested.l4 && budget > 300 {
      TakeFits(i.longTerm, budget);
      l4 := Some(Take(i.longTerm, budget * 4));
      budget := budget - EstimateTokens(l4.value);
    }
    if i.archived != "" && i.requested.l5 && budget > 200 {
      TakeFits(i.archived, budget);
      l5 := Some(Take(i.archived, budget * 4));
    }
    b := Bundle(l1, l2, l3, l4, l5, maxTokens - (if budget > 0 then budget else 0));
  }

  /** `within_budget` together with `enforce_budget`, whose utilization test is the same quotient. */
  predicate WithinBudget(maxTokens: nat, estimatedTokens: int, memoryBudget: int) {
    (maxTokens == 0 || estimatedTokens <= maxTokens) && estimatedTokens <= memoryBudget
  }
}
