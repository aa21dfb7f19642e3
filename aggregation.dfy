/** Aggregation: token totals, costs at fixed per-token rates, the number of
    distinct days, and the per-day and per-month averages. Costs are exact
    reals. */
module Aggregation {
  import opened Wrappers
  import opened Seqs

  /** Dollars per one million input (user) tokens. */
  const InputRate: real := 5.0
  /** Dollars per one million output (assistant) tokens. */
  const OutputRate: real := 15.0
  const Million: real := 1000000.0

  /** The eight quantities the run reports, in the order it prints them. */
  datatype Summary = Summary(
    totalUserTokens: nat,
    totalAssistantTokens: nat,
    inputCost: real,
    outputCost: real,
    totalCost: real,
    numUniqueDays: nat,
    averageCostPerDay: real,
    averageCostPerMonth: real)

  /** The run's fatal error: the per-day average divides by zero days. */
  datatype Fatal = ZeroDivision

  /** `set(message_dates)`. */
  function UniqueDays(dates: seq<int>): (days: set<int>)
    ensures forall d :: d in days <==> d in dates
  {
    set d | d in dates
  }

  /** There are never more distinct days than collected dates. */
  lemma {:induction false} UniqueDaysBound(dates: seq<int>)
    ensures |UniqueDays(dates)| <= |dates|
    decreases |dates|
  {
    if |dates| > 0 {
      var p := dates[..|dates| - 1];
      UniqueDaysBound(p);
      assert dates == p + [dates[|dates| - 1]];
      assert UniqueDays(dates) == UniqueDays(p) + {dates[|dates| - 1]};
    }
  }

  /** No distinct day exactly when no date was collected. */
  lemma UniqueDaysEmpty(dates: seq<int>)
    ensures |UniqueDays(dates)| == 0 <==> dates == []
  {
    if dates != [] {
      assert dates[0] in UniqueDays(dates);
    }
  }

  /** Dividing a non-negative total over at least one day. */
  lemma AverageOverDays(total: real, days: nat)
    requires 0.0 <= total && 1 <= days
    ensures (total / days as real) * days as real == total
    ensures 0.0 <= total / days as real <= total
  {
  }

  /** The cost arithmetic for given totals over at least one day of use. */
  function Summarize(totalUserTokens: nat, totalAssistantTokens: nat, numUniqueDays: nat): (s: Summary)
    requires 1 <= numUniqueDays
    ensures s.totalUserTokens == totalUserTokens && s.totalAssistantTokens == totalAssistantTokens
    ensures s.numUniqueDays == numUniqueDays
    ensures s.inputCost * Million == totalUserTokens as real * InputRate && 0.0 <= s.inputCost
    ensures s.outputCost * Million == totalAssistantTokens as real * OutputRate && 0.0 <= s.outputCost
    ensures s.totalCost == s.inputCost + s.outputCost && 0.0 <= s.totalCost
    ensures s.averageCostPerDay * numUniqueDays as real == s.totalCost
    ensures 0.0 <= s.averageCostPerDay <= s.totalCost
    ensures s.averageCostPerMonth * 12.0 == s.averageCostPerDay * 365.0
  {
    var inputCost := totalUserTokens as real * InputRate / Million;
    var outputCost := totalAssistantTokens as real * OutputRate / Million;
    var totalCost := inputCost + outputCost;
    AverageOverDays(totalCost, numUniqueDays);
    var averageCostPerDay := totalCost / numUniqueDays as real;
    var averageCostPerMonth := averageCostPerDay * 365.0 / 12.0;
    Summary(totalUserTokens, totalAssistantTokens, inputCost, outputCost, totalCost,
            numUniqueDays, averageCostPerDay, averageCostPerMonth)
  }

  /** The straight-line arithmetic after the loops. It fails, with nothing
      reported, exactly when there is no date to divide by. */
  function Aggregate(userCounts: seq<nat>, assistantCounts: seq<nat>, dates: seq<int>): (r: Result<Summary, Fatal>)
    ensures r.Failure? <==> dates == []
    ensures r.Success? ==> r.value.totalUserTokens == Sum(userCounts)
    ensures r.Success? ==> r.value.totalAssistantTokens == Sum(assistantCounts)
    ensures r.Success? ==> r.value.numUniqueDays == |UniqueDays(dates)|
    ensures r.Success? ==> 1 <= r.value.numUniqueDays <= |dates|
  {
    var numUniqueDays := |UniqueDays(dates)|;
    UniqueDaysBound(dates);
    UniqueDaysEmpty(dates);
    if numUniqueDays == 0 then
      Failure(ZeroDivision)
    else
      Success(Summarize(Sum(userCounts), Sum(assistantCounts), numUniqueDays))
  }
}
