/** A whole evaluation: every case through the evaluator, and the metrics over the results. */
module EvaluationReport {
  import opened Attempts
  import opened Metrics
  import opened QualityGate
  import opened Evaluator

  /** `results` are the reports of `cases`, in order. */
  ghost predicate AllEvaluated<V>(cases: seq<GoldenCase<V>>, rules: Comparer<V>, provider: GoldenCase<V> -> ProviderOutcome,
                                  results: seq<CaseResult>) {
    && |results| == |cases|
    && forall i :: 0 <= i < |cases| ==> Evaluated(cases[i], rules, provider(cases[i]), results[i])
  }

  /** The metrics of any evaluation: rates between zero and one. */
  lemma EvaluationsHaveRates<V>(cases: seq<GoldenCase<V>>, rules: Comparer<V>, provider: GoldenCase<V> -> ProviderOutcome,
                                results: seq<CaseResult>, totals: Totals, metric: string)
    requires AllEvaluated(cases, rules, provider, results) && Totalled(results, totals)
    requires metric in ReportedRates(totals) && ReportedRates(totals)[metric].Number?
    ensures 0.0 <= ReportedRates(totals)[metric].value <= 1.0
  {
    hide Totalled, ReportedRates, Evaluated;
    forall result, score | result in results && score in result.fieldScores
      ensures score.correct <= score.compared
    {
      var i :| 0 <= i < |results| && results[i] == result;
      EvaluatedIsSound(cases[i], rules, provider(cases[i]), results[i]);
    }
    ReportedRatesLieInUnit(results, totals, metric);
  }

  lemma SuccessesAreGolden<V>(cases: seq<GoldenCase<V>>, rules: Comparer<V>, provider: GoldenCase<V> -> ProviderOutcome,
                              results: seq<CaseResult>)
    requires AllEvaluated(cases, rules, provider, results)
    ensures forall i :: 0 <= i < |cases| ==> (results[i].caseSuccess <==> AsGolden(cases[i], rules, provider(cases[i])))
  {
    hide Evaluated, AsGolden;
    forall i | 0 <= i < |cases|
      ensures results[i].caseSuccess <==> AsGolden(cases[i], rules, provider(cases[i]))
    {
      SuccessMeansAsGolden(cases[i], rules, provider(cases[i]), results[i]);
    }
  }

  /** The success rate of an evaluation is the share of its cases that came out as the data set has them; passing a
      minimum of one on it means that there are cases and all of them did. */
  lemma SuccessRateCountsGolden<V>(cases: seq<GoldenCase<V>>, rules: Comparer<V>, provider: GoldenCase<V> -> ProviderOutcome,
                                   results: seq<CaseResult>, totals: Totals)
    requires AllEvaluated(cases, rules, provider, results) && Totalled(results, totals)
    ensures totals.successes.denominator == |cases|
    ensures totals.successes.numerator == |set i | 0 <= i < |cases| && AsGolden(cases[i], rules, provider(cases[i]))|
    ensures |cases| < 1_000_000_000 && Meets(ReportedRates(totals), Minimum("case_success_rate", 1.0)) ==>
              cases != [] && forall i :: 0 <= i < |cases| ==> AsGolden(cases[i], rules, provider(cases[i]))
  {
    hide Totalled, ReportedRates, Evaluated, AsGolden;
    SuccessesAreGolden(cases, rules, provider, results);
    CountersCount(results, totals);
    assert (set i | 0 <= i < |results| && results[i].caseSuccess)
        == set i | 0 <= i < |cases| && AsGolden(cases[i], rules, provider(cases[i]));
    if |cases| < 1_000_000_000 && Meets(ReportedRates(totals), Minimum("case_success_rate", 1.0)) {
      PassingMeansEveryCaseSucceeded(results, totals);
      forall i | 0 <= i < |cases|
        ensures AsGolden(cases[i], rules, provider(cases[i]))
      {
        assert results[i] in results;
      }
    }
  }

  /** The run over a data set: one report a case, and their metrics. */
  method RunEvaluation<V>(cases: seq<GoldenCase<V>>, rules: Comparer<V>, provider: GoldenCase<V> -> ProviderOutcome,
                          latency: GoldenCase<V> -> real)
    returns (results: seq<CaseResult>, totals: Totals)
    ensures AllEvaluated(cases, rules, provider, results)
    ensures Totalled(results, totals)
    ensures forall metric :: metric in ReportedRates(totals) && ReportedRates(totals)[metric].Number? ==>
              0.0 <= ReportedRates(totals)[metric].value <= 1.0
  {
    hide Totalled, ReportedRates, Evaluated;
    results := [];
    for i := 0 to |cases|
      invariant AllEvaluated(cases[..i], rules, provider, results)
    {
      var result := EvaluateCase(cases[i], rules, provider(cases[i]), latency(cases[i]));
      results := results + [result];
    }
    assert cases[..|cases|] == cases;
    totals := AggregateMetrics(results);
    forall metric | metric in ReportedRates(totals) && ReportedRates(totals)[metric].Number?
      ensures 0.0 <= ReportedRates(totals)[metric].value <= 1.0
    {
      EvaluationsHaveRates(cases, rules, provider, results, totals, metric);
    }
  }
}
