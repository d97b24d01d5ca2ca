/** The quality gate: an evaluation's metrics against the configured minimums, and what passing it means. */
module QualityGate {
  import opened Options
  import opened Sums
  import opened Metrics

  const FLOAT_EPS := 0.000000001

  /** A metric of the report. Rates without a denominator, texts and booleans are not numbers. */
  datatype MetricValue = Number(value: real) | NotNumber

  datatype Minimum = Minimum(metric: string, required: real)

  datatype MetricFailure =
    | Missing(metric: string, required: real)
    | Invalid(metric: string, required: real)
    | Below(metric: string, actual: real, required: real)

  datatype Comparison = Comparison(passed: bool, failures: seq<MetricFailure>)

  predicate Meets(actual: map<string, MetricValue>, minimum: Minimum) {
    && minimum.metric in actual
    && actual[minimum.metric].Number?
    && actual[minimum.metric].value + FLOAT_EPS >= minimum.required
  }

  /** The failure that an unmet minimum is reported as. */
  function FailureOf(actual: map<string, MetricValue>, minimum: Minimum): MetricFailure
    requires !Meets(actual, minimum)
  {
    if minimum.metric !in actual then Missing(minimum.metric, minimum.required)
    else if actual[minimum.metric].NotNumber? then Invalid(minimum.metric, minimum.required)
    else Below(minimum.metric, actual[minimum.metric].value, minimum.required)
  }

  /** One failure for each unmet minimum, in the minimums' order. */
  function FailuresOf(actual: map<string, MetricValue>, minimums: seq<Minimum>): seq<MetricFailure>
    decreases minimums
  {
    if minimums == [] then []
    else
      var last := minimums[|minimums| - 1];
      FailuresOf(actual, minimums[..|minimums| - 1]) + if Meets(actual, last) then [] else [FailureOf(actual, last)]
  }

  /** The failure names a minimum of the list that the report does not meet, and says in what way. */
  ghost predicate Explains(actual: map<string, MetricValue>, minimums: seq<Minimum>, failure: MetricFailure) {
    && Minimum(failure.metric, failure.required) in minimums
    && match failure
       case Missing(metric, _) => metric !in actual
       case Invalid(metric, _) => metric in actual && actual[metric] == NotNumber
       case Below(metric, value, required) =>
         metric in actual && actual[metric] == Number(value) && value + 0.000000001 < required
  }

  lemma {:induction false} FailuresExplain(actual: map<string, MetricValue>, minimums: seq<Minimum>)
    ensures forall failure :: failure in FailuresOf(actual, minimums) <==> Explains(actual, minimums, failure)
    decreases minimums
  {
    if minimums != [] {
      var front, last := minimums[..|minimums| - 1], minimums[|minimums| - 1];
      FailuresExplain(actual, front);
      assert minimums == front + [last];
    }
  }

  method CompareMetrics(actual: map<string, MetricValue>, minimums: seq<Minimum>) returns (comparison: Comparison)
    ensures comparison.passed <==> forall i :: 0 <= i < |minimums| ==> Meets(actual, minimums[i])
    ensures comparison.failures == FailuresOf(actual, minimums)
    ensures forall failure :: failure in comparison.failures <==> Explains(actual, minimums, failure)
  {
    FailuresExplain(actual, minimums);
    var failures: seq<MetricFailure> := [];
    for i := 0 to |minimums|
      invariant failures == FailuresOf(actual, minimums[..i])
      invariant failures == [] <==> forall k :: 0 <= k < i ==> Meets(actual, minimums[k])
    {
      assert minimums[..i + 1][..i] == minimums[..i];
      var minimum := minimums[i];
      if minimum.metric !in actual {
        failures := failures + [Missing(minimum.metric, minimum.required)];
        continue;
      }
      var raw := actual[minimum.metric];
      if raw.NotNumber? {
        failures := failures + [Invalid(minimum.metric, minimum.required)];
        continue;
      }
      if raw.value + FLOAT_EPS < minimum.required {
        failures := failures + [Below(minimum.metric, raw.value, minimum.required)];
      }
    }
    assert minimums[..|minimums|] == minimums;
    comparison := Comparison(failures == [], failures);
  }

  // ---- Rates at the gate ----

  function SafeRate(rate: Rate): MetricValue {
    if rate.denominator == 0 then NotNumber else Number(rate.numerator as real / rate.denominator as real)
  }

  /** The rates of the report. */
  function ReportedRates(totals: Totals): map<string, MetricValue> {
    map["schema_validity_rate" := SafeRate(totals.schema), "field_accuracy" := SafeRate(totals.fields),
        "decision_accuracy" := SafeRate(totals.decisions), "case_success_rate" := SafeRate(totals.successes)]
  }

  lemma SafeRateIsAProportion(rate: Rate)
    requires IsProportion(rate) && rate.denominator > 0
    ensures SafeRate(rate).Number? && 0.0 <= SafeRate(rate).value <= 1.0
    ensures SafeRate(rate).value * rate.denominator as real == rate.numerator as real
  {
  }

  /** Every rate of a report that is a number lies between zero and one. */
  lemma ReportedRatesLieInUnit(cases: seq<CaseResult>, totals: Totals, metric: string)
    requires Totalled(cases, totals) && SoundScores(cases)
    requires metric in ReportedRates(totals) && ReportedRates(totals)[metric].Number?
    ensures 0.0 <= ReportedRates(totals)[metric].value <= 1.0
  {
    hide Sum, LatenciesOf, SafeRate, Totalled;
    RatesAreProportions(cases, totals);
    forall rate | rate in {totals.schema, totals.fields, totals.decisions, totals.successes}
      ensures SafeRate(rate).Number? ==> 0.0 <= SafeRate(rate).value <= 1.0
    {
      ProportionLiesInUnit(rate);
    }
  }

  lemma ProportionLiesInUnit(rate: Rate)
    requires IsProportion(rate)
    ensures SafeRate(rate).Number? ==> 0.0 <= SafeRate(rate).value <= 1.0
  {
    if rate.denominator > 0 {
      SafeRateIsAProportion(rate);
    }
  }

  predicate PassesOne(rate: Rate) {
    SafeRate(rate).Number? && SafeRate(rate).value + FLOAT_EPS >= 1.0
  }

  lemma TimesKeepsOrder(x: real, y: real, factor: real)
    requires factor > 0.0
    ensures x <= y <==> x * factor <= y * factor
  {
    if x <= y {
      assert 0.0 <= (y - x) * factor;
    } else {
      assert 0.0 < (x - y) * factor;
    }
  }

  lemma PassesOneWhen(rate: Rate)
    requires rate.denominator > 0
    ensures PassesOne(rate) <==>
            rate.numerator as real + FLOAT_EPS * rate.denominator as real >= rate.denominator as real
  {
    var d := rate.denominator as real;
    var v := rate.numerator as real / d;
    TimesKeepsOrder(1.0, v + FLOAT_EPS, d);
    assert (v + FLOAT_EPS) * d == rate.numerator as real + FLOAT_EPS * d;
  }

  /** A minimum of one is met only by full marks exactly when fewer than a thousand million things were
      counted; from there on the slack forgives a miss. */
  lemma FullMarksExactlyBelowABillion(denominator: nat)
    ensures (forall numerator: nat :: numerator <= denominator && PassesOne(Rate(numerator, denominator)) ==>
               numerator == denominator)
            <==> denominator < 1_000_000_000
  {
    hide PassesOne;
    if denominator == 0 {
    } else if denominator < 1_000_000_000 {
      forall numerator: nat | numerator <= denominator && PassesOne(Rate(numerator, denominator))
        ensures numerator == denominator
      {
        PassesOneWhen(Rate(numerator, denominator));
        assert FLOAT_EPS * denominator as real < 1.0;
      }
    } else {
      PassesOneWhen(Rate(denominator - 1, denominator));
      assert PassesOne(Rate(denominator - 1, denominator));
    }
  }

  /** Equal sums of a smaller and a larger weight agree item by item. */
  lemma {:induction false} EqualSumsAgree<T>(small: T -> nat, large: T -> nat, items: seq<T>)
    requires forall item :: item in items ==> small(item) <= large(item)
    requires Sum(small, items) == Sum(large, items)
    ensures forall item :: item in items ==> small(item) == large(item)
    decreases items
  {
    if items != [] {
      var front, last := items[..|items| - 1], items[|items| - 1];
      SumBounded(small, large, front);
      assert last in items;
      EqualSumsAgree(small, large, front);
      assert items == front + [last];
    }
  }

  /** Passing a minimum of one on the decision accuracy means that every decision the evaluation was to judge
      came out as expected. */
  lemma PassingMeansEveryDecisionMatched(cases: seq<CaseResult>, totals: Totals)
    requires Totalled(cases, totals) && |cases| < 1_000_000_000
    requires Meets(ReportedRates(totals), Minimum("decision_accuracy", 1.0))
    ensures forall c :: c in cases && c.decisionApplicable ==> c.decisionMatch == Some(true)
  {
    hide Sum, LatenciesOf, PerFieldTotalled;
    assert PassesOne(totals.decisions);
    CountBounded(DecisionCompared, cases);
    SumBounded(DecisionCorrect, DecisionCompared, cases);
    FullMarksExactlyBelowABillion(totals.decisions.denominator);
    EqualSumsAgree(DecisionCorrect, DecisionCompared, cases);
    forall c | c in cases && c.decisionApplicable
      ensures c.decisionMatch == Some(true)
    {
      assert DecisionCorrect(c) == DecisionCompared(c);
    }
  }

  /** Passing a minimum of one on the success rate means that every case succeeded, and no case at all fails it. */
  lemma PassingMeansEveryCaseSucceeded(cases: seq<CaseResult>, totals: Totals)
    requires Totalled(cases, totals) && |cases| < 1_000_000_000
    requires Meets(ReportedRates(totals), Minimum("case_success_rate", 1.0))
    ensures cases != [] && forall c :: c in cases ==> c.caseSuccess
  {
    hide Sum, LatenciesOf, PerFieldTotalled;
    assert PassesOne(totals.successes);
    SuccessesBounded(cases);
    FullMarksExactlyBelowABillion(totals.successes.denominator);
    CountsOnes(cases);
    EqualSumsAgree(Success, (c: CaseResult) => 1, cases);
    forall c | c in cases
      ensures c.caseSuccess
    {
      assert Success(c) == 1;
    }
  }

  /** Passing a minimum of one on the schema validity means that every answer held to the schema fitted it. */
  lemma PassingMeansEverySchemaValid(cases: seq<CaseResult>, totals: Totals)
    requires Totalled(cases, totals) && |cases| < 1_000_000_000
    requires Meets(ReportedRates(totals), Minimum("schema_validity_rate", 1.0))
    ensures forall c :: c in cases && c.schemaApplicable ==> c.schemaValid == Some(true)
  {
    hide Sum, LatenciesOf, PerFieldTotalled;
    assert PassesOne(totals.schema);
    CountBounded(SchemaCompared, cases);
    SumBounded(SchemaCorrect, SchemaCompared, cases);
    FullMarksExactlyBelowABillion(totals.schema.denominator);
    EqualSumsAgree(SchemaCorrect, SchemaCompared, cases);
    forall c | c in cases && c.schemaApplicable
      ensures c.schemaValid == Some(true)
    {
      assert SchemaCorrect(c) == SchemaCompared(c);
    }
  }

  /** Passing a minimum of one on the field accuracy means that every field compared anywhere was right. */
  lemma PassingMeansEveryFieldRight(cases: seq<CaseResult>, totals: Totals)
    requires Totalled(cases, totals) && SoundScores(cases) && totals.fields.denominator < 1_000_000_000
    requires Meets(ReportedRates(totals), Minimum("field_accuracy", 1.0))
    ensures forall c, score :: c in cases && c.fieldComparisonApplicable && score in c.fieldScores ==>
              score.correct == score.compared
  {
    hide Sum, LatenciesOf, PerFieldTotalled;
    assert PassesOne(totals.fields);
    RatesAreProportions(cases, totals);
    FullMarksExactlyBelowABillion(totals.fields.denominator);
    forall c | c in cases
      ensures OverScores(CorrectOf)(c) <= OverScores(ComparedOf)(c)
    {
      SumBounded(CorrectOf, ComparedOf, c.fieldScores);
    }
    EqualSumsAgree(OverScores(CorrectOf), OverScores(ComparedOf), cases);
    forall c, score | c in cases && c.fieldComparisonApplicable && score in c.fieldScores
      ensures score.correct == score.compared
    {
      assert OverScores(CorrectOf)(c) == OverScores(ComparedOf)(c);
      EqualSumsAgree(CorrectOf, ComparedOf, c.fieldScores);
      assert CorrectOf(score) == ComparedOf(score);
    }
  }

  lemma {:induction false} CountBounded(weight: CaseResult -> nat, cases: seq<CaseResult>)
    requires forall c :: weight(c) <= 1
    ensures Sum(weight, cases) <= |cases|
  {
    if cases != [] {
      CountBounded(weight, cases[..|cases| - 1]);
    }
  }

  lemma {:induction false} CountsOnes(cases: seq<CaseResult>)
    ensures Sum((c: CaseResult) => 1, cases) == |cases|
  {
    if cases != [] {
      CountsOnes(cases[..|cases| - 1]);
    }
  }
}
