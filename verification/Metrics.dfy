/** Scoring one case field by field, and adding the cases of an evaluation up into the metrics of its report. */
module Metrics {
  import opened Options
  import opened Sums
  import opened Sorting
  import opened WorkflowStates
  import opened BusinessRules

  datatype Field =
    SupplierName | SupplierId | PurchaseOrderId | InvoiceNumber | InvoiceDate | Currency | TotalAmount | LineItems | Confidence

  const COMPARISON_FIELDS: seq<Field> := [
    SupplierName, SupplierId, PurchaseOrderId, InvoiceNumber, InvoiceDate, Currency, TotalAmount, LineItems, Confidence
  ]

  /** How often a field was compared, and how often it was right. */
  datatype FieldScore = FieldScore(field: Field, compared: nat, correct: nat)

  datatype OutcomeClass = Ok | SchemaInvalid | ProviderFailed | EvaluatorFailed

  /** What a case's decision is said to be: the rule engine's, or that the provider failed. */
  datatype Verdict = ByRules(decision: DecisionType) | ProviderFailure

  datatype CaseResult = CaseResult(
    schemaApplicable: bool,
    fieldComparisonApplicable: bool,
    decisionApplicable: bool,
    expectedErrorClass: Option<string>,
    schemaValid: Option<bool>,
    actualDecision: Option<Verdict>,
    actualFinalState: Option<WorkflowState>,
    decisionMatch: Option<bool>,
    fieldScores: seq<FieldScore>,
    outcomeClass: OutcomeClass,
    errorClass: Option<string>,
    caseSuccess: bool,
    latency: Option<real>)

  // ---- Scoring ----

  /** The score of one field: compared when expected, correct when the two values are equal. */
  function ScoreOf<V>(equal: (Field, V, Option<V>) -> bool, expected: Option<map<Field, V>>, actual: Option<map<Field, V>>,
                      applicable: bool, field: Field): FieldScore {
    if !applicable || expected.None? || actual.None? || field !in expected.value then FieldScore(field, 0, 0)
    else
      var found := if field in actual.value then Some(actual.value[field]) else None;
      FieldScore(field, 1, if equal(field, expected.value[field], found) then 1 else 0)
  }

  /** One score for each comparison field, in order. */
  method ScoreFields<V>(equal: (Field, V, Option<V>) -> bool, expected: Option<map<Field, V>>, actual: Option<map<Field, V>>,
                        applicable: bool)
    returns (scores: seq<FieldScore>)
    ensures |scores| == |COMPARISON_FIELDS|
    ensures forall i :: 0 <= i < |scores| ==> scores[i] == ScoreOf(equal, expected, actual, applicable, COMPARISON_FIELDS[i])
  {
    scores := [];
    for i := 0 to |COMPARISON_FIELDS|
      invariant |scores| == i
      invariant forall k :: 0 <= k < i ==> scores[k] == FieldScore(COMPARISON_FIELDS[k], 0, 0)
    {
      scores := scores + [FieldScore(COMPARISON_FIELDS[i], 0, 0)];
    }
    if !applicable || expected.None? || actual.None? {
      return;
    }
    for i := 0 to |COMPARISON_FIELDS|
      invariant |scores| == |COMPARISON_FIELDS|
      invariant forall k :: 0 <= k < i ==> scores[k] == ScoreOf(equal, expected, actual, applicable, COMPARISON_FIELDS[k])
      invariant forall k :: i <= k < |scores| ==> scores[k] == FieldScore(COMPARISON_FIELDS[k], 0, 0)
    {
      var field := COMPARISON_FIELDS[i];
      if field in expected.value {
        var found := if field in actual.value then Some(actual.value[field]) else None;
        scores := scores[i := scores[i].(compared := scores[i].compared + 1)];
        if equal(field, expected.value[field], found) {
          scores := scores[i := scores[i].(correct := scores[i].correct + 1)];
        }
      }
    }
  }

  // ---- What each counter counts ----

  function SchemaCompared(c: CaseResult): nat { One(c.schemaApplicable) }
  function SchemaCorrect(c: CaseResult): nat { One(c.schemaApplicable && c.schemaValid == Some(true)) }
  function DecisionCompared(c: CaseResult): nat { One(c.decisionApplicable) }
  function DecisionCorrect(c: CaseResult): nat { One(c.decisionApplicable && c.decisionMatch == Some(true)) }
  function Success(c: CaseResult): nat { One(c.caseSuccess) }

  predicate FailedProvider(result: CaseResult) {
    result.outcomeClass == ProviderFailed
  }

  /** Python's truth value of an optional text. */
  predicate IsSet(text: Option<string>) {
    text.Some? && text.value != ""
  }

  function FailedProviders(c: CaseResult): nat { One(FailedProvider(c)) }
  function ExpectedFailure(c: CaseResult): nat { One(FailedProvider(c) && IsSet(c.expectedErrorClass)) }
  function UnexpectedFailure(c: CaseResult): nat { One(FailedProvider(c) && !IsSet(c.expectedErrorClass)) }
  function EvaluatorError(c: CaseResult): nat { One(c.outcomeClass == EvaluatorFailed) }

  function ComparedOf(score: FieldScore): nat { score.compared }
  function CorrectOf(score: FieldScore): nat { score.correct }
  function ComparedOn(field: Field): FieldScore -> nat { (score: FieldScore) => if score.field == field then score.compared else 0 }
  function CorrectOn(field: Field): FieldScore -> nat { (score: FieldScore) => if score.field == field then score.correct else 0 }

  /** `weight` added up over a case's field scores, when they are to be compared. */
  function OverScores(weight: FieldScore -> nat): CaseResult -> nat {
    (c: CaseResult) => if c.fieldComparisonApplicable then Sum(weight, c.fieldScores) else 0
  }

  function LatenciesOf(cases: seq<CaseResult>): seq<real> {
    if cases == [] then []
    else
      var last := cases[|cases| - 1].latency;
      LatenciesOf(cases[..|cases| - 1]) + if last.Some? then [last.value] else []
  }

  // ---- Aggregation ----

  datatype Rate = Rate(numerator: nat, denominator: nat)

  datatype Totals = Totals(
    schema: Rate,
    fields: Rate,
    perField: map<Field, Rate>,
    decisions: Rate,
    successes: Rate,
    providerFailures: nat,
    expectedFailures: nat,
    unexpectedFailures: nat,
    evaluatorErrors: nat,
    latencies: seq<real>,
    meanLatency: Option<real>,
    latencyP95: Option<real>)

  /** Each counter as a sum over the cases. */
  ghost predicate Totalled(cases: seq<CaseResult>, totals: Totals) {
    && totals.schema == Rate(Sum(SchemaCorrect, cases), Sum(SchemaCompared, cases))
    && totals.fields == Rate(Sum(OverScores(CorrectOf), cases), Sum(OverScores(ComparedOf), cases))
    && PerFieldTotalled(cases, totals.perField)
    && totals.decisions == Rate(Sum(DecisionCorrect, cases), Sum(DecisionCompared, cases))
    && totals.successes == Rate(Sum(Success, cases), |cases|)
    && totals.providerFailures == Sum(FailedProviders, cases)
    && totals.expectedFailures == Sum(ExpectedFailure, cases)
    && totals.unexpectedFailures == Sum(UnexpectedFailure, cases)
    && totals.evaluatorErrors == Sum(EvaluatorError, cases)
    && totals.latencies == LatenciesOf(cases)
    && totals.meanLatency == Mean(totals.latencies)
    && totals.latencyP95 == PercentileNearestRank(totals.latencies, 95.0)
  }

  ghost predicate PerFieldTotalled(cases: seq<CaseResult>, perField: map<Field, Rate>) {
    && (forall field: Field :: field in perField)
    && forall field: Field :: field in perField ==>
         perField[field] == Rate(Sum(OverScores(CorrectOn(field)), cases), Sum(OverScores(ComparedOn(field)), cases))
  }

  function Counted(rate: Rate, correct: nat, compared: nat): Rate {
    Rate(rate.numerator + correct, rate.denominator + compared)
  }

  function NoScores(): map<Field, Rate> {
    map field: Field | field in COMPARISON_FIELDS :: Rate(0, 0)
  }

  /** `after` is `before` with every score counted under its own field. */
  ghost predicate ScoresCounted(before: map<Field, Rate>, scores: seq<FieldScore>, after: map<Field, Rate>) {
    && (forall field: Field :: field in before && field in after)
    && forall field: Field :: field in after ==>
         after[field] == Counted(before[field], Sum(CorrectOn(field), scores), Sum(ComparedOn(field), scores))
  }

  lemma ScoreCounted(before: map<Field, Rate>, scores: seq<FieldScore>, i: nat, now: map<Field, Rate>)
    requires i < |scores| && ScoresCounted(before, scores[..i], now)
    ensures
      var score := scores[i];
      ScoresCounted(before, scores[..i + 1], now[score.field := Counted(now[score.field], score.correct, score.compared)])
  {
    hide Sum;
    forall field: Field
      ensures Sum(CorrectOn(field), scores[..i + 1]) == Sum(CorrectOn(field), scores[..i]) + CorrectOn(field)(scores[i])
      ensures Sum(ComparedOn(field), scores[..i + 1]) == Sum(ComparedOn(field), scores[..i]) + ComparedOn(field)(scores[i])
    {
      SumNext(CorrectOn(field), scores, i);
      SumNext(ComparedOn(field), scores, i);
    }
  }

  /** The inner loop: one case's field scores, added to the running totals. */
  method AddScores(fields: Rate, perField: map<Field, Rate>, scores: seq<FieldScore>)
    returns (fields': Rate, perField': map<Field, Rate>)
    requires forall field: Field :: field in perField
    ensures fields' == Counted(fields, Sum(CorrectOf, scores), Sum(ComparedOf, scores))
    ensures ScoresCounted(perField, scores, perField')
  {
    fields', perField' := fields, perField;
    for i := 0 to |scores|
      invariant fields' == Counted(fields, Sum(CorrectOf, scores[..i]), Sum(ComparedOf, scores[..i]))
      invariant ScoresCounted(perField, scores[..i], perField')
    {
      hide Sum;
      var score := scores[i];
      ScoreCounted(perField, scores, i, perField');
      SumNext(CorrectOf, scores, i);
      SumNext(ComparedOf, scores, i);
      perField' := perField'[score.field := Counted(perField'[score.field], score.correct, score.compared)];
      fields' := Counted(fields', score.correct, score.compared);
    }
    assert scores[..|scores|] == scores;
  }

  method AggregateMetrics(cases: seq<CaseResult>) returns (totals: Totals)
    ensures Totalled(cases, totals)
  {
    hide Sum, LatenciesOf, PerFieldTotalled, Mean, PercentileNearestRank;
    NothingCounted();
    var schemaNum, schemaDen, decisionNum, decisionDen, successNum := 0, 0, 0, 0, 0;
    var fields, perField := Rate(0, 0), NoScores();
    var failures, expected, unexpected, errors := 0, 0, 0, 0;
    var latencies: seq<real> := [];
    for i := 0 to |cases|
      invariant schemaNum == Sum(SchemaCorrect, cases[..i]) && schemaDen == Sum(SchemaCompared, cases[..i])
      invariant fields == Rate(Sum(OverScores(CorrectOf), cases[..i]), Sum(OverScores(ComparedOf), cases[..i]))
      invariant PerFieldTotalled(cases[..i], perField)
      invariant decisionNum == Sum(DecisionCorrect, cases[..i]) && decisionDen == Sum(DecisionCompared, cases[..i])
      invariant successNum == Sum(Success, cases[..i])
      invariant failures == Sum(FailedProviders, cases[..i])
      invariant expected == Sum(ExpectedFailure, cases[..i]) && unexpected == Sum(UnexpectedFailure, cases[..i])
      invariant errors == Sum(EvaluatorError, cases[..i])
      invariant latencies == LatenciesOf(cases[..i])
    {
      var c := cases[i];
      CountersNext(cases, i);
      if c.schemaApplicable {
        schemaDen := schemaDen + 1;
        if c.schemaValid == Some(true) {
          schemaNum := schemaNum + 1;
        }
      }
      fields, perField := AddCase(cases, i, c, fields, perField);
      if c.decisionApplicable {
        decisionDen := decisionDen + 1;
        if c.decisionMatch == Some(true) {
          decisionNum := decisionNum + 1;
        }
      }
      if c.caseSuccess {
        successNum := successNum + 1;
      }
      if c.outcomeClass == ProviderFailed {
        failures := failures + 1;
        if IsSet(c.expectedErrorClass) {
          expected := expected + 1;
        } else {
          unexpected := unexpected + 1;
        }
      }
      if c.outcomeClass == EvaluatorFailed {
        errors := errors + 1;
      }
      if c.latency.Some? {
        latencies := latencies + [c.latency.value];
      }
    }
    assert cases[..|cases|] == cases;
    totals := Totals(Rate(schemaNum, schemaDen), fields, perField, Rate(decisionNum, decisionDen),
                     Rate(successNum, |cases|), failures, expected, unexpected, errors, latencies,
                     Mean(latencies), PercentileNearestRank(latencies, 95.0));
  }

  /** The part of the loop body that looks at the case's field scores. */
  method AddCase(ghost cases: seq<CaseResult>, ghost i: nat, c: CaseResult, fields: Rate, perField: map<Field, Rate>)
    returns (fields': Rate, perField': map<Field, Rate>)
    requires i < |cases| && c == cases[i]
    requires fields == Rate(Sum(OverScores(CorrectOf), cases[..i]), Sum(OverScores(ComparedOf), cases[..i]))
    requires PerFieldTotalled(cases[..i], perField)
    ensures fields' == Rate(Sum(OverScores(CorrectOf), cases[..i + 1]), Sum(OverScores(ComparedOf), cases[..i + 1]))
    ensures PerFieldTotalled(cases[..i + 1], perField')
  {
    hide Sum;
    fields', perField' := fields, perField;
    if c.fieldComparisonApplicable {
      fields', perField' := AddScores(fields, perField, c.fieldScores);
    }
    SumNext(OverScores(CorrectOf), cases, i);
    SumNext(OverScores(ComparedOf), cases, i);
    forall field: Field
      ensures perField'[field]
           == Rate(Sum(OverScores(CorrectOn(field)), cases[..i + 1]), Sum(OverScores(ComparedOn(field)), cases[..i + 1]))
    {
      SumNext(OverScores(CorrectOn(field)), cases, i);
      SumNext(OverScores(ComparedOn(field)), cases, i);
    }
  }

  lemma NothingCounted()
    ensures forall weight: CaseResult -> nat :: Sum(weight, []) == 0
    ensures LatenciesOf([]) == []
    ensures PerFieldTotalled([], NoScores())
  {
    forall field: Field
      ensures field in NoScores()
    {
      EveryFieldOnce(field);
    }
  }

  lemma CountersNext(cases: seq<CaseResult>, i: nat)
    requires i < |cases|
    ensures Sum(SchemaCorrect, cases[..i + 1]) == Sum(SchemaCorrect, cases[..i]) + SchemaCorrect(cases[i])
    ensures Sum(SchemaCompared, cases[..i + 1]) == Sum(SchemaCompared, cases[..i]) + SchemaCompared(cases[i])
    ensures Sum(DecisionCorrect, cases[..i + 1]) == Sum(DecisionCorrect, cases[..i]) + DecisionCorrect(cases[i])
    ensures Sum(DecisionCompared, cases[..i + 1]) == Sum(DecisionCompared, cases[..i]) + DecisionCompared(cases[i])
    ensures Sum(Success, cases[..i + 1]) == Sum(Success, cases[..i]) + Success(cases[i])
    ensures Sum(FailedProviders, cases[..i + 1]) == Sum(FailedProviders, cases[..i]) + FailedProviders(cases[i])
    ensures Sum(ExpectedFailure, cases[..i + 1]) == Sum(ExpectedFailure, cases[..i]) + ExpectedFailure(cases[i])
    ensures Sum(UnexpectedFailure, cases[..i + 1]) == Sum(UnexpectedFailure, cases[..i]) + UnexpectedFailure(cases[i])
    ensures Sum(EvaluatorError, cases[..i + 1]) == Sum(EvaluatorError, cases[..i]) + EvaluatorError(cases[i])
    ensures LatenciesOf(cases[..i + 1])
         == LatenciesOf(cases[..i]) + if cases[i].latency.Some? then [cases[i].latency.value] else []
  {
    assert cases[..i + 1][..i] == cases[..i];
  }

  // ---- What the metrics promise ----

  function Plus(a: Rate, b: Rate): Rate {
    Rate(a.numerator + b.numerator, a.denominator + b.denominator)
  }

  lemma {:induction false} LatenciesOfBoth(a: seq<CaseResult>, b: seq<CaseResult>)
    ensures LatenciesOf(a + b) == LatenciesOf(a) + LatenciesOf(b)
  {
    if b == [] {
      assert a + b == a;
    } else {
      LatenciesOfBoth(a, b[..|b| - 1]);
      assert (a + b)[..|a + b| - 1] == a + b[..|b| - 1];
    }
  }

  /** Metrics of two batches of cases add up, field by field too. */
  lemma TotalsAdd(a: seq<CaseResult>, b: seq<CaseResult>, left: Totals, right: Totals, both: Totals)
    requires Totalled(a, left) && Totalled(b, right) && Totalled(a + b, both)
    ensures both.schema == Plus(left.schema, right.schema) && both.fields == Plus(left.fields, right.fields)
    ensures both.decisions == Plus(left.decisions, right.decisions) && both.successes == Plus(left.successes, right.successes)
    ensures forall field: Field :: both.perField[field] == Plus(left.perField[field], right.perField[field])
    ensures both.providerFailures == left.providerFailures + right.providerFailures
    ensures both.expectedFailures == left.expectedFailures + right.expectedFailures
    ensures both.unexpectedFailures == left.unexpectedFailures + right.unexpectedFailures
    ensures both.evaluatorErrors == left.evaluatorErrors + right.evaluatorErrors
    ensures both.latencies == left.latencies + right.latencies
  {
    hide Sum, LatenciesOf;
    forall weight: CaseResult -> nat
      ensures Sum(weight, a + b) == Sum(weight, a) + Sum(weight, b)
    {
      SumOfBoth(weight, a, b);
    }
    LatenciesOfBoth(a, b);
  }

  lemma OutcomesCount(cases: seq<CaseResult>, totals: Totals)
    requires Totalled(cases, totals)
    ensures totals.providerFailures == |set i | 0 <= i < |cases| && cases[i].outcomeClass == ProviderFailed|
    ensures totals.expectedFailures
         == |set i | 0 <= i < |cases| && cases[i].outcomeClass == ProviderFailed
                     && cases[i].expectedErrorClass.Some? && cases[i].expectedErrorClass.value != ""|
    ensures totals.evaluatorErrors == |set i | 0 <= i < |cases| && cases[i].outcomeClass == EvaluatorFailed|
  {
    hide Sum, PerFieldTotalled, LatenciesOf;
    SumCounts(FailedProviders, cases);
    SumCounts(ExpectedFailure, cases);
    SumCounts(EvaluatorError, cases);
    assert Places(FailedProviders, cases) == set i | 0 <= i < |cases| && cases[i].outcomeClass == ProviderFailed;
    assert Places(ExpectedFailure, cases)
        == set i | 0 <= i < |cases| && cases[i].outcomeClass == ProviderFailed
                   && cases[i].expectedErrorClass.Some? && cases[i].expectedErrorClass.value != "";
    assert Places(EvaluatorError, cases) == set i | 0 <= i < |cases| && cases[i].outcomeClass == EvaluatorFailed;
  }

  /** Each counter is a number of cases: those that are asked about, and those that come out as they should. */
  lemma CountersCount(cases: seq<CaseResult>, totals: Totals)
    requires Totalled(cases, totals)
    ensures totals.schema.denominator == |set i | 0 <= i < |cases| && cases[i].schemaApplicable|
    ensures totals.schema.numerator == |set i | 0 <= i < |cases| && cases[i].schemaApplicable && cases[i].schemaValid == Some(true)|
    ensures totals.decisions.denominator == |set i | 0 <= i < |cases| && cases[i].decisionApplicable|
    ensures totals.decisions.numerator
         == |set i | 0 <= i < |cases| && cases[i].decisionApplicable && cases[i].decisionMatch == Some(true)|
    ensures totals.successes.denominator == |cases|
    ensures totals.successes.numerator == |set i | 0 <= i < |cases| && cases[i].caseSuccess|
  {
    hide Sum, PerFieldTotalled, LatenciesOf;
    SumCounts(SchemaCompared, cases);
    SumCounts(SchemaCorrect, cases);
    SumCounts(DecisionCompared, cases);
    SumCounts(DecisionCorrect, cases);
    SumCounts(Success, cases);
    assert Places(SchemaCompared, cases) == set i | 0 <= i < |cases| && cases[i].schemaApplicable;
    assert Places(SchemaCorrect, cases)
        == set i | 0 <= i < |cases| && cases[i].schemaApplicable && cases[i].schemaValid == Some(true);
    assert Places(DecisionCompared, cases) == set i | 0 <= i < |cases| && cases[i].decisionApplicable;
    assert Places(DecisionCorrect, cases)
        == set i | 0 <= i < |cases| && cases[i].decisionApplicable && cases[i].decisionMatch == Some(true);
    assert Places(Success, cases) == set i | 0 <= i < |cases| && cases[i].caseSuccess;
  }

  function HasLatency(c: CaseResult): nat { One(c.latency.Some?) }

  lemma {:induction false} LatenciesCounted(cases: seq<CaseResult>)
    ensures |LatenciesOf(cases)| == Sum(HasLatency, cases)
  {
    if cases != [] {
      LatenciesCounted(cases[..|cases| - 1]);
    }
  }

  lemma {:induction false} LatenciesGiven(cases: seq<CaseResult>, x: real)
    ensures x in LatenciesOf(cases) <==> exists c :: c in cases && c.latency == Some(x)
  {
    if cases != [] {
      var front, last := cases[..|cases| - 1], cases[|cases| - 1];
      LatenciesGiven(front, x);
      assert cases == front + [last];
      assert forall c :: c in cases <==> c in front || c == last;
    }
  }

  /** The latencies are those of the cases that have one. */
  lemma LatenciesAreCollected(cases: seq<CaseResult>)
    ensures |LatenciesOf(cases)| == |set i | 0 <= i < |cases| && cases[i].latency.Some?|
    ensures forall x :: x in LatenciesOf(cases) <==> exists c :: c in cases && c.latency == Some(x)
  {
    hide Sum, LatenciesOf;
    LatenciesCounted(cases);
    SumCounts(HasLatency, cases);
    assert Places(HasLatency, cases) == set i | 0 <= i < |cases| && cases[i].latency.Some?;
    forall x
      ensures x in LatenciesOf(cases) <==> exists c :: c in cases && c.latency == Some(x)
    {
      LatenciesGiven(cases, x);
    }
  }

  function LatencyOf(latency: Option<real>): seq<real> {
    if latency.Some? then [latency.value] else []
  }

  lemma LatenciesWithout(cases: seq<CaseResult>, i: nat)
    requires i < |cases|
    ensures multiset(LatenciesOf(cases))
         == multiset(LatenciesOf(cases[..i] + cases[i + 1..])) + multiset(LatencyOf(cases[i].latency))
  {
    hide LatenciesOf;
    var before, after := cases[..i], cases[i + 1..];
    assert cases == before + [cases[i]] + after;
    LatenciesOfBoth(before + [cases[i]], after);
    LatenciesOfBoth(before, [cases[i]]);
    LatenciesOfBoth(before, after);
    LatenciesOfOne(cases[i]);
  }

  lemma LatenciesOfOne(c: CaseResult)
    ensures LatenciesOf([c]) == LatencyOf(c.latency)
  {
    assert [c][..0] == [];
  }

  lemma {:induction false} LatenciesPermuted(a: seq<CaseResult>, b: seq<CaseResult>)
    requires multiset(a) == multiset(b)
    ensures multiset(LatenciesOf(a)) == multiset(LatenciesOf(b))
    decreases a
  {
    SameLength(a, b);
    if a != [] {
      hide LatenciesOf;
      var i := TakeOut(a, b);
      LatenciesPermuted(a[..0] + a[1..], b[..i] + b[i + 1..]);
      LatenciesWithout(a, 0);
      LatenciesWithout(b, i);
    }
  }

  /** The order of the cases changes no counter and no summary, and the latencies only in their order. */
  lemma TotalsIgnoreOrder(a: seq<CaseResult>, b: seq<CaseResult>, left: Totals, right: Totals)
    requires multiset(a) == multiset(b) && Totalled(a, left) && Totalled(b, right)
    ensures left == right.(latencies := left.latencies)
    ensures multiset(left.latencies) == multiset(right.latencies)
  {
    hide Sum, LatenciesOf;
    forall weight: CaseResult -> nat
      ensures Sum(weight, a) == Sum(weight, b)
    {
      SumPermuted(weight, a, b);
    }
    SameLength(a, b);
    assert left.perField == right.perField;
    LatenciesPermuted(a, b);
    MeanIgnoresOrder(left.latencies, right.latencies);
    PercentileIgnoresOrder(left.latencies, right.latencies, 95.0);
  }

  ghost predicate SoundScores(cases: seq<CaseResult>) {
    forall c, score :: c in cases && score in c.fieldScores ==> score.correct <= score.compared
  }

  ghost predicate IsProportion(rate: Rate) {
    rate.numerator <= rate.denominator
  }

  lemma OverScoresBounded(cases: seq<CaseResult>, small: FieldScore -> nat, large: FieldScore -> nat)
    requires forall c, score :: c in cases && score in c.fieldScores ==> small(score) <= large(score)
    ensures Sum(OverScores(small), cases) <= Sum(OverScores(large), cases)
  {
    forall c | c in cases
      ensures OverScores(small)(c) <= OverScores(large)(c)
    {
      SumBounded(small, large, c.fieldScores);
    }
    SumBounded(OverScores(small), OverScores(large), cases);
  }

  /** No rate exceeds one, as long as no field is right more often than it was compared. */
  lemma RatesAreProportions(cases: seq<CaseResult>, totals: Totals)
    requires Totalled(cases, totals) && SoundScores(cases)
    ensures IsProportion(totals.schema) && IsProportion(totals.decisions) && IsProportion(totals.successes)
    ensures IsProportion(totals.fields) && forall field: Field :: IsProportion(totals.perField[field])
  {
    hide Sum;
    SumBounded(SchemaCorrect, SchemaCompared, cases);
    SumBounded(DecisionCorrect, DecisionCompared, cases);
    SuccessesBounded(cases);
    OverScoresBounded(cases, CorrectOf, ComparedOf);
    forall field: Field
      ensures IsProportion(totals.perField[field])
    {
      OverScoresBounded(cases, CorrectOn(field), ComparedOn(field));
    }
  }

  lemma {:induction false} SuccessesBounded(cases: seq<CaseResult>)
    ensures Sum(Success, cases) <= |cases|
  {
    if cases != [] {
      SuccessesBounded(cases[..|cases| - 1]);
    }
  }

  // ---- The fields add up to the whole ----

  function At<T>(part: Field -> T -> nat, item: T): Field -> nat {
    (field: Field) => part(field)(item)
  }

  function Over<T>(part: Field -> T -> nat, items: seq<T>): Field -> nat {
    (field: Field) => Sum(part(field), items)
  }

  /** If the parts of each item add up, over the fields, to the whole of it, so do their sums. */
  lemma {:induction false} PartsAddUp<T>(part: Field -> T -> nat, whole: T -> nat, fields: seq<Field>, items: seq<T>)
    requires forall item :: item in items ==> Sum(At(part, item), fields) == whole(item)
    ensures Sum(Over(part, items), fields) == Sum(whole, items)
    decreases items
  {
    if items == [] {
      SumOfSame(Over(part, items), (field: Field) => 0, fields);
      SumOfZeros(fields);
    } else {
      var front, last := items[..|items| - 1], items[|items| - 1];
      PartsAddUp(part, whole, fields, front);
      SumOfPairs(Over(part, front), At(part, last), Over(part, items), fields);
      assert last in items;
    }
  }

  lemma {:induction false} SumOfZeros(fields: seq<Field>)
    ensures Sum((field: Field) => 0, fields) == 0
  {
    if fields != [] {
      SumOfZeros(fields[..|fields| - 1]);
    }
  }

  lemma {:induction false} OneFieldCounts(weight: Field -> nat, field: Field, fields: seq<Field>)
    requires forall i, j :: 0 <= i < j < |fields| ==> fields[i] != fields[j]
    requires forall other: Field :: other != field ==> weight(other) == 0
    ensures Sum(weight, fields) == if field in fields then weight(field) else 0
  {
    if fields != [] {
      var front := fields[..|fields| - 1];
      OneFieldCounts(weight, field, front);
      assert fields == front + [fields[|fields| - 1]];
    }
  }

  lemma EveryFieldOnce(field: Field)
    ensures field in COMPARISON_FIELDS
    ensures forall i, j :: 0 <= i < j < |COMPARISON_FIELDS| ==> COMPARISON_FIELDS[i] != COMPARISON_FIELDS[j]
  {
  }

  function Lifted(part: Field -> FieldScore -> nat): Field -> CaseResult -> nat {
    (field: Field) => OverScores(part(field))
  }

  lemma ScorePartsAddUp(part: Field -> FieldScore -> nat, whole: FieldScore -> nat, cases: seq<CaseResult>)
    requires forall field: Field, score: FieldScore :: part(field)(score) == if score.field == field then whole(score) else 0
    ensures Sum(Over(Lifted(part), cases), COMPARISON_FIELDS) == Sum(OverScores(whole), cases)
  {
    hide Sum;
    var lifted := Lifted(part);
    forall c
      ensures Sum(At(lifted, c), COMPARISON_FIELDS) == OverScores(whole)(c)
    {
      if c.fieldComparisonApplicable {
        forall score: FieldScore
          ensures Sum(At(part, score), COMPARISON_FIELDS) == whole(score)
        {
          EveryFieldOnce(score.field);
          OneFieldCounts(At(part, score), score.field, COMPARISON_FIELDS);
        }
        PartsAddUp(part, whole, COMPARISON_FIELDS, c.fieldScores);
        SumOfSame(At(lifted, c), Over(part, c.fieldScores), COMPARISON_FIELDS);
      } else {
        SumOfSame(At(lifted, c), (field: Field) => 0, COMPARISON_FIELDS);
        SumOfZeros(COMPARISON_FIELDS);
      }
    }
    PartsAddUp(lifted, OverScores(whole), COMPARISON_FIELDS, cases);
  }

  function Numerators(perField: map<Field, Rate>): Field -> nat {
    (field: Field) => if field in perField then perField[field].numerator else 0
  }

  function Denominators(perField: map<Field, Rate>): Field -> nat {
    (field: Field) => if field in perField then perField[field].denominator else 0
  }

  /** The overall field counters are the sums of the per-field ones. */
  lemma FieldsAddUpToTheWhole(cases: seq<CaseResult>, totals: Totals)
    requires Totalled(cases, totals)
    ensures Sum(Numerators(totals.perField), COMPARISON_FIELDS) == totals.fields.numerator
    ensures Sum(Denominators(totals.perField), COMPARISON_FIELDS) == totals.fields.denominator
  {
    hide Sum, OverScores, LatenciesOf;
    ScorePartsAddUp(CorrectOn, CorrectOf, cases);
    SumOfSame(Numerators(totals.perField), Over(Lifted(CorrectOn), cases), COMPARISON_FIELDS);
    ScorePartsAddUp(ComparedOn, ComparedOf, cases);
    SumOfSame(Denominators(totals.perField), Over(Lifted(ComparedOn), cases), COMPARISON_FIELDS);
  }

  /** Every provider failure was either expected or not. */
  lemma FailuresAddUp(cases: seq<CaseResult>, totals: Totals)
    requires Totalled(cases, totals)
    ensures totals.providerFailures == totals.expectedFailures + totals.unexpectedFailures
  {
    hide Sum, LatenciesOf, PerFieldTotalled;
    SumOfPairs(ExpectedFailure, UnexpectedFailure, FailedProviders, cases);
  }

  // ---- The mean ----

  function Total(values: seq<real>): real {
    if values == [] then 0.0 else Total(values[..|values| - 1]) + values[|values| - 1]
  }

  function Mean(values: seq<real>): Option<real> {
    if values == [] then None else Some(Total(values) / |values| as real)
  }

  lemma {:induction false} TotalIsBetween(values: seq<real>, low: real, high: real)
    requires forall value :: value in values ==> low <= value <= high
    ensures low * |values| as real <= Total(values) <= high * |values| as real
  {
    if values != [] {
      var front, last := values[..|values| - 1], values[|values| - 1];
      assert last in values && forall value :: value in front ==> value in values;
      TotalIsBetween(front, low, high);
      assert low * |values| as real == low * |front| as real + low;
      assert high * |values| as real == high * |front| as real + high;
    }
  }

  lemma QuotientIsBetween(total: real, count: real, low: real, high: real)
    requires count > 0.0 && low * count <= total <= high * count
    ensures low <= total / count <= high && total / count * count == total
  {
    var quotient := total / count;
    assert quotient * count == total;
    assert (quotient - low) * count >= 0.0 && (high - quotient) * count >= 0.0;
  }

  /** The mean of any values lies between their bounds, and as many times the mean make up their total. */
  lemma MeanIsBetween(values: seq<real>, low: real, high: real)
    requires values != [] && forall value :: value in values ==> low <= value <= high
    ensures Mean(values).Some? && low <= Mean(values).value <= high
    ensures Mean(values).value * |values| as real == Total(values)
  {
    hide Total;
    TotalIsBetween(values, low, high);
    QuotientIsBetween(Total(values), |values| as real, low, high);
  }

  lemma {:induction false} TotalOfBoth(a: seq<real>, b: seq<real>)
    ensures Total(a + b) == Total(a) + Total(b)
    decreases b
  {
    if b == [] {
      assert a + b == a;
    } else {
      TotalOfBoth(a, b[..|b| - 1]);
      assert (a + b)[..|a + b| - 1] == a + b[..|b| - 1];
    }
  }

  lemma TotalOfOne(value: real)
    ensures Total([value]) == value
  {
    assert [value][..0] == [];
  }

  lemma TotalWithout(values: seq<real>, i: nat)
    requires i < |values|
    ensures Total(values) == Total(values[..i] + values[i + 1..]) + values[i]
  {
    hide Total;
    assert values == values[..i] + [values[i]] + values[i + 1..];
    TotalOfBoth(values[..i] + [values[i]], values[i + 1..]);
    TotalOfBoth(values[..i], [values[i]]);
    TotalOfBoth(values[..i], values[i + 1..]);
    TotalOfOne(values[i]);
  }

  lemma {:induction false} TotalPermuted(a: seq<real>, b: seq<real>)
    requires multiset(a) == multiset(b)
    ensures Total(a) == Total(b)
    decreases a
  {
    SameLength(a, b);
    if a != [] {
      hide Total;
      var i := TakeOut(a, b);
      TotalPermuted(a[..0] + a[1..], b[..i] + b[i + 1..]);
      TotalWithout(a, 0);
      TotalWithout(b, i);
    }
  }

  lemma MeanIgnoresOrder(a: seq<real>, b: seq<real>)
    requires multiset(a) == multiset(b)
    ensures Mean(a) == Mean(b)
  {
    hide Total;
    SameLength(a, b);
    TotalPermuted(a, b);
  }

  // ---- The percentile ----

  const REAL_LESS: (real, real) -> bool := (a, b) => a < b

  /** Python's `round`: to the nearest integer, halves to the even one. */
  function RoundHalfEven(x: real): int {
    var below := x.Floor;
    var rest := x - below as real;
    if rest < 0.5 || (rest == 0.5 && below % 2 == 0) then below else below + 1
  }

  /** The rank, counted from one, of a share of the count. */
  function RankOf(share: real, count: nat): (rank: nat)
    requires count > 0
    ensures 1 <= rank <= count
  {
    var rounded := RoundHalfEven(share);
    var rank := if rounded > 1 then rounded else 1;
    if rank < count then rank else count
  }

  function PercentileIndex(count: nat, percentile: real): (index: nat)
    requires count > 0
    ensures index < count
  {
    RankOf(percentile / 100.0 * count as real, count) - 1
  }

  lemma RankIsNear(share: real, count: nat)
    requires 0.0 < share <= count as real
    ensures
      var rank := RankOf(share, count);
      if share <= 0.5 then rank == 1
      else
        && share - 0.5 <= rank as real <= share + 0.5
        && (rank as real == share - 0.5 || rank as real == share + 0.5 ==> rank % 2 == 0)
  {
    assert share.Floor as real <= share < share.Floor as real + 1.0;
  }

  /** The rank, counted from one, is the share of the count that the percentile asks for, rounded to the nearest
      integer and halves to the even one; a share of one half or less gives the first rank. */
  lemma RankIsNearShare(count: nat, percentile: real)
    requires count > 0 && 0.0 < percentile <= 100.0
    ensures
      var share := percentile / 100.0 * count as real;
      var rank := PercentileIndex(count, percentile) + 1;
      if share <= 0.5 then rank == 1
      else
        && share - 0.5 <= rank as real <= share + 0.5
        && (rank as real == share - 0.5 || rank as real == share + 0.5 ==> rank % 2 == 0)
  {
    hide RankOf;
    ShareOfWhole(count, percentile);
    RankIsNear(percentile / 100.0 * count as real, count);
  }

  lemma ShareOfWhole(count: nat, percentile: real)
    requires 0.0 < percentile <= 100.0
    ensures percentile / 100.0 * count as real <= count as real
    ensures count > 0 ==> percentile / 100.0 * count as real > 0.0
  {
    var portion, whole := percentile / 100.0, count as real;
    assert 0.0 < portion <= 1.0;
    assert (1.0 - portion) * whole >= 0.0;
    assert whole > 0.0 ==> portion * whole > 0.0;
  }

  function PercentileNearestRank(values: seq<real>, percentile: real): Option<real> {
    if values == [] then None
    else if |values| == 1 then Some(values[0])
    else Some(SortedAt(values, PercentileIndex(|values|, percentile)))
  }

  function SortedAt(values: seq<real>, index: nat): real
    requires index < |values|
  {
    RealsAreOrdered();
    SortedSorts(REAL_LESS, values);
    assert |multiset(values)| == |values|;
    Sorted(REAL_LESS, values)[index]
  }

  lemma RealsAreOrdered()
    ensures StrictOrder(REAL_LESS)
  {
  }

  function AtMost(x: real): real -> nat { v => One(v <= x) }
  function AtLeast(x: real): real -> nat { v => One(v >= x) }

  lemma {:induction false} SumOfOnes(weight: real -> nat, values: seq<real>)
    requires forall value :: value in values ==> weight(value) == 1
    ensures Sum(weight, values) == |values|
  {
    if values != [] {
      var front, last := values[..|values| - 1], values[|values| - 1];
      SumOfOnes(weight, front);
      assert last in values && weight(last) == 1;
      assert Sum(weight, values) == Sum(weight, front) + weight(last);
    }
  }

  lemma RankFromBelow(ordered: seq<real>, index: nat)
    requires IsSorted(REAL_LESS, ordered) && index < |ordered|
    ensures Sum(AtMost(ordered[index]), ordered) >= index + 1
  {
    hide Sum;
    var weight := AtMost(ordered[index]);
    forall v | v in ordered[..index + 1]
      ensures weight(v) == 1
    {
      var i :| 0 <= i <= index && ordered[i] == v;
      assert i == index || !REAL_LESS(ordered[index], ordered[i]);
      assert v <= ordered[index];
      assert weight(v) == One(v <= ordered[index]);
    }
    SumOfOnes(weight, ordered[..index + 1]);
    SumOfBoth(weight, ordered[..index + 1], ordered[index + 1..]);
    assert ordered[..index + 1] + ordered[index + 1..] == ordered;
  }

  lemma RankFromAbove(ordered: seq<real>, index: nat)
    requires IsSorted(REAL_LESS, ordered) && index < |ordered|
    ensures Sum(AtLeast(ordered[index]), ordered) >= |ordered| - index
  {
    hide Sum;
    var weight := AtLeast(ordered[index]);
    forall v | v in ordered[index..]
      ensures weight(v) == 1
    {
      var i :| index <= i < |ordered| && ordered[i] == v;
      assert i == index || !REAL_LESS(ordered[i], ordered[index]);
      assert v >= ordered[index];
      assert weight(v) == One(v >= ordered[index]);
    }
    SumOfOnes(weight, ordered[index..]);
    SumOfBoth(weight, ordered[..index], ordered[index..]);
    assert ordered[..index] + ordered[index..] == ordered;
  }

  lemma PercentileIsInPlace(values: seq<real>, percentile: real)
    requires values != []
    ensures
      var ordered := Sorted(REAL_LESS, values);
      var index := PercentileIndex(|values|, percentile);
      && |ordered| == |values|
      && PercentileNearestRank(values, percentile) == Some(ordered[index])
  {
    hide Sorted;
    RealsAreOrdered();
    SortedSorts(REAL_LESS, values);
    assert |Sorted(REAL_LESS, values)| == |multiset(values)| == |values|;
    OnlyOne(values);
  }

  /** The percentile is one of the values. As many of them as its share of the count, to within one half, are no
      greater, and as many as the rest of the count no smaller; a share of one half or less gives the least value. */
  lemma PercentileHasItsRank(values: seq<real>, percentile: real)
    requires values != [] && 0.0 < percentile <= 100.0
    ensures
      var p := PercentileNearestRank(values, percentile);
      var share := percentile / 100.0 * |values| as real;
      && p.Some? && p.value in values
      && |set i | 0 <= i < |values| && values[i] <= p.value| as real >= share - 0.5
      && |set i | 0 <= i < |values| && values[i] >= p.value| as real
         >= if share > 0.5 then |values| as real - share + 0.5 else |values| as real
  {
    hide Sum, PercentileIndex, PercentileNearestRank, Sorted;
    PercentileHasRank(values, percentile);
    RankIsNearShare(|values|, percentile);
    var p := PercentileNearestRank(values, percentile).value;
    CountsOfReals(p, values);
    CountsFollowShare(percentile / 100.0 * |values| as real, |values|, PercentileIndex(|values|, percentile) + 1,
                      Sum(AtMost(p), values), Sum(AtLeast(p), values));
  }

  lemma CountsFollowShare(share: real, count: nat, rank: nat, below: nat, above: nat)
    requires if share <= 0.5 then rank == 1 else share - 0.5 <= rank as real <= share + 0.5
    requires below >= rank && above >= count - rank + 1
    ensures below as real >= share - 0.5
    ensures above as real >= if share > 0.5 then count as real - share + 0.5 else count as real
  {
  }

  lemma CountsOfReals(x: real, values: seq<real>)
    ensures Sum(AtMost(x), values) == |set i | 0 <= i < |values| && values[i] <= x|
    ensures Sum(AtLeast(x), values) == |set i | 0 <= i < |values| && values[i] >= x|
  {
    hide Sum;
    assert forall v :: AtMost(x)(v) == One(v <= x) && AtLeast(x)(v) == One(v >= x);
    SumCounts(AtMost(x), values);
    SumCounts(AtLeast(x), values);
    assert Places(AtMost(x), values) == set i | 0 <= i < |values| && values[i] <= x;
    assert Places(AtLeast(x), values) == set i | 0 <= i < |values| && values[i] >= x;
  }

  /** For any percentile whatever: at least its rank of the values are no greater, and at least the rest of them
      no smaller. */
  lemma PercentileHasRank(values: seq<real>, percentile: real)
    requires values != []
    ensures
      var p := PercentileNearestRank(values, percentile);
      var index := PercentileIndex(|values|, percentile);
      && p.Some? && p.value in values
      && Sum(AtMost(p.value), values) >= index + 1
      && Sum(AtLeast(p.value), values) >= |values| - index
  {
    hide Sum, PercentileIndex, PercentileNearestRank, Sorted;
    var index, ordered := PercentileIndex(|values|, percentile), Sorted(REAL_LESS, values);
    PercentileIsInPlace(values, percentile);
    RealsAreOrdered();
    SortedSorts(REAL_LESS, values);
    RankFromBelow(ordered, index);
    RankFromAbove(ordered, index);
    assert ordered[index] in multiset(values);
    SumPermuted(AtMost(ordered[index]), values, ordered);
    SumPermuted(AtLeast(ordered[index]), values, ordered);
  }

  lemma OnlyOne(values: seq<real>)
    requires values != []
    ensures |values| == 1 ==> Sorted(REAL_LESS, values) == values
  {
    assert |values| == 1 ==> values[..0] == [];
  }

  /** The order in which the latencies were collected does not matter. */
  lemma PercentileIgnoresOrder(a: seq<real>, b: seq<real>, percentile: real)
    requires multiset(a) == multiset(b)
    ensures PercentileNearestRank(a, percentile) == PercentileNearestRank(b, percentile)
  {
    SameLength(a, b);
    RealsAreOrdered();
    PermutationsSortAlike(REAL_LESS, a, b);
    if |a| == 1 {
      assert a[0] in multiset(b);
    }
  }
}
