/** The offline evaluator's treatment of one golden case. */
module Evaluator {
  import opened Options
  import opened WorkflowStates
  import opened BusinessRules
  import opened Attempts
  import M = Metrics

  datatype RuleOverrides = RuleOverrides(
    supplierExists: bool,
    purchaseOrderExists: bool,
    isDuplicate: bool,
    supportedCurrencies: Option<seq<string>>,
    confidenceThreshold: Option<real>,
    approvalLimit: Option<real>,
    totalsTolerance: Option<real>)

  datatype GoldenCase<V> = GoldenCase(
    knownScenario: bool,
    expectedInvoice: Option<map<M.Field, V>>,
    expectedDecision: Option<M.Verdict>,
    expectedFinalState: Option<WorkflowState>,
    schemaApplicable: bool,
    fieldComparisonApplicable: bool,
    decisionApplicable: bool,
    expectedErrorClass: Option<string>,
    overrides: RuleOverrides)

  function OrElse<T>(override: Option<T>, default_: T): T {
    if override.Some? then override.value else default_
  }

  /** An empty list of currencies counts as no override. */
  function BuildRuleContext(overrides: RuleOverrides): RuleContext {
    RuleContext(
      if overrides.supportedCurrencies in {None, Some([])} then ["EUR", "USD", "PLN"] else overrides.supportedCurrencies.value,
      OrElse(overrides.confidenceThreshold, 0.90),
      OrElse(overrides.approvalLimit, 1000.00),
      OrElse(overrides.totalsTolerance, 0.01),
      overrides.supplierExists,
      overrides.purchaseOrderExists,
      overrides.isDuplicate)
  }

  /** All the rules of automatic approval, under a case's overrides or else the evaluator's own defaults. */
  ghost predicate PassesCase(invoice: Invoice, overrides: RuleOverrides) {
    var limit := if overrides.approvalLimit.Some? then overrides.approvalLimit.value else 1000.00;
    var tolerance := if overrides.totalsTolerance.Some? then overrides.totalsTolerance.value else 0.01;
    var threshold := if overrides.confidenceThreshold.Some? then overrides.confidenceThreshold.value else 0.90;
    && 0.0 <= invoice.totalAmount <= limit
    && (forall item :: item in invoice.lineItems ==> item.quantity >= 0.0 && item.unitPrice >= 0.0 && item.lineTotal >= 0.0)
    && (invoice.lineItems == [] || -tolerance <= SumOfLines(invoice.lineItems) - invoice.totalAmount <= tolerance)
    && invoice.overallConfidence >= threshold
    && (if overrides.supportedCurrencies.None? || overrides.supportedCurrencies.value == [] then
          invoice.currency == "EUR" || invoice.currency == "USD" || invoice.currency == "PLN"
        else invoice.currency in overrides.supportedCurrencies.value)
    && overrides.supplierExists
    && (invoice.purchaseOrderId.Some? && invoice.purchaseOrderId.value != "" ==> overrides.purchaseOrderExists)
    && !overrides.isDuplicate
  }

  lemma DefaultsApply(invoice: Invoice, overrides: RuleOverrides)
    ensures PassesCase(invoice, overrides) <==> Acceptable(invoice, BuildRuleContext(overrides))
    ensures PassesCase(invoice, overrides) <==> DecideWorkflow(invoice, BuildRuleContext(overrides)).decision == AutoApprove
  {
    hide DecideWorkflow, SumOfLines;
    DecisionCharacterised(invoice, BuildRuleContext(overrides));
    var currencies := BuildRuleContext(overrides).supportedCurrencies;
    assert overrides.supportedCurrencies.None? || overrides.supportedCurrencies.value == [] ==> currencies == ["EUR", "USD", "PLN"];
  }

  function MapFinalState(verdict: M.Verdict): Option<WorkflowState> {
    match verdict
    case ByRules(AutoApprove) => Some(Submitted)
    case ByRules(NeedsHumanReview) => Some(NeedsReview)
    case ByRules(HumanReject) => Some(Rejected)
    case ProviderFailure => Some(Failed)
    case _ => None
  }

  /** The final state the evaluator reports for a case whose provider answers `outcome`. */
  function PredictedState(outcome: ProviderOutcome, context: RuleContext): Option<WorkflowState> {
    match outcome
    case InvalidOutput => Some(NeedsReview)
    case Recoverable(_) => Some(Failed)
    case Returned(_, invoice) => MapFinalState(M.ByRules(DecideWorkflow(invoice, context).decision))
    case _ => None
  }

  function PredictedDecision(outcome: ProviderOutcome, context: RuleContext): Option<M.Verdict> {
    match outcome
    case InvalidOutput => Some(M.ByRules(NeedsHumanReview))
    case Recoverable(_) => Some(M.ProviderFailure)
    case Returned(_, invoice) => Some(M.ByRules(DecideWorkflow(invoice, context).decision))
    case _ => None
  }

  predicate AsExpected<V>(c: GoldenCase<V>, decision: Option<M.Verdict>, state: Option<WorkflowState>) {
    decision == c.expectedDecision && state == c.expectedFinalState
  }

  predicate AllCorrect(scores: seq<M.FieldScore>) {
    forall score :: score in scores ==> score.compared == 0 || score.correct == score.compared
  }

  /** When a case counts as a success. A provider failure is not held to the expected final state. */
  ghost predicate Succeeds<V>(c: GoldenCase<V>, outcome: ProviderOutcome, scores: seq<M.FieldScore>) {
    var context := BuildRuleContext(c.overrides);
    && c.knownScenario
    && match outcome
       case InvalidOutput =>
         c.expectedErrorClass == Some("provider_output_error") && AsExpected(c, Some(M.ByRules(NeedsHumanReview)), Some(NeedsReview))
       case Recoverable(errorClass) =>
         c.expectedErrorClass == Some(errorClass) && c.expectedDecision == Some(M.ProviderFailure)
       case Returned(_, _) =>
         && c.expectedErrorClass.None?
         && (c.fieldComparisonApplicable && c.expectedInvoice.Some? ==> AllCorrect(scores))
         && (c.decisionApplicable ==>
               AsExpected(c, PredictedDecision(outcome, context), PredictedState(outcome, context)))
       case _ => false
  }

  /** How the evaluator compares two field values, and how it turns an invoice into field values. */
  datatype Comparer<!V> = Comparer(equal: (M.Field, V, Option<V>) -> bool, dump: Invoice -> map<M.Field, V>)

  function ActualFields<V>(rules: Comparer<V>, outcome: ProviderOutcome): Option<map<M.Field, V>> {
    if outcome.Returned? then Some(rules.dump(outcome.invoice)) else None
  }

  /** One score for each field; a field is compared only when the provider returned an invoice and the case
      asks for it. */
  ghost predicate Scored<V>(c: GoldenCase<V>, rules: Comparer<V>, outcome: ProviderOutcome, scores: seq<M.FieldScore>) {
    && |scores| == |M.COMPARISON_FIELDS|
    && forall i :: 0 <= i < |scores| ==>
         scores[i] == M.ScoreOf(rules.equal, c.expectedInvoice, ActualFields(rules, outcome),
                                outcome.Returned? && c.fieldComparisonApplicable, M.COMPARISON_FIELDS[i])
  }

  method ScoreCase<V>(c: GoldenCase<V>, rules: Comparer<V>, outcome: ProviderOutcome) returns (scores: seq<M.FieldScore>)
    ensures Scored(c, rules, outcome, scores)
  {
    scores := M.ScoreFields(rules.equal, c.expectedInvoice, ActualFields(rules, outcome),
                            outcome.Returned? && c.fieldComparisonApplicable);
  }

  /** The class a provider's answer falls into, and whether it fitted the schema. */
  function ClassOf(outcome: ProviderOutcome): M.OutcomeClass {
    match outcome
    case Returned(_, _) => M.Ok
    case InvalidOutput => M.SchemaInvalid
    case Recoverable(_) => M.ProviderFailed
    case _ => M.EvaluatorFailed
  }

  /** The error class that a report names for an answer. */
  function ErrorOf(outcome: ProviderOutcome): Option<string> {
    match outcome
    case Returned(_, _) => None
    case InvalidOutput => Some("provider_output_error")
    case Recoverable(errorClass) => Some(errorClass)
    case _ => Some("unexpected_evaluator_error")
  }

  function SchemaVerdict<V>(c: GoldenCase<V>, outcome: ProviderOutcome): Option<bool> {
    match outcome
    case Returned(_, _) => Some(true)
    case InvalidOutput => Some(false)
    case Recoverable(_) => if c.schemaApplicable then Some(false) else None
    case _ => None
  }

  function Matched<V>(c: GoldenCase<V>, decision: Option<M.Verdict>, state: Option<WorkflowState>): Option<bool> {
    if c.decisionApplicable && decision.Some? then Some(AsExpected(c, decision, state)) else None
  }

  /** What the evaluator reports of a case it could put to the provider. */
  ghost predicate Reports<V>(c: GoldenCase<V>, rules: Comparer<V>, outcome: ProviderOutcome, result: M.CaseResult) {
    var context := BuildRuleContext(c.overrides);
    && result.outcomeClass == ClassOf(outcome)
    && result.errorClass == ErrorOf(outcome)
    && result.schemaValid == SchemaVerdict(c, outcome)
    && result.actualDecision == PredictedDecision(outcome, context)
    && result.actualFinalState == PredictedState(outcome, context)
    && result.decisionMatch == Matched(c, result.actualDecision, result.actualFinalState)
    && (if result.outcomeClass == M.EvaluatorFailed then result.fieldScores == [] else Scored(c, rules, outcome, result.fieldScores))
    && (result.caseSuccess <==> Succeeds(c, outcome, result.fieldScores))
  }

  ghost predicate SameFlags<V>(c: GoldenCase<V>, result: M.CaseResult) {
    && result.schemaApplicable == c.schemaApplicable
    && result.fieldComparisonApplicable == c.fieldComparisonApplicable
    && result.decisionApplicable == c.decisionApplicable
    && result.expectedErrorClass == c.expectedErrorClass
  }

  /** What the evaluator reports of any case. */
  ghost predicate Evaluated<V>(c: GoldenCase<V>, rules: Comparer<V>, outcome: ProviderOutcome, result: M.CaseResult) {
    && SameFlags(c, result)
    && if c.knownScenario then Reports(c, rules, outcome, result)
       else
         && result.outcomeClass == M.EvaluatorFailed && result.errorClass == Some("invalid_fake_scenario")
         && result.actualDecision.None? && result.actualFinalState.None? && result.decisionMatch.None?
         && result.fieldScores == [] && !result.caseSuccess
  }

  /** No evaluated case has a field that is right more often than it was compared. */
  lemma EvaluatedIsSound<V>(c: GoldenCase<V>, rules: Comparer<V>, outcome: ProviderOutcome, result: M.CaseResult)
    requires Evaluated(c, rules, outcome, result)
    ensures forall score :: score in result.fieldScores ==> score.correct <= score.compared
  {
    hide Succeeds, PredictedDecision, PredictedState, Matched;
  }

  /** Every expected field is equal to what was found in its place, or to nothing when nothing was. */
  predicate FieldsAgree<V>(rules: Comparer<V>, expected: map<M.Field, V>, invoice: Invoice) {
    var found := rules.dump(invoice);
    forall field: M.Field :: field in expected ==>
      rules.equal(field, expected[field], if field in found then Some(found[field]) else None)
  }

  /** The case came out as the data set has it: a reading has the expected fields and leads, by the rules, to the
      expected decision; any other answer is the error the case expects. */
  ghost predicate AsGolden<V>(c: GoldenCase<V>, rules: Comparer<V>, outcome: ProviderOutcome) {
    && c.knownScenario
    && match outcome
       case InvalidOutput =>
         && c.expectedErrorClass == Some("provider_output_error")
         && c.expectedDecision == Some(M.ByRules(NeedsHumanReview)) && c.expectedFinalState == Some(NeedsReview)
       case Recoverable(errorClass) =>
         c.expectedErrorClass == Some(errorClass) && c.expectedDecision == Some(M.ProviderFailure)
       case Returned(_, invoice) =>
         && c.expectedErrorClass.None?
         && (c.fieldComparisonApplicable && c.expectedInvoice.Some? ==> FieldsAgree(rules, c.expectedInvoice.value, invoice))
         && (c.decisionApplicable ==>
               if PassesCase(invoice, c.overrides) then
                 c.expectedDecision == Some(M.ByRules(AutoApprove)) && c.expectedFinalState == Some(Submitted)
               else
                 c.expectedDecision == Some(M.ByRules(NeedsHumanReview)) && c.expectedFinalState == Some(NeedsReview))
       case _ => false
  }

  /** What the report of a known case says, read off the provider's answer and the expectations: whether the
      answer fitted the schema, what class of outcome and of error it was, and whether the decision it led to was
      the expected one. */
  lemma ReportsTell<V>(c: GoldenCase<V>, rules: Comparer<V>, outcome: ProviderOutcome, result: M.CaseResult)
    requires Evaluated(c, rules, outcome, result) && c.knownScenario
    ensures result.schemaValid == Some(true) <==> outcome.Returned?
    ensures result.schemaValid == Some(false) <==> outcome == InvalidOutput || (outcome.Recoverable? && c.schemaApplicable)
    ensures result.outcomeClass == M.Ok <==> outcome.Returned?
    ensures result.outcomeClass == M.SchemaInvalid <==> outcome == InvalidOutput
    ensures result.outcomeClass == M.ProviderFailed <==> outcome.Recoverable?
    ensures result.errorClass.None? <==> outcome.Returned?
    ensures result.errorClass == Some("provider_output_error") && !outcome.Recoverable? <==> outcome == InvalidOutput
    ensures outcome.Recoverable? ==> result.errorClass == Some(outcome.errorClass)
    ensures result.decisionMatch.Some?
            <==> c.decisionApplicable && (outcome.Returned? || outcome == InvalidOutput || outcome.Recoverable?)
    ensures result.decisionMatch == Some(true) <==>
            && c.decisionApplicable
            && match outcome
               case InvalidOutput =>
                 c.expectedDecision == Some(M.ByRules(NeedsHumanReview)) && c.expectedFinalState == Some(NeedsReview)
               case Recoverable(_) => c.expectedDecision == Some(M.ProviderFailure) && c.expectedFinalState == Some(Failed)
               case Returned(_, invoice) =>
                 if PassesCase(invoice, c.overrides) then
                   c.expectedDecision == Some(M.ByRules(AutoApprove)) && c.expectedFinalState == Some(Submitted)
                 else
                   c.expectedDecision == Some(M.ByRules(NeedsHumanReview)) && c.expectedFinalState == Some(NeedsReview)
               case _ => false
  {
    hide DecideWorkflow, BuildRuleContext, Scored, Succeeds, PassesCase;
    if outcome.Returned? {
      DefaultsApply(outcome.invoice, c.overrides);
      DecisionCharacterised(outcome.invoice, BuildRuleContext(c.overrides));
      DecisionTellsState(outcome.invoice, BuildRuleContext(c.overrides));
    }
  }

  /** Every field has its score, in order: it is compared once when the case expects a value and the provider's
      invoice is to be held against it, and right when that invoice's value agrees. */
  lemma ScoreTells<V>(c: GoldenCase<V>, rules: Comparer<V>, outcome: ProviderOutcome, result: M.CaseResult, i: nat)
    requires Evaluated(c, rules, outcome, result) && result.outcomeClass != M.EvaluatorFailed
    requires i < |M.COMPARISON_FIELDS|
    ensures |result.fieldScores| == |M.COMPARISON_FIELDS|
    ensures
      var score, field := result.fieldScores[i], M.COMPARISON_FIELDS[i];
      && score.field == field
      && score.correct <= score.compared
      && (if && outcome.Returned? && c.fieldComparisonApplicable
             && c.expectedInvoice.Some? && field in c.expectedInvoice.value
          then
            && score.compared == 1
            && var found := rules.dump(outcome.invoice);
            (score.correct == 1 <==>
               rules.equal(field, c.expectedInvoice.value[field], if field in found then Some(found[field]) else None))
          else score.compared == 0)
  {
    hide Succeeds, PredictedDecision, PredictedState, Matched;
  }

  lemma EveryFieldIsScored(field: M.Field)
    ensures exists i :: 0 <= i < |M.COMPARISON_FIELDS| && M.COMPARISON_FIELDS[i] == field
  {
    M.EveryFieldOnce(field);
  }

  lemma ScoresTellAgreement<V>(c: GoldenCase<V>, rules: Comparer<V>, outcome: ProviderOutcome, scores: seq<M.FieldScore>)
    requires Scored(c, rules, outcome, scores)
    requires outcome.Returned? && c.fieldComparisonApplicable && c.expectedInvoice.Some?
    ensures AllCorrect(scores) <==> FieldsAgree(rules, c.expectedInvoice.value, outcome.invoice)
  {
    var found := rules.dump(outcome.invoice);
    var expected := c.expectedInvoice.value;
    if AllCorrect(scores) {
      forall field: M.Field | field in expected
        ensures rules.equal(field, expected[field], if field in found then Some(found[field]) else None)
      {
        EveryFieldIsScored(field);
        var i :| 0 <= i < |M.COMPARISON_FIELDS| && M.COMPARISON_FIELDS[i] == field;
        assert scores[i] in scores;
      }
    }
  }

  lemma DecisionTellsState(invoice: Invoice, context: RuleContext)
    ensures
      var decision := DecideWorkflow(invoice, context).decision;
      MapFinalState(M.ByRules(decision)) == Some(if decision == AutoApprove then Submitted else NeedsReview)
  {
    hide DecideWorkflow;
    DecisionCharacterised(invoice, context);
  }

  /** A case is reported a success exactly when it came out as the data set has it. */
  lemma SuccessMeansAsGolden<V>(c: GoldenCase<V>, rules: Comparer<V>, outcome: ProviderOutcome, result: M.CaseResult)
    requires Evaluated(c, rules, outcome, result)
    ensures result.caseSuccess <==> AsGolden(c, rules, outcome)
  {
    hide DecideWorkflow, BuildRuleContext, Scored, AllCorrect, FieldsAgree, PassesCase;
    if outcome.Returned? {
      DefaultsApply(outcome.invoice, c.overrides);
      DecisionCharacterised(outcome.invoice, BuildRuleContext(c.overrides));
      DecisionTellsState(outcome.invoice, BuildRuleContext(c.overrides));
      if c.knownScenario && c.fieldComparisonApplicable && c.expectedInvoice.Some? {
        ScoresTellAgreement(c, rules, outcome, result.fieldScores);
      }
    }
  }

  method EvaluateCase<V>(c: GoldenCase<V>, rules: Comparer<V>, outcome: ProviderOutcome, latency: real)
    returns (result: M.CaseResult)
    ensures Evaluated(c, rules, outcome, result) && result.latency == Some(latency)
  {
    hide DecideWorkflow, BuildRuleContext, Scored;
    result := M.CaseResult(c.schemaApplicable, c.fieldComparisonApplicable, c.decisionApplicable, c.expectedErrorClass,
                           None, None, None, None, [], M.Ok, None, false, Some(latency));
    if !c.knownScenario {
      result := result.(outcomeClass := M.EvaluatorFailed, errorClass := Some("invalid_fake_scenario"));
      return;
    }
    match outcome
    case InvalidOutput => result := InvalidCase(c, rules, result);
    case Recoverable(errorClass) => result := FailedCase(c, rules, result, errorClass);
    case Returned(provider, invoice) => result := JudgeExtraction(c, rules, result, provider, invoice);
    case _ =>
      result := result.(outcomeClass := M.EvaluatorFailed, errorClass := Some("unexpected_evaluator_error"));
  }

  /** The handler of an output error. */
  method InvalidCase<V>(c: GoldenCase<V>, rules: Comparer<V>, begun: M.CaseResult)
    returns (result: M.CaseResult)
    requires SameFlags(c, begun) && begun.decisionMatch.None? && begun.fieldScores == [] && c.knownScenario
    ensures SameFlags(c, result) && result.latency == begun.latency && Reports(c, rules, InvalidOutput, result)
  {
    hide DecideWorkflow, BuildRuleContext, Scored;
    result := begun.(schemaValid := Some(false), outcomeClass := M.SchemaInvalid, errorClass := Some("provider_output_error"),
                     actualDecision := Some(M.ByRules(NeedsHumanReview)), actualFinalState := Some(NeedsReview));
    if c.decisionApplicable {
      result := result.(decisionMatch := Some(AsExpected(c, result.actualDecision, result.actualFinalState)));
    }
    var scores := ScoreCase(c, rules, InvalidOutput);
    result := result.(fieldScores := scores,
                      caseSuccess := && c.expectedErrorClass == Some("provider_output_error")
                                     && c.expectedDecision == Some(M.ByRules(NeedsHumanReview))
                                     && c.expectedFinalState == Some(NeedsReview));
  }

  /** The handler of a recoverable provider error. */
  method FailedCase<V>(c: GoldenCase<V>, rules: Comparer<V>, begun: M.CaseResult, errorClass: string)
    returns (result: M.CaseResult)
    requires SameFlags(c, begun) && begun.decisionMatch.None? && begun.fieldScores == [] && c.knownScenario
    ensures SameFlags(c, result) && result.latency == begun.latency && Reports(c, rules, Recoverable(errorClass), result)
  {
    hide DecideWorkflow, BuildRuleContext, Scored;
    result := begun.(schemaValid := if c.schemaApplicable then Some(false) else None, outcomeClass := M.ProviderFailed,
                     errorClass := Some(errorClass), actualDecision := Some(M.ProviderFailure),
                     actualFinalState := Some(Failed));
    if c.decisionApplicable {
      var matches := c.expectedDecision == Some(M.ProviderFailure) && c.expectedFinalState == Some(Failed);
      result := result.(decisionMatch := Some(matches));
    }
    var scores := ScoreCase(c, rules, Recoverable(errorClass));
    result := result.(fieldScores := scores,
                      caseSuccess := c.expectedErrorClass == Some(errorClass) && c.expectedDecision == Some(M.ProviderFailure));
  }

  /** The rest of the evaluation, once the provider has returned an invoice. */
  method JudgeExtraction<V>(c: GoldenCase<V>, rules: Comparer<V>, begun: M.CaseResult, provider: string, invoice: Invoice)
    returns (result: M.CaseResult)
    requires SameFlags(c, begun) && begun.decisionMatch.None? && begun.fieldScores == [] && begun.outcomeClass == M.Ok
    requires begun.errorClass.None? && c.knownScenario
    ensures SameFlags(c, result) && result.latency == begun.latency && Reports(c, rules, Returned(provider, invoice), result)
  {
    hide DecideWorkflow, BuildRuleContext, Scored;
    var scores := ScoreCase(c, rules, Returned(provider, invoice));
    var verdict := M.ByRules(DecideWorkflow(invoice, BuildRuleContext(c.overrides)).decision);
    result := begun.(schemaValid := Some(true), fieldScores := scores, actualDecision := Some(verdict),
                     actualFinalState := MapFinalState(verdict));
    if c.decisionApplicable {
      result := result.(decisionMatch := Some(AsExpected(c, result.actualDecision, result.actualFinalState)));
    }
    var fieldOk := true;
    if c.fieldComparisonApplicable && c.expectedInvoice.Some? {
      fieldOk := AllCorrect(scores);
    }
    var decisionOk := if c.decisionApplicable then result.decisionMatch == Some(true) else true;
    result := result.(caseSuccess := fieldOk && decisionOk && c.expectedErrorClass.None?);
  }
}
