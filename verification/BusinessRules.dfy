/** The invoice, the rule engine that validates it, and the decision the engine takes. */
module BusinessRules {
  import opened Options

  datatype LineItem = LineItem(description: string, quantity: real, unitPrice: real, lineTotal: real)

  datatype Invoice = Invoice(
    supplierName: string,
    invoiceNumber: string,
    invoiceDate: string,
    currency: string,
    totalAmount: real,
    lineItems: seq<LineItem>,
    overallConfidence: real,
    supplierId: Option<string>,
    purchaseOrderId: Option<string>)

  datatype RuleContext = RuleContext(
    supportedCurrencies: seq<string>,
    confidenceThreshold: real,
    approvalLimit: real,
    totalsTolerance: real,
    supplierExists: bool,
    purchaseOrderExists: bool,
    isDuplicate: bool)

  /** The codes of the rules, in the order the rules are checked, and the one code of the review commands. */
  datatype IssueCode =
    | NegativeTotal
    | NegativeLineAmount
    | UnsupportedCurrency
    | TotalMismatch
    | LowConfidence
    | LimitExceeded
    | UnknownSupplier
    | UnknownPurchaseOrder
    | DuplicateInvoice
    | MissingExtraction

  /** `line` is set for the one rule that reports an index. */
  datatype ValidationIssue = ValidationIssue(code: IssueCode, line: Option<nat>)

  datatype DecisionType = AutoApprove | NeedsHumanReview | HumanApprove | HumanReject

  datatype Reason = AllRulesPassed | IssueMessages(codes: seq<IssueCode>) | GenericFailure

  datatype WorkflowDecision = WorkflowDecision(decision: DecisionType, reason: Reason, issues: seq<ValidationIssue>)

  /** A present, non-empty identifier: the test Python's truth value makes. */
  predicate IsGiven(id: Option<string>) {
    id.Some? && id.value != ""
  }

  function Abs(x: real): real {
    if x < 0.0 then -x else x
  }

  function SumOfLines(items: seq<LineItem>): real {
    if items == [] then 0.0 else SumOfLines(items[..|items| - 1]) + items[|items| - 1].lineTotal
  }

  predicate HasNegative(item: LineItem) {
    item.quantity < 0.0 || item.unitPrice < 0.0 || item.lineTotal < 0.0
  }

  /** `issues`, with `code` appended when the rule is broken. */
  function With(issues: seq<ValidationIssue>, broken: bool, code: IssueCode): seq<ValidationIssue> {
    if broken then issues + [ValidationIssue(code, None)] else issues
  }

  /** One issue for each line that carries a negative value, in line order. */
  function LineIssues(items: seq<LineItem>): seq<ValidationIssue> {
    if items == [] then []
    else
      LineIssues(items[..|items| - 1])
      + if HasNegative(items[|items| - 1]) then [ValidationIssue(NegativeLineAmount, Some(|items| - 1))] else []
  }

  predicate TotalsDisagree(invoice: Invoice, context: RuleContext) {
    invoice.lineItems != [] && Abs(SumOfLines(invoice.lineItems) - invoice.totalAmount) > context.totalsTolerance
  }

  /** Every issue of an invoice, in the order the engine reports them. */
  function Issues(invoice: Invoice, context: RuleContext): seq<ValidationIssue> {
    var amounts := With([], invoice.totalAmount < 0.0, NegativeTotal) + LineIssues(invoice.lineItems);
    var currency := With(amounts, invoice.currency !in context.supportedCurrencies, UnsupportedCurrency);
    var totals := With(currency, TotalsDisagree(invoice, context), TotalMismatch);
    var confidence := With(totals, invoice.overallConfidence < context.confidenceThreshold, LowConfidence);
    var limit := With(confidence, invoice.totalAmount > context.approvalLimit, LimitExceeded);
    var supplier := With(limit, !context.supplierExists, UnknownSupplier);
    var order :=
      With(supplier, IsGiven(invoice.purchaseOrderId) && !context.purchaseOrderExists, UnknownPurchaseOrder);
    With(order, context.isDuplicate, DuplicateInvoice)
  }

  method ValidateInvoice(invoice: Invoice, context: RuleContext) returns (issues: seq<ValidationIssue>)
    ensures issues == Issues(invoice, context)
    ensures forall issue :: issue in issues <==> Breaks(invoice, context, issue)
    ensures InRuleOrder(issues)
  {
    hide Issues, Breaks, InRuleOrder;
    IssuesNameTheirRules(invoice, context);
    issues := CollectIssues(invoice, context);
  }

  method CollectIssues(invoice: Invoice, context: RuleContext) returns (issues: seq<ValidationIssue>)
    ensures issues == Issues(invoice, context)
  {
    issues := With([], invoice.totalAmount < 0.0, NegativeTotal);
    issues := CheckLines(issues, invoice.lineItems);
    issues := With(issues, invoice.currency !in context.supportedCurrencies, UnsupportedCurrency);
    if invoice.lineItems != [] {
      var lineSum := SumLines(invoice.lineItems);
      issues := With(issues, Abs(lineSum - invoice.totalAmount) > context.totalsTolerance, TotalMismatch);
    }
    issues := With(issues, invoice.overallConfidence < context.confidenceThreshold, LowConfidence);
    issues := With(issues, invoice.totalAmount > context.approvalLimit, LimitExceeded);
    issues := With(issues, !context.supplierExists, UnknownSupplier);
    issues :=
      With(issues, IsGiven(invoice.purchaseOrderId) && !context.purchaseOrderExists, UnknownPurchaseOrder);
    issues := With(issues, context.isDuplicate, DuplicateInvoice);
  }

  method CheckLines(found: seq<ValidationIssue>, items: seq<LineItem>) returns (issues: seq<ValidationIssue>)
    ensures issues == found + LineIssues(items)
  {
    issues := found;
    for index := 0 to |items|
      invariant issues == found + LineIssues(items[..index])
    {
      assert items[..index + 1][..index] == items[..index];
      if HasNegative(items[index]) {
        issues := issues + [ValidationIssue(NegativeLineAmount, Some(index))];
      }
    }
    assert items[..|items|] == items;
  }

  method SumLines(items: seq<LineItem>) returns (total: real)
    ensures total == SumOfLines(items)
  {
    total := 0.0;
    for index := 0 to |items|
      invariant total == SumOfLines(items[..index])
    {
      assert items[..index + 1][..index] == items[..index];
      total := total + items[index].lineTotal;
    }
    assert items[..|items|] == items;
  }

  const REVIEW_CODES: set<IssueCode> := {
    LowConfidence, TotalMismatch, UnsupportedCurrency, UnknownSupplier, UnknownPurchaseOrder,
    DuplicateInvoice, LimitExceeded, NegativeTotal, NegativeLineAmount
  }

  function Codes(issues: seq<ValidationIssue>): seq<IssueCode> {
    seq(|issues|, i requires 0 <= i < |issues| => issues[i].code)
  }

  function DecideWorkflow(invoice: Invoice, context: RuleContext): WorkflowDecision {
    var issues := Issues(invoice, context);
    if issues == [] then WorkflowDecision(AutoApprove, AllRulesPassed, issues)
    else if exists issue :: issue in issues && issue.code in REVIEW_CODES then
      WorkflowDecision(NeedsHumanReview, IssueMessages(Codes(issues)), issues)
    else WorkflowDecision(NeedsHumanReview, GenericFailure, issues)
  }

  // ---- What the engine promises ----

  /** The conjunction of all the rules, as one declarative statement. */
  ghost predicate Acceptable(invoice: Invoice, context: RuleContext) {
    && 0.0 <= invoice.totalAmount <= context.approvalLimit
    && (forall item :: item in invoice.lineItems ==> item.quantity >= 0.0 && item.unitPrice >= 0.0 && item.lineTotal >= 0.0)
    && invoice.currency in context.supportedCurrencies
    && (invoice.lineItems == []
        || -context.totalsTolerance <= SumOfLines(invoice.lineItems) - invoice.totalAmount <= context.totalsTolerance)
    && invoice.overallConfidence >= context.confidenceThreshold
    && context.supplierExists
    && (IsGiven(invoice.purchaseOrderId) ==> context.purchaseOrderExists)
    && !context.isDuplicate
  }

  /** The place of a code's rule in the order the rules are checked. */
  function Rank(code: IssueCode): nat {
    match code
    case NegativeTotal => 0
    case NegativeLineAmount => 1
    case UnsupportedCurrency => 2
    case TotalMismatch => 3
    case LowConfidence => 4
    case LimitExceeded => 5
    case UnknownSupplier => 6
    case UnknownPurchaseOrder => 7
    case DuplicateInvoice => 8
    case MissingExtraction => 9
  }

  /** The issue names a rule, and for the rule about lines a line, that this invoice breaks. */
  ghost predicate Breaks(invoice: Invoice, context: RuleContext, issue: ValidationIssue) {
    if issue.code == NegativeLineAmount then
      && issue.line.Some? && issue.line.value < |invoice.lineItems|
      && var item := invoice.lineItems[issue.line.value];
      item.quantity < 0.0 || item.unitPrice < 0.0 || item.lineTotal < 0.0
    else
      && issue.line.None?
      && match issue.code
         case NegativeTotal => invoice.totalAmount < 0.0
         case UnsupportedCurrency => invoice.currency !in context.supportedCurrencies
         case TotalMismatch =>
           && invoice.lineItems != []
           && (|| SumOfLines(invoice.lineItems) > invoice.totalAmount + context.totalsTolerance
               || SumOfLines(invoice.lineItems) < invoice.totalAmount - context.totalsTolerance)
         case LowConfidence => invoice.overallConfidence < context.confidenceThreshold
         case LimitExceeded => invoice.totalAmount > context.approvalLimit
         case UnknownSupplier => !context.supplierExists
         case UnknownPurchaseOrder =>
           invoice.purchaseOrderId.Some? && invoice.purchaseOrderId.value != "" && !context.purchaseOrderExists
         case DuplicateInvoice => context.isDuplicate
         case _ => false
  }

  /** The rules' order, and within the rule about lines the lines' order; so no issue is reported twice. */
  ghost predicate InRuleOrder(issues: seq<ValidationIssue>) {
    forall i, j :: 0 <= i < j < |issues| ==>
      || Rank(issues[i].code) < Rank(issues[j].code)
      || (issues[i].code == issues[j].code == NegativeLineAmount && issues[i].line.Some? && issues[j].line.Some?
          && issues[i].line.value < issues[j].line.value)
  }

  lemma {:induction false} LineIssuesNameLines(items: seq<LineItem>)
    ensures forall issue :: issue in LineIssues(items) <==>
              && issue.code == NegativeLineAmount && issue.line.Some? && issue.line.value < |items|
              && HasNegative(items[issue.line.value])
    ensures InRuleOrder(LineIssues(items))
  {
    if items != [] {
      LineIssuesNameLines(items[..|items| - 1]);
    }
  }

  /** `issues` are the breaches of the first `checked` rules, in order. */
  ghost predicate NamesFirst(invoice: Invoice, context: RuleContext, issues: seq<ValidationIssue>, checked: nat) {
    && (forall issue :: issue in issues <==> Breaks(invoice, context, issue) && Rank(issue.code) < checked)
    && InRuleOrder(issues)
  }

  lemma AmountsNamed(invoice: Invoice, context: RuleContext)
    ensures NamesFirst(invoice, context, With([], invoice.totalAmount < 0.0, NegativeTotal) + LineIssues(invoice.lineItems), 2)
  {
    LineIssuesNameLines(invoice.lineItems);
    hide LineIssues, SumOfLines;
  }

  lemma RuleNamed(invoice: Invoice, context: RuleContext, issues: seq<ValidationIssue>, broken: bool, code: IssueCode)
    requires NamesFirst(invoice, context, issues, Rank(code)) && code != NegativeLineAmount
    requires broken <==> Breaks(invoice, context, ValidationIssue(code, None))
    ensures NamesFirst(invoice, context, With(issues, broken, code), Rank(code) + 1)
  {
    hide SumOfLines;
    forall issue: ValidationIssue | Rank(issue.code) == Rank(code) && Breaks(invoice, context, issue)
      ensures issue == ValidationIssue(code, None)
    {
    }
  }

  lemma RulesBreak(invoice: Invoice, context: RuleContext)
    ensures invoice.totalAmount < 0.0 <==> Breaks(invoice, context, ValidationIssue(NegativeTotal, None))
    ensures invoice.currency !in context.supportedCurrencies
            <==> Breaks(invoice, context, ValidationIssue(UnsupportedCurrency, None))
    ensures TotalsDisagree(invoice, context) <==> Breaks(invoice, context, ValidationIssue(TotalMismatch, None))
    ensures invoice.overallConfidence < context.confidenceThreshold
            <==> Breaks(invoice, context, ValidationIssue(LowConfidence, None))
    ensures invoice.totalAmount > context.approvalLimit <==> Breaks(invoice, context, ValidationIssue(LimitExceeded, None))
    ensures !context.supplierExists <==> Breaks(invoice, context, ValidationIssue(UnknownSupplier, None))
    ensures IsGiven(invoice.purchaseOrderId) && !context.purchaseOrderExists
            <==> Breaks(invoice, context, ValidationIssue(UnknownPurchaseOrder, None))
    ensures context.isDuplicate <==> Breaks(invoice, context, ValidationIssue(DuplicateInvoice, None))
  {
    hide SumOfLines;
  }

  /** The engine reports exactly the rules that are broken, each under its own code, in the rules' order. */
  lemma IssuesNameTheirRules(invoice: Invoice, context: RuleContext)
    ensures forall issue :: issue in Issues(invoice, context) <==> Breaks(invoice, context, issue)
    ensures InRuleOrder(Issues(invoice, context))
  {
    hide With, LineIssues, TotalsDisagree, IsGiven, NamesFirst, Breaks, InRuleOrder;
    AmountsNamed(invoice, context);
    RulesBreak(invoice, context);
    var amounts := With([], invoice.totalAmount < 0.0, NegativeTotal) + LineIssues(invoice.lineItems);
    var currency := With(amounts, invoice.currency !in context.supportedCurrencies, UnsupportedCurrency);
    RuleNamed(invoice, context, amounts, invoice.currency !in context.supportedCurrencies, UnsupportedCurrency);
    var totals := With(currency, TotalsDisagree(invoice, context), TotalMismatch);
    RuleNamed(invoice, context, currency, TotalsDisagree(invoice, context), TotalMismatch);
    var confidence := With(totals, invoice.overallConfidence < context.confidenceThreshold, LowConfidence);
    RuleNamed(invoice, context, totals, invoice.overallConfidence < context.confidenceThreshold, LowConfidence);
    var limit := With(confidence, invoice.totalAmount > context.approvalLimit, LimitExceeded);
    RuleNamed(invoice, context, confidence, invoice.totalAmount > context.approvalLimit, LimitExceeded);
    var supplier := With(limit, !context.supplierExists, UnknownSupplier);
    RuleNamed(invoice, context, limit, !context.supplierExists, UnknownSupplier);
    var orderMissing := IsGiven(invoice.purchaseOrderId) && !context.purchaseOrderExists;
    var order := With(supplier, orderMissing, UnknownPurchaseOrder);
    RuleNamed(invoice, context, supplier, orderMissing, UnknownPurchaseOrder);
    RuleNamed(invoice, context, order, context.isDuplicate, DuplicateInvoice);
    AllRulesNamed(invoice, context, With(order, context.isDuplicate, DuplicateInvoice));
  }

  lemma AllRulesNamed(invoice: Invoice, context: RuleContext, issues: seq<ValidationIssue>)
    requires NamesFirst(invoice, context, issues, 9)
    ensures forall issue :: issue in issues <==> Breaks(invoice, context, issue)
    ensures InRuleOrder(issues)
  {
    hide SumOfLines;
  }

  /** No issue is reported exactly when every rule is kept, and every issue has a review code. */
  lemma IssuesCharacterised(invoice: Invoice, context: RuleContext)
    ensures Issues(invoice, context) == [] <==> Acceptable(invoice, context)
    ensures forall issue :: issue in Issues(invoice, context) ==> issue.code in REVIEW_CODES
  {
    hide Issues, InRuleOrder, Acceptable, Breaks;
    IssuesNameTheirRules(invoice, context);
    if !Acceptable(invoice, context) {
      SomeRuleIsBroken(invoice, context);
    }
    var issues := Issues(invoice, context);
    if issues != [] {
      assert issues[0] in issues;
      BreachesRefuse(invoice, context, issues[0]);
    }
    forall issue | Breaks(invoice, context, issue)
      ensures issue.code in REVIEW_CODES
    {
      BreachesHaveReviewCodes(invoice, context, issue);
    }
  }

  lemma BreachesRefuse(invoice: Invoice, context: RuleContext, issue: ValidationIssue)
    requires Breaks(invoice, context, issue)
    ensures !Acceptable(invoice, context)
  {
    hide SumOfLines;
  }

  lemma BreachesHaveReviewCodes(invoice: Invoice, context: RuleContext, issue: ValidationIssue)
    requires Breaks(invoice, context, issue)
    ensures issue.code in REVIEW_CODES
  {
    hide SumOfLines;
  }

  lemma SomeRuleIsBroken(invoice: Invoice, context: RuleContext)
    requires !Acceptable(invoice, context)
    ensures exists issue :: Breaks(invoice, context, issue)
  {
    hide SumOfLines;
    if item :| item in invoice.lineItems && HasNegative(item) {
      var i :| 0 <= i < |invoice.lineItems| && invoice.lineItems[i] == item;
      assert Breaks(invoice, context, ValidationIssue(NegativeLineAmount, Some(i)));
    } else {
      assert || Breaks(invoice, context, ValidationIssue(NegativeTotal, None))
             || Breaks(invoice, context, ValidationIssue(UnsupportedCurrency, None))
             || Breaks(invoice, context, ValidationIssue(TotalMismatch, None))
             || Breaks(invoice, context, ValidationIssue(LowConfidence, None))
             || Breaks(invoice, context, ValidationIssue(LimitExceeded, None))
             || Breaks(invoice, context, ValidationIssue(UnknownSupplier, None))
             || Breaks(invoice, context, ValidationIssue(UnknownPurchaseOrder, None))
             || Breaks(invoice, context, ValidationIssue(DuplicateInvoice, None));
    }
  }

  /** Auto-approval is exactly the conjunction of the rules; and the engine's generic failure reason is
      never given, because every code it emits is a review code. */
  lemma DecisionCharacterised(invoice: Invoice, context: RuleContext)
    ensures DecideWorkflow(invoice, context).decision == AutoApprove <==> Acceptable(invoice, context)
    ensures DecideWorkflow(invoice, context).decision in {AutoApprove, NeedsHumanReview}
    ensures DecideWorkflow(invoice, context).reason != GenericFailure
  {
    hide Issues, Acceptable;
    IssuesCharacterised(invoice, context);
    var issues := Issues(invoice, context);
    if issues != [] {
      assert issues[0] in issues && issues[0].code in REVIEW_CODES;
    }
  }

  /** A decision for review reports every issue, and for its reason each issue's own message. */
  lemma DecisionReportsIssues(invoice: Invoice, context: RuleContext)
    ensures
      var decision := DecideWorkflow(invoice, context);
      && (forall issue :: issue in decision.issues <==> Breaks(invoice, context, issue))
      && (decision.issues == [] ==> decision.reason == AllRulesPassed)
      && (decision.issues != [] ==>
            && decision.reason.IssueMessages? && |decision.reason.codes| == |decision.issues|
            && forall i :: 0 <= i < |decision.issues| ==> decision.reason.codes[i] == decision.issues[i].code)
  {
    hide Issues, Breaks, InRuleOrder;
    IssuesNameTheirRules(invoice, context);
    DecisionCharacterised(invoice, context);
  }

  lemma {:induction false} LineSumWithout(items: seq<LineItem>, i: nat)
    requires i < |items|
    ensures SumOfLines(items) == SumOfLines(items[..i] + items[i + 1..]) + items[i].lineTotal
  {
    var rest := items[..i] + items[i + 1..];
    if i == |items| - 1 {
      assert rest == items[..i];
    } else {
      var front := items[..|items| - 1];
      LineSumWithout(front, i);
      assert rest[..|rest| - 1] == front[..i] + front[i + 1..];
    }
  }

  lemma {:induction false} LineSumPermuted(items: seq<LineItem>, others: seq<LineItem>)
    requires multiset(items) == multiset(others)
    ensures SumOfLines(items) == SumOfLines(others)
    decreases |items|
  {
    if items == [] {
      assert |multiset(others)| == 0;
    } else {
      var last := items[|items| - 1];
      assert items == items[..|items| - 1] + [last];
      assert last in multiset(others);
      var i :| 0 <= i < |others| && others[i] == last;
      var rest := others[..i] + others[i + 1..];
      assert others == others[..i] + [last] + others[i + 1..];
      assert multiset(items) == multiset(items[..|items| - 1]) + multiset{last};
      assert multiset(others) == multiset(rest) + multiset{last};
      assert multiset(items[..|items| - 1]) == multiset(items) - multiset{last};
      assert multiset(items[..|items| - 1]) == multiset(rest);
      LineSumPermuted(items[..|items| - 1], rest);
      LineSumWithout(others, i);
    }
  }

  /** The order of the line items never changes the decision. */
  lemma DecisionIgnoresLineOrder(invoice: Invoice, items: seq<LineItem>, context: RuleContext)
    requires multiset(items) == multiset(invoice.lineItems)
    ensures DecideWorkflow(invoice.(lineItems := items), context).decision == DecideWorkflow(invoice, context).decision
  {
    hide DecideWorkflow, Issues;
    LineSumPermuted(items, invoice.lineItems);
    DecisionCharacterised(invoice, context);
    DecisionCharacterised(invoice.(lineItems := items), context);
    assert forall item :: item in items <==> item in multiset(items);
    assert forall item :: item in invoice.lineItems <==> item in multiset(invoice.lineItems);
    assert |items| == |multiset(items)| == |invoice.lineItems|;
  }

  /** `looser` asks no more than `strict` of any invoice. */
  ghost predicate Relaxes(strict: RuleContext, looser: RuleContext) {
    && strict.approvalLimit <= looser.approvalLimit
    && strict.totalsTolerance <= looser.totalsTolerance
    && looser.confidenceThreshold <= strict.confidenceThreshold
    && (forall currency :: currency in strict.supportedCurrencies ==> currency in looser.supportedCurrencies)
    && strict.supplierExists == looser.supplierExists
    && strict.purchaseOrderExists == looser.purchaseOrderExists
    && strict.isDuplicate == looser.isDuplicate
  }

  /** Relaxing the limit, tolerance, threshold or currency list never revokes an auto-approval. */
  lemma DecisionMonotone(invoice: Invoice, strict: RuleContext, looser: RuleContext)
    requires Relaxes(strict, looser)
    requires DecideWorkflow(invoice, strict).decision == AutoApprove
    ensures DecideWorkflow(invoice, looser).decision == AutoApprove
  {
    hide DecideWorkflow, Issues;
    DecisionCharacterised(invoice, strict);
    DecisionCharacterised(invoice, looser);
  }
}
