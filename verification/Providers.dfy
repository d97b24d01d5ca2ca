/** The nested retries around a model call: the retry loop, the one corrective round and the fallback provider,
    with the work and the waiting they can add up to. */
module Providers {
  import opened Options
  import opened BusinessRules
  import opened Erp
  import opened Attempts

  /** One model call. A text either parses into an invoice or does not. */
  datatype CallResult =
    | Text(invoice: Option<Invoice>)
    | TextMissing
    | RecoverableCall(errorClass: string)
    | NonRecoverableCall(errorClass: string)
    | BrokenCall

  /** What the HTTP client sees of a completion request. */
  datatype HttpOutcome =
    | TimedOut
    | TransportFailed
    | Response(status: int, content: Option<string>)
    | Unreadable

  /** How the local provider classifies a completion. `parse` stands for the schema validation. */
  function Classify(outcome: HttpOutcome, parse: string -> Option<Invoice>): CallResult {
    match outcome
    case TimedOut => RecoverableCall("timeout")
    case TransportFailed => RecoverableCall("transient")
    case Unreadable => BrokenCall
    case Response(status, content) =>
      if status == 429 then RecoverableCall("rate_limit")
      else if status in {500, 502, 503, 504} then RecoverableCall("transient")
      else if status in {401, 403} then NonRecoverableCall("auth")
      else if status >= 400 then NonRecoverableCall("invalid_request")
      else if content.None? then TextMissing
      else Text(parse(content.value))
  }

  /** A status the provider retries is one the ERP client calls transient too; the two differ in 408 and 425. A
      reading comes of exactly the completions below 400 whose content parses into it. */
  lemma RetriedStatuses(status: int, content: Option<string>, parse: string -> Option<Invoice>)
    ensures Classify(Response(status, content), parse).RecoverableCall?
            <==> IsTransientStatus(Some(status)) && status !in {408, 425}
    ensures Classify(Response(status, content), parse).NonRecoverableCall?
            <==> status >= 400 && !(IsTransientStatus(Some(status)) && status !in {408, 425})
    ensures Classify(Response(status, content), parse) == RecoverableCall("rate_limit") <==> status == 429
    ensures Classify(Response(status, content), parse) == RecoverableCall("transient")
            <==> IsTransientStatus(Some(status)) && status >= 500
    ensures Classify(Response(status, content), parse) == NonRecoverableCall("auth") <==> status == 401 || status == 403
    ensures forall invoice :: Classify(Response(status, content), parse) == Text(Some(invoice))
              <==> status < 400 && content.Some? && parse(content.value) == Some(invoice)
    ensures IsOutputError(Classify(Response(status, content), parse))
            <==> status < 400 && (content.Some? ==> parse(content.value) == None)
  {
  }

  /** A completion that never comes is retried, under a class of its own when it timed out; one that cannot be
      read is neither retried nor corrected. */
  lemma FaultsAreClassified(outcome: HttpOutcome, parse: string -> Option<Invoice>)
    ensures Classify(outcome, parse) == RecoverableCall("timeout") <==> outcome == TimedOut
    ensures Classify(outcome, parse) == BrokenCall <==> outcome == Unreadable
    ensures outcome == TransportFailed ==> Classify(outcome, parse) == RecoverableCall("transient")
  {
  }

  const BASE_DELAY := 0.25

  function Pow2(n: nat): nat {
    if n == 0 then 1 else 2 * Pow2(n - 1)
  }

  /** The time slept after the first `retries` failures of one loop. */
  function TimeSlept(retries: nat): real {
    if retries == 0 then 0.0 else TimeSlept(retries - 1) + BASE_DELAY * (Pow2(retries - 1) as real)
  }

  /** A model endpoint that answers its calls one after the other, and a clock of the time slept. */
  class Model {
    const name: string
    const script: nat -> CallResult
    var calls: nat
    var slept: real

    constructor (name: string, script: nat -> CallResult)
      ensures this.name == name && this.script == script && calls == 0 && slept == 0.0
    {
      this.name, this.script, calls, slept := name, script, 0, 0.0;
    }

    method Invoke() returns (result: CallResult)
      modifies this`calls
      ensures result == script(old(calls)) && calls == old(calls) + 1
    {
      result := script(calls);
      calls := calls + 1;
    }
  }

  /** How many of the calls from `from` on are retried: as long as they are recoverable and retries are left. */
  function RetriesUsed(script: nat -> CallResult, from: nat, maxRetries: nat): nat
    decreases maxRetries
  {
    if maxRetries == 0 || !script(from).RecoverableCall? then 0 else 1 + RetriesUsed(script, from + 1, maxRetries - 1)
  }

  /** `used` recoverable calls, and then one that is not or no retry left. */
  ghost predicate EndsAfter(script: nat -> CallResult, from: nat, maxRetries: nat, used: nat) {
    && used <= maxRetries
    && (forall i :: from <= i < from + used ==> script(i).RecoverableCall?)
    && (used < maxRetries ==> !script(from + used).RecoverableCall?)
  }

  /** That describes the retries of a loop, and no other number fits it. */
  lemma {:induction false} RetriesUsedIs(script: nat -> CallResult, from: nat, maxRetries: nat, used: nat)
    ensures EndsAfter(script, from, maxRetries, used) <==> used == RetriesUsed(script, from, maxRetries)
    decreases maxRetries
  {
    if maxRetries > 0 && script(from).RecoverableCall? {
      if used > 0 {
        RetriesUsedIs(script, from + 1, maxRetries - 1, used - 1);
        assert from + 1 + (used - 1) == from + used;
      }
    }
  }

  /** The retry loop. */
  method CallWithRetries(model: Model, maxRetries: nat) returns (result: CallResult)
    modifies model
    ensures
      var used := RetriesUsed(model.script, old(model.calls), maxRetries);
      && result == model.script(old(model.calls) + used)
      && model.calls == old(model.calls) + used + 1
      && model.slept == old(model.slept) + TimeSlept(used)
  {
    hide RetriesUsed;
    var attempt := 0;
    while true
      invariant attempt <= maxRetries
      invariant model.calls == old(model.calls) + attempt
      invariant model.slept == old(model.slept) + TimeSlept(attempt)
      invariant forall i :: old(model.calls) <= i < model.calls ==> model.script(i).RecoverableCall?
      decreases maxRetries - attempt
    {
      result := model.Invoke();
      if !result.RecoverableCall? || attempt >= maxRetries {
        RetriesUsedIs(model.script, old(model.calls), maxRetries, attempt);
        return;
      }
      var delay := BASE_DELAY * (Pow2(attempt) as real);
      model.slept := model.slept + delay;
      attempt := attempt + 1;
    }
  }

  // ---- One corrective round ----

  predicate IsOutputError(result: CallResult) {
    result.TextMissing? || (result.Text? && result.invoice.None?)
  }

  function Outcome(name: string, result: CallResult): ProviderOutcome {
    match result
    case Text(Some(invoice)) => Returned(name, invoice)
    case Text(None) => InvalidOutput
    case TextMissing => InvalidOutput
    case RecoverableCall(errorClass) => Recoverable(errorClass)
    case NonRecoverableCall(errorClass) => NonRecoverable(errorClass)
    case BrokenCall => ProviderBroke
  }

  /** The outcome says what the last call came to: a text that parses is returned under the provider's name, and
      every other answer keeps its class. */
  ghost predicate SaysOf(outcome: ProviderOutcome, name: string, last: CallResult) {
    && (forall provider, invoice :: outcome == Returned(provider, invoice) <==> provider == name && last == Text(Some(invoice)))
    && (forall errorClass :: outcome == Recoverable(errorClass) <==> last == RecoverableCall(errorClass))
    && (forall errorClass :: outcome == NonRecoverable(errorClass) <==> last == NonRecoverableCall(errorClass))
    && (outcome == ProviderBroke <==> last == BrokenCall)
    && (outcome == InvalidOutput <==> last == TextMissing || last == Text(None))
  }

  /** The calls of one retry loop that starts at `from`. */
  function LoopCalls(script: nat -> CallResult, from: nat, maxRetries: nat): nat {
    RetriesUsed(script, from, maxRetries) + 1
  }

  /** The calls of one extraction: a second loop only after an output error. */
  function ExtractCalls(script: nat -> CallResult, from: nat, maxRetries: nat): nat {
    var first := LoopCalls(script, from, maxRetries);
    if IsOutputError(script(from + first - 1)) then first + LoopCalls(script, from + first, maxRetries) else first
  }

  /** An extraction ends with the last call it made. */
  function ExtractOutcome(name: string, script: nat -> CallResult, from: nat, maxRetries: nat): ProviderOutcome {
    Outcome(name, script(from + ExtractCalls(script, from, maxRetries) - 1))
  }

  method Extract(model: Model, maxRetries: nat) returns (outcome: ProviderOutcome)
    modifies model
    ensures outcome == ExtractOutcome(model.name, model.script, old(model.calls), maxRetries)
    ensures model.calls == old(model.calls) + ExtractCalls(model.script, old(model.calls), maxRetries)
    ensures model.calls > old(model.calls) && SaysOf(outcome, model.name, model.script(model.calls - 1))
  {
    var result := CallWithRetries(model, maxRetries);
    if IsOutputError(result) {
      result := CallWithRetries(model, maxRetries);
    }
    outcome := Outcome(model.name, result);
  }

  lemma LoopIsBounded(script: nat -> CallResult, from: nat, maxRetries: nat)
    ensures 1 <= LoopCalls(script, from, maxRetries) <= maxRetries + 1
  {
    RetriesUsedIs(script, from, maxRetries, RetriesUsed(script, from, maxRetries));
  }

  /** An extraction ends in a recoverable error only after a whole loop of `maxRetries + 1` calls that met
      nothing else. */
  lemma RecoverableMeansAWholeLoop(name: string, script: nat -> CallResult, from: nat, maxRetries: nat)
    requires ExtractOutcome(name, script, from, maxRetries).Recoverable?
    ensures
      var end := from + ExtractCalls(script, from, maxRetries);
      && end >= from + maxRetries + 1
      && forall i :: end - maxRetries - 1 <= i < end ==> script(i).RecoverableCall?
  {
    hide RetriesUsed;
    var used := RetriesUsed(script, from, maxRetries);
    RetriesUsedIs(script, from, maxRetries, used);
    if IsOutputError(script(from + used)) {
      RetriesUsedIs(script, from + used + 1, maxRetries, RetriesUsed(script, from + used + 1, maxRetries));
    }
  }

  /** There is a second round exactly when the first ended in a text that is missing or does not parse. */
  lemma SecondRoundExactlyWhen(script: nat -> CallResult, from: nat, maxRetries: nat)
    ensures
      var first := LoopCalls(script, from, maxRetries);
      var last := script(from + first - 1);
      ExtractCalls(script, from, maxRetries)
      == first + if last == TextMissing || last == Text(None) then LoopCalls(script, from + first, maxRetries) else 0
  {
    hide RetriesUsed;
  }

  /** An extraction ends in an output error only when both of its rounds did. */
  lemma InvalidOutputMeansTwice(name: string, script: nat -> CallResult, from: nat, maxRetries: nat)
    ensures
      var first := LoopCalls(script, from, maxRetries);
      ExtractOutcome(name, script, from, maxRetries) == InvalidOutput
      <==> IsOutputError(script(from + first - 1))
           && IsOutputError(script(from + first + LoopCalls(script, from + first, maxRetries) - 1))
  {
    hide RetriesUsed;
    var first := LoopCalls(script, from, maxRetries);
    var second := LoopCalls(script, from + first, maxRetries);
    assert from + (first + second) - 1 == from + first + second - 1;
  }

  // ---- The fallback provider ----

  /** The router: only a recoverable error of the primary falls through to the fallback. */
  method Route(primary: Model, fallback: Model?, fallbackEnabled: bool, maxRetries: nat)
    returns (outcome: ProviderOutcome, fellBack: bool)
    requires primary != fallback
    modifies primary, fallback
    ensures
      var first := ExtractOutcome(primary.name, primary.script, old(primary.calls), maxRetries);
      && fellBack == (first.Recoverable? && fallbackEnabled && fallback != null)
      && (!fellBack ==> outcome == first)
      && (fellBack ==> outcome == ExtractOutcome(fallback.name, fallback.script, old(fallback.calls), maxRetries))
    ensures primary.calls > old(primary.calls)
    ensures fellBack <==> primary.script(primary.calls - 1).RecoverableCall? && fallbackEnabled && fallback != null
    ensures !fellBack ==> SaysOf(outcome, primary.name, primary.script(primary.calls - 1))
    ensures fellBack ==>
              fallback.calls > old(fallback.calls) && SaysOf(outcome, fallback.name, fallback.script(fallback.calls - 1))
    ensures primary.calls == old(primary.calls) + ExtractCalls(primary.script, old(primary.calls), maxRetries)
    ensures fallback != null ==>
              fallback.calls == old(fallback.calls)
                                + if fellBack then ExtractCalls(fallback.script, old(fallback.calls), maxRetries) else 0
  {
    outcome := Extract(primary, maxRetries);
    fellBack := false;
    if outcome.Recoverable? && fallbackEnabled && fallback != null {
      fellBack := true;
      outcome := Extract(fallback, maxRetries);
    }
  }

  /** The two endpoints of a router. */
  datatype Endpoints = Endpoints(primary: nat -> CallResult, fallback: nat -> CallResult)

  /** The calls the router makes over both providers, each starting at its first scripted answer. */
  function RouteCalls(endpoints: Endpoints, fallbackEnabled: bool, maxRetries: nat): nat {
    ExtractCalls(endpoints.primary, 0, maxRetries)
    + if fallbackEnabled && ExtractOutcome("", endpoints.primary, 0, maxRetries).Recoverable?
      then ExtractCalls(endpoints.fallback, 0, maxRetries) else 0
  }

  lemma RouteIsBounded(endpoints: Endpoints, fallbackEnabled: bool, maxRetries: nat)
    ensures 1 <= RouteCalls(endpoints, fallbackEnabled, maxRetries) <= 4 * (maxRetries + 1)
  {
    hide RetriesUsed;
    LoopIsBounded(endpoints.primary, 0, maxRetries);
    LoopIsBounded(endpoints.primary, LoopCalls(endpoints.primary, 0, maxRetries), maxRetries);
    LoopIsBounded(endpoints.fallback, 0, maxRetries);
    LoopIsBounded(endpoints.fallback, LoopCalls(endpoints.fallback, 0, maxRetries), maxRetries);
  }

  /** A script on which an extraction spends every call it may: a loop that ends in an output error, and a loop
      that never recovers. */
  function WorstScript(maxRetries: nat): nat -> CallResult {
    i => if i == maxRetries then TextMissing else RecoverableCall("timeout")
  }

  lemma WorstExtraction(maxRetries: nat)
    ensures ExtractCalls(WorstScript(maxRetries), 0, maxRetries) == 2 * (maxRetries + 1)
    ensures ExtractOutcome("", WorstScript(maxRetries), 0, maxRetries) == Recoverable("timeout")
  {
    hide RetriesUsed;
    var script := WorstScript(maxRetries);
    RetriesUsedIs(script, 0, maxRetries, maxRetries);
    RetriesUsedIs(script, maxRetries + 1, maxRetries, maxRetries);
    assert script(0 + (maxRetries + 1) - 1) == TextMissing;
    assert script(0 + 2 * (maxRetries + 1) - 1) == RecoverableCall("timeout");
  }

  /** The bound cannot be lowered: both providers can be made to spend `2 * (maxRetries + 1)` calls each. */
  lemma RouteBoundIsReached(maxRetries: nat)
    ensures RouteCalls(Endpoints(WorstScript(maxRetries), WorstScript(maxRetries)), true, maxRetries) == 4 * (maxRetries + 1)
  {
    hide RetriesUsed, ExtractCalls, ExtractOutcome;
    WorstExtraction(maxRetries);
  }

  lemma {:induction false} TimeSleptIs(retries: nat)
    ensures TimeSlept(retries) == BASE_DELAY * (Pow2(retries) as real - 1.0)
  {
    if retries > 0 {
      TimeSleptIs(retries - 1);
    }
  }

  lemma {:induction false} Pow2Monotone(a: nat, b: nat)
    requires a <= b
    ensures 1 <= Pow2(a) <= Pow2(b)
    decreases b
  {
    if b > 0 {
      Pow2Monotone(if a < b then a else a - 1, b - 1);
    }
  }

  /** One retry loop sleeps a quarter of a second, doubled with each retry, and so never longer than
      `0.25 * (2^maxRetries - 1)` seconds. */
  lemma SleepBound(script: nat -> CallResult, from: nat, maxRetries: nat)
    ensures
      var used := RetriesUsed(script, from, maxRetries);
      TimeSlept(used) == 0.25 * (Pow2(used) as real - 1.0) <= 0.25 * (Pow2(maxRetries) as real - 1.0)
  {
    hide RetriesUsed, Pow2, TimeSlept;
    var used := RetriesUsed(script, from, maxRetries);
    RetriesUsedIs(script, from, maxRetries, used);
    TimeSleptIs(used);
    Pow2Monotone(used, maxRetries);
  }
}
