/**
 * The value-level part of sending: the request built for each backend call,
 * the result recorded for a backend exception, the fields `enrichAndAudit`
 * fills in, the per-recipient entries of a batch, its success count, and the
 * audit store after a run of puts keyed by requestId.
 */
module Sending {
  import opened Wrappers
  import opened Strings
  import opened SmsTypes

  /** The providerCode of a result built from a backend exception. */
  const InvokerExceptionCode: string := "INVOKER_EXCEPTION"

  /** `validateSendCommonParams`: signName is checked first, then channel. */
  function ValidateSendCommonParams(signName: string, channel: string): (r: Outcome<Error>)
    ensures r.Pass? <==> !IsBlank(signName) && !IsBlank(channel)
    ensures IsBlank(signName) ==> r == Fail(BlankSignName)
    ensures !IsBlank(signName) && IsBlank(channel) ==> r == Fail(BlankChannel)
  {
    if IsBlank(signName) then Fail(BlankSignName)
    else if IsBlank(channel) then Fail(BlankChannel)
    else Pass
  }

  /** `defaultIfNull`: a null parameter map becomes an empty one. */
  function DefaultIfNull(params: Option<map<string, string>>): (r: map<string, string>)
    ensures params.None? ==> r == map[]
    ensures params.Some? ==> r == params.value
  {
    match params
    case None => map[]
    case Some(m) => m
  }

  /** The request for one backend call: always exactly one phone. */
  function RequestFor(templateCode: string, phone: string, params: Option<map<string, string>>,
                      signName: string, channel: string): (r: SendRequest)
    ensures r.phones == [phone] && r.templateCode == templateCode && r.templateParams == DefaultIfNull(params)
    ensures r.signName == signName && r.channel == channel
  {
    SendRequest(templateCode, [phone], DefaultIfNull(params), signName, channel)
  }

  /** The backend calls a batch makes, one per phone, in order. */
  function RequestsFor(templateCode: string, phones: seq<string>, params: Option<map<string, string>>,
                       signName: string, channel: string): (r: seq<SendRequest>)
    ensures |r| == |phones|
    ensures forall i :: 0 <= i < |phones| ==> r[i] == RequestFor(templateCode, phones[i], params, signName, channel)
  {
    if phones == [] then []
    else RequestsFor(templateCode, phones[..|phones| - 1], params, signName, channel)
         + [RequestFor(templateCode, phones[|phones| - 1], params, signName, channel)]
  }

  /** One more phone adds one more request at the end of a log that already holds `log`. */
  lemma RequestsForStep(log: seq<SendRequest>, templateCode: string, phones: seq<string>, i: nat,
                        params: Option<map<string, string>>, signName: string, channel: string)
    requires i < |phones|
    ensures log + RequestsFor(templateCode, phones[..i + 1], params, signName, channel)
            == (log + RequestsFor(templateCode, phones[..i], params, signName, channel))
               + [RequestFor(templateCode, phones[i], params, signName, channel)]
  {
    assert phones[..i + 1][..i] == phones[..i];
  }

  /** `ex.getMessage()`, or the simple class name when the message is null. */
  function ExceptionMessage(ex: BackendException): (msg: string)
    ensures ex.message.Some? ==> msg == ex.message.value
    ensures ex.message.None? ==> msg == ex.simpleName
  {
    match ex.message
    case Some(m) => m
    case None => ex.simpleName
  }

  /** `buildFailSendResult`: a failed, not yet enriched result for a backend exception. */
  function BuildFailSendResult(template: TemplateMeta, ex: BackendException): (r: SendResult)
    ensures !r.success && r.providerCode == InvokerExceptionCode && r.providerMessage == ExceptionMessage(ex)
    ensures r.templateCode == template.templateCode && r.templateName == template.templateName
    ensures r.requestId == "" && r.phoneCount == 0 && r.sendTime == None
  {
    SendResult("", false, InvokerExceptionCode, ExceptionMessage(ex),
               template.templateCode, template.templateName, 0, None)
  }

  /**
   * The fields `enrichAndAudit` sets.  A non-blank requestId is kept, a blank
   * one replaced by a freshly generated id; what the provider reported is kept.
   */
  function Enrich(result: SendResult, template: TemplateMeta, count: nat, now: Time, freshId: string): (r: SendResult)
    requires !IsBlank(freshId)
    ensures !IsBlank(r.requestId)
    ensures !IsBlank(result.requestId) ==> r.requestId == result.requestId
    ensures IsBlank(result.requestId) ==> r.requestId == freshId
    ensures r.success == result.success && r.providerCode == result.providerCode
    ensures r.providerMessage == result.providerMessage
    ensures r.templateCode == template.templateCode && r.templateName == template.templateName
    ensures r.phoneCount == count && r.sendTime == Some(now)
  {
    result.(requestId := if IsBlank(result.requestId) then freshId else result.requestId,
            templateCode := template.templateCode,
            templateName := template.templateName,
            phoneCount := count,
            sendTime := Some(now))
  }

  /** Every id in the supply is usable as an audit key. */
  predicate NonBlankIds(ids: seq<string>) {
    forall i :: 0 <= i < |ids| ==> !IsBlank(ids[i])
  }

  /**
   * The entry a batch records for one recipient: the backend's own result, or
   * for an exception a failed INVOKER_EXCEPTION result, enriched either way.
   */
  function BatchEntry(template: TemplateMeta, outcome: InvokeOutcome, now: Time, freshId: string): (r: SendResult)
    requires !IsBlank(freshId)
    ensures !IsBlank(r.requestId) && r.phoneCount == 1 && r.sendTime == Some(now)
    ensures r.templateCode == template.templateCode && r.templateName == template.templateName
    ensures outcome.Returned? ==> r == Enrich(outcome.result, template, 1, now, freshId)
    ensures outcome.Threw? ==> && !r.success && r.providerCode == InvokerExceptionCode
                               && r.providerMessage == ExceptionMessage(outcome.exception)
                               && r.requestId == freshId
  {
    match outcome
    case Returned(result) => Enrich(result, template, 1, now, freshId)
    case Threw(ex) => Enrich(BuildFailSendResult(template, ex), template, 1, now, freshId)
  }

  /** The entries of a batch's first `n` recipients, in send order. */
  function BatchEntries(template: TemplateMeta, outcomes: seq<InvokeOutcome>, now: Time,
                        freshIds: seq<string>, n: nat): (r: seq<SendResult>)
    requires n <= |outcomes| && n <= |freshIds| && NonBlankIds(freshIds)
    ensures |r| == n
  {
    if n == 0 then []
    else BatchEntries(template, outcomes, now, freshIds, n - 1)
         + [BatchEntry(template, outcomes[n - 1], now, freshIds[n - 1])]
  }

  /** The entry at position `i` of a batch is the entry for the i-th recipient. */
  lemma {:induction false} BatchEntriesAt(template: TemplateMeta, outcomes: seq<InvokeOutcome>, now: Time,
                                          freshIds: seq<string>, n: nat, i: nat)
    requires n <= |outcomes| && n <= |freshIds| && NonBlankIds(freshIds) && i < n
    ensures BatchEntries(template, outcomes, now, freshIds, n)[i] == BatchEntry(template, outcomes[i], now, freshIds[i])
  {
    if i < n - 1 {
      BatchEntriesAt(template, outcomes, now, freshIds, n - 1, i);
    }
  }

  /** Every entry of a batch carries a usable requestId. */
  lemma BatchEntriesIds(template: TemplateMeta, outcomes: seq<InvokeOutcome>, now: Time,
                        freshIds: seq<string>, n: nat)
    requires n <= |outcomes| && n <= |freshIds| && NonBlankIds(freshIds)
    ensures forall i :: 0 <= i < n ==> !IsBlank(BatchEntries(template, outcomes, now, freshIds, n)[i].requestId)
  {
    forall i | 0 <= i < n
      ensures !IsBlank(BatchEntries(template, outcomes, now, freshIds, n)[i].requestId)
    {
      BatchEntriesAt(template, outcomes, now, freshIds, n, i);
    }
  }

  /** The number of successful entries (`filter(SendResult::isSuccess).count()`). */
  function CountSuccess(results: seq<SendResult>): (c: nat)
    ensures c <= |results|
  {
    if results == [] then 0
    else CountSuccess(results[..|results| - 1]) + if results[|results| - 1].success then 1 else 0
  }

  /** Every result succeeded exactly when the count is the length; none did exactly when it is zero. */
  lemma {:induction false} CountSuccessExtremes(results: seq<SendResult>)
    ensures CountSuccess(results) == |results| <==> forall i :: 0 <= i < |results| ==> results[i].success
    ensures CountSuccess(results) == 0 <==> forall i :: 0 <= i < |results| ==> !results[i].success
  {
    if results != [] {
      var init := results[..|results| - 1];
      CountSuccessExtremes(init);
      assert forall i :: 0 <= i < |init| ==> init[i] == results[i];
    }
  }

  /** 1 when one backend call returned a result whose success flag is set, otherwise 0. */
  function SuccessValue(outcome: InvokeOutcome): nat {
    if outcome.Returned? && outcome.result.success then 1 else 0
  }

  /** How many of the first `n` backend calls returned a successful result. */
  function SucceededCalls(outcomes: seq<InvokeOutcome>, n: nat): nat
    requires n <= |outcomes|
  {
    if n == 0 then 0 else SucceededCalls(outcomes, n - 1) + SuccessValue(outcomes[n - 1])
  }

  /**
   * A batch's success count is the number of recipients whose backend call
   * returned a successful result: exceptions always count as failures.
   */
  lemma {:induction false} BatchSuccessCount(template: TemplateMeta, outcomes: seq<InvokeOutcome>, now: Time,
                                             freshIds: seq<string>, n: nat)
    requires n <= |outcomes| && n <= |freshIds| && NonBlankIds(freshIds)
    ensures CountSuccess(BatchEntries(template, outcomes, now, freshIds, n)) == SucceededCalls(outcomes, n)
  {
    if n > 0 {
      var prior := BatchEntries(template, outcomes, now, freshIds, n - 1);
      var last := BatchEntry(template, outcomes[n - 1], now, freshIds[n - 1]);
      assert BatchEntries(template, outcomes, now, freshIds, n) == prior + [last];
      BatchSuccessCount(template, outcomes, now, freshIds, n - 1);
      CountSuccessSnoc(prior, last);
      assert (if last.success then 1 else 0) == SuccessValue(outcomes[n - 1]);
    }
  }

  /** Counting over one more result. */
  lemma CountSuccessSnoc(results: seq<SendResult>, e: SendResult)
    ensures CountSuccess(results + [e]) == CountSuccess(results) + if e.success then 1 else 0
  {
    assert (results + [e])[..|results|] == results;
  }

  /**
   * The `BatchSendResult` of a batch to `n` recipients: every entry in send
   * order, total `n`, success the number of backend calls that returned a
   * successful result, and failed the rest.
   */
  function BatchReport(template: TemplateMeta, outcomes: seq<InvokeOutcome>, now: Time,
                       freshIds: seq<string>, n: nat): (b: BatchSendResult)
    requires n <= |outcomes| && n <= |freshIds| && NonBlankIds(freshIds)
    ensures b.results == BatchEntries(template, outcomes, now, freshIds, n)
    ensures b.total == n && b.success + b.failed == b.total
    ensures b.success == CountSuccess(b.results) == SucceededCalls(outcomes, n)
  {
    var entries := BatchEntries(template, outcomes, now, freshIds, n);
    BatchSuccessCount(template, outcomes, now, freshIds, n);
    var success := CountSuccess(entries);
    BatchSendResult(n, success, n - success, entries)
  }

  /**
   * Failure isolation: when the backend throws for exactly one of `n`
   * recipients and succeeds for the rest, the batch has `n - 1` successes.
   */
  lemma OneThrowOneFailure(template: TemplateMeta, outcomes: seq<InvokeOutcome>, now: Time,
                           freshIds: seq<string>, n: nat, bad: nat)
    requires n <= |outcomes| && n <= |freshIds| && NonBlankIds(freshIds)
    requires bad < n && outcomes[bad].Threw?
    requires forall i :: 0 <= i < n && i != bad ==> outcomes[i].Returned? && outcomes[i].result.success
    ensures CountSuccess(BatchEntries(template, outcomes, now, freshIds, n)) == n - 1
  {
    BatchSuccessCount(template, outcomes, now, freshIds, n);
    OneFalse(outcomes, n, bad);
  }

  lemma {:induction false} OneFalse(outcomes: seq<InvokeOutcome>, n: nat, bad: nat)
    requires n <= |outcomes| && bad < n && outcomes[bad].Threw?
    requires forall i :: 0 <= i < n && i != bad ==> outcomes[i].Returned? && outcomes[i].result.success
    ensures SucceededCalls(outcomes, n) == n - 1
  {
    if bad == n - 1 {
      AllSucceeded(outcomes, n - 1);
    } else {
      OneFalse(outcomes, n - 1, bad);
    }
  }

  lemma {:induction false} AllSucceeded(outcomes: seq<InvokeOutcome>, n: nat)
    requires n <= |outcomes|
    requires forall i :: 0 <= i < n ==> outcomes[i].Returned? && outcomes[i].result.success
    ensures SucceededCalls(outcomes, n) == n
  {
    if n > 0 {
      AllSucceeded(outcomes, n - 1);
    }
  }

  /** The requestIds of a sequence of results. */
  function RequestIds(results: seq<SendResult>): set<string> {
    set i | 0 <= i < |results| :: results[i].requestId
  }

  /** Every audit record is stored under its own, non-blank requestId. */
  predicate AuditConsistent(audit: map<string, SendResult>) {
    forall k :: k in audit ==> !IsBlank(k) && audit[k].requestId == k
  }

  /**
   * The audit store after `enrichAndAudit` has put each entry in turn under its
   * requestId.  A later entry with the same requestId overwrites an earlier one.
   */
  function AuditAll(audit: map<string, SendResult>, entries: seq<SendResult>): map<string, SendResult> {
    if entries == [] then audit
    else AuditAll(audit, entries[..|entries| - 1])[entries[|entries| - 1].requestId := entries[|entries| - 1]]
  }

  /** The puts add exactly the entries' requestIds as keys, and leave every other record untouched. */
  lemma {:induction false} AuditAllKeys(audit: map<string, SendResult>, entries: seq<SendResult>)
    ensures AuditAll(audit, entries).Keys == audit.Keys + RequestIds(entries)
    ensures forall k :: k in audit && k !in RequestIds(entries) ==> AuditAll(audit, entries)[k] == audit[k]
  {
    if entries != [] {
      var init := entries[..|entries| - 1];
      var last := entries[|entries| - 1];
      AuditAllKeys(audit, init);
      assert RequestIds(entries) == RequestIds(init) + {last.requestId} by {
        assert forall i :: 0 <= i < |init| ==> init[i] == entries[i];
      }
    }
  }

  /** One more entry is one more put. */
  lemma AuditAllStep(audit: map<string, SendResult>, entries: seq<SendResult>, e: SendResult)
    ensures AuditAll(audit, entries + [e]) == AuditAll(audit, entries)[e.requestId := e]
  {
    assert (entries + [e])[..|entries|] == entries;
  }

  /** Putting entries with usable requestIds keeps every record under its own requestId. */
  lemma {:induction false} AuditAllConsistent(audit: map<string, SendResult>, entries: seq<SendResult>)
    requires AuditConsistent(audit)
    requires forall i :: 0 <= i < |entries| ==> !IsBlank(entries[i].requestId)
    ensures AuditConsistent(AuditAll(audit, entries))
  {
    if entries != [] {
      var init := entries[..|entries| - 1];
      assert forall i :: 0 <= i < |init| ==> init[i] == entries[i];
      AuditAllConsistent(audit, init);
    }
  }

  /**
   * Each entry is found in the audit store under its requestId, and it is the
   * stored record unless a later entry of the same run reused that requestId.
   */
  lemma {:induction false} AuditAllRecords(audit: map<string, SendResult>, entries: seq<SendResult>, i: nat)
    requires i < |entries|
    ensures entries[i].requestId in AuditAll(audit, entries)
    ensures (forall j :: i < j < |entries| ==> entries[j].requestId != entries[i].requestId)
            ==> AuditAll(audit, entries)[entries[i].requestId] == entries[i]
  {
    var n := |entries| - 1;
    if i < n {
      var init := entries[..n];
      assert init[i] == entries[i];
      AuditAllRecords(audit, init, i);
      if forall j :: i < j < |entries| ==> entries[j].requestId != entries[i].requestId {
        assert entries[n].requestId != entries[i].requestId;
        assert forall j :: i < j < |init| ==> init[j] == entries[j];
      }
    }
  }
}
