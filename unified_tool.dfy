/**
 * `Sms4jUnifiedTool`: the template store, the send-audit store and the
 * template counter, with the lifecycle, read and send operations over them.
 *
 * The delivery backend (`Sms4jInvoker.send`) is an oracle: each send takes the
 * outcome of each backend call as a parameter, and `calls` records every
 * request handed to the backend, in order.  Generated requestIds come from a
 * supply of fresh ids and timestamps from a `now` parameter.
 */
module UnifiedTool {
  import opened Wrappers
  import opened Strings
  import opened SmsTypes
  import opened TemplateCodes
  import opened Phones
  import opened Lifecycle
  import opened Sending

  /** What `sendTemplateBatch` has settled before its first backend call. */
  datatype BatchPlan = BatchPlan(phones: seq<string>, template: TemplateMeta)

  /** Every template is stored under its own code. */
  predicate KeyedByCode(store: map<string, TemplateMeta>) {
    forall code :: code in store ==> store[code].templateCode == code
  }

  /** The values of a store keyed by code, each once, picked one key at a time. */
  method StoredValues(store: map<string, TemplateMeta>) returns (r: seq<TemplateMeta>)
    requires KeyedByCode(store)
    ensures |r| == |store|
    ensures forall i :: 0 <= i < |r| ==> r[i].templateCode in store && store[r[i].templateCode] == r[i]
    ensures forall i, j :: 0 <= i < j < |r| ==> r[i].templateCode != r[j].templateCode
    ensures forall code :: code in store ==> store[code] in r
  {
    var rest := store.Keys;
    r := [];
    while rest != {}
      invariant rest <= store.Keys
      invariant |r| + |rest| == |store|
      invariant forall i :: 0 <= i < |r| ==> r[i].templateCode in store && r[i].templateCode !in rest && store[r[i].templateCode] == r[i]
      invariant forall i, j :: 0 <= i < j < |r| ==> r[i].templateCode != r[j].templateCode
      invariant forall code :: code in store && code !in rest ==> store[code] in r
      decreases rest
    {
      var code :| code in rest;
      ghost var prev := r;
      r := r + [store[code]];
      rest := rest - {code};
      forall i | 0 <= i < |r|
        ensures r[i].templateCode in store && r[i].templateCode !in rest && store[r[i].templateCode] == r[i]
      {
        if i < |prev| {
          assert r[i] == prev[i];
        }
      }
    }
  }

  class Sms4jUnifiedTool {
    /** `templateStore`, keyed by templateCode. */
    var templates: map<string, TemplateMeta>
    /** `sendAuditStore`, keyed by requestId. */
    var audit: map<string, SendResult>
    /** `templateSequence`: the last number handed out. */
    var sequence: nat
    /** Every request handed to the delivery backend, oldest first. */
    ghost var calls: seq<SendRequest>

    /** Every template is stored under its own code, one the counter has already issued. */
    ghost predicate StoreValid()
      reads this`templates, this`sequence
    {
      && InitialSequence <= sequence
      && KeyedByCode(templates)
      && (forall code :: code in templates ==> IsIssuedCode(code, sequence))
    }

    /** The template store is valid, and every audit record sits under its own non-blank requestId. */
    ghost predicate Valid()
      reads this
    {
      StoreValid() && AuditConsistent(audit)
    }

    constructor ()
      ensures Valid()
      ensures templates == map[] && audit == map[] && sequence == InitialSequence && calls == []
    {
      templates := map[];
      audit := map[];
      sequence := InitialSequence;
      calls := [];
    }

    /** `getTemplateOrThrow`: a blank or unknown code throws. */
    function GetTemplateOrThrow(code: string): (r: Result<TemplateMeta, Error>)
      reads this`templates
      ensures r.Success? <==> !IsBlank(code) && code in templates
      ensures r.Success? ==> r.value == templates[code]
      ensures IsBlank(code) ==> r == Failure(BlankTemplateCode)
      ensures !IsBlank(code) && code !in templates ==> r == Failure(TemplateNotFound(code))
    {
      if IsBlank(code) then Failure(BlankTemplateCode)
      else if code !in templates then Failure(TemplateNotFound(code))
      else Success(templates[code])
    }

    /** `validateTemplateCanSend`: the template must exist and be ENABLED. */
    function ValidateTemplateCanSend(code: string): (r: Result<TemplateMeta, Error>)
      reads this`templates
      ensures r.Success? <==> !IsBlank(code) && code in templates && templates[code].status == Enabled
      ensures r.Success? ==> r.value == templates[code]
      ensures GetTemplateOrThrow(code).Failure? ==> r == Failure(GetTemplateOrThrow(code).error)
      ensures GetTemplateOrThrow(code).Success? && templates[code].status != Enabled
              ==> r == Failure(NotSendable(templates[code].status))
    {
      match GetTemplateOrThrow(code)
      case Failure(e) => Failure(e)
      case Success(t) => if t.status != Enabled then Failure(NotSendable(t.status)) else Success(t)
    }

    /** A lifecycle operation on the stored template `code`: look it up, then apply the transition. */
    function LifecycleResult(code: string, op: LifecycleOp, now: Time): (r: Result<TemplateMeta, Error>)
      reads this`templates
      ensures GetTemplateOrThrow(code).Failure? ==> r == Failure(GetTemplateOrThrow(code).error)
      ensures GetTemplateOrThrow(code).Success? ==> r == Step(templates[code], op, now)
      ensures r.Success? ==> code in templates && SameTemplate(templates[code], r.value)
    {
      match GetTemplateOrThrow(code)
      case Failure(e) => Failure(e)
      case Success(m) =>
        var r := Step(m, op, now);
        assert r.Success? ==> SameTemplate(m, r.value);
        r
    }

    /**
     * The checks `sendTemplateSingle` runs before calling the backend, in
     * order: the phone, then signName and channel, then the template.
     */
    function SingleSendCheck(code: string, phone: string, signName: string, channel: string): (r: Result<TemplateMeta, Error>)
      reads this`templates
      ensures r.Success? <==> && IsMobileNumber(phone) && !IsBlank(signName) && !IsBlank(channel)
                              && !IsBlank(code) && code in templates && templates[code].status == Enabled
      ensures r.Success? ==> r.value == templates[code]
      ensures !IsMobileNumber(phone) ==> r == Failure(InvalidPhone(phone))
      ensures IsMobileNumber(phone) && IsBlank(signName) ==> r == Failure(BlankSignName)
      ensures IsMobileNumber(phone) && !IsBlank(signName) && IsBlank(channel) ==> r == Failure(BlankChannel)
      ensures IsMobileNumber(phone) && !IsBlank(signName) && !IsBlank(channel) ==> r == ValidateTemplateCanSend(code)
    {
      match ValidatePhone(phone)
      case Fail(e) => Failure(e)
      case Pass =>
        match ValidateSendCommonParams(signName, channel)
        case Fail(e) => Failure(e)
        case Pass => ValidateTemplateCanSend(code)
    }

    /**
     * The checks `sendTemplateBatch` runs before its first backend call, in
     * order: a non-empty list, signName and channel, every distinct phone (in
     * first-occurrence order), then the template.
     */
    function BatchSendCheck(code: string, phones: seq<string>, signName: string, channel: string): (r: Result<BatchPlan, Error>)
      reads this`templates
      ensures r.Success? <==> && phones != [] && !IsBlank(signName) && !IsBlank(channel)
                              && (forall i :: 0 <= i < |phones| ==> IsMobileNumber(phones[i]))
                              && !IsBlank(code) && code in templates && templates[code].status == Enabled
      ensures r.Success? ==> r.value.phones == Dedup(phones) && r.value.template == templates[code]
      ensures phones == [] ==> r == Failure(EmptyPhones)
      ensures phones != [] && IsBlank(signName) ==> r == Failure(BlankSignName)
      ensures phones != [] && !IsBlank(signName) && IsBlank(channel) ==> r == Failure(BlankChannel)
      ensures r.Failure? && r.error.InvalidPhone? ==> r.error.phone in phones && !IsMobileNumber(r.error.phone)
      ensures phones != [] && !IsBlank(signName) && !IsBlank(channel) && FirstInvalidPhone(phones).Some? ==>
                r == Failure(InvalidPhone(FirstInvalidPhone(phones).value))
      ensures phones != [] && !IsBlank(signName) && !IsBlank(channel) && FirstInvalidPhone(phones).None? ==>
                && (ValidateTemplateCanSend(code).Failure? ==> r == Failure(ValidateTemplateCanSend(code).error))
                && (ValidateTemplateCanSend(code).Success? ==>
                      r == Success(BatchPlan(Dedup(phones), ValidateTemplateCanSend(code).value)))
    {
      if phones == [] then Failure(EmptyPhones)
      else
        match ValidateSendCommonParams(signName, channel)
        case Fail(e) => Failure(e)
        case Pass =>
          var unique := Dedup(phones);
          DedupAllValid(phones);
          DedupFirstInvalid(phones);
          match FirstInvalidPhone(unique)
          case Some(p) => Failure(InvalidPhone(p))
          case None =>
            match ValidateTemplateCanSend(code)
            case Failure(e) => Failure(e)
            case Success(t) => Success(BatchPlan(unique, t))
    }

    /** `applyTemplate`: a new PENDING_APPROVAL template under the next, never used, code. */
    method ApplyTemplate(request: TemplateApplyRequest, now: Time) returns (r: Result<TemplateMeta, Error>)
      requires Valid()
      modifies this`templates, this`sequence
      ensures Valid()
      ensures IsBlank(request.templateName) || IsBlank(request.templateContent) ==>
                r == Failure(BlankTemplateFields) && templates == old(templates) && sequence == old(sequence)
      ensures !IsBlank(request.templateName) && !IsBlank(request.templateContent) ==>
                && sequence == old(sequence) + 1
                && r == Success(NewTemplate(TemplateCode(sequence), request, now))
                && TemplateCode(sequence) !in old(templates)
                && templates == old(templates)[TemplateCode(sequence) := r.value]
    {
      if IsBlank(request.templateName) || IsBlank(request.templateContent) {
        return Failure(BlankTemplateFields);
      }
      sequence := sequence + 1;
      var code := TemplateCode(sequence);
      TemplateCodeFresh(sequence, sequence - 1);
      var meta := NewTemplate(code, request, now);
      templates := templates[code := meta];
      r := Success(meta);
    }

    /** `approveTemplate`: PENDING_APPROVAL becomes ENABLED, or REJECTED with a reason. */
    method ApproveTemplate(code: string, approved: bool, reason: string, now: Time) returns (r: Result<TemplateMeta, Error>)
      requires Valid()
      modifies this`templates
      ensures Valid()
      ensures r == old(LifecycleResult(code, ApproveOp(approved, reason), now))
      ensures templates == if r.Success? then old(templates)[code := r.value] else old(templates)
    {
      var found := GetTemplateOrThrow(code);
      if found.Failure? {
        return Failure(found.error);
      }
      r := ApproveMeta(found.value, approved, reason, now);
      if r.Success? {
        templates := templates[code := r.value];
      }
    }

    /** `disableTemplate`: any status but DELETED becomes DISABLED. */
    method DisableTemplate(code: string, now: Time) returns (r: Result<TemplateMeta, Error>)
      requires Valid()
      modifies this`templates
      ensures Valid()
      ensures r == old(LifecycleResult(code, DisableOp, now))
      ensures templates == if r.Success? then old(templates)[code := r.value] else old(templates)
    {
      var found := GetTemplateOrThrow(code);
      if found.Failure? {
        return Failure(found.error);
      }
      r := DisableMeta(found.value, now);
      if r.Success? {
        templates := templates[code := r.value];
      }
    }

    /** `enableTemplate`: ENABLED or DISABLED becomes ENABLED. */
    method EnableTemplate(code: string, now: Time) returns (r: Result<TemplateMeta, Error>)
      requires Valid()
      modifies this`templates
      ensures Valid()
      ensures r == old(LifecycleResult(code, EnableOp, now))
      ensures templates == if r.Success? then old(templates)[code := r.value] else old(templates)
    {
      var found := GetTemplateOrThrow(code);
      if found.Failure? {
        return Failure(found.error);
      }
      r := EnableMeta(found.value, now);
      if r.Success? {
        templates := templates[code := r.value];
      }
    }

    /** `deleteTemplate`: any stored template becomes DELETED; it is never removed from the store. */
    method DeleteTemplate(code: string, now: Time) returns (r: Result<TemplateMeta, Error>)
      requires Valid()
      modifies this`templates
      ensures Valid()
      ensures r == old(LifecycleResult(code, DeleteOp, now))
      ensures templates == if r.Success? then old(templates)[code := r.value] else old(templates)
      ensures templates.Keys == old(templates.Keys)
    {
      var found := GetTemplateOrThrow(code);
      if found.Failure? {
        return Failure(found.error);
      }
      var meta := DeleteMeta(found.value, now);
      templates := templates[code := meta];
      r := Success(meta);
    }

    /** `getTemplate`: the stored template under `code`, changing nothing. */
    method GetTemplate(code: string) returns (r: Result<TemplateMeta, Error>)
      requires Valid()
      ensures r.Success? <==> !IsBlank(code) && code in templates
      ensures r.Success? ==> r.value == templates[code] && r.value.templateCode == code
      ensures r.Failure? ==> r == GetTemplateOrThrow(code)
    {
      r := GetTemplateOrThrow(code);
    }

    /** `listTemplates`: every stored template once, in the store's (unspecified) iteration order. */
    method ListTemplates() returns (r: seq<TemplateMeta>)
      requires Valid()
      ensures |r| == |templates|
      ensures forall i :: 0 <= i < |r| ==> r[i].templateCode in templates && templates[r[i].templateCode] == r[i]
      ensures forall i, j :: 0 <= i < j < |r| ==> r[i].templateCode != r[j].templateCode
      ensures forall code :: code in templates ==> templates[code] in r
    {
      r := StoredValues(templates);
    }

    /** `querySendResult`: the audit record under `requestId`, changing nothing. */
    method QuerySendResult(requestId: string) returns (r: Result<SendResult, Error>)
      requires Valid()
      ensures r.Success? <==> requestId in audit
      ensures r.Success? ==> r.value == audit[requestId] && r.value.requestId == requestId
      ensures r.Failure? ==> r.error == RecordNotFound(requestId)
      ensures IsBlank(requestId) ==> r.Failure?
    {
      if requestId !in audit {
        return Failure(RecordNotFound(requestId));
      }
      r := Success(audit[requestId]);
    }

    /** One call of `Sms4jInvoker.send`: the request is handed over, the oracle says what happened. */
    method CallBackend(request: SendRequest, outcome: InvokeOutcome) returns (o: InvokeOutcome)
      modifies this`calls
      ensures unchanged(this`templates, this`sequence)
      ensures calls == old(calls) + [request]
      ensures o == outcome
    {
      calls := calls + [request];
      o := outcome;
    }

    /** `enrichAndAudit`: stamp the result and store it under its requestId. */
    method EnrichAndAudit(result: SendResult, template: TemplateMeta, count: nat, now: Time, freshId: string)
      returns (r: SendResult)
      requires !IsBlank(freshId)
      modifies this`audit
      ensures unchanged(this`templates, this`sequence)
      ensures r == Enrich(result, template, count, now, freshId)
      ensures audit == old(audit)[r.requestId := r]
    {
      r := Enrich(result, template, count, now, freshId);
      audit := audit[r.requestId := r];
    }

    /**
     * `sendTemplateSingle`: validate, then one backend call; a backend
     * exception propagates and nothing is audited.
     */
    method SendTemplateSingle(code: string, phone: string, params: Option<map<string, string>>,
                              signName: string, channel: string,
                              outcome: InvokeOutcome, now: Time, freshId: string)
      returns (r: Result<SendResult, Error>)
      requires Valid() && !IsBlank(freshId)
      modifies this`audit, this`calls
      ensures Valid()
      ensures old(SingleSendCheck(code, phone, signName, channel)).Failure? ==>
                && r == Failure(old(SingleSendCheck(code, phone, signName, channel)).error)
                && audit == old(audit) && calls == old(calls)
      ensures old(SingleSendCheck(code, phone, signName, channel)).Success? ==>
                calls == old(calls) + [RequestFor(code, phone, params, signName, channel)]
      ensures old(SingleSendCheck(code, phone, signName, channel)).Success? && outcome.Threw? ==>
                r == Failure(BackendFailure(outcome.exception)) && audit == old(audit)
      ensures old(SingleSendCheck(code, phone, signName, channel)).Success? && outcome.Returned? ==>
                && r == Success(Enrich(outcome.result, old(templates[code]), 1, now, freshId))
                && audit == old(audit)[r.value.requestId := r.value]
    {
      var check := SingleSendCheck(code, phone, signName, channel);
      if check.Failure? {
        return Failure(check.error);
      }
      var template := check.value;
      var request := RequestFor(code, phone, params, signName, channel);
      var returned := CallBackend(request, outcome);
      match returned {
        case Threw(ex) =>
          r := Failure(BackendFailure(ex));
        case Returned(result) =>
          var enriched := EnrichAndAudit(result, template, 1, now, freshId);
          r := Success(enriched);
      }
    }

    /**
     * One iteration of the batch loop: a backend call for `phone`, its result
     * or, for an exception, a failed INVOKER_EXCEPTION result, enriched and audited.
     */
    method SendBatchEntry(code: string, phone: string, params: Option<map<string, string>>,
                          signName: string, channel: string, template: TemplateMeta,
                          outcome: InvokeOutcome, now: Time, freshId: string)
      returns (entry: SendResult)
      requires !IsBlank(freshId)
      modifies this`audit, this`calls
      ensures unchanged(this`templates, this`sequence)
      ensures entry == BatchEntry(template, outcome, now, freshId)
      ensures audit == old(audit)[entry.requestId := entry]
      ensures calls == old(calls) + [RequestFor(code, phone, params, signName, channel)]
    {
      var request := RequestFor(code, phone, params, signName, channel);
      var returned := CallBackend(request, outcome);
      match returned {
        case Returned(result) =>
          entry := EnrichAndAudit(result, template, 1, now, freshId);
        case Threw(ex) =>
          entry := EnrichAndAudit(BuildFailSendResult(template, ex), template, 1, now, freshId);
      }
    }

    /** The batch's send loop: one backend call per phone of `unique`, in order. */
    method SendEach(code: string, unique: seq<string>, params: Option<map<string, string>>,
                    signName: string, channel: string, template: TemplateMeta,
                    outcomes: seq<InvokeOutcome>, now: Time, freshIds: seq<string>)
      returns (details: seq<SendResult>)
      requires |unique| <= |outcomes| && |unique| <= |freshIds| && NonBlankIds(freshIds)
      modifies this`audit, this`calls
      ensures unchanged(this`templates, this`sequence)
      ensures details == BatchEntries(template, outcomes, now, freshIds, |unique|)
      ensures audit == AuditAll(old(audit), details)
      ensures calls == old(calls) + RequestsFor(code, unique, params, signName, channel)
    {
      details := [];
      ghost var a0 := audit;
      ghost var c0 := calls;
      var i := 0;
      while i < |unique|
        invariant 0 <= i <= |unique|
        invariant unchanged(this`templates, this`sequence)
        invariant details == BatchEntries(template, outcomes, now, freshIds, i)
        invariant audit == AuditAll(a0, details)
        invariant calls == c0 + RequestsFor(code, unique[..i], params, signName, channel)
      {
        var entry := SendBatchEntry(code, unique[i], params, signName, channel, template, outcomes[i], now, freshIds[i]);
        RequestsForStep(c0, code, unique, i, params, signName, channel);
        AuditAllStep(a0, details, entry);
        details := details + [entry];
        i := i + 1;
      }
      assert unique[..i] == unique;
    }

    /**
     * `sendTemplateBatch`: validate, then one backend call per distinct phone
     * in first-occurrence order; an exception becomes a failed entry and the
     * loop goes on.  `outcomes[i]` and `freshIds[i]` serve the i-th distinct phone.
     */
    method SendTemplateBatch(code: string, phones: seq<string>, params: Option<map<string, string>>,
                             signName: string, channel: string,
                             outcomes: seq<InvokeOutcome>, now: Time, freshIds: seq<string>)
      returns (r: Result<BatchSendResult, Error>)
      requires Valid()
      requires |phones| <= |outcomes| && |phones| <= |freshIds| && NonBlankIds(freshIds)
      modifies this`audit, this`calls
      ensures Valid()
      ensures old(BatchSendCheck(code, phones, signName, channel)).Failure? ==>
                && r == Failure(old(BatchSendCheck(code, phones, signName, channel)).error)
                && audit == old(audit) && calls == old(calls)
      ensures old(BatchSendCheck(code, phones, signName, channel)).Success? ==>
                var plan := old(BatchSendCheck(code, phones, signName, channel)).value;
                var report := BatchReport(plan.template, outcomes, now, freshIds, |plan.phones|);
                && r == Success(report)
                && audit == AuditAll(old(audit), report.results)
                && calls == old(calls) + RequestsFor(code, plan.phones, params, signName, channel)
    {
      var check := BatchSendCheck(code, phones, signName, channel);
      if check.Failure? {
        return Failure(check.error);
      }
      var unique := check.value.phones;
      var template := check.value.template;
      var details := SendEach(code, unique, params, signName, channel, template, outcomes, now, freshIds);
      r := Success(BatchReport(template, outcomes, now, freshIds, |unique|));
      BatchEntriesIds(template, outcomes, now, freshIds, |unique|);
      AuditAllConsistent(old(audit), details);
    }
  }
}
