/**
 * The documented client flow, against a backend that accepts every request
 * and leaves the requestId to the tool: apply for a login-code template,
 * approve it, send to one phone, look the record up, then send a batch that
 * names one phone twice.
 */
module UsageScenario {
  import opened Wrappers
  import opened Strings
  import opened SmsTypes
  import opened TemplateCodes
  import opened Phones
  import opened Sending
  import opened UnifiedTool

  /** What the backend reports for an accepted request: success, no requestId, nothing stamped yet. */
  const Accepted: SendResult := SendResult("", true, "OK", "SMS4J invoke success", "", "", 0, None)

  const LoginTemplate: TemplateApplyRequest :=
    TemplateApplyRequest("登录验证码", "您的验证码为${code}，5分钟内有效", "LOGIN", "demo")
  const SignName: string := "演示签名"
  const Channel: string := "aliyun"
  const FirstPhone: string := "13800138000"
  const SecondPhone: string := "13900139000"
  const BatchPhones: seq<string> := [FirstPhone, SecondPhone, FirstPhone]
  const SingleId: string := "uuid-1"
  const BatchIds: seq<string> := ["uuid-2", "uuid-3", "uuid-4"]
  const BatchOutcomes: seq<InvokeOutcome> := [Returned(Accepted), Returned(Accepted), Returned(Accepted)]

  /** The scenario's texts pass every blankness check. */
  lemma DemoTextsNonBlank()
    ensures !IsBlank(LoginTemplate.templateName) && !IsBlank(LoginTemplate.templateContent)
    ensures !IsBlank(SignName) && !IsBlank(Channel) && !IsBlank(SingleId) && NonBlankIds(BatchIds)
  {
    assert !IsTrimmable(LoginTemplate.templateName[0]) && !IsTrimmable(LoginTemplate.templateContent[0]);
    assert !IsTrimmable(SignName[0]) && !IsTrimmable(Channel[0]) && !IsTrimmable(SingleId[0]);
    assert !IsTrimmable(BatchIds[0][0]) && !IsTrimmable(BatchIds[1][0]) && !IsTrimmable(BatchIds[2][0]);
  }

  /** Both phones of the scenario are mobile numbers. */
  lemma DemoPhonesValid()
    ensures IsMobileNumber(FirstPhone) && IsMobileNumber(SecondPhone)
    ensures forall i :: 0 <= i < |BatchPhones| ==> IsMobileNumber(BatchPhones[i])
  {
  }

  /** The batch's phone list repeats its first number; deduplication keeps one copy, in place. */
  lemma DemoPhonesDeduplicated()
    ensures Dedup(BatchPhones) == [FirstPhone, SecondPhone]
  {
    assert BatchPhones[..2] == [FirstPhone, SecondPhone];
    assert BatchPhones[..2][..1] == [FirstPhone];
    assert BatchPhones[..2][..1][..0] == [];
  }

  /** The first template the tool issues is TPL1001. */
  lemma FirstTemplateCode()
    ensures TemplateCode(InitialSequence + 1) == "TPL1001"
  {
    assert Decimal(1) == "1";
    assert Decimal(10) == "10";
    assert Decimal(100) == "100";
    assert Decimal(1001) == "1001";
  }

  /** Two accepted calls: two successes, none failed, with the tool's own ids. */
  lemma DemoBatchReport(template: TemplateMeta, now: Time)
    ensures NonBlankIds(BatchIds)
    ensures var b := BatchReport(template, BatchOutcomes, now, BatchIds, 2);
            && b.total == 2 && b.success == 2 && b.failed == 0
            && |b.results| == 2 && b.results[0].requestId == "uuid-2" && b.results[1].requestId == "uuid-3"
  {
    DemoTextsNonBlank();
    BatchEntriesAt(template, BatchOutcomes, now, BatchIds, 2, 0);
    BatchEntriesAt(template, BatchOutcomes, now, BatchIds, 2, 1);
    AllSucceeded(BatchOutcomes, 2);
  }

  /** A new tool holding the approved login-code template. */
  method SetUpLoginTemplate(now: Time) returns (tool: Sms4jUnifiedTool, code: string)
    ensures fresh(tool) && tool.Valid()
    ensures code == "TPL1001" && code in tool.templates && tool.templates[code].status == Enabled
    ensures tool.templates[code].templateName == LoginTemplate.templateName
  {
    DemoTextsNonBlank();
    FirstTemplateCode();
    tool := new Sms4jUnifiedTool();
    var applied := tool.ApplyTemplate(LoginTemplate, now);
    code := applied.value.templateCode;
    assert !IsTrimmable(code[0]);
    var approved := tool.ApproveTemplate(code, true, "", now);
  }

  method Scenario(now: Time) returns (code: string, single: Result<SendResult, Error>,
                                      found: Result<SendResult, Error>, batch: Result<BatchSendResult, Error>)
    ensures code == "TPL1001"
    ensures single.Success? && single.value.success && single.value.providerCode == "OK"
    ensures single.value.requestId == SingleId && single.value.templateCode == code && single.value.phoneCount == 1
    ensures found == single
    ensures batch.Success? && batch.value.total == 2 && batch.value.success == 2 && batch.value.failed == 0
    ensures |batch.value.results| == 2
    ensures batch.value.results[0].requestId == "uuid-2" && batch.value.results[1].requestId == "uuid-3"
  {
    var tool;
    tool, code := SetUpLoginTemplate(now);
    DemoTextsNonBlank();
    DemoPhonesValid();
    var params := Some(map["code" := "123456"]);
    single := tool.SendTemplateSingle(code, FirstPhone, params, SignName, Channel, Returned(Accepted), now, SingleId);
    found := tool.QuerySendResult(single.value.requestId);

    DemoPhonesDeduplicated();
    DemoBatchReport(tool.templates[code], now);
    batch := tool.SendTemplateBatch(code, BatchPhones, params, SignName, Channel, BatchOutcomes, now, BatchIds);
  }
}
