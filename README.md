# Sms4jUnifiedTool, modelled in Dafny

This project models `Sms4jUnifiedTool`, the single entry point of a small SMS
facade. The tool keeps three pieces of state:

- a template store, keyed by template code;
- a send-audit store, keyed by requestId;
- a template counter that starts at 1000.

Over that state it offers four groups of operations:

- the template lifecycle: apply, approve or reject, disable, enable, delete;
- the read operations: get one template, list all templates, query a send record;
- single and batch template sends, each of which validates its input and then
  calls a delivery backend (`Sms4jInvoker.send`);
- audit recording: every result the tool returns is enriched and stored under
  its requestId.

The model is a class `UnifiedTool.Sms4jUnifiedTool`. Its fields `templates`,
`audit` and `sequence` are the three stores. A fourth, ghost field, `calls`, logs
every request handed to the backend, so the contracts can say when no backend
call was made. The tool's pure helpers are functions in their own modules:

- `Strings`: `isBlank`, `trim`, `defaultValue`;
- `TemplateCodes`: the `"TPL" + n` codes;
- `Phones`: phone validation and order-preserving deduplication;
- `Lifecycle`: the status transitions of one template;
- `Sending`: requests, enrichment, batch entries and counts, and audit puts.

`UsageScenario` replays the documented client flow.

The backend is an oracle. A single send takes the outcome of its one call as
a parameter. A batch takes one outcome per distinct phone. Java's
`UUID.randomUUID()` and `LocalDateTime.now()` are parameters too: a fresh id,
required to be non-blank, and an instant `now`.

Three places where the code differs from a natural reading of the tool's
description. The model follows the code in each.

- `deleteTemplate` has no status guard. A deleted template can be deleted
  again, and each time its `updatedAt` is refreshed.
- `querySendResult` does not check for a blank id. The model still proves
  that a blank id is never found, because the audit store never holds a
  blank key.
- Disable is allowed from PENDING_APPROVAL and from REJECTED, and enable is
  allowed from DISABLED. So a template that was never approved can become
  ENABLED in two steps. `Lifecycle.EnabledWithoutApproval` states this.

## Model

| member | source | states |
|---|---|---|
| Strings.TrimStart | Sms4jUnifiedTool.java:327-329 | the result is a suffix of the input; every char removed is one `trim()` strips; the result does not start with such a char |
| Strings.TrimEnd | Sms4jUnifiedTool.java:327-329 | the result is a prefix of the input; every char removed is one `trim()` strips; the result does not end with such a char |
| Strings.Trim | Sms4jUnifiedTool.java:327-329 | `trim()` is empty exactly when every char is at most U+0020; the result is a contiguous slice of the input with only strippable chars outside it; a non-empty result has no strippable char at either end |
| Strings.BlankIsTrimEmpty | Sms4jUnifiedTool.java:327-329 | `isBlank(s)` holds exactly when `s.trim()` is empty |
| Strings.DefaultValue | Sms4jUnifiedTool.java:323-325 | a blank value gives the fallback, any other value is kept; a non-blank fallback gives a non-blank result |
| TemplateCodes.DigitChar | Sms4jUnifiedTool.java:119 | each digit value has an ASCII digit char that reads back as that value |
| TemplateCodes.Decimal | Sms4jUnifiedTool.java:119 | the decimal rendering of an int is a non-empty digit string without a leading zero |
| TemplateCodes.ParseDecimalOfDecimal | Sms4jUnifiedTool.java:119 | reading the decimal rendering back gives the number |
| TemplateCodes.TemplateCode | Sms4jUnifiedTool.java:119 | the code is `"TPL"` followed by the decimal rendering of the counter value |
| TemplateCodes.TemplateCodeInjective | Sms4jUnifiedTool.java:119 | distinct counter values give distinct codes |
| TemplateCodes.TemplateCodeFresh | Sms4jUnifiedTool.java:113-132 | the code for a counter value above 1000 counts as issued once the counter reaches that value, and not while the counter is below it |
| Phones.ValidatePhone | Sms4jUnifiedTool.java:240-244 | passes exactly for an 11-char string of ASCII digits starting with '1'; otherwise it throws naming the phone |
| Phones.FirstInvalidIndex | Sms4jUnifiedTool.java:78-80 | the loop stops at the first invalid phone; every phone before that point is valid |
| Phones.FirstInvalidPhone | Sms4jUnifiedTool.java:78-80 | no phone is reported exactly when all are valid; a reported phone is the first invalid one |
| Phones.Dedup | Sms4jUnifiedTool.java:255-257 | the deduplicated list has exactly the input's phones and is no longer than the input |
| Phones.DedupFirstOccurrenceOrder | Sms4jUnifiedTool.java:255-257 | no phone appears twice, and phones keep the order of their first occurrence |
| Phones.DedupFirstInvalid | Sms4jUnifiedTool.java:77-80 | the first invalid phone of the deduplicated list is the first invalid phone of the original list, and there is none in one exactly when there is none in the other |
| Phones.DedupAllValid | Sms4jUnifiedTool.java:77-80 | validating the deduplicated list checks every phone of the original list |
| Lifecycle.NewTemplate | Sms4jUnifiedTool.java:120-128 | a new template carries the request's fields and the new code, is PENDING_APPROVAL, has no reject reason, and is created and updated at `now` |
| Lifecycle.ApproveMeta | Sms4jUnifiedTool.java:137-148 | succeeds exactly from PENDING_APPROVAL, otherwise fails naming the status; approval gives ENABLED with no reason; rejection gives REJECTED with the given non-blank reason or the default one; nothing else changes but updatedAt |
| Lifecycle.EnableMeta | Sms4jUnifiedTool.java:167-179 | succeeds exactly from ENABLED or DISABLED; DELETED and PENDING_APPROVAL/REJECTED fail with their own errors; success gives ENABLED and keeps the reject reason |
| Lifecycle.DisableMeta | Sms4jUnifiedTool.java:153-162 | fails only from DELETED; otherwise gives DISABLED and keeps the reject reason |
| Lifecycle.DeleteMeta | Sms4jUnifiedTool.java:184-190 | defined for every status, DELETED included; gives DELETED, refreshes updatedAt and keeps the reject reason |
| Lifecycle.RunKeepsTemplate | Sms4jUnifiedTool.java:137-190 | no sequence of lifecycle calls changes a template's code, name, content, scene, creator or creation time |
| Lifecycle.DeletedIsTerminal | Sms4jUnifiedTool.java:137-190 | once DELETED, a template stays DELETED whatever follows, and approve, enable and disable all fail on it |
| Lifecycle.EnabledWithoutApproval | Sms4jUnifiedTool.java:155-177 | a PENDING_APPROVAL template becomes ENABLED through disable then enable, with no approval |
| Sending.ValidateSendCommonParams | Sms4jUnifiedTool.java:246-253 | passes exactly when signName and channel are both non-blank; signName is checked first |
| Sending.DefaultIfNull | Sms4jUnifiedTool.java:319-321 | a null parameter map becomes empty; any other map is kept |
| Sending.RequestFor | Sms4jUnifiedTool.java:53-59 | a backend request names the template, exactly one phone, the parameters (empty map for null), the sign name and the channel |
| Sending.RequestsFor | Sms4jUnifiedTool.java:86-93 | a batch makes one request per phone, in the phones' order |
| Sending.RequestsForStep | Sms4jUnifiedTool.java:86-93 | each further phone appends exactly its own request to the backend log |
| Sending.ExceptionMessage | Sms4jUnifiedTool.java:263 | the exception's message, or its simple class name when the message is null |
| Sending.BuildFailSendResult | Sms4jUnifiedTool.java:259-267 | a failed `INVOKER_EXCEPTION` result carrying the exception's message and the template's code and name, with no requestId and no send time yet |
| Sending.Enrich | Sms4jUnifiedTool.java:208-216 | the requestId is the backend's when non-blank, else the fresh id, so never blank; template code and name, phone count and send time are set; what the provider reported is kept |
| Sending.BatchEntry | Sms4jUnifiedTool.java:94-100 | a returned result is enriched; a thrown exception becomes a failed `INVOKER_EXCEPTION` entry under the fresh id; either way phoneCount is 1 |
| Sending.BatchEntries | Sms4jUnifiedTool.java:84-101 | a batch to n recipients records n entries |
| Sending.BatchEntriesAt | Sms4jUnifiedTool.java:84-101 | the entry at position i is the entry for the i-th distinct phone's backend outcome |
| Sending.BatchEntriesIds | Sms4jUnifiedTool.java:94-100 | every batch entry has a non-blank requestId |
| Sending.CountSuccess | Sms4jUnifiedTool.java:105 | the success count never exceeds the number of results |
| Sending.CountSuccessExtremes | Sms4jUnifiedTool.java:105 | the count equals the length exactly when every result succeeded, and is zero exactly when none did |
| Sending.CountSuccessSnoc | Sms4jUnifiedTool.java:105 | one more result adds one to the count exactly when it succeeded |
| Sending.BatchSuccessCount | Sms4jUnifiedTool.java:94-105 | a batch's success count is the number of backend calls that returned a successful result; exceptions count as failures |
| Sending.BatchReport | Sms4jUnifiedTool.java:103-106 | total is the number of distinct phones; success counts the successful calls; success plus failed equals total; results are the entries in send order |
| Sending.OneThrowOneFailure | Sms4jUnifiedTool.java:94-100 | one backend exception among otherwise successful calls costs exactly one success: the loop goes on past it |
| Sending.OneFalse | Sms4jUnifiedTool.java:94-105 | one thrown call among n otherwise successful calls leaves n - 1 successful calls |
| Sending.AllSucceeded | Sms4jUnifiedTool.java:94-105 | n successful calls give n successes |
| Sending.AuditAllKeys | Sms4jUnifiedTool.java:217 | the audit puts add exactly the entries' requestIds as keys, and every other record stays as it was |
| Sending.AuditAllStep | Sms4jUnifiedTool.java:217 | each further entry is one more put under its own requestId |
| Sending.AuditAllConsistent | Sms4jUnifiedTool.java:209-217 | puts of entries with non-blank requestIds keep every record under its own non-blank requestId |
| Sending.AuditAllRecords | Sms4jUnifiedTool.java:200-217 | every entry can be found under its requestId, and the stored record is that entry unless a later entry reused the id |
| UnifiedTool.StoredValues | Sms4jUnifiedTool.java:196-198 | every stored template is listed exactly once, each listed template is the one stored under its code, and the list is as long as the store |
| UnifiedTool.Sms4jUnifiedTool.constructor | Sms4jUnifiedTool.java:33-39 | the tool starts with empty stores, counter 1000 and no backend calls |
| UnifiedTool.Sms4jUnifiedTool.GetTemplateOrThrow | Sms4jUnifiedTool.java:229-238 | succeeds exactly for a non-blank stored code with its template; a blank code and an unknown code fail with their own errors |
| UnifiedTool.Sms4jUnifiedTool.ValidateTemplateCanSend | Sms4jUnifiedTool.java:221-227 | succeeds exactly for a stored ENABLED template; lookup errors pass through; any other status fails naming it |
| UnifiedTool.Sms4jUnifiedTool.LifecycleResult | Sms4jUnifiedTool.java:137-190 | a lifecycle call is the lookup followed by that template's transition; a success keeps the template's identity |
| UnifiedTool.Sms4jUnifiedTool.SingleSendCheck | Sms4jUnifiedTool.java:49-51 | a single send passes its checks exactly when the phone is valid, sign and channel are non-blank and the template is sendable; the first failing check, in source order, names the error |
| UnifiedTool.Sms4jUnifiedTool.BatchSendCheck | Sms4jUnifiedTool.java:73-81 | a batch passes its checks exactly when the list is non-empty, sign and channel are non-blank, every phone is valid and the template is sendable; the checks fail in source order: empty list, then sign name, then channel, then the first invalid phone, and only then the template lookup and status; the plan is the deduplicated list with the stored template |
| UnifiedTool.Sms4jUnifiedTool.ApplyTemplate | Sms4jUnifiedTool.java:113-132 | a blank name or content fails and changes nothing; otherwise the counter goes up by one and a new PENDING_APPROVAL template is stored under a code that was not in the store; the store invariant holds |
| UnifiedTool.Sms4jUnifiedTool.ApproveTemplate | Sms4jUnifiedTool.java:137-148 | the result is the lookup plus approval; on success only that template is replaced, on failure the store is unchanged |
| UnifiedTool.Sms4jUnifiedTool.DisableTemplate | Sms4jUnifiedTool.java:153-162 | the result is the lookup plus disable; on success only that template is replaced, on failure the store is unchanged |
| UnifiedTool.Sms4jUnifiedTool.EnableTemplate | Sms4jUnifiedTool.java:167-179 | the result is the lookup plus enable; on success only that template is replaced, on failure the store is unchanged |
| UnifiedTool.Sms4jUnifiedTool.DeleteTemplate | Sms4jUnifiedTool.java:184-190 | the result is the lookup plus delete; only that template is replaced; no key is ever removed |
| UnifiedTool.Sms4jUnifiedTool.GetTemplate | Sms4jUnifiedTool.java:192-194 | succeeds exactly for a non-blank stored code, returning the template stored under it; changes nothing |
| UnifiedTool.Sms4jUnifiedTool.ListTemplates | Sms4jUnifiedTool.java:196-198 | every stored template exactly once, each equal to the one stored under its code; changes nothing |
| UnifiedTool.Sms4jUnifiedTool.QuerySendResult | Sms4jUnifiedTool.java:200-206 | succeeds exactly for a stored requestId, returning the record with that id; otherwise fails naming the id; a blank id is never found; changes nothing |
| UnifiedTool.Sms4jUnifiedTool.CallBackend | Sms4jUnifiedTool.java:339-341 | a backend call appends its request to the call log and yields the oracle's outcome |
| UnifiedTool.Sms4jUnifiedTool.EnrichAndAudit | Sms4jUnifiedTool.java:208-219 | the returned record is the enriched result, and it is stored under its own requestId |
| UnifiedTool.Sms4jUnifiedTool.SendBatchEntry | Sms4jUnifiedTool.java:87-100 | one loop step makes one backend request for its phone and audits that phone's entry |
| UnifiedTool.Sms4jUnifiedTool.SendEach | Sms4jUnifiedTool.java:84-101 | the batch loop records every distinct phone's entry in order, audits each in turn and makes exactly one backend request per phone |
| UnifiedTool.Sms4jUnifiedTool.SendTemplateSingle | Sms4jUnifiedTool.java:44-63 | a failed check returns its error with no backend call and no audit; otherwise there is exactly one backend request; a backend exception propagates and nothing is audited; a returned result is enriched and audited under its requestId |
| UnifiedTool.Sms4jUnifiedTool.SendTemplateBatch | Sms4jUnifiedTool.java:68-108 | a failed check returns its error with no backend call and no audit; otherwise there is one request per distinct phone in first-occurrence order; the report counts them; every entry is audited in order |
| UsageScenario.DemoTextsNonBlank | Sms4jUsageDemo.java:25-47 | the demo's name, content, sign name, channel and ids are all non-blank |
| UsageScenario.DemoPhonesValid | Sms4jUsageDemo.java:38-50 | the demo's phones are valid mobile numbers |
| UsageScenario.DemoPhonesDeduplicated | Sms4jUsageDemo.java:48 | the demo's batch list with one repeated number deduplicates to its two distinct numbers, in order |
| UsageScenario.FirstTemplateCode | Sms4jUnifiedTool.java:119 | the first code the tool issues is `TPL1001` |
| UsageScenario.DemoBatchReport | Sms4jUsageDemo.java:46-52 | two accepted calls give total 2, success 2, failed 0, with each entry under the tool's own fresh id |
| UsageScenario.SetUpLoginTemplate | Sms4jUsageDemo.java:25-32 | applying and approving the demo template on a new tool gives an ENABLED template `TPL1001` |
| UsageScenario.Scenario | Sms4jUsageDemo.java:15-53 | the demo flow: code `TPL1001`; the single send succeeds with the tool's fresh id; querying that id returns the same record; the batch has total 2, success 2, failed 0 |

## Left out

- Concurrency. `ConcurrentHashMap` and `AtomicInteger` are modelled as plain maps and a counter, and every operation takes effect on its own.
- The counter is an unbounded `nat`, so `int` overflow of `templateSequence` is not modelled. The counter starts at 1000, so Java's `incrementAndGet` passes 2^31 - 1 on the 2^31 - 1000th `applyTemplate` (after 2^31 - 1001 templates) and wraps to -2^31, giving the code `TPL-2147483648`. From there codes are negative, and after 2^32 applies they repeat, starting again from `TPL1001`, so `templateStore.put` silently overwrites stored templates. The overflow of the batch counts is not modelled either.
- TemplateCodes.TemplateCodeFresh: the promise that a code is never reused holds for the unbounded counter only. Java reissues codes after 2^32 applies.
- UnifiedTool.Sms4jUnifiedTool.ApplyTemplate: `TemplateCode(sequence) !in old(templates)` holds for the unbounded counter only. In Java, once the counter has wrapped around (after 2^32 applies), a new template overwrites an existing one under the same code.
- Java nulls:
  - A null string is modelled as "" wherever the tool only tests it for blankness. A null phone inside a batch list behaves like "", which is an invalid phone.
  - A null `request` in `applyTemplate` is not modelled.
  - A null invoker in the constructor is not modelled. The backend is a parameter of each send.
  - A `null` result returned by the backend is not modelled. In a batch that case would end in the catch branch.
  - `ConcurrentHashMap.get(null)` in `querySendResult` is not modelled.
- The `ext` map of `SendResult` and its copying are not modelled.
- Aliasing of stored templates. The lifecycle methods and `applyTemplate` return the stored `TemplateMeta` object itself, so a Java caller can change the store through it (for example with `setStatus`, bypassing every guard). Templates and results are values in the model, so it cannot express that; it also does not distinguish the defensive copies made by `getTemplate`, `listTemplates` and `querySendResult`.
- Exception messages are not modelled. Each throw site is its own `SmsTypes.Error` constructor, which carries the value the message names.
- Time and ids. `LocalDateTime.now()` is a parameter `now`, read once per operation, where Java reads the clock at every call. So a new template's `createdAt` and `updatedAt` are equal in the model although Java takes them from two separate clock reads, and every entry of one batch has the same `sendTime` although Java stamps each entry as it is enriched. `UUID.randomUUID()` is a caller-supplied fresh id that must be non-blank.
- `Sms4jDromaraInvoker` is not part of this model. It reflectively invokes an unseen SDK, so the backend appears only as the outcome of each call.
- `Sms4jUsageDemo` prints to the console; it appears only as `UsageScenario`.
- Audit-key uniqueness is not claimed. A backend that returns a requestId already in use overwrites the earlier record. `Sending.AuditAllRecords` states what is kept.
- The batch's `catch (Exception ex)` is modelled as catching every backend failure. Only the outcome of `send` is an oracle; an `Error` escaping the catch is not modelled.
- UnifiedTool.Sms4jUnifiedTool.ListTemplates: `templateStore.values()` has no specified order, so the contract fixes the contents and not the order.
- Phones.ValidatePhone: the rule is `^1\d{10}$` stated directly, with `\d` as the ten ASCII digits, and not Java's regex engine.
