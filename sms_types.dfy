/**
 * The value types of `Sms4jUnifiedTool`: template metadata and its status,
 * the request handed to the delivery backend, the per-recipient and batch
 * results, and the errors the tool throws.
 */
module SmsTypes {
  import opened Wrappers

  /** Timestamps (`LocalDateTime.now()`) are opaque instants supplied by the caller. */
  type Time = nat

  /** The five-valued `TemplateStatus` enum. */
  datatype TemplateStatus = PendingApproval | Enabled | Disabled | Rejected | Deleted

  /** `TemplateApplyRequest`: what a caller supplies to apply for a template. */
  datatype TemplateApplyRequest = TemplateApplyRequest(
    templateName: string,
    templateContent: string,
    scene: string,
    applicant: string)

  /** `TemplateMeta`: one stored template.  `rejectReason` is null except after a rejection. */
  datatype TemplateMeta = TemplateMeta(
    templateCode: string,
    templateName: string,
    templateContent: string,
    scene: string,
    status: TemplateStatus,
    rejectReason: Option<string>,
    createdBy: string,
    createdAt: Time,
    updatedAt: Time)

  /** `SendRequest`: one call's worth of input to the delivery backend. */
  datatype SendRequest = SendRequest(
    templateCode: string,
    phones: seq<string>,
    templateParams: map<string, string>,
    signName: string,
    channel: string)

  /**
   * `SendResult`: the outcome for one recipient.  A null `requestId` is "";
   * `sendTime` is null until the tool stamps the result.
   */
  datatype SendResult = SendResult(
    requestId: string,
    success: bool,
    providerCode: string,
    providerMessage: string,
    templateCode: string,
    templateName: string,
    phoneCount: nat,
    sendTime: Option<Time>)

  /** `BatchSendResult`: counts over the per-recipient results, in send order. */
  datatype BatchSendResult = BatchSendResult(
    total: nat,
    success: nat,
    failed: nat,
    results: seq<SendResult>)

  /** An exception thrown by the backend: its message (possibly null) and its class's simple name. */
  datatype BackendException = BackendException(message: Option<string>, simpleName: string)

  /** What one call of `Sms4jInvoker.send` does: return a result or throw. */
  datatype InvokeOutcome = Returned(result: SendResult) | Threw(exception: BackendException)

  /**
   * The exceptions the tool throws, one constructor per distinct throw site.
   * NotPendingApproval, DeletedCannotDisable, DeletedCannotEnable, CannotEnable
   * and NotSendable are IllegalStateException; BackendFailure is whatever the
   * backend threw; the rest are IllegalArgumentException.
   */
  datatype Error =
    | BlankTemplateFields
    | BlankTemplateCode
    | TemplateNotFound(code: string)
    | NotPendingApproval(current: TemplateStatus)
    | DeletedCannotDisable
    | DeletedCannotEnable
    | CannotEnable(current: TemplateStatus)
    | NotSendable(current: TemplateStatus)
    | InvalidPhone(phone: string)
    | BlankSignName
    | BlankChannel
    | EmptyPhones
    | RecordNotFound(requestId: string)
    | BackendFailure(exception: BackendException)
}
