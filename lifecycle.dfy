/**
 * The template lifecycle: how `approveTemplate`, `enableTemplate`,
 * `disableTemplate` and `deleteTemplate` change one stored template, checked
 * against an explicit transition table.
 */
module Lifecycle {
  import opened Wrappers
  import opened Strings
  import opened SmsTypes

  /** The reason recorded when a rejection gives none. */
  const DefaultRejectReason: string := "模板不符合审核规范"

  /** The status changes the lifecycle operations can make. */
  datatype Transition = Approve | Reject | Enable | Disable | Delete

  /** The transition table: the statuses each transition may start from. */
  predicate AllowedFrom(t: Transition, s: TemplateStatus) {
    match t
    case Approve => s == PendingApproval
    case Reject => s == PendingApproval
    case Enable => s == Enabled || s == Disabled
    case Disable => s == PendingApproval || s == Enabled || s == Disabled || s == Rejected
    case Delete => true
  }

  /** The transition table: the status each transition leads to. */
  function Target(t: Transition): TemplateStatus {
    match t
    case Approve => Enabled
    case Reject => Rejected
    case Enable => Enabled
    case Disable => Disabled
    case Delete => Deleted
  }

  /** `a` and `b` are the same template, apart from status, rejectReason and updatedAt. */
  predicate SameTemplate(a: TemplateMeta, b: TemplateMeta) {
    && a.templateCode == b.templateCode
    && a.templateName == b.templateName
    && a.templateContent == b.templateContent
    && a.scene == b.scene
    && a.createdBy == b.createdBy
    && a.createdAt == b.createdAt
  }

  /** `m'` is `m` after transition `t` at time `now`, its rejectReason aside. */
  predicate TransitionedTo(m: TemplateMeta, t: Transition, now: Time, m': TemplateMeta) {
    SameTemplate(m, m') && m'.status == Target(t) && m'.updatedAt == now
  }

  /** The template `applyTemplate` creates under `code`. */
  function NewTemplate(code: string, request: TemplateApplyRequest, now: Time): (m: TemplateMeta)
    ensures m.templateCode == code && m.status == PendingApproval && m.rejectReason == None
    ensures m.templateName == request.templateName && m.templateContent == request.templateContent
    ensures m.scene == request.scene && m.createdBy == request.applicant
    ensures m.createdAt == now && m.updatedAt == now
  {
    TemplateMeta(code, request.templateName, request.templateContent, request.scene,
                 PendingApproval, None, request.applicant, now, now)
  }

  /** `approveTemplate` on a looked-up template: only a pending template may be approved or rejected. */
  function ApproveMeta(m: TemplateMeta, approved: bool, reason: string, now: Time): (r: Result<TemplateMeta, Error>)
    ensures r.Success? <==> AllowedFrom(if approved then Approve else Reject, m.status)
    ensures r.Failure? ==> r.error == NotPendingApproval(m.status)
    ensures r.Success? ==> TransitionedTo(m, if approved then Approve else Reject, now, r.value)
    ensures r.Success? && approved ==> r.value.rejectReason == None
    ensures r.Success? && !approved ==> r.value.rejectReason.Some? && !IsBlank(r.value.rejectReason.value)
    ensures r.Success? && !approved && !IsBlank(reason) ==> r.value.rejectReason == Some(reason)
    ensures r.Success? && !approved && IsBlank(reason) ==> r.value.rejectReason == Some(DefaultRejectReason)
  {
    if m.status != PendingApproval then
      Failure(NotPendingApproval(m.status))
    else
      assert !IsTrimmable(DefaultRejectReason[0]);
      Success(m.(status := if approved then Enabled else Rejected,
                 rejectReason := if approved then None else Some(DefaultValue(reason, DefaultRejectReason)),
                 updatedAt := now))
  }

  /** `enableTemplate` on a looked-up template: refused from DELETED, PENDING_APPROVAL and REJECTED. */
  function EnableMeta(m: TemplateMeta, now: Time): (r: Result<TemplateMeta, Error>)
    ensures r.Success? <==> AllowedFrom(Enable, m.status)
    ensures r.Failure? && m.status == Deleted ==> r.error == DeletedCannotEnable
    ensures r.Failure? && m.status != Deleted ==> r.error == CannotEnable(m.status)
    ensures r.Success? ==> TransitionedTo(m, Enable, now, r.value) && r.value.rejectReason == m.rejectReason
  {
    if m.status == Deleted then
      Failure(DeletedCannotEnable)
    else if m.status == PendingApproval || m.status == Rejected then
      Failure(CannotEnable(m.status))
    else
      Success(m.(status := Enabled, updatedAt := now))
  }

  /** `disableTemplate` on a looked-up template: refused only from DELETED. */
  function DisableMeta(m: TemplateMeta, now: Time): (r: Result<TemplateMeta, Error>)
    ensures r.Success? <==> AllowedFrom(Disable, m.status)
    ensures r.Failure? ==> r.error == DeletedCannotDisable
    ensures r.Success? ==> TransitionedTo(m, Disable, now, r.value) && r.value.rejectReason == m.rejectReason
  {
    if m.status == Deleted then
      Failure(DeletedCannotDisable)
    else
      Success(m.(status := Disabled, updatedAt := now))
  }

  /** `deleteTemplate` on a looked-up template: no status guard, so a deleted template is deleted again. */
  function DeleteMeta(m: TemplateMeta, now: Time): (r: TemplateMeta)
    ensures TransitionedTo(m, Delete, now, r) && r.rejectReason == m.rejectReason
  {
    m.(status := Deleted, updatedAt := now)
  }

  /** A lifecycle operation a caller may request on a stored template. */
  datatype LifecycleOp = ApproveOp(approved: bool, reason: string) | EnableOp | DisableOp | DeleteOp

  /** One operation on one template; a failed operation throws and changes nothing. */
  function Step(m: TemplateMeta, op: LifecycleOp, now: Time): Result<TemplateMeta, Error> {
    match op
    case ApproveOp(approved, reason) => ApproveMeta(m, approved, reason, now)
    case EnableOp => EnableMeta(m, now)
    case DisableOp => DisableMeta(m, now)
    case DeleteOp => Success(DeleteMeta(m, now))
  }

  /** The template after a caller has issued `ops` in order, each failure leaving it as it was. */
  function Run(m: TemplateMeta, ops: seq<LifecycleOp>, now: Time): TemplateMeta
    decreases |ops|
  {
    if ops == [] then m
    else
      var r := Step(m, ops[0], now);
      Run(if r.Success? then r.value else m, ops[1..], now)
  }

  /** No sequence of lifecycle operations changes what identifies a template. */
  lemma {:induction false} RunKeepsTemplate(m: TemplateMeta, ops: seq<LifecycleOp>, now: Time)
    ensures SameTemplate(m, Run(m, ops, now))
    decreases |ops|
  {
    if ops != [] {
      var r := Step(m, ops[0], now);
      var next := if r.Success? then r.value else m;
      RunKeepsTemplate(next, ops[1..], now);
    }
  }

  /**
   * DELETED is terminal: whatever operations follow, the template stays
   * DELETED, and every operation but delete fails on it.
   */
  lemma {:induction false} DeletedIsTerminal(m: TemplateMeta, ops: seq<LifecycleOp>, now: Time)
    requires m.status == Deleted
    ensures Run(m, ops, now).status == Deleted
    ensures forall i :: 0 <= i < |ops| && !ops[i].DeleteOp? ==> Step(Run(m, ops[..i], now), ops[i], now).Failure?
    decreases |ops|
  {
    if ops != [] {
      var r := Step(m, ops[0], now);
      var next := if r.Success? then r.value else m;
      assert next.status == Deleted;
      DeletedIsTerminal(next, ops[1..], now);
      forall i | 0 <= i < |ops| && !ops[i].DeleteOp?
        ensures Step(Run(m, ops[..i], now), ops[i], now).Failure?
      {
        if i > 0 {
          assert ops[..i][1..] == ops[1..][..i - 1];
          assert ops[1..][i - 1] == ops[i];
        }
      }
    }
  }

  /**
   * As the guards are written, a template that was never approved can still
   * become ENABLED: disable is allowed from PENDING_APPROVAL, and enable from
   * DISABLED.
   */
  lemma EnabledWithoutApproval(m: TemplateMeta, now: Time)
    requires m.status == PendingApproval
    ensures Run(m, [DisableOp, EnableOp], now).status == Enabled
  {
    assert [DisableOp, EnableOp][1..] == [EnableOp];
  }
}
