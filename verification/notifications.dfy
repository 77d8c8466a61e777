/** The notification service: message templates, recipients, and `createNotification`
    (persist, then push best-effort to the recipient's room). */
module NotificationService {
  import opened Wrappers
  import opened Records
  import opened Db
  import opened Text

  /** A notification as the service is asked to create it. */
  datatype Draft = Draft(recipient: Id, sender: Id, request: Id, kind: NotificationType, message: string)

  function ApprovalNeededMessage(t: RequestType, senderRole: string): string {
    "New " + TypeName(t) + " request from " + senderRole + " needs your approval"
  }

  function ApprovalMessage(t: RequestType, approverRole: string): string {
    "Your " + TypeName(t) + " request has been approved by " + approverRole
  }

  /** The rejection message up to and including the role. */
  function RejectionHead(t: RequestType, rejecterRole: string): string {
    "Your " + TypeName(t) + " request has been rejected by " + rejecterRole
  }

  function RejectionMessage(t: RequestType, rejecterRole: string, reason: Option<string>): string {
    RejectionHead(t, rejecterRole) + (if Truthy(reason) then ": " + reason.value else "")
  }

  /** The rejection message ends with ": " and the reason exactly when the reason is truthy,
      and otherwise stops at the role (for a role that does not end in a blank). */
  lemma {:induction false} RejectionReasonSuffix(t: RequestType, role: string, reason: Option<string>)
    requires |role| > 0 && role[|role| - 1] != ' '
    ensures reason.Some? ==> (EndsWith(RejectionMessage(t, role, reason), ": " + reason.value) <==> Truthy(reason))
    ensures !Truthy(reason) ==> RejectionMessage(t, role, reason) == RejectionHead(t, role)
    ensures EndsWith(RejectionHead(t, role), role)
  {
    var head := RejectionHead(t, role);
    var m := RejectionMessage(t, role, reason);
    assert head[|head| - |role|..] == role;
    if reason.Some? && !Truthy(reason) {
      assert m == head;
      assert m[|m| - 1] == role[|role| - 1];
      assert ": " + reason.value == ": ";
    }
  }

  /** The verdict word of an employee-facing message sits at a fixed position after the type. */
  lemma VerdictPosition(t: RequestType, a: string, b: string, reason: Option<string>)
    ensures ApprovalMessage(t, a)[23 + |TypeName(t)|] == 'a'
    ensures RejectionMessage(t, b, reason)[23 + |TypeName(t)|] == 'r'
  {
    var n := |TypeName(t)|;
    assert ApprovalMessage(t, a)[..23 + n + 8] == "Your " + TypeName(t) + " request has been approved";
    assert RejectionMessage(t, b, reason)[..23 + n + 8] == "Your " + TypeName(t) + " request has been rejected";
  }

  /** The three templates never produce the same text: the approver's prompt starts with
      "New", and an approval never reads like a rejection of the same request type. */
  lemma {:induction false} TemplatesDistinct(t: RequestType, r1: string, r2: string, r3: string, reason: Option<string>)
    ensures ApprovalNeededMessage(t, r1) != ApprovalMessage(t, r2)
    ensures ApprovalNeededMessage(t, r1) != RejectionMessage(t, r3, reason)
    ensures ApprovalMessage(t, r2) != RejectionMessage(t, r3, reason)
  {
    assert ApprovalNeededMessage(t, r1)[0] == 'N';
    assert ApprovalMessage(t, r2)[0] == 'Y';
    assert RejectionMessage(t, r3, reason)[0] == 'Y';
    VerdictPosition(t, r2, r3, reason);
  }

  /** `sendApprovalNeededNotification`: asks `recipient` to act on `r`. */
  function ApprovalNeededDraft(r: Request, recipient: Id, senderRole: string): (d: Draft)
    ensures d.recipient == recipient && d.sender == r.employee && d.request == r.id
    ensures d.kind == ApprovalNeeded && d.message == ApprovalNeededMessage(r.requestType, senderRole)
  {
    Draft(recipient, r.employee, r.id, ApprovalNeeded, ApprovalNeededMessage(r.requestType, senderRole))
  }

  /** `sendApprovalNotification`: tells the owner that `approver` approved. */
  function ApprovalDraft(r: Request, approver: Id, approverRole: string): (d: Draft)
    ensures d.recipient == r.employee && d.sender == approver && d.request == r.id
    ensures d.kind == RequestApproved && d.message == ApprovalMessage(r.requestType, approverRole)
  {
    Draft(r.employee, approver, r.id, RequestApproved, ApprovalMessage(r.requestType, approverRole))
  }

  /** `sendRejectionNotification`: tells the owner that `rejecter` rejected, with the reason. */
  function RejectionDraft(r: Request, rejecter: Id, rejecterRole: string, reason: Option<string>): (d: Draft)
    ensures d.recipient == r.employee && d.sender == rejecter && d.request == r.id
    ensures d.kind == RequestRejected && d.message == RejectionMessage(r.requestType, rejecterRole, reason)
  {
    Draft(r.employee, rejecter, r.id, RequestRejected, RejectionMessage(r.requestType, rejecterRole, reason))
  }

  /** The stored notification carries the draft's content, unread, stamped `now`. */
  ghost predicate Delivers(n: Notification, d: Draft, now: int) {
    && n.recipient == d.recipient && n.sender == d.sender && n.request == d.request
    && n.kind == d.kind && n.message == d.message && !n.isRead && n.createdAt == now
  }

  /** The error `createNotification` rethrows when the insert fails. */
  datatype NotifyError = PersistFailed

  /** `createNotification`: an insert that may fail (`persisted` false), then an emit to the
      recipient's room that happens only when the socket server is up and whose failure is
      swallowed. */
  function CreateNotification(st: Store, d: Draft, now: int, persisted: bool, socketUp: bool)
    : (r: Result<(Store, Notification), NotifyError>)
    ensures r.Failure? <==> !persisted
    ensures r.Success? ==>
      var (st', n) := r.value;
      && Delivers(n, d, now) && n.id == st.nextId
      && st'.notifications == st.notifications + [n]
      && st'.pushes == st.pushes + (if socketUp then [Push(d.recipient, n)] else [])
      && st'.nextId == st.nextId + 1
      && st'.requests == st.requests && st'.logs == st.logs && st'.uploads == st.uploads
  {
    if !persisted then Failure(PersistFailed)
    else
      var n := Notification(st.nextId, d.recipient, d.sender, d.request, d.kind, d.message, false, now);
      var pushed := if socketUp then [Push(n.recipient, n)] else [];
      Success((st.(notifications := st.notifications + [n], pushes := st.pushes + pushed, nextId := st.nextId + 1), n))
  }

  /** A failed emit changes neither the outcome nor the stored notification: only the push is missing. */
  lemma EmitFailureSwallowed(st: Store, d: Draft, now: int)
    ensures CreateNotification(st, d, now, true, false).Success?
    ensures CreateNotification(st, d, now, true, false).value.1 == CreateNotification(st, d, now, true, true).value.1
    ensures CreateNotification(st, d, now, true, false).value.0 ==
      CreateNotification(st, d, now, true, true).value.0.(pushes := st.pushes)
  {
  }
}
