/** The stored records: the Request and ApprovalLog schemas, their enumerations and the
    Notification record the notification service creates. */
module Records {
  import opened Wrappers

  /** Object ids (users, requests, notifications) are opaque and compared only for equality. */
  type Id = nat

  /** A JavaScript Number submitted through a form (price, amount); the model never computes with it. */
  type Money = string

  datatype RequestType = Purchase | Expense | Leave
  datatype Status = Pending | ApprovedByTeamLead | Approved | Rejected
  /** The per-stage approval status. */
  datatype SubStatus = StagePending | StageApproved | StageRejected
  datatype Role = Employee | TeamLead | Manager
  /** The two approval stages; also the `role` of an ApprovalLog entry. */
  datatype Stage = TeamLeadStage | ManagerStage
  /** The `action` of an ApprovalLog entry. */
  datatype Verdict = Approve | Reject
  datatype NotificationType = RequestSubmitted | RequestApproved | RequestRejected | ApprovalNeeded

  function TypeName(t: RequestType): string {
    match t
    case Purchase => "purchase"
    case Expense => "expense"
    case Leave => "leave"
  }

  function StatusName(s: Status): string {
    match s
    case Pending => "pending"
    case ApprovedByTeamLead => "approved_by_teamlead"
    case Approved => "approved"
    case Rejected => "rejected"
  }

  function SubStatusName(s: SubStatus): string {
    match s
    case StagePending => "pending"
    case StageApproved => "approved"
    case StageRejected => "rejected"
  }

  function RoleName(r: Role): string {
    match r
    case Employee => "employee"
    case TeamLead => "teamlead"
    case Manager => "manager"
  }

  function StageName(s: Stage): string {
    match s
    case TeamLeadStage => "teamlead"
    case ManagerStage => "manager"
  }

  function VerdictName(v: Verdict): string {
    match v
    case Approve => "approved"
    case Reject => "rejected"
  }

  function NotificationTypeName(t: NotificationType): string {
    match t
    case RequestSubmitted => "request_submitted"
    case RequestApproved => "request_approved"
    case RequestRejected => "request_rejected"
    case ApprovalNeeded => "approval_needed"
  }

  /** The schema's enum check on `requestType`: a submitted string is stored only when it is
      one of the three names; an absent or other value fails validation. */
  function ParseRequestType(s: Option<string>): (r: Option<RequestType>)
    ensures r.Some? <==> s.Some? && s.value in {"purchase", "expense", "leave"}
    ensures r.Some? ==> TypeName(r.value) == s.value
  {
    match s
    case Some("purchase") => Some(Purchase)
    case Some("expense") => Some(Expense)
    case Some("leave") => Some(Leave)
    case _ => None
  }

  /** Every request type's name passes the enum check and is read back as that type. */
  lemma RequestTypeRoundTrip(t: RequestType)
    ensures ParseRequestType(Some(TypeName(t))) == Some(t)
  {
  }

  /** The status enum has four distinct names. */
  lemma StatusNamesDistinct(a: Status, b: Status)
    ensures StatusName(a) == StatusName(b) <==> a == b
  {
  }

  /** One stage's approval sub-document. */
  datatype Approval = Approval(approvedBy: Option<Id>, approvedAt: Option<int>, status: SubStatus, comment: Option<string>)

  /** The sub-document a new request starts with: only the status, `pending`. */
  const Undecided := Approval(None, None, StagePending, None)

  /** The type-specific detail block. Form fields the client may omit are optional. */
  datatype Details =
    | PurchaseDetails(productName: Option<string>, marketPrice: Option<Money>, reason: Option<string>, documentUrl: string)
    | ExpenseDetails(amount: Option<Money>, description: Option<string>, receiptUrl: string)
    | LeaveDetails(fromDate: int, toDate: int, reason: Option<string>, numberOfDays: int)

  /** `rejectedBy`, `rejectionReason` and `rejectedAt`, which the source always sets together. */
  datatype Rejection = Rejection(rejectedBy: Id, reason: Option<string>, rejectedAt: int)

  datatype Request = Request(
    id: Id,
    requestType: RequestType,
    employee: Id,
    status: Status,
    details: Details,
    teamLeadApproval: Approval,
    managerApproval: Approval,
    rejection: Option<Rejection>,
    createdAt: int,
    updatedAt: int)

  /** One approve/reject decision. The schema requires request, approver, action and role. */
  datatype LogEntry = LogEntry(request: Id, approver: Id, action: Verdict, role: Stage, comment: Option<string>, createdAt: int)

  datatype Notification = Notification(
    id: Id,
    recipient: Id,
    sender: Id,
    request: Id,
    kind: NotificationType,
    message: string,
    isRead: bool,
    createdAt: int)

  /** The detail block is the one that belongs to the request's type. */
  predicate DetailsMatch(t: RequestType, d: Details) {
    match t
    case Purchase => d.PurchaseDetails?
    case Expense => d.ExpenseDetails?
    case Leave => d.LeaveDetails?
  }

  /** The overall status determined by the two stage sub-statuses, or `None` for a combination
      no sequence of decisions produces. */
  function StatusOf(teamLead: SubStatus, manager: SubStatus): (r: Option<Status>)
    ensures r == Some(Pending) <==> teamLead == StagePending && manager == StagePending
    ensures r == Some(ApprovedByTeamLead) <==> teamLead == StageApproved && manager == StagePending
    ensures r == Some(Approved) <==> teamLead == StageApproved && manager == StageApproved
    ensures r == Some(Rejected) <==>
      (teamLead == StageRejected && manager == StagePending) || (teamLead == StageApproved && manager == StageRejected)
  {
    match (teamLead, manager)
    case (StagePending, StagePending) => Some(Pending)
    case (StageApproved, StagePending) => Some(ApprovedByTeamLead)
    case (StageApproved, StageApproved) => Some(Approved)
    case (StageRejected, StagePending) => Some(Rejected)
    case (StageApproved, StageRejected) => Some(Rejected)
    case _ => None
  }

  /** A request as the handlers leave it: details fit the type, the status agrees with the
      stage sub-statuses, and rejection metadata is present exactly on rejected requests. */
  predicate WellFormed(r: Request) {
    && DetailsMatch(r.requestType, r.details)
    && StatusOf(r.teamLeadApproval.status, r.managerApproval.status) == Some(r.status)
    && (r.rejection.Some? <==> r.status == Rejected)
  }

  /** The edges of the approval state machine. */
  predicate Edge(from: Status, to: Status) {
    || (from == Pending && to == ApprovedByTeamLead)
    || (from == ApprovedByTeamLead && to == Approved)
    || (from == Pending && to == Rejected)
    || (from == ApprovedByTeamLead && to == Rejected)
  }

  predicate Terminal(s: Status) {
    s == Approved || s == Rejected
  }

  /** No edge leaves `approved` or `rejected`, and no edge enters `pending`. */
  lemma TerminalHasNoEdge(from: Status, to: Status)
    ensures Terminal(from) ==> !Edge(from, to)
    ensures !Edge(from, Pending)
  {
  }
}
