/** The request controller: creating a request (file check, upload, detail block, leave day
    count, team-lead notification) and the three read endpoints. */
module RequestFlow {
  import opened Wrappers
  import opened Records
  import opened Db
  import opened NotificationService
  import opened Effects
  import opened Ordering
  import opened Days

  /** The submitted form fields. The dates are the millisecond values `new Date(...)` gives,
      `None` for an invalid date (which includes an absent field). `reason` is one body field
      shared by purchase and leave forms. */
  datatype Form = Form(
    requestType: Option<string>,
    productName: Option<string>,
    marketPrice: Option<Money>,
    reason: Option<string>,
    amount: Option<Money>,
    description: Option<string>,
    fromDate: Option<int>,
    toDate: Option<int>)

  /** The single `file` part parsed by the upload middleware. */
  datatype UploadedFile = UploadedFile(originalName: string)

  /** The storage service's upload: (folder, original file name) to the stored file's url, or
      `None` when the upload fails. */
  type Uploader = (string, string) -> Option<string>

  const PurchaseFolder := "purchase-requests"
  const ExpenseFolder := "expense-receipts"
  const NoDocument := Response(400, Message("Please upload a PDF document"))
  const NoReceipt := Response(400, Message("Please upload a receipt"))

  /** The new request: `pending` at both stages, owned by the caller, with the next fresh id. */
  function NewRequest(st: Store, employee: Id, t: RequestType, d: Details, now: int): Request {
    Request(st.nextId, t, employee, Pending, d, Undecided, Undecided, None, now, now)
  }

  /** The writes of a creation: the insert, then the team lead's prompt when one exists. */
  function CreationPlan(r: Request, teamLead: Option<Id>): seq<Write> {
    [Insert(r)] + (match teamLead
                   case Some(tl) => [Send(ApprovalNeededDraft(r, tl, "employee"))]
                   case None => [])
  }

  /** Inserts the request with its detail block and notifies the team lead. */
  function Persist(st: Store, employee: Id, t: RequestType, d: Details, teamLead: Option<Id>, env: Env): Outcome {
    var r := NewRequest(st, employee, t, d, env.now);
    var (st', ok) := Commit(st, CreationPlan(r, teamLead), env);
    if ok then Outcome(st', Response(201, RequestData(Stamp(r, env.now)))) else Outcome(st', Failed)
  }

  /** Records the upload call, then persists with the detail block built from the url. */
  function UploadThenPersist(st: Store, employee: Id, t: RequestType, folder: string, file: UploadedFile,
                             upload: Uploader, form: Form, teamLead: Option<Id>, env: Env): Outcome
  {
    var st1 := st.(uploads := st.uploads + [UploadCall(folder, file.originalName)]);
    match upload(folder, file.originalName)
    case None => Outcome(st1, Failed)
    case Some(url) =>
      var d := if t == Purchase then PurchaseDetails(form.productName, form.marketPrice, form.reason, url)
               else ExpenseDetails(form.amount, form.description, url);
      Persist(st1, employee, t, d, teamLead, env)
  }

  /** `createRequest`. `teamLead` is the result of looking up a user with role teamlead. */
  function CreateRequest(st: Store, employee: Id, form: Form, file: Option<UploadedFile>, upload: Uploader,
                         teamLead: Option<Id>, env: Env): (out: Outcome)
    ensures form.requestType == Some("purchase") && file.None? ==> out == Outcome(st, NoDocument)
    ensures form.requestType == Some("expense") && file.None? ==> out == Outcome(st, NoReceipt)
    ensures ParseRequestType(form.requestType).None? ==> out == Outcome(st, Failed)
    ensures form.requestType == Some("leave") && (form.fromDate.None? || form.toDate.None?) ==> out == Outcome(st, Failed)
    ensures form.requestType == Some("purchase") && file.Some? && upload(PurchaseFolder, file.value.originalName).None? ==>
      out == Outcome(st.(uploads := st.uploads + [UploadCall(PurchaseFolder, file.value.originalName)]), Failed)
    ensures form.requestType == Some("expense") && file.Some? && upload(ExpenseFolder, file.value.originalName).None? ==>
      out == Outcome(st.(uploads := st.uploads + [UploadCall(ExpenseFolder, file.value.originalName)]), Failed)
    ensures out.store.uploads != st.uploads ==>
      file.Some? && form.requestType.Some? && form.requestType.value in {"purchase", "expense"}
  {
    match ParseRequestType(form.requestType)
    case None => Outcome(st, Failed)
    case Some(Purchase) =>
      if file.None? then Outcome(st, NoDocument)
      else UploadThenPersist(st, employee, Purchase, PurchaseFolder, file.value, upload, form, teamLead, env)
    case Some(Expense) =>
      if file.None? then Outcome(st, NoReceipt)
      else UploadThenPersist(st, employee, Expense, ExpenseFolder, file.value, upload, form, teamLead, env)
    case Some(Leave) =>
      if form.fromDate.None? || form.toDate.None? then Outcome(st, Failed)
      else
        var from := form.fromDate.value;
        var to := form.toDate.value;
        Persist(st, employee, Leave, LeaveDetails(from, to, form.reason, LeaveDays(from, to)), teamLead, env)
  }

  /** The detail block a well-formed submission stores: the form's fields and the upload's url,
      or the dates and their leave day count. */
  function ExpectedDetails(t: RequestType, form: Form, file: Option<UploadedFile>, upload: Uploader): Option<Details> {
    match t
    case Purchase =>
      if file.Some? && upload(PurchaseFolder, file.value.originalName).Some?
      then Some(PurchaseDetails(form.productName, form.marketPrice, form.reason, upload(PurchaseFolder, file.value.originalName).value))
      else None
    case Expense =>
      if file.Some? && upload(ExpenseFolder, file.value.originalName).Some?
      then Some(ExpenseDetails(form.amount, form.description, upload(ExpenseFolder, file.value.originalName).value))
      else None
    case Leave =>
      if form.fromDate.Some? && form.toDate.Some?
      then Some(LeaveDetails(form.fromDate.value, form.toDate.value, form.reason, LeaveDays(form.fromDate.value, form.toDate.value)))
      else None
  }

  lemma CreationPlanFacts(r: Request, teamLead: Option<Id>)
    ensures var plan := CreationPlan(r, teamLead);
      && plan[0] == Insert(r)
      && (forall i :: 1 <= i < |plan| ==> plan[i].Send?)
      && InsertCount(plan) == 1 && LogsOf(plan) == []
      && DraftsOf(plan) == match teamLead
           case Some(tl) => [ApprovalNeededDraft(r, tl, "employee")]
           case None => []
  {
    var plan := CreationPlan(r, teamLead);
    if teamLead.Some? {
      var d := ApprovalNeededDraft(r, teamLead.value, "employee");
      assert plan == [Insert(r), Send(d)];
      assert plan[1..] == [Send(d)];
      var rest := plan[1..];
      assert rest[0] == Send(d) && rest[1..] == [];
      assert DraftsOf(rest) == [d] + DraftsOf(rest[1..]);
      assert LogsOf(rest) == [] + LogsOf(rest[1..]);
      assert InsertCount(rest) == 0 + InsertCount(rest[1..]);
    } else {
      assert plan == [Insert(r)];
      assert plan[1..] == [];
    }
  }

  /** A successful creation: 201; one request appended, `pending` at both stages, owned by the
      caller, with the next fresh id and the detail block of its type; no log entry; exactly one
      notification, asking the team lead to act, when a team lead exists, and none otherwise. */
  lemma CreateRequestEffects(st: Store, employee: Id, form: Form, file: Option<UploadedFile>, upload: Uploader,
                             teamLead: Option<Id>, env: Env)
    requires ParseRequestType(form.requestType).Some?
    requires ExpectedDetails(ParseRequestType(form.requestType).value, form, file, upload).Some?
    requires env.failAt.None?
    ensures var t := ParseRequestType(form.requestType).value;
      var out := CreateRequest(st, employee, form, file, upload, teamLead, env);
      var created := Request(st.nextId, t, employee, Pending, ExpectedDetails(t, form, file, upload).value,
                             Undecided, Undecided, None, env.now, env.now);
      && out.response == Response(201, RequestData(created))
      && |out.store.requests| == |st.requests| + 1
      && out.store.requests == st.requests + [created]
      && out.store.logs == st.logs
      && |out.store.notifications| == |st.notifications| + (if teamLead.Some? then 1 else 0)
      && (teamLead.Some? ==>
            var n := Appended(st, out.store)[0];
            && n.recipient == teamLead.value && n.sender == employee && n.request == st.nextId
            && n.kind == ApprovalNeeded && n.message == ApprovalNeededMessage(t, "employee"))
  {
    var t := ParseRequestType(form.requestType).value;
    var d := ExpectedDetails(t, form, file, upload).value;
    var st1 := if t == Leave then st else st.(uploads := st.uploads + [UploadCall(if t == Purchase then PurchaseFolder else ExpenseFolder, file.value.originalName)]);
    var r := NewRequest(st1, employee, t, d, env.now);
    var plan := CreationPlan(r, teamLead);
    CreationPlanFacts(r, teamLead);
    CommitRequests(st1, plan, env);
    CommitLogs(st1, plan, env);
    CommitNotifications(st1, plan, env);
    RequestsAfterUntouched(st1.requests + [Stamp(r.(id := st1.nextId), env.now)], plan[1..], env.now, st1.nextId + 1);
    assert Stamp(r.(id := st1.nextId), env.now) == r;
    var out := Commit(st1, plan, env).0;
    assert CreateRequest(st, employee, form, file, upload, teamLead, env).store == out;
    if teamLead.Some? {
      assert Delivers(out.notifications[|st1.notifications| + 0], DraftsOf(plan)[0], env.now);
      assert Appended(st, out)[0] == out.notifications[|st1.notifications|];
    }
  }

  /** A creation whose `k`-th write throws answers 500 and keeps exactly the writes before it:
      when `Request.create` throws nothing is stored; when the team lead's notification throws
      the request is already stored, and no notification is. */
  lemma CreateRequestFault(st: Store, employee: Id, form: Form, file: Option<UploadedFile>, upload: Uploader,
                           teamLead: Option<Id>, env: Env, k: nat)
    requires ParseRequestType(form.requestType).Some?
    requires ExpectedDetails(ParseRequestType(form.requestType).value, form, file, upload).Some?
    requires env.failAt == Some(k) && k < (if teamLead.Some? then 2 else 1)
    ensures var t := ParseRequestType(form.requestType).value;
      var out := CreateRequest(st, employee, form, file, upload, teamLead, env);
      var created := Request(st.nextId, t, employee, Pending, ExpectedDetails(t, form, file, upload).value,
                             Undecided, Undecided, None, env.now, env.now);
      && out.response == Failed
      && out.store.requests == (if k == 0 then st.requests else st.requests + [created])
      && out.store.nextId == st.nextId + k
      && out.store.logs == st.logs
      && out.store.notifications == st.notifications
  {
    var t := ParseRequestType(form.requestType).value;
    var d := ExpectedDetails(t, form, file, upload).value;
    var st1 := if t == Leave then st else st.(uploads := st.uploads + [UploadCall(if t == Purchase then PurchaseFolder else ExpenseFolder, file.value.originalName)]);
    var r := NewRequest(st1, employee, t, d, env.now);
    var plan := CreationPlan(r, teamLead);
    CreationPlanFacts(r, teamLead);
    FailureKeepsPrefix(st1, plan, env, k);
    var clean := env.(failAt := None);
    assert CreateRequest(st, employee, form, file, upload, teamLead, env).store == Commit(st1, plan[..k], clean).0;
    if k == 0 {
      assert plan[..k] == [];
    } else {
      assert plan[..k] == [Insert(r)];
      assert Stamp(r.(id := st1.nextId), env.now) == r;
      assert Commit(st1, plan[..k], clean).0 == Apply(st1, Insert(r), clean);
    }
  }

  /** Creation keeps the store invariant, whatever the fault. */
  lemma CreateRequestPreservesValid(st: Store, employee: Id, form: Form, file: Option<UploadedFile>, upload: Uploader,
                                    teamLead: Option<Id>, env: Env)
    requires Valid(st)
    ensures Valid(CreateRequest(st, employee, form, file, upload, teamLead, env).store)
  {
    var t := ParseRequestType(form.requestType);
    if t.Some? && ExpectedDetails(t.value, form, file, upload).Some? {
      var d := ExpectedDetails(t.value, form, file, upload).value;
      var st1 := if t.value == Leave then st else st.(uploads := st.uploads + [UploadCall(if t.value == Purchase then PurchaseFolder else ExpenseFolder, file.value.originalName)]);
      var r := NewRequest(st1, employee, t.value, d, env.now);
      assert WellFormed(r);
      CreationPlanFacts(r, teamLead);
      CommitPreservesValid(st1, CreationPlan(r, teamLead), env);
    }
  }

  lemma PersistGrows(st: Store, employee: Id, t: RequestType, d: Details, teamLead: Option<Id>, env: Env)
    ensures st.requests <= Persist(st, employee, t, d, teamLead, env).store.requests
  {
    var r := NewRequest(st, employee, t, d, env.now);
    CreationPlanFacts(r, teamLead);
    CommitGrowsRequests(st, CreationPlan(r, teamLead), env);
  }

  /** Creation never alters a request already stored, whatever the fault. */
  lemma CreateKeepsExisting(st: Store, employee: Id, form: Form, file: Option<UploadedFile>, upload: Uploader,
                            teamLead: Option<Id>, env: Env, id: Id)
    requires Find(st.requests, id).Some?
    ensures Find(CreateRequest(st, employee, form, file, upload, teamLead, env).store.requests, id) == Find(st.requests, id)
  {
    var out := CreateRequest(st, employee, form, file, upload, teamLead, env).store;
    match ParseRequestType(form.requestType)
    case None =>
    case Some(t) =>
      if t == Leave {
        if form.fromDate.Some? && form.toDate.Some? {
          var from := form.fromDate.value;
          var to := form.toDate.value;
          PersistGrows(st, employee, Leave, LeaveDetails(from, to, form.reason, LeaveDays(from, to)), teamLead, env);
        }
      } else if file.Some? {
        var folder := if t == Purchase then PurchaseFolder else ExpenseFolder;
        var st1 := st.(uploads := st.uploads + [UploadCall(folder, file.value.originalName)]);
        var url := upload(folder, file.value.originalName);
        if url.Some? {
          var d := if t == Purchase then PurchaseDetails(form.productName, form.marketPrice, form.reason, url.value)
                   else ExpenseDetails(form.amount, form.description, url.value);
          PersistGrows(st1, employee, t, d, teamLead, env);
        }
      }
    assert out.requests == st.requests + out.requests[|st.requests|..];
    FindInPrefix(st.requests, out.requests[|st.requests|..], id);
  }

  function RequestTime(r: Request): int {
    r.createdAt
  }

  /** The role filter of `getAllRequests`. */
  predicate ListedFor(role: Role, r: Request) {
    match role
    case TeamLead => r.status == Pending && r.teamLeadApproval.status == StagePending
    case Manager => r.status == ApprovedByTeamLead && r.managerApproval.status == StagePending
    case Employee => true
  }

  /** `getAllRequests`: a team lead sees exactly the requests waiting for a team lead, a manager
      exactly those waiting for a manager, any other role everything; each as often as it is
      stored, newest first. */
  function AllRequests(st: Store, role: Role): (resp: Response)
    ensures resp.code == 200 && resp.body.RequestList?
    ensures role == TeamLead ==> forall r :: r in resp.body.requests <==>
      r in st.requests && r.status == Pending && r.teamLeadApproval.status == StagePending
    ensures role == Manager ==> forall r :: r in resp.body.requests <==>
      r in st.requests && r.status == ApprovedByTeamLead && r.managerApproval.status == StagePending
    ensures role == Employee ==> multiset(resp.body.requests) == multiset(st.requests)
    ensures forall r :: multiset(resp.body.requests)[r] == if ListedFor(role, r) then multiset(st.requests)[r] else 0
    ensures SortedDesc(resp.body.requests, RequestTime)
  {
    var list := Query(st.requests, (r: Request) => ListedFor(role, r), RequestTime);
    Response(200, RequestList(list))
  }

  /** `getMyRequests`: exactly the caller's requests, newest first. */
  function MyRequests(st: Store, caller: Id): (resp: Response)
    ensures resp.code == 200 && resp.body.RequestList?
    ensures forall r :: multiset(resp.body.requests)[r] == if r.employee == caller then multiset(st.requests)[r] else 0
    ensures SortedDesc(resp.body.requests, RequestTime)
  {
    Response(200, RequestList(Query(st.requests, (r: Request) => r.employee == caller, RequestTime)))
  }

  /** `getRequest`: the request with that id for any caller (no ownership check), 404 for an
      unknown id, 500 for an id Mongoose cannot cast. */
  function GetRequest(st: Store, pid: PathId): (resp: Response)
    ensures pid.Malformed? ==> resp == Failed
    ensures pid.ObjectId? && Find(st.requests, pid.id).None? ==> resp == NotFound
    ensures pid.ObjectId? && Find(st.requests, pid.id).Some? ==>
      resp.code == 200 && resp.body.RequestData? && resp.body.request in st.requests && resp.body.request.id == pid.id
  {
    match LookupRequest(st, pid)
    case CastError => Failed
    case Missing => NotFound
    case Found(r) => Response(200, RequestData(r))
  }
}
