/** The route table: which role each endpoint admits, with authentication checked before any
    role check, and the dispatch of an admitted call to its controller. */
module Routes {
  import opened Wrappers
  import opened Records
  import opened Db
  import opened Effects
  import opened ApprovalFlow
  import opened RequestFlow

  datatype Endpoint =
    | CreateEndpoint       // POST /api/requests
    | ListAllEndpoint      // GET /api/requests
    | MyRequestsEndpoint   // GET /api/requests/my-requests
    | GetEndpoint          // GET /api/requests/:id
    | TeamLeadEndpoint     // PUT /api/approvals/teamlead/:id
    | ManagerEndpoint      // PUT /api/approvals/manager/:id
    | HistoryEndpoint      // GET /api/approvals/history/:id

  /** The roles passed to `authorize`, or `None` where the route has only `protect`. */
  function AdmittedRoles(e: Endpoint): Option<set<Role>> {
    match e
    case CreateEndpoint => Some({Employee})
    case ListAllEndpoint => Some({TeamLead, Manager})
    case MyRequestsEndpoint => Some({Employee})
    case GetEndpoint => None
    case TeamLeadEndpoint => Some({TeamLead})
    case ManagerEndpoint => Some({Manager})
    case HistoryEndpoint => None
  }

  /** The caller as `protect` sees it: no valid token, or a user with a role. */
  datatype Caller = Anonymous | User(id: Id, role: Role)

  /** Why the middleware chain stopped a call. */
  datatype Denial = Unauthenticated | Forbidden

  /** `protect` first, then `authorize` when the route has one. */
  function Gate(e: Endpoint, c: Caller): (r: Result<Caller, Denial>)
    ensures c.Anonymous? <==> r == Failure(Unauthenticated)
    ensures r == Failure(Forbidden) <==> c.User? && AdmittedRoles(e).Some? && c.role !in AdmittedRoles(e).value
    ensures r.Success? ==> r.value == c
  {
    if c.Anonymous? then Failure(Unauthenticated)
    else if AdmittedRoles(e).Some? && c.role !in AdmittedRoles(e).value then Failure(Forbidden)
    else Success(c)
  }

  /** Who gets through each gate: the role table written out per endpoint. */
  lemma GateTable(c: Caller)
    ensures Gate(CreateEndpoint, c).Success? <==> c.User? && c.role == Employee
    ensures Gate(ListAllEndpoint, c).Success? <==> c.User? && (c.role == TeamLead || c.role == Manager)
    ensures Gate(MyRequestsEndpoint, c).Success? <==> c.User? && c.role == Employee
    ensures Gate(GetEndpoint, c).Success? <==> c.User?
    ensures Gate(TeamLeadEndpoint, c).Success? <==> c.User? && c.role == TeamLead
    ensures Gate(ManagerEndpoint, c).Success? <==> c.User? && c.role == Manager
    ensures Gate(HistoryEndpoint, c).Success? <==> c.User?
  {
  }

  /** Everything a call can carry; each endpoint reads the parts it needs. */
  datatype Call = Call(
    endpoint: Endpoint,
    caller: Caller,
    pid: PathId,
    action: string,
    comment: Option<string>,
    form: Form,
    file: Option<UploadedFile>)

  /** What the world answers during the call: the storage upload and the `User.findOne`
      lookups for a team lead and a manager. */
  datatype World = World(upload: Uploader, teamLead: Option<Id>, manager: Option<Id>)

  /** The result of the middleware chain and the controller. */
  datatype Handled = Denied(why: Denial) | Handled(outcome: Outcome)

  /** A call through its route. */
  function Dispatch(st: Store, call: Call, w: World, env: Env): (h: Handled)
    ensures Gate(call.endpoint, call.caller).Failure? <==> h.Denied?
    ensures h.Denied? ==> h.why == Gate(call.endpoint, call.caller).error
    ensures h.Handled? && call.endpoint in {ListAllEndpoint, MyRequestsEndpoint, GetEndpoint, HistoryEndpoint} ==>
      h.outcome.store == st
  {
    match Gate(call.endpoint, call.caller)
    case Failure(why) => Denied(why)
    case Success(c) =>
      match call.endpoint
      case CreateEndpoint =>
        Handled(CreateRequest(st, c.id, call.form, call.file, w.upload, w.teamLead, env))
      case ListAllEndpoint => Handled(Outcome(st, AllRequests(st, c.role)))
      case MyRequestsEndpoint => Handled(Outcome(st, MyRequests(st, c.id)))
      case GetEndpoint => Handled(Outcome(st, GetRequest(st, call.pid)))
      case TeamLeadEndpoint =>
        Handled(TeamLeadDecision(st, call.pid, c.id, call.action, call.comment, w.manager, env))
      case ManagerEndpoint =>
        Handled(ManagerDecision(st, call.pid, c.id, call.action, call.comment, env))
      case HistoryEndpoint => Handled(Outcome(st, History(st, call.pid)))
  }

  /** Whatever the call, the store invariant survives it. */
  lemma DispatchPreservesValid(st: Store, call: Call, w: World, env: Env)
    requires Valid(st)
    ensures var h := Dispatch(st, call, w, env); h.Handled? ==> Valid(h.outcome.store)
  {
    if Gate(call.endpoint, call.caller).Success? {
      var c := call.caller;
      match call.endpoint
      case CreateEndpoint =>
        CreateRequestPreservesValid(st, c.id, call.form, call.file, w.upload, w.teamLead, env);
      case TeamLeadEndpoint =>
        DecisionPreservesValid(TeamLeadStage, st, call.pid, c.id, call.action, call.comment, w.manager, env);
      case ManagerEndpoint =>
        DecisionPreservesValid(ManagerStage, st, call.pid, c.id, call.action, call.comment, None, env);
      case _ =>
    }
  }

  /** Only a team lead can move a request out of `pending`, and only a manager can move it out of
      `approved_by_teamlead`. */
  lemma OnlyTheStageRoleDecides(st: Store, call: Call, w: World, env: Env, id: Id)
    requires Find(st.requests, id).Some?
    ensures var h := Dispatch(st, call, w, env);
      var before := Find(st.requests, id).value;
      h.Handled? && Find(h.outcome.store.requests, id).Some? && Find(h.outcome.store.requests, id).value.status != before.status ==>
        && call.caller.User?
        && (before.status == Pending ==> call.caller.role == TeamLead)
        && (before.status == ApprovedByTeamLead ==> call.caller.role == Manager)
  {
    var h := Dispatch(st, call, w, env);
    if h.Handled? {
      match call.endpoint
      case CreateEndpoint =>
        CreateKeepsExisting(st, call.caller.id, call.form, call.file, w.upload, w.teamLead, env, id);
      case TeamLeadEndpoint =>
        DecisionFollowsEdges(TeamLeadStage, st, call.pid, call.caller.id, call.action, call.comment, w.manager, env);
      case ManagerEndpoint =>
        DecisionFollowsEdges(ManagerStage, st, call.pid, call.caller.id, call.action, call.comment, None, env);
      case _ =>
    }
  }
}
