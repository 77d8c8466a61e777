/** The two-stage approval state machine: the team-lead and manager decision handlers and the
    approval history. */
module ApprovalFlow {
  import opened Wrappers
  import opened Records
  import opened Db
  import opened NotificationService
  import opened Effects
  import opened Ordering

  /** The status a stage may act on. */
  function Required(stage: Stage): Status {
    match stage
    case TeamLeadStage => Pending
    case ManagerStage => ApprovedByTeamLead
  }

  /** The status an approval at this stage moves to. */
  function Advanced(stage: Stage): Status {
    match stage
    case TeamLeadStage => ApprovedByTeamLead
    case ManagerStage => Approved
  }

  /** The 400 message when the status guard fails. */
  function GuardMessage(stage: Stage): string {
    match stage
    case TeamLeadStage => "Request has already been processed"
    case ManagerStage => "Request must be approved by Team Lead first"
  }

  /** The role name the stage's notifications use. */
  function RoleLabel(stage: Stage): string {
    match stage
    case TeamLeadStage => "Team Lead"
    case ManagerStage => "Manager"
  }

  function StageApproval(r: Request, stage: Stage): Approval {
    match stage
    case TeamLeadStage => r.teamLeadApproval
    case ManagerStage => r.managerApproval
  }

  function WithApproval(r: Request, stage: Stage, a: Approval): Request {
    match stage
    case TeamLeadStage => r.(teamLeadApproval := a)
    case ManagerStage => r.(managerApproval := a)
  }

  /** The body's `action`: only the exact strings "approve" and "reject" decide anything. */
  function ParseAction(action: string): (v: Option<Verdict>)
    ensures v == Some(Approve) <==> action == "approve"
    ensures v == Some(Reject) <==> action == "reject"
  {
    if action == "approve" then Some(Approve)
    else if action == "reject" then Some(Reject)
    else None
  }

  /** The request after a decision, before the save hook refreshes `updatedAt`. The stage's
      sub-document is replaced whole: approver, time, sub-status, comment. */
  function AfterDecision(r: Request, stage: Stage, v: Verdict, approver: Id, comment: Option<string>, now: int): Request {
    match v
    case Approve =>
      WithApproval(r, stage, Approval(Some(approver), Some(now), StageApproved, comment)).(status := Advanced(stage))
    case Reject =>
      WithApproval(r, stage, Approval(Some(approver), Some(now), StageRejected, comment))
        .(status := Rejected, rejection := Some(Rejection(approver, comment, now)))
  }

  /** The notification a decision sends to the request's owner. */
  function EmployeeDraft(stage: Stage, r: Request, v: Verdict, approver: Id, comment: Option<string>): Draft {
    match v
    case Approve => ApprovalDraft(r, approver, RoleLabel(stage))
    case Reject => RejectionDraft(r, approver, RoleLabel(stage), comment)
  }

  /** The writes of one decision, in the handler's order: save, log, notify the employee and,
      after a team-lead approval, notify the manager when one exists. */
  function DecisionPlan(stage: Stage, r: Request, v: Verdict, approver: Id, comment: Option<string>,
                        manager: Option<Id>, now: int): seq<Write>
  {
    var r' := AfterDecision(r, stage, v, approver, comment, now);
    [Save(r'), Log(LogEntry(r.id, approver, v, stage, comment, now)), Send(EmployeeDraft(stage, r', v, approver, comment))]
    + (if v == Approve && stage == TeamLeadStage && manager.Some?
       then [Send(ApprovalNeededDraft(r', manager.value, RoleLabel(stage)))] else [])
  }

  /** One decision handler: look the request up, check the stage's status guard, then perform
      the decision's writes. `manager` is the result of looking up a user with role manager. */
  function Decide(stage: Stage, st: Store, pid: PathId, approver: Id, action: string, comment: Option<string>,
                  manager: Option<Id>, env: Env): (out: Outcome)
    ensures pid.Malformed? ==> out == Outcome(st, Failed)
    ensures LookupRequest(st, pid).Missing? ==> out == Outcome(st, NotFound)
    ensures LookupRequest(st, pid).Found? && LookupRequest(st, pid).request.status != Required(stage) ==>
      out == Outcome(st, Response(400, Message(GuardMessage(stage))))
    ensures ParseAction(action).None? ==> out.store == st
    ensures out.store != st ==>
      LookupRequest(st, pid).Found? && LookupRequest(st, pid).request.status == Required(stage)
  {
    match LookupRequest(st, pid)
    case CastError => Outcome(st, Failed)
    case Missing => Outcome(st, NotFound)
    case Found(r) =>
      if r.status != Required(stage) then Outcome(st, Response(400, Message(GuardMessage(stage))))
      else match ParseAction(action)
        case None => Outcome(st, Response(200, RequestData(r)))
        case Some(v) =>
          var (st', ok) := Commit(st, DecisionPlan(stage, r, v, approver, comment, manager, env.now), env);
          if ok then Outcome(st', Response(200, RequestData(Stamp(AfterDecision(r, stage, v, approver, comment, env.now), env.now))))
          else Outcome(st', Failed)
  }

  /** `teamLeadApproval`: acts only on a `pending` request; anything else is "already processed"
      (400) and changes nothing, as does an unknown id (404). */
  function TeamLeadDecision(st: Store, pid: PathId, approver: Id, action: string, comment: Option<string>,
                            manager: Option<Id>, env: Env): (out: Outcome)
    ensures LookupRequest(st, pid).Missing? ==> out == Outcome(st, Response(404, Message("Request not found")))
    ensures LookupRequest(st, pid).Found? && LookupRequest(st, pid).request.status != Pending ==>
      out == Outcome(st, Response(400, Message("Request has already been processed")))
    ensures action != "approve" && action != "reject" ==> out.store == st
    ensures out.store != st ==> LookupRequest(st, pid).Found? && LookupRequest(st, pid).request.status == Pending
  {
    Decide(TeamLeadStage, st, pid, approver, action, comment, manager, env)
  }

  /** `managerApproval`: acts only on an `approved_by_teamlead` request; anything else fails
      with 400 and changes nothing. The manager handler notifies nobody but the employee. */
  function ManagerDecision(st: Store, pid: PathId, approver: Id, action: string, comment: Option<string>,
                           env: Env): (out: Outcome)
    ensures LookupRequest(st, pid).Missing? ==> out == Outcome(st, Response(404, Message("Request not found")))
    ensures LookupRequest(st, pid).Found? && LookupRequest(st, pid).request.status != ApprovedByTeamLead ==>
      out == Outcome(st, Response(400, Message("Request must be approved by Team Lead first")))
    ensures action != "approve" && action != "reject" ==> out.store == st
    ensures out.store != st ==> LookupRequest(st, pid).Found? && LookupRequest(st, pid).request.status == ApprovedByTeamLead
  {
    Decide(ManagerStage, st, pid, approver, action, comment, None, env)
  }

  /** The write plan of a decision: the save of the decided request first, then the single
      log entry, then the notifications. */
  lemma DecisionPlanShape(stage: Stage, r: Request, v: Verdict, approver: Id, comment: Option<string>,
                          manager: Option<Id>, now: int)
    ensures var plan := DecisionPlan(stage, r, v, approver, comment, manager, now);
      && |plan| >= 1 && plan[0] == Save(AfterDecision(r, stage, v, approver, comment, now))
      && (forall i :: 1 <= i < |plan| ==> plan[i].Log? || plan[i].Send?)
      && LogsOf(plan) == [LogEntry(r.id, approver, v, stage, comment, now)]
  {
    var plan := DecisionPlan(stage, r, v, approver, comment, manager, now);
    var r' := AfterDecision(r, stage, v, approver, comment, now);
    var head := [plan[0], plan[1], plan[2]];
    var tail := plan[3..];
    assert plan == head + tail;
    LogsOfConcat(head, tail);
    assert LogsOf(tail) == [] by {
      if |tail| > 0 {
        assert tail == [tail[0]];
      }
    }
    assert LogsOf(head) == [LogEntry(r.id, approver, v, stage, comment, now)] by {
      assert head[1..] == [plan[1], plan[2]];
      assert head[1..][1..] == [plan[2]];
      assert LogsOf([plan[2]]) == [] by {
        assert [plan[2]][1..] == [];
      }
      assert LogsOf([plan[1], plan[2]]) == [LogEntry(r.id, approver, v, stage, comment, now)];
    }
  }

  /** A decision that goes through without a fault: 200 with the saved request; only that
      request changes; exactly one log entry is appended; the notifications are the plan's. */
  lemma DecisionEffects(stage: Stage, st: Store, id: Id, v: Verdict, approver: Id, comment: Option<string>,
                        manager: Option<Id>, env: Env)
    requires LookupRequest(st, ObjectId(id)).Found?
    requires LookupRequest(st, ObjectId(id)).request.status == Required(stage)
    requires env.failAt.None?
    ensures var r := LookupRequest(st, ObjectId(id)).request;
      var r' := Stamp(AfterDecision(r, stage, v, approver, comment, env.now), env.now);
      var action := if v == Approve then "approve" else "reject";
      var out := Decide(stage, st, ObjectId(id), approver, action, comment, manager, env);
      var plan := DecisionPlan(stage, r, v, approver, comment, manager, env.now);
      && out.response == Response(200, RequestData(r'))
      && Find(out.store.requests, id) == Some(r')
      && (forall x :: x != id ==> Find(out.store.requests, x) == Find(st.requests, x))
      && out.store.logs == st.logs + [LogEntry(id, approver, v, stage, comment, env.now)]
      && out.store == Commit(st, plan, env).0
  {
    var r := LookupRequest(st, ObjectId(id)).request;
    var plan := DecisionPlan(stage, r, v, approver, comment, manager, env.now);
    var r' := AfterDecision(r, stage, v, approver, comment, env.now);
    DecisionPlanShape(stage, r, v, approver, comment, manager, env.now);
    CommitRequests(st, plan, env);
    CommitLogs(st, plan, env);
    RequestsAfterUntouched(Replace(st.requests, Stamp(r', env.now)), plan[1..], env.now, st.nextId);
    var st' := Commit(st, plan, env).0;
    assert st'.requests == Replace(st.requests, Stamp(r', env.now));
    forall x ensures Find(st'.requests, x) == if x == id then Some(Stamp(r', env.now)) else Find(st.requests, x) {
      FindAfterReplace(st.requests, Stamp(r', env.now), x);
    }
  }

  /** The notifications of a decision, in order: the employee's, then the manager's prompt
      after a team-lead approval when a manager exists. */
  lemma DecisionPlanDrafts(stage: Stage, r: Request, v: Verdict, approver: Id, comment: Option<string>,
                           manager: Option<Id>, now: int)
    ensures var r' := AfterDecision(r, stage, v, approver, comment, now);
      DraftsOf(DecisionPlan(stage, r, v, approver, comment, manager, now)) ==
        [EmployeeDraft(stage, r', v, approver, comment)]
        + (if v == Approve && stage == TeamLeadStage && manager.Some?
           then [ApprovalNeededDraft(r', manager.value, RoleLabel(stage))] else [])
  {
    var plan := DecisionPlan(stage, r, v, approver, comment, manager, now);
    var head := [plan[0], plan[1]];
    var tail := plan[2..];
    assert plan == head + tail;
    DraftsOfConcat(head, tail);
    assert DraftsOf(head) == [] by {
      assert head[1..] == [plan[1]];
      assert [plan[1]][1..] == [];
    }
    assert tail == [tail[0]] + tail[1..];
    assert tail[1..] == [] || tail[1..] == [tail[1]];
    if |tail[1..]| == 1 {
      assert tail[1..][1..] == [];
    }
  }

  /** Decision effects together with the notifications it stored. */
  lemma DecisionNotifications(stage: Stage, st: Store, id: Id, v: Verdict, approver: Id, comment: Option<string>,
                              manager: Option<Id>, env: Env)
    requires LookupRequest(st, ObjectId(id)).Found?
    requires LookupRequest(st, ObjectId(id)).request.status == Required(stage)
    requires env.failAt.None?
    ensures var r := LookupRequest(st, ObjectId(id)).request;
      var r' := AfterDecision(r, stage, v, approver, comment, env.now);
      var action := if v == Approve then "approve" else "reject";
      var out := Decide(stage, st, ObjectId(id), approver, action, comment, manager, env);
      var ds := [EmployeeDraft(stage, r', v, approver, comment)]
        + (if v == Approve && stage == TeamLeadStage && manager.Some?
           then [ApprovalNeededDraft(r', manager.value, RoleLabel(stage))] else []);
      && |out.store.notifications| == |st.notifications| + |ds|
      && forall i :: 0 <= i < |ds| ==> Delivers(Appended(st, out.store)[i], ds[i], env.now)
  {
    var r := LookupRequest(st, ObjectId(id)).request;
    var plan := DecisionPlan(stage, r, v, approver, comment, manager, env.now);
    DecisionEffects(stage, st, id, v, approver, comment, manager, env);
    DecisionPlanDrafts(stage, r, v, approver, comment, manager, env.now);
    CommitNotifications(st, plan, env);
  }

  /** Team-lead approve: the team-lead sub-document records approver, time, `approved` and the
      comment; status becomes `approved_by_teamlead`; no rejection field is set; one `approved`
      log entry for role teamlead; the employee is told, then the manager, if one exists, is
      asked to act. */
  lemma TeamLeadApproveEffects(st: Store, id: Id, approver: Id, comment: Option<string>, manager: Option<Id>, env: Env)
    requires LookupRequest(st, ObjectId(id)).Found?
    requires LookupRequest(st, ObjectId(id)).request.status == Pending
    requires env.failAt.None?
    ensures var r := LookupRequest(st, ObjectId(id)).request;
      var out := TeamLeadDecision(st, ObjectId(id), approver, "approve", comment, manager, env);
      var decided := r.(teamLeadApproval := Approval(Some(approver), Some(env.now), StageApproved, comment),
                        status := ApprovedByTeamLead, updatedAt := env.now);
      && out.response == Response(200, RequestData(decided))
      && Find(out.store.requests, id) == Some(decided)
      && (forall x :: x != id ==> Find(out.store.requests, x) == Find(st.requests, x))
      && out.store.logs == st.logs + [LogEntry(id, approver, Approve, TeamLeadStage, comment, env.now)]
      && |out.store.notifications| == |st.notifications| + (if manager.Some? then 2 else 1)
      && (var sent := Appended(st, out.store);
          && sent[0].recipient == r.employee && sent[0].sender == approver && sent[0].kind == RequestApproved
          && sent[0].message == ApprovalMessage(r.requestType, "Team Lead") && !sent[0].isRead
          && (manager.Some? ==>
                && sent[1].recipient == manager.value && sent[1].sender == r.employee && sent[1].kind == ApprovalNeeded
                && sent[1].message == ApprovalNeededMessage(r.requestType, "Team Lead")))
  {
    DecisionEffects(TeamLeadStage, st, id, Approve, approver, comment, manager, env);
    DecisionNotifications(TeamLeadStage, st, id, Approve, approver, comment, manager, env);
  }

  /** Team-lead reject: sub-status and status become `rejected`, with rejectedBy = approver and
      rejectionReason = comment; one `rejected` log entry; the only notification goes to the
      employee, so a manager is never told. */
  lemma TeamLeadRejectEffects(st: Store, id: Id, approver: Id, comment: Option<string>, manager: Option<Id>, env: Env)
    requires LookupRequest(st, ObjectId(id)).Found?
    requires LookupRequest(st, ObjectId(id)).request.status == Pending
    requires env.failAt.None?
    ensures var r := LookupRequest(st, ObjectId(id)).request;
      var out := TeamLeadDecision(st, ObjectId(id), approver, "reject", comment, manager, env);
      var decided := r.(teamLeadApproval := Approval(Some(approver), Some(env.now), StageRejected, comment),
                        status := Rejected, rejection := Some(Rejection(approver, comment, env.now)),
                        updatedAt := env.now);
      && out.response == Response(200, RequestData(decided))
      && Find(out.store.requests, id) == Some(decided)
      && (forall x :: x != id ==> Find(out.store.requests, x) == Find(st.requests, x))
      && out.store.logs == st.logs + [LogEntry(id, approver, Reject, TeamLeadStage, comment, env.now)]
      && |out.store.notifications| == |st.notifications| + 1
      && (var n := Appended(st, out.store)[0];
          && n.recipient == r.employee && n.sender == approver && n.kind == RequestRejected
          && n.message == RejectionMessage(r.requestType, "Team Lead", comment))
  {
    DecisionEffects(TeamLeadStage, st, id, Reject, approver, comment, manager, env);
    DecisionNotifications(TeamLeadStage, st, id, Reject, approver, comment, manager, env);
  }

  /** Manager approve: status becomes `approved`, the manager sub-document records the
      decision and the team-lead sub-document is untouched; one log entry; one notification,
      to the employee. */
  lemma ManagerApproveEffects(st: Store, id: Id, approver: Id, comment: Option<string>, env: Env)
    requires LookupRequest(st, ObjectId(id)).Found?
    requires LookupRequest(st, ObjectId(id)).request.status == ApprovedByTeamLead
    requires env.failAt.None?
    ensures var r := LookupRequest(st, ObjectId(id)).request;
      var out := ManagerDecision(st, ObjectId(id), approver, "approve", comment, env);
      var decided := r.(managerApproval := Approval(Some(approver), Some(env.now), StageApproved, comment),
                        status := Approved, updatedAt := env.now);
      && out.response == Response(200, RequestData(decided))
      && Find(out.store.requests, id) == Some(decided)
      && (forall x :: x != id ==> Find(out.store.requests, x) == Find(st.requests, x))
      && out.store.logs == st.logs + [LogEntry(id, approver, Approve, ManagerStage, comment, env.now)]
      && |out.store.notifications| == |st.notifications| + 1
      && (var n := Appended(st, out.store)[0];
          && n.recipient == r.employee && n.sender == approver && n.kind == RequestApproved
          && n.message == ApprovalMessage(r.requestType, "Manager"))
  {
    DecisionEffects(ManagerStage, st, id, Approve, approver, comment, None, env);
    DecisionNotifications(ManagerStage, st, id, Approve, approver, comment, None, env);
  }

  /** Manager reject: status `rejected` with rejection metadata; the team-lead sub-document is
      untouched; one log entry; one notification, to the employee. */
  lemma ManagerRejectEffects(st: Store, id: Id, approver: Id, comment: Option<string>, env: Env)
    requires LookupRequest(st, ObjectId(id)).Found?
    requires LookupRequest(st, ObjectId(id)).request.status == ApprovedByTeamLead
    requires env.failAt.None?
    ensures var r := LookupRequest(st, ObjectId(id)).request;
      var out := ManagerDecision(st, ObjectId(id), approver, "reject", comment, env);
      var decided := r.(managerApproval := Approval(Some(approver), Some(env.now), StageRejected, comment),
                        status := Rejected, rejection := Some(Rejection(approver, comment, env.now)),
                        updatedAt := env.now);
      && out.response == Response(200, RequestData(decided))
      && Find(out.store.requests, id) == Some(decided)
      && (forall x :: x != id ==> Find(out.store.requests, x) == Find(st.requests, x))
      && out.store.logs == st.logs + [LogEntry(id, approver, Reject, ManagerStage, comment, env.now)]
      && |out.store.notifications| == |st.notifications| + 1
      && (var n := Appended(st, out.store)[0];
          && n.recipient == r.employee && n.sender == approver && n.kind == RequestRejected
          && n.message == RejectionMessage(r.requestType, "Manager", comment))
  {
    DecisionEffects(ManagerStage, st, id, Reject, approver, comment, None, env);
    DecisionNotifications(ManagerStage, st, id, Reject, approver, comment, None, env);
  }

  /** A decision whose `k`-th write throws answers 500 and keeps exactly the writes before it:
      a failed notification does not undo the save or the log entry. */
  lemma DecisionFault(stage: Stage, st: Store, id: Id, v: Verdict, approver: Id, comment: Option<string>,
                      manager: Option<Id>, env: Env, k: nat)
    requires LookupRequest(st, ObjectId(id)).Found?
    requires LookupRequest(st, ObjectId(id)).request.status == Required(stage)
    requires env.failAt == Some(k)
    requires k < |DecisionPlan(stage, LookupRequest(st, ObjectId(id)).request, v, approver, comment, manager, env.now)|
    ensures var r := LookupRequest(st, ObjectId(id)).request;
      var action := if v == Approve then "approve" else "reject";
      var out := Decide(stage, st, ObjectId(id), approver, action, comment, manager, env);
      var plan := DecisionPlan(stage, r, v, approver, comment, manager, env.now);
      && out.response == Failed
      && out.store == Commit(st, plan[..k], env.(failAt := None)).0
  {
    var r := LookupRequest(st, ObjectId(id)).request;
    var plan := DecisionPlan(stage, r, v, approver, comment, manager, env.now);
    FailureKeepsPrefix(st, plan, env, k);
  }

  /** When the employee's notification fails to persist, the handler answers 500 although the
      request is already saved with its new status and the log entry is already written. */
  lemma NotificationFailureAfterSave(stage: Stage, st: Store, id: Id, v: Verdict, approver: Id,
                                     comment: Option<string>, manager: Option<Id>, env: Env)
    requires LookupRequest(st, ObjectId(id)).Found?
    requires LookupRequest(st, ObjectId(id)).request.status == Required(stage)
    requires env.failAt == Some(2)
    ensures var r := LookupRequest(st, ObjectId(id)).request;
      var action := if v == Approve then "approve" else "reject";
      var out := Decide(stage, st, ObjectId(id), approver, action, comment, manager, env);
      && out.response == Failed
      && Find(out.store.requests, id) == Some(Stamp(AfterDecision(r, stage, v, approver, comment, env.now), env.now))
      && out.store.logs == st.logs + [LogEntry(id, approver, v, stage, comment, env.now)]
      && out.store.notifications == st.notifications
  {
    var r := LookupRequest(st, ObjectId(id)).request;
    var plan := DecisionPlan(stage, r, v, approver, comment, manager, env.now);
    var r' := AfterDecision(r, stage, v, approver, comment, env.now);
    DecisionFault(stage, st, id, v, approver, comment, manager, env, 2);
    assert plan[..2] == [Save(r'), Log(LogEntry(id, approver, v, stage, comment, env.now))];
    SaveThenLog(st, r', LogEntry(id, approver, v, stage, comment, env.now), env.(failAt := None));
    FindAfterReplace(st.requests, Stamp(r', env.now), id);
  }

  lemma SaveThenLog(st: Store, r: Request, e: LogEntry, env: Env)
    requires env.failAt.None?
    ensures Commit(st, [Save(r), Log(e)], env).0 ==
      st.(requests := Replace(st.requests, Stamp(r, env.now)), logs := st.logs + [e])
  {
    var plan := [Save(r), Log(e)];
    CommitStep(st, plan, env);
    var mid := Apply(st, plan[0], env);
    CommitStep(mid, plan[1..], env);
    assert plan[1..][1..] == [];
  }

  /** The request collection after a decision: unchanged, or the addressed request replaced
      by its decided form (when the guard passed and the action is a verdict). */
  lemma DecisionRequests(stage: Stage, st: Store, pid: PathId, approver: Id, action: string,
                         comment: Option<string>, manager: Option<Id>, env: Env)
    ensures var out := Decide(stage, st, pid, approver, action, comment, manager, env);
      || out.store.requests == st.requests
      || (&& LookupRequest(st, pid).Found? && LookupRequest(st, pid).request.status == Required(stage)
          && ParseAction(action).Some?
          && var r := LookupRequest(st, pid).request;
             out.store.requests ==
               Replace(st.requests, Stamp(AfterDecision(r, stage, ParseAction(action).value, approver, comment, env.now), env.now)))
  {
    var out := Decide(stage, st, pid, approver, action, comment, manager, env);
    if out.store.requests != st.requests {
      var r := LookupRequest(st, pid).request;
      var v := ParseAction(action).value;
      var plan := DecisionPlan(stage, r, v, approver, comment, manager, env.now);
      var r' := Stamp(AfterDecision(r, stage, v, approver, comment, env.now), env.now);
      var env' := env.(failAt := None);
      DecisionPlanShape(stage, r, v, approver, comment, manager, env.now);
      var k := if env.failAt.Some? && env.failAt.value < |plan| then env.failAt.value else |plan|;
      if k < |plan| {
        FailureKeepsPrefix(st, plan, env, k);
      } else {
        assert plan[..k] == plan;
        LateFaultIsNoFault(st, plan, env);
      }
      assert out.store == Commit(st, plan[..k], env').0;
      CommitRequests(st, plan[..k], env');
      assert k != 0;
      assert plan[..k] == [plan[0]] + plan[1..k];
      RequestsAfterUntouched(Replace(st.requests, r'), plan[1..k], env.now, st.nextId);
    }
  }

  /** Whatever the action, comment or fault, a decision touches at most the addressed request,
      adds or removes none, and moves its status only along an edge of the state machine. */
  lemma DecisionFollowsEdges(stage: Stage, st: Store, pid: PathId, approver: Id, action: string,
                             comment: Option<string>, manager: Option<Id>, env: Env)
    ensures var out := Decide(stage, st, pid, approver, action, comment, manager, env);
      forall x ::
        && (Find(out.store.requests, x).Some? <==> Find(st.requests, x).Some?)
        && (Find(st.requests, x).Some? ==>
              var before := Find(st.requests, x).value.status;
              var after := Find(out.store.requests, x).value.status;
              before == after || Edge(before, after))
        && (pid.ObjectId? && x != pid.id ==> Find(out.store.requests, x) == Find(st.requests, x))
  {
    var out := Decide(stage, st, pid, approver, action, comment, manager, env);
    DecisionRequests(stage, st, pid, approver, action, comment, manager, env);
    if out.store.requests != st.requests {
      var r := LookupRequest(st, pid).request;
      var v := ParseAction(action).value;
      var r' := Stamp(AfterDecision(r, stage, v, approver, comment, env.now), env.now);
      assert Find(st.requests, r.id) == Some(r);
      assert Edge(r.status, r'.status);
      forall x ensures Find(out.store.requests, x) == if x == r.id then Some(r') else Find(st.requests, x) {
        FindAfterReplace(st.requests, r', x);
      }
    }
  }

  /** Every decision keeps the store invariant: unique ids, well-formed requests whose status
      agrees with the stage sub-statuses, fresh notification ids. */
  lemma DecisionPreservesValid(stage: Stage, st: Store, pid: PathId, approver: Id, action: string,
                               comment: Option<string>, manager: Option<Id>, env: Env)
    requires Valid(st)
    ensures Valid(Decide(stage, st, pid, approver, action, comment, manager, env).store)
  {
    var l := LookupRequest(st, pid);
    if l.Found? && l.request.status == Required(stage) && ParseAction(action).Some? {
      var r := l.request;
      var v := ParseAction(action).value;
      var plan := DecisionPlan(stage, r, v, approver, comment, manager, env.now);
      assert WellFormed(r);
      DecisionPlanShape(stage, r, v, approver, comment, manager, env.now);
      assert WellFormed(AfterDecision(r, stage, v, approver, comment, env.now));
      CommitPreservesValid(st, plan, env);
    }
  }

  /** `approved` and `rejected` are final: neither handler changes such a request, and each
      answers 400. */
  lemma TerminalIsFinal(st: Store, id: Id, approver: Id, action: string, comment: Option<string>,
                        manager: Option<Id>, env: Env)
    requires LookupRequest(st, ObjectId(id)).Found? && Terminal(LookupRequest(st, ObjectId(id)).request.status)
    ensures TeamLeadDecision(st, ObjectId(id), approver, action, comment, manager, env).store == st
    ensures ManagerDecision(st, ObjectId(id), approver, action, comment, env).store == st
    ensures TeamLeadDecision(st, ObjectId(id), approver, action, comment, manager, env).response.code == 400
    ensures ManagerDecision(st, ObjectId(id), approver, action, comment, env).response.code == 400
  {
  }

  /** An action other than "approve" or "reject" passes the guard and answers 200 with the
      request as it was: no save, no log entry, no notification. */
  lemma OtherActionIsNoOp(stage: Stage, st: Store, id: Id, approver: Id, action: string, comment: Option<string>,
                          manager: Option<Id>, env: Env)
    requires LookupRequest(st, ObjectId(id)).Found?
    requires LookupRequest(st, ObjectId(id)).request.status == Required(stage)
    requires action != "approve" && action != "reject"
    ensures Decide(stage, st, ObjectId(id), approver, action, comment, manager, env) ==
      Outcome(st, Response(200, RequestData(LookupRequest(st, ObjectId(id)).request)))
  {
  }

  /** The happy path end to end: a pending request approved by the team lead and then by the
      manager ends `approved` with both stage records filled in, exactly two log entries in
      stage order, and two notifications to the employee plus one to the manager, if any; the
      request is then final. */
  lemma TwoStageApproval(st: Store, id: Id, lead: Id, boss: Id, c1: Option<string>, c2: Option<string>,
                         manager: Option<Id>, e1: Env, e2: Env)
    requires LookupRequest(st, ObjectId(id)).Found?
    requires LookupRequest(st, ObjectId(id)).request.status == Pending
    requires e1.failAt.None? && e2.failAt.None?
    ensures var s1 := TeamLeadDecision(st, ObjectId(id), lead, "approve", c1, manager, e1).store;
      var s2 := ManagerDecision(s1, ObjectId(id), boss, "approve", c2, e2).store;
      && LookupRequest(s2, ObjectId(id)).Found?
      && var r := LookupRequest(s2, ObjectId(id)).request;
      && r.status == Approved && Terminal(r.status)
      && r.teamLeadApproval == Approval(Some(lead), Some(e1.now), StageApproved, c1)
      && r.managerApproval == Approval(Some(boss), Some(e2.now), StageApproved, c2)
      && r.rejection.None? == LookupRequest(st, ObjectId(id)).request.rejection.None?
      && s2.logs == st.logs + [LogEntry(id, lead, Approve, TeamLeadStage, c1, e1.now),
                               LogEntry(id, boss, Approve, ManagerStage, c2, e2.now)]
      && |s2.notifications| == |st.notifications| + (if manager.Some? then 3 else 2)
  {
    TeamLeadApproveEffects(st, id, lead, c1, manager, e1);
    var s1 := TeamLeadDecision(st, ObjectId(id), lead, "approve", c1, manager, e1).store;
    assert LookupRequest(s1, ObjectId(id)).Found?;
    ManagerApproveEffects(s1, id, boss, c2, e2);
  }

  function LogTime(e: LogEntry): int {
    e.createdAt
  }

  /** `getApprovalHistory`: the log entries of that request, every one of them, newest first.
      An unknown id is not an error (an empty list); an id Mongoose cannot cast is a 500. */
  function History(st: Store, pid: PathId): (resp: Response)
    ensures pid.Malformed? ==> resp == Failed
    ensures pid.ObjectId? ==>
      && resp.code == 200 && resp.body.LogList?
      && (forall e :: multiset(resp.body.logs)[e] == if e.request == pid.id then multiset(st.logs)[e] else 0)
      && SortedDesc(resp.body.logs, LogTime)
  {
    match pid
    case Malformed => Failed
    case ObjectId(id) => Response(200, LogList(Query(st.logs, (e: LogEntry) => e.request == id, LogTime)))
  }
}
