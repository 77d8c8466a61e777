/** How a handler's writes reach the store. A handler computes its writes in order as a plan;
    `Commit` performs them one after another. A write that throws stops the plan: the writes
    before it stay (nothing is rolled back) and the handler's catch answers 500. */
module Effects {
  import opened Wrappers
  import opened Records
  import opened Db
  import opened NotificationService

  datatype Write =
    | Insert(request: Request)  // Request.create; the store assigns the fresh id
    | Save(request: Request)    // request.save() on a loaded document
    | Log(entry: LogEntry)      // ApprovalLog.create
    | Send(draft: Draft)        // notificationService.createNotification

  /** What a handler invocation sees of the world: the clock (every `Date.now()` of one
      invocation reads the same value), the index of the write that throws, if any, and
      whether the socket server is up. */
  datatype Env = Env(now: int, failAt: Option<nat>, socketUp: bool)

  datatype Body =
    | Message(text: string)
    | RequestData(request: Request)
    | RequestList(requests: seq<Request>)
    | LogList(logs: seq<LogEntry>)
    | ServerError
  datatype Response = Response(code: int, body: Body)

  /** A handler's result: the store after it and its HTTP response. */
  datatype Outcome = Outcome(store: Store, response: Response)

  const NotFound := Response(404, Message("Request not found"))
  const Failed := Response(500, ServerError)

  /** The schema's `pre('save')` hook: every save refreshes `updatedAt`. */
  function Stamp(r: Request, now: int): (s: Request)
    ensures s.updatedAt == now && s.(updatedAt := r.updatedAt) == r
  {
    r.(updatedAt := now)
  }

  /** One write that succeeds. */
  function Apply(st: Store, w: Write, env: Env): Store {
    match w
    case Insert(r) => st.(requests := st.requests + [Stamp(r.(id := st.nextId), env.now)], nextId := st.nextId + 1)
    case Save(r) => st.(requests := Replace(st.requests, Stamp(r, env.now)))
    case Log(e) => st.(logs := st.logs + [e])
    case Send(d) => CreateNotification(st, d, env.now, true, env.socketUp).value.0
  }

  function Later(failAt: Option<nat>): Option<nat> {
    match failAt
    case None => None
    case Some(k) => if k == 0 then None else Some(k - 1)
  }

  /** Performs `plan` in order; the flag is false when a write threw. */
  function Commit(st: Store, plan: seq<Write>, env: Env): (r: (Store, bool))
    ensures r.1 <==> env.failAt.None? || env.failAt.value >= |plan|
    ensures r.0.uploads == st.uploads
    decreases |plan|
  {
    if |plan| == 0 then (st, true)
    else if env.failAt == Some(0) then (st, false)
    else Commit(Apply(st, plan[0], env), plan[1..], env.(failAt := Later(env.failAt)))
  }

  /** A write that throws leaves exactly the writes before it in the store. */
  lemma {:induction false} FailureKeepsPrefix(st: Store, plan: seq<Write>, env: Env, k: nat)
    requires env.failAt == Some(k) && k < |plan|
    ensures Commit(st, plan, env) == (Commit(st, plan[..k], env.(failAt := None)).0, false)
    decreases |plan|
  {
    if k > 0 {
      var env' := env.(failAt := Later(env.failAt));
      FailureKeepsPrefix(Apply(st, plan[0], env), plan[1..], env', k - 1);
      assert plan[..k][1..] == plan[1..][..k - 1];
    }
  }

  /** A fault scheduled after the last write never happens. */
  lemma {:induction false} LateFaultIsNoFault(st: Store, plan: seq<Write>, env: Env)
    requires env.failAt.None? || env.failAt.value >= |plan|
    ensures Commit(st, plan, env) == Commit(st, plan, env.(failAt := None))
    decreases |plan|
  {
    if |plan| > 0 {
      var mid := Apply(st, plan[0], env);
      LateFaultIsNoFault(mid, plan[1..], env.(failAt := Later(env.failAt)));
      assert env.(failAt := Later(env.failAt)).(failAt := None) == env.(failAt := None);
      assert Apply(st, plan[0], env.(failAt := None)) == mid;
    }
  }

  /** The log entries a plan appends, in order. */
  function LogsOf(plan: seq<Write>): seq<LogEntry> {
    if |plan| == 0 then []
    else (if plan[0].Log? then [plan[0].entry] else []) + LogsOf(plan[1..])
  }

  /** The notification drafts a plan sends, in order. */
  function DraftsOf(plan: seq<Write>): seq<Draft> {
    if |plan| == 0 then []
    else (if plan[0].Send? then [plan[0].draft] else []) + DraftsOf(plan[1..])
  }

  /** The request collection after the plan's inserts and saves, when `next` is the next
      fresh id. */
  function RequestsAfter(rs: seq<Request>, plan: seq<Write>, now: int, next: Id): seq<Request>
    decreases |plan|
  {
    if |plan| == 0 then rs
    else match plan[0]
      case Insert(r) => RequestsAfter(rs + [Stamp(r.(id := next), now)], plan[1..], now, next + 1)
      case Save(r) => RequestsAfter(Replace(rs, Stamp(r, now)), plan[1..], now, next)
      case Log(_) => RequestsAfter(rs, plan[1..], now, next)
      case Send(_) => RequestsAfter(rs, plan[1..], now, next + 1)
  }

  /** The number of inserts in a plan. */
  function InsertCount(plan: seq<Write>): nat {
    if |plan| == 0 then 0 else (if plan[0].Insert? then 1 else 0) + InsertCount(plan[1..])
  }

  /** The notifications appended between two states of the store. */
  function Appended(before: Store, after: Store): seq<Notification>
    requires |before.notifications| <= |after.notifications|
  {
    after.notifications[|before.notifications|..]
  }

  /** Without a fault, committing a plan is applying its first write and committing the rest. */
  lemma CommitStep(st: Store, plan: seq<Write>, env: Env)
    requires env.failAt.None? && |plan| > 0
    ensures Commit(st, plan, env) == Commit(Apply(st, plan[0], env), plan[1..], env)
  {
    assert env.(failAt := Later(env.failAt)) == env;
  }

  /** Without a fault, the requests are the plan's inserts and saves, and the upload record
      is untouched. */
  lemma {:induction false} CommitRequests(st: Store, plan: seq<Write>, env: Env)
    requires env.failAt.None?
    ensures Commit(st, plan, env).0.requests == RequestsAfter(st.requests, plan, env.now, st.nextId)
    ensures Commit(st, plan, env).0.uploads == st.uploads
    decreases |plan|
  {
    if |plan| > 0 {
      CommitStep(st, plan, env);
      CommitRequests(Apply(st, plan[0], env), plan[1..], env);
    }
  }

  /** Without a fault, exactly the plan's log entries are appended, in plan order. */
  lemma {:induction false} CommitLogs(st: Store, plan: seq<Write>, env: Env)
    requires env.failAt.None?
    ensures Commit(st, plan, env).0.logs == st.logs + LogsOf(plan)
    decreases |plan|
  {
    if |plan| > 0 {
      var mid := Apply(st, plan[0], env);
      CommitStep(st, plan, env);
      CommitLogs(mid, plan[1..], env);
      if plan[0].Log? {
        assert LogsOf(plan) == [plan[0].entry] + LogsOf(plan[1..]);
      } else {
        assert mid.logs == st.logs;
      }
    }
  }

  /** Without a fault, one fresh id is used per insert and per notification. */
  lemma {:induction false} CommitIds(st: Store, plan: seq<Write>, env: Env)
    requires env.failAt.None?
    ensures Commit(st, plan, env).0.nextId == st.nextId + |DraftsOf(plan)| + InsertCount(plan)
    ensures |Commit(st, plan, env).0.notifications| == |st.notifications| + |DraftsOf(plan)|
    decreases |plan|
  {
    if |plan| > 0 {
      var mid := Apply(st, plan[0], env);
      CommitStep(st, plan, env);
      CommitIds(mid, plan[1..], env);
      if plan[0].Send? {
        assert DraftsOf(plan) == [plan[0].draft] + DraftsOf(plan[1..]);
      } else {
        assert DraftsOf(plan) == DraftsOf(plan[1..]);
        assert |mid.notifications| == |st.notifications|;
      }
    }
  }

  /** Whatever the fault, the notifications and pushes already stored are kept as a prefix. */
  lemma {:induction false} CommitKeepsPrefix(st: Store, plan: seq<Write>, env: Env)
    ensures var st' := Commit(st, plan, env).0;
      && |st'.notifications| >= |st.notifications| && st'.notifications[..|st.notifications|] == st.notifications
      && |st'.pushes| >= |st.pushes| && st'.pushes[..|st.pushes|] == st.pushes
    decreases |plan|
  {
    if |plan| > 0 && env.failAt != Some(0) {
      var mid := Apply(st, plan[0], env);
      CommitKeepsPrefix(mid, plan[1..], env.(failAt := Later(env.failAt)));
      var st' := Commit(st, plan, env).0;
      assert st'.notifications[..|st.notifications|] == st'.notifications[..|mid.notifications|][..|st.notifications|];
      assert st'.pushes[..|st.pushes|] == st'.pushes[..|mid.pushes|][..|st.pushes|];
    }
  }

  /** Without a fault, one unread notification is appended per `Send`, in plan order, each
      carrying its draft's content. */
  lemma {:induction false} CommitNotifications(st: Store, plan: seq<Write>, env: Env)
    requires env.failAt.None?
    ensures var st' := Commit(st, plan, env).0;
      && |st'.notifications| == |st.notifications| + |DraftsOf(plan)|
      && (forall i :: 0 <= i < |DraftsOf(plan)| ==>
            Delivers(st'.notifications[|st.notifications| + i], DraftsOf(plan)[i], env.now))
    decreases |plan|
  {
    CommitIds(st, plan, env);
    if |plan| > 0 {
      var mid := Apply(st, plan[0], env);
      CommitNotifications(mid, plan[1..], env);
      CommitStep(st, plan, env);
      var st' := Commit(st, plan, env).0;
      var n0 := |st.notifications|;
      var ds := DraftsOf(plan[1..]);
      if plan[0].Send? {
        CommitKeepsPrefix(mid, plan[1..], env);
        assert DraftsOf(plan) == [plan[0].draft] + ds;
        assert |mid.notifications| == n0 + 1;
        assert st'.notifications[n0] == st'.notifications[..n0 + 1][n0];
        forall i | 0 <= i < |DraftsOf(plan)|
          ensures Delivers(st'.notifications[n0 + i], DraftsOf(plan)[i], env.now)
        {
          if i > 0 {
            assert DraftsOf(plan)[i] == ds[i - 1];
          }
        }
      } else {
        assert DraftsOf(plan) == ds;
        assert |mid.notifications| == n0;
      }
    }
  }

  /** Without a fault, the new notifications carry ids from the fresh range. */
  lemma {:induction false} CommitFreshIds(st: Store, plan: seq<Write>, env: Env)
    requires env.failAt.None?
    ensures var st' := Commit(st, plan, env).0;
      && |st'.notifications| >= |st.notifications|
      && forall i :: |st.notifications| <= i < |st'.notifications| ==>
           st.nextId <= st'.notifications[i].id < st'.nextId
    decreases |plan|
  {
    CommitIds(st, plan, env);
    if |plan| > 0 {
      var mid := Apply(st, plan[0], env);
      CommitFreshIds(mid, plan[1..], env);
      CommitIds(mid, plan[1..], env);
      CommitNotifications(mid, plan[1..], env);
      CommitStep(st, plan, env);
      if plan[0].Send? {
        var st' := Commit(st, plan, env).0;
        CommitKeepsPrefix(mid, plan[1..], env);
        assert st'.notifications[|st.notifications|] == st'.notifications[..|mid.notifications|][|st.notifications|];
      } else {
        assert mid.notifications == st.notifications;
      }
    }
  }

  /** The pushes a plan's notifications produce when the socket server is up. */
  ghost predicate PushesMatch(ps: seq<Push>, ns: seq<Notification>, socketUp: bool) {
    if socketUp then |ps| == |ns| && forall i :: 0 <= i < |ns| ==> ps[i] == Push(ns[i].recipient, ns[i])
    else ps == []
  }

  /** Every notification a plan stores is pushed to its recipient's room, in order, exactly
      when the socket server is up. */
  lemma {:induction false} CommitPushes(st: Store, plan: seq<Write>, env: Env)
    requires env.failAt.None?
    ensures var st' := Commit(st, plan, env).0;
      && |st'.pushes| >= |st.pushes| && st'.pushes[..|st.pushes|] == st.pushes
      && |st'.notifications| >= |st.notifications|
      && PushesMatch(st'.pushes[|st.pushes|..], st'.notifications[|st.notifications|..], env.socketUp)
    decreases |plan|
  {
    if |plan| > 0 {
      var mid := Apply(st, plan[0], env);
      CommitPushes(mid, plan[1..], env);
      CommitNotifications(mid, plan[1..], env);
      CommitStep(st, plan, env);
      var st' := Commit(st, plan, env).0;
      var n0 := |st.notifications|;
      var p0 := |st.pushes|;
      CommitKeepsPrefix(mid, plan[1..], env);
      if plan[0].Send? {
        assert st'.notifications[n0] == st'.notifications[..|mid.notifications|][n0];
        assert st'.notifications[n0..] == [mid.notifications[n0]] + st'.notifications[n0 + 1..];
        if env.socketUp {
          assert st'.pushes[p0] == st'.pushes[..|mid.pushes|][p0];
          assert st'.pushes[p0..] == [mid.pushes[p0]] + st'.pushes[p0 + 1..];
        }
      } else {
        assert mid.notifications == st.notifications;
        assert mid.pushes == st.pushes;
      }
    }
  }

  /** Whatever the fault, a commit only appends to the log, notification and push collections
      and never touches the upload record. */
  lemma {:induction false} CommitAppendsOnly(st: Store, plan: seq<Write>, env: Env)
    ensures var st' := Commit(st, plan, env).0;
      && st.logs <= st'.logs && st.notifications <= st'.notifications
      && st.pushes <= st'.pushes && st'.uploads == st.uploads
    decreases |plan|
  {
    if |plan| > 0 && env.failAt != Some(0) {
      CommitAppendsOnly(Apply(st, plan[0], env), plan[1..], env.(failAt := Later(env.failAt)));
    }
  }

  /** A plan without saves only appends requests, whatever the fault. */
  lemma {:induction false} CommitGrowsRequests(st: Store, plan: seq<Write>, env: Env)
    requires forall i :: 0 <= i < |plan| ==> !plan[i].Save?
    ensures st.requests <= Commit(st, plan, env).0.requests
    decreases |plan|
  {
    if |plan| > 0 && env.failAt != Some(0) {
      CommitGrowsRequests(Apply(st, plan[0], env), plan[1..], env.(failAt := Later(env.failAt)));
    }
  }

  /** Writes that keep the store invariant: inserted and saved requests are well formed. */
  predicate WriteOk(w: Write) {
    (w.Insert? || w.Save?) ==> WellFormed(w.request)
  }

  lemma ApplyPreservesValid(st: Store, w: Write, env: Env)
    requires Valid(st) && WriteOk(w)
    ensures Valid(Apply(st, w, env))
  {
    var st' := Apply(st, w, env);
    match w
    case Insert(r) =>
      assert WellFormed(Stamp(r.(id := st.nextId), env.now));
      assert forall i :: 0 <= i < |st.requests| ==> st'.requests[i] == st.requests[i];
    case Save(r) =>
      ReplaceKeepsIds(st.requests, Stamp(r, env.now));
    case Log(_) =>
    case Send(d) =>
  }

  /** Whatever the fault, committing well-formed writes keeps the store invariant. */
  lemma {:induction false} CommitPreservesValid(st: Store, plan: seq<Write>, env: Env)
    requires Valid(st)
    requires forall i :: 0 <= i < |plan| ==> WriteOk(plan[i])
    ensures Valid(Commit(st, plan, env).0)
    decreases |plan|
  {
    if |plan| > 0 && env.failAt != Some(0) {
      ApplyPreservesValid(st, plan[0], env);
      CommitPreservesValid(Apply(st, plan[0], env), plan[1..], env.(failAt := Later(env.failAt)));
    }
  }

  lemma {:induction false} LogsOfConcat(a: seq<Write>, b: seq<Write>)
    ensures LogsOf(a + b) == LogsOf(a) + LogsOf(b)
    decreases |a|
  {
    if |a| > 0 {
      assert (a + b)[0] == a[0];
      assert (a + b)[1..] == a[1..] + b;
      LogsOfConcat(a[1..], b);
      var h := if a[0].Log? then [a[0].entry] else [];
      assert LogsOf(a + b) == h + (LogsOf(a[1..]) + LogsOf(b));
      assert LogsOf(a) == h + LogsOf(a[1..]);
    } else {
      assert a + b == b;
    }
  }

  lemma {:induction false} DraftsOfConcat(a: seq<Write>, b: seq<Write>)
    ensures DraftsOf(a + b) == DraftsOf(a) + DraftsOf(b)
    decreases |a|
  {
    if |a| > 0 {
      assert (a + b)[0] == a[0];
      assert (a + b)[1..] == a[1..] + b;
      DraftsOfConcat(a[1..], b);
      var h := if a[0].Send? then [a[0].draft] else [];
      assert DraftsOf(a + b) == h + (DraftsOf(a[1..]) + DraftsOf(b));
      assert DraftsOf(a) == h + DraftsOf(a[1..]);
    } else {
      assert a + b == b;
    }
  }

  /** Logs and notifications leave the request collection alone. */
  lemma {:induction false} RequestsAfterUntouched(rs: seq<Request>, plan: seq<Write>, now: int, next: Id)
    requires forall i :: 0 <= i < |plan| ==> plan[i].Log? || plan[i].Send?
    ensures RequestsAfter(rs, plan, now, next) == rs
    decreases |plan|
  {
    if |plan| > 0 {
      RequestsAfterUntouched(rs, plan[1..], now, if plan[0].Send? then next + 1 else next);
    }
  }
}
