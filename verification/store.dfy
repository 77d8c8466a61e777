/** The persistent store as the handlers see it: the Request, ApprovalLog and Notification
    collections, the real-time pushes and the upload calls made so far. */
module Db {
  import opened Wrappers
  import opened Records

  /** One `notification` event emitted to the room named by a user id. */
  datatype Push = Push(room: Id, event: Notification)

  /** One call of the upload service: target folder and original file name. */
  datatype UploadCall = UploadCall(folder: string, fileName: string)

  /** Collections in insertion order; `nextId` is the next fresh object id. */
  datatype Store = Store(
    requests: seq<Request>,
    logs: seq<LogEntry>,
    notifications: seq<Notification>,
    pushes: seq<Push>,
    uploads: seq<UploadCall>,
    nextId: Id)

  /** How a `:id` path parameter reaches `findById`: a well-formed object id, or a string
      Mongoose cannot cast (it throws, and the handler answers 500). */
  datatype PathId = ObjectId(id: Id) | Malformed

  /** Request ids are pairwise distinct. */
  ghost predicate UniqueIds(rs: seq<Request>) {
    forall i, j :: 0 <= i < j < |rs| ==> rs[i].id != rs[j].id
  }

  /** The store invariant every handler preserves. */
  ghost predicate Valid(st: Store) {
    && UniqueIds(st.requests)
    && (forall i :: 0 <= i < |st.requests| ==> st.requests[i].id < st.nextId)
    && (forall i :: 0 <= i < |st.requests| ==> WellFormed(st.requests[i]))
    && (forall i :: 0 <= i < |st.notifications| ==> st.notifications[i].id < st.nextId)
  }

  /** `Request.findById`: the request with id `id`, if any. */
  function Find(rs: seq<Request>, id: Id): (r: Option<Request>)
    ensures r.Some? ==> r.value in rs && r.value.id == id
    ensures r.None? <==> forall i :: 0 <= i < |rs| ==> rs[i].id != id
  {
    if |rs| == 0 then None
    else if rs[0].id == id then Some(rs[0])
    else Find(rs[1..], id)
  }

  /** Appending requests does not change what `Find` returns for an id already present. */
  lemma {:induction false} FindInPrefix(rs: seq<Request>, more: seq<Request>, id: Id)
    requires Find(rs, id).Some?
    ensures Find(rs + more, id) == Find(rs, id)
  {
    assert (rs + more)[0] == rs[0];
    if rs[0].id != id {
      assert (rs + more)[1..] == rs[1..] + more;
      FindInPrefix(rs[1..], more, id);
    }
  }

  /** Replaces the request carrying `r.id` by `r` (a `save()` of a loaded document). */
  function Replace(rs: seq<Request>, r: Request): (out: seq<Request>)
    ensures |out| == |rs|
    ensures forall i :: 0 <= i < |rs| ==> out[i] == if rs[i].id == r.id then r else rs[i]
  {
    if |rs| == 0 then []
    else [if rs[0].id == r.id then r else rs[0]] + Replace(rs[1..], r)
  }

  /** After a replacement, looking up `r.id` gives `r` (when it was present) and every
      other id is untouched. */
  lemma {:induction false} FindAfterReplace(rs: seq<Request>, r: Request, id: Id)
    ensures Find(Replace(rs, r), id) ==
      if id != r.id then Find(rs, id) else if Find(rs, id).Some? then Some(r) else None
  {
    if |rs| > 0 {
      var out := Replace(rs, r);
      assert out[1..] == Replace(rs[1..], r);
      FindAfterReplace(rs[1..], r, id);
    }
  }

  /** The requests with the same ids, in the same order, keep unique ids. */
  lemma ReplaceKeepsIds(rs: seq<Request>, r: Request)
    requires UniqueIds(rs)
    ensures UniqueIds(Replace(rs, r))
    ensures forall i :: 0 <= i < |rs| ==> Replace(rs, r)[i].id == rs[i].id
  {
  }

  /** What `findById` on a path parameter yields. */
  datatype Lookup = CastError | Missing | Found(request: Request)

  function LookupRequest(st: Store, pid: PathId): (l: Lookup)
    ensures l.CastError? <==> pid.Malformed?
    ensures l.Found? ==> l.request in st.requests && l.request.id == pid.id
    ensures l.Missing? <==> pid.ObjectId? && forall i :: 0 <= i < |st.requests| ==> st.requests[i].id != pid.id
  {
    match pid
    case Malformed => CastError
    case ObjectId(id) =>
      match Find(st.requests, id)
      case None => Missing
      case Some(r) => Found(r)
  }
}
