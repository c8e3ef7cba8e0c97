/**
 The local development server's journal: effects with a unique index on live signatures, approvals,
 and the request handlers. One HTTP request is one step. A signature stands for the call it identifies.
 */
module DevJournal {
  import opened Types
  import CanonicalJson

  type Id = nat
  type Json = CanonicalJson.Json

  /** A call signature, as hexadecimal text. */
  type Sig = string

  datatype Status = Executing | Awaiting | Committed | Failed | Rejected {
    predicate Live() {
      Executing? || Awaiting? || Committed?
    }
  }

  datatype ApprovalStatus = Pending | Approved | Rejected

  datatype Row = Row(sig: Sig, status: Status, result: Option<Json>, approval: Option<Id>, replays: nat)

  datatype Approval = Approval(effectId: Id, status: ApprovalStatus)

  datatype Journal = Journal(rows: map<Id, Row>, approvals: map<Id, Approval>)

  /** `gated` and `auto` are what the server's patterns and mode say at the time; `id` and `aid` are the identifiers it would draw. */
  datatype Request =
    | Intercept(sig: Sig, gated: bool, auto: bool, id: Id, aid: Id)
    | Commit(id: Id, result: Json)
    | Fail(id: Id)
    | Approve(aid: Id, mock: Json)
    | Reject(aid: Id)

  /** `Dropped` is a connection closed without an answer, after the index refused a statement. */
  datatype Answer =
    | Executed(id: Id)
    | Replayed(id: Id, result: Option<Json>)
    | PendingApproval(aid: Id)
    | Recorded(id: Id)
    | Decided(aid: Id)
    | NotFound
    | Conflict
    | Dropped

  // ── Specification of one request ──────────────────────────────────────────

  predicate Holds(j: Journal, id: Id, sig: Sig) {
    id in j.rows && j.rows[id].sig == sig && j.rows[id].status.Live()
  }

  /** The live effect carrying a signature. */
  ghost function Live(j: Journal, sig: Sig): Option<Id> {
    if id :| Holds(j, id, sig) then Some(id) else None
  }

  /** The unresolved approval of an effect. */
  ghost function PendingFor(j: Journal, id: Id): Option<Id> {
    if a :| IsPendingFor(j, a, id) then Some(a) else None
  }

  predicate IsPendingFor(j: Journal, a: Id, id: Id) {
    a in j.approvals && j.approvals[a].effectId == id && j.approvals[a].status.Pending?
  }

  function Resolved(j: Journal, a: Id, status: ApprovalStatus): Journal {
    if a in j.approvals && j.approvals[a].status.Pending?
    then j.(approvals := j.approvals[a := j.approvals[a].(status := status)]) else j
  }

  /** The index refuses to make the row live while another live row has its signature. */
  ghost predicate Refused(j: Journal, id: Id, status: Status)
    requires id in j.rows
  {
    status.Live() && exists other :: other != id && Holds(j, other, j.rows[id].sig)
  }

  ghost function Updated(j: Journal, id: Id, status: Status, result: Option<Json>): Journal {
    if id !in j.rows || Refused(j, id, status) then j
    else j.(rows := j.rows[id := j.rows[id].(status := status, result := result)])
  }

  /** A new call: it runs, waits, or runs with an approval granted on the spot. */
  function Created(j: Journal, sig: Sig, gated: bool, auto: bool, id: Id, aid: Id): Journal {
    var status := if gated && !auto then Awaiting else Executing;
    j.(rows := j.rows[id := Row(sig, status, None, if gated then Some(aid) else None, 0)],
       approvals := if gated then j.approvals[aid := Approval(id, if auto then Approved else ApprovalStatus.Pending)] else j.approvals)
  }

  function Counted(j: Journal, id: Id): Journal
    requires id in j.rows
  {
    j.(rows := j.rows[id := j.rows[id].(replays := j.rows[id].replays + 1)])
  }

  ghost function ServeIntercept(j: Journal, sig: Sig, gated: bool, auto: bool, id: Id, aid: Id): (Journal, Answer) {
    match Live(j, sig)
    case None => (Created(j, sig, gated, auto, id, aid), if gated && !auto then PendingApproval(aid) else Executed(id))
    case Some(found) =>
      var row := j.rows[found];
      match row.status
      case Committed => (Counted(j, found), Replayed(found, row.result))
      case Awaiting =>
        var pending := PendingFor(j, found);
        if auto then (if pending.Some? then Resolved(j, pending.value, Approved) else j, Executed(found))
        else (j, if pending.Some? then PendingApproval(pending.value) else Executed(found))
      case _ => (j, Executed(found))
  }

  ghost function ServeReport(j: Journal, id: Id, status: Status, result: Option<Json>): (Journal, Answer) {
    (Updated(j, id, status, result), if id !in j.rows then NotFound else if Refused(j, id, status) then Dropped else Recorded(id))
  }

  /** A decision resolves the approval first; the effect follows unless the index refuses. */
  ghost function ServeDecision(j: Journal, aid: Id, decision: ApprovalStatus, status: Status, result: Option<Json>): (Journal, Answer) {
    if aid !in j.approvals then (j, NotFound)
    else if !j.approvals[aid].status.Pending? then (j, Conflict)
    else
      var e := j.approvals[aid].effectId;
      var t := Resolved(j, aid, decision);
      (Updated(t, e, status, result), if e in j.rows && Refused(j, e, status) then Dropped else Decided(aid))
  }

  ghost function Serve(j: Journal, r: Request): (Journal, Answer) {
    match r
    case Intercept(sig, gated, auto, id, aid) => ServeIntercept(j, sig, gated, auto, id, aid)
    case Commit(id, result) => ServeReport(j, id, Status.Committed, Some(result))
    case Fail(id) => ServeReport(j, id, Status.Failed, None)
    case Approve(aid, mock) => ServeDecision(j, aid, Approved, Status.Committed, Some(mock))
    case Reject(aid) => ServeDecision(j, aid, ApprovalStatus.Rejected, Status.Rejected, None)
  }

  /** The identifiers an intercept would draw are new. */
  predicate Fresh(j: Journal, r: Request) {
    r.Intercept? ==> r.id !in j.rows && r.aid !in j.approvals
  }

  // ── Invariant ─────────────────────────────────────────────────────────────

  /** At most one live row per signature. */
  ghost predicate OneLive(j: Journal) {
    forall a, b :: a in j.rows && b in j.rows && j.rows[a].status.Live() && j.rows[b].status.Live() && j.rows[a].sig == j.rows[b].sig
                   ==> a == b
  }

  /** Approvals and the rows they were created with point at each other. */
  ghost predicate Linked(j: Journal) {
    && (forall a :: a in j.approvals ==> j.approvals[a].effectId in j.rows && j.rows[j.approvals[a].effectId].approval == Some(a))
    && (forall id :: id in j.rows && j.rows[id].approval.Some? ==>
          j.rows[id].approval.value in j.approvals && j.approvals[j.rows[id].approval.value].effectId == id)
  }

  ghost predicate RowInv(j: Journal, row: Row) {
    && (row.status.Committed? ==> row.result.Some?)
    && (row.status.Awaiting? ==> row.approval.Some?)
  }

  ghost predicate Valid(j: Journal) {
    OneLive(j) && Linked(j) && forall id :: id in j.rows ==> RowInv(j, j.rows[id])
  }

  lemma LiveIs(j: Journal, sig: Sig, id: Id)
    requires OneLive(j) && Holds(j, id, sig)
    ensures Live(j, sig) == Some(id)
  {
  }

  lemma PendingIs(j: Journal, id: Id)
    requires Linked(j) && id in j.rows
    ensures PendingFor(j, id) == match j.rows[id].approval
                                 case Some(a) => (if j.approvals[a].status.Pending? then Some(a) else None)
                                 case None => None
  {
    if j.rows[id].approval.Some? {
      var a := j.rows[id].approval.value;
      assert j.approvals[a].status.Pending? ==> IsPendingFor(j, a, id);
    }
  }

  lemma UpdateKeepsValid(j: Journal, id: Id, status: Status, result: Option<Json>)
    requires Valid(j) && (status.Committed? ==> result.Some?) && !status.Awaiting?
    ensures Valid(Updated(j, id, status, result))
  {
    var t := Updated(j, id, status, result);
    if t != j {
      forall a, b | a in t.rows && b in t.rows && t.rows[a].status.Live() && t.rows[b].status.Live() && t.rows[a].sig == t.rows[b].sig
        ensures a == b
      {
        assert a != id ==> Holds(j, a, j.rows[a].sig);
        assert b != id ==> Holds(j, b, j.rows[b].sig);
      }
    }
  }

  lemma ResolvedKeepsRefused(j: Journal, a: Id, decision: ApprovalStatus, id: Id, status: Status)
    requires id in j.rows
    ensures Refused(Resolved(j, a, decision), id, status) <==> Refused(j, id, status)
  {
    var t := Resolved(j, a, decision);
    assert forall other, sig :: Holds(t, other, sig) <==> Holds(j, other, sig);
  }

  lemma ResolveKeepsValid(j: Journal, a: Id, status: ApprovalStatus)
    requires Valid(j)
    ensures Valid(Resolved(j, a, status))
  {
  }

  lemma CreateKeepsValid(j: Journal, sig: Sig, gated: bool, auto: bool, id: Id, aid: Id)
    requires Valid(j) && id !in j.rows && aid !in j.approvals && Live(j, sig) == None
    ensures Valid(Created(j, sig, gated, auto, id, aid))
  {
    forall x | x in j.rows && j.rows[x].status.Live()
      ensures j.rows[x].sig != sig
    {
      assert Holds(j, x, j.rows[x].sig);
    }
  }

  lemma InterceptKeepsValid(j: Journal, sig: Sig, gated: bool, auto: bool, id: Id, aid: Id)
    requires Valid(j) && id !in j.rows && aid !in j.approvals
    ensures Valid(ServeIntercept(j, sig, gated, auto, id, aid).0)
  {
    match Live(j, sig)
    case None => CreateKeepsValid(j, sig, gated, auto, id, aid);
    case Some(found) =>
      CountKeepsValid(j, found);
      var pending := PendingFor(j, found);
      if pending.Some? {
        ResolveKeepsValid(j, pending.value, Approved);
      }
  }

  lemma CountKeepsValid(j: Journal, id: Id)
    requires Valid(j) && id in j.rows
    ensures Valid(Counted(j, id))
  {
  }

  lemma DecisionKeepsValid(j: Journal, aid: Id, decision: ApprovalStatus, status: Status, result: Option<Json>)
    requires Valid(j) && (status.Committed? ==> result.Some?) && !status.Awaiting?
    ensures Valid(ServeDecision(j, aid, decision, status, result).0)
  {
    ResolveKeepsValid(j, aid, decision);
    if aid in j.approvals {
      UpdateKeepsValid(Resolved(j, aid, decision), j.approvals[aid].effectId, status, result);
    }
  }

  lemma ServeKeepsValid(j: Journal, r: Request)
    requires Valid(j) && Fresh(j, r)
    ensures Valid(Serve(j, r).0)
  {
    match r
    case Intercept(sig, gated, auto, id, aid) => InterceptKeepsValid(j, sig, gated, auto, id, aid);
    case Commit(id, result) => UpdateKeepsValid(j, id, Status.Committed, Some(result));
    case Fail(id) => UpdateKeepsValid(j, id, Status.Failed, None);
    case Approve(aid, mock) => DecisionKeepsValid(j, aid, Approved, Status.Committed, Some(mock));
    case Reject(aid) => DecisionKeepsValid(j, aid, ApprovalStatus.Rejected, Status.Rejected, None);
  }

  /** A row keeps the signature it was created with. */
  lemma ServeKeepsSig(j: Journal, r: Request, id: Id)
    requires Fresh(j, r) && id in j.rows
    ensures id in Serve(j, r).0.rows && Serve(j, r).0.rows[id].sig == j.rows[id].sig
  {
  }

  // ── Runs ──────────────────────────────────────────────────────────────────

  ghost predicate Serves(journals: seq<Journal>, requests: seq<Request>, answers: seq<Answer>, i: nat)
    requires i < |requests| == |answers| && |journals| == |requests| + 1
  {
    Fresh(journals[i], requests[i]) && (journals[i + 1], answers[i]) == Serve(journals[i], requests[i])
  }

  /** A serial sequence of requests against an empty journal. */
  ghost predicate IsRun(journals: seq<Journal>, requests: seq<Request>, answers: seq<Answer>) {
    && |answers| == |requests| && |journals| == |requests| + 1
    && journals[0] == Journal(map[], map[])
    && forall i {:trigger Serves(journals, requests, answers, i)} :: 0 <= i < |requests| ==> Serves(journals, requests, answers, i)
  }

  /** In every reachable journal at most one live row exists per signature, and rows and approvals agree. */
  lemma {:induction false} RunKeepsValid(journals: seq<Journal>, requests: seq<Request>, answers: seq<Answer>, n: nat)
    requires IsRun(journals, requests, answers) && n < |journals|
    ensures Valid(journals[n])
  {
    if n > 0 {
      RunKeepsValid(journals, requests, answers, n - 1);
      assert Serves(journals, requests, answers, n - 1);
      ServeKeepsValid(journals[n - 1], requests[n - 1]);
    }
  }

  // ── The server ────────────────────────────────────────────────────────────

  datatype UpdateOutcome = Stored | Missing | Violated

  class Server {
    var rows: map<Id, Row>
    var approvals: map<Id, Approval>

    ghost function J(): Journal
      reads this
    {
      Journal(rows, approvals)
    }

    constructor ()
      ensures J() == Journal(map[], map[])
    {
      rows, approvals := map[], map[];
    }

    method FindLiveEffect(sig: Sig) returns (found: Option<Id>)
      requires OneLive(J())
      ensures found == Live(J(), sig)
    {
      var live := set id | id in rows && rows[id].sig == sig && rows[id].status.Live();
      if live == {} {
        assert forall id :: Holds(J(), id, sig) ==> id in live;
        return None;
      }
      var id :| id in live;
      LiveIs(J(), sig, id);
      found := Some(id);
    }

    method FindPendingApproval(id: Id) returns (found: Option<Id>)
      requires Valid(J()) && id in rows
      ensures found == PendingFor(J(), id)
    {
      var pending := set a | a in approvals && approvals[a].effectId == id && approvals[a].status.Pending?;
      PendingIs(J(), id);
      if pending == {} {
        assert forall a :: IsPendingFor(J(), a, id) ==> a in pending;
        return None;
      }
      var a :| a in pending;
      found := Some(a);
    }

    /** Insert a call and, in the same transaction, its approval; refused if the signature is live. */
    method CreateEffect(sig: Sig, status: Status, approval: Option<Id>, id: Id) returns (created: bool)
      requires OneLive(J()) && status.Live() && id !in rows
      modifies this
      ensures created <==> Live(old(J()), sig) == None
      ensures !created ==> J() == old(J())
      ensures created ==> rows == old(rows)[id := Row(sig, status, None, approval, 0)]
      ensures created && approval.None? ==> approvals == old(approvals)
      ensures created && approval.Some? ==> approvals == old(approvals)[approval.value := Approval(id, ApprovalStatus.Pending)]
    {
      var live := FindLiveEffect(sig);
      if live.Some? {
        return false;
      }
      rows := rows[id := Row(sig, status, None, approval, 0)];
      if approval.Some? {
        approvals := approvals[approval.value := Approval(id, ApprovalStatus.Pending)];
      }
      created := true;
    }

    /** An unconditional update by id, subject to the index on live signatures. */
    method UpdateEffect(id: Id, status: Status, result: Option<Json>) returns (o: UpdateOutcome)
      modifies this`rows
      ensures J() == Updated(old(J()), id, status, result)
      ensures o == if id !in old(rows) then Missing else if Refused(old(J()), id, status) then Violated else Stored
    {
      if id !in rows {
        return Missing;
      }
      var others := set other | other in rows && other != id && rows[other].sig == rows[id].sig && rows[other].status.Live();
      assert (exists other :: other != id && Holds(J(), other, rows[id].sig)) <==> others != {} by {
        assert forall other :: other != id && Holds(J(), other, rows[id].sig) ==> other in others;
        if others != {} {
          var other :| other in others;
          assert Holds(J(), other, rows[id].sig);
        }
      }
      if status.Live() && others != {} {
        return Violated;
      }
      rows := rows[id := rows[id].(status := status, result := result)];
      o := Stored;
    }

    method ResolveApproval(aid: Id, status: ApprovalStatus) returns (resolved: bool)
      modifies this`approvals
      ensures J() == Resolved(old(J()), aid, status)
      ensures resolved <==> aid in old(approvals) && old(approvals)[aid].status.Pending?
    {
      resolved := aid in approvals && approvals[aid].status.Pending?;
      if resolved {
        approvals := approvals[aid := approvals[aid].(status := status)];
      }
    }

    method RespondForLiveEffect(id: Id, auto: bool) returns (answer: Answer)
      requires Valid(J()) && id in rows && rows[id].status.Live()
      modifies this
      ensures Live(old(J()), old(rows)[id].sig) == Some(id)
      ensures forall gated, new_, aid :: (J(), answer) == ServeIntercept(old(J()), old(rows)[id].sig, gated, auto, new_, aid)
    {
      LiveIs(J(), rows[id].sig, id);
      if rows[id].status.Committed? {
        answer := Replayed(id, rows[id].result);
        rows := rows[id := rows[id].(replays := rows[id].replays + 1)];
        return;
      }
      if rows[id].status.Awaiting? {
        var approval := FindPendingApproval(id);
        if auto {
          if approval.Some? {
            var _ := ResolveApproval(approval.value, Approved);
          }
          return Executed(id);
        }
        if approval.Some? {
          return PendingApproval(approval.value);
        }
      }
      answer := Executed(id);
    }

    method HandleToolCall(sig: Sig, gated: bool, auto: bool, id: Id, aid: Id) returns (answer: Answer)
      requires Valid(J()) && id !in rows && aid !in approvals
      modifies this
      ensures Valid(J()) && (J(), answer) == ServeIntercept(old(J()), sig, gated, auto, id, aid)
    {
      InterceptKeepsValid(J(), sig, gated, auto, id, aid);
      var existing := FindLiveEffect(sig);
      if existing.Some? {
        answer := RespondForLiveEffect(existing.value, auto);
        return;
      }
      var status := Executing;
      var approval := None;
      if gated {
        approval := Some(aid);
        if !auto {
          status := Awaiting;
        }
      }
      var created := CreateEffect(sig, status, approval, id);
      if gated && auto {
        var _ := ResolveApproval(aid, Approved);
        assert approvals == old(approvals)[aid := Approval(id, Approved)];
      }
      answer := if gated && !auto then PendingApproval(aid) else Executed(id);
    }

    /** A commit or fail report. */
    method HandleEffectAction(id: Id, commit: bool, result: Json) returns (answer: Answer)
      requires Valid(J())
      modifies this
      ensures Valid(J()) && (J(), answer) == Serve(old(J()), if commit then Commit(id, result) else Fail(id))
    {
      ServeKeepsValid(J(), if commit then Commit(id, result) else Fail(id));
      var o;
      if commit {
        o := UpdateEffect(id, Committed, Some(result));
      } else {
        o := UpdateEffect(id, Status.Failed, None);
      }
      answer := if o.Missing? then NotFound else if o.Violated? then Dropped else Recorded(id);
    }

    method HandleApprovalDecision(aid: Id, approve: bool, mock: Json) returns (answer: Answer)
      requires Valid(J())
      modifies this
      ensures Valid(J()) && (J(), answer) == Serve(old(J()), if approve then Approve(aid, mock) else Reject(aid))
    {
      ServeKeepsValid(J(), if approve then Approve(aid, mock) else Reject(aid));
      if aid !in approvals {
        return NotFound;
      }
      if !approvals[aid].status.Pending? {
        return Conflict;
      }
      var id := approvals[aid].effectId;
      ResolvedKeepsRefused(J(), aid, if approve then Approved else ApprovalStatus.Rejected, id,
                           if approve then Committed else Status.Rejected);
      var o;
      if approve {
        var _ := ResolveApproval(aid, Approved);
        o := UpdateEffect(id, Committed, Some(mock));
      } else {
        var _ := ResolveApproval(aid, ApprovalStatus.Rejected);
        o := UpdateEffect(id, Status.Rejected, None);
      }
      answer := if o.Violated? then Dropped else Decided(aid);
    }
  }
}
