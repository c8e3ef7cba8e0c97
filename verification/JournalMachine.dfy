/**
 The journal seen one signature at a time. Each signature is a small machine - free, running, waiting
 or done with a result - that reacts only to requests about its own calls. The table of all rows,
 with its index, refines the family of these machines.
 */
module JournalMachine {
  import opened Types
  import opened DevJournal

  datatype Slot =
    | Free
    | Busy(id: Id)
    | Waiting(id: Id, ask: Id)
    | Done(id: Id, result: Json)

  datatype Ask = Ask(id: Id, open: bool)

  /** `ids` are the calls ever journaled under the signature, `asks` their approvals. */
  datatype Machine = Machine(slot: Slot, ids: set<Id>, asks: map<Id, Ask>)

  function Initial(): Machine {
    Machine(Free, {}, map[])
  }

  /** The signature is free for this id: it is free altogether, or this id holds it. */
  predicate FreeFor(m: Machine, id: Id) {
    m.slot.Free? || m.slot.id == id
  }

  predicate IsOpen(m: Machine, ask: Id) {
    ask in m.asks && m.asks[ask].open
  }

  function Closed(m: Machine, ask: Id): Machine {
    if ask in m.asks then m.(asks := m.asks[ask := m.asks[ask].(open := false)]) else m
  }

  /** A result for one of the signature's calls takes the slot unless another call holds it. */
  function Settle(m: Machine, id: Id, result: Json): Machine {
    if FreeFor(m, id) then m.(slot := Done(id, result)) else m
  }

  /** A failure or refusal of the call that holds the slot frees it. */
  function Release(m: Machine, id: Id): Machine {
    if FreeFor(m, id) then m.(slot := Free) else m
  }

  /** An intercept of the machine's signature. */
  function Arrive(m: Machine, gated: bool, auto: bool, id: Id, aid: Id): (Machine, Answer) {
    match m.slot
    case Busy(held) => (m, Executed(held))
    case Done(held, result) => (m, Replayed(held, Some(result)))
    case Waiting(held, ask) =>
      if auto then (Closed(m, ask), Executed(held))
      else (m, if IsOpen(m, ask) then PendingApproval(ask) else Executed(held))
    case Free =>
      var slot := if gated && !auto then Waiting(id, aid) else Busy(id);
      (Machine(slot, m.ids + {id}, if gated then m.asks[aid := Ask(id, !auto)] else m.asks),
       if gated && !auto then PendingApproval(aid) else Executed(id))
  }

  /** The request is about this signature. */
  predicate Concerns(m: Machine, sig: Sig, r: Request) {
    match r
    case Intercept(s, _, _, _, _) => s == sig
    case Commit(id, _) => id in m.ids
    case Fail(id) => id in m.ids
    case Approve(aid, _) => aid in m.asks
    case Reject(aid) => aid in m.asks
  }

  function React(m: Machine, sig: Sig, r: Request): (Machine, Answer)
    requires Concerns(m, sig, r)
  {
    match r
    case Intercept(_, gated, auto, id, aid) => Arrive(m, gated, auto, id, aid)
    case Commit(id, result) => (Settle(m, id, result), if FreeFor(m, id) then Recorded(id) else Dropped)
    case Fail(id) => (Release(m, id), Recorded(id))
    case Approve(aid, mock) =>
      if !m.asks[aid].open then (m, Conflict)
      else (Settle(Closed(m, aid), m.asks[aid].id, mock), if FreeFor(m, m.asks[aid].id) then Decided(aid) else Dropped)
    case Reject(aid) =>
      if !m.asks[aid].open then (m, Conflict) else (Release(Closed(m, aid), m.asks[aid].id), Decided(aid))
  }

  function Step(m: Machine, sig: Sig, r: Request): Machine {
    if Concerns(m, sig, r) then React(m, sig, r).0 else m
  }

  /** The machine of a signature after a sequence of requests, whatever they were about. */
  function Fold(sig: Sig, requests: seq<Request>): Machine {
    if requests == [] then Initial() else Step(Fold(sig, requests[..|requests| - 1]), sig, requests[|requests| - 1])
  }

  // ── Projection of the journal ─────────────────────────────────────────────

  ghost function SlotOf(j: Journal, sig: Sig): Slot
    requires Valid(j)
  {
    match Live(j, sig)
    case None => Free
    case Some(id) =>
      match j.rows[id].status
      case Executing => Busy(id)
      case Awaiting => Waiting(id, j.rows[id].approval.value)
      case _ => Done(id, j.rows[id].result.value)
  }

  ghost function IdsOf(j: Journal, sig: Sig): set<Id> {
    set id | id in j.rows && j.rows[id].sig == sig
  }

  ghost function AsksOf(j: Journal, sig: Sig): map<Id, Ask> {
    map a | a in j.approvals && j.approvals[a].effectId in IdsOf(j, sig) :: Ask(j.approvals[a].effectId, j.approvals[a].status.Pending?)
  }

  ghost function Project(j: Journal, sig: Sig): Machine
    requires Valid(j)
  {
    Machine(SlotOf(j, sig), IdsOf(j, sig), AsksOf(j, sig))
  }

  predicate SameOutcome(r: Row, t: Row) {
    t.status == r.status && t.result == r.result && t.approval == r.approval
  }

  /** Two journals with the same live row, in the same state, for a signature. */
  lemma SameSlot(j: Journal, t: Journal, sig: Sig)
    requires Valid(j) && Valid(t)
    requires forall id :: Holds(j, id, sig) <==> Holds(t, id, sig)
    requires forall id :: Holds(j, id, sig) && id in t.rows ==> SameOutcome(j.rows[id], t.rows[id])
    ensures SlotOf(t, sig) == SlotOf(j, sig)
  {
    if id :| Holds(j, id, sig) {
      LiveIs(j, sig, id);
      LiveIs(t, sig, id);
    }
  }

  lemma SlotIs(j: Journal, sig: Sig, id: Id)
    requires Valid(j) && Holds(j, id, sig)
    ensures SlotOf(j, sig) == match j.rows[id].status
                              case Executing => Busy(id)
                              case Awaiting => Waiting(id, j.rows[id].approval.value)
                              case _ => Done(id, j.rows[id].result.value)
  {
    LiveIs(j, sig, id);
  }

  // ── One request ───────────────────────────────────────────────────────────

  /** An update through the index is a settlement or a release of its own signature's machine, and nothing to the others. */
  lemma UpdateRefines(j: Journal, id: Id, status: Status, result: Option<Json>, sig: Sig)
    requires Valid(j) && id in j.rows && !status.Executing? && !status.Awaiting? && (status.Committed? ==> result.Some?)
    ensures Valid(Updated(j, id, status, result))
    ensures var m := Project(j, sig);
            Project(Updated(j, id, status, result), sig) ==
              (if j.rows[id].sig != sig then m else if status.Committed? then Settle(m, id, result.value) else Release(m, id))
    ensures j.rows[id].sig == sig ==> (Refused(j, id, status) <==> status.Committed? && !FreeFor(Project(j, sig), id))
  {
    UpdateKeepsValid(j, id, status, result);
    var t := Updated(j, id, status, result);
    assert IdsOf(t, sig) == IdsOf(j, sig) && AsksOf(t, sig) == AsksOf(j, sig);
    if j.rows[id].sig != sig {
      SameSlot(j, t, sig);
    } else {
      UpdateRefinesOwn(j, id, status, result);
    }
  }

  lemma UpdateRefinesOwn(j: Journal, id: Id, status: Status, result: Option<Json>)
    requires Valid(j) && id in j.rows && !status.Executing? && !status.Awaiting? && (status.Committed? ==> result.Some?)
    requires Valid(Updated(j, id, status, result))
    ensures var m, sig := Project(j, j.rows[id].sig), j.rows[id].sig;
            SlotOf(Updated(j, id, status, result), sig) ==
              (if status.Committed? then Settle(m, id, result.value) else Release(m, id)).slot
            && (Refused(j, id, status) <==> status.Committed? && !FreeFor(m, id))
  {
    var sig, t := j.rows[id].sig, Updated(j, id, status, result);
    if other :| other != id && Holds(j, other, sig) {
      SlotIs(j, sig, other);
      assert Holds(t, other, sig);
      SlotIs(t, sig, other);
    } else {
      assert forall x :: x != id ==> !Holds(j, x, sig);
      assert forall x :: x != id && Holds(t, x, sig) ==> Holds(j, x, sig);
      if Holds(j, id, sig) {
        SlotIs(j, sig, id);
      }
      if Holds(t, id, sig) {
        SlotIs(t, sig, id);
      }
    }
  }

  lemma ResolveRefines(j: Journal, aid: Id, decision: ApprovalStatus, sig: Sig)
    requires Valid(j) && aid in j.approvals && j.approvals[aid].status.Pending? && !decision.Pending?
    ensures Valid(Resolved(j, aid, decision))
    ensures Project(Resolved(j, aid, decision), sig) == Closed(Project(j, sig), aid)
  {
    ResolveKeepsValid(j, aid, decision);
    var t := Resolved(j, aid, decision);
    assert t.rows == j.rows;
    SameSlot(j, t, sig);
    assert IdsOf(t, sig) == IdsOf(j, sig);
    ResolvedAsks(j, aid, decision, sig);
  }

  lemma ResolvedAsks(j: Journal, aid: Id, decision: ApprovalStatus, sig: Sig)
    requires aid in j.approvals && j.approvals[aid].status.Pending? && !decision.Pending?
    ensures AsksOf(Resolved(j, aid, decision), sig)
            == var asks := AsksOf(j, sig); if aid in asks then asks[aid := asks[aid].(open := false)] else asks
  {
    assert IdsOf(Resolved(j, aid, decision), sig) == IdsOf(j, sig);
  }

  lemma CreateRefines(j: Journal, r: Request, sig: Sig)
    requires Valid(j) && r.Intercept? && Fresh(j, r) && Live(j, r.sig) == None
    ensures var t := Created(j, r.sig, r.gated, r.auto, r.id, r.aid);
            Valid(t) && Project(t, sig) == Step(Project(j, sig), sig, r)
  {
    CreateKeepsValid(j, r.sig, r.gated, r.auto, r.id, r.aid);
    if r.sig != sig {
      CreateSparesOthers(j, r, sig);
    } else {
      CreateRefinesOwn(j, r);
    }
  }

  lemma CreateSparesOthers(j: Journal, r: Request, sig: Sig)
    requires Valid(j) && r.Intercept? && Fresh(j, r) && Live(j, r.sig) == None && r.sig != sig
    requires Valid(Created(j, r.sig, r.gated, r.auto, r.id, r.aid))
    ensures Project(Created(j, r.sig, r.gated, r.auto, r.id, r.aid), sig) == Project(j, sig)
  {
    var t := Created(j, r.sig, r.gated, r.auto, r.id, r.aid);
    SameSlot(j, t, sig);
    assert IdsOf(t, sig) == IdsOf(j, sig);
    OtherAsks(j, r, sig);
  }

  lemma OtherAsks(j: Journal, r: Request, sig: Sig)
    requires Linked(j) && r.Intercept? && Fresh(j, r) && r.sig != sig
    ensures AsksOf(Created(j, r.sig, r.gated, r.auto, r.id, r.aid), sig) == AsksOf(j, sig)
  {
  }

  lemma CreateRefinesOwn(j: Journal, r: Request)
    requires Valid(j) && r.Intercept? && Fresh(j, r) && Live(j, r.sig) == None
    requires Valid(Created(j, r.sig, r.gated, r.auto, r.id, r.aid))
    ensures Project(Created(j, r.sig, r.gated, r.auto, r.id, r.aid), r.sig) == Arrive(Project(j, r.sig), r.gated, r.auto, r.id, r.aid).0
  {
    var t := Created(j, r.sig, r.gated, r.auto, r.id, r.aid);
    assert Holds(t, r.id, r.sig);
    SlotIs(t, r.sig, r.id);
    assert IdsOf(t, r.sig) == IdsOf(j, r.sig) + {r.id};
    CreatedAsks(j, r);
  }

  lemma CreatedAsks(j: Journal, r: Request)
    requires Linked(j) && r.Intercept? && Fresh(j, r)
    ensures AsksOf(Created(j, r.sig, r.gated, r.auto, r.id, r.aid), r.sig)
            == if r.gated then AsksOf(j, r.sig)[r.aid := Ask(r.id, !r.auto)] else AsksOf(j, r.sig)
  {
  }

  lemma CountReplay(j: Journal, id: Id, sig: Sig)
    requires Valid(j) && id in j.rows
    ensures Valid(Counted(j, id)) && Project(Counted(j, id), sig) == Project(j, sig)
  {
    CountKeepsValid(j, id);
    SameSlot(j, Counted(j, id), sig);
    assert IdsOf(Counted(j, id), sig) == IdsOf(j, sig);
    CountKeepsAsks(j, id, sig);
  }

  lemma CountKeepsAsks(j: Journal, id: Id, sig: Sig)
    requires id in j.rows
    ensures AsksOf(Counted(j, id), sig) == AsksOf(j, sig)
  {
    assert IdsOf(Counted(j, id), sig) == IdsOf(j, sig);
  }

  lemma InterceptRefines(j: Journal, r: Request, sig: Sig)
    requires Valid(j) && r.Intercept? && Fresh(j, r)
    ensures Valid(Serve(j, r).0) && Project(Serve(j, r).0, sig) == Step(Project(j, sig), sig, r)
    ensures r.sig == sig ==> Serve(j, r).1 == React(Project(j, sig), sig, r).1
  {
    match Live(j, r.sig)
    case None => CreateRefines(j, r, sig);
    case Some(found) =>
      SlotIs(j, r.sig, found);
      PendingIs(j, found);
      match j.rows[found].status {
        case Committed => CountReplay(j, found, sig);
        case Awaiting =>
          var aid := j.rows[found].approval.value;
          assert aid in AsksOf(j, r.sig) && (r.sig != sig ==> aid !in AsksOf(j, sig));
          if r.auto {
            if j.approvals[aid].status.Pending? {
              ResolveRefines(j, aid, Approved, sig);
            } else if r.sig == sig {
              assert Closed(Project(j, sig), aid).asks == Project(j, sig).asks;
            }
          }
        case _ =>
      }
  }

  lemma DecisionRefines(j: Journal, aid: Id, decision: ApprovalStatus, status: Status, result: Option<Json>, sig: Sig)
    requires Valid(j) && aid in j.approvals && j.approvals[aid].status.Pending? && !decision.Pending?
    requires !status.Executing? && !status.Awaiting? && (status.Committed? ==> result.Some?)
    ensures var t := ServeDecision(j, aid, decision, status, result); var m := Project(j, sig); var e := j.approvals[aid].effectId;
            && Valid(t.0)
            && (aid in m.asks ==>
                  Project(t.0, sig) == (if status.Committed? then Settle(Closed(m, aid), e, result.value) else Release(Closed(m, aid), e))
                  && t.1 == if status.Committed? && !FreeFor(m, e) then Dropped else Decided(aid))
            && (aid !in m.asks ==> Project(t.0, sig) == m)
  {
    var e := j.approvals[aid].effectId;
    ResolveRefines(j, aid, decision, sig);
    ResolvedKeepsRefused(j, aid, decision, e, status);
    UpdateRefines(Resolved(j, aid, decision), e, status, result, sig);
  }

  lemma ReportRefines(j: Journal, id: Id, status: Status, result: Option<Json>, sig: Sig)
    requires Valid(j) && !status.Executing? && !status.Awaiting? && (status.Committed? ==> result.Some?)
    ensures var t := ServeReport(j, id, status, result); var m := Project(j, sig);
            && Valid(t.0)
            && (id in m.ids ==> Project(t.0, sig) == (if status.Committed? then Settle(m, id, result.value) else Release(m, id))
                                && t.1 == if status.Committed? && !FreeFor(m, id) then Dropped else Recorded(id))
            && (id !in m.ids ==> Project(t.0, sig) == m)
  {
    if id in j.rows {
      UpdateRefines(j, id, status, result, sig);
    }
  }

  /** Serving a request is one step of every signature's machine, and the answer is that of the machine concerned. */
  lemma ServeRefines(j: Journal, r: Request, sig: Sig)
    requires Valid(j) && Fresh(j, r)
    ensures Valid(Serve(j, r).0) && Project(Serve(j, r).0, sig) == Step(Project(j, sig), sig, r)
    ensures Concerns(Project(j, sig), sig, r) ==> Serve(j, r).1 == React(Project(j, sig), sig, r).1
  {
    match r
    case Intercept(_, _, _, _, _) => InterceptRefines(j, r, sig);
    case Commit(id, result) => ReportRefines(j, id, Status.Committed, Some(result), sig);
    case Fail(id) => ReportRefines(j, id, Status.Failed, None, sig);
    case Approve(aid, mock) =>
      if aid in j.approvals && j.approvals[aid].status.Pending? {
        DecisionRefines(j, aid, Approved, Status.Committed, Some(mock), sig);
      }
    case Reject(aid) =>
      if aid in j.approvals && j.approvals[aid].status.Pending? {
        DecisionRefines(j, aid, ApprovalStatus.Rejected, Status.Rejected, None, sig);
      }
  }

  /** A request that concerns no signature is about nothing the journal knows. */
  lemma StrangerIsNotFound(j: Journal, r: Request)
    requires Valid(j) && !r.Intercept? && forall sig :: !Concerns(Project(j, sig), sig, r)
    ensures Serve(j, r) == (j, NotFound)
  {
    match r
    case Commit(id, _) => assert id in j.rows ==> id in Project(j, j.rows[id].sig).ids;
    case Fail(id) => assert id in j.rows ==> id in Project(j, j.rows[id].sig).ids;
    case Approve(aid, _) => assert aid in j.approvals ==> aid in Project(j, j.rows[j.approvals[aid].effectId].sig).asks;
    case Reject(aid) => assert aid in j.approvals ==> aid in Project(j, j.rows[j.approvals[aid].effectId].sig).asks;
  }

  // ── Whole runs ────────────────────────────────────────────────────────────

  /** After any serial sequence of requests each signature's rows are what its own machine says. */
  lemma {:induction false} JournalIsFold(journals: seq<Journal>, requests: seq<Request>, answers: seq<Answer>, n: nat, sig: Sig)
    requires IsRun(journals, requests, answers) && n <= |requests|
    ensures Valid(journals[n]) && Project(journals[n], sig) == Fold(sig, requests[..n])
  {
    if n == 0 {
      assert Project(journals[0], sig) == Initial();
    } else {
      JournalIsFold(journals, requests, answers, n - 1, sig);
      assert Serves(journals, requests, answers, n - 1);
      ServeRefines(journals[n - 1], requests[n - 1], sig);
      assert requests[..n][..n - 1] == requests[..n - 1];
    }
  }

  /** Every answer is the one the machine of the signature concerned gives after the requests so far. */
  lemma AnswersAreTheMachines(journals: seq<Journal>, requests: seq<Request>, answers: seq<Answer>, n: nat, sig: Sig)
    requires IsRun(journals, requests, answers) && n < |requests|
    requires Concerns(Fold(sig, requests[..n]), sig, requests[n])
    ensures answers[n] == React(Fold(sig, requests[..n]), sig, requests[n]).1
  {
    JournalIsFold(journals, requests, answers, n, sig);
    assert Serves(journals, requests, answers, n);
    ServeRefines(journals[n], requests[n], sig);
  }
}
