/**
 The engine's operations, each run by one organisation on the shared stores, as operations behind the
 session cache. Every statement names its organisation, so an organisation reads and changes only its
 own rows; but the index on signatures and the undo positions are one for all organisations.
 */
module EngineOperations {
  import opened Types
  import opened EffectTables
  import opened EngineProtocol
  import opened EffectEngine
  import opened SessionCache
  import opened CachedEngine

  type Org = nat

  /** The tables of all organisations besides the sessions, and whose effect is whose. */
  datatype Shared = Shared(effects: map<Id, Effect>, undo: map<Slot, Id>, approvals: map<Id, Approval>, owner: map<Id, Org>)

  type World = Stores<Shared>

  /** The request of a client, with the identifiers, times and partition month it draws. */
  datatype Request =
    | InterceptRequest(call: Call, id: Id, approval: Id, autoApprove: bool, timeoutAt: int, month: nat)
    | ApproveRequest(approval: Id, args: Option<string>)
    | RejectRequest(approval: Id)
    | SweepRequest(now: int)
    | ExecutingRequest(id: Id)
    | CommitRequest(id: Id, result: string)
    | FailRequest(id: Id, error: string)

  datatype Response =
    | Intercepted(outcome: Outcome)
    | Approved(decision: Decision)
    | Rejected(error: Option<Error>)
    | Swept(count: nat)
    | Finished(ok: bool)

  /** How the database picks among the rows of a signature. */
  type Search = (Tables, nat) -> Option<Id>

  /** A request other than an intercept, against the rows of one organisation. */
  function Serve(db: Tables, r: Request): (Tables, Response)
    requires !r.InterceptRequest?
  {
    match r
    case ApproveRequest(approval, args) =>
      var (t, out) := ApproveCall(db, approval, args);
      (t, Response.Approved(out))
    case RejectRequest(approval) =>
      var (t, out) := RejectCall(db, approval);
      (t, Response.Rejected(out))
    case SweepRequest(now) =>
      var (t, out) := SweepCall(db, now);
      (t, Swept(out))
    case ExecutingRequest(id) =>
      var (t, out) := ExecutingCall(db, id);
      (t, Finished(out))
    case CommitRequest(id, result) =>
      var (t, out) := CommitCall(db, id, result);
      (t, Finished(out))
    case FailRequest(id, error) =>
      var (t, out) := FailCall(db, id, error);
      (t, Finished(out))
  }

  // ── Sessions ──────────────────────────────────────────────────────────────

  function Owned(sessions: Sessions, org: Org): map<Session, SessionState> {
    map id | id in sessions && sessions[id].org == org :: sessions[id].state
  }

  function Owning(states: map<Session, SessionState>, org: Org): Sessions {
    map id | id in states :: Row(org, states[id])
  }

  /** The rows of other organisations as they were, and the organisation's own rows as it leaves them. */
  function Merged(sessions: Sessions, org: Org, states: map<Session, SessionState>): Sessions {
    (map id | id in sessions && sessions[id].org != org :: sessions[id]) + Owning(states, org)
  }

  lemma MergeIsSeen(sessions: Sessions, org: Org, states: map<Session, SessionState>, other: Org)
    requires states.Keys == Owned(sessions, org).Keys
    ensures Owned(Merged(sessions, org, states), other) == if other == org then states else Owned(sessions, other)
  {
    var t := Merged(sessions, org, states);
    if other == org {
      assert Owned(t, org) == states;
    } else {
      forall id | id in Owned(sessions, other)
        ensures id in Owned(t, other) && Owned(t, other)[id] == Owned(sessions, other)[id]
      {
        assert id !in Owned(sessions, org).Keys;
      }
      assert Owned(t, other) == Owned(sessions, other);
    }
  }

  lemma MergeKeepsRows(sessions: Sessions, org: Org, states: map<Session, SessionState>)
    requires states.Keys == Owned(sessions, org).Keys
    ensures KeepsRows(sessions, Merged(sessions, org, states))
  {
    forall id | id in sessions
      ensures id in Merged(sessions, org, states) && Merged(sessions, org, states)[id].org == sessions[id].org
    {
      if sessions[id].org == org {
        assert id in Owned(sessions, org).Keys;
      } else {
        assert id !in Owned(sessions, org).Keys;
      }
    }
  }

  // ── The shared tables ─────────────────────────────────────────────────────

  predicate Mine(x: Shared, org: Org, id: Id) {
    id in x.owner && x.owner[id] == org
  }

  function OwnEffects(x: Shared, org: Org): map<Id, Effect> {
    map id | id in x.effects && Mine(x, org, id) :: x.effects[id]
  }

  function OwnUndo(x: Shared, org: Org): map<Slot, Id> {
    map slot | slot in x.undo && Mine(x, org, x.undo[slot]) :: x.undo[slot]
  }

  function OwnApprovals(x: Shared, org: Org): map<Id, Approval> {
    map a | a in x.approvals && Mine(x, org, x.approvals[a].effectId) :: x.approvals[a]
  }

  /** What an organisation sees. */
  function Own(st: World, org: Org): Tables {
    Tables(OwnEffects(st.other, org), OwnUndo(st.other, org), OwnApprovals(st.other, org), Owned(st.sessions, org))
  }

  /** What the indexes see when it inserts. */
  function All(st: World, org: Org): Tables {
    Tables(st.other.effects, st.other.undo, st.other.approvals, Owned(st.sessions, org))
  }

  /** Every row has an owner, and undo entries and approvals are for rows. */
  ghost predicate Sound(x: Shared) {
    && x.owner.Keys == x.effects.Keys
    && (forall slot :: slot in x.undo ==> x.undo[slot] in x.effects)
    && (forall a :: a in x.approvals ==> x.approvals[a].effectId in x.effects)
  }

  /** Updates of its own rows go back among the others'. */
  function Updating(st: World, org: Org, db: Tables): World {
    Stores(Merged(st.sessions, org, db.sessions),
           st.other.(effects := st.other.effects + db.effects, approvals := st.other.approvals + db.approvals))
  }

  /** A row that was inserted belongs to its organisation. */
  function Inserting(st: World, org: Org, db: Tables, id: Id): World {
    Stores(Merged(st.sessions, org, db.sessions),
           Shared(db.effects, db.undo, db.approvals,
                  if id in db.effects && id !in st.other.effects then st.other.owner[id := org] else st.other.owner))
  }

  /** The row of its own that a search by signature brings up. */
  function Found(search: Search, own: Tables, sig: nat): Option<Id> {
    var found := search(own, sig);
    if found.Some? && found.value in own.effects then found else None
  }

  function InterceptIn(db: Tables, r: Request, found: Option<Id>): (Tables, Outcome)
    requires r.InterceptRequest?
  {
    InterceptCall(db, r.call, r.id, r.approval, r.autoApprove, r.timeoutAt, r.month, found)
  }

  function ServeIn(st: World, org: Org, r: Request, search: Search): (World, Response) {
    if r.InterceptRequest? then
      var (db, out) := InterceptIn(All(st, org), r, Found(search, Own(st, org), r.call.sig));
      (Inserting(st, org, db, r.id), Intercepted(out))
    else
      var (db, out) := Serve(Own(st, org), r);
      (Updating(st, org, db), out)
  }

  /** An intercept opens its session first; the other operations do not. */
  function Operation(org: Org, r: Request, search: Search): Op<Shared, Response> {
    Op(if r.InterceptRequest? then Some(Key(org, r.call.session)) else None, (st: World) => ServeIn(st, org, r, search))
  }

  /** Opening the session is ensuring it, unless another organisation has its id: then nothing is created. */
  lemma OpeningIsEnsuring(st: World, org: Org, session: Session)
    ensures Own(st.(sessions := Opened(st.sessions, Key(org, session))), org)
            == (if session in st.sessions && st.sessions[session].org != org then Own(st, org) else EnsureSession(Own(st, org), session))
  {
    var key := Key(org, session);
    var ready := Opened(st.sessions, key);
    if session in st.sessions {
      assert ready == st.sessions;
      assert session in Owned(st.sessions, org) <==> st.sessions[session].org == org;
    } else {
      assert Owned(ready, org) == Owned(st.sessions, org)[session := Active];
    }
  }

  // ── What one operation does to the tables ─────────────────────────────────

  /** Same rows, same undo entries, same requests for the same effects, same sessions. */
  ghost predicate SameKeys(db: Tables, t: Tables) {
    && t.effects.Keys == db.effects.Keys && t.undo == db.undo && t.approvals.Keys == db.approvals.Keys
    && (forall a :: a in db.approvals ==> t.approvals[a].effectId == db.approvals[a].effectId)
    && t.sessions.Keys == db.sessions.Keys
  }

  lemma DecisionKeepsKeys(db: Tables, r: Request)
    requires r.ApproveRequest? || r.RejectRequest?
    ensures SameKeys(db, Serve(db, r).0)
  {
  }

  lemma SweepKeepsKeys(db: Tables, now: int)
    ensures SameKeys(db, Timeouts(db, now))
  {
  }

  lemma ServeKeepsKeys(db: Tables, r: Request)
    requires !r.InterceptRequest?
    ensures SameKeys(db, Serve(db, r).0)
  {
    if r.ApproveRequest? || r.RejectRequest? {
      DecisionKeepsKeys(db, r);
    } else if r.SweepRequest? {
      SweepKeepsKeys(db, r.now);
    }
  }

  ghost predicate AddsEffect(m: map<Id, Effect>, t: map<Id, Effect>, id: Id, found: Option<Id>) {
    && (forall x :: x in m ==> x in t && (t[x] == m[x] || found == Some(x)))
    && (forall x :: x in t && x !in m ==> x == id)
  }

  ghost predicate AddsUndo(m: map<Slot, Id>, t: map<Slot, Id>, id: Id, isNew: bool) {
    && (forall slot :: slot in m ==> slot in t && t[slot] == m[slot])
    && (forall slot :: slot in t && slot !in m ==> t[slot] == id && isNew)
  }

  ghost predicate AddsApproval(m: map<Id, Approval>, t: map<Id, Approval>, id: Id, isNew: bool) {
    && (forall a :: a in m ==> a in t && t[a] == m[a])
    && (forall a :: a in t && a !in m ==> t[a].effectId == id && isNew)
  }

  /** Only this row, this undo position and this request are added, and no row but the found one changes. */
  ghost predicate Adds(db: Tables, t: Tables, id: Id, found: Option<Id>) {
    var isNew := id !in db.effects && id in t.effects;
    && AddsEffect(db.effects, t.effects, id, found) && AddsUndo(db.undo, t.undo, id, isNew)
    && AddsApproval(db.approvals, t.approvals, id, isNew) && t.sessions.Keys == db.sessions.Keys
  }

  /** A compensable call that gets through leaves its row executing and its undo entry. */
  lemma RegisteredIs(db: Tables, call: Call, id: Id, month: nat)
    requires InsertEffect(db, id, call, month).Updated? && SlotOf(call) !in db.undo
    ensures InterceptCompensable(db, call, id, month).0
            == db.(effects := db.effects[id := Effect(call, Executing, call.args, None, 0, None, month)],
                   undo := db.undo[SlotOf(call) := id])
  {
  }

  lemma CompensableAdds(db: Tables, call: Call, id: Id, month: nat)
    ensures Adds(db, InterceptCompensable(db, call, id, month).0, id, None)
  {
    if InsertEffect(db, id, call, month).Updated? && SlotOf(call) !in db.undo {
      RegisteredIs(db, call, id, month);
    }
  }

  /** An irreversible call that gets through leaves its row, its request and its session suspended. */
  lemma FiledIs(db: Tables, call: Call, id: Id, approval: Id, request: Approval, month: nat)
    requires InsertEffect(db, id, call, month).Updated? && approval !in db.approvals
    ensures var t := LinkApproval(InsertEffect(db, id, call, month).db.(approvals := db.approvals[approval := request]), id, approval);
            t == db.(effects := db.effects[id := Effect(call, EffectState.Pending, call.args, None, 0, Some(approval), month)],
                     approvals := db.approvals[approval := request])
  {
  }

  lemma IrreversibleAdds(db: Tables, call: Call, id: Id, approval: Id, autoApprove: bool, timeoutAt: int, month: nat)
    ensures Adds(db, InterceptIrreversible(db, call, id, approval, autoApprove, timeoutAt, month).0, id, None)
  {
    if InsertEffect(db, id, call, month).Updated? && approval !in db.approvals {
      var request := Approval(id, call.session, call.args, ApprovalState.Pending, autoApprove, timeoutAt);
      FiledIs(db, call, id, approval, request, month);
      var t := db.(effects := db.effects[id := Effect(call, EffectState.Pending, call.args, None, 0, Some(approval), month)],
                   approvals := db.approvals[approval := request]);
      SuspendingAdds(db, t, id, call.session);
    }
  }

  lemma SuspendingAdds(db: Tables, t: Tables, id: Id, session: Session)
    requires Adds(db, t, id, None)
    ensures Adds(db, SetAwaitingApproval(t, session), id, None)
  {
  }

  lemma ReplayAdds(db: Tables, id: Id, row: Id)
    requires row in db.effects
    ensures Adds(db, MarkReplayed(db, row), id, Some(row))
  {
  }

  lemma AddsMore(db: Tables, t: Tables, id: Id, found: Option<Id>)
    requires Adds(db, t, id, None)
    ensures Adds(db, t, id, found)
  {
  }

  lemma InterceptAdds(db: Tables, r: Request, found: Option<Id>)
    requires r.InterceptRequest?
    ensures Adds(db, InterceptIn(db, r, found).0, r.id, found)
  {
    if found.Some? && found.value in db.effects {
      ReplayAdds(db, r.id, found.value);
    } else {
      match r.call.tier
      case Safe => assert Adds(db, db, r.id, None);
      case Compensable => CompensableAdds(db, r.call, r.id, r.month);
      case Irreversible => IrreversibleAdds(db, r.call, r.id, r.approval, r.autoApprove, r.timeoutAt, r.month);
      AddsMore(db, InterceptIn(db, r, found).0, r.id, found);
    }
  }

  // ── Every operation keeps the session rows and their owners ───────────────

  lemma OperationKeepsSessions(org: Org, r: Request, search: Search)
    ensures KeepsSessions(Operation(org, r, search))
  {
    forall st: World
      ensures KeepsRows(st.sessions, Operation(org, r, search).rest(st).0.sessions)
    {
      if r.InterceptRequest? {
        var found := Found(search, Own(st, org), r.call.sig);
        InterceptAdds(All(st, org), r, found);
        MergeKeepsRows(st.sessions, org, InterceptIn(All(st, org), r, found).0.sessions);
      } else {
        ServeKeepsKeys(Own(st, org), r);
        MergeKeepsRows(st.sessions, org, Serve(Own(st, org), r).0.sessions);
      }
    }
  }

  // ── Organisations among themselves ────────────────────────────────────────

  lemma UpdatingKeepsSound(x: Shared, org: Org, db: Tables, t: Tables)
    requires Sound(x) && SameKeys(db, t) && db.effects == OwnEffects(x, org) && db.approvals == OwnApprovals(x, org)
    ensures Sound(x.(effects := x.effects + t.effects, approvals := x.approvals + t.approvals))
  {
    assert (x.effects + t.effects).Keys == x.effects.Keys;
  }

  /** After updates of its own rows, an organisation sees them and the others see what they saw. */
  lemma UpdatingIsSeen(x: Shared, org: Org, db: Tables, t: Tables, other: Org)
    requires SameKeys(db, t) && db.effects == OwnEffects(x, org) && db.approvals == OwnApprovals(x, org)
    ensures var y := x.(effects := x.effects + t.effects, approvals := x.approvals + t.approvals);
            && OwnEffects(y, other) == (if other == org then t.effects else OwnEffects(x, other))
            && OwnUndo(y, other) == OwnUndo(x, other)
            && OwnApprovals(y, other) == (if other == org then t.approvals else OwnApprovals(x, other))
  {
    var y := x.(effects := x.effects + t.effects, approvals := x.approvals + t.approvals);
    UpdatedEffects(x, org, t.effects, other);
    UpdatedApprovals(x, org, t.approvals, other);
    assert OwnEffects(y, other) == OwnEffects(x.(effects := x.effects + t.effects), other);
    assert OwnApprovals(y, other) == OwnApprovals(x.(approvals := x.approvals + t.approvals), other);
    assert OwnUndo(y, other) == OwnUndo(x, other);
  }

  lemma UpdatedEffects(x: Shared, org: Org, effects: map<Id, Effect>, other: Org)
    requires effects.Keys == OwnEffects(x, org).Keys
    ensures OwnEffects(x.(effects := x.effects + effects), other) == if other == org then effects else OwnEffects(x, other)
  {
    var y := x.(effects := x.effects + effects);
    assert forall id :: id in effects <==> id in x.effects && Mine(x, org, id);
    if other == org {
      assert OwnEffects(y, org) == effects;
    } else {
      assert OwnEffects(y, other) == OwnEffects(x, other);
    }
  }

  lemma UpdatedApprovals(x: Shared, org: Org, approvals: map<Id, Approval>, other: Org)
    requires approvals.Keys == OwnApprovals(x, org).Keys
    requires forall a :: a in approvals ==> approvals[a].effectId == x.approvals[a].effectId
    ensures OwnApprovals(x.(approvals := x.approvals + approvals), other) == if other == org then approvals else OwnApprovals(x, other)
  {
    var y := x.(approvals := x.approvals + approvals);
    assert forall a :: a in approvals <==> a in x.approvals && Mine(x, org, x.approvals[a].effectId);
    if other == org {
      assert OwnApprovals(y, org) == approvals;
    } else {
      assert OwnApprovals(y, other) == OwnApprovals(x, other);
    }
  }

  ghost function Owners(x: Shared, org: Org, t: Tables, id: Id): map<Id, Org> {
    if id in t.effects && id !in x.effects then x.owner[id := org] else x.owner
  }

  lemma InsertingKeepsSound(x: Shared, org: Org, db: Tables, t: Tables, id: Id, found: Option<Id>)
    requires Sound(x) && db.effects == x.effects && db.undo == x.undo && db.approvals == x.approvals && Adds(db, t, id, found)
    ensures Sound(Shared(t.effects, t.undo, t.approvals, Owners(x, org, t, id)))
  {
    var owner := Owners(x, org, t, id);
    assert owner.Keys == t.effects.Keys;
  }

  /** Another organisation's rows stay its rows, and the new row is not one of them. */
  ghost predicate KeepsOthers(x: Shared, owner: map<Id, Org>, id: Id, isNew: bool, other: Org) {
    && (forall k :: k in x.owner ==> k in owner && (owner[k] == other <==> x.owner[k] == other))
    && (isNew ==> id in owner && owner[id] != other)
    && (forall k :: k in owner && k !in x.owner ==> owner[k] != other)
  }

  lemma OwnersKeepOthers(x: Shared, org: Org, t: Tables, id: Id, other: Org)
    requires Sound(x) && other != org
    ensures KeepsOthers(x, Owners(x, org, t, id), id, id !in x.effects && id in t.effects, other)
  {
  }

  lemma OthersEffects(x: Shared, y: Shared, org: Org, id: Id, found: Option<Id>, other: Org)
    requires Sound(x) && AddsEffect(x.effects, y.effects, id, found) && (found.Some? ==> Mine(x, org, found.value)) && other != org
    requires KeepsOthers(x, y.owner, id, id !in x.effects && id in y.effects, other)
    ensures OwnEffects(y, other) == OwnEffects(x, other)
  {
    forall k | k in OwnEffects(x, other)
      ensures k in OwnEffects(y, other) && OwnEffects(y, other)[k] == OwnEffects(x, other)[k]
    {
    }
    assert OwnEffects(y, other).Keys == OwnEffects(x, other).Keys;
  }

  lemma OthersUndo(x: Shared, y: Shared, id: Id, isNew: bool, other: Org)
    requires Sound(x) && AddsUndo(x.undo, y.undo, id, isNew) && KeepsOthers(x, y.owner, id, isNew, other)
    ensures OwnUndo(y, other) == OwnUndo(x, other)
  {
    assert OwnUndo(y, other).Keys == OwnUndo(x, other).Keys;
  }

  lemma OthersApprovals(x: Shared, y: Shared, id: Id, isNew: bool, other: Org)
    requires Sound(x) && AddsApproval(x.approvals, y.approvals, id, isNew) && KeepsOthers(x, y.owner, id, isNew, other)
    ensures OwnApprovals(y, other) == OwnApprovals(x, other)
  {
    assert OwnApprovals(y, other).Keys == OwnApprovals(x, other).Keys;
  }

  /** An intercept leaves what every other organisation sees as it was. */
  lemma InsertingSparesOthers(x: Shared, org: Org, db: Tables, t: Tables, id: Id, found: Option<Id>, other: Org)
    requires Sound(x) && db.effects == x.effects && db.undo == x.undo && db.approvals == x.approvals && Adds(db, t, id, found)
    requires (found.Some? ==> Mine(x, org, found.value)) && other != org
    ensures var y := Shared(t.effects, t.undo, t.approvals, Owners(x, org, t, id));
            OwnEffects(y, other) == OwnEffects(x, other) && OwnUndo(y, other) == OwnUndo(x, other)
            && OwnApprovals(y, other) == OwnApprovals(x, other)
  {
    var y := Shared(t.effects, t.undo, t.approvals, Owners(x, org, t, id));
    var isNew := id !in x.effects && id in t.effects;
    OwnersKeepOthers(x, org, t, id, other);
    OthersEffects(x, y, org, id, found, other);
    OthersUndo(x, y, id, isNew, other);
    OthersApprovals(x, y, id, isNew, other);
  }

  /** An operation of one organisation changes nothing that another one sees, and keeps the shared tables sound. */
  lemma OperationSparesOthers(st: World, org: Org, r: Request, search: Search, other: Org)
    requires Sound(st.other) && other != org
    ensures Sound(ServeIn(st, org, r, search).0.other)
    ensures Own(ServeIn(st, org, r, search).0, other) == Own(st, other)
  {
    if r.InterceptRequest? {
      InterceptSparesOthers(st, org, r, search, other);
    } else {
      var db := Own(st, org);
      var t := Serve(db, r).0;
      ServeKeepsKeys(db, r);
      UpdatingKeepsSound(st.other, org, db, t);
      UpdatingIsSeen(st.other, org, db, t, other);
      MergeIsSeen(st.sessions, org, t.sessions, other);
    }
  }

  lemma InterceptSparesOthers(st: World, org: Org, r: Request, search: Search, other: Org)
    requires Sound(st.other) && other != org && r.InterceptRequest?
    ensures Sound(ServeIn(st, org, r, search).0.other)
    ensures Own(ServeIn(st, org, r, search).0, other) == Own(st, other)
  {
    var found := Found(search, Own(st, org), r.call.sig);
    var db := All(st, org);
    var t := InterceptIn(db, r, found).0;
    InterceptAdds(db, r, found);
    InsertingKeepsSound(st.other, org, db, t, r.id, found);
    InsertingSparesOthers(st.other, org, db, t, r.id, found, other);
    MergeIsSeen(st.sessions, org, t.sessions, other);
  }

  /** Every operation but an intercept does to its organisation's rows what it would do if there were no other. */
  lemma UpdatesAsIfAlone(st: World, org: Org, r: Request, search: Search)
    requires Sound(st.other) && !r.InterceptRequest?
    ensures var (t, out) := ServeIn(st, org, r, search); (Own(t, org), out) == Serve(Own(st, org), r)
  {
    var db := Own(st, org);
    var t := Serve(db, r).0;
    ServeKeepsKeys(db, r);
    UpdatingIsSeen(st.other, org, db, t, org);
    MergeIsSeen(st.sessions, org, t.sessions, org);
  }

  // ── Where organisations meet ──────────────────────────────────────────────

  /** Another organisation's row has the signature in the month. */
  ghost predicate SignatureMet(x: Shared, org: Org, sig: nat, month: nat) {
    exists id :: id in x.effects && !Mine(x, org, id) && x.effects[id].call.sig == sig && x.effects[id].month == month
  }

  /** Another organisation's undo entry has the position. */
  predicate PositionMet(x: Shared, org: Org, slot: Slot) {
    slot in x.undo && !Mine(x, org, x.undo[slot])
  }

  /** The drawn identifiers are new. */
  predicate Drawn(x: Shared, r: Request)
    requires r.InterceptRequest?
  {
    r.id !in x.effects && r.approval !in x.approvals
  }

  /** The own outcome with the indexes of the organisation's own rows. */
  ghost function Alone(st: World, org: Org, r: Request, search: Search): Outcome
    requires r.InterceptRequest?
  {
    InterceptIn(Own(st, org), r, Found(search, Own(st, org), r.call.sig)).1
  }

  lemma TakenIff(x: Shared, org: Org, sig: nat, month: nat, db: Tables, own: Tables)
    requires db.effects == x.effects && own.effects == OwnEffects(x, org)
    ensures SignatureTaken(db, sig, month) <==> SignatureTaken(own, sig, month) || SignatureMet(x, org, sig, month)
  {
    if id :| id in x.effects && x.effects[id].call.sig == sig && x.effects[id].month == month {
      if Mine(x, org, id) {
        assert id in own.effects && own.effects[id].call.sig == sig;
      }
    }
    if id :| id in own.effects && own.effects[id].call.sig == sig && own.effects[id].month == month {
      assert id in db.effects && db.effects[id].call.sig == sig;
    }
  }

  /**
   A call that an organisation would be let through with on its own is refused as a duplicate exactly if
   another organisation has its signature in this month or, for a compensable call, its undo position.
   */
  lemma RefusedForOthersIff(st: World, org: Org, r: Request, search: Search)
    requires r.InterceptRequest? && Drawn(st.other, r) && Sound(st.other)
    requires Alone(st, org, r, search).Answered?
    ensures var out := ServeIn(st, org, r, search).1.outcome;
            && (out == Alone(st, org, r, search) || out == Failure(DuplicateKey))
            && (out == Failure(DuplicateKey) <==>
                  && Found(search, Own(st, org), r.call.sig).None? && !r.call.tier.Safe?
                  && (SignatureMet(st.other, org, r.call.sig, r.month)
                      || (r.call.tier.Compensable? && PositionMet(st.other, org, SlotOf(r.call)))))
  {
    var own, db := Own(st, org), All(st, org);
    TakenIff(st.other, org, r.call.sig, r.month, db, own);
    var slot := SlotOf(r.call);
    assert slot in own.undo <==> slot in db.undo && Mine(st.other, org, db.undo[slot]);
  }

  // ── The cache is invisible to the engine ──────────────────────────────────

  datatype Job = Job(org: Org, request: Request)

  function Operations(jobs: seq<Job>, search: Search): (ops: seq<Op<Shared, Response>>)
    ensures |ops| == |jobs|
    ensures forall i :: 0 <= i < |jobs| ==> ops[i] == Operation(jobs[i].org, jobs[i].request, search)
  {
    seq(|jobs|, i requires 0 <= i < |jobs| => Operation(jobs[i].org, jobs[i].request, search))
  }

  /**
   Any sequence of intercepts, approvals, rejections, timeout sweeps and reports of execution, result or
   failure, of any organisations: with the cache, whatever it evicts, expires or drops, and without it,
   every answer and every table is the same.
   */
  lemma EngineIgnoresCache(jobs: seq<Job>, search: Search, timings: seq<Timing>, config: Config,
                           stores: seq<World>, caches: seq<Entries>, outs: seq<Response>, plainStores: seq<World>, plainOuts: seq<Response>)
    requires CachedRun(Operations(jobs, search), timings, config, stores, caches, outs)
    requires PlainRun(Operations(jobs, search), plainStores, plainOuts) && stores[0] == plainStores[0]
    ensures outs == plainOuts && stores == plainStores
  {
    var ops := Operations(jobs, search);
    forall i | 0 <= i < |ops|
      ensures KeepsSessions(ops[i])
    {
      OperationKeepsSessions(jobs[i].org, jobs[i].request, search);
    }
    CacheIsInvisible(ops, timings, config, stores, caches, outs, plainStores, plainOuts);
  }
}
