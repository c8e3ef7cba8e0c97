/**
 The four tables the effect engine writes, and every guarded update it makes to them. An update whose
 guard fails is refused and leaves the tables as they were. One organisation is modelled.
 */
module EffectTables {
  import opened Types

  type Id = nat
  type Session = nat

  datatype Tier = Safe | Compensable | Irreversible

  datatype EffectState =
    Pending | Executing | Committed | Compensating | Compensated | CompensationFailed | Approved | Rejected | Replayed

  datatype ApprovalState = Pending | Approved | Rejected | TimedOut | AutoApproved

  /** A tool call as intercepted. The signature stands for session, step, tool and arguments together. */
  datatype Call = Call(sig: nat, session: Session, step: nat, tier: Tier, args: string)

  /** A row of the effect log. `month` is the monthly partition that holds it. */
  datatype Effect = Effect(
    call: Call, state: EffectState, args: string, result: Option<string>, replays: nat, approval: Option<Id>, month: nat)

  /** Undo rows are unique per session and stack position. */
  datatype Slot = Slot(session: Session, position: nat)

  datatype Approval = Approval(
    effectId: Id, session: Session, args: string, state: ApprovalState, autoApprove: bool, timeoutAt: int)

  datatype Tables = Tables(
    effects: map<Id, Effect>, undo: map<Slot, Id>, approvals: map<Id, Approval>, sessions: map<Session, SessionState>)

  datatype Error = DuplicateKey | InvalidStateTransition | NotExecuting | ApprovalNotFound | ApprovalAlreadyResolved

  datatype Update = Updated(db: Tables) | Refused(error: Error)

  function SlotOf(call: Call): Slot {
    Slot(call.session, call.step)
  }

  predicate HasState(db: Tables, id: Id, state: EffectState) {
    id in db.effects && db.effects[id].state == state
  }

  function WithState(db: Tables, id: Id, state: EffectState): Tables
    requires id in db.effects
  {
    db.(effects := db.effects[id := db.effects[id].(state := state)])
  }

  // ── Sessions ──────────────────────────────────────────────────────────────

  /** The first intercept of a session creates it. */
  function EnsureSession(db: Tables, session: Session): Tables {
    if session in db.sessions then db else db.(sessions := db.sessions[session := Active])
  }

  predicate SessionIs(db: Tables, session: Session, state: SessionState) {
    session in db.sessions && db.sessions[session] == state
  }

  function SetAwaitingApproval(db: Tables, session: Session): Tables {
    if SessionIs(db, session, Active) then db.(sessions := db.sessions[session := AwaitingApproval]) else db
  }

  function SetActive(db: Tables, session: Session): Update {
    if SessionIs(db, session, AwaitingApproval) then Updated(db.(sessions := db.sessions[session := Active]))
    else Refused(InvalidStateTransition)
  }

  function SetHalted(db: Tables, session: Session): Tables {
    if session in db.sessions then db.(sessions := db.sessions[session := Halted]) else db
  }

  // ── Effect log and undo stack ─────────────────────────────────────────────

  /** Some row in the month's partition has the signature. */
  predicate SignatureTaken(db: Tables, sig: nat, month: nat) {
    exists id :: id in db.effects && db.effects[id].call.sig == sig && db.effects[id].month == month
  }

  function InsertEffect(db: Tables, id: Id, call: Call, month: nat): Update {
    if id in db.effects || SignatureTaken(db, call.sig, month) then Refused(DuplicateKey)
    else Updated(db.(effects := db.effects[id := Effect(call, EffectState.Pending, call.args, None, 0, None, month)]))
  }

  function PushUndo(db: Tables, slot: Slot, id: Id): Update {
    if slot in db.undo then Refused(DuplicateKey) else Updated(db.(undo := db.undo[slot := id]))
  }

  function SetExecuting(db: Tables, id: Id): Update {
    if HasState(db, id, EffectState.Pending) then Updated(WithState(db, id, Executing)) else Refused(InvalidStateTransition)
  }

  predicate MayFinish(db: Tables, id: Id) {
    HasState(db, id, Executing) || HasState(db, id, EffectState.Approved)
  }

  /** Committing an id without a row is accepted and changes nothing: Safe calls have no row. */
  function CommitEffect(db: Tables, id: Id, result: string): Update {
    if MayFinish(db, id) then
      Updated(db.(effects := db.effects[id := db.effects[id].(state := Committed, result := Some(result))]))
    else if id !in db.effects then Updated(db)
    else Refused(NotExecuting)
  }

  /** A failed call goes back to pending, keeping the error as its result. */
  function FailEffect(db: Tables, id: Id, error: string): Update {
    if MayFinish(db, id) then
      Updated(db.(effects := db.effects[id := db.effects[id].(state := EffectState.Pending, result := Some(error))]))
    else if id !in db.effects then Updated(db)
    else Refused(NotExecuting)
  }

  /** Serving a duplicate overwrites whatever state the row is in. */
  function MarkReplayed(db: Tables, id: Id): Tables {
    if id !in db.effects then db
    else db.(effects := db.effects[id := db.effects[id].(state := Replayed, replays := db.effects[id].replays + 1)])
  }

  function MarkCompensationFailed(db: Tables, id: Id): Tables {
    if id !in db.effects then db else WithState(db, id, CompensationFailed)
  }

  function LinkApproval(db: Tables, id: Id, approval: Id): Tables {
    if id !in db.effects then db else db.(effects := db.effects[id := db.effects[id].(approval := Some(approval))])
  }

  function ApproveEffect(db: Tables, id: Id): Update {
    if HasState(db, id, EffectState.Pending) then Updated(WithState(db, id, EffectState.Approved))
    else Refused(InvalidStateTransition)
  }

  function RejectEffect(db: Tables, id: Id): Update {
    if HasState(db, id, EffectState.Pending) then Updated(WithState(db, id, EffectState.Rejected))
    else Refused(InvalidStateTransition)
  }

  function UpdateArgs(db: Tables, id: Id, args: string): Update {
    if HasState(db, id, EffectState.Approved) then Updated(db.(effects := db.effects[id := db.effects[id].(args := args)]))
    else Refused(InvalidStateTransition)
  }

  // ── Approval requests ─────────────────────────────────────────────────────

  function CreateApproval(db: Tables, id: Id, approval: Approval): Update {
    if id in db.approvals then Refused(DuplicateKey) else Updated(db.(approvals := db.approvals[id := approval]))
  }

  predicate IsPending(db: Tables, approval: Id) {
    approval in db.approvals && db.approvals[approval].state.Pending?
  }

  function ResolveApproval(db: Tables, approval: Id, state: ApprovalState): Update {
    if IsPending(db, approval) then
      Updated(db.(approvals := db.approvals[approval := db.approvals[approval].(state := state)]))
    else Refused(ApprovalAlreadyResolved)
  }

  predicate TimesOut(a: Approval, now: int) {
    a.state.Pending? && a.timeoutAt < now
  }

  function TimeoutState(a: Approval): ApprovalState {
    if a.autoApprove then AutoApproved else TimedOut
  }

  function Due(db: Tables, now: int): set<Id> {
    set id | id in db.approvals && TimesOut(db.approvals[id], now)
  }

  /** One sweep of the timeout task: exactly the pending requests past their time are resolved. */
  function Timeouts(db: Tables, now: int): Tables {
    db.(approvals := map id | id in db.approvals ::
      if TimesOut(db.approvals[id], now) then db.approvals[id].(state := TimeoutState(db.approvals[id]))
      else db.approvals[id])
  }

  // ── Decisions: what approving and rejecting do to the three tables at once ──

  /** The request and its effect are still open. */
  predicate Undecided(db: Tables, approval: Id) {
    IsPending(db, approval) && HasState(db, db.approvals[approval].effectId, EffectState.Pending)
  }

  predicate CanApprove(db: Tables, approval: Id) {
    Undecided(db, approval) && SessionIs(db, db.approvals[approval].session, AwaitingApproval)
  }

  function ApprovedArgs(a: Approval, e: Effect, args: Option<string>): string {
    if args.Some? && args.value != a.args then args.value else e.args
  }

  /** Request approved, effect approved with the approver's arguments, session active again. */
  function Approving(db: Tables, approval: Id, args: Option<string>): Tables
    requires CanApprove(db, approval)
  {
    var a := db.approvals[approval];
    var e := db.effects[a.effectId];
    db.(approvals := db.approvals[approval := a.(state := ApprovalState.Approved)],
        effects := db.effects[a.effectId := e.(state := EffectState.Approved, args := ApprovedArgs(a, e, args))],
        sessions := db.sessions[a.session := Active])
  }

  /** Request rejected, effect rejected, session halted in whatever state it was. */
  function Rejecting(db: Tables, approval: Id): Tables
    requires Undecided(db, approval)
  {
    var a := db.approvals[approval];
    SetHalted(db.(approvals := db.approvals[approval := a.(state := ApprovalState.Rejected)],
                  effects := db.effects[a.effectId := db.effects[a.effectId].(state := EffectState.Rejected)]),
              a.session)
  }

  function ApproveTx(db: Tables, approval: Id, args: Option<string>): Tables {
    if CanApprove(db, approval) then Approving(db, approval, args) else db
  }

  function RejectTx(db: Tables, approval: Id): Tables {
    if Undecided(db, approval) then Rejecting(db, approval) else db
  }
}
