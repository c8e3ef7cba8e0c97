/**
 The engine's operations as they are written: sequences of guarded updates on the shared tables, with
 approve and reject as transactions and the timeout sweep as a loop. An uninterrupted intercept is
 shown to be one schedule of EngineProtocol, so what holds of every interleaving holds of it.
 */
module EffectEngine {
  import opened Types
  import opened EffectTables
  import opened EngineProtocol
  import opened EngineGuarantees

  datatype Outcome = Answered(answer: Answer) | Failure(error: Error)

  datatype Decision = Decided(effectId: Id, session: Session, args: string) | Denied(error: Error)

  // ── One uninterrupted operation as a function of the tables ───────────────

  /** What a search by signature may return. */
  ghost predicate IsSearchResult(db: Tables, sig: nat, found: Option<Id>) {
    && (found.Some? ==> found.value in db.effects && db.effects[found.value].call.sig == sig)
    && (found.None? ==> forall id :: id in db.effects ==> db.effects[id].call.sig != sig)
  }

  function InterceptCompensable(db: Tables, call: Call, id: Id, month: nat): (Tables, Outcome) {
    var inserted := InsertEffect(db, id, call, month);
    if inserted.Refused? then (db, Failure(DuplicateKey))
    else
      var pushed := PushUndo(inserted.db, SlotOf(call), id);
      if pushed.Refused? then (inserted.db, Failure(DuplicateKey))
      else (Or(SetExecuting(pushed.db, id), pushed.db), Answered(Execute(id)))
  }

  function InterceptIrreversible(db: Tables, call: Call, id: Id, approval: Id, autoApprove: bool, timeoutAt: int, month: nat)
    : (Tables, Outcome)
  {
    var inserted := InsertEffect(db, id, call, month);
    if inserted.Refused? then (db, Failure(DuplicateKey))
    else
      var request := Approval(id, call.session, call.args, ApprovalState.Pending, autoApprove, timeoutAt);
      var filed := CreateApproval(inserted.db, approval, request);
      if filed.Refused? then (inserted.db, Failure(DuplicateKey))
      else (SetAwaitingApproval(LinkApproval(filed.db, id, approval), call.session), Answered(AwaitApproval(id, approval)))
  }

  /** An intercept once its session is ensured and the search has returned `found`. */
  function InterceptCall(db: Tables, call: Call, id: Id, approval: Id, autoApprove: bool, timeoutAt: int, month: nat, found: Option<Id>)
    : (Tables, Outcome)
  {
    if found.Some? && found.value in db.effects then
      (MarkReplayed(db, found.value), Answered(Replay(found.value, db.effects[found.value].result)))
    else
      match call.tier
      case Safe => (db, Answered(Execute(id)))
      case Compensable => InterceptCompensable(db, call, id, month)
      case Irreversible => InterceptIrreversible(db, call, id, approval, autoApprove, timeoutAt, month)
  }

  function NotPending(db: Tables, approval: Id): Error {
    if approval !in db.approvals then ApprovalNotFound
    else if IsPending(db, approval) then InvalidStateTransition
    else ApprovalAlreadyResolved
  }

  function ApproveCall(db: Tables, approval: Id, args: Option<string>): (Tables, Decision) {
    (ApproveTx(db, approval, args),
     if CanApprove(db, approval) then
       var a := db.approvals[approval];
       Decided(a.effectId, a.session, if args.Some? then args.value else a.args)
     else Denied(NotPending(db, approval)))
  }

  function RejectCall(db: Tables, approval: Id): (Tables, Option<Error>) {
    (RejectTx(db, approval), if Undecided(db, approval) then None else Some(NotPending(db, approval)))
  }

  function SweepCall(db: Tables, now: int): (Tables, nat) {
    (Timeouts(db, now), |Due(db, now)|)
  }

  function ExecutingCall(db: Tables, id: Id): (Tables, bool) {
    (Or(SetExecuting(db, id), db), HasState(db, id, EffectState.Pending))
  }

  function CommitCall(db: Tables, id: Id, result: string): (Tables, bool) {
    (Or(CommitEffect(db, id, result), db), id !in db.effects || MayFinish(db, id))
  }

  function FailCall(db: Tables, id: Id, error: string): (Tables, bool) {
    (Or(FailEffect(db, id, error), db), id !in db.effects || MayFinish(db, id))
  }

  // ── Steps of one intercept in a row ───────────────────────────────────────

  /** Consecutive steps, all of them made by intercept c. */
  ghost predicate IsPath(states: seq<World>, steps: seq<Step>, c: Caller) {
    && |states| == |steps| + 1
    && forall i {:trigger Takes(states, steps, i)} :: 0 <= i < |steps| ==> Takes(states, steps, i) && Mover(steps[i]) == Some(c)
  }

  /** A path from `from` to `to`. */
  ghost predicate Leads(from: World, to: World, c: Caller) {
    exists states, steps :: IsPath(states, steps, c) && states[0] == from && states[|steps|] == to
  }

  lemma LeadsNowhere(s: World, c: Caller)
    ensures Leads(s, s, c)
  {
    assert IsPath([s], [], c);
  }

  lemma PathExtends(states: seq<World>, steps: seq<Step>, c: Caller, step: Step)
    requires IsPath(states, steps, c) && Enabled(states[|steps|], step) && Mover(step) == Some(c)
    ensures IsPath(states + [Next(states[|steps|], step)], steps + [step], c)
  {
    var t := Next(states[|steps|], step);
    var states', steps' := states + [t], steps + [step];
    forall i {:trigger Takes(states', steps', i)} | 0 <= i < |steps'|
      ensures Takes(states', steps', i) && Mover(steps'[i]) == Some(c)
    {
      assert states'[i] == states[i];
      if i < |steps| {
        assert Takes(states, steps, i);
        assert states'[i + 1] == states[i + 1] && steps'[i] == steps[i];
      } else {
        assert states'[i + 1] == t && steps'[i] == step;
      }
    }
  }

  lemma LeadsOn(from: World, s: World, c: Caller, step: Step)
    requires Leads(from, s, c) && Enabled(s, step) && Mover(step) == Some(c)
    ensures Leads(from, Next(s, step), c)
  {
    var states, steps :| IsPath(states, steps, c) && states[0] == from && states[|steps|] == s;
    PathExtends(states, steps, c, step);
    var states' := states + [Next(s, step)];
    assert states'[0] == from && states'[|steps + [step]|] == Next(s, step);
  }

  /** What one intercept does in a row can be appended to any run. */
  lemma PathStaysReachable(from: World, to: World, c: Caller)
    requires Reachable(from) && Leads(from, to, c)
    ensures Reachable(to)
  {
    var states, steps :| IsPath(states, steps, c) && states[0] == from && states[|steps|] == to;
    PrefixReachable(states, steps, c, |steps|);
  }

  lemma {:induction false} PrefixReachable(states: seq<World>, steps: seq<Step>, c: Caller, n: nat)
    requires IsPath(states, steps, c) && Reachable(states[0]) && n < |states|
    ensures Reachable(states[n])
  {
    if n > 0 {
      PrefixReachable(states, steps, c, n - 1);
      assert Takes(states, steps, n - 1);
      ReachNext(states[n - 1], steps[n - 1]);
    }
  }

  /** One more statement, with its result spelled out. */
  lemma LeadsTo(from: World, s: World, c: Caller, step: Step, t: World)
    requires Leads(from, s, c) && At(s, c) && Mover(step) == Some(c) && !step.Arrive? && !step.FindNone?
    requires Fits(s.pcs[c], step) && Sees(s, s.calls[c].sig, step)
    requires t == Moved(s, c, Inside(s.db, s.calls[c], s.pcs[c], s.month, step), After(s.db, s.calls[c], s.pcs[c], step))
    ensures Leads(from, t, c)
  {
    LeadsOn(from, s, c, step);
  }

  lemma LeadsToDrawn(from: World, s: World, c: Caller, id: Id)
    requires Leads(from, s, c) && At(s, c) && s.pcs[c] == Searching && id !in s.issued
    requires forall row :: row in s.db.effects ==> s.db.effects[row].call.sig != s.calls[c].sig
    ensures Leads(from, s.(pcs := s.pcs[c := if s.calls[c].tier.Safe? then Done(Execute(id)) else Routed(id)],
                           issued := s.issued[id := c]), c)
  {
    LeadsOn(from, s, c, FindNone(c, id));
  }

  lemma LeadsToSearch(from: World, c: Caller, call: Call)
    requires c !in from.pcs && c !in from.calls
    ensures Leads(from, from.(db := EnsureSession(from.db, call.session), calls := from.calls[c := call],
                              pcs := from.pcs[c := Searching]), c)
  {
    LeadsNowhere(from, c);
    LeadsOn(from, from, c, Arrive(c, call));
    var s := Next(from, Arrive(c, call));
    LeadsOn(from, s, c, OpenSession(c));
    assert Next(s, OpenSession(c)).pcs == from.pcs[c := Searching];
  }

  function Ending(r: Outcome): Pc {
    if r.Answered? then Done(r.answer) else Erred
  }

  class Engine {
    var db: Tables
    var month: nat

    constructor (sessions: map<Session, SessionState>, month: nat)
      ensures db == Tables(map[], map[], map[], sessions) && this.month == month
    {
      db := Tables(map[], map[], map[], sessions);
      this.month := month;
    }

    /** Log a compensable call, register its undo entry, and only then mark it executing. */
    method RegisterCompensable(call: Call, id: Id, ghost from: World, ghost s: World, ghost c: Caller)
      returns (r: Outcome, ghost t: World)
      requires Leads(from, s, c) && s.db == db && s.month == month && At(s, c)
      requires s.calls[c] == call && call.tier.Compensable? && s.pcs[c] == Routed(id)
      modifies this`db
      ensures Leads(from, t, c) && t.db == db && t.month == month && t.calls == s.calls && t.pcs == s.pcs[c := Ending(r)]
      ensures r == Answered(Execute(id)) || r == Failure(DuplicateKey)
      ensures (db, r) == InterceptCompensable(old(db), call, id, month)
      ensures db.sessions == old(db).sessions
      ensures r.Answered? <==> InsertEffect(old(db), id, call, month).Updated? && SlotOf(call) !in old(db).undo
      ensures r.Answered? ==>
                db == old(db).(effects := old(db).effects[id := Effect(call, Executing, call.args, None, 0, None, month)],
                               undo := old(db).undo[SlotOf(call) := id])
    {
      var registered;
      registered, t := RegisterUndo(call, id, from, s, c);
      if !registered {
        return Failure(DuplicateKey), t;
      }
      ghost var s1 := t;
      var u := SetExecuting(db, id);
      t := Moved(s1, c, u, Done(Execute(id)));
      LeadsTo(from, s1, c, Start(c), t);
      db := u.db;
      r := Answered(Execute(id));
      assert t.pcs == s.pcs[c := Ending(r)];
      assert db.effects == old(db).effects[id := Effect(call, Executing, call.args, None, 0, None, month)];
    }

    /** Log the call and push its undo entry; false if its signature or its undo position is taken. */
    method RegisterUndo(call: Call, id: Id, ghost from: World, ghost s: World, ghost c: Caller)
      returns (registered: bool, ghost t: World)
      requires Leads(from, s, c) && s.db == db && s.month == month && At(s, c)
      requires s.calls[c] == call && call.tier.Compensable? && s.pcs[c] == Routed(id)
      modifies this`db
      ensures Leads(from, t, c) && t.db == db && t.month == month && t.calls == s.calls
      ensures t.pcs == s.pcs[c := if registered then Starting(id) else Erred] && db.sessions == old(db).sessions
      ensures registered <==> InsertEffect(old(db), id, call, month).Updated? && SlotOf(call) !in old(db).undo
      ensures !registered ==> db == InterceptCompensable(old(db), call, id, month).0
      ensures registered ==>
                db == old(db).(effects := old(db).effects[id := Effect(call, EffectState.Pending, call.args, None, 0, None, month)],
                               undo := old(db).undo[SlotOf(call) := id])
    {
      var u := InsertEffect(db, id, call, month);
      t := Moved(s, c, u, Pushing(id));
      LeadsTo(from, s, c, Insert(c), t);
      if u.Refused? {
        return false, t;
      }
      db := u.db;
      ghost var s1 := t;
      u := PushUndo(db, SlotOf(call), id);
      t := Moved(s1, c, u, Starting(id));
      LeadsTo(from, s1, c, Push(c), t);
      registered := u.Updated?;
      if registered {
        db := u.db;
      }
      assert t.pcs == s.pcs[c := if registered then Starting(id) else Erred];
    }

    /** Log an irreversible call, file its approval request, link the two and suspend the session. */
    method RequestApproval(call: Call, id: Id, approval: Id, autoApprove: bool, timeoutAt: int,
                           ghost from: World, ghost s: World, ghost c: Caller)
      returns (r: Outcome, ghost t: World)
      requires Leads(from, s, c) && s.db == db && s.month == month && At(s, c) && approval !in db.approvals
      requires s.calls[c] == call && call.tier.Irreversible? && s.pcs[c] == Routed(id)
      modifies this`db
      ensures Leads(from, t, c) && t.db == db && t.month == month && t.calls == s.calls && t.pcs == s.pcs[c := Ending(r)]
      ensures r == Answered(AwaitApproval(id, approval)) || r == Failure(DuplicateKey)
      ensures r.Failure? ==> db == old(db)
      ensures r.Answered? <==> InsertEffect(old(db), id, call, month).Updated?
      ensures r.Answered? ==>
                && db.effects == old(db).effects[id := Effect(call, EffectState.Pending, call.args, None, 0, Some(approval), month)]
                && db.approvals == old(db).approvals[approval := Approval(id, call.session, call.args, ApprovalState.Pending,
                                                                          autoApprove, timeoutAt)]
                && db.undo == old(db).undo
      ensures r.Answered? ==>
                db.sessions == SetAwaitingApproval(old(db), call.session).sessions
      ensures (db, r) == InterceptIrreversible(old(db), call, id, approval, autoApprove, timeoutAt, month)
    {
      var filed;
      filed, t := FileRequest(call, id, approval, autoApprove, timeoutAt, from, s, c);
      if !filed {
        return Failure(DuplicateKey), t;
      }
      t := Suspend(call, id, approval, from, t, c);
      r := Answered(AwaitApproval(id, approval));
      assert t.pcs == s.pcs[c := Ending(r)];
      assert db.effects == old(db).effects[id := Effect(call, EffectState.Pending, call.args, None, 0, Some(approval), month)];
    }

    /** Log the call and file its request; false if the signature is taken in this month. */
    method FileRequest(call: Call, id: Id, approval: Id, autoApprove: bool, timeoutAt: int,
                       ghost from: World, ghost s: World, ghost c: Caller)
      returns (filed: bool, ghost t: World)
      requires Leads(from, s, c) && s.db == db && s.month == month && At(s, c) && approval !in db.approvals
      requires s.calls[c] == call && call.tier.Irreversible? && s.pcs[c] == Routed(id)
      modifies this`db
      ensures Leads(from, t, c) && t.db == db && t.month == month && t.calls == s.calls
      ensures t.pcs == s.pcs[c := if filed then Linking(id, approval) else Erred]
      ensures filed <==> InsertEffect(old(db), id, call, month).Updated?
      ensures db == if !filed then old(db)
                    else old(db).(effects := old(db).effects[id := Effect(call, EffectState.Pending, call.args, None, 0, None, month)],
                                  approvals := old(db).approvals[approval := Approval(id, call.session, call.args, ApprovalState.Pending,
                                                                                      autoApprove, timeoutAt)])
    {
      var u := InsertEffect(db, id, call, month);
      t := Moved(s, c, u, Asking(id));
      LeadsTo(from, s, c, Insert(c), t);
      if u.Refused? {
        return false, t;
      }
      db := u.db;
      ghost var s1 := t;
      u := CreateApproval(db, approval, Approval(id, call.session, call.args, ApprovalState.Pending, autoApprove, timeoutAt));
      t := Moved(s1, c, u, Linking(id, approval));
      LeadsTo(from, s1, c, Ask(c, approval, autoApprove, timeoutAt), t);
      db := u.db;
      filed := true;
      assert t.pcs == s.pcs[c := Linking(id, approval)];
    }

    method Suspend(call: Call, id: Id, approval: Id, ghost from: World, ghost s: World, ghost c: Caller) returns (ghost t: World)
      requires Leads(from, s, c) && s.db == db && At(s, c) && s.calls[c] == call && s.pcs[c] == Linking(id, approval)
      requires id in db.effects
      modifies this`db
      ensures Leads(from, t, c) && t.db == db && t.month == s.month && t.calls == s.calls
      ensures t.pcs == s.pcs[c := Done(AwaitApproval(id, approval))]
      ensures db.effects == old(db).effects[id := old(db).effects[id].(approval := Some(approval))]
      ensures db.approvals == old(db).approvals && db.undo == old(db).undo
      ensures db.sessions == SetAwaitingApproval(old(db), call.session).sessions
    {
      db := LinkApproval(db, id, approval);
      t := s.(db := db, pcs := s.pcs[c := Suspending(id, approval)]);
      LeadsTo(from, s, c, Link(c), t);
      ghost var s1 := t;
      db := SetAwaitingApproval(db, call.session);
      t := s1.(db := db, pcs := s1.pcs[c := Done(AwaitApproval(id, approval))]);
      LeadsTo(from, s1, c, EngineProtocol.Suspend(c), t);
    }

    /** Any row with the signature, if there is one. */
    method FindBySignature(sig: nat) returns (row: Option<Id>)
      ensures row.Some? ==> row.value in db.effects && db.effects[row.value].call.sig == sig
      ensures row.None? ==> forall id :: id in db.effects ==> db.effects[id].call.sig != sig
    {
      var rows := set id | id in db.effects && db.effects[id].call.sig == sig;
      if rows == {} {
        row := None;
        assert forall id :: id in db.effects && db.effects[id].call.sig == sig ==> id in rows;
      } else {
        var id :| id in rows;
        row := Some(id);
      }
    }

    /** No row has the signature: draw an id and treat the call by its tier. */
    method RouteByTier(call: Call, id: Id, approval: Id, autoApprove: bool, timeoutAt: int,
                       ghost from: World, ghost s: World, ghost c: Caller)
      returns (r: Outcome, ghost t: World)
      requires Leads(from, s, c) && s.db == db && s.month == month && At(s, c) && s.calls[c] == call && s.pcs[c] == Searching
      requires id !in s.issued && approval !in db.approvals
      requires forall row :: row in db.effects ==> db.effects[row].call.sig != call.sig
      modifies this`db
      ensures Leads(from, t, c) && t.db == db && t.month == month && t.calls == s.calls && t.pcs == s.pcs[c := Ending(r)]
      ensures r.Answered? ==> !r.answer.Replay?
      ensures (db, r) == InterceptCall(old(db), call, id, approval, autoApprove, timeoutAt, month, None)
      ensures db.sessions == old(db).sessions || db.sessions == old(db).sessions[call.session := AwaitingApproval]
    {
      LeadsToDrawn(from, s, c, id);
      ghost var pc := if call.tier.Safe? then Done(Execute(id)) else Routed(id);
      t := s.(pcs := s.pcs[c := pc], issued := s.issued[id := c]);
      match call.tier
      case Safe => r := Answered(Execute(id));
      case Compensable => r, t := RegisterCompensable(call, id, from, t, c);
      case Irreversible => r, t := RequestApproval(call, id, approval, autoApprove, timeoutAt, from, t, c);
      assert t.pcs == s.pcs[c := Ending(r)];
    }

    /** Serve a duplicate from the row that was found. */
    method ReplayRow(row: Id, ghost from: World, ghost s: World, ghost c: Caller) returns (ghost t: World)
      requires Leads(from, s, c) && s.db == db && At(s, c) && s.pcs[c] == Searching
      requires row in db.effects && db.effects[row].call.sig == s.calls[c].sig
      modifies this`db
      ensures Leads(from, t, c) && t.db == db && t.month == s.month && t.calls == s.calls
      ensures t.pcs == s.pcs[c := Done(Replay(row, old(db).effects[row].result))] && db == MarkReplayed(old(db), row)
    {
      t := Replays(from, s, c, row);
      db := MarkReplayed(db, row);
    }

    /** The intercept once its session is ensured: search, then replay or route. */
    method InterceptOpened(call: Call, id: Id, approval: Id, autoApprove: bool, timeoutAt: int, ghost from: World, ghost s: World, ghost c: Caller)
      returns (r: Outcome, ghost t: World, ghost found: Option<Id>)
      requires Leads(from, s, c) && s.db == db && s.month == month && At(s, c) && s.calls[c] == call && s.pcs[c] == Searching
      requires id !in s.issued && approval !in db.approvals
      modifies this`db
      ensures Leads(from, t, c) && t.db == db && t.month == month && t.calls == s.calls && t.pcs == s.pcs[c := Ending(r)]
      ensures IsSearchResult(old(db), call.sig, found) && (found.Some? <==> r.Answered? && r.answer.Replay?)
      ensures (db, r) == InterceptCall(old(db), call, id, approval, autoApprove, timeoutAt, month, found)
      ensures db.sessions == old(db).sessions || db.sessions == old(db).sessions[call.session := AwaitingApproval]
    {
      var row := FindBySignature(call.sig);
      found := row;
      if row.Some? {
        r := Answered(Replay(row.value, db.effects[row.value].result));
        t := ReplayRow(row.value, from, s, c);
      } else {
        r, t := RouteByTier(call, id, approval, autoApprove, timeoutAt, from, s, c);
      }
    }

    /**
     Intercept a call. The ghost world holds the other intercepts; this one is run from start to end
     without interruption, and its statements are exactly the steps of one caller of the protocol.
     */
    method Intercept(call: Call, id: Id, approval: Id, autoApprove: bool, timeoutAt: int, ghost from: World, ghost c: Caller)
      returns (r: Outcome, ghost to: World, ghost found: Option<Id>)
      requires from.db == db && from.month == month && c !in from.pcs && c !in from.calls
      requires id !in from.issued && approval !in db.approvals
      modifies this`db
      ensures Leads(from, to, c) && to.db == db && to.month == month
      ensures to.calls == from.calls[c := call] && to.pcs == from.pcs[c := Ending(r)]
      ensures IsSearchResult(old(db), call.sig, found) && (found.Some? <==> r.Answered? && r.answer.Replay?)
      ensures (db, r) == InterceptCall(EnsureSession(old(db), call.session), call, id, approval, autoApprove, timeoutAt, month, found)
      ensures call.session in db.sessions
      ensures forall x :: x in old(db).sessions && x != call.session ==> x in db.sessions && db.sessions[x] == old(db).sessions[x]
    {
      db := EnsureSession(db, call.session);
      ghost var s := from.(db := db, calls := from.calls[c := call], pcs := from.pcs[c := Searching]);
      LeadsToSearch(from, c, call);
      r, to, found := InterceptOpened(call, id, approval, autoApprove, timeoutAt, from, s, c);
      assert to.pcs == from.pcs[c := Ending(r)];
    }

    /** Approve: load the request, then resolve it, move the effect, record changed arguments and resume the session in one transaction. */
    method Approve(approval: Id, args: Option<string>) returns (r: Decision)
      modifies this`db
      ensures (db, r) == ApproveCall(old(db), approval, args)
      ensures r.Decided? <==> CanApprove(old(db), approval)
      ensures r.Decided? ==> r.effectId == old(db).approvals[approval].effectId && r.session == old(db).approvals[approval].session
      ensures r.Decided? ==> r.args == if args.Some? then args.value else old(db).approvals[approval].args
      ensures r.Denied? ==> r.error == if approval !in old(db).approvals then ApprovalNotFound
                                       else if IsPending(old(db), approval) then InvalidStateTransition
                                       else ApprovalAlreadyResolved
    {
      if approval !in db.approvals {
        return Denied(ApprovalNotFound);
      }
      var a := db.approvals[approval];
      var resolved := if args.Some? then args.value else a.args;
      var tx := ResolveApproval(db, approval, ApprovalState.Approved);
      if tx.Refused? {
        return Denied(tx.error);
      }
      tx := ApproveEffect(tx.db, a.effectId);
      if tx.Refused? {
        return Denied(tx.error);
      }
      if resolved != a.args {
        tx := UpdateArgs(tx.db, a.effectId, resolved);
      }
      tx := SetActive(tx.db, a.session);
      if tx.Refused? {
        return Denied(tx.error);
      }
      db := tx.db;
      r := Decided(a.effectId, a.session, resolved);
      assert db == ApproveTx(old(db), approval, args);
    }

    /** Reject: resolve the request, move the effect and halt the session in one transaction. */
    method Reject(approval: Id) returns (r: Option<Error>)
      modifies this`db
      ensures (db, r) == RejectCall(old(db), approval)
      ensures r.None? <==> Undecided(old(db), approval)
      ensures r.Some? ==> r.value == if approval !in old(db).approvals then ApprovalNotFound
                                     else if IsPending(old(db), approval) then InvalidStateTransition
                                     else ApprovalAlreadyResolved
    {
      if approval !in db.approvals {
        return Some(ApprovalNotFound);
      }
      var a := db.approvals[approval];
      var tx := ResolveApproval(db, approval, ApprovalState.Rejected);
      if tx.Refused? {
        return Some(tx.error);
      }
      tx := RejectEffect(tx.db, a.effectId);
      if tx.Refused? {
        return Some(tx.error);
      }
      db := SetHalted(tx.db, a.session);
      r := None;
    }

    /** The timeout sweep: select the pending requests past their time, then update them one by one. */
    method ProcessTimeouts(now: int) returns (count: nat)
      modifies this`db
      ensures (db, count) == SweepCall(old(db), now)
    {
      ghost var was := db;
      var due := Due(db, now);
      ghost var all := due;
      count := |due|;
      while due != {}
        invariant due <= all && all <= was.approvals.Keys
        invariant db == was.(approvals := db.approvals) && db.approvals.Keys == was.approvals.Keys
        invariant forall id :: id in was.approvals ==>
                    db.approvals[id] == if id in all - due then was.approvals[id].(state := TimeoutState(was.approvals[id]))
                                        else was.approvals[id]
        decreases |due|
      {
        var id :| id in due;
        db := db.(approvals := db.approvals[id := db.approvals[id].(state := TimeoutState(db.approvals[id]))]);
        due := due - {id};
      }
      assert all == Due(was, now);
      assert forall id :: id in was.approvals ==> (id in all <==> TimesOut(was.approvals[id], now));
      assert db.approvals == Timeouts(was, now).approvals;
    }

    method ReportExecuting(id: Id) returns (ok: bool)
      modifies this`db
      ensures (db, ok) == ExecutingCall(old(db), id)
    {
      var u := SetExecuting(db, id);
      ok := u.Updated?;
      if ok {
        db := u.db;
      }
    }

    method Commit(id: Id, result: string) returns (ok: bool)
      modifies this`db
      ensures (db, ok) == CommitCall(old(db), id, result)
    {
      var u := CommitEffect(db, id, result);
      ok := u.Updated?;
      if ok {
        db := u.db;
      }
    }

    method Fail(id: Id, error: string) returns (ok: bool)
      modifies this`db
      ensures (db, ok) == FailCall(old(db), id, error)
    {
      var u := FailEffect(db, id, error);
      ok := u.Updated?;
      if ok {
        db := u.db;
      }
    }
  }

  lemma Replays(from: World, s: World, c: Caller, row: Id) returns (t: World)
    requires Leads(from, s, c) && At(s, c) && s.pcs[c] == Searching
    requires row in s.db.effects && s.db.effects[row].call.sig == s.calls[c].sig
    ensures Leads(from, t, c) && t.db == MarkReplayed(s.db, row) && t.calls == s.calls && t.month == s.month
    ensures t.pcs == s.pcs[c := Done(Replay(row, s.db.effects[row].result))]
  {
    var m := s.(pcs := s.pcs[c := Marking(row, s.db.effects[row].result)]);
    LeadsTo(from, s, c, FindRow(c, row), m);
    t := m.(db := MarkReplayed(m.db, row), pcs := m.pcs[c := Done(Replay(row, s.db.effects[row].result))]);
    LeadsTo(from, m, c, MarkRow(c), t);
  }
}
