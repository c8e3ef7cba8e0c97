/**
 Intercepts as a transition system: any number of concurrent calls, each one database statement at a
 time, interleaved with outcome reports, decisions, timeouts, rollbacks, session changes, the turn of
 the month and crashes. The advisory lock is given no power to exclude anybody; only the unique
 indexes and the guards of the updates are relied on.
 */
module EngineProtocol {
  import opened Types
  import opened EffectTables

  type Caller = nat

  datatype Answer =
    | Replay(effectId: Id, result: Option<string>)
    | Execute(effectId: Id)
    | AwaitApproval(effectId: Id, approval: Id)

  /** Where one intercept stands. */
  datatype Pc =
    | Begin
    | Searching
    | Marking(found: Id, result: Option<string>)
    | Routed(id: Id)
    | Pushing(id: Id)
    | Starting(id: Id)
    | Asking(id: Id)
    | Linking(id: Id, approval: Id)
    | Suspending(id: Id, approval: Id)
    | Done(answer: Answer)
    | Erred
    | Crashed

  /** `issued` remembers which intercept drew which effect id. */
  datatype World = World(db: Tables, calls: map<Caller, Call>, pcs: map<Caller, Pc>, issued: map<Id, Caller>, month: nat)

  datatype Step =
    | Arrive(c: Caller, call: Call)
    | OpenSession(c: Caller)
    | FindRow(c: Caller, row: Id)
    | FindNone(c: Caller, id: Id)
    | MarkRow(c: Caller)
    | Insert(c: Caller)
    | Push(c: Caller)
    | Start(c: Caller)
    | Ask(c: Caller, approval: Id, autoApprove: bool, timeoutAt: int)
    | Link(c: Caller)
    | Suspend(c: Caller)
    | Crash(c: Caller)
    | ReportExecuting(id: Id)
    | ReportCommit(id: Id, result: string)
    | ReportFailure(id: Id, error: string)
    | Approve(approval: Id, args: Option<string>)
    | Reject(approval: Id)
    | Expire(now: int)
    | RollbackFailed(id: Id)
    | ChangeSession(session: Session, state: SessionState)
    | NextMonth

  predicate At(s: World, c: Caller) {
    c in s.pcs && c in s.calls
  }

  /** The intercept that makes the step, if it is one of an intercept. */
  function Mover(step: Step): Option<Caller> {
    if step.Arrive? || step.OpenSession? || step.FindRow? || step.FindNone? || step.MarkRow? || step.Insert? || step.Push?
       || step.Start? || step.Ask? || step.Link? || step.Suspend? || step.Crash?
    then Some(step.c) else None
  }

  ghost predicate Enabled(s: World, step: Step) {
    if step.Arrive? then step.c !in s.pcs && step.c !in s.calls
    else if step.RollbackFailed? then step.id in s.db.undo.Values
    else if step.ChangeSession? then step.session in s.db.sessions
    else Mover(step).Some? ==>
      var c := Mover(step).value;
      At(s, c) && Fits(s.pcs[c], step) && Sees(s, s.calls[c].sig, step)
  }

  /** What a search may return, and which ids are fresh. */
  ghost predicate Sees(s: World, sig: nat, step: Step) {
    match step
    case FindRow(_, row) => row in s.db.effects && s.db.effects[row].call.sig == sig
    case FindNone(_, id) => id !in s.issued && forall row :: row in s.db.effects ==> s.db.effects[row].call.sig != sig
    case Ask(_, approval, _, _) => approval !in s.db.approvals
    case _ => true
  }

  /** The rule callers of the engine follow: report execution only of an id that was answered Execute. */
  ghost predicate Lawful(s: World, step: Step) {
    step.ReportExecuting? ==> exists c :: At(s, c) && s.pcs[c] == Done(Execute(step.id))
  }

  function Or(u: Update, db: Tables): Tables {
    if u.Updated? then u.db else db
  }

  /** What the steps that belong to no intercept do to the tables. */
  function Outside(db: Tables, step: Step): Tables {
    match step
    case ReportExecuting(id) => Or(SetExecuting(db, id), db)
    case ReportCommit(id, result) => Or(CommitEffect(db, id, result), db)
    case ReportFailure(id, error) => Or(FailEffect(db, id, error), db)
    case Approve(approval, args) => ApproveTx(db, approval, args)
    case Reject(approval) => RejectTx(db, approval)
    case Expire(now) => Timeouts(db, now)
    case RollbackFailed(id) => MarkCompensationFailed(db, id)
    case ChangeSession(session, state) => db.(sessions := db.sessions[session := state])
    case _ => db
  }

  /** The step is the next one of an intercept standing at pc. */
  predicate Fits(pc: Pc, step: Step) {
    match step
    case OpenSession(_) => pc.Begin?
    case FindRow(_, _) => pc.Searching?
    case FindNone(_, _) => pc.Searching?
    case MarkRow(_) => pc.Marking?
    case Insert(_) => pc.Routed?
    case Push(_) => pc.Pushing?
    case Start(_) => pc.Starting?
    case Ask(_, _, _, _) => pc.Asking?
    case Link(_) => pc.Linking?
    case Suspend(_) => pc.Suspending?
    case Crash(_) => !pc.Done?
    case _ => false
  }

  /** What one statement of an intercept does to the tables. */
  function Inside(db: Tables, call: Call, pc: Pc, month: nat, step: Step): Update
    requires Fits(pc, step)
  {
    match step
    case OpenSession(_) => Updated(EnsureSession(db, call.session))
    case MarkRow(_) => Updated(MarkReplayed(db, pc.found))
    case Insert(_) => InsertEffect(db, pc.id, call, month)
    case Push(_) => PushUndo(db, SlotOf(call), pc.id)
    case Start(_) => SetExecuting(db, pc.id)
    case Ask(_, approval, autoApprove, timeoutAt) =>
      CreateApproval(db, approval, Approval(pc.id, call.session, call.args, ApprovalState.Pending, autoApprove, timeoutAt))
    case Link(_) => Updated(LinkApproval(db, pc.id, pc.approval))
    case Suspend(_) => Updated(SetAwaitingApproval(db, call.session))
    case _ => Updated(db)
  }

  /** Where the intercept stands after the statement succeeded. */
  function After(db: Tables, call: Call, pc: Pc, step: Step): Pc
    requires Fits(pc, step) && (step.FindRow? ==> step.row in db.effects)
  {
    match step
    case OpenSession(_) => Searching
    case FindRow(_, row) => Marking(row, db.effects[row].result)
    case FindNone(_, id) => if call.tier.Safe? then Done(Execute(id)) else Routed(id)
    case MarkRow(_) => Done(Replay(pc.found, pc.result))
    case Insert(_) => if call.tier.Irreversible? then Asking(pc.id) else Pushing(pc.id)
    case Push(_) => Starting(pc.id)
    case Start(_) => Done(Execute(pc.id))
    case Ask(_, approval, _, _) => Linking(pc.id, approval)
    case Link(_) => Suspending(pc.id, pc.approval)
    case Suspend(_) => Done(AwaitApproval(pc.id, pc.approval))
    case _ => Crashed
  }

  function Moved(s: World, c: Caller, u: Update, pc: Pc): World {
    s.(db := Or(u, s.db), pcs := s.pcs[c := if u.Updated? then pc else Erred])
  }

  ghost function Next(s: World, step: Step): World
    requires Enabled(s, step)
  {
    if step.Arrive? then s.(calls := s.calls[step.c := step.call], pcs := s.pcs[step.c := Begin])
    else if step.NextMonth? then s.(month := s.month + 1)
    else if Mover(step) == None then s.(db := Outside(s.db, step))
    else
      var c := Mover(step).value;
      var t := Moved(s, c, Inside(s.db, s.calls[c], s.pcs[c], s.month, step), After(s.db, s.calls[c], s.pcs[c], step));
      if step.FindNone? then t.(issued := s.issued[step.id := c]) else t
  }

  ghost predicate Init(s: World) {
    s.db.effects == map[] && s.db.undo == map[] && s.db.approvals == map[] && s.calls == map[] && s.pcs == map[] && s.issued == map[]
  }

  ghost predicate Takes(states: seq<World>, steps: seq<Step>, i: nat)
    requires i < |steps| && |states| == |steps| + 1
  {
    Enabled(states[i], steps[i]) && states[i + 1] == Next(states[i], steps[i])
  }

  ghost predicate IsRun(states: seq<World>, steps: seq<Step>) {
    && |states| == |steps| + 1
    && Init(states[0])
    && forall i {:trigger Takes(states, steps, i)} :: 0 <= i < |steps| ==> Takes(states, steps, i)
  }

  ghost predicate IsLawful(states: seq<World>, steps: seq<Step>)
    requires IsRun(states, steps)
  {
    forall i :: 0 <= i < |steps| ==> Lawful(states[i], steps[i])
  }

  // ── The invariant ─────────────────────────────────────────────────────────

  /** The effect's undo row is in place, at its step's position. */
  predicate HasUndo(db: Tables, id: Id)
    requires id in db.effects
  {
    var slot := SlotOf(db.effects[id].call);
    slot in db.undo && db.undo[slot] == id
  }

  ghost predicate HasApproval(db: Tables, id: Id) {
    exists a :: a in db.approvals && db.approvals[a].effectId == id && db.approvals[a].state == ApprovalState.Approved
  }

  ghost predicate EffectInv(db: Tables, id: Id)
    requires id in db.effects
  {
    var e := db.effects[id];
    match e.call.tier
    case Safe => false
    case Compensable => !e.state.Approved? && (e.state.Executing? || e.state.Committed? ==> HasUndo(db, id))
    case Irreversible => !e.state.Executing? && (e.state.Approved? || e.state.Committed? ==> HasApproval(db, id))
  }

  /** Two rows with one signature are in different months. */
  ghost predicate IndexInv(db: Tables) {
    forall a, b :: a in db.effects && b in db.effects && a != b && db.effects[a].call.sig == db.effects[b].call.sig
                   ==> db.effects[a].month != db.effects[b].month
  }

  ghost predicate UndoInv(db: Tables) {
    forall slot :: slot in db.undo ==> db.undo[slot] in db.effects && db.effects[db.undo[slot]].call.tier.Compensable?
  }

  ghost predicate ApprovalInv(db: Tables) {
    && (forall a :: a in db.approvals ==> db.approvals[a].effectId in db.effects
                                          && db.effects[db.approvals[a].effectId].call.tier.Irreversible?)
    && (forall a, b :: a in db.approvals && b in db.approvals && a != b ==> db.approvals[a].effectId != db.approvals[b].effectId)
  }

  /** What the indexes and keys alone guarantee, whatever callers report. */
  ghost predicate ShapeInv(db: Tables) {
    IndexInv(db) && UndoInv(db) && ApprovalInv(db)
  }

  ghost predicate TablesInv(db: Tables) {
    ShapeInv(db) && forall id :: id in db.effects ==> EffectInv(db, id)
  }

  ghost predicate OwnersInv(s: World) {
    && s.calls.Keys == s.pcs.Keys
    && (forall id :: id in s.issued ==> s.issued[id] in s.calls)
    && (forall id :: id in s.db.effects ==> id in s.issued && s.db.effects[id].call == s.calls[s.issued[id]])
  }

  /** The intercept drew this id. */
  predicate Drew(s: World, c: Caller, id: Id) {
    id in s.issued && s.issued[id] == c
  }

  predicate Holds(s: World, c: Caller, id: Id) {
    Drew(s, c, id) && id in s.db.effects
  }

  predicate IsRequestFor(db: Tables, approval: Id, id: Id) {
    approval in db.approvals && db.approvals[approval].effectId == id
  }

  ghost predicate CallInv(s: World, c: Caller)
    requires At(s, c)
  {
    var tier := s.calls[c].tier;
    match s.pcs[c]
    case Routed(id) => !tier.Safe? && Drew(s, c, id) && id !in s.db.effects
    case Pushing(id) => tier.Compensable? && Holds(s, c, id)
    case Starting(id) => tier.Compensable? && Holds(s, c, id) && HasUndo(s.db, id)
    case Asking(id) => tier.Irreversible? && Holds(s, c, id) && (forall a :: a in s.db.approvals ==> s.db.approvals[a].effectId != id)
    case Linking(id, a) => tier.Irreversible? && Holds(s, c, id) && IsRequestFor(s.db, a, id)
    case Suspending(id, a) => tier.Irreversible? && Holds(s, c, id) && IsRequestFor(s.db, a, id)
    case Done(Execute(id)) => !tier.Irreversible? && Drew(s, c, id)
                              && (tier.Safe? ==> id !in s.db.effects) && (tier.Compensable? ==> Holds(s, c, id) && HasUndo(s.db, id))
    case Done(AwaitApproval(id, a)) => tier.Irreversible? && Holds(s, c, id) && IsRequestFor(s.db, a, id)
    case _ => true
  }

  ghost predicate Inv(s: World) {
    ShapeInv(s.db) && OwnersInv(s) && forall c :: c in s.pcs && c in s.calls ==> CallInv(s, c)
  }

  // ── What a step leaves alone ──────────────────────────────────────────────

  /** Rows stay, with the call and month they were inserted with; a decided request keeps its decision. */
  ghost predicate Grows(db: Tables, t: Tables) {
    && EffectsGrow(db.effects, t.effects)
    && (forall slot :: slot in db.undo ==> slot in t.undo && t.undo[slot] == db.undo[slot])
    && ApprovalsGrow(db.approvals, t.approvals)
  }

  ghost predicate EffectsGrow(m: map<Id, Effect>, t: map<Id, Effect>) {
    forall id :: id in m ==> id in t && t[id].call == m[id].call && t[id].month == m[id].month
  }

  ghost predicate ApprovalsGrow(m: map<Id, Approval>, t: map<Id, Approval>) {
    forall a :: a in m ==> a in t && t[a].effectId == m[a].effectId && (m[a].state.Pending? || t[a].state == m[a].state)
  }

  /** New rows and requests are for ids drawn by the intercept that moves. */
  ghost predicate AddsOnlyFor(s: World, t: World, c: Option<Caller>) {
    && (forall id :: id in t.db.effects && id !in s.db.effects ==> c.Some? && Drew(s, c.value, id))
    && (forall a :: a in t.db.approvals && a !in s.db.approvals ==> c.Some? && Drew(s, c.value, t.db.approvals[a].effectId))
  }

  lemma InsideGrows(db: Tables, call: Call, pc: Pc, month: nat, step: Step)
    requires Fits(pc, step)
    ensures Grows(db, Or(Inside(db, call, pc, month, step), db))
  {
  }

  /** A statement of an intercept adds at most the row it inserts, or the request it files. */
  lemma InsideAdds(db: Tables, call: Call, pc: Pc, month: nat, step: Step)
    requires Fits(pc, step)
    ensures var t := Or(Inside(db, call, pc, month, step), db);
            && (forall id :: id in t.effects && id !in db.effects ==> step.Insert? && id == pc.id)
            && (forall a :: a in t.approvals && a !in db.approvals ==> step.Ask? && t.approvals[a].effectId == pc.id)
  {
  }

  lemma InterceptAdds(s: World, step: Step, c: Caller)
    requires Inv(s) && Enabled(s, step) && Mover(step) == Some(c)
    ensures AddsOnlyFor(s, Next(s, step), Some(c))
  {
    if !step.Arrive? {
      assert CallInv(s, c);
      InsideAdds(s.db, s.calls[c], s.pcs[c], s.month, step);
    }
  }

  lemma DecisionGrows(db: Tables, step: Step)
    requires step.Approve? || step.Reject?
    ensures Outside(db, step).effects.Keys == db.effects.Keys && Outside(db, step).approvals.Keys == db.approvals.Keys
    ensures Outside(db, step).undo == db.undo && Grows(db, Outside(db, step))
  {
  }

  lemma ReportGrows(db: Tables, step: Step)
    requires !step.Approve? && !step.Reject?
    ensures Outside(db, step).effects.Keys == db.effects.Keys && Outside(db, step).approvals.Keys == db.approvals.Keys
    ensures Outside(db, step).undo == db.undo && Grows(db, Outside(db, step))
  {
  }

  lemma OutsideGrows(db: Tables, step: Step)
    ensures Outside(db, step).effects.Keys == db.effects.Keys && Outside(db, step).approvals.Keys == db.approvals.Keys
    ensures Outside(db, step).undo == db.undo && Grows(db, Outside(db, step))
  {
    if step.Approve? || step.Reject? {
      DecisionGrows(db, step);
    } else {
      ReportGrows(db, step);
    }
  }

  lemma InterceptGrows(s: World, step: Step, c: Caller)
    requires Enabled(s, step) && Mover(step) == Some(c)
    ensures Grows(s.db, Next(s, step).db)
  {
    if !step.Arrive? {
      InsideGrows(s.db, s.calls[c], s.pcs[c], s.month, step);
    }
  }

  lemma StepGrows(s: World, step: Step)
    requires Inv(s) && Enabled(s, step)
    ensures Grows(s.db, Next(s, step).db) && AddsOnlyFor(s, Next(s, step), Mover(step))
  {
    if Mover(step).Some? {
      InterceptAdds(s, step, Mover(step).value);
      InterceptGrows(s, step, Mover(step).value);
    } else {
      OutsideGrows(s.db, step);
    }
  }

  /** Only the moving intercept's place changes, and ids once drawn stay drawn. */
  ghost predicate Spares(s: World, t: World, c: Caller)
    requires At(s, c)
  {
    && At(t, c) && t.pcs[c] == s.pcs[c] && t.calls[c] == s.calls[c]
    && (forall id :: id in s.issued ==> id in t.issued && t.issued[id] == s.issued[id])
  }

  lemma StepSpares(s: World, step: Step, c: Caller)
    requires Enabled(s, step) && At(s, c) && Mover(step) != Some(c)
    ensures Spares(s, Next(s, step), c)
  {
  }

  lemma SparedKeeps(s: World, t: World, c: Caller, mover: Option<Caller>)
    requires At(s, c) && CallInv(s, c) && Spares(s, t, c) && mover != Some(c)
    requires Grows(s.db, t.db) && AddsOnlyFor(s, t, mover)
    ensures CallInv(t, c)
  {
  }

  lemma BystanderKeeps(s: World, step: Step, c: Caller)
    requires Inv(s) && Enabled(s, step) && At(s, c) && Mover(step) != Some(c)
    ensures At(Next(s, step), c) && CallInv(Next(s, step), c)
  {
    StepGrows(s, step);
    StepSpares(s, step, c);
    SparedKeeps(s, Next(s, step), c, Mover(step));
  }

  // ── Every update keeps the tables' invariant ──────────────────────────────

  lemma RowChange(db: Tables, id: Id, e: Effect)
    requires TablesInv(db) && id in db.effects && e.call == db.effects[id].call && e.month == db.effects[id].month
    requires EffectInv(db.(effects := db.effects[id := e]), id)
    ensures TablesInv(db.(effects := db.effects[id := e]))
  {
    var t := db.(effects := db.effects[id := e]);
    forall x | x in t.effects
      ensures EffectInv(t, x)
    {
      assert EffectInv(db, x);
      assert HasApproval(db, x) ==> HasApproval(t, x);
    }
  }

  lemma InsertKeepsTables(db: Tables, id: Id, call: Call, month: nat)
    requires TablesInv(db) && !call.tier.Safe?
    ensures TablesInv(Or(InsertEffect(db, id, call, month), db))
  {
    var t := Or(InsertEffect(db, id, call, month), db);
    forall x | x in t.effects
      ensures EffectInv(t, x)
    {
      if x in db.effects {
        assert EffectInv(db, x);
        assert HasApproval(db, x) ==> HasApproval(t, x);
      }
    }
  }

  lemma PushKeepsTables(db: Tables, id: Id)
    requires TablesInv(db) && id in db.effects && db.effects[id].call.tier.Compensable?
    ensures TablesInv(Or(PushUndo(db, SlotOf(db.effects[id].call), id), db))
  {
    var t := Or(PushUndo(db, SlotOf(db.effects[id].call), id), db);
    forall x | x in t.effects
      ensures EffectInv(t, x)
    {
      assert EffectInv(db, x);
      assert HasApproval(db, x) ==> HasApproval(t, x);
    }
  }

  /** Adding a request or moving pending ones keeps the invariant: nothing approved is lost. */
  lemma ApprovalsChange(db: Tables, approvals: map<Id, Approval>)
    requires TablesInv(db) && ApprovalInv(db.(approvals := approvals)) && Grows(db, db.(approvals := approvals))
    ensures TablesInv(db.(approvals := approvals))
  {
    var t := db.(approvals := approvals);
    forall x | x in t.effects
      ensures EffectInv(t, x)
    {
      assert EffectInv(db, x);
      if HasApproval(db, x) {
        var a :| a in db.approvals && db.approvals[a].effectId == x && db.approvals[a].state == ApprovalState.Approved;
        assert t.approvals[a].effectId == x && t.approvals[a].state == ApprovalState.Approved;
      }
    }
  }

  lemma SessionsChange(db: Tables, sessions: map<Session, SessionState>)
    requires TablesInv(db)
    ensures TablesInv(db.(sessions := sessions))
  {
    var t := db.(sessions := sessions);
    forall x | x in t.effects
      ensures EffectInv(t, x)
    {
      assert EffectInv(db, x);
      assert HasApproval(db, x) ==> HasApproval(t, x);
    }
  }

  lemma ResolveKeepsTables(db: Tables, approval: Id, state: ApprovalState)
    requires TablesInv(db) && IsPending(db, approval)
    ensures TablesInv(db.(approvals := db.approvals[approval := db.approvals[approval].(state := state)]))
  {
    ApprovalsChange(db, db.approvals[approval := db.approvals[approval].(state := state)]);
  }

  lemma ApproveKeepsTables(db: Tables, approval: Id, args: Option<string>)
    requires TablesInv(db)
    ensures TablesInv(ApproveTx(db, approval, args))
  {
    if CanApprove(db, approval) {
      var t := Approving(db, approval, args);
      var a := db.approvals[approval];
      var resolved := db.(approvals := t.approvals);
      ResolveKeepsTables(db, approval, ApprovalState.Approved);
      assert HasApproval(resolved, a.effectId) by {
        assert resolved.approvals[approval].effectId == a.effectId;
      }
      var moved := resolved.(effects := t.effects);
      assert EffectInv(moved, a.effectId) by {
        assert moved.approvals[approval].effectId == a.effectId;
      }
      RowChange(resolved, a.effectId, t.effects[a.effectId]);
      SessionsChange(moved, t.sessions);
    }
  }

  lemma RejectKeepsTables(db: Tables, approval: Id)
    requires TablesInv(db)
    ensures TablesInv(RejectTx(db, approval))
  {
    if Undecided(db, approval) {
      var t := Rejecting(db, approval);
      var a := db.approvals[approval];
      var resolved := db.(approvals := t.approvals);
      ResolveKeepsTables(db, approval, ApprovalState.Rejected);
      RowChange(resolved, a.effectId, t.effects[a.effectId]);
      SessionsChange(resolved.(effects := t.effects), t.sessions);
    }
  }

  lemma ExpireKeepsTables(db: Tables, now: int)
    requires TablesInv(db)
    ensures TablesInv(Timeouts(db, now))
  {
    ApprovalsChange(db, Timeouts(db, now).approvals);
  }

  lemma ReportKeepsTables(db: Tables, step: Step)
    requires TablesInv(db) && (step.ReportCommit? || step.ReportFailure?)
    ensures TablesInv(Outside(db, step))
  {
    if MayFinish(db, step.id) {
      var t := Outside(db, step);
      assert EffectInv(db, step.id);
      assert HasApproval(db, step.id) ==> HasApproval(t, step.id);
      RowChange(db, step.id, t.effects[step.id]);
    }
  }

  lemma RollbackKeepsTables(db: Tables, id: Id)
    requires TablesInv(db) && id in db.undo.Values
    ensures TablesInv(MarkCompensationFailed(db, id))
  {
    RowChange(db, id, MarkCompensationFailed(db, id).effects[id]);
  }

  lemma ExecutingKeepsTables(db: Tables, id: Id)
    requires TablesInv(db) && (id in db.effects ==> HasUndo(db, id))
    ensures TablesInv(Or(SetExecuting(db, id), db))
  {
    if HasState(db, id, EffectState.Pending) {
      RowChange(db, id, WithState(db, id, Executing).effects[id]);
    }
  }

  lemma LawfulReportKeepsTables(s: World, id: Id)
    requires Inv(s) && TablesInv(s.db) && Lawful(s, ReportExecuting(id))
    ensures TablesInv(Or(SetExecuting(s.db, id), s.db))
  {
    var c :| At(s, c) && s.pcs[c] == Done(Execute(id));
    assert CallInv(s, c);
    ExecutingKeepsTables(s.db, id);
  }

  /** The statements of an intercept that change one existing row. */
  lemma RowStatementKeepsTables(s: World, step: Step, c: Caller)
    requires Inv(s) && TablesInv(s.db) && At(s, c) && Fits(s.pcs[c], step) && (step.MarkRow? || step.Start? || step.Link?)
    ensures TablesInv(Or(Inside(s.db, s.calls[c], s.pcs[c], s.month, step), s.db))
  {
    assert CallInv(s, c);
    var id := if step.MarkRow? then s.pcs[c].found else s.pcs[c].id;
    var t := Or(Inside(s.db, s.calls[c], s.pcs[c], s.month, step), s.db);
    if id in s.db.effects && t != s.db {
      assert EffectInv(s.db, id);
      assert HasApproval(s.db, id) ==> HasApproval(t, id);
      RowChange(s.db, id, t.effects[id]);
    }
  }

  lemma InsertingKeepsTables(s: World, step: Step, c: Caller)
    requires Inv(s) && TablesInv(s.db) && At(s, c) && Fits(s.pcs[c], step) && Mover(step) == Some(c) && (step.Insert? || step.Push?)
    ensures TablesInv(Or(Inside(s.db, s.calls[c], s.pcs[c], s.month, step), s.db))
  {
    assert CallInv(s, c);
    if step.Insert? {
      InsertKeepsTables(s.db, s.pcs[c].id, s.calls[c], s.month);
    } else {
      PushKeepsTables(s.db, s.pcs[c].id);
    }
  }

  lemma AskingKeepsTables(s: World, step: Step, c: Caller)
    requires Inv(s) && TablesInv(s.db) && At(s, c) && Fits(s.pcs[c], step) && Mover(step) == Some(c) && step.Ask?
    ensures TablesInv(Or(Inside(s.db, s.calls[c], s.pcs[c], s.month, step), s.db))
  {
    assert CallInv(s, c);
    ApprovalsChange(s.db, Or(Inside(s.db, s.calls[c], s.pcs[c], s.month, step), s.db).approvals);
  }

  lemma InsideKeepsTables(s: World, step: Step, c: Caller)
    requires Inv(s) && TablesInv(s.db) && At(s, c) && Fits(s.pcs[c], step) && Mover(step) == Some(c)
    ensures TablesInv(Or(Inside(s.db, s.calls[c], s.pcs[c], s.month, step), s.db))
  {
    if step.MarkRow? || step.Start? || step.Link? {
      assert CallInv(s, c);
      RowStatementKeepsTables(s, step, c);
    } else if step.Insert? || step.Push? {
      InsertingKeepsTables(s, step, c);
    } else if step.Ask? {
      AskingKeepsTables(s, step, c);
    } else {
      SessionsChange(s.db, Or(Inside(s.db, s.calls[c], s.pcs[c], s.month, step), s.db).sessions);
    }
  }

  lemma StepKeepsTables(s: World, step: Step)
    requires Inv(s) && TablesInv(s.db) && Enabled(s, step) && Lawful(s, step)
    ensures TablesInv(Next(s, step).db)
  {
    if Mover(step).Some? {
      if !step.Arrive? {
        InsideKeepsTables(s, step, Mover(step).value);
      }
    } else if step.Approve? {
      ApproveKeepsTables(s.db, step.approval, step.args);
    } else if step.Reject? {
      RejectKeepsTables(s.db, step.approval);
    } else if step.Expire? {
      ExpireKeepsTables(s.db, step.now);
    } else if step.ChangeSession? {
      SessionsChange(s.db, Next(s, step).db.sessions);
    } else if step.ReportExecuting? {
      LawfulReportKeepsTables(s, step.id);
    } else if step.RollbackFailed? {
      RollbackKeepsTables(s.db, step.id);
    } else if !step.NextMonth? {
      ReportKeepsTables(s.db, step);
    }
  }

  lemma EarlyMoverKeeps(s: World, step: Step, c: Caller)
    requires Inv(s) && Enabled(s, step) && Mover(step) == Some(c)
    requires step.Insert? || step.FindNone? || step.Push? || step.Start?
    ensures At(Next(s, step), c) && CallInv(Next(s, step), c)
  {
    assert CallInv(s, c);
  }

  lemma LateMoverKeeps(s: World, step: Step, c: Caller)
    requires Inv(s) && Enabled(s, step) && Mover(step) == Some(c)
    requires step.Ask? || step.Link? || step.Suspend?
    ensures At(Next(s, step), c) && CallInv(Next(s, step), c)
  {
    assert CallInv(s, c);
  }

  lemma MoverKeeps(s: World, step: Step, c: Caller)
    requires Inv(s) && Enabled(s, step) && Mover(step) == Some(c)
    ensures At(Next(s, step), c) && CallInv(Next(s, step), c)
  {
    if step.Insert? || step.FindNone? || step.Push? || step.Start? {
      EarlyMoverKeeps(s, step, c);
    } else if step.Ask? || step.Link? || step.Suspend? {
      LateMoverKeeps(s, step, c);
    }
  }

  lemma SameRowsKeepOwners(s: World, t: World)
    requires OwnersInv(s) && Grows(s.db, t.db) && t.db.effects.Keys == s.db.effects.Keys
    requires t.calls.Keys == t.pcs.Keys
    requires forall c :: c in s.calls ==> c in t.calls && t.calls[c] == s.calls[c]
    requires forall id :: id in t.issued ==> t.issued[id] in t.calls
    requires forall id :: id in s.issued ==> id in t.issued && t.issued[id] == s.issued[id]
    ensures OwnersInv(t)
  {
  }

  lemma StepKeepsOwners(s: World, step: Step)
    requires Inv(s) && Enabled(s, step)
    ensures OwnersInv(Next(s, step))
  {
    if step.Insert? {
      InsertKeepsOwners(s, step);
    } else {
      StepGrows(s, step);
      StepKeepsKeys(s, step);
      SameRowsKeepOwners(s, Next(s, step));
    }
  }

  lemma InsertKeepsOwners(s: World, step: Step)
    requires Inv(s) && Enabled(s, step) && step.Insert?
    ensures OwnersInv(Next(s, step))
  {
    assert CallInv(s, step.c);
  }

  lemma InsideKeepsRows(db: Tables, call: Call, pc: Pc, month: nat, step: Step)
    requires Fits(pc, step) && !step.Insert?
    ensures Or(Inside(db, call, pc, month, step), db).effects.Keys == db.effects.Keys
  {
  }

  lemma StepKeepsKeys(s: World, step: Step)
    requires Enabled(s, step) && !step.Insert?
    ensures Next(s, step).db.effects.Keys == s.db.effects.Keys
  {
    if Mover(step) == None {
      OutsideGrows(s.db, step);
    } else if !step.Arrive? {
      InsideKeepsRows(s.db, s.calls[step.c], s.pcs[step.c], s.month, step);
    }
  }

  lemma SameKeysKeepShape(db: Tables, t: Tables)
    requires ShapeInv(db) && Grows(db, t)
    requires t.effects.Keys == db.effects.Keys && t.undo == db.undo && t.approvals.Keys == db.approvals.Keys
    ensures ShapeInv(t)
  {
  }

  lemma InsertKeepsShape(db: Tables, id: Id, call: Call, month: nat)
    requires ShapeInv(db)
    ensures ShapeInv(Or(InsertEffect(db, id, call, month), db))
  {
  }

  lemma PushKeepsShape(db: Tables, slot: Slot, id: Id)
    requires ShapeInv(db) && id in db.effects && db.effects[id].call.tier.Compensable?
    ensures ShapeInv(Or(PushUndo(db, slot, id), db))
  {
  }

  lemma AskKeepsShape(db: Tables, id: Id, a: Approval)
    requires ShapeInv(db) && a.effectId in db.effects && db.effects[a.effectId].call.tier.Irreversible?
    requires forall x :: x in db.approvals ==> db.approvals[x].effectId != a.effectId
    ensures ShapeInv(Or(CreateApproval(db, id, a), db))
  {
  }

  lemma StatementKeepsKeys(db: Tables, call: Call, pc: Pc, month: nat, step: Step)
    requires Fits(pc, step) && !step.Insert? && !step.Push? && !step.Ask?
    ensures var t := Or(Inside(db, call, pc, month, step), db);
            t.effects.Keys == db.effects.Keys && t.undo == db.undo && t.approvals.Keys == db.approvals.Keys
  {
  }

  lemma InsideKeepsShape(s: World, step: Step, c: Caller)
    requires Inv(s) && At(s, c) && Fits(s.pcs[c], step) && Mover(step) == Some(c)
    ensures ShapeInv(Or(Inside(s.db, s.calls[c], s.pcs[c], s.month, step), s.db))
  {
    assert CallInv(s, c);
    if step.Insert? {
      InsertKeepsShape(s.db, s.pcs[c].id, s.calls[c], s.month);
    } else if step.Push? {
      PushKeepsShape(s.db, SlotOf(s.calls[c]), s.pcs[c].id);
    } else if step.Ask? {
      AskKeepsShape(s.db, step.approval, Approval(s.pcs[c].id, s.calls[c].session, s.calls[c].args, ApprovalState.Pending,
                                                  step.autoApprove, step.timeoutAt));
    } else {
      InsideGrows(s.db, s.calls[c], s.pcs[c], s.month, step);
      StatementKeepsKeys(s.db, s.calls[c], s.pcs[c], s.month, step);
      SameKeysKeepShape(s.db, Or(Inside(s.db, s.calls[c], s.pcs[c], s.month, step), s.db));
    }
  }

  lemma OutsideKeepsShape(db: Tables, step: Step)
    requires ShapeInv(db)
    ensures ShapeInv(Outside(db, step))
  {
    OutsideGrows(db, step);
    SameKeysKeepShape(db, Outside(db, step));
  }

  lemma StepKeepsShape(s: World, step: Step)
    requires Inv(s) && Enabled(s, step)
    ensures ShapeInv(Next(s, step).db)
  {
    if Mover(step) == None {
      OutsideKeepsShape(s.db, step);
    } else if !step.Arrive? {
      InsideKeepsShape(s, step, Mover(step).value);
    }
  }

  lemma StepKeepsInv(s: World, step: Step)
    requires Inv(s) && Enabled(s, step)
    ensures Inv(Next(s, step))
  {
    var t := Next(s, step);
    StepKeepsShape(s, step);
    StepKeepsOwners(s, step);
    forall c | c in t.pcs && c in t.calls
      ensures CallInv(t, c)
    {
      if Mover(step) == Some(c) {
        MoverKeeps(s, step, c);
      } else {
        BystanderKeeps(s, step, c);
      }
    }
  }

  lemma {:induction false} RunKeepsInv(states: seq<World>, steps: seq<Step>, n: nat)
    requires IsRun(states, steps) && n < |states|
    ensures Inv(states[n])
  {
    if n > 0 {
      RunKeepsInv(states, steps, n - 1);
      assert Takes(states, steps, n - 1);
      StepKeepsInv(states[n - 1], steps[n - 1]);
    }
  }

  lemma LawfulStepKeepsTables(states: seq<World>, steps: seq<Step>, i: nat)
    requires IsRun(states, steps) && IsLawful(states, steps) && i < |steps| && Inv(states[i]) && TablesInv(states[i].db)
    ensures TablesInv(states[i + 1].db)
  {
    assert Takes(states, steps, i) && Lawful(states[i], steps[i]);
    StepKeepsTables(states[i], steps[i]);
  }

  lemma InitIsSound(s: World)
    requires Init(s)
    ensures TablesInv(s.db)
  {
  }

  lemma {:induction false} LawfulRunKeepsTables(states: seq<World>, steps: seq<Step>, n: nat)
    requires IsRun(states, steps) && IsLawful(states, steps) && n < |states|
    ensures TablesInv(states[n].db)
  {
    if n == 0 {
      InitIsSound(states[0]);
    } else {
      RunKeepsInv(states, steps, n - 1);
      LawfulRunKeepsTables(states, steps, n - 1);
      LawfulStepKeepsTables(states, steps, n - 1);
    }
  }

  /** One step of a run, seen from outside. */
  lemma RunGrows(states: seq<World>, steps: seq<Step>, i: nat)
    requires IsRun(states, steps) && i < |steps|
    ensures Inv(states[i]) && Grows(states[i].db, states[i + 1].db)
  {
    RunKeepsInv(states, steps, i);
    assert Takes(states, steps, i);
    StepGrows(states[i], steps[i]);
  }
}
