/** What every run of the effect engine guarantees, and what breaks without the conditions it rests on. */
module EngineGuarantees {
  import opened Types
  import opened EffectTables
  import opened EngineProtocol

  // ── At most one intercept of a signature is let through ───────────────────

  /** The intercept of a logged call was told to execute it or to wait for its approval. */
  predicate Granted(s: World, c: Caller) {
    At(s, c) && !s.calls[c].tier.Safe? && s.pcs[c].Done? && !s.pcs[c].answer.Replay?
  }

  /** Two intercepts of one signature let through hold different rows, inserted in different months. */
  lemma GrantedOncePerMonth(states: seq<World>, steps: seq<Step>, n: nat, c: Caller, d: Caller)
    requires IsRun(states, steps) && n < |states|
    requires c != d && Granted(states[n], c) && Granted(states[n], d) && states[n].calls[c].sig == states[n].calls[d].sig
    ensures var s := states[n]; var id, id' := s.pcs[c].answer.effectId, s.pcs[d].answer.effectId;
            id in s.db.effects && id' in s.db.effects && id != id' && s.db.effects[id].month != s.db.effects[id'].month
  {
    RunKeepsInv(states, steps, n);
    assert CallInv(states[n], c) && CallInv(states[n], d);
  }

  /** A compensable call is told to execute at most once for its session and step, in whatever months: undo positions are unique. */
  lemma ExecutedOncePerStep(states: seq<World>, steps: seq<Step>, n: nat, c: Caller, d: Caller)
    requires IsRun(states, steps) && n < |states| && Granted(states[n], c) && Granted(states[n], d)
    requires states[n].calls[c].tier.Compensable? && states[n].calls[d].tier.Compensable?
    requires SlotOf(states[n].calls[c]) == SlotOf(states[n].calls[d])
    ensures c == d
  {
    RunKeepsInv(states, steps, n);
    assert CallInv(states[n], c) && CallInv(states[n], d);
  }

  ghost predicate WithinOneMonth(steps: seq<Step>) {
    forall i :: 0 <= i < |steps| ==> !steps[i].NextMonth?
  }

  /** Every row was inserted in the month of the run. */
  ghost predicate AllRowsIn(s: World, month: nat) {
    s.month == month && forall id :: id in s.db.effects ==> s.db.effects[id].month == month
  }

  lemma StepKeepsMonth(s: World, step: Step, month: nat)
    requires Inv(s) && Enabled(s, step) && !step.NextMonth? && AllRowsIn(s, month)
    ensures AllRowsIn(Next(s, step), month)
  {
    StepGrows(s, step);
    if !step.Insert? {
      StepKeepsKeys(s, step);
    }
  }

  lemma {:induction false} RowsStayInMonth(states: seq<World>, steps: seq<Step>, n: nat)
    requires IsRun(states, steps) && n < |states| && WithinOneMonth(steps)
    ensures AllRowsIn(states[n], states[0].month)
  {
    if n > 0 {
      RowsStayInMonth(states, steps, n - 1);
      RunKeepsInv(states, steps, n - 1);
      assert Takes(states, steps, n - 1);
      StepKeepsMonth(states[n - 1], steps[n - 1], states[0].month);
    }
  }

  /** With all inserts in one monthly partition, at most one intercept of a signature is ever let through. */
  lemma GrantedAtMostOnce(states: seq<World>, steps: seq<Step>, n: nat, c: Caller, d: Caller)
    requires IsRun(states, steps) && n < |states| && WithinOneMonth(steps)
    requires Granted(states[n], c) && Granted(states[n], d) && states[n].calls[c].sig == states[n].calls[d].sig
    ensures c == d
  {
    RowsStayInMonth(states, steps, n);
    if c != d {
      GrantedOncePerMonth(states, steps, n, c, d);
      assert false;
    }
  }

  /** Two approval requests for one signature are for rows of different months. */
  lemma RequestedOncePerMonth(states: seq<World>, steps: seq<Step>, n: nat, a: Id, b: Id)
    requires IsRun(states, steps) && n < |states| && a in states[n].db.approvals && b in states[n].db.approvals && a != b
    ensures var db := states[n].db; var x, y := db.approvals[a].effectId, db.approvals[b].effectId;
            x in db.effects && y in db.effects && x != y
            && (db.effects[x].call.sig == db.effects[y].call.sig ==> db.effects[x].month != db.effects[y].month)
  {
    RunKeepsInv(states, steps, n);
  }

  lemma RequestedAtMostOnce(states: seq<World>, steps: seq<Step>, n: nat, a: Id, b: Id)
    requires IsRun(states, steps) && n < |states| && WithinOneMonth(steps)
    requires a in states[n].db.approvals && b in states[n].db.approvals
    requires var db := states[n].db; var x, y := db.approvals[a].effectId, db.approvals[b].effectId;
             x in db.effects && y in db.effects && db.effects[x].call.sig == db.effects[y].call.sig
    ensures a == b
  {
    RowsStayInMonth(states, steps, n);
    if a != b {
      RequestedOncePerMonth(states, steps, n, a, b);
      assert false;
    }
  }

  // ── Decisions are final and move three rows together ──────────────────────

  lemma {:induction false} DecisionIsFinal(states: seq<World>, steps: seq<Step>, m: nat, n: nat, a: Id)
    requires IsRun(states, steps) && m <= n < |states| && a in states[m].db.approvals
    ensures a in states[n].db.approvals && states[n].db.approvals[a].effectId == states[m].db.approvals[a].effectId
    ensures !states[m].db.approvals[a].state.Pending? ==> states[n].db.approvals[a].state == states[m].db.approvals[a].state
    decreases n
  {
    if m < n {
      DecisionIsFinal(states, steps, m, n - 1, a);
      RunGrows(states, steps, n - 1);
    }
  }

  /** Approved together: request, effect and session. */
  predicate ApprovedTogether(db: Tables, t: Tables, a: Id)
    requires a in db.approvals
  {
    HasState(t, db.approvals[a].effectId, EffectState.Approved) && SessionIs(t, db.approvals[a].session, Active)
  }

  predicate RejectedTogether(db: Tables, t: Tables, a: Id)
    requires a in db.approvals
  {
    HasState(t, db.approvals[a].effectId, EffectState.Rejected)
    && (db.approvals[a].session in db.sessions ==> SessionIs(t, db.approvals[a].session, Halted))
  }

  /** The state of a pending request after a step outside any intercept. */
  function DecidedAs(db: Tables, step: Step, a: Id): ApprovalState
    requires a in db.approvals
  {
    if step.Approve? && step.approval == a && CanApprove(db, a) then ApprovalState.Approved
    else if step.Reject? && step.approval == a && Undecided(db, a) then ApprovalState.Rejected
    else if step.Expire? && TimesOut(db.approvals[a], step.now) then TimeoutState(db.approvals[a])
    else db.approvals[a].state
  }

  lemma OutsideDecides(db: Tables, step: Step, a: Id)
    requires IsPending(db, a) && Mover(step) == None
    ensures a in Outside(db, step).approvals && Outside(db, step).approvals[a].state == DecidedAs(db, step, a)
  {
  }

  lemma OutsideMovesTogether(db: Tables, step: Step, a: Id)
    requires IsPending(db, a) && Mover(step) == None
    ensures DecidedAs(db, step, a).Approved? ==> ApprovedTogether(db, Outside(db, step), a)
    ensures DecidedAs(db, step, a).Rejected? ==> RejectedTogether(db, Outside(db, step), a)
  {
  }

  lemma InsideSparesRequests(db: Tables, call: Call, pc: Pc, month: nat, step: Step, a: Id)
    requires Fits(pc, step) && a in db.approvals
    ensures var t := Or(Inside(db, call, pc, month, step), db); a in t.approvals && t.approvals[a] == db.approvals[a]
  {
  }

  /** A request is decided by nothing but its own approve, reject or timeout, and approve and reject take effect and session along. */
  lemma DecisionsMoveTogether(s: World, step: Step, a: Id)
    requires Enabled(s, step) && IsPending(s.db, a)
    ensures var t := Next(s, step).db;
            && a in t.approvals && t.approvals[a].state == DecidedAs(s.db, step, a)
            && (t.approvals[a].state.Approved? ==> ApprovedTogether(s.db, t, a))
            && (t.approvals[a].state.Rejected? ==> RejectedTogether(s.db, t, a))
  {
    if Mover(step) == None {
      OutsideDecides(s.db, step, a);
      OutsideMovesTogether(s.db, step, a);
    } else if !step.Arrive? {
      InsideSparesRequests(s.db, s.calls[step.c], s.pcs[step.c], s.month, step, a);
    }
  }

  /** A refused decision changes none of the tables. */
  lemma RefusedDecisionChangesNothing(s: World, a: Id, args: Option<string>)
    ensures !CanApprove(s.db, a) ==> Next(s, Approve(a, args)) == s
    ensures !Undecided(s.db, a) ==> Next(s, Reject(a)) == s
  {
  }

  /** A request found approved was approved by an approve step taken while it, its effect and its session were waiting. */
  lemma {:induction false} ApprovedThroughApprove(states: seq<World>, steps: seq<Step>, n: nat, a: Id) returns (i: nat)
    requires IsRun(states, steps) && n < |states|
    requires a in states[n].db.approvals && states[n].db.approvals[a].state.Approved?
    ensures i < n && steps[i].Approve? && steps[i].approval == a && CanApprove(states[i].db, a)
    decreases n
  {
    var db := states[n - 1].db;
    if a in db.approvals && db.approvals[a].state.Approved? {
      i := ApprovedThroughApprove(states, steps, n - 1, a);
    } else {
      i := n - 1;
      ApprovedByStep(states, steps, i, a);
    }
  }

  lemma RunDecides(states: seq<World>, steps: seq<Step>, i: nat, a: Id)
    requires IsRun(states, steps) && i < |steps| && IsPending(states[i].db, a)
    ensures a in states[i + 1].db.approvals && states[i + 1].db.approvals[a].state == DecidedAs(states[i].db, steps[i], a)
  {
    assert Takes(states, steps, i);
    DecisionsMoveTogether(states[i], steps[i], a);
  }

  lemma RunFilesPending(states: seq<World>, steps: seq<Step>, i: nat, a: Id)
    requires IsRun(states, steps) && i < |steps| && a !in states[i].db.approvals && a in states[i + 1].db.approvals
    ensures states[i + 1].db.approvals[a].state.Pending?
  {
    assert Takes(states, steps, i);
    NewRequestIsPending(states[i], steps[i], a);
  }

  lemma ApprovedByStep(states: seq<World>, steps: seq<Step>, i: nat, a: Id)
    requires IsRun(states, steps) && i < |steps|
    requires a in states[i].db.approvals ==> !states[i].db.approvals[a].state.Approved?
    requires a in states[i + 1].db.approvals && states[i + 1].db.approvals[a].state.Approved?
    ensures steps[i].Approve? && steps[i].approval == a && CanApprove(states[i].db, a)
  {
    if IsPending(states[i].db, a) {
      RunDecides(states, steps, i, a);
    } else if a in states[i].db.approvals {
      RunGrows(states, steps, i);
    } else {
      RunFilesPending(states, steps, i, a);
    }
  }

  lemma NewRequestIsPending(s: World, step: Step, a: Id)
    requires Enabled(s, step) && a !in s.db.approvals && a in Next(s, step).db.approvals
    ensures Next(s, step).db.approvals[a].state.Pending?
  {
    if Mover(step) == None {
      OutsideGrows(s.db, step);
    } else if !step.Arrive? {
      InsideFilesPending(s.db, s.calls[step.c], s.pcs[step.c], s.month, step, a);
    }
  }

  lemma InsideFilesPending(db: Tables, call: Call, pc: Pc, month: nat, step: Step, a: Id)
    requires Fits(pc, step) && a !in db.approvals
    ensures var t := Or(Inside(db, call, pc, month, step), db); a in t.approvals ==> t.approvals[a].state.Pending?
  {
  }

  // ── Irreversible effects run only if approved ─────────────────────────────

  predicate RanOrMay(db: Tables, id: Id) {
    HasState(db, id, Committed) || HasState(db, id, EffectState.Approved) || HasState(db, id, Executing)
  }

  lemma RequestIsUnique(states: seq<World>, steps: seq<Step>, n: nat, a: Id, b: Id)
    requires IsRun(states, steps) && n < |states| && a in states[n].db.approvals && b in states[n].db.approvals
    requires states[n].db.approvals[a].effectId == states[n].db.approvals[b].effectId
    ensures a == b
  {
    RunKeepsInv(states, steps, n);
  }

  /**
   An irreversible effect is committed only after its own request was approved through approve: the
   request is found approved, the approving step is found, and up to that step the effect was neither
   approved nor committed nor executing.
   */
  lemma CommittedWasApproved(states: seq<World>, steps: seq<Step>, n: nat, id: Id) returns (a: Id, i: nat)
    requires IsRun(states, steps) && IsLawful(states, steps) && n < |states|
    requires RanOrMay(states[n].db, id) && states[n].db.effects[id].call.tier.Irreversible?
    ensures a in states[n].db.approvals && states[n].db.approvals[a].effectId == id && states[n].db.approvals[a].state.Approved?
    ensures i < n && steps[i].Approve? && steps[i].approval == a && CanApprove(states[i].db, a)
    ensures forall m :: 0 <= m <= i ==> !RanOrMay(states[m].db, id)
  {
    LawfulRunKeepsTables(states, steps, n);
    assert EffectInv(states[n].db, id);
    a :| a in states[n].db.approvals && states[n].db.approvals[a].effectId == id
         && states[n].db.approvals[a].state == ApprovalState.Approved;
    i := ApprovedThroughApprove(states, steps, n, a);
    forall m | 0 <= m <= i
      ensures !RanOrMay(states[m].db, id)
    {
      if RanOrMay(states[m].db, id) {
        DecisionIsFinal(states, steps, i, n, a);
        RowStays(states, steps, i, n, id);
        var b := ApprovedAt(states, steps, m, i, id);
        RequestIsUnique(states, steps, i, a, b);
      }
    }
  }

  lemma {:induction false} RowStays(states: seq<World>, steps: seq<Step>, m: nat, n: nat, id: Id)
    requires IsRun(states, steps) && m <= n < |states| && id in states[m].db.effects
    ensures id in states[n].db.effects && states[n].db.effects[id].call == states[m].db.effects[id].call
    decreases n
  {
    if m < n {
      RowStays(states, steps, m, n - 1, id);
      RunGrows(states, steps, n - 1);
    }
  }

  /** If an irreversible effect may run at m, its request is approved at every later n. */
  lemma ApprovedAt(states: seq<World>, steps: seq<Step>, m: nat, n: nat, id: Id) returns (b: Id)
    requires IsRun(states, steps) && IsLawful(states, steps) && m <= n < |states|
    requires RanOrMay(states[m].db, id) && id in states[n].db.effects && states[n].db.effects[id].call.tier.Irreversible?
    ensures b in states[n].db.approvals && states[n].db.approvals[b].effectId == id && states[n].db.approvals[b].state.Approved?
  {
    RowStays(states, steps, m, n, id);
    LawfulRunKeepsTables(states, steps, m);
    assert EffectInv(states[m].db, id);
    b :| b in states[m].db.approvals && states[m].db.approvals[b].effectId == id
         && states[m].db.approvals[b].state == ApprovalState.Approved;
    DecisionIsFinal(states, steps, m, n, b);
  }

  /** The effect of a rejected, timed out or auto-approved request is never approved, executing or committed, before or after. */
  lemma RefusedNeverRuns(states: seq<World>, steps: seq<Step>, m: nat, n: nat, a: Id)
    requires IsRun(states, steps) && IsLawful(states, steps) && m < |states| && n < |states|
    requires a in states[m].db.approvals && !states[m].db.approvals[a].state.Pending? && !states[m].db.approvals[a].state.Approved?
    ensures !RanOrMay(states[n].db, states[m].db.approvals[a].effectId)
  {
    var id := states[m].db.approvals[a].effectId;
    var last := if m < n then n else m;
    RunKeepsInv(states, steps, m);
    RowStays(states, steps, m, last, id);
    DecisionIsFinal(states, steps, m, last, a);
    if RanOrMay(states[n].db, id) {
      var b := ApprovedAt(states, steps, n, last, id);
      RequestIsUnique(states, steps, last, a, b);
      assert false;
    }
  }

  // ── Undo before execute ───────────────────────────────────────────────────

  predicate Ran(db: Tables, id: Id) {
    HasState(db, id, Executing) || HasState(db, id, Committed)
  }

  lemma InsideStartsLogged(db: Tables, call: Call, pc: Pc, month: nat, step: Step, id: Id)
    requires Fits(pc, step) && !Ran(db, id)
    ensures var t := Or(Inside(db, call, pc, month, step), db); Ran(t, id) ==> id in db.effects && t.undo == db.undo
  {
  }

  lemma StartChangesNoUndo(s: World, step: Step, id: Id)
    requires Enabled(s, step) && !Ran(s.db, id) && Ran(Next(s, step).db, id)
    ensures id in s.db.effects && Next(s, step).db.undo == s.db.undo
  {
    if Mover(step) == None {
      OutsideGrows(s.db, step);
    } else if !step.Arrive? {
      InsideStartsLogged(s.db, s.calls[step.c], s.pcs[step.c], s.month, step, id);
    }
  }

  /**
   A compensable effect found executing or committed has its undo entry, with its effect id at its step
   index, and the entry was in place at a state before which the effect had never been executing.
   */
  lemma {:induction false} UndoRegisteredFirst(states: seq<World>, steps: seq<Step>, n: nat, id: Id) returns (i: nat)
    requires IsRun(states, steps) && IsLawful(states, steps) && n < |states|
    requires Ran(states[n].db, id) && states[n].db.effects[id].call.tier.Compensable?
    ensures HasUndo(states[n].db, id)
    ensures i < n && id in states[i].db.effects && HasUndo(states[i].db, id)
    ensures forall m :: 0 <= m <= i ==> !Ran(states[m].db, id)
    decreases n
  {
    LawfulRunKeepsTables(states, steps, n);
    assert EffectInv(states[n].db, id);
    if k: nat :| k < n && Ran(states[k].db, id) {
      RowStays(states, steps, k, n, id);
      i := UndoRegisteredFirst(states, steps, k, id);
    } else {
      i := n - 1;
      RunKeepsInv(states, steps, i);
      assert Takes(states, steps, i);
      StartChangesNoUndo(states[i], steps[i], id);
      RunGrows(states, steps, i);
    }
  }

  /** Whatever is reported, a compensable call answered Execute has its undo entry. */
  lemma ExecuteMeansUndoable(states: seq<World>, steps: seq<Step>, n: nat, c: Caller)
    requires IsRun(states, steps) && n < |states| && At(states[n], c)
    requires states[n].pcs[c].Done? && states[n].pcs[c].answer.Execute? && states[n].calls[c].tier.Compensable?
    ensures var id := states[n].pcs[c].answer.effectId;
            id in states[n].db.effects && states[n].db.effects[id].call == states[n].calls[c] && HasUndo(states[n].db, id)
  {
    RunKeepsInv(states, steps, n);
    assert CallInv(states[n], c);
  }

  /** Setting a pending effect executing keeps the tables sound exactly when its undo entry is in place. */
  lemma SetExecutingSafeIff(db: Tables, id: Id)
    requires TablesInv(db) && HasState(db, id, EffectState.Pending)
    ensures TablesInv(Or(SetExecuting(db, id), db)) <==> HasUndo(db, id)
  {
    if HasUndo(db, id) {
      ExecutingKeepsTables(db, id);
    } else {
      var t := Or(SetExecuting(db, id), db);
      assert EffectInv(db, id);
      assert !EffectInv(t, id);
    }
  }

  lemma InsideAddsUndo(db: Tables, call: Call, pc: Pc, month: nat, step: Step, id: Id)
    requires UndoInv(db) && Fits(pc, step) && !(id in db.effects && HasUndo(db, id))
    requires var t := Or(Inside(db, call, pc, month, step), db); id in t.effects && HasUndo(t, id)
    ensures step.Push? && Inside(db, call, pc, month, step).Updated? && pc.id == id
  {
  }

  /** Before the step the undo entry was not in place, after it it is: the intercept that drew the id has pushed it. */
  lemma UndoIsPushed(s: World, step: Step, id: Id)
    requires Inv(s) && Enabled(s, step)
    requires !(id in s.db.effects && HasUndo(s.db, id)) && id in Next(s, step).db.effects && HasUndo(Next(s, step).db, id)
    ensures step.Push? && Next(s, step).pcs[step.c] == Starting(id)
  {
    if Mover(step) == None {
      OutsideGrows(s.db, step);
    } else if !step.Arrive? {
      InsideAddsUndo(s.db, s.calls[step.c], s.pcs[step.c], s.month, step, id);
    }
  }

  /** An effect has its undo entry exactly if the intercept that drew it has come to where it is about to execute. */
  lemma {:induction false} HasUndoIffStarting(states: seq<World>, steps: seq<Step>, n: nat, id: Id)
    requires IsRun(states, steps) && n < |states| && id in states[n].db.effects
    ensures HasUndo(states[n].db, id) <==> exists k: nat, c: Caller :: k <= n && WasStarting(states, k, c, id)
  {
    if k: nat, c: Caller :| k <= n && WasStarting(states, k, c, id) {
      RunKeepsInv(states, steps, k);
      assert CallInv(states[k], c);
      UndoStays(states, steps, k, n, id);
    }
    if HasUndo(states[n].db, id) {
      var k, c := StartingFound(states, steps, n, id);
    }
  }

  predicate WasStarting(states: seq<World>, k: nat, c: Caller, id: Id) {
    k < |states| && c in states[k].pcs && c in states[k].calls && states[k].pcs[c] == Starting(id)
  }

  lemma {:induction false} UndoStays(states: seq<World>, steps: seq<Step>, k: nat, n: nat, id: Id)
    requires IsRun(states, steps) && k <= n < |states| && id in states[k].db.effects && HasUndo(states[k].db, id)
    ensures id in states[n].db.effects && HasUndo(states[n].db, id)
    decreases n
  {
    if k < n {
      UndoStays(states, steps, k, n - 1, id);
      RunKeepsInv(states, steps, n - 1);
      assert Takes(states, steps, n - 1);
      StepGrows(states[n - 1], steps[n - 1]);
    }
  }

  lemma {:induction false} StartingFound(states: seq<World>, steps: seq<Step>, n: nat, id: Id) returns (k: nat, c: Caller)
    requires IsRun(states, steps) && n < |states| && id in states[n].db.effects && HasUndo(states[n].db, id)
    ensures k <= n && WasStarting(states, k, c, id)
    decreases n
  {
    assert n > 0;
    RunKeepsInv(states, steps, n - 1);
    assert Takes(states, steps, n - 1);
    if id in states[n - 1].db.effects && HasUndo(states[n - 1].db, id) {
      k, c := StartingFound(states, steps, n - 1, id);
    } else {
      UndoIsPushed(states[n - 1], steps[n - 1], id);
      k, c := n, steps[n - 1].c;
    }
  }

  /**
   In any run, reporting a pending effect executing keeps the tables sound exactly if the intercept that
   drew its id had got past its undo entry.
   */
  lemma ReportExecutingSafeIff(states: seq<World>, steps: seq<Step>, n: nat, id: Id)
    requires IsRun(states, steps) && n < |states| && TablesInv(states[n].db) && HasState(states[n].db, id, EffectState.Pending)
    ensures TablesInv(Outside(states[n].db, ReportExecuting(id)))
            <==> exists k: nat, c: Caller :: k <= n && WasStarting(states, k, c, id)
  {
    SetExecutingSafeIff(states[n].db, id);
    HasUndoIffStarting(states, steps, n, id);
  }

  /** So an intercept that was answered Execute may report it, and one that was answered that approval is awaited may not. */
  lemma ReportExecutingAfterAnswer(states: seq<World>, steps: seq<Step>, n: nat, id: Id, c: Caller)
    requires IsRun(states, steps) && n < |states| && TablesInv(states[n].db) && HasState(states[n].db, id, EffectState.Pending)
    requires At(states[n], c) && states[n].pcs[c].Done? && !states[n].pcs[c].answer.Replay? && states[n].pcs[c].answer.effectId == id
    ensures TablesInv(Outside(states[n].db, ReportExecuting(id))) <==> states[n].pcs[c].answer.Execute?
  {
    SetExecutingSafeIff(states[n].db, id);
    RunKeepsInv(states, steps, n);
    assert CallInv(states[n], c);
  }

  // ── Results and arguments ─────────────────────────────────────────────────

  /** A report of the call's result or error that the row's guard lets through. */
  predicate Reports(db: Tables, step: Step, id: Id) {
    (step.ReportCommit? || step.ReportFailure?) && step.id == id && MayFinish(db, id)
  }

  function ReportText(step: Step): string
    requires step.ReportCommit? || step.ReportFailure?
  {
    if step.ReportCommit? then step.result else step.error
  }

  lemma OutsideResult(db: Tables, step: Step, id: Id)
    requires id in db.effects
    ensures id in Outside(db, step).effects
    ensures Outside(db, step).effects[id].result == if Reports(db, step, id) then Some(ReportText(step)) else db.effects[id].result
  {
  }

  lemma InsideResult(db: Tables, call: Call, pc: Pc, month: nat, step: Step, id: Id)
    requires Fits(pc, step)
    ensures var t := Or(Inside(db, call, pc, month, step), db);
            id in t.effects ==> t.effects[id].result == if id in db.effects then db.effects[id].result else None
  {
  }

  lemma StepResult(s: World, step: Step, id: Id)
    requires Enabled(s, step) && id in Next(s, step).db.effects
    ensures id !in s.db.effects ==> Next(s, step).db.effects[id].result == None
    ensures id in s.db.effects ==>
              Next(s, step).db.effects[id].result == if Reports(s.db, step, id) then Some(ReportText(step)) else s.db.effects[id].result
  {
    if Mover(step) == None {
      OutsideGrows(s.db, step);
      if id in s.db.effects {
        OutsideResult(s.db, step, id);
      }
    } else if !step.Arrive? {
      InsideResult(s.db, s.calls[step.c], s.pcs[step.c], s.month, step, id);
    }
  }

  /** The result a row holds is the one reported last for that very call. */
  lemma {:induction false} ResultWasReported(states: seq<World>, steps: seq<Step>, n: nat, id: Id) returns (i: nat)
    requires IsRun(states, steps) && n < |states| && id in states[n].db.effects && states[n].db.effects[id].result.Some?
    ensures i < n && Reports(states[i].db, steps[i], id) && Some(ReportText(steps[i])) == states[n].db.effects[id].result
    ensures forall j :: i < j < n ==> !Reports(states[j].db, steps[j], id)
    decreases n
  {
    assert n > 0;
    assert Takes(states, steps, n - 1);
    StepResult(states[n - 1], steps[n - 1], id);
    if Reports(states[n - 1].db, steps[n - 1], id) {
      i := n - 1;
    } else {
      i := ResultWasReported(states, steps, n - 1, id);
    }
  }

  /** What an intercept that found a row is going to answer. */
  function Snapshot(pc: Pc): Option<(Id, Option<string>)> {
    if pc.Marking? then Some((pc.found, pc.result))
    else if pc.Done? && pc.answer.Replay? then Some((pc.answer.effectId, pc.answer.result))
    else None
  }

  lemma StepSnapshot(s: World, step: Step, c: Caller)
    requires Enabled(s, step) && At(Next(s, step), c) && Snapshot(Next(s, step).pcs[c]).Some?
    ensures (At(s, c) && Snapshot(s.pcs[c]) == Snapshot(Next(s, step).pcs[c]))
            || (step.FindRow? && step.c == c && step.row in s.db.effects
                && Snapshot(Next(s, step).pcs[c]) == Some((step.row, s.db.effects[step.row].result)))
  {
  }

  /** A replay answers with the result its row had when it was found. */
  lemma {:induction false} ReplayIsASnapshot(states: seq<World>, steps: seq<Step>, n: nat, c: Caller) returns (m: nat)
    requires IsRun(states, steps) && n < |states| && At(states[n], c) && Snapshot(states[n].pcs[c]).Some?
    ensures m < n && var (id, result) := Snapshot(states[n].pcs[c]).value;
                     id in states[m].db.effects && states[m].db.effects[id].result == result
    decreases n
  {
    assert n > 0;
    assert Takes(states, steps, n - 1);
    StepSnapshot(states[n - 1], steps[n - 1], c);
    if At(states[n - 1], c) && Snapshot(states[n - 1].pcs[c]) == Snapshot(states[n].pcs[c]) {
      m := ReplayIsASnapshot(states, steps, n - 1, c);
    } else {
      m := n - 1;
    }
  }

  /** So a result handed to a duplicate was reported for the call it duplicates. */
  lemma ReplayedResultWasReported(states: seq<World>, steps: seq<Step>, n: nat, c: Caller) returns (i: nat)
    requires IsRun(states, steps) && n < |states| && At(states[n], c)
    requires states[n].pcs[c].Done? && states[n].pcs[c].answer.Replay? && states[n].pcs[c].answer.result.Some?
    ensures i < n && Reports(states[i].db, steps[i], states[n].pcs[c].answer.effectId)
    ensures Some(ReportText(steps[i])) == states[n].pcs[c].answer.result
  {
    var m := ReplayIsASnapshot(states, steps, n, c);
    i := ResultWasReported(states, steps, m, states[n].pcs[c].answer.effectId);
  }

  /** Requests carry the arguments of their call, and only an approved effect has other arguments. */
  ghost predicate ArgsInv(db: Tables) {
    && (forall a :: a in db.approvals && db.approvals[a].effectId in db.effects ==>
          db.approvals[a].args == db.effects[db.approvals[a].effectId].call.args)
    && (forall id :: id in db.effects && db.effects[id].args != db.effects[id].call.args ==> HasApproval(db, id))
  }

  /** What a step outside the decisions leaves alone. */
  ghost predicate SameArgs(db: Tables, t: Tables) {
    && (forall id :: id in t.effects && id in db.effects ==>
          t.effects[id].args == db.effects[id].args && t.effects[id].call == db.effects[id].call)
    && (forall id :: id in t.effects && id !in db.effects ==> t.effects[id].args == t.effects[id].call.args)
    && (forall a :: a in t.approvals && a in db.approvals ==> t.approvals[a].args == db.approvals[a].args)
  }

  lemma SameArgsKeep(db: Tables, t: Tables)
    requires ArgsInv(db) && ShapeInv(db) && Grows(db, t) && SameArgs(db, t)
    requires forall a :: a in t.approvals && a !in db.approvals && t.approvals[a].effectId in t.effects ==>
               t.approvals[a].args == t.effects[t.approvals[a].effectId].call.args
    ensures ArgsInv(t)
  {
    forall id | id in t.effects && t.effects[id].args != t.effects[id].call.args
      ensures HasApproval(t, id)
    {
      ApprovalStays(db, t, id);
    }
  }

  lemma ApprovalStays(db: Tables, t: Tables, id: Id)
    requires HasApproval(db, id) && ApprovalsGrow(db.approvals, t.approvals)
    ensures HasApproval(t, id)
  {
    var a :| a in db.approvals && db.approvals[a].effectId == id && db.approvals[a].state == ApprovalState.Approved;
    assert t.approvals[a].effectId == id && t.approvals[a].state == ApprovalState.Approved;
  }

  lemma OutsideSameArgs(db: Tables, step: Step)
    requires !step.Approve?
    ensures SameArgs(db, Outside(db, step))
  {
    if step.Reject? {
      RejectSameArgs(db, step.approval);
    } else if step.Expire? {
      ExpireSameArgs(db, step.now);
    }
  }

  lemma RejectSameArgs(db: Tables, approval: Id)
    ensures SameArgs(db, RejectTx(db, approval))
  {
  }

  lemma ExpireSameArgs(db: Tables, now: int)
    ensures SameArgs(db, Timeouts(db, now))
  {
  }

  lemma ApprovingKeepsRequests(db: Tables, a: Id, args: Option<string>)
    requires CanApprove(db, a)
    ensures var t := Approving(db, a, args);
            t.approvals.Keys == db.approvals.Keys && HasApproval(t, db.approvals[a].effectId)
            && forall x :: x in db.approvals ==> t.approvals[x].args == db.approvals[x].args
  {
    var t := Approving(db, a, args);
    assert t.approvals[a].effectId == db.approvals[a].effectId && t.approvals[a].state == ApprovalState.Approved;
  }

  lemma ApprovingKeepsOtherArgs(db: Tables, a: Id, args: Option<string>, id: Id)
    requires CanApprove(db, a) && id in db.effects && id != db.approvals[a].effectId
    ensures id in Approving(db, a, args).effects && Approving(db, a, args).effects[id] == db.effects[id]
  {
  }

  lemma ApproveKeepsArgs(db: Tables, a: Id, args: Option<string>)
    requires ArgsInv(db) && CanApprove(db, a)
    ensures ArgsInv(Approving(db, a, args))
  {
    var t := Approving(db, a, args);
    DecisionGrows(db, Approve(a, args));
    ApprovingKeepsRequests(db, a, args);
    forall id | id in t.effects && t.effects[id].args != t.effects[id].call.args
      ensures HasApproval(t, id)
    {
      if id != db.approvals[a].effectId {
        ApprovingKeepsOtherArgs(db, a, args, id);
        ApprovalStays(db, t, id);
      }
    }
  }

  lemma OutsideKeepsArgs(db: Tables, step: Step)
    requires ArgsInv(db) && ShapeInv(db)
    ensures ArgsInv(Outside(db, step))
  {
    if step.Approve? {
      if CanApprove(db, step.approval) {
        ApproveKeepsArgs(db, step.approval, step.args);
      }
    } else {
      OutsideGrows(db, step);
      OutsideSameArgs(db, step);
      SameArgsKeep(db, Outside(db, step));
    }
  }

  lemma InsideSameArgs(db: Tables, call: Call, pc: Pc, month: nat, step: Step)
    requires Fits(pc, step)
    ensures var t := Or(Inside(db, call, pc, month, step), db);
            && SameArgs(db, t)
            && forall a :: a in t.approvals && a !in db.approvals ==>
                 step.Ask? && t.approvals[a].effectId == pc.id && t.approvals[a].args == call.args
  {
  }

  lemma InsideKeepsArgs(s: World, step: Step, c: Caller)
    requires Inv(s) && ArgsInv(s.db) && At(s, c) && Fits(s.pcs[c], step) && Mover(step) == Some(c)
    ensures ArgsInv(Or(Inside(s.db, s.calls[c], s.pcs[c], s.month, step), s.db))
  {
    assert CallInv(s, c);
    InsideGrows(s.db, s.calls[c], s.pcs[c], s.month, step);
    InsideSameArgs(s.db, s.calls[c], s.pcs[c], s.month, step);
    SameArgsKeep(s.db, Or(Inside(s.db, s.calls[c], s.pcs[c], s.month, step), s.db));
  }

  lemma {:induction false} RunKeepsArgs(states: seq<World>, steps: seq<Step>, n: nat)
    requires IsRun(states, steps) && n < |states|
    ensures ArgsInv(states[n].db)
  {
    if n > 0 {
      RunKeepsArgs(states, steps, n - 1);
      RunKeepsInv(states, steps, n - 1);
      assert Takes(states, steps, n - 1);
      var s, step := states[n - 1], steps[n - 1];
      if Mover(step) == None {
        OutsideKeepsArgs(s.db, step);
      } else if !step.Arrive? {
        InsideKeepsArgs(s, step, step.c);
      }
    }
  }

  /** An approved effect goes ahead with exactly the approver's arguments, or with the proposed ones if none were given. */
  lemma ApprovedWithDecidedArgs(states: seq<World>, steps: seq<Step>, i: nat, a: Id)
    requires IsRun(states, steps) && i < |steps| && steps[i].Approve? && steps[i].approval == a && CanApprove(states[i].db, a)
    ensures var e := states[i].db.approvals[a].effectId; var args := steps[i].args;
            e in states[i + 1].db.effects
            && states[i + 1].db.effects[e].args == if args.Some? then args.value else states[i].db.effects[e].call.args
  {
    RunKeepsArgs(states, steps, i);
    RunKeepsInv(states, steps, i);
    assert Takes(states, steps, i);
    assert !HasApproval(states[i].db, states[i].db.approvals[a].effectId);
  }

  // ── Terminal states ───────────────────────────────────────────────────────

  predicate IsTerminal(state: EffectState) {
    state.Committed? || state.Compensated? || state.CompensationFailed? || state.Rejected? || state.Replayed?
  }

  predicate IsFinished(db: Tables, id: Id) {
    id in db.effects && IsTerminal(db.effects[id].state)
  }

  /** A finished row that changes state becomes replayed or is marked as failed to compensate. */
  predicate FinishedMove(db: Tables, t: Tables, id: Id)
    requires id in db.effects
  {
    && id in t.effects
    && (t.effects[id].state == db.effects[id].state || t.effects[id].state.Replayed? || t.effects[id].state.CompensationFailed?)
  }

  lemma OutsideKeepsFinished(db: Tables, step: Step, id: Id)
    requires IsFinished(db, id)
    ensures FinishedMove(db, Outside(db, step), id)
  {
  }

  lemma InsideKeepsFinished(db: Tables, call: Call, pc: Pc, month: nat, step: Step, id: Id)
    requires Fits(pc, step) && IsFinished(db, id)
    ensures FinishedMove(db, Or(Inside(db, call, pc, month, step), db), id)
  {
  }

  lemma StepKeepsFinished(s: World, step: Step, id: Id)
    requires Enabled(s, step) && IsFinished(s.db, id)
    ensures FinishedMove(s.db, Next(s, step).db, id)
  {
    if Mover(step) == None {
      OutsideKeepsFinished(s.db, step, id);
    } else if !step.Arrive? {
      InsideKeepsFinished(s.db, s.calls[step.c], s.pcs[step.c], s.month, step, id);
    }
  }

  /** A terminal effect never leaves the terminal states; if its state changes at all, it is to replayed or compensation failed. */
  lemma {:induction false} TerminalStaysTerminal(states: seq<World>, steps: seq<Step>, m: nat, n: nat, id: Id)
    requires IsRun(states, steps) && m <= n < |states| && IsFinished(states[m].db, id)
    ensures IsFinished(states[n].db, id) && FinishedMove(states[m].db, states[n].db, id)
    decreases n
  {
    if m < n {
      TerminalStaysTerminal(states, steps, m, n - 1, id);
      assert Takes(states, steps, n - 1);
      StepKeepsFinished(states[n - 1], steps[n - 1], id);
    }
  }

  // ── A duplicate closes the call for good ──────────────────────────────────

  predicate Closed(db: Tables, id: Id) {
    HasState(db, id, Replayed) || HasState(db, id, CompensationFailed)
  }

  lemma OutsideKeepsClosed(db: Tables, step: Step, id: Id)
    requires Closed(db, id)
    ensures Closed(Outside(db, step), id)
  {
  }

  lemma InsideKeepsClosed(db: Tables, call: Call, pc: Pc, month: nat, step: Step, id: Id)
    requires Fits(pc, step) && Closed(db, id)
    ensures Closed(Or(Inside(db, call, pc, month, step), db), id)
  {
  }

  lemma StepKeepsClosed(s: World, step: Step, id: Id)
    requires Enabled(s, step) && Closed(s.db, id)
    ensures Closed(Next(s, step).db, id)
  {
    if Mover(step) == None {
      OutsideKeepsClosed(s.db, step, id);
    } else if !step.Arrive? {
      InsideKeepsClosed(s.db, s.calls[step.c], s.pcs[step.c], s.month, step, id);
    }
  }

  /** Once a duplicate was served, the call is never approved, executing or committed again. */
  lemma {:induction false} ReplayIsFinal(states: seq<World>, steps: seq<Step>, m: nat, n: nat, id: Id)
    requires IsRun(states, steps) && m <= n < |states| && Closed(states[m].db, id)
    ensures Closed(states[n].db, id)
    decreases n
  {
    if m < n {
      ReplayIsFinal(states, steps, m, n - 1, id);
      assert Takes(states, steps, n - 1);
      StepKeepsClosed(states[n - 1], steps[n - 1], id);
    }
  }

  /** So a duplicate of a call that awaits approval makes approving and rejecting it fail from then on. */
  lemma DuplicateBlocksDecision(states: seq<World>, steps: seq<Step>, m: nat, n: nat, a: Id)
    requires IsRun(states, steps) && m <= n < |states|
    requires a in states[m].db.approvals && Closed(states[m].db, states[m].db.approvals[a].effectId)
    ensures !Undecided(states[n].db, a) && !CanApprove(states[n].db, a)
  {
    DecisionIsFinal(states, steps, m, n, a);
    ReplayIsFinal(states, steps, m, n, states[m].db.approvals[a].effectId);
  }

  // ── Runs that show the conditions are needed ──────────────────────────────

  /** Some run, lawful or not, ends here. */
  ghost predicate Reachable(s: World) {
    exists states, steps :: IsRun(states, steps) && states[|states| - 1] == s
  }

  lemma ReachNext(s: World, step: Step)
    requires Reachable(s) && Enabled(s, step)
    ensures Reachable(Next(s, step))
  {
    var states, steps :| IsRun(states, steps) && states[|states| - 1] == s;
    var states', steps' := states + [Next(s, step)], steps + [step];
    forall i {:trigger Takes(states', steps', i)} | 0 <= i < |steps'|
      ensures Takes(states', steps', i)
    {
      if i < |steps| {
        assert Takes(states, steps, i);
        assert states'[i] == states[i] && states'[i + 1] == states[i + 1] && steps'[i] == steps[i];
      } else {
        assert states'[i] == s && states'[i + 1] == Next(s, step) && steps'[i] == step;
      }
    }
    assert IsRun(states', steps');
  }

  lemma EmptyReachable()
    ensures Reachable(World(Tables(map[], map[], map[], map[]), map[], map[], map[], 0))
  {
    assert IsRun([World(Tables(map[], map[], map[], map[]), map[], map[], map[], 0)], []);
  }

  /** One statement of an intercept, with its result spelled out. */
  lemma Advance(s: World, c: Caller, step: Step, t: World)
    requires Reachable(s) && At(s, c) && Mover(step) == Some(c) && !step.Arrive? && !step.FindNone?
    requires Fits(s.pcs[c], step) && Sees(s, s.calls[c].sig, step)
    requires t == Moved(s, c, Inside(s.db, s.calls[c], s.pcs[c], s.month, step), After(s.db, s.calls[c], s.pcs[c], step))
    ensures Reachable(t)
  {
    ReachNext(s, step);
  }

  lemma Arrived(s: World, c: Caller, call: Call)
    requires Reachable(s) && c !in s.pcs && c !in s.calls && call.session in s.db.sessions
    ensures Reachable(s.(calls := s.calls[c := call], pcs := s.pcs[c := Searching]))
  {
    ReachNext(s, Arrive(c, call));
    var t := Next(s, Arrive(c, call));
    ReachNext(t, OpenSession(c));
    assert Next(t, OpenSession(c)).pcs == s.pcs[c := Searching];
  }

  lemma Drawn(s: World, c: Caller, id: Id)
    requires Reachable(s) && At(s, c) && s.pcs[c] == Searching && id !in s.issued && !s.calls[c].tier.Safe?
    requires forall row :: row in s.db.effects ==> s.db.effects[row].call.sig != s.calls[c].sig
    ensures Reachable(s.(pcs := s.pcs[c := Routed(id)], issued := s.issued[id := c]))
  {
    ReachNext(s, FindNone(c, id));
  }

  function Begun(call: Call): World {
    World(Tables(map[], map[], map[], map[call.session := Active]), map[0 := call], map[0 := Routed(10)], map[10 := 0], 0)
  }

  lemma BeginReachable(call: Call)
    requires !call.tier.Safe?
    ensures Reachable(Begun(call))
  {
    EmptyReachable();
    var s := World(Tables(map[], map[], map[], map[]), map[], map[], map[], 0);
    ReachNext(s, Arrive(0, call));
    var t := s.(calls := map[0 := call], pcs := map[0 := Begin]);
    assert Next(s, Arrive(0, call)) == t;
    var u := t.(db := t.db.(sessions := map[call.session := Active]), pcs := map[0 := Searching]);
    Advance(t, 0, OpenSession(0), u);
    Drawn(u, 0, 10);
    assert u.(pcs := u.pcs[0 := Routed(10)], issued := u.issued[10 := 0]) == Begun(call);
  }

  function Fresh(call: Call, month: nat): Effect {
    Effect(call, EffectState.Pending, call.args, None, 0, None, month)
  }

  /** A drawn irreversible call goes on to wait for its approval. */
  lemma Requested(s: World, c: Caller, id: Id, a: Id) returns (t: World)
    requires Reachable(s) && At(s, c) && s.pcs[c] == Routed(id) && s.calls[c].tier.Irreversible? && a !in s.db.approvals
    requires id !in s.db.effects && !SignatureTaken(s.db, s.calls[c].sig, s.month)
    ensures Reachable(t) && t.pcs == s.pcs[c := Done(AwaitApproval(id, a))] && t.calls == s.calls && t.month == s.month
    ensures t.db.effects == s.db.effects[id := Fresh(s.calls[c], s.month).(approval := Some(a))]
    ensures t.db.approvals == s.db.approvals[a := Approval(id, s.calls[c].session, s.calls[c].args, ApprovalState.Pending, false, 0)]
  {
    var call := s.calls[c];
    t := s.(db := s.db.(effects := s.db.effects[id := Fresh(call, s.month)]), pcs := s.pcs[c := Asking(id)]);
    Advance(s, c, Insert(c), t);
    var u := t.(db := t.db.(approvals := t.db.approvals[a := Approval(id, call.session, call.args, ApprovalState.Pending, false, 0)]),
                pcs := t.pcs[c := Linking(id, a)]);
    Advance(t, c, Ask(c, a, false, 0), u);
    t := Suspended(u, c, id, a);
    assert t.pcs == s.pcs[c := Done(AwaitApproval(id, a))];
  }

  lemma Suspended(s: World, c: Caller, id: Id, a: Id) returns (t: World)
    requires Reachable(s) && At(s, c) && s.pcs[c] == Linking(id, a) && id in s.db.effects
    ensures Reachable(t) && t.pcs == s.pcs[c := Done(AwaitApproval(id, a))] && t.calls == s.calls && t.month == s.month
    ensures t.db.effects == s.db.effects[id := s.db.effects[id].(approval := Some(a))] && t.db.approvals == s.db.approvals
  {
    var u := s.(db := LinkApproval(s.db, id, a), pcs := s.pcs[c := Suspending(id, a)]);
    Advance(s, c, Link(c), u);
    t := u.(db := SetAwaitingApproval(u.db, u.calls[c].session), pcs := u.pcs[c := Done(AwaitApproval(id, a))]);
    Advance(u, c, Suspend(c), t);
  }

  lemma BothDrawn(call: Call) returns (s: World)
    requires call.tier.Irreversible?
    ensures Reachable(s) && s.calls == map[0 := call, 1 := call] && s.pcs == map[0 := Routed(10), 1 := Routed(11)]
    ensures s.db.effects == map[] && s.db.approvals == map[] && s.month == 0
  {
    BeginReachable(call);
    var b := Begun(call);
    Arrived(b, 1, call);
    var t := b.(calls := b.calls[1 := call], pcs := b.pcs[1 := Searching]);
    Drawn(t, 1, 11);
    s := t.(pcs := t.pcs[1 := Routed(11)], issued := t.issued[11 := 1]);
  }

  lemma MonthTurned(s: World)
    requires Reachable(s)
    ensures Reachable(s.(month := s.month + 1))
  {
    ReachNext(s, NextMonth);
  }

  /** Across the turn of a month, two intercepts of one irreversible call can both be let through. */
  lemma TwoMonthsTwoRequests() returns (s: World)
    ensures Reachable(s) && Granted(s, 0) && Granted(s, 1) && s.calls[0] == s.calls[1]
  {
    var b := BothDrawn(Call(7, 1, 0, Irreversible, ""));
    var t := Requested(b, 0, 10, 20);
    MonthTurned(t);
    var u := t.(month := 1);
    assert !SignatureTaken(u.db, 7, 1);
    s := Requested(u, 1, 11, 21);
  }

  lemma Replaying(p: World, call: Call) returns (s: World)
    requires Reachable(p) && p.calls == map[0 := call] && p.pcs == map[0 := Starting(10)] && call.session in p.db.sessions
    requires p.db.effects == map[10 := Fresh(call, 0)]
    ensures Reachable(s) && s.calls == map[0 := call, 1 := call] && s.pcs == map[0 := Starting(10), 1 := Marking(10, None)]
    ensures s.db == p.db
  {
    Arrived(p, 1, call);
    var q := p.(calls := p.calls[1 := call], pcs := p.pcs[1 := Searching]);
    s := q.(pcs := q.pcs[1 := Marking(10, None)]);
    Advance(q, 1, FindRow(1, 10), s);
  }

  /** A duplicate that overtakes the first intercept before it starts leaves neither of them executing. */
  lemma DuplicateStopsTheFirst() returns (s: World)
    ensures Reachable(s) && s.pcs == map[0 := Erred, 1 := Done(Replay(10, None))] && s.calls.Keys == {0, 1} && s.calls[0] == s.calls[1]
  {
    var call := Call(7, 1, 0, Compensable, "");
    var p := Pushed(call);
    var r := Replaying(p, call);
    s := Overtaken(r);
  }

  lemma Overtaken(r: World) returns (s: World)
    requires Reachable(r) && r.calls.Keys == {0, 1} && r.pcs == map[0 := Starting(10), 1 := Marking(10, None)] && 10 in r.db.effects
    ensures Reachable(s) && s.pcs == map[0 := Erred, 1 := Done(Replay(10, None))] && s.calls == r.calls
  {
    var t := r.(db := MarkReplayed(r.db, 10), pcs := r.pcs[1 := Done(Replay(10, None))]);
    Advance(r, 1, MarkRow(1), t);
    s := t.(pcs := t.pcs[0 := Erred]);
    Advance(t, 0, Start(0), s);
  }

  lemma Pushed(call: Call) returns (s: World)
    requires call.tier.Compensable?
    ensures Reachable(s) && s.calls == map[0 := call] && s.pcs == map[0 := Starting(10)] && s.db.sessions == map[call.session := Active]
    ensures s.db.effects == map[10 := Fresh(call, 0)]
  {
    var t := Logged(call);
    s := t.(db := t.db.(undo := map[SlotOf(call) := 10]), pcs := map[0 := Starting(10)]);
    assert t.db.undo[SlotOf(call) := 10] == map[SlotOf(call) := 10];
    Advance(t, 0, Push(0), s);
  }

  lemma Logged(call: Call) returns (s: World)
    requires call.tier.Compensable?
    ensures Reachable(s) && s.calls == map[0 := call] && s.pcs == map[0 := Pushing(10)]
    ensures s.db == Tables(map[10 := Fresh(call, 0)], map[], map[], map[call.session := Active])
  {
    BeginReachable(call);
    var b := Begun(call);
    s := b.(db := b.db.(effects := map[10 := Fresh(call, 0)]), pcs := map[0 := Pushing(10)]);
    assert b.db.effects[10 := Fresh(call, 0)] == map[10 := Fresh(call, 0)];
    Advance(b, 0, Insert(0), s);
  }

  lemma Reported(s: World, step: Step)
    requires Reachable(s) && (step.ReportExecuting? || step.ReportCommit?)
    ensures Reachable(s.(db := Outside(s.db, step)))
  {
    ReachNext(s, step);
  }

  /** Reporting execution of an id that was never answered Execute leaves it executing without an undo entry. */
  lemma EagerReportLosesUndo() returns (s: World)
    ensures Reachable(s) && Ran(s.db, 10) && s.db.effects[10].call.tier.Compensable? && !HasUndo(s.db, 10)
  {
    s := Logged(Call(7, 1, 0, Compensable, ""));
    Reported(s, ReportExecuting(10));
    s := s.(db := Outside(s.db, ReportExecuting(10)));
  }

  lemma Waiting(call: Call) returns (s: World)
    requires call.tier.Irreversible?
    ensures Reachable(s) && s.db.effects == map[10 := Fresh(call, 0).(approval := Some(20))]
    ensures IsPending(s.db, 20) && s.db.approvals[20].effectId == 10
  {
    BeginReachable(call);
    s := Requested(Begun(call), 0, 10, 20);
  }

  /** And an irreversible effect so reported is committed while its request is still pending. */
  lemma EagerReportSkipsApproval() returns (s: World)
    ensures Reachable(s) && HasState(s.db, 10, Committed) && s.db.effects[10].call.tier.Irreversible?
    ensures IsPending(s.db, 20) && s.db.approvals[20].effectId == 10
  {
    var w := Waiting(Call(7, 1, 0, Irreversible, ""));
    Reported(w, ReportExecuting(10));
    var x := w.(db := Outside(w.db, ReportExecuting(10)));
    Reported(x, ReportCommit(10, "done"));
    s := x.(db := Outside(x.db, ReportCommit(10, "done")));
    ReportedTwice(w.db, 10, "done");
  }

  lemma ReportedTwice(db: Tables, id: Id, result: string)
    requires HasState(db, id, EffectState.Pending)
    ensures var t := Outside(Outside(db, ReportExecuting(id)), ReportCommit(id, result));
            HasState(t, id, Committed) && t.effects[id].call == db.effects[id].call && t.approvals == db.approvals
  {
  }
}
