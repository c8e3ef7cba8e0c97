/**
 One orchestrator run in isolation: the retry loop of one undo entry, the walk over the loaded stack,
 the database writes it makes in order, and what happens when it is cut short and run again.
 */
module SagaRollback {
  import opened Types
  import opened UndoStack

  /** What one HTTP attempt comes to. */
  datatype Response = Status(code: int) | TransportError

  /** The network of one run: the response to the n-th attempt (from 1) for an entry. */
  type Network = (UndoId, nat) -> Response

  datatype CallResult = CallResult(ok: bool, attempts: nat)

  /** The store statements a run issues. */
  datatype Write =
    | EntryCompensated(u: UndoId)
    | EntryFailed(u: UndoId)
    | EffectFailed(u: UndoId)
    | SessionHalted
    | SessionCompensated

  datatype Db = Db(rows: map<UndoId, UndoRow>, session: SessionState, failedEffects: set<UndoId>)

  predicate Decides(r: Response) {
    r.Status? && (IsSuccess(r.code) || IsPermanentClientError(r.code))
  }

  predicate Succeeds(r: Response) {
    r.Status? && IsSuccess(r.code)
  }

  /** The retry loop, from the point where `attempts` attempts have been answered without a decision. */
  function Call(net: Network, u: UndoId, limit: nat, attempts: nat): CallResult
    requires attempts <= limit
    decreases limit - attempts
  {
    var r := net(u, attempts + 1);
    if Decides(r) then CallResult(Succeeds(r), attempts + 1)
    else if attempts + 1 > limit then CallResult(false, attempts + 1)
    else Call(net, u, limit, attempts + 1)
  }

  /** The whole handling of one entry: no endpoint fails it without a request. */
  function EntryResult(net: Network, registry: Registry, u: UndoId, row: UndoRow): CallResult {
    if row.fnName !in registry.endpoints then CallResult(false, 0) else Call(net, u, RetryLimit(row, registry), 0)
  }

  /** The loop stops at the first deciding answer among the first limit + 1, and succeeds exactly if that one does. */
  lemma {:induction false} CallStopsAtFirstDecision(net: Network, u: UndoId, limit: nat, attempts: nat)
    requires attempts <= limit
    ensures var c := Call(net, u, limit, attempts);
            && attempts < c.attempts <= limit + 1
            && (forall k :: attempts < k < c.attempts ==> !Decides(net(u, k)))
            && (c.attempts <= limit ==> Decides(net(u, c.attempts)))
            && (c.ok <==> Succeeds(net(u, c.attempts)))
    decreases limit - attempts
  {
    if !Decides(net(u, attempts + 1)) && attempts + 1 <= limit {
      CallStopsAtFirstDecision(net, u, limit, attempts + 1);
    }
  }

  // ── Specification of a run ────────────────────────────────────────────────

  function Apply(db: Db, w: Write): Db {
    match w
    case EntryCompensated(u) =>
      if u in db.rows then db.(rows := db.rows[u := db.rows[u].(state := StepState.Compensated)]) else db
    case EntryFailed(u) =>
      if u in db.rows then db.(rows := db.rows[u := db.rows[u].(state := StepState.Failed)]) else db
    case EffectFailed(u) => db.(failedEffects := db.failedEffects + {u})
    case SessionHalted => db.(session := Halted)
    case SessionCompensated => db.(session := db.session.SetCompensated())
  }

  function ApplyAll(db: Db, writes: seq<Write>): Db
    decreases |writes|
  {
    if writes == [] then db else ApplyAll(Apply(db, writes[0]), writes[1..])
  }

  /** The writes of a walk over a loaded stack, given which entries succeed. */
  function Plan(stack: seq<UndoId>, ok: UndoId -> bool): seq<Write> {
    if stack == [] then [SessionCompensated]
    else if ok(stack[0]) then [EntryCompensated(stack[0])] + Plan(stack[1..], ok)
    else [EntryFailed(stack[0]), EffectFailed(stack[0]), SessionHalted]
  }

  /** How many entries at the front of the stack succeed. */
  function Prefix(stack: seq<UndoId>, ok: UndoId -> bool): (n: nat)
    ensures n <= |stack|
    ensures forall i :: 0 <= i < n ==> ok(stack[i])
    ensures n < |stack| ==> !ok(stack[n])
  {
    if stack == [] || !ok(stack[0]) then 0 else 1 + Prefix(stack[1..], ok)
  }

  function Repeat(u: UndoId, n: nat): (s: seq<UndoId>)
    ensures |s| == n && forall i :: 0 <= i < n ==> s[i] == u
  {
    if n == 0 then [] else [u] + Repeat(u, n - 1)
  }

  /** The requests of a walk in order: each entry's attempts, down to the first entry that fails. */
  function Requests(stack: seq<UndoId>, calls: UndoId -> CallResult): seq<UndoId> {
    if stack == [] then []
    else Repeat(stack[0], calls(stack[0]).attempts) + (if calls(stack[0]).ok then Requests(stack[1..], calls) else [])
  }

  ghost function Calls(net: Network, registry: Registry, rows: map<UndoId, UndoRow>): UndoId -> CallResult {
    (u: UndoId) => if u in rows then EntryResult(net, registry, u, rows[u]) else CallResult(false, 0)
  }

  ghost function Oks(calls: UndoId -> CallResult): UndoId -> bool {
    (u: UndoId) => calls(u).ok
  }

  /** The store with what was written and requested so far. */
  datatype Trace = Trace(db: Db, writes: seq<Write>, sent: seq<UndoId>)

  /** The calls are what the network will answer for these entries. */
  ghost predicate Predicts(calls: UndoId -> CallResult, net: Network, registry: Registry, rows: map<UndoId, UndoRow>, todo: seq<UndoId>) {
    forall u :: u in todo ==> u in rows && calls(u) == EntryResult(net, registry, u, rows[u])
  }

  lemma PredictsTail(calls: UndoId -> CallResult, net: Network, registry: Registry, rows: map<UndoId, UndoRow>,
                     u: UndoId, tail: seq<UndoId>, state: StepState)
    requires Predicts(calls, net, registry, rows, [u] + tail) && u !in tail
    ensures u in rows && calls(u) == EntryResult(net, registry, u, rows[u])
    ensures Predicts(calls, net, registry, rows[u := rows[u].(state := state)], tail)
  {
    assert u in [u] + tail;
    assert forall v :: v in tail ==> v in [u] + tail;
  }

  lemma HeadOf(todo: seq<UndoId>, i: nat)
    requires Distinct(todo) && i < |todo|
    ensures todo[i..] == [todo[i]] + todo[i + 1..] && todo[i] !in todo[i + 1..]
  {
  }

  /** Where a walk over the stack ends. */
  ghost function Finish(t: Trace, stack: seq<UndoId>, calls: UndoId -> CallResult): Trace {
    var plan := Plan(stack, Oks(calls));
    Trace(ApplyAll(t.db, plan), t.writes + plan, t.sent + Requests(stack, calls))
  }

  // ── The orchestrator ──────────────────────────────────────────────────────

  /** The orchestrator with its store. `writes` and `sent` record the statements and requests issued so far. */
  class SagaOrchestrator {
    const registry: Registry
    var rows: map<UndoId, UndoRow>
    var session: Option<SessionState>
    var failedEffects: set<UndoId>
    var writes: seq<Write>
    var sent: seq<UndoId>

    ghost function View(): Db
      requires session.Some?
      reads this
    {
      Db(rows, session.value, failedEffects)
    }

    ghost function Recorded(): Trace
      requires session.Some?
      reads this
    {
      Trace(View(), writes, sent)
    }

    constructor (registry: Registry, rows: map<UndoId, UndoRow>, session: Option<SessionState>)
      ensures this.registry == registry && this.rows == rows && this.session == session
      ensures failedEffects == {} && writes == [] && sent == []
    {
      this.registry, this.rows, this.session := registry, rows, session;
      failedEffects, writes, sent := {}, [], [];
    }

    /** One store statement. */
    method Issue(w: Write)
      requires session.Some?
      modifies this
      ensures session.Some? && View() == Apply(old(View()), w)
      ensures writes == old(writes) + [w] && sent == old(sent)
    {
      match w {
        case EntryCompensated(u) =>
          if u in rows { rows := rows[u := rows[u].(state := StepState.Compensated)]; }
        case EntryFailed(u) =>
          if u in rows { rows := rows[u := rows[u].(state := StepState.Failed)]; }
        case EffectFailed(u) => failedEffects := failedEffects + {u};
        case SessionHalted => session := Some(Halted);
        case SessionCompensated => session := Some(session.value.SetCompensated());
      }
      writes := writes + [w];
    }

    /** Loads the pending rows in descending position. */
    method LoadUndoStack() returns (stack: seq<UndoId>)
      ensures IsLoadedStack(rows, stack)
    {
      stack := [];
      var rest := set u | u in rows && rows[u].state.Pending?;
      ghost var all := rest;
      while rest != {}
        invariant rest <= all
        invariant forall u :: u in stack <==> u in all && u !in rest
        invariant Distinct(stack) && Descending(rows, stack)
        decreases |rest|
      {
        var u :| u in rest;
        InsertKeepsOrder(rows, u, stack);
        InsertAddsOne(rows, u, stack);
        stack := InsertByPosition(rows, u, stack);
        rest := rest - {u};
      }
    }

    /** Calls one entry's endpoint until a decision or until the retries are used up, and records a failure. */
    method ExecuteEntry(net: Network, u: UndoId) returns (ok: bool)
      requires session.Some? && u in rows
      modifies this
      ensures session.Some?
      ensures var c := EntryResult(net, registry, u, old(rows[u]));
              && ok == c.ok
              && sent == old(sent) + Repeat(u, c.attempts)
              && writes == old(writes) + (if ok then [] else [EntryFailed(u), EffectFailed(u)])
              && View() == (if ok then old(View()) else Apply(Apply(old(View()), EntryFailed(u)), EffectFailed(u)))
    {
      if rows[u].fnName !in registry.endpoints {
        Issue(EntryFailed(u));
        Issue(EffectFailed(u));
        return false;
      }
      var limit := RetryLimit(rows[u], registry);
      var attempt := 0;
      while true
        invariant attempt <= limit
        invariant Call(net, u, limit, 0) == Call(net, u, limit, attempt)
        invariant sent == old(sent) + Repeat(u, attempt)
        invariant session == old(session) && rows == old(rows) && failedEffects == old(failedEffects)
        invariant writes == old(writes)
        decreases limit - attempt
      {
        attempt := attempt + 1;
        RepeatSnoc(u, attempt - 1);
        sent := sent + [u];
        var response := net(u, attempt);
        if Succeeds(response) {
          return true;
        }
        if Decides(response) {
          break;
        }
        if attempt > limit {
          break;
        }
      }
      Issue(EntryFailed(u));
      Issue(EffectFailed(u));
      ok := false;
    }

    /** One turn of the walk: run the entry, then mark it compensated or halt the session. */
    method CompensateOne(net: Network, u: UndoId) returns (ok: bool)
      requires session.Some? && u in rows
      modifies this
      ensures session.Some?
      ensures var c := EntryResult(net, registry, u, old(rows[u]));
              && ok == c.ok
              && sent == old(sent) + Repeat(u, c.attempts)
              && writes == old(writes) + (if ok then [EntryCompensated(u)] else [EntryFailed(u), EffectFailed(u), SessionHalted])
              && View() == (if ok then Apply(old(View()), EntryCompensated(u))
                            else Apply(Apply(Apply(old(View()), EntryFailed(u)), EffectFailed(u)), SessionHalted))
    {
      ok := ExecuteEntry(net, u);
      if ok {
        Issue(EntryCompensated(u));
      } else {
        Issue(SessionHalted);
      }
    }

    /** Compensates the loaded entries in order, and halts the session at the first one that fails. */
    method Walk(net: Network, todo: seq<UndoId>, ghost calls: UndoId -> CallResult) returns (state: SessionState)
      requires session.Some? && Distinct(todo)
      requires Predicts(calls, net, registry, rows, todo)
      modifies this
      ensures session.Some? && Recorded() == Finish(old(Recorded()), todo, calls)
      ensures state == if Prefix(todo, Oks(calls)) == |todo| then SessionState.Compensated else Halted
    {
      var i := 0;
      assert todo[0..] == todo;
      while i < |todo|
        invariant 0 <= i <= |todo| && session.Some?
        invariant Predicts(calls, net, registry, rows, todo[i..])
        invariant Prefix(todo, Oks(calls)) == i + Prefix(todo[i..], Oks(calls))
        invariant Finish(Recorded(), todo[i..], calls) == Finish(old(Recorded()), todo, calls)
      {
        var u := todo[i];
        ghost var tail, before := todo[i + 1..], Recorded();
        HeadOf(todo, i);
        PrefixCons(u, tail, calls);
        FinishCons(before, u, tail, calls);
        PredictsTail(calls, net, registry, rows, u, tail, StepState.Compensated);
        var ok := CompensateOne(net, u);
        if !ok {
          return Halted;
        }
        i := i + 1;
      }
      assert todo[i..] == [];
      FinishNil(Recorded(), calls);
      Issue(SessionCompensated);
      state := SessionState.Compensated;
    }

    /** Rolls the session back; `stack` is what the stack query returned. */
    method CompensateSession(net: Network) returns (r: Result<SessionState>, ghost stack: seq<UndoId>)
      modifies this
      ensures session.None? <==> old(session).None?
      ensures old(session).None? ==> r.Err? && unchanged(this)
      ensures old(session).Some? && old(session).value.IsTerminal() ==> r == Ok(old(session).value) && unchanged(this)
      ensures old(session).Some? && !old(session).value.IsTerminal() ==>
                var calls := Calls(net, registry, old(rows)); var plan := Plan(stack, Oks(calls));
                && IsLoadedStack(old(rows), stack)
                && View() == ApplyAll(old(View()), plan)
                && writes == old(writes) + plan
                && sent == old(sent) + Requests(stack, calls)
                && r == Ok(if Prefix(stack, Oks(calls)) == |stack| then SessionState.Compensated else Halted)
    {
      stack := [];
      if session.None? {
        return Err("session not found"), stack;
      }
      if session.value.IsTerminal() {
        return Ok(session.value), stack;
      }
      var todo := LoadUndoStack();
      stack := todo;
      var state := Walk(net, todo, Calls(net, registry, rows));
      r := Ok(state);
    }
  }

  lemma ApplyOne(db: Db, a: Write)
    ensures ApplyAll(db, [a]) == Apply(db, a)
  {
    assert [a][1..] == [];
    assert ApplyAll(Apply(db, a), []) == Apply(db, a);
  }

  lemma ApplyThree(db: Db, a: Write, b: Write, c: Write)
    ensures ApplyAll(db, [a, b, c]) == Apply(Apply(Apply(db, a), b), c)
  {
    assert [a, b, c][1..] == [b, c] && [b, c][1..] == [c];
    assert ApplyAll(db, [a, b, c]) == ApplyAll(Apply(db, a), [b, c]);
    assert ApplyAll(Apply(db, a), [b, c]) == ApplyAll(Apply(Apply(db, a), b), [c]);
    ApplyOne(Apply(Apply(db, a), b), c);
  }

  lemma PrefixCons(u: UndoId, tail: seq<UndoId>, calls: UndoId -> CallResult)
    ensures Prefix([u] + tail, Oks(calls)) == (if calls(u).ok then 1 + Prefix(tail, Oks(calls)) else 0)
  {
    assert ([u] + tail)[1..] == tail;
  }

  lemma PlanCons(u: UndoId, tail: seq<UndoId>, calls: UndoId -> CallResult)
    ensures Plan([u] + tail, Oks(calls)) == (if calls(u).ok then [EntryCompensated(u)] + Plan(tail, Oks(calls))
                                             else [EntryFailed(u), EffectFailed(u), SessionHalted])
    ensures Requests([u] + tail, calls) == Repeat(u, calls(u).attempts) + (if calls(u).ok then Requests(tail, calls) else [])
  {
    assert ([u] + tail)[0] == u && ([u] + tail)[1..] == tail;
  }

  lemma ApplyCons(db: Db, w: Write, rest: seq<Write>)
    ensures ApplyAll(db, [w] + rest) == ApplyAll(Apply(db, w), rest)
  {
    assert ([w] + rest)[0] == w && ([w] + rest)[1..] == rest;
  }

  /** One turn of the walk: on success the walk goes on behind the entry, on failure it ends there. */
  lemma FinishCons(t: Trace, u: UndoId, tail: seq<UndoId>, calls: UndoId -> CallResult)
    ensures var c := calls(u);
            Finish(t, [u] + tail, calls) ==
              if c.ok then Finish(Trace(Apply(t.db, EntryCompensated(u)), t.writes + [EntryCompensated(u)],
                                        t.sent + Repeat(u, c.attempts)), tail, calls)
              else Trace(Apply(Apply(Apply(t.db, EntryFailed(u)), EffectFailed(u)), SessionHalted),
                         t.writes + [EntryFailed(u), EffectFailed(u), SessionHalted], t.sent + Repeat(u, c.attempts))
  {
    PlanCons(u, tail, calls);
    if calls(u).ok {
      ApplyCons(t.db, EntryCompensated(u), Plan(tail, Oks(calls)));
      ConcatAssociates(t.writes, [EntryCompensated(u)], Plan(tail, Oks(calls)));
      ConcatAssociates(t.sent, Repeat(u, calls(u).attempts), Requests(tail, calls));
    } else {
      ApplyThree(t.db, EntryFailed(u), EffectFailed(u), SessionHalted);
      assert Repeat(u, calls(u).attempts) + [] == Repeat(u, calls(u).attempts);
    }
  }

  lemma FinishNil(t: Trace, calls: UndoId -> CallResult)
    ensures Finish(t, [], calls) == Trace(Apply(t.db, SessionCompensated), t.writes + [SessionCompensated], t.sent)
  {
    ApplyOne(t.db, SessionCompensated);
    assert t.sent + [] == t.sent;
  }

  lemma {:induction false} RepeatSnoc(u: UndoId, n: nat)
    ensures Repeat(u, n + 1) == Repeat(u, n) + [u]
  {
    if n > 0 {
      RepeatSnoc(u, n - 1);
    }
  }

  // ── What a run guarantees ─────────────────────────────────────────────────

  /** The state a walk gives one row that had state s. */
  function Fate(stack: seq<UndoId>, ok: UndoId -> bool, u: UndoId, s: StepState): StepState {
    if stack == [] then s
    else if u == stack[0] then (if ok(u) then StepState.Compensated else StepState.Failed)
    else if ok(stack[0]) then Fate(stack[1..], ok, u, s)
    else s
  }

  lemma {:induction false} RowAfterRun(db: Db, stack: seq<UndoId>, ok: UndoId -> bool, u: UndoId)
    requires IsLoadedStack(db.rows, stack)
    ensures var t := ApplyAll(db, Plan(stack, ok));
            && t.rows.Keys == db.rows.Keys
            && (u in db.rows ==> t.rows[u] == db.rows[u].(state := Fate(stack, ok, u, db.rows[u].state)))
    decreases |stack|
  {
    if stack == [] {
      assert Plan(stack, ok)[1..] == [];
    } else if ok(stack[0]) {
      var db' := Apply(db, EntryCompensated(stack[0]));
      TailIsLoaded(db.rows, stack, StepState.Compensated);
      assert Plan(stack, ok)[1..] == Plan(stack[1..], ok);
      RowAfterRun(db', stack[1..], ok, u);
      assert stack[0] !in stack[1..];
      FateOutside(stack[1..], ok, stack[0], StepState.Compensated);
    } else {
      ApplyThree(db, EntryFailed(stack[0]), EffectFailed(stack[0]), SessionHalted);
      assert stack[0] in stack;
    }
  }

  lemma {:induction false} FateOutside(stack: seq<UndoId>, ok: UndoId -> bool, u: UndoId, s: StepState)
    requires u !in stack
    ensures Fate(stack, ok, u, s) == s
    decreases |stack|
  {
    if stack != [] {
      FateOutside(stack[1..], ok, u, s);
    }
  }

  lemma {:induction false} FateAt(stack: seq<UndoId>, ok: UndoId -> bool, i: nat, s: StepState)
    requires Distinct(stack) && i < |stack|
    ensures var n := Prefix(stack, ok);
            Fate(stack, ok, stack[i], s) == if i < n then StepState.Compensated else if i == n then StepState.Failed else s
    decreases |stack|
  {
    if i > 0 && ok(stack[0]) {
      FateAt(stack[1..], ok, i - 1, s);
    }
  }

  lemma {:induction false} SessionAfterRun(db: Db, stack: seq<UndoId>, ok: UndoId -> bool)
    ensures var t := ApplyAll(db, Plan(stack, ok)); var n := Prefix(stack, ok);
            && t.session == (if n == |stack| then db.session.SetCompensated() else Halted)
            && t.failedEffects == db.failedEffects + (if n == |stack| then {} else {stack[n]})
    decreases |stack|
  {
    if stack == [] {
      assert Plan(stack, ok)[1..] == [];
    } else if ok(stack[0]) {
      assert Plan(stack, ok)[1..] == Plan(stack[1..], ok);
      SessionAfterRun(Apply(db, EntryCompensated(stack[0])), stack[1..], ok);
    } else {
      ApplyThree(db, EntryFailed(stack[0]), EffectFailed(stack[0]), SessionHalted);
    }
  }

  /**
   A completed run splits the stack at the first entry that fails: everything above it is compensated,
   it is failed with its effect, everything below and every other row is untouched and the session is
   halted; with no such entry the whole stack is compensated.
   */
  lemma RollbackSplits(db: Db, stack: seq<UndoId>, ok: UndoId -> bool)
    requires IsLoadedStack(db.rows, stack)
    ensures var t := ApplyAll(db, Plan(stack, ok)); var n := Prefix(stack, ok);
            && t.rows.Keys == db.rows.Keys
            && (forall i :: 0 <= i < n ==> stack[i] in db.rows && t.rows[stack[i]] == db.rows[stack[i]].(state := StepState.Compensated))
            && (n < |stack| ==> stack[n] in db.rows && t.rows[stack[n]] == db.rows[stack[n]].(state := StepState.Failed))
            && (forall i :: n < i < |stack| ==> stack[i] in db.rows && t.rows[stack[i]] == db.rows[stack[i]])
            && (forall u :: u in db.rows && u !in stack ==> t.rows[u] == db.rows[u])
            && t.session == (if n == |stack| then db.session.SetCompensated() else Halted)
            && t.failedEffects == db.failedEffects + (if n == |stack| then {} else {stack[n]})
  {
    var t := ApplyAll(db, Plan(stack, ok));
    SessionAfterRun(db, stack, ok);
    RowAfterRun(db, stack, ok, "");
    forall i | 0 <= i < |stack|
      ensures stack[i] in db.rows
      ensures t.rows[stack[i]] == db.rows[stack[i]].(state := Fate(stack, ok, stack[i], db.rows[stack[i]].state))
    {
      assert stack[i] in stack;
      RowAfterRun(db, stack, ok, stack[i]);
    }
    forall i | 0 <= i < |stack| {
      FateAt(stack, ok, i, db.rows[stack[i]].state);
    }
    forall u | u in db.rows && u !in stack ensures t.rows[u] == db.rows[u] {
      RowAfterRun(db, stack, ok, u);
      FateOutside(stack, ok, u, db.rows[u].state);
    }
  }

  /** The state a run reports is the stored one, except when a session that awaits approval was fully compensated. */
  lemma ReportedStateIsStoredIff(db: Db, stack: seq<UndoId>, ok: UndoId -> bool)
    requires IsLoadedStack(db.rows, stack) && !db.session.IsTerminal()
    ensures var n := Prefix(stack, ok);
            (if n == |stack| then SessionState.Compensated else Halted) == ApplyAll(db, Plan(stack, ok)).session
            <==> !(n == |stack| && db.session.AwaitingApproval?)
  {
    RollbackSplits(db, stack, ok);
  }

  /** After a completed run a later run sends no request: the session is terminal or nothing is pending. */
  lemma LaterRunIsSilent(db: Db, stack: seq<UndoId>, ok: UndoId -> bool, later: seq<UndoId>, calls: UndoId -> CallResult)
    requires IsLoadedStack(db.rows, stack)
    requires IsLoadedStack(ApplyAll(db, Plan(stack, ok)).rows, later)
    ensures ApplyAll(db, Plan(stack, ok)).session.IsTerminal() || Requests(later, calls) == []
  {
    var t := ApplyAll(db, Plan(stack, ok));
    RollbackSplits(db, stack, ok);
    if Prefix(stack, ok) == |stack| {
      forall u | u in t.rows ensures !t.rows[u].state.Pending? {
        if u in stack {
          var i :| 0 <= i < |stack| && stack[i] == u;
        }
      }
      EmptyIffNonePending(t.rows, later);
    }
  }

  /** The entry is reached by the walk: it stands at or above the first one that fails. */
  ghost predicate Reached(stack: seq<UndoId>, calls: UndoId -> CallResult, u: UndoId) {
    exists i :: 0 <= i < |stack| && i <= Prefix(stack, Oks(calls)) && stack[i] == u
  }

  lemma ReachedCons(head: UndoId, tail: seq<UndoId>, calls: UndoId -> CallResult, u: UndoId)
    ensures Reached([head] + tail, calls, u) <==> head == u || (calls(head).ok && Reached(tail, calls, u))
  {
    var stack := [head] + tail;
    PrefixCons(head, tail, calls);
    if calls(head).ok && Reached(tail, calls, u) {
      var i :| 0 <= i < |tail| && i <= Prefix(tail, Oks(calls)) && tail[i] == u;
      assert stack[i + 1] == u;
    }
    if head == u {
      assert stack[0] == u;
    }
    if Reached(stack, calls, u) && head != u {
      var i :| 0 <= i < |stack| && i <= Prefix(stack, Oks(calls)) && stack[i] == u;
      assert tail[i - 1] == u;
    }
  }

  /** A run sends exactly the attempts of the entries down to the first failing one, and nothing for any other entry. */
  lemma {:induction false} RequestsPerEntry(stack: seq<UndoId>, calls: UndoId -> CallResult, u: UndoId)
    requires Distinct(stack)
    ensures multiset(Requests(stack, calls))[u] == if Reached(stack, calls, u) then calls(u).attempts else 0
    decreases |stack|
  {
    if stack != [] {
      var head, tail := stack[0], stack[1..];
      assert stack == [head] + tail && head !in tail;
      PlanCons(head, tail, calls);
      RepeatCount(head, calls(head).attempts, u);
      RequestsPerEntry(tail, calls, u);
      ReachedCons(head, tail, calls, u);
    }
  }

  lemma {:induction false} RepeatCount(u: UndoId, n: nat, v: UndoId)
    ensures multiset(Repeat(u, n))[v] == if u == v then n else 0
  {
    if n > 0 {
      RepeatCount(u, n - 1, v);
    }
  }

  /** No entry gets more than its retry limit plus one requests in one run. */
  lemma RequestsBounded(net: Network, registry: Registry, rows: map<UndoId, UndoRow>, stack: seq<UndoId>, u: UndoId)
    requires IsLoadedStack(rows, stack) && u in rows
    ensures multiset(Requests(stack, Calls(net, registry, rows)))[u] <= RetryLimit(rows[u], registry) + 1
  {
    RequestsPerEntry(stack, Calls(net, registry, rows), u);
    if rows[u].fnName in registry.endpoints {
      CallStopsAtFirstDecision(net, u, RetryLimit(rows[u], registry), 0);
    }
  }

  // ── Cutting a run short ───────────────────────────────────────────────────

  /** A run cut after k writes is inside the window: an entry is failed and the session is not halted yet. */
  predicate InHaltWindow(plan: seq<Write>, k: nat)
    requires k <= |plan|
  {
    0 < k && (plan[k - 1].EntryFailed? || plan[k - 1].EffectFailed?)
  }

  /** The rows after running again from a database left by a cut run. */
  ghost function Rerun(cut: Db, stack: seq<UndoId>, ok: UndoId -> bool): Db {
    if cut.session.IsTerminal() then cut else ApplyAll(cut, Plan(stack, ok))
  }

  /**
   With fixed per-entry verdicts, a run cut after any k of its writes and then run again ends in the
   same undo rows as the uncut run if and only if it was not cut inside the window or no entry lies
   below the failing one.
   */
  lemma {:induction false} CutAndRerun(db: Db, stack: seq<UndoId>, ok: UndoId -> bool, k: nat, again: seq<UndoId>)
    requires DistinctPositions(db.rows) && IsLoadedStack(db.rows, stack) && !db.session.IsTerminal()
    requires k <= |Plan(stack, ok)| && IsLoadedStack(ApplyAll(db, Plan(stack, ok)[..k]).rows, again)
    ensures Rerun(ApplyAll(db, Plan(stack, ok)[..k]), again, ok).rows == ApplyAll(db, Plan(stack, ok)).rows
            <==> !(InHaltWindow(Plan(stack, ok), k) && Prefix(stack, ok) + 1 < |stack|)
    decreases |stack|
  {
    var plan := Plan(stack, ok);
    if k == 0 {
      LoadedStackIsUnique(db.rows, stack, again);
    } else if stack == [] {
      assert plan[..k] == plan;
      CutAfterLast(db, ok, again);
    } else if ok(stack[0]) {
      var db' := Apply(db, EntryCompensated(stack[0]));
      TailIsLoaded(db.rows, stack, StepState.Compensated);
      assert plan[1..] == Plan(stack[1..], ok);
      assert plan[..k][0] == plan[0] && plan[..k][1..] == plan[1..][..k - 1];
      CutAndRerun(db', stack[1..], ok, k - 1, again);
    } else {
      CutAfterFailure(db, stack, ok, k, again);
    }
  }

  lemma CutAfterLast(db: Db, ok: UndoId -> bool, again: seq<UndoId>)
    requires IsLoadedStack(db.rows, []) && IsLoadedStack(ApplyAll(db, Plan([], ok)).rows, again)
    ensures Rerun(ApplyAll(db, Plan([], ok)), again, ok).rows == ApplyAll(db, Plan([], ok)).rows
  {
    ApplyOne(db, SessionCompensated);
    var t := Apply(db, SessionCompensated);
    EmptyIffNonePending(db.rows, []);
    EmptyIffNonePending(t.rows, again);
    ApplyOne(t, SessionCompensated);
  }

  lemma CutAfterFailure(db: Db, stack: seq<UndoId>, ok: UndoId -> bool, k: nat, again: seq<UndoId>)
    requires DistinctPositions(db.rows) && IsLoadedStack(db.rows, stack) && !db.session.IsTerminal()
    requires stack != [] && !ok(stack[0]) && 0 < k <= 3
    requires IsLoadedStack(ApplyAll(db, Plan(stack, ok)[..k]).rows, again)
    ensures Rerun(ApplyAll(db, Plan(stack, ok)[..k]), again, ok).rows == ApplyAll(db, Plan(stack, ok)).rows
            <==> !(k < 3 && |stack| > 1)
  {
    var plan := Plan(stack, ok);
    assert plan == [EntryFailed(stack[0]), EffectFailed(stack[0]), SessionHalted];
    ApplyThree(db, plan[0], plan[1], plan[2]);
    if k == 3 {
      assert plan[..k] == plan;
    } else {
      PrefixOfThree(db, plan, k);
      CutInWindow(db, stack, ok, ApplyAll(db, plan[..k]), again);
    }
  }

  lemma CutInWindow(db: Db, stack: seq<UndoId>, ok: UndoId -> bool, cut: Db, again: seq<UndoId>)
    requires DistinctPositions(db.rows) && IsLoadedStack(db.rows, stack) && stack != [] && IsLoadedStack(cut.rows, again)
    requires cut.rows == Apply(db, EntryFailed(stack[0])).rows && cut.session == db.session && !db.session.IsTerminal()
    ensures Rerun(cut, again, ok).rows == cut.rows <==> |stack| == 1
  {
    TailIsLoaded(db.rows, stack, StepState.Failed);
    LoadedStackIsUnique(cut.rows, stack[1..], again);
    TouchesRowsIffNonEmpty(cut, again, ok);
  }

  lemma PrefixOfThree(db: Db, plan: seq<Write>, k: nat)
    requires |plan| == 3 && 0 < k < 3
    ensures ApplyAll(db, plan[..k]) == (if k == 1 then Apply(db, plan[0]) else Apply(Apply(db, plan[0]), plan[1]))
  {
    var first := Apply(db, plan[0]);
    assert plan[..k][0] == plan[0];
    if k == 1 {
      assert plan[..k][1..] == [];
    } else {
      assert plan[..k][1..] == [plan[1]] && [plan[1]][1..] == [];
      assert ApplyAll(first, [plan[1]]) == ApplyAll(Apply(first, plan[1]), []);
    }
  }

  lemma TouchesRowsIffNonEmpty(db: Db, stack: seq<UndoId>, ok: UndoId -> bool)
    requires IsLoadedStack(db.rows, stack)
    ensures ApplyAll(db, Plan(stack, ok)).rows == db.rows <==> stack == []
  {
    RollbackSplits(db, stack, ok);
    var t := ApplyAll(db, Plan(stack, ok));
    if stack == [] {
      assert forall u :: u in db.rows ==> t.rows[u] == db.rows[u];
    } else {
      assert stack[0] in stack;
      assert !t.rows[stack[0]].state.Pending?;
    }
  }
}
