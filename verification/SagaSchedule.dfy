/**
 The orchestrator as it is written is one schedule of the compensation protocol: whatever the network
 answers, there are protocol steps of one worker that send the same requests, in the same order, and
 leave the same rows, effects and session. What holds of every run of the protocol holds of it.
 */
module SagaSchedule {
  import opened Types
  import opened UndoStack
  import opened SagaProtocol
  import MockToolServer
  import Code = SagaRollback

  // ── Paths ─────────────────────────────────────────────────────────────────

  ghost predicate IsPath(states: seq<World>, steps: seq<Step>) {
    && |states| == |steps| + 1
    && forall i {:trigger Takes(states, steps, i)} :: 0 <= i < |steps| ==> Takes(states, steps, i)
  }

  ghost predicate Leads(o: World, s: World) {
    exists states, steps :: IsPath(states, steps) && states[0] == o && states[|steps|] == s
  }

  lemma LeadsToSelf(s: World)
    ensures Leads(s, s)
  {
    var states: seq<World>, steps: seq<Step> := [s], [];
    assert IsPath(states, steps);
  }

  lemma PathExtends(states: seq<World>, steps: seq<Step>, step: Step)
    requires IsPath(states, steps) && Enabled(states[|steps|], step)
    ensures IsPath(states + [Next(states[|steps|], step)], steps + [step])
  {
    var states', steps' := states + [Next(states[|steps|], step)], steps + [step];
    forall i {:trigger Takes(states', steps', i)} | 0 <= i < |steps'|
      ensures Takes(states', steps', i)
    {
      assert states'[i] == states[i];
      if i < |steps| {
        assert Takes(states, steps, i);
        assert states'[i + 1] == states[i + 1] && steps'[i] == steps[i];
      }
    }
  }

  lemma Go(o: World, s: World, step: Step)
    requires Leads(o, s) && Enabled(s, step)
    ensures Leads(o, Next(s, step))
  {
    var states, steps :| IsPath(states, steps) && states[0] == o && states[|steps|] == s;
    PathExtends(states, steps, step);
    var states' := states + [Next(s, step)];
    assert states'[0] == o && states'[|steps + [step]|] == Next(s, step);
  }

  // ── Numbered requests ─────────────────────────────────────────────────────

  /** The requests of `base`, and those sent since, numbered from b on. */
  ghost function Sent(base: map<RequestId, UndoId>, b: nat, sent: seq<UndoId>): map<RequestId, UndoId> {
    if sent == [] then base else Sent(base, b, sent[..|sent| - 1])[b + |sent| - 1 := sent[|sent| - 1]]
  }

  ghost predicate Unused(base: map<RequestId, UndoId>, b: nat) {
    forall r :: r in base ==> r < b
  }

  lemma {:induction false} SentBelow(base: map<RequestId, UndoId>, b: nat, sent: seq<UndoId>)
    requires Unused(base, b)
    ensures Unused(Sent(base, b, sent), b + |sent|)
    decreases |sent|
  {
    if sent != [] {
      SentBelow(base, b, sent[..|sent| - 1]);
    }
  }

  lemma {:induction false} SentSnoc(base: map<RequestId, UndoId>, b: nat, sent: seq<UndoId>, u: UndoId)
    requires Unused(base, b)
    ensures b + |sent| !in Sent(base, b, sent) && Sent(base, b, sent)[b + |sent| := u] == Sent(base, b, sent + [u])
  {
    SentBelow(base, b, sent);
    assert (sent + [u])[..|sent|] == sent;
  }

  /** Where one worker stands, with what it has sent so far. */
  ghost predicate Stands(o: World, s: World, w: WorkerId, pc: Pc, base: map<RequestId, UndoId>, b: nat, sent: seq<UndoId>) {
    && Leads(o, s) && w in s.workers && s.workers == o.workers[w := pc] && s.registry == o.registry
    && Unused(base, b) && s.requests == Sent(base, b, sent)
  }

  /** The tables the orchestrator writes. */
  ghost function DbOf(s: World): Code.Db {
    Code.Db(s.rows, s.session, s.failedEffects)
  }

  /** No response for the entry is a permanent error. */
  ghost predicate NeverRefuses(net: Code.Network, u: UndoId) {
    forall k :: Code.Decides(net(u, k)) ==> Code.Succeeds(net(u, k))
  }

  // ── One attempt ───────────────────────────────────────────────────────────

  lemma SendsOne(o: World, s: World, w: WorkerId, todo: seq<UndoId>, attempts: nat, base: map<RequestId, UndoId>, b: nat, sent: seq<UndoId>)
    returns (t: World)
    requires Stands(o, s, w, Sending(todo, attempts), base, b, sent) && todo != []
    ensures Stands(o, t, w, Waiting(todo, attempts + 1, b + |sent|), base, b, sent + [todo[0]])
    ensures DbOf(t) == DbOf(s) && t.server == s.server
    ensures b + |sent| in t.requests && t.requests[b + |sent|] == todo[0]
  {
    SentSnoc(base, b, sent, todo[0]);
    Go(o, s, Send(w, b + |sent|));
    t := Next(s, Send(w, b + |sent|));
  }

  /** The request is delivered and its reply received. */
  lemma Answered(o: World, s: World, w: WorkerId, todo: seq<UndoId>, attempts: nat, r: RequestId, base: map<RequestId, UndoId>, b: nat,
                 sent: seq<UndoId>, handler: MockToolServer.Handler) returns (t: World)
    requires Stands(o, s, w, Waiting(todo, attempts, r), base, b, sent) && todo != [] && todo[0] in s.rows
    requires r in s.requests && s.requests[r] == todo[0]
    requires handler == MockToolServer.Returns(true) || (handler.Unknown? && !Ran(s, todo[0]))
    ensures Stands(o, t, w, if handler.Unknown? then GivingUp(todo) else Succeeded(todo), base, b, sent) && DbOf(t) == DbOf(s)
    ensures forall v :: Ran(t, v) ==> Ran(s, v) || v == todo[0]
    ensures handler.Unknown? ==> forall v :: Ran(t, v) ==> Ran(s, v)
  {
    Go(o, s, Deliver(r, handler));
    DeliverAddsOneRun(s, r, handler);
    var u := Next(s, Deliver(r, handler));
    var status := if handler.Unknown? then MockToolServer.NOT_FOUND else MockToolServer.OK;
    assert (r, status) in u.replies;
    Go(o, u, Receive(w, status));
    t := Next(u, Receive(w, status));
  }

  lemma GoesUnanswered(o: World, s: World, w: WorkerId, todo: seq<UndoId>, attempts: nat, r: RequestId, base: map<RequestId, UndoId>, b: nat,
                       sent: seq<UndoId>) returns (t: World)
    requires Stands(o, s, w, Waiting(todo, attempts, r), base, b, sent) && todo != [] && todo[0] in s.rows
    ensures Stands(o, t, w, AfterRetryable(RetryLimit(s.rows[todo[0]], s.registry), todo, attempts), base, b, sent)
    ensures DbOf(t) == DbOf(s) && t.server == s.server
  {
    Go(o, s, LoseReply(w));
    t := Next(s, LoseReply(w));
  }

  // ── One entry ─────────────────────────────────────────────────────────────

  /** An attempt whose response decides: a permanent error is an unknown tool to the protocol. */
  lemma Decided(o: World, s: World, w: WorkerId, response: Code.Response, todo: seq<UndoId>, attempts: nat,
                base: map<RequestId, UndoId>, b: nat, sent: seq<UndoId>) returns (t: World)
    requires Stands(o, s, w, Sending(todo, attempts), base, b, sent) && todo != [] && todo[0] in s.rows
    requires Code.Decides(response) && (Ran(s, todo[0]) ==> Code.Succeeds(response))
    ensures Stands(o, t, w, if Code.Succeeds(response) then Succeeded(todo) else GivingUp(todo), base, b, sent + [todo[0]])
    ensures DbOf(t) == DbOf(s) && forall v :: Ran(t, v) ==> Ran(s, v) || v == todo[0]
  {
    var handler := if Code.Succeeds(response) then MockToolServer.Returns(true) else MockToolServer.Unknown;
    var s1 := SendsOne(o, s, w, todo, attempts, base, b, sent);
    t := Answered(o, s1, w, todo, attempts + 1, b + |sent|, base, b, sent + [todo[0]], handler);
  }

  /** An attempt whose response decides nothing: to the protocol, a lost reply. */
  lemma Undecided(o: World, s: World, w: WorkerId, todo: seq<UndoId>, attempts: nat, base: map<RequestId, UndoId>, b: nat, sent: seq<UndoId>)
    returns (t: World)
    requires Stands(o, s, w, Sending(todo, attempts), base, b, sent) && todo != [] && todo[0] in s.rows
    ensures Stands(o, t, w, AfterRetryable(RetryLimit(s.rows[todo[0]], s.registry), todo, attempts + 1), base, b, sent + [todo[0]])
    ensures DbOf(t) == DbOf(s) && t.server == s.server
  {
    var s1 := SendsOne(o, s, w, todo, attempts, base, b, sent);
    t := GoesUnanswered(o, s1, w, todo, attempts + 1, b + |sent|, base, b, sent + [todo[0]]);
  }

  /** The requests that the retry loop still sends. */
  ghost function Rest(net: Code.Network, u: UndoId, limit: nat, attempts: nat): seq<UndoId>
    requires attempts <= limit
  {
    var c := Code.Call(net, u, limit, attempts);
    if c.attempts < attempts then [] else Code.Repeat(u, c.attempts - attempts)
  }

  lemma {:induction false} RestUnfolds(net: Code.Network, u: UndoId, limit: nat, attempts: nat)
    requires attempts <= limit
    ensures var r := net(u, attempts + 1); var c := Code.Call(net, u, limit, attempts);
            && (Code.Decides(r) ==> c.ok == Code.Succeeds(r) && Rest(net, u, limit, attempts) == [u])
            && (!Code.Decides(r) && attempts == limit ==> !c.ok && Rest(net, u, limit, attempts) == [u])
            && (!Code.Decides(r) && attempts < limit ==>
                  c == Code.Call(net, u, limit, attempts + 1) && Rest(net, u, limit, attempts) == [u] + Rest(net, u, limit, attempts + 1))
  {
    assert Code.Repeat(u, 1) == [u];
    if attempts < limit {
      Code.CallStopsAtFirstDecision(net, u, limit, attempts + 1);
    }
  }

  /** The retry loop. */
  lemma {:induction false} Retries(o: World, s: World, w: WorkerId, net: Code.Network, todo: seq<UndoId>, limit: nat, attempts: nat,
                                   base: map<RequestId, UndoId>, b: nat, sent: seq<UndoId>) returns (t: World)
    requires Stands(o, s, w, Sending(todo, attempts), base, b, sent) && todo != [] && todo[0] in s.rows
    requires Ran(s, todo[0]) ==> NeverRefuses(net, todo[0])
    requires limit == RetryLimit(s.rows[todo[0]], s.registry) && attempts <= limit
    ensures Stands(o, t, w, if Code.Call(net, todo[0], limit, attempts).ok then Succeeded(todo) else GivingUp(todo), base, b,
                   sent + Rest(net, todo[0], limit, attempts))
    ensures DbOf(t) == DbOf(s) && forall v :: Ran(t, v) ==> Ran(s, v) || v == todo[0]
    decreases limit - attempts
  {
    var u := todo[0];
    RestUnfolds(net, u, limit, attempts);
    if Code.Decides(net(u, attempts + 1)) {
      t := Decided(o, s, w, net(u, attempts + 1), todo, attempts, base, b, sent);
    } else {
      t := Undecided(o, s, w, todo, attempts, base, b, sent);
      if attempts < limit {
        t := Retries(o, t, w, net, todo, limit, attempts + 1, base, b, sent + [u]);
        ConcatAssociates(sent, [u], Rest(net, u, limit, attempts + 1));
      }
    }
  }

  /** Taking an entry and calling its endpoint, if it has one. */
  lemma Calls(o: World, s: World, w: WorkerId, net: Code.Network, todo: seq<UndoId>, base: map<RequestId, UndoId>, b: nat, sent: seq<UndoId>)
    returns (t: World)
    requires Stands(o, s, w, Walking(todo), base, b, sent) && todo != [] && todo[0] in s.rows
    requires Ran(s, todo[0]) ==> NeverRefuses(net, todo[0])
    ensures var c := Code.EntryResult(net, s.registry, todo[0], s.rows[todo[0]]);
            Stands(o, t, w, if c.ok then Succeeded(todo) else GivingUp(todo), base, b, sent + Code.Repeat(todo[0], c.attempts))
    ensures DbOf(t) == DbOf(s) && forall v :: Ran(t, v) ==> Ran(s, v) || v == todo[0]
  {
    Go(o, s, TakeEntry(w));
    t := Next(s, TakeEntry(w));
    if s.rows[todo[0]].fnName in s.registry.endpoints {
      t := Retries(o, t, w, net, todo, RetryLimit(s.rows[todo[0]], s.registry), 0, base, b, sent);
    } else {
      assert Code.Repeat(todo[0], 0) == [] && sent + [] == sent;
    }
  }

  lemma MarksCompensated(o: World, s: World, w: WorkerId, todo: seq<UndoId>, base: map<RequestId, UndoId>, b: nat, sent: seq<UndoId>)
    returns (t: World)
    requires Stands(o, s, w, Succeeded(todo), base, b, sent) && todo != [] && todo[0] in s.rows
    ensures Stands(o, t, w, Walking(todo[1..]), base, b, sent)
    ensures DbOf(t) == Code.Apply(DbOf(s), Code.EntryCompensated(todo[0])) && t.server == s.server
  {
    Go(o, s, MarkCompensated(w));
    t := Next(s, MarkCompensated(w));
  }

  lemma FailsAndHalts(o: World, s: World, w: WorkerId, todo: seq<UndoId>, base: map<RequestId, UndoId>, b: nat, sent: seq<UndoId>)
    returns (t: World)
    requires Stands(o, s, w, GivingUp(todo), base, b, sent) && todo != [] && todo[0] in s.rows
    ensures Stands(o, t, w, Returned(Halted), base, b, sent)
    ensures DbOf(t) == Code.Apply(Code.Apply(Code.Apply(DbOf(s), Code.EntryFailed(todo[0])), Code.EffectFailed(todo[0])),
                                  Code.SessionHalted)
  {
    Go(o, s, MarkEntryFailed(w));
    var s1 := Next(s, MarkEntryFailed(w));
    Go(o, s1, MarkEffectFailed(w));
    var s2 := Next(s1, MarkEffectFailed(w));
    Go(o, s2, Halt(w));
    t := Next(s2, Halt(w));
  }

  lemma Finishes(o: World, s: World, w: WorkerId, base: map<RequestId, UndoId>, b: nat, sent: seq<UndoId>) returns (t: World)
    requires Stands(o, s, w, Walking([]), base, b, sent)
    ensures Stands(o, t, w, Returned(SessionState.Compensated), base, b, sent)
    ensures DbOf(t) == Code.Apply(DbOf(s), Code.SessionCompensated)
  {
    Go(o, s, Finish(w));
    t := Next(s, Finish(w));
  }

  // ── The walk ──────────────────────────────────────────────────────────────

  /** Entries that have run are answered from the store, so the network brings no permanent error for them. */
  ghost predicate Deduplicates(s: World, net: Code.Network, todo: seq<UndoId>) {
    forall u :: u in todo && Ran(s, u) ==> NeverRefuses(net, u)
  }

  ghost function Ending(todo: seq<UndoId>, calls: UndoId -> Code.CallResult): SessionState {
    if Code.Prefix(todo, Code.Oks(calls)) == |todo| then SessionState.Compensated else Halted
  }

  /** One turn of the walk. */
  lemma Turn(o: World, s: World, w: WorkerId, net: Code.Network, todo: seq<UndoId>, base: map<RequestId, UndoId>, b: nat, sent: seq<UndoId>)
    returns (t: World)
    requires Stands(o, s, w, Walking(todo), base, b, sent) && todo != [] && todo[0] in s.rows
    requires Ran(s, todo[0]) ==> NeverRefuses(net, todo[0])
    ensures var u := todo[0]; var c := Code.EntryResult(net, s.registry, u, s.rows[u]);
            && Stands(o, t, w, if c.ok then Walking(todo[1..]) else Returned(Halted), base, b, sent + Code.Repeat(u, c.attempts))
            && DbOf(t) == (if c.ok then Code.Apply(DbOf(s), Code.EntryCompensated(u))
                           else Code.Apply(Code.Apply(Code.Apply(DbOf(s), Code.EntryFailed(u)), Code.EffectFailed(u)), Code.SessionHalted))
            && (c.ok ==> forall v :: Ran(t, v) ==> Ran(s, v) || v == u)
  {
    var c := Code.EntryResult(net, s.registry, todo[0], s.rows[todo[0]]);
    var s1 := Calls(o, s, w, net, todo, base, b, sent);
    if c.ok {
      t := MarksCompensated(o, s1, w, todo, base, b, sent + Code.Repeat(todo[0], c.attempts));
    } else {
      t := FailsAndHalts(o, s1, w, todo, base, b, sent + Code.Repeat(todo[0], c.attempts));
    }
  }

  lemma {:induction false} EndingCons(u: UndoId, tail: seq<UndoId>, calls: UndoId -> Code.CallResult)
    ensures Ending([u] + tail, calls) == (if calls(u).ok then Ending(tail, calls) else Halted)
  {
    Code.PrefixCons(u, tail, calls);
  }

  lemma {:induction false} Walks(o: World, s: World, w: WorkerId, net: Code.Network, todo: seq<UndoId>, calls: UndoId -> Code.CallResult,
                                 base: map<RequestId, UndoId>, b: nat, before: Code.Trace) returns (t: World)
    requires Stands(o, s, w, Walking(todo), base, b, before.sent) && before.db == DbOf(s)
    requires Distinct(todo) && Code.Predicts(calls, net, s.registry, s.rows, todo) && Deduplicates(s, net, todo)
    ensures var after := Code.Finish(before, todo, calls);
            Stands(o, t, w, Returned(Ending(todo, calls)), base, b, after.sent) && DbOf(t) == after.db
    decreases |todo|
  {
    if todo == [] {
      Code.FinishNil(before, calls);
      t := Finishes(o, s, w, base, b, before.sent);
    } else {
      var u, tail := todo[0], todo[1..];
      Code.HeadOf(todo, 0);
      assert todo == [u] + tail && u in todo;
      Code.FinishCons(before, u, tail, calls);
      EndingCons(u, tail, calls);
      Code.PredictsTail(calls, net, s.registry, s.rows, u, tail, StepState.Compensated);
      t := Turn(o, s, w, net, todo, base, b, before.sent);
      if calls(u).ok {
        StillDeduplicates(s, t, net, u, tail);
        var next := Code.Trace(DbOf(t), before.writes + [Code.EntryCompensated(u)], before.sent + Code.Repeat(u, calls(u).attempts));
        t := Walks(o, t, w, net, tail, calls, base, b, next);
      }
    }
  }

  /** Behind an entry that was compensated, nothing more has run than before. */
  lemma StillDeduplicates(s: World, t: World, net: Code.Network, u: UndoId, tail: seq<UndoId>)
    requires Deduplicates(s, net, [u] + tail) && u !in tail && forall v :: Ran(t, v) ==> Ran(s, v) || v == u
    ensures Deduplicates(t, net, tail)
  {
    assert forall v :: v in tail ==> v in [u] + tail;
  }

  /**
   Whatever the network answers, as long as it brings no permanent error for an entry that has run, an
   idle worker can take protocol steps that send exactly the orchestrator's requests, numbered from b on,
   leave exactly the tables it leaves, and return what it returns. The state is any one, also one left
   by a run that crashed between a delivery and its mark.
   */
  lemma OrchestratorIsASchedule(s: World, w: WorkerId, net: Code.Network, stack: seq<UndoId>, b: nat) returns (t: World)
    requires w in s.workers && s.workers[w].Idle? && !s.session.IsTerminal() && IsLoadedStack(s.rows, stack)
    requires Unused(s.requests, b) && Deduplicates(s, net, stack)
    ensures var calls := Code.Calls(net, s.registry, s.rows);
            && Leads(s, t) && t.workers == s.workers[w := Returned(Ending(stack, calls))]
            && DbOf(t) == Code.ApplyAll(DbOf(s), Code.Plan(stack, Code.Oks(calls)))
            && t.requests == Sent(s.requests, b, Code.Requests(stack, calls))
  {
    var calls := Code.Calls(net, s.registry, s.rows);
    LeadsToSelf(s);
    Go(s, s, Start(w));
    var s1 := Next(s, Start(w));
    Go(s, s1, LoadStack(w, stack));
    var s2 := Next(s1, LoadStack(w, stack));
    assert Sent(s.requests, b, []) == s.requests;
    assert s2.workers == s.workers[w := Walking(stack)];
    t := Walks(s, s2, w, net, stack, calls, s.requests, b, Code.Trace(DbOf(s), [], []));
    assert [] + Code.Requests(stack, calls) == Code.Requests(stack, calls);
  }
}
