/**
 The compensation protocol as a transition system: any number of orchestrator workers walk one
 session's persisted undo stack, call the compensation endpoint over a network that may delay or lose
 requests and replies, and may crash and restart at every step. The endpoint is the deduplicating
 server of MockToolServer.
 */
module SagaProtocol {
  import opened Types
  import opened UndoStack
  import MockToolServer

  type WorkerId = nat
  type RequestId = nat

  /** Where a worker stands in its walk. The first entry of `todo` is the current one. */
  datatype Pc =
    | Idle
    | SessionLoaded
    | Walking(todo: seq<UndoId>)
    | Sending(todo: seq<UndoId>, attempts: nat)
    | Waiting(todo: seq<UndoId>, attempts: nat, request: RequestId)
    | Succeeded(todo: seq<UndoId>)
    | GivingUp(todo: seq<UndoId>)
    | EntryFailed(todo: seq<UndoId>)
    | EffectFailed(todo: seq<UndoId>)
    | Returned(state: SessionState)

  /** `failedMarks` remembers every entry that was ever marked failed; `failedEffects` the effects marked along with it. */
  datatype World = World(
    registry: Registry,
    rows: map<UndoId, UndoRow>,
    session: SessionState,
    server: MockToolServer.Server,
    requests: map<RequestId, UndoId>,
    replies: set<(RequestId, int)>,
    workers: map<WorkerId, Pc>,
    failedMarks: set<UndoId>,
    failedEffects: set<UndoId>)

  datatype Step =
    | Start(w: WorkerId)
    | LoadStack(w: WorkerId, stack: seq<UndoId>)
    | TakeEntry(w: WorkerId)
    | Send(w: WorkerId, request: RequestId)
    | Deliver(request: RequestId, handler: MockToolServer.Handler)
    | Receive(w: WorkerId, status: int)
    | LoseReply(w: WorkerId)
    | MarkCompensated(w: WorkerId)
    | MarkEntryFailed(w: WorkerId)
    | MarkEffectFailed(w: WorkerId)
    | Halt(w: WorkerId)
    | Finish(w: WorkerId)
    | Crash(w: WorkerId)
    | OtherSessionUpdate(state: SessionState)

  ghost predicate Enabled(s: World, step: Step) {
    match step
    case Start(w) => w in s.workers && (s.workers[w].Idle? || s.workers[w].Returned?)
    case LoadStack(w, stack) => w in s.workers && s.workers[w].SessionLoaded? && IsLoadedStack(s.rows, stack)
    case TakeEntry(w) => w in s.workers && s.workers[w].Walking? && s.workers[w].todo != [] && s.workers[w].todo[0] in s.rows
    case Send(w, r) => w in s.workers && s.workers[w].Sending? && s.workers[w].todo != [] && r !in s.requests
    case Deliver(r, _) => r in s.requests
    case Receive(w, status) => w in s.workers && s.workers[w].Waiting? && s.workers[w].todo != []
                               && s.workers[w].todo[0] in s.rows && (s.workers[w].request, status) in s.replies
    case LoseReply(w) => w in s.workers && s.workers[w].Waiting? && s.workers[w].todo != [] && s.workers[w].todo[0] in s.rows
    case MarkCompensated(w) => w in s.workers && s.workers[w].Succeeded? && s.workers[w].todo != [] && s.workers[w].todo[0] in s.rows
    case MarkEntryFailed(w) => w in s.workers && s.workers[w].GivingUp? && s.workers[w].todo != [] && s.workers[w].todo[0] in s.rows
    case MarkEffectFailed(w) => w in s.workers && s.workers[w].EntryFailed? && s.workers[w].todo != []
    case Halt(w) => w in s.workers && s.workers[w].EffectFailed?
    case Finish(w) => w in s.workers && s.workers[w].Walking? && s.workers[w].todo == []
    case Crash(w) => w in s.workers
    case OtherSessionUpdate(_) => true
  }

  /** After a retryable failure: give up once the attempts exceed the retry limit, otherwise go round again. */
  function AfterRetryable(limit: nat, todo: seq<UndoId>, attempts: nat): Pc {
    if attempts > limit then GivingUp(todo) else Sending(todo, attempts)
  }

  ghost function Next(s: World, step: Step): World
    requires Enabled(s, step)
  {
    match step
    case Start(w) =>
      s.(workers := s.workers[w := if s.session.IsTerminal() then Returned(s.session) else SessionLoaded])
    case LoadStack(w, stack) =>
      s.(workers := s.workers[w := Walking(stack)])
    case TakeEntry(w) =>
      var todo := s.workers[w].todo;
      s.(workers := s.workers[w := if s.rows[todo[0]].fnName in s.registry.endpoints then Sending(todo, 0) else GivingUp(todo)])
    case Send(w, r) =>
      var pc := s.workers[w];
      s.(workers := s.workers[w := Waiting(pc.todo, pc.attempts + 1, r)], requests := s.requests[r := pc.todo[0]])
    case Deliver(r, handler) =>
      var reply := MockToolServer.Post(s.server, IdempotencyKey(s.requests[r]), handler);
      s.(server := reply.server, replies := s.replies + {(r, reply.status)})
    case Receive(w, status) =>
      var pc := s.workers[w];
      s.(workers := s.workers[w :=
        if IsSuccess(status) then Succeeded(pc.todo)
        else if IsPermanentClientError(status) then GivingUp(pc.todo)
        else AfterRetryable(RetryLimit(s.rows[pc.todo[0]], s.registry), pc.todo, pc.attempts)])
    case LoseReply(w) =>
      var pc := s.workers[w];
      s.(workers := s.workers[w := AfterRetryable(RetryLimit(s.rows[pc.todo[0]], s.registry), pc.todo, pc.attempts)])
    case MarkCompensated(w) =>
      var todo := s.workers[w].todo;
      s.(rows := s.rows[todo[0] := s.rows[todo[0]].(state := StepState.Compensated)],
         workers := s.workers[w := Walking(todo[1..])])
    case MarkEntryFailed(w) =>
      var todo := s.workers[w].todo;
      s.(rows := s.rows[todo[0] := s.rows[todo[0]].(state := StepState.Failed)],
         failedMarks := s.failedMarks + {todo[0]},
         workers := s.workers[w := EntryFailed(todo)])
    case MarkEffectFailed(w) =>
      var todo := s.workers[w].todo;
      s.(failedEffects := s.failedEffects + {todo[0]}, workers := s.workers[w := EffectFailed(todo)])
    case Halt(w) =>
      s.(session := Halted, workers := s.workers[w := Returned(Halted)])
    case Finish(w) =>
      s.(session := s.session.SetCompensated(), workers := s.workers[w := Returned(SessionState.Compensated)])
    case Crash(w) =>
      s.(workers := s.workers[w := Idle])
    case OtherSessionUpdate(state) =>
      s.(session := state)
  }

  /** Every entry pending, every worker idle, nothing sent and a server that has not seen this stack. */
  ghost predicate Init(s: World) {
    && (forall u :: u in s.rows ==> s.rows[u].state.Pending?)
    && (forall w :: w in s.workers ==> s.workers[w].Idle?)
    && s.server == MockToolServer.Server(map[], [], 0)
    && s.requests == map[] && s.replies == {} && s.failedMarks == {} && s.failedEffects == {}
  }

  ghost predicate Takes(states: seq<World>, steps: seq<Step>, i: nat)
    requires i < |steps| && |states| == |steps| + 1
  {
    Enabled(states[i], steps[i]) && states[i + 1] == Next(states[i], steps[i])
  }

  ghost predicate IsRun(states: seq<World>, steps: seq<Step>) {
    && |states| == |steps| + 1
    && Init(states[0])
    && forall i {:trigger Takes(states, steps, i)} :: 0 <= i < |steps| ==> Takes(states, steps, i)
  }

  // ── The invariant ─────────────────────────────────────────────────────────

  ghost predicate Ran(s: World, u: UndoId) {
    IdempotencyKey(u) in s.server.answers
  }

  /** Every row above position p has run or was marked failed. */
  ghost predicate AboveHandled(s: World, p: nat) {
    forall v :: v in s.rows && s.rows[v].position > p ==> Ran(s, v) || v in s.failedMarks
  }

  /** The answer store holds exactly the keys of the handler runs, each run once, each for a row. */
  ghost predicate ServerInv(s: World) {
    && Distinct(s.server.runs)
    && (forall k :: k in s.server.runs <==> k in s.server.answers)
    && (forall k :: k in s.server.answers ==> exists u :: u in s.rows && k == IdempotencyKey(u))
  }

  ghost predicate NetworkInv(s: World) {
    && (forall r :: r in s.requests ==> s.requests[r] in s.rows && AboveHandled(s, s.rows[s.requests[r]].position))
    && (forall r, status :: (r, status) in s.replies ==> r in s.requests && (IsSuccess(status) ==> Ran(s, s.requests[r])))
  }

  ghost predicate RowsInv(s: World) {
    forall u :: u in s.rows ==>
      && (s.rows[u].state.Pending? || s.rows[u].state.Compensated? || s.rows[u].state.Failed?)
      && (s.rows[u].state.Compensated? ==> Ran(s, u))
      && (s.rows[u].state.Failed? ==> u in s.failedMarks)
      && (Ran(s, u) ==> AboveHandled(s, s.rows[u].position))
  }

  /** A worker's remaining stack is sorted, and every row outside it has run or was marked failed. */
  ghost predicate TodoInv(s: World, todo: seq<UndoId>) {
    && (forall u :: u in todo ==> u in s.rows)
    && (forall i, j :: 0 <= i < j < |todo| ==> s.rows[todo[i]].position >= s.rows[todo[j]].position)
    && (forall u :: u in s.rows && u !in todo ==> Ran(s, u) || u in s.failedMarks)
  }

  ghost predicate WorkerInv(s: World, pc: Pc) {
    match pc
    case Idle => true
    case SessionLoaded => true
    case Walking(todo) => TodoInv(s, todo)
    case Sending(todo, _) => todo != [] && TodoInv(s, todo)
    case Waiting(todo, _, r) => todo != [] && TodoInv(s, todo) && r in s.requests && s.requests[r] == todo[0]
    case Succeeded(todo) => todo != [] && TodoInv(s, todo) && Ran(s, todo[0])
    case GivingUp(todo) => todo != [] && TodoInv(s, todo)
    case EntryFailed(todo) => todo != []
    case EffectFailed(todo) => true
    case Returned(_) => true
  }

  /** Wherever a lower entry ran before a higher one, the higher one had been marked failed. */
  ghost predicate OrderInv(s: World) {
    forall i, j, u, v ::
      && 0 <= i < j < |s.server.runs|
      && u in s.rows && v in s.rows
      && s.server.runs[i] == IdempotencyKey(u) && s.server.runs[j] == IdempotencyKey(v)
      && s.rows[v].position > s.rows[u].position
      ==> v in s.failedMarks
  }

  ghost predicate SharedInv(s: World) {
    ServerInv(s) && NetworkInv(s) && RowsInv(s) && OrderInv(s)
  }

  ghost predicate Inv(s: World) {
    && SharedInv(s)
    && forall w :: w in s.workers ==> WorkerInv(s, s.workers[w])
  }

  /** What a step leaves alone: rows keep their positions, and runs, requests, replies and failure marks only grow. */
  ghost predicate Grows(s: World, t: World) {
    && t.rows.Keys == s.rows.Keys
    && (forall u :: u in s.rows ==> t.rows[u].position == s.rows[u].position)
    && s.failedMarks <= t.failedMarks
    && (forall u :: Ran(s, u) ==> Ran(t, u))
    && s.requests.Keys <= t.requests.Keys
    && (forall r :: r in s.requests ==> t.requests[r] == s.requests[r])
    && s.server.runs <= t.server.runs
  }

  lemma TodoGrows(s: World, t: World, todo: seq<UndoId>)
    requires Grows(s, t) && TodoInv(s, todo)
    ensures TodoInv(t, todo)
  {
  }

  lemma WorkerGrows(s: World, t: World, pc: Pc)
    requires Grows(s, t) && WorkerInv(s, pc)
    ensures WorkerInv(t, pc)
  {
    if pc.Walking? || pc.Sending? || pc.Waiting? || pc.Succeeded? || pc.GivingUp? {
      TodoGrows(s, t, pc.todo);
    }
  }

  lemma AboveGrows(s: World, t: World, p: nat)
    requires Grows(s, t) && AboveHandled(s, p)
    ensures AboveHandled(t, p)
  {
  }

  lemma DeliverGrows(s: World, r: RequestId, handler: MockToolServer.Handler)
    requires r in s.requests
    ensures Grows(s, Next(s, Deliver(r, handler)))
  {
    MockToolServer.PostRunsOncePerKey(s.server, IdempotencyKey(s.requests[r]), handler);
  }

  lemma StepGrows(s: World, step: Step)
    requires Enabled(s, step)
    ensures Grows(s, Next(s, step))
  {
    if step.Deliver? {
      DeliverGrows(s, step.request, step.handler);
    } else {
      assert Next(s, step).server == s.server;
    }
  }

  /** The current entry of a worker has everything above it handled. */
  lemma HeadIsHighest(s: World, todo: seq<UndoId>)
    requires TodoInv(s, todo) && todo != []
    ensures todo[0] in s.rows && AboveHandled(s, s.rows[todo[0]].position)
  {
    assert todo[0] in todo;
    forall v | v in todo ensures s.rows[v].position <= s.rows[todo[0]].position {
      var k :| 0 <= k < |todo| && todo[k] == v;
      assert k > 0 ==> s.rows[todo[0]].position >= s.rows[todo[k]].position;
    }
  }

  /** A step that leaves the server, the network and the failure marks alone keeps their part of the invariant. */
  lemma QuietStepKeeps(s: World, t: World)
    requires Inv(s) && Grows(s, t)
    requires t.server == s.server && t.replies == s.replies && t.requests == s.requests
    ensures ServerInv(t) && NetworkInv(t) && OrderInv(t)
    ensures t.rows == s.rows ==> RowsInv(t)
  {
    forall r | r in t.requests
      ensures t.requests[r] in t.rows && AboveHandled(t, t.rows[t.requests[r]].position)
    {
      AboveGrows(s, t, s.rows[s.requests[r]].position);
    }
    if t.rows == s.rows {
      forall u | u in t.rows && Ran(t, u) ensures AboveHandled(t, t.rows[u].position) {
        AboveGrows(s, t, s.rows[u].position);
      }
    }
  }

  lemma MarkKeepsRows(s: World, t: World, u: UndoId, state: StepState)
    requires Inv(s) && Grows(s, t) && t.server == s.server
    requires u in s.rows && t.rows == s.rows[u := s.rows[u].(state := state)]
    requires (state.Compensated? && Ran(s, u)) || (state.Failed? && u in t.failedMarks)
    ensures RowsInv(t)
  {
    forall v | v in t.rows && Ran(t, v) ensures AboveHandled(t, t.rows[v].position) {
      AboveGrows(s, t, s.rows[v].position);
    }
  }

  /** What one delivery adds: nothing, or the one new key of its entry. */
  lemma DeliverAddsOneRun(s: World, r: RequestId, handler: MockToolServer.Handler)
    requires r in s.requests
    ensures var t := Next(s, Deliver(r, handler)); var u := s.requests[r];
            && (forall v :: Ran(t, v) ==> Ran(s, v) || v == u)
            && (t.server.runs == s.server.runs || (t.server.runs == s.server.runs + [IdempotencyKey(u)] && !Ran(s, u)))
            && (t.server.runs == s.server.runs ==> t.server.answers == s.server.answers)
            && (t.server.runs != s.server.runs ==> t.server.answers.Keys == s.server.answers.Keys + {IdempotencyKey(u)})
            && (forall q, status :: (q, status) in t.replies && IsSuccess(status) ==> (q, status) in s.replies || (q == r && Ran(t, u)))
  {
    MockToolServer.PostRunsOncePerKey(s.server, IdempotencyKey(s.requests[r]), handler);
    forall v ensures IdempotencyKey(v) == IdempotencyKey(s.requests[r]) <==> v == s.requests[r] {
      KeysAreDistinct(s.requests[r], v);
    }
  }

  lemma DeliverKeepsServer(s: World, r: RequestId, handler: MockToolServer.Handler)
    requires Inv(s) && r in s.requests
    ensures ServerInv(Next(s, Deliver(r, handler)))
  {
    var t := Next(s, Deliver(r, handler));
    DeliverAddsOneRun(s, r, handler);
    if t.server.runs != s.server.runs {
      var key := IdempotencyKey(s.requests[r]);
      assert key !in s.server.runs;
      assert forall k :: k in t.server.runs <==> k in s.server.runs || k == key;
    }
  }

  /** An entry that runs last, behind one that ran before it, is not above it unless it was marked failed. */
  lemma LastRunIsInOrder(s: World, i: nat, x: UndoId, v: UndoId)
    requires ServerInv(s) && RowsInv(s) && i < |s.server.runs| && s.server.runs[i] == IdempotencyKey(x) && x in s.rows && v in s.rows
    requires s.rows[v].position > s.rows[x].position && !Ran(s, v)
    ensures v in s.failedMarks
  {
    assert s.server.runs[i] in s.server.runs;
    assert Ran(s, x) && AboveHandled(s, s.rows[x].position);
  }

  /** The handler runs only if its key is new, and then nothing above it is still to come. */
  lemma DeliverKeepsOrder(s: World, r: RequestId, handler: MockToolServer.Handler)
    requires Inv(s) && r in s.requests
    ensures OrderInv(Next(s, Deliver(r, handler)))
  {
    var t := Next(s, Deliver(r, handler));
    var u := s.requests[r];
    DeliverAddsOneRun(s, r, handler);
    forall i, j, x, v |
      && 0 <= i < j < |t.server.runs| && x in t.rows && v in t.rows
      && t.server.runs[i] == IdempotencyKey(x) && t.server.runs[j] == IdempotencyKey(v)
      && t.rows[v].position > t.rows[x].position
      ensures v in t.failedMarks
    {
      if j == |s.server.runs| {
        KeysAreDistinct(u, v);
        LastRunIsInOrder(s, i, x, v);
      } else {
        assert s.server.runs[i] == IdempotencyKey(x) && s.server.runs[j] == IdempotencyKey(v);
      }
    }
  }

  lemma DeliverKeepsNetworkAndRows(s: World, r: RequestId, handler: MockToolServer.Handler)
    requires Inv(s) && r in s.requests
    ensures NetworkInv(Next(s, Deliver(r, handler))) && RowsInv(Next(s, Deliver(r, handler)))
  {
    var t := Next(s, Deliver(r, handler));
    DeliverGrows(s, r, handler);
    DeliverAddsOneRun(s, r, handler);
    forall q | q in t.requests
      ensures t.requests[q] in t.rows && AboveHandled(t, t.rows[t.requests[q]].position)
    {
      AboveGrows(s, t, s.rows[s.requests[q]].position);
    }
    forall v | v in t.rows && Ran(t, v) ensures AboveHandled(t, t.rows[v].position) {
      AboveGrows(s, t, s.rows[v].position);
    }
  }

  lemma SendKeepsNetwork(s: World, w: WorkerId, r: RequestId)
    requires Inv(s) && Enabled(s, Send(w, r))
    ensures NetworkInv(Next(s, Send(w, r)))
  {
    var t := Next(s, Send(w, r));
    StepGrows(s, Send(w, r));
    assert WorkerInv(s, s.workers[w]);
    HeadIsHighest(s, s.workers[w].todo);
    forall p | AboveHandled(s, p) ensures AboveHandled(t, p) {
      AboveGrows(s, t, p);
    }
  }

  lemma SendKeepsRows(s: World, w: WorkerId, r: RequestId)
    requires Inv(s) && Enabled(s, Send(w, r))
    ensures RowsInv(Next(s, Send(w, r)))
  {
    var t := Next(s, Send(w, r));
    StepGrows(s, Send(w, r));
    forall p | AboveHandled(s, p) ensures AboveHandled(t, p) {
      AboveGrows(s, t, p);
    }
  }

  lemma SendKeeps(s: World, w: WorkerId, r: RequestId)
    requires Inv(s) && Enabled(s, Send(w, r))
    ensures SharedInv(Next(s, Send(w, r)))
  {
    var t := Next(s, Send(w, r));
    SendKeepsNetwork(s, w, r);
    SendKeepsRows(s, w, r);
    assert t.server == s.server && t.rows == s.rows && t.failedMarks == s.failedMarks;
  }

  lemma MarkKeeps(s: World, step: Step)
    requires Inv(s) && Enabled(s, step) && (step.MarkCompensated? || step.MarkEntryFailed?)
    ensures SharedInv(Next(s, step))
  {
    var t := Next(s, step);
    StepGrows(s, step);
    QuietStepKeeps(s, t);
    assert WorkerInv(s, s.workers[step.w]);
    MarkKeepsRows(s, t, s.workers[step.w].todo[0],
                  if step.MarkCompensated? then StepState.Compensated else StepState.Failed);
  }

  lemma StepKeepsShared(s: World, step: Step)
    requires Inv(s) && Enabled(s, step)
    ensures SharedInv(Next(s, step))
  {
    match step
    case Deliver(r, handler) =>
      DeliverKeepsServer(s, r, handler);
      DeliverKeepsNetworkAndRows(s, r, handler);
      DeliverKeepsOrder(s, r, handler);
    case Send(w, r) => SendKeeps(s, w, r);
    case MarkCompensated(w) => MarkKeeps(s, step);
    case MarkEntryFailed(w) => MarkKeeps(s, step);
    case _ =>
      StepGrows(s, step);
      QuietStepKeeps(s, Next(s, step));
  }

  lemma LoadedStackIsTodo(s: World, stack: seq<UndoId>)
    requires Inv(s) && IsLoadedStack(s.rows, stack)
    ensures TodoInv(s, stack)
  {
  }

  /** A step within the current entry leaves the worker's remaining stack as it is. */
  predicate StaysOnEntry(step: Step) {
    step.TakeEntry? || step.Send? || step.Receive? || step.LoseReply?
  }

  lemma StayingKeepsMover(s: World, step: Step, w: WorkerId)
    requires Inv(s) && Enabled(s, step) && StaysOnEntry(step) && step.w == w
    ensures WorkerInv(Next(s, step), Next(s, step).workers[w])
  {
    StepGrows(s, step);
    assert WorkerInv(s, s.workers[w]);
    TodoGrows(s, Next(s, step), s.workers[w].todo);
  }

  lemma LoadingKeepsMover(s: World, w: WorkerId, stack: seq<UndoId>)
    requires Inv(s) && Enabled(s, LoadStack(w, stack))
    ensures WorkerInv(Next(s, LoadStack(w, stack)), Walking(stack))
  {
    StepGrows(s, LoadStack(w, stack));
    LoadedStackIsTodo(s, stack);
    TodoGrows(s, Next(s, LoadStack(w, stack)), stack);
  }

  lemma MarkingKeepsMover(s: World, w: WorkerId)
    requires Inv(s) && Enabled(s, MarkCompensated(w))
    ensures WorkerInv(Next(s, MarkCompensated(w)), Walking(s.workers[w].todo[1..]))
  {
    var t := Next(s, MarkCompensated(w));
    StepGrows(s, MarkCompensated(w));
    assert WorkerInv(s, s.workers[w]);
    TodoGrows(s, t, s.workers[w].todo);
    TodoTail(t, s.workers[w].todo);
  }

  /** A worker that moves arrives at a place its own part of the invariant allows. */
  lemma StepKeepsMover(s: World, step: Step, w: WorkerId)
    requires Inv(s) && Enabled(s, step)
    requires w in s.workers && Next(s, step).workers[w] != s.workers[w]
    ensures WorkerInv(Next(s, step), Next(s, step).workers[w])
  {
    assert step.w == w;
    if StaysOnEntry(step) {
      StayingKeepsMover(s, step, w);
    } else if step.LoadStack? {
      LoadingKeepsMover(s, w, step.stack);
    } else if step.MarkCompensated? {
      MarkingKeepsMover(s, w);
    } else {
      assert WorkerInv(s, s.workers[w]);
    }
  }

  /** Once its first entry has run, the rest of a stack is a remaining stack. */
  lemma TodoTail(s: World, todo: seq<UndoId>)
    requires todo != [] && TodoInv(s, todo) && Ran(s, todo[0])
    ensures TodoInv(s, todo[1..])
  {
    assert forall u :: u in todo <==> u == todo[0] || u in todo[1..];
  }

  lemma StepKeepsInv(s: World, step: Step)
    requires Inv(s) && Enabled(s, step)
    ensures Inv(Next(s, step))
  {
    var t := Next(s, step);
    StepKeepsShared(s, step);
    StepGrows(s, step);
    forall w | w in t.workers ensures WorkerInv(t, t.workers[w]) {
      if t.workers[w] == s.workers[w] {
        WorkerGrows(s, t, s.workers[w]);
      } else {
        StepKeepsMover(s, step, w);
      }
    }
  }

  lemma {:induction false} RunKeepsInv(states: seq<World>, steps: seq<Step>, n: nat)
    requires IsRun(states, steps) && n < |states|
    ensures Inv(states[n])
  {
    if n > 0 {
      RunKeepsInv(states, steps, n - 1);
      assert Takes(states, steps, n - 1);
      StepKeepsInv(states[n - 1], steps[n - 1]);
    }
  }

  // ── What every run guarantees ─────────────────────────────────────────────

  /** Whatever is lost, delayed, retried or crashed, no entry's handler runs twice, and every run is for an entry of the stack. */
  lemma HandlersRunAtMostOnce(states: seq<World>, steps: seq<Step>, n: nat)
    requires IsRun(states, steps) && n < |states|
    ensures Distinct(states[n].server.runs)
    ensures forall k :: k in states[n].server.runs ==> exists u :: u in states[n].rows && k == IdempotencyKey(u)
  {
    RunKeepsInv(states, steps, n);
  }

  /** An entry marked compensated has run. */
  lemma CompensatedEntriesRan(states: seq<World>, steps: seq<Step>, n: nat, u: UndoId)
    requires IsRun(states, steps) && n < |states|
    requires u in states[n].rows && states[n].rows[u].state.Compensated?
    ensures IdempotencyKey(u) in states[n].server.runs
  {
    RunKeepsInv(states, steps, n);
  }

  /** Step p is the delivery that runs the handler of u. */
  ghost predicate RunsAt(states: seq<World>, steps: seq<Step>, p: nat, u: UndoId)
    requires |states| == |steps| + 1
  {
    && p < |steps| && steps[p].Deliver? && steps[p].request in states[p].requests
    && states[p].requests[steps[p].request] == u && !Ran(states[p], u)
  }

  lemma {:induction false} RunHasItsStep(states: seq<World>, steps: seq<Step>, n: nat, i: nat, u: UndoId) returns (p: nat)
    requires IsRun(states, steps) && n < |states| && i < |states[n].server.runs|
    requires states[n].server.runs[i] == IdempotencyKey(u)
    ensures p < n && RunsAt(states, steps, p, u) && states[p].server.runs == states[n].server.runs[..i]
    decreases n
  {
    assert n > 0;
    assert Takes(states, steps, n - 1);
    var s, t := states[n - 1], states[n];
    StepGrows(s, steps[n - 1]);
    if i < |s.server.runs| {
      assert s.server.runs[i] == t.server.runs[i];
      p := RunHasItsStep(states, steps, n - 1, i, u);
      assert s.server.runs[..i] == t.server.runs[..i];
    } else {
      p := n - 1;
      StepAddsRun(s, steps[p], u);
    }
  }

  lemma StepAddsRun(s: World, step: Step, u: UndoId)
    requires Enabled(s, step) && |Next(s, step).server.runs| > |s.server.runs|
    requires Next(s, step).server.runs[|s.server.runs|] == IdempotencyKey(u)
    ensures step.Deliver? && s.requests[step.request] == u && !Ran(s, u)
    ensures |Next(s, step).server.runs| == |s.server.runs| + 1 && s.server.runs == Next(s, step).server.runs[..|s.server.runs|]
  {
    DeliverAddsOneRun(s, step.request, step.handler);
    KeysAreDistinct(u, s.requests[step.request]);
  }

  /** A lower entry runs before a higher one only if the higher one had been marked failed by the time the lower one ran, in step p. */
  lemma InversionsAreFailedEntries(states: seq<World>, steps: seq<Step>, n: nat, i: nat, j: nat, u: UndoId, v: UndoId) returns (p: nat)
    requires IsRun(states, steps) && n < |states|
    requires i < j < |states[n].server.runs| && u in states[n].rows && v in states[n].rows
    requires states[n].server.runs[i] == IdempotencyKey(u) && states[n].server.runs[j] == IdempotencyKey(v)
    ensures p < n && RunsAt(states, steps, p, u)
    ensures states[n].rows[u].position >= states[n].rows[v].position || (v in states[p].failedMarks && v in states[n].failedMarks)
  {
    p := RunHasItsStep(states, steps, n, i, u);
    RunKeepsInv(states, steps, n);
    RunKeepsInv(states, steps, p);
    RunGrows(states, steps, p, n);
    assert IdempotencyKey(v) !in states[p].server.runs;
  }

  lemma {:induction false} RunGrows(states: seq<World>, steps: seq<Step>, m: nat, n: nat)
    requires IsRun(states, steps) && m <= n < |states|
    ensures Grows(states[m], states[n])
    decreases n
  {
    if m < n {
      RunGrows(states, steps, m, n - 1);
      assert Takes(states, steps, n - 1);
      StepGrows(states[n - 1], steps[n - 1]);
    }
  }

  /** With distinct positions and no entry marked failed, the handlers run in strictly descending position. */
  lemma RunsDescend(states: seq<World>, steps: seq<Step>, n: nat, i: nat, j: nat, u: UndoId, v: UndoId)
    requires IsRun(states, steps) && n < |states|
    requires forall x, y :: x in states[n].rows && y in states[n].rows && x != y
                            ==> states[n].rows[x].position != states[n].rows[y].position
    requires states[n].failedMarks == {}
    requires i < j < |states[n].server.runs| && u in states[n].rows && v in states[n].rows
    requires states[n].server.runs[i] == IdempotencyKey(u) && states[n].server.runs[j] == IdempotencyKey(v)
    ensures states[n].rows[u].position > states[n].rows[v].position
  {
    var _ := InversionsAreFailedEntries(states, steps, n, i, j, u, v);
    HandlersRunAtMostOnce(states, steps, n);
    KeysAreDistinct(u, v);
  }

  /** A worker about to report the whole session compensated has left no entry behind: each ran or was marked failed. */
  lemma FinishingMeansHandled(states: seq<World>, steps: seq<Step>, n: nat, w: WorkerId, u: UndoId)
    requires IsRun(states, steps) && n < |states|
    requires Enabled(states[n], Finish(w)) && u in states[n].rows
    ensures IdempotencyKey(u) in states[n].server.runs || u in states[n].failedMarks
  {
    RunKeepsInv(states, steps, n);
    assert WorkerInv(states[n], states[n].workers[w]);
  }

  /** Step i is the one delivery that ran the handler of u, with the given result. */
  ghost predicate RunsHandler(states: seq<World>, steps: seq<Step>, i: nat, u: UndoId, success: bool)
    requires IsRun(states, steps)
  {
    && i < |steps|
    && steps[i].Deliver? && steps[i].handler == MockToolServer.Returns(success)
    && Enabled(states[i], steps[i]) && states[i].requests[steps[i].request] == u && !Ran(states[i], u)
  }

  /** The stored answer of an entry is what its one handler run returned. */
  lemma {:induction false} StoredAnswerIsTheRun(states: seq<World>, steps: seq<Step>, n: nat, u: UndoId) returns (i: nat)
    requires IsRun(states, steps) && n < |states| && Ran(states[n], u)
    ensures i < n && RunsHandler(states, steps, i, u, states[n].server.answers[IdempotencyKey(u)])
  {
    assert n > 0;
    assert Takes(states, steps, n - 1);
    if Ran(states[n - 1], u) {
      i := StoredAnswerIsTheRun(states, steps, n - 1, u);
      if steps[n - 1].Deliver? {
        MockToolServer.PostRunsOncePerKey(states[n - 1].server, IdempotencyKey(states[n - 1].requests[steps[n - 1].request]),
                                          steps[n - 1].handler);
      }
    } else {
      i := n - 1;
      KeysAreDistinct(u, states[i].requests[steps[i].request]);
    }
  }

  /** Step j delivers a request for u again, and the answer comes from the store. */
  ghost predicate AnsweredFromStore(states: seq<World>, steps: seq<Step>, j: nat, u: UndoId, r: RequestId)
    requires |states| == |steps| + 1
  {
    && j < |steps| && steps[j].Deliver? && steps[j].request == r && r in states[j].requests
    && states[j].requests[r] == u && Ran(states[j], u)
  }

  /** In step m a worker receives a success for request r. */
  ghost predicate SuccessReceived(states: seq<World>, steps: seq<Step>, m: nat, r: RequestId)
    requires |states| == |steps| + 1
  {
    && m < |steps| && steps[m].Receive? && IsSuccess(steps[m].status)
    && steps[m].w in states[m].workers && states[m].workers[steps[m].w].Waiting? && states[m].workers[steps[m].w].request == r
  }

  /** The handler of u failed in step i, a later delivery was answered from the store, and that request's success was received. */
  ghost predicate RefusalRepeated(states: seq<World>, steps: seq<Step>, i: nat, j: nat, m: nat, u: UndoId, r: RequestId)
    requires IsRun(states, steps)
  {
    && i < j < m && RunsHandler(states, steps, i, u, false)
    && AnsweredFromStore(states, steps, j, u, r) && SuccessReceived(states, steps, m, r)
  }

  /** A worker at its success got there by receiving one. */
  lemma {:induction false} SuccessWasReceived(states: seq<World>, steps: seq<Step>, n: nat, w: WorkerId) returns (m: nat)
    requires IsRun(states, steps) && n < |states| && w in states[n].workers && states[n].workers[w].Succeeded?
    ensures m < n && steps[m].Receive? && steps[m].w == w && IsSuccess(steps[m].status) && Enabled(states[m], steps[m])
    ensures states[m].workers[w].todo == states[n].workers[w].todo
  {
    assert n > 0;
    assert Takes(states, steps, n - 1);
    if w in states[n - 1].workers && states[n - 1].workers[w] == states[n].workers[w] {
      m := SuccessWasReceived(states, steps, n - 1, w);
    } else {
      m := n - 1;
      SuccessIsReceived(states[m], steps[m], w);
    }
  }

  lemma SuccessIsReceived(s: World, step: Step, w: WorkerId)
    requires Enabled(s, step) && w in Next(s, step).workers && Next(s, step).workers[w].Succeeded?
    requires w !in s.workers || s.workers[w] != Next(s, step).workers[w]
    ensures step.Receive? && step.w == w && IsSuccess(step.status) && s.workers[w].todo == Next(s, step).workers[w].todo
  {
  }

  lemma {:induction false} MarkHasItsStep(states: seq<World>, steps: seq<Step>, n: nat, u: UndoId) returns (k: nat)
    requires IsRun(states, steps) && n < |states| && u in states[n].rows && states[n].rows[u].state.Compensated?
    ensures k < n && steps[k].MarkCompensated? && Enabled(states[k], steps[k]) && states[k].workers[steps[k].w].todo[0] == u
  {
    assert n > 0;
    assert Takes(states, steps, n - 1);
    if u in states[n - 1].rows && states[n - 1].rows[u].state.Compensated? {
      k := MarkHasItsStep(states, steps, n - 1, u);
    } else {
      k := n - 1;
      MarkIsCompensated(states[k], steps[k], u);
    }
  }

  lemma MarkIsCompensated(s: World, step: Step, u: UndoId)
    requires Enabled(s, step) && u in Next(s, step).rows && Next(s, step).rows[u].state.Compensated?
    requires u !in s.rows || !s.rows[u].state.Compensated?
    ensures step.MarkCompensated? && s.workers[step.w].todo[0] == u
  {
  }

  /** A reply was given by a delivery of its request. */
  lemma {:induction false} ReplyHasItsStep(states: seq<World>, steps: seq<Step>, n: nat, r: RequestId, status: int) returns (j: nat)
    requires IsRun(states, steps) && n < |states| && (r, status) in states[n].replies
    ensures j < n && steps[j].Deliver? && steps[j].request == r && r in states[j].requests
    ensures MockToolServer.Post(states[j].server, IdempotencyKey(states[j].requests[r]), steps[j].handler).status == status
  {
    assert n > 0;
    assert Takes(states, steps, n - 1);
    if (r, status) in states[n - 1].replies {
      j := ReplyHasItsStep(states, steps, n - 1, r, status);
    } else {
      j := n - 1;
    }
  }

  /** A delivery answered with success either runs the handler to a success or is answered from the store. */
  lemma SuccessHasACause(states: seq<World>, steps: seq<Step>, j: nat, u: UndoId)
    requires IsRun(states, steps) && j < |steps| && steps[j].Deliver? && steps[j].request in states[j].requests
    requires states[j].requests[steps[j].request] == u
    requires IsSuccess(MockToolServer.Post(states[j].server, IdempotencyKey(u), steps[j].handler).status)
    ensures RunsHandler(states, steps, j, u, true) || AnsweredFromStore(states, steps, j, u, steps[j].request)
  {
  }

  /** A compensated entry was marked for a success that a delivery gave and a worker received. */
  lemma CompensatedWasAnswered(states: seq<World>, steps: seq<Step>, n: nat, u: UndoId) returns (j: nat, m: nat, r: RequestId)
    requires IsRun(states, steps) && n < |states| && u in states[n].rows && states[n].rows[u].state.Compensated?
    ensures j < m < n && SuccessReceived(states, steps, m, r)
    ensures steps[j].Deliver? && steps[j].request == r
    ensures RunsHandler(states, steps, j, u, true) || AnsweredFromStore(states, steps, j, u, r)
  {
    var k := MarkHasItsStep(states, steps, n, u);
    m := SuccessWasReceived(states, steps, k, steps[k].w);
    var pc := states[m].workers[steps[m].w];
    r := pc.request;
    RunKeepsInv(states, steps, m);
    assert WorkerInv(states[m], pc);
    j := ReplyHasItsStep(states, steps, m, r, steps[m].status);
    RunGrows(states, steps, j, m);
    SuccessHasACause(states, steps, j, u);
  }

  /**
   An entry that is marked compensated was not undone if and only if its handler ran to a failure, a later
   delivery of the entry was answered from the store, and a worker received that answer.
   */
  lemma CompensatedMeansUndoneIff(states: seq<World>, steps: seq<Step>, n: nat, u: UndoId)
    requires IsRun(states, steps) && n < |states|
    requires u in states[n].rows && states[n].rows[u].state.Compensated?
    ensures Ran(states[n], u)
    ensures !states[n].server.answers[IdempotencyKey(u)] <==>
            exists i: nat, j: nat, m: nat, r :: m < n && RefusalRepeated(states, steps, i, j, m, u, r)
  {
    CompensatedEntriesRan(states, steps, n, u);
    RunKeepsInv(states, steps, n);
    var k := StoredAnswerIsTheRun(states, steps, n, u);
    var answer := states[n].server.answers[IdempotencyKey(u)];
    if answer {
      forall i: nat, j: nat, m: nat, r | m < n && RefusalRepeated(states, steps, i, j, m, u, r)
        ensures false
      {
        RunsDiffer(states, steps, i, k, u);
      }
    } else {
      var j, m, r := CompensatedWasAnswered(states, steps, n, u);
      if RunsHandler(states, steps, j, u, true) {
        RunsDiffer(states, steps, k, j, u);
      }
      if j <= k {
        RanStays(states, steps, j, k, u);
      }
      assert RefusalRepeated(states, steps, k, j, m, u, r);
    }
  }

  /** The one run of a handler does not both fail and succeed. */
  lemma RunsDiffer(states: seq<World>, steps: seq<Step>, i: nat, k: nat, u: UndoId)
    requires IsRun(states, steps) && RunsHandler(states, steps, i, u, false)
    ensures !RunsHandler(states, steps, k, u, true)
  {
    if RunsHandler(states, steps, k, u, true) {
      if i < k {
        RunsOnlyOnce(states, steps, i, k, u, false, true);
      } else if k < i {
        RunsOnlyOnce(states, steps, k, i, u, true, false);
      }
    }
  }

  /** Step i delivers some request for u. */
  ghost predicate Delivers(states: seq<World>, steps: seq<Step>, i: nat, u: UndoId)
    requires |states| == |steps| + 1
  {
    i < |steps| && steps[i].Deliver? && steps[i].request in states[i].requests && states[i].requests[steps[i].request] == u
  }

  /** An entry that was delivered at most once is really undone when it is marked compensated. */
  lemma DeliveredOnceMeansUndone(states: seq<World>, steps: seq<Step>, n: nat, u: UndoId)
    requires IsRun(states, steps) && n < |states|
    requires u in states[n].rows && states[n].rows[u].state.Compensated?
    requires forall i: nat, j: nat :: i < n && j < n && Delivers(states, steps, i, u) && Delivers(states, steps, j, u) ==> i == j
    ensures Ran(states[n], u) && states[n].server.answers[IdempotencyKey(u)]
  {
    CompensatedMeansUndoneIff(states, steps, n, u);
    if i: nat, j: nat, m: nat, r :| m < n && RefusalRepeated(states, steps, i, j, m, u, r) {
      assert Delivers(states, steps, i, u) && Delivers(states, steps, j, u);
    }
  }

  lemma RunsOnlyOnce(states: seq<World>, steps: seq<Step>, i: nat, k: nat, u: UndoId, x: bool, y: bool)
    requires IsRun(states, steps) && i < k && RunsHandler(states, steps, i, u, x)
    ensures k < |states| ==> !RunsHandler(states, steps, k, u, y)
  {
    if k < |states| {
      assert Takes(states, steps, i);
      RanStays(states, steps, i + 1, k, u);
    }
  }

  lemma {:induction false} RanStays(states: seq<World>, steps: seq<Step>, m: nat, n: nat, u: UndoId)
    requires IsRun(states, steps) && m <= n < |states| && Ran(states[m], u)
    ensures Ran(states[n], u)
  {
    if m < n {
      RanStays(states, steps, m, n - 1, u);
      assert Takes(states, steps, n - 1);
      StepGrows(states[n - 1], steps[n - 1]);
    }
  }

  // ── What the code does not guarantee ──────────────────────────────────────

  function OneWorker(rows: map<UndoId, UndoRow>): World {
    World(Registry({"undo"}, 0), rows, Active, MockToolServer.Server(map[], [], 0), map[], {}, map[0 := Idle], {}, {})
  }

  ghost function Last(states: seq<World>): World
    requires states != []
  {
    states[|states| - 1]
  }

  lemma Take(states: seq<World>, steps: seq<Step>, step: Step) returns (states': seq<World>, steps': seq<Step>)
    requires IsRun(states, steps) && Enabled(Last(states), step)
    ensures IsRun(states', steps') && Last(states') == Next(Last(states), step)
  {
    states', steps' := states + [Next(Last(states), step)], steps + [step];
    forall i {:trigger Takes(states', steps', i)} | 0 <= i < |steps'|
      ensures Takes(states', steps', i)
    {
      if i < |steps| {
        assert Takes(states, steps, i);
      }
    }
  }

  const LOWER: UndoId := "a"
  const HIGHER: UndoId := "b"

  /** A worker loads the given stack, takes its first entry and sends the first request for it. */
  lemma BeginWalk(states: seq<World>, steps: seq<Step>, stack: seq<UndoId>, r: RequestId)
    returns (states': seq<World>, steps': seq<Step>)
    requires IsRun(states, steps)
    requires var s := Last(states);
             && 0 in s.workers && s.workers[0].Idle? && s.session == Active && r !in s.requests
             && stack != [] && IsLoadedStack(s.rows, stack) && s.rows[stack[0]].fnName in s.registry.endpoints
    ensures IsRun(states', steps')
    ensures var s := Last(states);
            Last(states') == s.(workers := s.workers[0 := Waiting(stack, 1, r)], requests := s.requests[r := stack[0]])
  {
    assert stack[0] in stack;
    states', steps' := Take(states, steps, Start(0));
    states', steps' := Take(states', steps', LoadStack(0, stack));
    states', steps' := Take(states', steps', TakeEntry(0));
    states', steps' := Take(states', steps', Send(0, r));
    var s, t := Last(states), Last(states');
    assert t.workers == s.workers[0 := Waiting(stack, 1, r)];
  }

  /** A reply that reports success for the current, last entry: the worker marks it and finishes the session. */
  lemma CompleteLast(states: seq<World>, steps: seq<Step>, u: UndoId)
    returns (states': seq<World>, steps': seq<Step>)
    requires IsRun(states, steps)
    requires var s := Last(states);
             && 0 in s.workers && s.workers[0].Waiting? && s.workers[0].todo == [u] && u in s.rows
             && s.session == Active && (s.workers[0].request, MockToolServer.OK) in s.replies
    ensures IsRun(states', steps')
    ensures var s := Last(states);
            Last(states') == s.(workers := s.workers[0 := Returned(SessionState.Compensated)],
                                rows := s.rows[u := s.rows[u].(state := StepState.Compensated)],
                                session := SessionState.Compensated)
  {
    states', steps' := Take(states, steps, Receive(0, MockToolServer.OK));
    states', steps' := Take(states', steps', MarkCompensated(0));
    states', steps' := Take(states', steps', Finish(0));
    var s, t := Last(states), Last(states');
    assert t.workers == s.workers[0 := Returned(SessionState.Compensated)];
  }

  function TwoRows(higher: StepState): map<UndoId, UndoRow> {
    map[LOWER := UndoRow(1, StepState.Pending, "undo", 0), HIGHER := UndoRow(2, higher, "undo", 0)]
  }

  /** The first worker sends a request for the higher entry, loses the reply and gives up. */
  lemma GivesUp() returns (states: seq<World>, steps: seq<Step>)
    ensures IsRun(states, steps)
    ensures Last(states) ==
            OneWorker(TwoRows(StepState.Pending)).(requests := map[0 := HIGHER], workers := map[0 := GivingUp([HIGHER, LOWER])])
  {
    var rows := TwoRows(StepState.Pending);
    states, steps := [OneWorker(rows)], [];
    states, steps := BeginWalk(states, steps, [HIGHER, LOWER], 0);
    var s := Last(states);
    assert s.workers == map[0 := Waiting([HIGHER, LOWER], 1, 0)] && s.requests == map[0 := HIGHER];
    states, steps := Take(states, steps, LoseReply(0));
    assert Last(states).workers == map[0 := GivingUp([HIGHER, LOWER])];
  }

  /** It marks the entry failed, and crashes before it halts the session. */
  lemma CrashInHaltWindow() returns (states: seq<World>, steps: seq<Step>)
    ensures IsRun(states, steps)
    ensures Last(states) == OneWorker(TwoRows(StepState.Failed)).(requests := map[0 := HIGHER], failedMarks := {HIGHER})
  {
    states, steps := GivesUp();
    states, steps := Take(states, steps, MarkEntryFailed(0));
    states, steps := Take(states, steps, Crash(0));
    var s := Last(states);
    assert s.rows == TwoRows(StepState.Failed);
    assert s.workers == map[0 := Idle];
  }

  /**
   A crash after an entry is marked failed and before the session is halted loses the failure: the next
   run skips the entry, undoes the lower one, and reports the session compensated; the delayed request
   for the skipped entry may then still run its handler, after the lower one.
   */
  lemma FailureLostInHaltWindow() returns (states: seq<World>, steps: seq<Step>)
    ensures IsRun(states, steps)
    ensures var s := Last(states);
            && s.session == SessionState.Compensated
            && LOWER in s.rows && HIGHER in s.rows && s.rows[HIGHER].state == StepState.Failed
            && s.rows[HIGHER].position > s.rows[LOWER].position
            && s.server.runs == [IdempotencyKey(LOWER), IdempotencyKey(HIGHER)]
  {
    states, steps := CrashInHaltWindow();
    var rows := Last(states).rows;
    states, steps := BeginWalk(states, steps, [LOWER], 1);
    states, steps := Take(states, steps, Deliver(1, MockToolServer.Returns(true)));
    assert Last(states).server.runs == [IdempotencyKey(LOWER)];
    states, steps := CompleteLast(states, steps, LOWER);
    assert Last(states).requests == map[0 := HIGHER, 1 := LOWER];
    states, steps := Take(states, steps, Deliver(0, MockToolServer.Returns(true)));
    KeysAreDistinct(LOWER, HIGHER);
  }

  /** A lost refusal becomes a success: the retry of a handler that reported failure is answered 200 from the store. */
  lemma RefusalRepeatedAsSuccess() returns (states: seq<World>, steps: seq<Step>)
    ensures IsRun(states, steps)
    ensures var s := Last(states);
            && LOWER in s.rows && s.rows[LOWER].state == StepState.Compensated
            && s.server.answers == map[IdempotencyKey(LOWER) := false]
  {
    var rows := map[LOWER := UndoRow(1, StepState.Pending, "undo", 1)];
    states, steps := [OneWorker(rows)], [];
    states, steps := BeginWalk(states, steps, [LOWER], 0);
    states, steps := Take(states, steps, Deliver(0, MockToolServer.Returns(false)));
    states, steps := Take(states, steps, LoseReply(0));
    states, steps := Take(states, steps, Send(0, 1));
    states, steps := Take(states, steps, Deliver(1, MockToolServer.Returns(false)));
    states, steps := CompleteLast(states, steps, LOWER);
  }
}
