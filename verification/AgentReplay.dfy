/**
 A deterministic agent whose tools go through the SDK wrapper, against the local journal. A tool hands
 the agent a value or an error, and the agent goes on either way. The process may crash between any two
 statements and is restarted with the same session and its step counter at zero; it then meets its own
 past in the journal. A commit may still be under way when its sender has crashed or given up on it.
 */
module AgentReplay {
  import opened Types
  import opened DevJournal
  import opened JournalMachine
  import CanonicalJson

  datatype ToolCall = ToolCall(name: string, args: Json)

  /** What a tool hands the agent; `Refused` is the error of a call that has no signature. */
  datatype Outcome = Value(v: Json) | Refused | Failure(error: string)

  /** What the agent does next, given the outcomes so far; None when it is done. */
  type Agent = seq<Outcome> -> Option<ToolCall>

  /** The signature of a call at a step of the session; None if it cannot be formed. */
  type Signer = (nat, ToolCall) -> Option<Sig>

  datatype Setup = Setup(agent: Agent, sign: Signer)

  // ── The result envelope ───────────────────────────────────────────────────

  function Envelope(output: Json): Json {
    CanonicalJson.Obj([CanonicalJson.Field("success", CanonicalJson.Bool(true)), CanonicalJson.Field("output", output)])
  }

  /** A mapping with an output key gives up its output; anything else passes through. */
  function Unwrap(cached: Option<Json>): Json {
    match cached
    case None => CanonicalJson.Null
    case Some(v) => if v.Obj? && "output" in CanonicalJson.Keys(v.fields) then CanonicalJson.Lookup(v.fields, "output") else v
  }

  /** What was wrapped on the execute path comes out of the replay path. */
  lemma EnvelopeRoundTrip(output: Json)
    ensures Unwrap(Some(Envelope(output))) == output
  {
    var fields := Envelope(output).fields;
    assert CanonicalJson.Keys(fields)[1] == "output";
    assert fields[0].key != fields[1].key by {
      assert |fields[0].key| == 7 && |fields[1].key| == 6;
    }
  }

  // ── The process ───────────────────────────────────────────────────────────

  /** The signature of the call the agent makes after these outcomes. */
  function SigAt(e: Setup, seen: seq<Outcome>): Option<Sig> {
    match e.agent(seen)
    case None => None
    case Some(call) => e.sign(|seen| + 1, call)
  }

  /** Where the process stands; `seen` are the outcomes the agent has so far, and its step counter is one more while a call is open. */
  datatype Pc =
    | Down
    | Thinking(seen: seq<Outcome>)
    | Requesting(seen: seq<Outcome>, sig: Sig)
    | Replaying(seen: seq<Outcome>, sig: Sig, result: Option<Json>)
    | Told(seen: seq<Outcome>, sig: Sig, id: Id)
    | InBody(seen: seq<Outcome>, sig: Sig, id: Id)
    | Ran(seen: seq<Outcome>, sig: Sig, id: Id, value: Json)
    | Raised(seen: seq<Outcome>, sig: Sig, id: Id, error: string)
    | Kept(seen: seq<Outcome>, sig: Sig, value: Json)
    | Failing(seen: seq<Outcome>, sig: Sig, error: string)

  /**
   `flying` are commits under way from senders that no longer wait for them. `views` are all sequences of
   outcomes any incarnation has had, `returned` says which body returned what, and `tally` counts per
   signature.
   */
  datatype World = World(
    journal: Journal, pc: Pc, flying: multiset<(Id, Json)>, views: set<seq<Outcome>>, returned: set<(seq<Outcome>, Json)>,
    tally: map<Sig, Tally>)

  /** Body starts, commits by the wrapper, bodies whose result the process did not get committed, and bodies that raised. */
  datatype Tally = Tally(runs: nat, commits: nat, lost: nat, raises: nat)

  datatype Step =
    | Boot
    | Decide
    | Send(auto: bool, id: Id, aid: Id)
    | TakeReplay
    | Enter
    | Return(value: Json)
    | Raise(error: string)
    | Finish
    | Report
    | Unreported
    | Break(error: string)
    | BreakSending(error: string)
    | HandFailure
    | Resume
    | Crash
    | CrashSending
    | Arrive(late: (Id, Json))
    | Other(r: Request)

  function TallyOf(s: World, sig: Sig): Tally {
    if sig in s.tally then s.tally[sig] else Tally(0, 0, 0, 0)
  }

  function Started(t: Tally): Tally {
    t.(runs := t.runs + 1)
  }

  function Stored(t: Tally): Tally {
    t.(commits := t.commits + 1)
  }

  function Lost(t: Tally): Tally {
    t.(lost := t.lost + 1)
  }

  function Thrown(t: Tally): Tally {
    t.(raises := t.raises + 1)
  }

  /** A body was entered and its result is not yet committed. */
  predicate InWindow(pc: Pc) {
    pc.InBody? || pc.Ran? || pc.Raised?
  }

  /** The process was told to execute and has not reported yet. */
  predicate Engaged(pc: Pc) {
    pc.Told? || InWindow(pc)
  }

  ghost predicate Ours(e: Setup, sig: Sig) {
    exists k: nat, c: ToolCall :: e.sign(k, c) == Some(sig)
  }

  /** Traffic of others: it names neither the session's signatures nor their effects and approvals. */
  ghost predicate Foreign(e: Setup, j: Journal, r: Request)
    requires Valid(j)
  {
    forall sig :: Ours(e, sig) ==> !Concerns(Project(j, sig), sig, r)
  }

  /** The agent's tools are not irreversible ones. */
  function Asking(sig: Sig, auto: bool, id: Id, aid: Id): Request {
    Intercept(sig, false, auto, id, aid)
  }

  function Committing(late: (Id, Json)): Request {
    Request.Commit(late.0, Envelope(late.1))
  }

  ghost predicate Enabled(e: Setup, s: World, step: Step) {
    match step
    case Boot => s.pc.Down?
    case Decide => s.pc.Thinking? && e.agent(s.pc.seen).Some?
    case Send(auto, id, aid) => s.pc.Requesting? && Fresh(s.journal, Asking(s.pc.sig, auto, id, aid))
    case TakeReplay => s.pc.Replaying?
    case Enter => s.pc.Told?
    case Return(_) => s.pc.InBody?
    case Raise(_) => s.pc.InBody?
    case Finish => s.pc.Ran?
    case Report => s.pc.Raised?
    case Unreported => s.pc.Raised?
    case Break(_) => s.pc.Requesting? || s.pc.Told? || s.pc.Replaying? || s.pc.Ran? || s.pc.Kept?
    case BreakSending(_) => s.pc.Ran?
    case HandFailure => s.pc.Failing?
    case Resume => s.pc.Kept?
    case Crash => !s.pc.Down?
    case CrashSending => s.pc.Ran?
    case Arrive(late) => late in s.flying
    case Other(r) => Valid(s.journal) && Fresh(s.journal, r) && Foreign(e, s.journal, r)
  }

  /** The agent is handed an outcome. */
  function Handed(s: World, o: Outcome): World
    requires !s.pc.Down?
  {
    s.(pc := Thinking(s.pc.seen + [o]), views := s.views + {s.pc.seen + [o]})
  }

  /** How the wrapper takes the answer to its intercept. */
  function Answered(seen: seq<Outcome>, sig: Sig, answer: Answer): Pc {
    match answer
    case Replayed(_, result) => Replaying(seen, sig, result)
    case Executed(id) => Told(seen, sig, id)
    case _ => Down
  }

  /** The process leaves its call; a result it had not seen committed is lost to it. */
  function Leaving(s: World, pc: Pc): World {
    if InWindow(s.pc) then s.(pc := pc, tally := s.tally[s.pc.sig := Lost(TallyOf(s, s.pc.sig))]) else s.(pc := pc)
  }

  ghost function Finished(s: World): World
    requires s.pc.Ran?
  {
    var (j, answer) := Serve(s.journal, Committing((s.pc.id, s.pc.value)));
    if answer.Recorded? then
      s.(journal := j, pc := Kept(s.pc.seen, s.pc.sig, s.pc.value), tally := s.tally[s.pc.sig := Stored(TallyOf(s, s.pc.sig))])
    else Leaving(s.(journal := j), Failing(s.pc.seen, s.pc.sig, "not recorded"))
  }

  /** The wrapper re-raises what the body raised. */
  function Reraised(s: World): World
    requires s.pc.Raised?
  {
    s.(pc := Failing(s.pc.seen, s.pc.sig, s.pc.error), tally := s.tally[s.pc.sig := Thrown(TallyOf(s, s.pc.sig))])
  }

  ghost function Next(e: Setup, s: World, step: Step): World
    requires Enabled(e, s, step)
  {
    match step
    case Boot => s.(pc := Thinking([]), views := s.views + {[]})
    case Decide =>
      (match SigAt(e, s.pc.seen)
       case None => Handed(s, Outcome.Refused)
       case Some(sig) => s.(pc := Requesting(s.pc.seen, sig)))
    case Send(auto, id, aid) =>
      var (j, answer) := Serve(s.journal, Asking(s.pc.sig, auto, id, aid));
      s.(journal := j, pc := Answered(s.pc.seen, s.pc.sig, answer))
    case TakeReplay => Handed(s, Value(Unwrap(s.pc.result)))
    case Enter =>
      s.(pc := InBody(s.pc.seen, s.pc.sig, s.pc.id), tally := s.tally[s.pc.sig := Started(TallyOf(s, s.pc.sig))])
    case Return(value) => s.(pc := Ran(s.pc.seen, s.pc.sig, s.pc.id, value), returned := s.returned + {(s.pc.seen, value)})
    case Raise(error) => s.(pc := Raised(s.pc.seen, s.pc.sig, s.pc.id, error))
    case Finish => Finished(s)
    case Report => Reraised(s).(journal := Serve(s.journal, Fail(s.pc.id)).0)
    case Unreported => Reraised(s)
    case Break(error) => Leaving(s, Failing(s.pc.seen, s.pc.sig, error))
    case BreakSending(error) =>
      Leaving(s, Failing(s.pc.seen, s.pc.sig, error)).(flying := s.flying + multiset{(s.pc.id, s.pc.value)})
    case HandFailure => Handed(s, Failure(s.pc.error))
    case Resume => Handed(s, Value(s.pc.value))
    case Crash => Leaving(s, Down)
    case CrashSending => Leaving(s, Down).(flying := s.flying + multiset{(s.pc.id, s.pc.value)})
    case Arrive(late) => s.(journal := Serve(s.journal, Committing(late)).0, flying := s.flying - multiset{late})
    case Other(r) => s.(journal := Serve(s.journal, r).0)
  }

  ghost predicate Init(e: Setup, s: World) {
    && Valid(s.journal) && (forall sig :: Ours(e, sig) ==> Project(s.journal, sig) == Initial())
    && s.pc.Down? && s.flying == multiset{} && s.views == {} && s.returned == {}
    && s.tally == map[]
  }

  // ── Invariant ─────────────────────────────────────────────────────────────

  function Front(a: seq<Outcome>): seq<Outcome>
    requires a != []
  {
    a[..|a| - 1]
  }

  function Last(a: seq<Outcome>): Outcome
    requires a != []
  {
    a[|a| - 1]
  }

  /** Some body of a call with this signature returned the value. */
  ghost predicate BodyReturned(e: Setup, returned: set<(seq<Outcome>, Json)>, sig: Sig, v: Json) {
    exists p :: (p, v) in returned && SigAt(e, p) == Some(sig)
  }

  /** A stored result is the envelope of a value that a body of the call returned. */
  ghost predicate Genuine(e: Setup, returned: set<(seq<Outcome>, Json)>, sig: Sig, r: Json) {
    r == Envelope(Unwrap(Some(r))) && BodyReturned(e, returned, sig, Unwrap(Some(r)))
  }

  ghost predicate SlotInv(e: Setup, j: Journal, returned: set<(seq<Outcome>, Json)>, sig: Sig)
    requires Valid(j)
  {
    var slot := SlotOf(j, sig);
    !slot.Waiting? && (slot.Done? ==> Genuine(e, returned, sig, slot.result))
  }

  /** The last outcome of a view is what the call before it can hand over. */
  ghost predicate ViewInv(e: Setup, s: World, a: seq<Outcome>)
    requires Valid(s.journal)
  {
    a != [] ==>
      && Front(a) in s.views && e.agent(Front(a)).Some?
      && (Last(a).Refused? <==> SigAt(e, Front(a)).None?)
      && (Last(a).Value? ==> var sig := SigAt(e, Front(a)).value;
                             SlotOf(s.journal, sig).Done? && BodyReturned(e, s.returned, sig, Last(a).v))
  }

  /** No incarnation was given a value for the signature yet. */
  ghost predicate NoValueAt(e: Setup, views: set<seq<Outcome>>, sig: Sig) {
    forall a :: a in views && a != [] && Last(a).Value? ==> SigAt(e, Front(a)) != Some(sig)
  }

  ghost predicate OpenCall(e: Setup, s: World, seen: seq<Outcome>, sig: Sig) {
    seen in s.views && SigAt(e, seen) == Some(sig)
  }

  ghost predicate Holding(e: Setup, s: World, seen: seq<Outcome>, sig: Sig, id: Id)
    requires Valid(s.journal)
  {
    && OpenCall(e, s, seen, sig) && NoValueAt(e, s.views, sig)
    && var slot := SlotOf(s.journal, sig); (slot.Busy? || slot.Done?) && slot.id == id
  }

  ghost predicate PcInv(e: Setup, s: World)
    requires Valid(s.journal)
  {
    match s.pc
    case Down => true
    case Thinking(seen) => seen in s.views
    case Requesting(seen, sig) => OpenCall(e, s, seen, sig)
    case Replaying(seen, sig, result) =>
      OpenCall(e, s, seen, sig) && SlotOf(s.journal, sig).Done? && result.Some? && Genuine(e, s.returned, sig, result.value)
    case Told(seen, sig, id) => Holding(e, s, seen, sig, id)
    case InBody(seen, sig, id) => Holding(e, s, seen, sig, id)
    case Ran(seen, sig, id, v) => Holding(e, s, seen, sig, id) && BodyReturned(e, s.returned, sig, v)
    case Raised(seen, sig, id, _) => Holding(e, s, seen, sig, id)
    case Kept(seen, sig, v) => OpenCall(e, s, seen, sig) && SlotOf(s.journal, sig).Done? && BodyReturned(e, s.returned, sig, v)
    case Failing(seen, sig, _) => OpenCall(e, s, seen, sig)
  }

  ghost predicate FlyInv(e: Setup, s: World, late: (Id, Json)) {
    late.0 in s.journal.rows && BodyReturned(e, s.returned, s.journal.rows[late.0].sig, late.1)
  }

  predicate Counting(pc: Pc, sig: Sig) {
    InWindow(pc) && pc.sig == sig
  }

  predicate EngagedAt(pc: Pc, sig: Sig) {
    Engaged(pc) && pc.sig == sig
  }

  ghost predicate CountInv(s: World, sig: Sig)
    requires Valid(s.journal)
  {
    var n := TallyOf(s, sig);
    && n.runs == n.commits + n.lost + n.raises + (if Counting(s.pc, sig) then 1 else 0)
    && n.commits <= 1 && (n.commits == 1 ==> SlotOf(s.journal, sig).Done? && !EngagedAt(s.pc, sig))
  }

  ghost predicate SlotsInv(e: Setup, s: World)
    requires Valid(s.journal)
  {
    forall sig {:trigger SlotOf(s.journal, sig)} :: Ours(e, sig) ==> SlotInv(e, s.journal, s.returned, sig)
  }

  ghost predicate ViewsInv(e: Setup, s: World)
    requires Valid(s.journal)
  {
    forall a {:trigger ViewInv(e, s, a)} :: a in s.views ==> ViewInv(e, s, a)
  }

  ghost predicate FlightInv(e: Setup, s: World) {
    forall late :: late in s.flying ==> FlyInv(e, s, late)
  }

  ghost predicate ReturnedInv(s: World) {
    forall x :: x in s.returned ==> x.0 in s.views
  }

  ghost predicate CountsInv(e: Setup, s: World)
    requires Valid(s.journal)
  {
    forall sig {:trigger TallyOf(s, sig)} :: Ours(e, sig) ==> CountInv(s, sig)
  }

  ghost predicate Inv(e: Setup, s: World) {
    && Valid(s.journal) && SlotsInv(e, s) && ViewsInv(e, s) && PcInv(e, s) && FlightInv(e, s) && ReturnedInv(s) && CountsInv(e, s)
  }

  // ── Requests and signatures ───────────────────────────────────────────────

  /** A machine that holds a call knows it; a machine that knows no call is free. */
  lemma HeldIsKnown(j: Journal, sig: Sig)
    requires Valid(j)
    ensures var m := Project(j, sig); !m.slot.Free? ==> m.slot.id in m.ids
  {
    if Live(j, sig).Some? {
      assert Holds(j, Live(j, sig).value, sig);
    }
  }

  /** A report about one signature's call leaves every other signature alone. */
  lemma ReportSparesOthers(j: Journal, r: Request, sig: Sig, other: Sig)
    requires Valid(j) && (r.Commit? || r.Fail?) && r.id in Project(j, sig).ids && sig != other
    ensures Valid(Serve(j, r).0) && Project(Serve(j, r).0, other) == Project(j, other)
  {
    ServeRefines(j, r, other);
    assert r.id !in Project(j, other).ids;
  }

  lemma InterceptSparesOthers(j: Journal, r: Request, other: Sig)
    requires Valid(j) && r.Intercept? && Fresh(j, r) && r.sig != other
    ensures Valid(Serve(j, r).0) && Project(Serve(j, r).0, other) == Project(j, other)
  {
    ServeRefines(j, r, other);
  }

  /** Every other signature's machine stands as before. */
  ghost predicate SparesOthers(j: Journal, t: Journal, sig: Sig)
    requires Valid(j) && Valid(t)
  {
    forall other :: other != sig ==> Project(t, other) == Project(j, other)
  }

  /** An intercept is answered by its signature's machine and by no other. */
  lemma InterceptLeaves(j: Journal, r: Request)
    requires Valid(j) && r.Intercept? && Fresh(j, r)
    ensures var (t, answer) := Serve(j, r); Valid(t) && SparesOthers(j, t, r.sig)
                                            && Project(t, r.sig) == JournalMachine.Arrive(Project(j, r.sig), r.gated, r.auto, r.id, r.aid).0
                                            && answer == JournalMachine.Arrive(Project(j, r.sig), r.gated, r.auto, r.id, r.aid).1
  {
    ServeRefines(j, r, r.sig);
    forall other | other != r.sig
      ensures Project(Serve(j, r).0, other) == Project(j, other)
    {
      InterceptSparesOthers(j, r, other);
    }
  }

  /** A report settles or releases its own signature's machine and touches no other. */
  lemma ReportLeaves(j: Journal, r: Request, sig: Sig)
    requires Valid(j) && (r.Commit? || r.Fail?) && r.id in j.rows && j.rows[r.id].sig == sig
    ensures var (t, answer) := Serve(j, r);
            var m := Project(j, sig);
            && Valid(t) && SparesOthers(j, t, sig)
            && Project(t, sig) == (if r.Commit? then Settle(m, r.id, r.result) else Release(m, r.id))
            && (r.Commit? ==> (answer.Recorded? <==> FreeFor(m, r.id)))
  {
    assert r.id in Project(j, sig).ids;
    ServeRefines(j, r, sig);
    forall other | other != sig
      ensures Project(Serve(j, r).0, other) == Project(j, other)
    {
      ReportSparesOthers(j, r, sig, other);
    }
  }

  // ── What a change of the journal does to the invariant ────────────────────

  /** One slot changes; rows keep their signatures. */
  ghost predicate Changes(j: Journal, t: Journal, sig: Sig, slot: Slot) {
    && Valid(j) && Valid(t) && SlotOf(t, sig) == slot
    && (forall other :: other != sig ==> SlotOf(t, other) == SlotOf(j, other))
    && RowsKept(j, t)
  }

  ghost predicate RowsKept(j: Journal, t: Journal) {
    forall id :: id in j.rows ==> id in t.rows && t.rows[id].sig == j.rows[id].sig
  }

  lemma ServeKeepsRows(j: Journal, r: Request)
    requires Fresh(j, r)
    ensures RowsKept(j, Serve(j, r).0)
  {
    forall id | id in j.rows
      ensures id in Serve(j, r).0.rows && Serve(j, r).0.rows[id].sig == j.rows[id].sig
    {
      ServeKeepsSig(j, r, id);
    }
  }

  lemma SparingChanges(j: Journal, t: Journal, sig: Sig)
    requires Valid(j) && Valid(t) && SparesOthers(j, t, sig) && RowsKept(j, t)
    ensures Changes(j, t, sig, SlotOf(t, sig))
  {
    forall other | other != sig
      ensures SlotOf(t, other) == SlotOf(j, other)
    {
      assert Project(t, other) == Project(j, other);
    }
  }

  function AfterIntercept(slot: Slot, id: Id): Slot {
    if slot.Free? then Busy(id) else slot
  }

  function AnswerFor(slot: Slot, id: Id): Answer {
    match slot
    case Free => Executed(id)
    case Busy(held) => Executed(held)
    case Done(held, result) => Replayed(held, Some(result))
    case Waiting(held, _) => Executed(held)
  }

  lemma SendChanges(j: Journal, sig: Sig, auto: bool, id: Id, aid: Id)
    requires Valid(j) && Fresh(j, Asking(sig, auto, id, aid)) && !SlotOf(j, sig).Waiting?
    ensures var (t, answer) := Serve(j, Asking(sig, auto, id, aid));
            Changes(j, t, sig, AfterIntercept(SlotOf(j, sig), id)) && answer == AnswerFor(SlotOf(j, sig), id)
  {
    var r := Asking(sig, auto, id, aid);
    InterceptLeaves(j, r);
    ServeKeepsRows(j, r);
    SparingChanges(j, Serve(j, r).0, sig);
  }

  function AfterCommit(slot: Slot, late: (Id, Json)): Slot {
    if slot.Free? || slot.id == late.0 then Done(late.0, Envelope(late.1)) else slot
  }

  lemma CommitChanges(j: Journal, late: (Id, Json), sig: Sig)
    requires Valid(j) && late.0 in j.rows && j.rows[late.0].sig == sig
    ensures var (t, answer) := Serve(j, Committing(late));
            && Changes(j, t, sig, AfterCommit(SlotOf(j, sig), late))
            && (answer.Recorded? <==> AfterCommit(SlotOf(j, sig), late) == Done(late.0, Envelope(late.1)))
  {
    var r := Committing(late);
    ReportLeaves(j, r, sig);
    ServeKeepsRows(j, r);
    SparingChanges(j, Serve(j, r).0, sig);
  }

  lemma FailChanges(j: Journal, id: Id, sig: Sig)
    requires Valid(j) && id in j.rows && j.rows[id].sig == sig && !SlotOf(j, sig).Free? && SlotOf(j, sig).id == id
    ensures Changes(j, Serve(j, Fail(id)).0, sig, Free)
  {
    ReportLeaves(j, Fail(id), sig);
    ServeKeepsRows(j, Fail(id));
    SparingChanges(j, Serve(j, Fail(id)).0, sig);
  }

  lemma HolderHasSig(j: Journal, sig: Sig)
    requires Valid(j) && !SlotOf(j, sig).Free?
    ensures SlotOf(j, sig).id in j.rows && j.rows[SlotOf(j, sig).id].sig == sig
  {
    HeldIsKnown(j, sig);
  }

  lemma ReturnedGrows(e: Setup, r: set<(seq<Outcome>, Json)>, q: set<(seq<Outcome>, Json)>)
    requires r <= q
    ensures forall sig, v :: BodyReturned(e, r, sig, v) ==> BodyReturned(e, q, sig, v)
  {
    forall sig, v | BodyReturned(e, r, sig, v)
      ensures BodyReturned(e, q, sig, v)
    {
      var p :| (p, v) in r && SigAt(e, p) == Some(sig);
      assert (p, v) in q;
    }
  }

  lemma SlotsStay(e: Setup, s: World, t: World, sig: Sig, slot: Slot)
    requires Valid(s.journal) && SlotsInv(e, s) && Changes(s.journal, t.journal, sig, slot) && s.returned <= t.returned
    requires Ours(e, sig) ==> !slot.Waiting? && (slot.Done? ==> Genuine(e, t.returned, sig, slot.result))
    ensures SlotsInv(e, t)
  {
    ReturnedGrows(e, s.returned, t.returned);
    forall other | Ours(e, other)
      ensures SlotInv(e, t.journal, t.returned, other)
    {
      if other != sig {
        assert SlotOf(t.journal, other) == SlotOf(s.journal, other);
      }
    }
  }

  /** A signature some incarnation has a value for stays done. */
  ghost predicate SeenStayDone(e: Setup, s: World, t: World)
    requires Valid(s.journal) && Valid(t.journal)
  {
    forall sig {:trigger NoValueAt(e, s.views, sig)} ::
      !NoValueAt(e, s.views, sig) && SlotOf(s.journal, sig).Done? ==> SlotOf(t.journal, sig).Done?
  }

  lemma ViewsStay(e: Setup, s: World, t: World)
    requires Valid(s.journal) && Valid(t.journal) && ViewsInv(e, s) && SeenStayDone(e, s, t)
    requires s.returned <= t.returned && t.views == s.views
    ensures ViewsInv(e, t)
  {
    ReturnedGrows(e, s.returned, t.returned);
    forall a | a in t.views
      ensures ViewInv(e, t, a)
    {
      assert ViewInv(e, s, a);
      if a != [] && Last(a).Value? {
        assert !NoValueAt(e, s.views, SigAt(e, Front(a)).value);
      }
    }
  }

  lemma FlightsStay(e: Setup, s: World, t: World)
    requires FlightInv(e, s) && RowsKept(s.journal, t.journal) && s.returned <= t.returned
    requires forall late :: late in t.flying ==> late in s.flying
    ensures FlightInv(e, t)
  {
    ReturnedGrows(e, s.returned, t.returned);
    forall late | late in t.flying
      ensures FlyInv(e, t, late)
    {
      assert FlyInv(e, s, late);
    }
  }

  /** Nothing is counted; a call is engaged only where it was, or where nothing is committed. */
  lemma CountsKept(e: Setup, s: World, t: World)
    requires Valid(s.journal) && Valid(t.journal) && CountsInv(e, s) && t.tally == s.tally
    requires forall sig :: Ours(e, sig) && SlotOf(s.journal, sig).Done? ==> SlotOf(t.journal, sig).Done?
    requires forall sig :: Counting(t.pc, sig) == Counting(s.pc, sig)
    requires forall sig :: EngagedAt(t.pc, sig) ==> EngagedAt(s.pc, sig) || !SlotOf(s.journal, sig).Done?
    ensures CountsInv(e, t)
  {
    forall sig | Ours(e, sig)
      ensures CountInv(t, sig)
    {
      assert TallyOf(t, sig) == TallyOf(s, sig);
    }
  }

  /** The call the process is engaged in is counted. */
  lemma CountsMove(e: Setup, s: World, t: World, n: Tally)
    requires Valid(s.journal) && Valid(t.journal) && CountsInv(e, s) && Engaged(s.pc) && t.tally == s.tally[s.pc.sig := n]
    requires Engaged(t.pc) ==> t.pc.sig == s.pc.sig
    requires forall sig :: sig != s.pc.sig ==> SlotOf(t.journal, sig) == SlotOf(s.journal, sig)
    requires CountInv(s, s.pc.sig) ==> CountInv(t, s.pc.sig)
    ensures CountsInv(e, t)
  {
    forall sig | Ours(e, sig)
      ensures CountInv(t, sig)
    {
      var _ := TallyOf(s, sig);
      if sig != s.pc.sig {
        assert TallyOf(t, sig) == TallyOf(s, sig);
      }
    }
  }

  // ── Each step keeps the invariant ─────────────────────────────────────────

  /** Only the process moves, within its call. */
  lemma MoveKeeps(e: Setup, s: World, t: World)
    requires Inv(e, s) && t.journal == s.journal && t.views == s.views && t.returned == s.returned && t.flying == s.flying
    requires PcInv(e, t) && CountsInv(e, t)
    ensures Inv(e, t)
  {
    ViewsStay(e, s, t);
    FlightsStay(e, s, t);
    SameSlots(e, s, t);
  }

  lemma SameSlots(e: Setup, s: World, t: World)
    requires Valid(s.journal) && SlotsInv(e, s) && t.journal == s.journal && t.returned == s.returned
    ensures SlotsInv(e, t)
  {
    forall sig | Ours(e, sig)
      ensures SlotInv(e, t.journal, t.returned, sig)
    {
      assert SlotInv(e, s.journal, s.returned, sig);
    }
  }

  /** One slot changes, and only to what the invariant allows. */
  lemma ChangeKeeps(e: Setup, s: World, t: World, sig: Sig, slot: Slot)
    requires Inv(e, s) && Changes(s.journal, t.journal, sig, slot) && t.views == s.views && t.returned == s.returned
    requires forall late :: late in t.flying ==> late in s.flying
    requires !slot.Waiting? && (slot.Done? ==> Genuine(e, s.returned, sig, slot.result))
    requires NoValueAt(e, s.views, sig) || !SlotOf(s.journal, sig).Done? || slot.Done?
    requires PcInv(e, t) && CountsInv(e, t)
    ensures Inv(e, t)
  {
    SlotsStay(e, s, t, sig, slot);
    ViewsStay(e, s, t);
    FlightsStay(e, s, t);
  }

  lemma BootKeeps(e: Setup, s: World)
    requires Inv(e, s) && s.pc.Down?
    ensures Inv(e, Next(e, s, Boot))
  {
    var t := Next(e, s, Boot);
    assert ViewsInv(e, t) by {
      forall a | a in t.views
        ensures ViewInv(e, t, a)
      {
        assert a in s.views ==> ViewInv(e, s, a);
      }
    }
    FlightsStay(e, s, t);
    SameSlots(e, s, t);
    CountsKept(e, s, t);
  }

  lemma EnterKeeps(e: Setup, s: World)
    requires Inv(e, s) && s.pc.Told?
    ensures Inv(e, Next(e, s, Enter))
  {
    var t := Next(e, s, Enter);
    CountsMove(e, s, t, Started(TallyOf(s, s.pc.sig)));
    MoveKeeps(e, s, t);
  }

  lemma RaiseKeeps(e: Setup, s: World, error: string)
    requires Inv(e, s) && s.pc.InBody?
    ensures Inv(e, Next(e, s, Raise(error)))
  {
    var t := Next(e, s, Raise(error));
    CountsKept(e, s, t);
    MoveKeeps(e, s, t);
  }

  lemma ReraiseKeeps(e: Setup, s: World)
    requires Inv(e, s) && s.pc.Raised?
    ensures Inv(e, Reraised(s))
  {
    var t := Reraised(s);
    CountsMove(e, s, t, Thrown(TallyOf(s, s.pc.sig)));
    MoveKeeps(e, s, t);
  }

  lemma LeavingKeeps(e: Setup, s: World, pc: Pc)
    requires Inv(e, s) && PcInv(e, s.(pc := pc)) && (pc.Down? || pc.Failing?)
    ensures Inv(e, Leaving(s, pc))
  {
    var t := Leaving(s, pc);
    if InWindow(s.pc) {
      CountsMove(e, s, t, Lost(TallyOf(s, s.pc.sig)));
    } else {
      CountsKept(e, s, t);
    }
    MoveKeeps(e, s, t);
  }

  lemma ReturnKeeps(e: Setup, s: World, v: Json)
    requires Inv(e, s) && s.pc.InBody?
    ensures Inv(e, Next(e, s, Return(v)))
  {
    var t := Next(e, s, Return(v));
    ReturnedGrows(e, s.returned, t.returned);
    assert BodyReturned(e, t.returned, s.pc.sig, v) by {
      assert (s.pc.seen, v) in t.returned;
    }
    CallsAreOurs(e, s.pc.seen);
    SlotsStay(e, s, t, s.pc.sig, SlotOf(s.journal, s.pc.sig));
    ViewsStay(e, s, t);
    FlightsStay(e, s, t);
    CountsKept(e, s, t);
  }

  lemma CallsAreOurs(e: Setup, seen: seq<Outcome>)
    requires SigAt(e, seen).Some?
    ensures Ours(e, SigAt(e, seen).value)
  {
  }

  /** The outcome is one the open call can have. */
  ghost predicate CanHand(e: Setup, s: World, o: Outcome)
    requires Valid(s.journal) && !s.pc.Down?
  {
    && s.pc.seen in s.views && e.agent(s.pc.seen).Some? && (o.Refused? <==> SigAt(e, s.pc.seen).None?)
    && (o.Value? ==> var sig := SigAt(e, s.pc.seen).value; SlotOf(s.journal, sig).Done? && BodyReturned(e, s.returned, sig, o.v))
  }

  lemma HandKeepsViews(e: Setup, s: World, o: Outcome)
    requires Valid(s.journal) && ViewsInv(e, s) && !s.pc.Down? && CanHand(e, s, o)
    ensures ViewsInv(e, Handed(s, o))
  {
    var t := Handed(s, o);
    var b := s.pc.seen + [o];
    assert Front(b) == s.pc.seen && Last(b) == o;
    forall a | a in t.views
      ensures ViewInv(e, t, a)
    {
      if a in s.views {
        assert ViewInv(e, s, a);
      } else {
        assert a == b;
      }
    }
  }

  lemma HandKeeps(e: Setup, s: World, o: Outcome)
    requires Inv(e, s) && !s.pc.Down? && !Engaged(s.pc) && CanHand(e, s, o)
    ensures Inv(e, Handed(s, o))
  {
    var t := Handed(s, o);
    HandKeepsViews(e, s, o);
    SameSlots(e, s, t);
    FlightsStay(e, s, t);
    CountsKept(e, s, t);
  }

  predicate IsHanding(step: Step) {
    step.Decide? || step.TakeReplay? || step.HandFailure? || step.Resume?
  }

  lemma HandingKeeps(e: Setup, s: World, step: Step)
    requires Inv(e, s) && Enabled(e, s, step) && IsHanding(step)
    ensures Inv(e, Next(e, s, step))
  {
    match step
    case Decide =>
      if SigAt(e, s.pc.seen).None? {
        HandKeeps(e, s, Outcome.Refused);
      } else {
        var t := Next(e, s, Decide);
        CountsKept(e, s, t);
        MoveKeeps(e, s, t);
      }
    case TakeReplay => HandKeeps(e, s, Value(Unwrap(s.pc.result)));
    case HandFailure => HandKeeps(e, s, Failure(s.pc.error));
    case Resume => HandKeeps(e, s, Value(s.pc.value));
  }

  lemma SendKeeps(e: Setup, s: World, auto: bool, id: Id, aid: Id)
    requires Inv(e, s) && Enabled(e, s, Send(auto, id, aid))
    ensures Inv(e, Next(e, s, Send(auto, id, aid)))
  {
    CallsAreOurs(e, s.pc.seen);
    assert SlotInv(e, s.journal, s.returned, s.pc.sig);
    SendChanges(s.journal, s.pc.sig, auto, id, aid);
    SentKeeps(e, s, Next(e, s, Send(auto, id, aid)), id);
  }

  lemma SentKeeps(e: Setup, s: World, t: World, id: Id)
    requires Inv(e, s) && s.pc.Requesting? && SlotInv(e, s.journal, s.returned, s.pc.sig)
    requires var slot := SlotOf(s.journal, s.pc.sig);
             && Changes(s.journal, t.journal, s.pc.sig, AfterIntercept(slot, id))
             && t == s.(journal := t.journal, pc := Answered(s.pc.seen, s.pc.sig, AnswerFor(slot, id)))
    ensures Inv(e, t)
  {
    var sig := s.pc.sig;
    var slot := SlotOf(s.journal, sig);
    if !slot.Done? {
      BusyHasNoValue(e, s, sig);
    }
    CountsKept(e, s, t);
    ChangeKeeps(e, s, t, sig, AfterIntercept(slot, id));
  }

  lemma BusyHasNoValue(e: Setup, s: World, sig: Sig)
    requires Valid(s.journal) && ViewsInv(e, s) && !SlotOf(s.journal, sig).Done?
    ensures NoValueAt(e, s.views, sig)
  {
    forall a | a in s.views && a != [] && Last(a).Value?
      ensures SigAt(e, Front(a)) != Some(sig)
    {
      assert ViewInv(e, s, a);
    }
  }

  /** A commit by the wrapper is always recorded, over whatever late commit came in between. */
  lemma FinishStores(e: Setup, s: World)
    requires Valid(s.journal) && PcInv(e, s) && s.pc.Ran?
    ensures var t := Finished(s);
            && Changes(s.journal, t.journal, s.pc.sig, Done(s.pc.id, Envelope(s.pc.value)))
            && t == s.(journal := t.journal, pc := Kept(s.pc.seen, s.pc.sig, s.pc.value),
                       tally := s.tally[s.pc.sig := Stored(TallyOf(s, s.pc.sig))])
  {
    HolderHasSig(s.journal, s.pc.sig);
    CommitChanges(s.journal, (s.pc.id, s.pc.value), s.pc.sig);
  }

  lemma EnvelopeIsGenuine(e: Setup, returned: set<(seq<Outcome>, Json)>, sig: Sig, v: Json)
    requires BodyReturned(e, returned, sig, v)
    ensures Genuine(e, returned, sig, Envelope(v))
  {
    EnvelopeRoundTrip(v);
  }

  lemma FinishKeeps(e: Setup, s: World)
    requires Inv(e, s) && s.pc.Ran?
    ensures Inv(e, Next(e, s, Finish))
  {
    FinishStores(e, s);
    StoredKeeps(e, s, Finished(s));
  }

  lemma StoredKeeps(e: Setup, s: World, t: World)
    requires Inv(e, s) && s.pc.Ran?
    requires Changes(s.journal, t.journal, s.pc.sig, Done(s.pc.id, Envelope(s.pc.value)))
    requires t == s.(journal := t.journal, pc := Kept(s.pc.seen, s.pc.sig, s.pc.value),
                     tally := s.tally[s.pc.sig := Stored(TallyOf(s, s.pc.sig))])
    ensures Inv(e, t)
  {
    var sig := s.pc.sig;
    CallsAreOurs(e, s.pc.seen);
    EnvelopeIsGenuine(e, s.returned, sig, s.pc.value);
    StoredIsCounted(e, s, t);
    ChangeKeeps(e, s, t, sig, Done(s.pc.id, Envelope(s.pc.value)));
  }

  lemma StoredIsCounted(e: Setup, s: World, t: World)
    requires Valid(s.journal) && CountsInv(e, s) && s.pc.Ran? && Ours(e, s.pc.sig) && t.pc.Kept?
    requires Changes(s.journal, t.journal, s.pc.sig, Done(s.pc.id, Envelope(s.pc.value)))
    requires t.tally == s.tally[s.pc.sig := Stored(TallyOf(s, s.pc.sig))]
    ensures CountsInv(e, t)
  {
    CountsMove(e, s, t, Stored(TallyOf(s, s.pc.sig)));
  }

  lemma ReportKeeps(e: Setup, s: World)
    requires Inv(e, s) && s.pc.Raised?
    ensures Inv(e, Next(e, s, Report))
  {
    HolderHasSig(s.journal, s.pc.sig);
    FailChanges(s.journal, s.pc.id, s.pc.sig);
    ReportedKeeps(e, s, Next(e, s, Report));
  }

  lemma ReportedKeeps(e: Setup, s: World, t: World)
    requires Inv(e, s) && s.pc.Raised? && Changes(s.journal, t.journal, s.pc.sig, Free)
    requires t == Reraised(s).(journal := t.journal)
    ensures Inv(e, t)
  {
    CountsMove(e, s, t, Thrown(TallyOf(s, s.pc.sig)));
    ChangeKeeps(e, s, t, s.pc.sig, Free);
  }

  lemma LaunchKeeps(e: Setup, s: World, late: (Id, Json))
    requires Inv(e, s) && FlyInv(e, s, late)
    ensures Inv(e, s.(flying := s.flying + multiset{late}))
  {
    var t := s.(flying := s.flying + multiset{late});
    ViewsStay(e, s, t);
    SameSlots(e, s, t);
    CountsKept(e, s, t);
    forall x | x in t.flying
      ensures FlyInv(e, t, x)
    {
      assert x in s.flying || x == late;
      assert FlyInv(e, s, x);
    }
  }

  lemma SendingKeeps(e: Setup, s: World, pc: Pc)
    requires Inv(e, s) && s.pc.Ran? && PcInv(e, s.(pc := pc)) && (pc.Down? || pc.Failing?)
    ensures Inv(e, Leaving(s, pc).(flying := s.flying + multiset{(s.pc.id, s.pc.value)}))
  {
    HolderHasSig(s.journal, s.pc.sig);
    var t := Leaving(s, pc);
    LeavingKeeps(e, s, pc);
    assert FlyInv(e, t, (s.pc.id, s.pc.value));
    LaunchKeeps(e, t, (s.pc.id, s.pc.value));
  }

  lemma ArriveKeeps(e: Setup, s: World, late: (Id, Json))
    requires Inv(e, s) && late in s.flying
    ensures Inv(e, Next(e, s, Step.Arrive(late)))
  {
    assert FlyInv(e, s, late);
    CommitChanges(s.journal, late, s.journal.rows[late.0].sig);
    ArrivedKeeps(e, s, Next(e, s, Step.Arrive(late)), late, s.journal.rows[late.0].sig);
  }

  lemma ArrivedKeeps(e: Setup, s: World, t: World, late: (Id, Json), sig: Sig)
    requires Inv(e, s) && BodyReturned(e, s.returned, sig, late.1)
    requires Changes(s.journal, t.journal, sig, AfterCommit(SlotOf(s.journal, sig), late))
    requires t == s.(journal := t.journal, flying := s.flying - multiset{late})
    ensures Inv(e, t)
  {
    EnvelopeIsGenuine(e, s.returned, sig, late.1);
    ReturnedAreOurs(e, s.returned, sig, late.1);
    assert SlotInv(e, s.journal, s.returned, sig);
    ArriveKeepsPc(e, s, t, late, sig);
    CountsKept(e, s, t);
    ChangeKeeps(e, s, t, sig, AfterCommit(SlotOf(s.journal, sig), late));
  }

  lemma ReturnedAreOurs(e: Setup, returned: set<(seq<Outcome>, Json)>, sig: Sig, v: Json)
    requires BodyReturned(e, returned, sig, v)
    ensures Ours(e, sig)
  {
    var p :| (p, v) in returned && SigAt(e, p) == Some(sig);
    CallsAreOurs(e, p);
  }

  lemma ArriveKeepsPc(e: Setup, s: World, t: World, late: (Id, Json), sig: Sig)
    requires Valid(s.journal) && PcInv(e, s) && t == s.(journal := t.journal, flying := t.flying)
    requires Changes(s.journal, t.journal, sig, AfterCommit(SlotOf(s.journal, sig), late))
    ensures PcInv(e, t)
  {
    if !s.pc.Down? && !s.pc.Thinking? {
      var slot := SlotOf(s.journal, s.pc.sig);
      assert SlotOf(t.journal, s.pc.sig) == slot || SlotOf(t.journal, s.pc.sig) == AfterCommit(slot, late);
    }
  }

  lemma OtherKeeps(e: Setup, s: World, r: Request)
    requires Inv(e, s) && Enabled(e, s, Other(r))
    ensures Inv(e, Next(e, s, Other(r)))
  {
    var t := Next(e, s, Other(r));
    OtherSparesOurs(e, s.journal, r);
    ServeKeepsRows(s.journal, r);
    OtherKeepsViews(e, s, t);
    OtherKeepsSlots(e, s, t);
    FlightsStay(e, s, t);
    CountsKept(e, s, t);
  }

  lemma OtherSparesOurs(e: Setup, j: Journal, r: Request)
    requires Valid(j) && Fresh(j, r) && Foreign(e, j, r)
    ensures Valid(Serve(j, r).0)
    ensures forall sig :: Ours(e, sig) ==> SlotOf(Serve(j, r).0, sig) == SlotOf(j, sig)
  {
    ServeKeepsValid(j, r);
    forall sig | Ours(e, sig)
      ensures SlotOf(Serve(j, r).0, sig) == SlotOf(j, sig)
    {
      ServeRefines(j, r, sig);
    }
  }

  lemma OtherKeepsSlots(e: Setup, s: World, t: World)
    requires Valid(s.journal) && SlotsInv(e, s) && Valid(t.journal) && t.returned == s.returned
    requires forall sig :: Ours(e, sig) ==> SlotOf(t.journal, sig) == SlotOf(s.journal, sig)
    ensures SlotsInv(e, t)
  {
    forall sig | Ours(e, sig)
      ensures SlotInv(e, t.journal, t.returned, sig)
    {
      assert SlotInv(e, s.journal, s.returned, sig);
    }
  }

  lemma OtherKeepsViews(e: Setup, s: World, t: World)
    requires Valid(s.journal) && ViewsInv(e, s) && PcInv(e, s) && Valid(t.journal) && t == s.(journal := t.journal)
    requires forall sig :: Ours(e, sig) ==> SlotOf(t.journal, sig) == SlotOf(s.journal, sig)
    ensures ViewsInv(e, t) && PcInv(e, t)
  {
    forall a | a in t.views
      ensures ViewInv(e, t, a)
    {
      assert ViewInv(e, s, a);
      if a != [] && SigAt(e, Front(a)).Some? {
        CallsAreOurs(e, Front(a));
      }
    }
    if !s.pc.Down? && SigAt(e, s.pc.seen).Some? {
      CallsAreOurs(e, s.pc.seen);
    }
  }

  predicate IsBodily(step: Step) {
    step.Enter? || step.Return? || step.Raise? || step.Finish? || step.Report? || step.Unreported?
  }

  lemma BodilyKeeps(e: Setup, s: World, step: Step)
    requires Inv(e, s) && Enabled(e, s, step) && IsBodily(step)
    ensures Inv(e, Next(e, s, step))
  {
    match step
    case Enter => EnterKeeps(e, s);
    case Return(v) => ReturnKeeps(e, s, v);
    case Raise(error) => RaiseKeeps(e, s, error);
    case Finish => FinishKeeps(e, s);
    case Report => ReportKeeps(e, s);
    case Unreported => ReraiseKeeps(e, s);
  }

  predicate IsLeaving(step: Step) {
    step.Break? || step.BreakSending? || step.Crash? || step.CrashSending?
  }

  lemma LeavingStepKeeps(e: Setup, s: World, step: Step)
    requires Inv(e, s) && Enabled(e, s, step) && IsLeaving(step)
    ensures Inv(e, Next(e, s, step))
  {
    match step
    case Break(error) => LeavingKeeps(e, s, Failing(s.pc.seen, s.pc.sig, error));
    case Crash => LeavingKeeps(e, s, Down);
    case BreakSending(error) => SendingKeeps(e, s, Failing(s.pc.seen, s.pc.sig, error));
    case CrashSending => SendingKeeps(e, s, Down);
  }

  lemma StepKeepsInv(e: Setup, s: World, step: Step)
    requires Inv(e, s) && Enabled(e, s, step)
    ensures Inv(e, Next(e, s, step))
  {
    if IsHanding(step) {
      HandingKeeps(e, s, step);
    } else if IsBodily(step) {
      BodilyKeeps(e, s, step);
    } else if IsLeaving(step) {
      LeavingStepKeeps(e, s, step);
    } else if step.Boot? {
      BootKeeps(e, s);
    } else if step.Send? {
      SendKeeps(e, s, step.auto, step.id, step.aid);
    } else if step.Arrive? {
      ArriveKeeps(e, s, step.late);
    } else {
      OtherKeeps(e, s, step.r);
    }
  }

  // ── Whole runs ────────────────────────────────────────────────────────────

  ghost predicate Takes(e: Setup, states: seq<World>, steps: seq<Step>, i: nat)
    requires i < |steps| && |states| == |steps| + 1
  {
    Enabled(e, states[i], steps[i]) && states[i + 1] == Next(e, states[i], steps[i])
  }

  ghost predicate IsRun(e: Setup, states: seq<World>, steps: seq<Step>) {
    && |states| == |steps| + 1 && Init(e, states[0])
    && forall i {:trigger Takes(e, states, steps, i)} :: 0 <= i < |steps| ==> Takes(e, states, steps, i)
  }

  lemma InitIsInv(e: Setup, s: World)
    requires Init(e, s)
    ensures Inv(e, s)
  {
    forall sig | Ours(e, sig)
      ensures SlotInv(e, s.journal, s.returned, sig) && CountInv(s, sig)
    {
      assert Project(s.journal, sig) == Initial();
    }
  }

  lemma {:induction false} RunKeepsInv(e: Setup, states: seq<World>, steps: seq<Step>, n: nat)
    requires IsRun(e, states, steps) && n < |states|
    ensures Inv(e, states[n])
  {
    if n == 0 {
      InitIsInv(e, states[0]);
    } else {
      RunKeepsInv(e, states, steps, n - 1);
      assert Takes(e, states, steps, n - 1);
      StepKeepsInv(e, states[n - 1], steps[n - 1]);
    }
  }

  lemma ViewsGrowBy(e: Setup, s: World, step: Step)
    requires Enabled(e, s, step)
    ensures s.views <= Next(e, s, step).views
  {
  }

  lemma {:induction false} ViewsOnlyGrow(e: Setup, states: seq<World>, steps: seq<Step>, m: nat, n: nat)
    requires IsRun(e, states, steps) && m <= n < |states|
    ensures states[m].views <= states[n].views
    decreases n
  {
    if m < n {
      ViewsOnlyGrow(e, states, steps, m, n - 1);
      assert Takes(e, states, steps, n - 1);
      ViewsGrowBy(e, states[n - 1], steps[n - 1]);
    }
  }

  // ── Values stay what the journal holds ────────────────────────────────────

  /** A late commit meets the same call already done with another result. */
  ghost predicate Overwrites(s: World, step: Step)
    requires Valid(s.journal)
  {
    step.Arrive? && step.late.0 in s.journal.rows
    && var slot := SlotOf(s.journal, s.journal.rows[step.late.0].sig);
       slot.Done? && slot.id == step.late.0 && slot.result != Envelope(step.late.1)
  }

  ghost predicate Stores(j: Journal, sig: Sig, r: Json)
    requires Valid(j)
  {
    SlotOf(j, sig).Done? && SlotOf(j, sig).result == r
  }

  ghost predicate ViewHeld(e: Setup, j: Journal, a: seq<Outcome>)
    requires Valid(j)
  {
    a != [] && Last(a).Value? && SigAt(e, Front(a)).Some? ==> Stores(j, SigAt(e, Front(a)).value, Envelope(Last(a).v))
  }

  ghost predicate PendingHeld(j: Journal, pc: Pc)
    requires Valid(j)
  {
    && (pc.Replaying? && pc.result.Some? ==> Stores(j, pc.sig, pc.result.value))
    && (pc.Kept? ==> Stores(j, pc.sig, Envelope(pc.value)))
  }

  /** Every value an incarnation was given, or is about to be given, is what the journal holds for its call. */
  ghost predicate Held(e: Setup, s: World)
    requires Valid(s.journal)
  {
    PendingHeld(s.journal, s.pc) && forall a :: a in s.views ==> ViewHeld(e, s.journal, a)
  }

  /** One slot changes, but not one with a result that was given out. */
  lemma HeldStays(e: Setup, s: World, t: World, sig: Sig, slot: Slot)
    requires Valid(s.journal) && Held(e, s) && Changes(s.journal, t.journal, sig, slot) && t.views == s.views
    requires NoValueAt(e, s.views, sig) || SlotOf(s.journal, sig) == slot
    requires PendingHeld(t.journal, t.pc)
    ensures Held(e, t)
  {
    forall a | a in t.views
      ensures ViewHeld(e, t.journal, a)
    {
      assert ViewHeld(e, s.journal, a);
    }
  }

  lemma SendKeepsHeld(e: Setup, s: World, auto: bool, id: Id, aid: Id)
    requires Inv(e, s) && Held(e, s) && Enabled(e, s, Send(auto, id, aid))
    ensures Valid(Next(e, s, Send(auto, id, aid)).journal) && Held(e, Next(e, s, Send(auto, id, aid)))
  {
    var slot := SlotOf(s.journal, s.pc.sig);
    CallsAreOurs(e, s.pc.seen);
    assert SlotInv(e, s.journal, s.returned, s.pc.sig);
    SendChanges(s.journal, s.pc.sig, auto, id, aid);
    if !slot.Done? {
      BusyHasNoValue(e, s, s.pc.sig);
    }
    HeldStays(e, s, Next(e, s, Send(auto, id, aid)), s.pc.sig, AfterIntercept(slot, id));
  }

  lemma FinishKeepsHeld(e: Setup, s: World)
    requires Inv(e, s) && Held(e, s) && s.pc.Ran?
    ensures Valid(Finished(s).journal) && Held(e, Finished(s))
  {
    FinishStores(e, s);
    StoredIsHeld(e, s, Finished(s));
  }

  lemma StoredIsHeld(e: Setup, s: World, t: World)
    requires Valid(s.journal) && PcInv(e, s) && Held(e, s) && s.pc.Ran? && t.views == s.views
    requires Changes(s.journal, t.journal, s.pc.sig, Done(s.pc.id, Envelope(s.pc.value)))
    requires t.pc == Kept(s.pc.seen, s.pc.sig, s.pc.value)
    ensures Held(e, t)
  {
    HeldStays(e, s, t, s.pc.sig, Done(s.pc.id, Envelope(s.pc.value)));
  }

  lemma ReportKeepsHeld(e: Setup, s: World)
    requires Inv(e, s) && Held(e, s) && s.pc.Raised?
    ensures Valid(Next(e, s, Report).journal) && Held(e, Next(e, s, Report))
  {
    HolderHasSig(s.journal, s.pc.sig);
    FailChanges(s.journal, s.pc.id, s.pc.sig);
    HeldStays(e, s, Next(e, s, Report), s.pc.sig, Free);
  }

  lemma ArriveKeepsHeld(e: Setup, s: World, late: (Id, Json))
    requires Inv(e, s) && Held(e, s) && late in s.flying && !Overwrites(s, Step.Arrive(late))
    ensures Valid(Next(e, s, Step.Arrive(late)).journal) && Held(e, Next(e, s, Step.Arrive(late)))
  {
    assert FlyInv(e, s, late);
    var sig := s.journal.rows[late.0].sig;
    var slot := SlotOf(s.journal, sig);
    CommitChanges(s.journal, late, sig);
    if !slot.Done? {
      BusyHasNoValue(e, s, sig);
    }
    HeldStays(e, s, Next(e, s, Step.Arrive(late)), sig, AfterCommit(slot, late));
  }

  lemma OtherKeepsHeld(e: Setup, s: World, r: Request)
    requires Inv(e, s) && Held(e, s) && Enabled(e, s, Other(r))
    ensures Valid(Next(e, s, Other(r)).journal) && Held(e, Next(e, s, Other(r)))
  {
    var t := Next(e, s, Other(r));
    OtherSparesOurs(e, s.journal, r);
    forall a | a in t.views
      ensures ViewHeld(e, t.journal, a)
    {
      assert ViewHeld(e, s.journal, a);
      if a != [] && SigAt(e, Front(a)).Some? {
        CallsAreOurs(e, Front(a));
      }
    }
    if s.pc.Replaying? || s.pc.Kept? {
      CallsAreOurs(e, s.pc.seen);
    }
  }

  lemma HandKeepsHeld(e: Setup, s: World, o: Outcome)
    requires Valid(s.journal) && Held(e, s) && !s.pc.Down?
    requires o.Value? && SigAt(e, s.pc.seen).Some? ==> Stores(s.journal, SigAt(e, s.pc.seen).value, Envelope(o.v))
    ensures Held(e, Handed(s, o))
  {
    var t := Handed(s, o);
    var b := s.pc.seen + [o];
    assert Front(b) == s.pc.seen && Last(b) == o;
    forall a | a in t.views
      ensures ViewHeld(e, t.journal, a)
    {
      assert a in s.views || a == b;
    }
  }

  lemma HandingKeepsHeld(e: Setup, s: World, step: Step)
    requires Inv(e, s) && Held(e, s) && Enabled(e, s, step) && IsHanding(step)
    ensures Held(e, Next(e, s, step))
  {
    match step
    case Decide =>
      if SigAt(e, s.pc.seen).None? {
        HandKeepsHeld(e, s, Outcome.Refused);
      }
    case TakeReplay => HandKeepsHeld(e, s, Value(Unwrap(s.pc.result)));
    case HandFailure => HandKeepsHeld(e, s, Failure(s.pc.error));
    case Resume => HandKeepsHeld(e, s, Value(s.pc.value));
  }

  lemma MoveKeepsHeld(e: Setup, s: World, t: World)
    requires Valid(s.journal) && Held(e, s) && t.journal == s.journal && s.views <= t.views <= s.views + {[]}
    requires PendingHeld(t.journal, t.pc)
    ensures Held(e, t)
  {
    forall a | a in t.views
      ensures ViewHeld(e, t.journal, a)
    {
      assert a in s.views || a == [];
    }
  }

  /** The journal serves a request. */
  predicate IsServed(step: Step) {
    step.Send? || step.Finish? || step.Report? || step.Arrive? || step.Other?
  }

  lemma ServedKeepsHeld(e: Setup, s: World, step: Step)
    requires Inv(e, s) && Held(e, s) && Enabled(e, s, step) && !Overwrites(s, step) && IsServed(step)
    ensures Valid(Next(e, s, step).journal) && Held(e, Next(e, s, step))
  {
    if step.Send? {
      SendKeepsHeld(e, s, step.auto, step.id, step.aid);
    } else if step.Finish? {
      FinishKeepsHeld(e, s);
    } else if step.Report? {
      ReportKeepsHeld(e, s);
    } else if step.Arrive? {
      ArriveKeepsHeld(e, s, step.late);
    } else {
      OtherKeepsHeld(e, s, step.r);
    }
  }

  lemma StayingKeepsHeld(e: Setup, s: World, step: Step)
    requires Valid(s.journal) && Held(e, s) && Enabled(e, s, step) && !IsServed(step) && !IsHanding(step)
    ensures Valid(Next(e, s, step).journal) && Held(e, Next(e, s, step))
  {
    MoveKeepsHeld(e, s, Next(e, s, step));
  }

  lemma StepKeepsHeld(e: Setup, s: World, step: Step)
    requires Inv(e, s) && Held(e, s) && Enabled(e, s, step) && !Overwrites(s, step)
    ensures Valid(Next(e, s, step).journal) && Held(e, Next(e, s, step))
  {
    if IsHanding(step) {
      HandingKeepsHeld(e, s, step);
    } else if IsServed(step) {
      ServedKeepsHeld(e, s, step);
    } else {
      StayingKeepsHeld(e, s, step);
    }
  }

  ghost predicate OverwritesNothing(states: seq<World>, steps: seq<Step>, i: nat)
    requires i < |steps| && |states| == |steps| + 1
  {
    Valid(states[i].journal) ==> !Overwrites(states[i], steps[i])
  }

  /** No late commit of the run overwrites a result. */
  ghost predicate NothingOverwritten(states: seq<World>, steps: seq<Step>) {
    |states| == |steps| + 1
    && forall i {:trigger OverwritesNothing(states, steps, i)} :: 0 <= i < |steps| ==> OverwritesNothing(states, steps, i)
  }

  lemma InitIsHeld(e: Setup, s: World)
    requires Init(e, s)
    ensures Held(e, s)
  {
  }

  ghost predicate HeldInv(e: Setup, s: World) {
    Inv(e, s) && Held(e, s)
  }

  lemma InitIsHeldInv(e: Setup, s: World)
    requires Init(e, s)
    ensures HeldInv(e, s)
  {
    InitIsInv(e, s);
    InitIsHeld(e, s);
  }

  lemma StepKeepsHeldInv(e: Setup, s: World, step: Step)
    requires HeldInv(e, s) && Enabled(e, s, step) && !Overwrites(s, step)
    ensures HeldInv(e, Next(e, s, step))
  {
    StepKeepsInv(e, s, step);
    StepKeepsHeld(e, s, step);
  }

  lemma TakenKeepsHeldInv(e: Setup, states: seq<World>, steps: seq<Step>, i: nat)
    requires IsRun(e, states, steps) && NothingOverwritten(states, steps) && i < |steps| && HeldInv(e, states[i])
    ensures HeldInv(e, states[i + 1])
  {
    assert Takes(e, states, steps, i);
    assert OverwritesNothing(states, steps, i);
    StepKeepsHeldInv(e, states[i], steps[i]);
  }

  lemma {:induction false} ValuesStayHeld(e: Setup, states: seq<World>, steps: seq<Step>, n: nat)
    requires IsRun(e, states, steps) && n < |states| && NothingOverwritten(states, steps)
    ensures HeldInv(e, states[n])
  {
    if n == 0 {
      InitIsHeldInv(e, states[0]);
    } else {
      ValuesStayHeld(e, states, steps, n - 1);
      TakenKeepsHeldInv(e, states, steps, n - 1);
    }
  }

  // ── What incarnations can disagree on ─────────────────────────────────────

  lemma {:induction false} PrefixIsView(e: Setup, s: World, a: seq<Outcome>, k: nat)
    requires Valid(s.journal) && ViewsInv(e, s) && a in s.views && k <= |a|
    ensures a[..k] in s.views
    decreases |a|
  {
    if k == |a| {
      assert a[..k] == a;
    } else {
      assert ViewInv(e, s, a);
      PrefixIsView(e, s, Front(a), k);
      assert Front(a)[..k] == a[..k];
    }
  }

  /** The outcome at index k of a view, seen as the last one of a shorter view. */
  lemma OutcomeAt(e: Setup, s: World, a: seq<Outcome>, k: nat)
    requires Valid(s.journal) && ViewsInv(e, s) && a in s.views && k < |a|
    ensures a[..k + 1] in s.views && Front(a[..k + 1]) == a[..k] && Last(a[..k + 1]) == a[k] && ViewInv(e, s, a[..k + 1])
  {
    PrefixIsView(e, s, a, k + 1);
  }

  /** Two views first differ at k, and a failure was handed to one of them there. */
  predicate ForksOnFailure(a: seq<Outcome>, b: seq<Outcome>, k: nat) {
    k < |a| && k < |b| && a[..k] == b[..k] && a[k] != b[k] && (a[k].Failure? || b[k].Failure?)
  }

  predicate Comparable(a: seq<Outcome>, b: seq<Outcome>) {
    a <= b || b <= a
  }

  /** Two sequences are comparable or have a first place where they differ. */
  lemma FirstDifference(a: seq<Outcome>, b: seq<Outcome>)
    ensures Comparable(a, b) || exists k :: 0 <= k < |a| && k < |b| && a[..k] == b[..k] && a[k] != b[k]
  {
    var k := 0;
    while k < |a| && k < |b| && a[k] == b[k]
      invariant k <= |a| && k <= |b| && a[..k] == b[..k]
    {
      k := k + 1;
    }
  }

  lemma ViewsForkOnFailures(e: Setup, s: World, a: seq<Outcome>, b: seq<Outcome>)
    requires Valid(s.journal) && ViewsInv(e, s) && Held(e, s) && a in s.views && b in s.views
    ensures Comparable(a, b) || exists k :: ForksOnFailure(a, b, k)
  {
    FirstDifference(a, b);
    if k :| 0 <= k < |a| && k < |b| && a[..k] == b[..k] && a[k] != b[k] {
      ForkIsAFailure(e, s, a, b, k);
    }
  }

  lemma ForkIsAFailure(e: Setup, s: World, a: seq<Outcome>, b: seq<Outcome>, k: nat)
    requires Valid(s.journal) && ViewsInv(e, s) && Held(e, s) && a in s.views && b in s.views
    requires k < |a| && k < |b| && a[..k] == b[..k] && a[k] != b[k]
    ensures ForksOnFailure(a, b, k)
  {
    OutcomeAt(e, s, a, k);
    OutcomeAt(e, s, b, k);
    if !a[k].Failure? && !b[k].Failure? {
      SameCallSameValue(e, s, a[..k + 1], b[..k + 1]);
    }
  }

  /** Two views that made the same call and were handed no failure for it were handed the same. */
  lemma SameCallSameValue(e: Setup, s: World, a: seq<Outcome>, b: seq<Outcome>)
    requires Valid(s.journal) && ViewsInv(e, s) && Held(e, s) && a in s.views && b in s.views
    requires a != [] && b != [] && Front(a) == Front(b) && !Last(a).Failure? && !Last(b).Failure?
    ensures Last(a) == Last(b)
  {
    assert ViewInv(e, s, a) && ViewInv(e, s, b);
    if Last(a).Value? {
      assert ViewHeld(e, s.journal, a) && ViewHeld(e, s.journal, b);
      EnvelopeRoundTrip(Last(a).v);
      EnvelopeRoundTrip(Last(b).v);
    }
  }

  /** All that any incarnation has been handed by the end of the run is a view of the last state. */
  lemma SeenIsAView(e: Setup, states: seq<World>, steps: seq<Step>, m: nat, n: nat)
    requires IsRun(e, states, steps) && m <= n < |states| && !states[m].pc.Down?
    ensures states[m].pc.seen in states[n].views
  {
    RunKeepsInv(e, states, steps, m);
    ViewsOnlyGrow(e, states, steps, m, n);
  }

  /** Whatever crashed before, two incarnations differ first on an outcome that was a failure to one of them. */
  lemma IncarnationsForkOnFailures(e: Setup, states: seq<World>, steps: seq<Step>, m: nat, n: nat)
    requires IsRun(e, states, steps) && NothingOverwritten(states, steps)
    requires m < |states| && n < |states| && !states[m].pc.Down? && !states[n].pc.Down?
    ensures var a, b := states[m].pc.seen, states[n].pc.seen; Comparable(a, b) || exists k :: ForksOnFailure(a, b, k)
  {
    var last := |states| - 1;
    SeenIsAView(e, states, steps, m, last);
    SeenIsAView(e, states, steps, n, last);
    RunKeepsInv(e, states, steps, last);
    ValuesStayHeld(e, states, steps, last);
    ViewsForkOnFailures(e, states[last], states[m].pc.seen, states[n].pc.seen);
  }

  predicate FailureFree(a: seq<Outcome>) {
    forall i :: 0 <= i < |a| ==> !a[i].Failure?
  }

  /** Incarnations that were handed no failure never disagree. */
  lemma IncarnationsAgree(e: Setup, states: seq<World>, steps: seq<Step>, m: nat, n: nat)
    requires IsRun(e, states, steps) && NothingOverwritten(states, steps)
    requires m < |states| && n < |states| && !states[m].pc.Down? && !states[n].pc.Down?
    requires FailureFree(states[m].pc.seen) && FailureFree(states[n].pc.seen)
    ensures Comparable(states[m].pc.seen, states[n].pc.seen)
  {
    IncarnationsForkOnFailures(e, states, steps, m, n);
  }

  /** The agent has got all its outcomes and stops. */
  predicate Completed(e: Setup, s: World) {
    s.pc.Thinking? && e.agent(s.pc.seen).None?
  }

  /** All completed incarnations that were handed no failure end with the same outcomes. */
  lemma CompletedAgree(e: Setup, states: seq<World>, steps: seq<Step>, m: nat, n: nat)
    requires IsRun(e, states, steps) && NothingOverwritten(states, steps)
    requires m < |states| && n < |states| && Completed(e, states[m]) && Completed(e, states[n])
    requires FailureFree(states[m].pc.seen) && FailureFree(states[n].pc.seen)
    ensures states[m].pc.seen == states[n].pc.seen
  {
    IncarnationsAgree(e, states, steps, m, n);
    CompletedIsLongest(e, states, steps, m, n);
    CompletedIsLongest(e, states, steps, n, m);
  }

  lemma CompletedIsLongest(e: Setup, states: seq<World>, steps: seq<Step>, m: nat, n: nat)
    requires IsRun(e, states, steps) && m < |states| && n < |states| && Completed(e, states[m]) && Completed(e, states[n])
    ensures states[m].pc.seen <= states[n].pc.seen ==> states[m].pc.seen == states[n].pc.seen
  {
    var a, b := states[m].pc.seen, states[n].pc.seen;
    if a <= b && a != b {
      assert b[..|a|] == a;
      RunKeepsInv(e, states, steps, n);
      OutcomeAt(e, states[n], b, |a|);
    }
  }

  /**
   The body of a call runs once for its commit, of which there is at most one, once for every time the
   process left it without seeing its commit, once for every time it raised, and once more while it is
   in that window now.
   */
  lemma BodyRunsExactly(e: Setup, states: seq<World>, steps: seq<Step>, n: nat, sig: Sig)
    requires IsRun(e, states, steps) && n < |states| && Ours(e, sig)
    ensures var t := TallyOf(states[n], sig);
            && t.runs == t.commits + t.lost + t.raises + (if Counting(states[n].pc, sig) then 1 else 0)
            && t.commits <= 1
  {
    RunKeepsInv(e, states, steps, n);
  }

  /** Every value an incarnation was handed is one that a body of a call with the same signature returned. */
  lemma ValuesCameFromBodies(e: Setup, states: seq<World>, steps: seq<Step>, n: nat, a: seq<Outcome>, k: nat)
    requires IsRun(e, states, steps) && n < |states| && a in states[n].views && k < |a| && a[k].Value?
    ensures SigAt(e, a[..k]).Some? && BodyReturned(e, states[n].returned, SigAt(e, a[..k]).value, a[k].v)
  {
    RunKeepsInv(e, states, steps, n);
    OutcomeAt(e, states[n], a, k);
  }

  ghost predicate IsDone(m: Machine, value: Json) {
    m.slot.Done? && m.slot.result == Envelope(value)
  }

  // ── A commit that arrives late ────────────────────────────────────────────

  lemma LateCommitSettles(j: Journal, sig: Sig, held: Id, late: Json)
    requires Valid(j) && Project(j, sig).slot.Done? && Project(j, sig).slot.id == held
    ensures var t := Serve(j, Request.Commit(held, late)).0;
            Valid(t) && Project(t, sig).slot == Done(held, late) && t.rows.Keys == j.rows.Keys && t.approvals == j.approvals
  {
    HeldIsKnown(j, sig);
    ServeRefines(j, Request.Commit(held, late), sig);
  }

  /** A second commit of a committed call leaves its replays as they were exactly if it carries the same result. */
  lemma LateCommitHarmlessIff(j: Journal, sig: Sig, held: Id, result: Json, late: Json, auto: bool, id: Id, aid: Id)
    requires Valid(j) && Project(j, sig).slot == Done(held, result) && id !in j.rows && aid !in j.approvals
    ensures var t := Serve(j, Request.Commit(held, late)).0;
            Serve(t, Intercept(sig, false, auto, id, aid)).1 == Replayed(held, Some(result)) <==> late == result
  {
    var t := Serve(j, Request.Commit(held, late)).0;
    LateCommitSettles(j, sig, held, late);
    InterceptLeaves(t, Intercept(sig, false, auto, id, aid));
  }

  // ── The code ──────────────────────────────────────────────────────────────

  class UndoLogSession {
    var stepIndex: nat

    /** A restarted process rebuilds its session with the counter at zero. */
    constructor ()
      ensures stepIndex == 0
    {
      stepIndex := 0;
    }

    /** The first step is 1, and no step is given out twice. */
    method NextStep() returns (k: nat)
      modifies this
      ensures k == stepIndex == old(stepIndex) + 1
    {
      stepIndex := stepIndex + 1;
      k := stepIndex;
    }
  }

  /** How the machine of the call stands after the wrapper went through, and whether the body ran. */
  ghost predicate WrapperOutcome(m: Machine, t: Machine, gated: bool, auto: bool, body: Result<Json>, r: Result<Json>, ran: bool) {
    match m.slot
    case Done(_, result) => !ran && r == Ok(Unwrap(Some(result))) && t == m
    case _ =>
      var waits := !auto && ((m.slot.Free? && gated) || (m.slot.Waiting? && IsOpen(m, m.slot.ask)));
      if waits then !ran && r.Err? && t.slot.Waiting?
      else ran && r == body && (body.Ok? ==> IsDone(t, body.value)) && (body.Err? ==> t.slot.Free?)
  }

  /** Send the intercept; the answer and the new state are those of the signature's machine. */
  method Ask(server: Server, sig: Sig, gated: bool, auto: bool, id: Id, aid: Id) returns (answer: Answer)
    requires Valid(server.J()) && id !in server.rows && aid !in server.approvals
    modifies server
    ensures Valid(server.J()) && SparesOthers(old(server.J()), server.J(), sig)
    ensures (Project(server.J(), sig), answer) == JournalMachine.Arrive(Project(old(server.J()), sig), gated, auto, id, aid)
  {
    InterceptLeaves(server.J(), Intercept(sig, gated, auto, id, aid));
    answer := server.HandleToolCall(sig, gated, auto, id, aid);
  }

  /** Report what the body did: its result in an envelope, or its failure. */
  method ReportOutcome(server: Server, sig: Sig, id: Id, body: Result<Json>)
    requires Valid(server.J()) && !Project(server.J(), sig).slot.Free? && Project(server.J(), sig).slot.id == id
    modifies server
    ensures Valid(server.J()) && SparesOthers(old(server.J()), server.J(), sig)
    ensures body.Ok? ==> IsDone(Project(server.J(), sig), body.value)
    ensures body.Err? ==> Project(server.J(), sig).slot.Free?
  {
    ghost var j := server.J();
    ghost var report := if body.Ok? then Request.Commit(id, Envelope(body.value)) else Fail(id);
    HeldIsKnown(j, sig);
    ServeRefines(j, report, sig);
    forall other | other != sig
      ensures Project(Serve(j, report).0, other) == Project(j, other)
    {
      ReportSparesOthers(j, report, sig, other);
    }
    var _ := server.HandleEffectAction(id, body.Ok?, if body.Ok? then Envelope(body.value) else CanonicalJson.Null);
  }

  /** Intercept a signed call, then replay, suspend, or run the body and report. */
  method InvokeSigned(server: Server, sig: Sig, gated: bool, auto: bool, id: Id, aid: Id, body: Result<Json>)
    returns (r: Result<Json>, ran: bool)
    requires Valid(server.J()) && id !in server.rows && aid !in server.approvals
    modifies server
    ensures Valid(server.J()) && SparesOthers(old(server.J()), server.J(), sig)
    ensures WrapperOutcome(Project(old(server.J()), sig), Project(server.J(), sig), gated, auto, body, r, ran)
  {
    var answer := Ask(server, sig, gated, auto, id, aid);
    if answer.Replayed? {
      return Ok(Unwrap(answer.result)), false;
    }
    if answer.PendingApproval? {
      return Err("awaiting approval"), false;
    }
    r, ran := body, true;
    ReportOutcome(server, sig, answer.id, body);
  }

  /** The tool wrapper: take a step number, sign, intercept, then replay, suspend, or run the body and report. */
  method Invoke(session: UndoLogSession, server: Server, sign: Signer, call: ToolCall, gated: bool, auto: bool, id: Id, aid: Id,
                body: Result<Json>)
    returns (r: Result<Json>, ran: bool)
    requires Valid(server.J()) && id !in server.rows && aid !in server.approvals
    modifies session, server
    ensures Valid(server.J()) && session.stepIndex == old(session.stepIndex) + 1
    ensures match sign(session.stepIndex, call)
            case None => r.Err? && !ran && server.J() == old(server.J())
            case Some(sig) =>
              && WrapperOutcome(Project(old(server.J()), sig), Project(server.J(), sig), gated, auto, body, r, ran)
              && SparesOthers(old(server.J()), server.J(), sig)
  {
    var step := session.NextStep();
    var signed := sign(step, call);
    if signed.None? {
      return Err("no signature"), false;
    }
    r, ran := InvokeSigned(server, signed.value, gated, auto, id, aid, body);
  }
}
