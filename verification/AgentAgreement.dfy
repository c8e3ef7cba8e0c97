/**
 When restarted incarnations of an agent agree, exactly. From a reachable state, crashes that leave no
 commit under way, restarts and replays can make two incarnations disagree if and only if a failure was
 handed over or is about to be, a value was given out that the journal no longer holds, or a commit is
 under way that can still change a result. AgentCrashes lets crashes of every kind in.
 */
module AgentAgreement {
  import opened Types
  import opened DevJournal
  import opened JournalMachine
  import opened AgentReplay
  import CanonicalJson

  type Step = AgentReplay.Step

  /** Nothing new goes wrong: no body raises, no connection breaks and no crash leaves a commit under way; other crashes go on. */
  predicate Quiet(step: Step) {
    !step.Raise? && !step.Break? && !step.BreakSending? && !step.CrashSending?
  }

  ghost predicate IsQuiet(e: Setup, states: seq<World>, steps: seq<Step>, i: nat)
    requires i < |steps| && |states| == |steps| + 1
  {
    Quiet(steps[i]) && Takes(e, states, steps, i)
  }

  ghost predicate IsPath(e: Setup, states: seq<World>, steps: seq<Step>) {
    && |states| == |steps| + 1
    && forall i {:trigger IsQuiet(e, states, steps, i)} :: 0 <= i < |steps| ==> IsQuiet(e, states, steps, i)
  }

  /** A quiet continuation of one state ends in the other. */
  ghost predicate Leads(e: Setup, s: World, t: World) {
    exists states, steps :: IsPath(e, states, steps) && states[0] == s && states[|steps|] == t
  }

  /** No two incarnations so far disagree. */
  ghost predicate Agreed(views: set<seq<Outcome>>) {
    forall a, b :: a in views && b in views ==> Comparable(a, b)
  }

  // ── The condition ─────────────────────────────────────────────────────────

  /** No failure was handed over, and none is about to be. */
  ghost predicate NoFailures(s: World) {
    !s.pc.Raised? && !s.pc.Failing? && forall a :: a in s.views && a != [] ==> !Last(a).Failure?
  }

  /** The process may yet commit another value for the call. */
  predicate Redoing(pc: Pc, late: (Id, Json)) {
    ((pc.Told? || pc.InBody?) && pc.id == late.0) || (pc.Ran? && pc.id == late.0 && pc.value != late.1)
  }

  /**
   A commit under way cannot change a result: its call is over with the same result, another call holds
   the signature, or it can only come first.
   */
  ghost predicate HarmlessAt(slot: Slot, flying: multiset<(Id, Json)>, pc: Pc, late: (Id, Json)) {
    match slot
    case Free => forall v :: (late.0, v) in flying ==> v == late.1
    case Busy(held) => held != late.0
    case Waiting(held, _) => held != late.0
    case Done(held, r) => held != late.0 || (r == Envelope(late.1) && !Redoing(pc, late))
  }

  ghost predicate Harmless(s: World, late: (Id, Json))
    requires Valid(s.journal)
  {
    late.0 in s.journal.rows ==> HarmlessAt(SlotOf(s.journal, s.journal.rows[late.0].sig), s.flying, s.pc, late)
  }

  ghost predicate AllHarmless(s: World)
    requires Valid(s.journal)
  {
    forall late :: late in s.flying ==> Harmless(s, late)
  }

  ghost predicate Stable(e: Setup, s: World)
    requires Valid(s.journal)
  {
    NoFailures(s) && Held(e, s) && AllHarmless(s)
  }

  // ── A stable state stays stable ───────────────────────────────────────────

  lemma StableAgrees(e: Setup, s: World)
    requires Inv(e, s) && Stable(e, s)
    ensures Agreed(s.views)
  {
    forall a, b | a in s.views && b in s.views
      ensures Comparable(a, b)
    {
      ViewsForkOnFailures(e, s, a, b);
      if k :| ForksOnFailure(a, b, k) {
        OutcomeAt(e, s, a, k);
        OutcomeAt(e, s, b, k);
      }
    }
  }

  lemma QuietKeepsNoFailures(e: Setup, s: World, step: Step)
    requires Inv(e, s) && NoFailures(s) && Enabled(e, s, step) && Quiet(step)
    ensures NoFailures(Next(e, s, step))
  {
    var t := Next(e, s, step);
    if step.Finish? {
      FinishStores(e, s);
    } else if step.Decide? || step.TakeReplay? || step.Resume? {
      forall a | a in t.views && a != []
        ensures !Last(a).Failure?
      {
        assert a in s.views || a == t.pc.seen;
      }
    }
  }

  lemma StableIsNotOverwritten(e: Setup, s: World, step: Step)
    requires Inv(e, s) && AllHarmless(s) && Enabled(e, s, step)
    ensures !Overwrites(s, step)
  {
    if step.Arrive? {
      assert FlyInv(e, s, step.late) && Harmless(s, step.late);
    }
  }

  /** Journal and flights stand still, and the process is not redoing more than before. */
  lemma MovingKeepsHarmless(s: World, t: World)
    requires Valid(s.journal) && AllHarmless(s) && t.journal == s.journal && t.flying == s.flying
    requires forall late :: Redoing(t.pc, late) ==> Redoing(s.pc, late)
    ensures AllHarmless(t)
  {
    forall late | late in t.flying
      ensures Harmless(t, late)
    {
      assert Harmless(s, late);
    }
  }

  /** The process redoes only the call that holds its signature. */
  lemma RedoingHolds(e: Setup, s: World, late: (Id, Json))
    requires Valid(s.journal) && PcInv(e, s) && Redoing(s.pc, late)
    ensures late.0 in s.journal.rows && !SlotOf(s.journal, s.journal.rows[late.0].sig).Free?
    ensures SlotOf(s.journal, s.journal.rows[late.0].sig).id == late.0 && s.journal.rows[late.0].sig == s.pc.sig
  {
    HolderHasSig(s.journal, s.pc.sig);
  }

  /** A late commit of one signature when the slot of another changes. */
  lemma OthersStayHarmless(s: World, t: World, sig: Sig, slot: Slot, late: (Id, Json))
    requires Changes(s.journal, t.journal, sig, slot) && Harmless(s, late) && late.0 in s.journal.rows
    requires forall x :: x in t.flying ==> x in s.flying
    requires s.journal.rows[late.0].sig != sig && (Redoing(t.pc, late) ==> Redoing(s.pc, late))
    ensures Harmless(t, late)
  {
    assert SlotOf(t.journal, s.journal.rows[late.0].sig) == SlotOf(s.journal, s.journal.rows[late.0].sig);
  }

  /** A late commit of the signature whose slot changes. */
  lemma OwnIsHarmless(s: World, t: World, sig: Sig, slot: Slot, late: (Id, Json))
    requires Changes(s.journal, t.journal, sig, slot) && late.0 in s.journal.rows && s.journal.rows[late.0].sig == sig
    requires HarmlessAt(slot, t.flying, t.pc, late)
    ensures Harmless(t, late)
  {
  }

  lemma SendKeepsHarmless(e: Setup, s: World, auto: bool, id: Id, aid: Id)
    requires Inv(e, s) && AllHarmless(s) && Enabled(e, s, Send(auto, id, aid))
    ensures Valid(Next(e, s, Send(auto, id, aid)).journal) && AllHarmless(Next(e, s, Send(auto, id, aid)))
  {
    CallsAreOurs(e, s.pc.seen);
    assert SlotInv(e, s.journal, s.returned, s.pc.sig);
    SendChanges(s.journal, s.pc.sig, auto, id, aid);
    var t := Next(e, s, Send(auto, id, aid));
    forall late | late in t.flying
      ensures Harmless(t, late)
    {
      assert Harmless(s, late) && FlyInv(e, s, late);
      SentKeepsHarmless(e, s, t, id, late);
    }
  }

  lemma SentKeepsHarmless(e: Setup, s: World, t: World, id: Id, late: (Id, Json))
    requires Valid(s.journal) && s.pc.Requesting? && Harmless(s, late) && late.0 in s.journal.rows
    requires id !in s.journal.rows && t.flying == s.flying
    requires var slot := SlotOf(s.journal, s.pc.sig);
             && !slot.Waiting? && Changes(s.journal, t.journal, s.pc.sig, AfterIntercept(slot, id))
             && t.pc == Answered(s.pc.seen, s.pc.sig, AnswerFor(slot, id))
    ensures Harmless(t, late)
  {
    var slot := SlotOf(s.journal, s.pc.sig);
    if s.journal.rows[late.0].sig == s.pc.sig {
      OwnIsHarmless(s, t, s.pc.sig, AfterIntercept(slot, id), late);
    } else {
      if !slot.Free? {
        HolderHasSig(s.journal, s.pc.sig);
      }
      OthersStayHarmless(s, t, s.pc.sig, AfterIntercept(slot, id), late);
    }
  }

  lemma FinishKeepsHarmless(e: Setup, s: World)
    requires Inv(e, s) && AllHarmless(s) && s.pc.Ran?
    ensures Valid(Finished(s).journal) && AllHarmless(Finished(s))
  {
    FinishStores(e, s);
    var t := Finished(s);
    forall late | late in t.flying
      ensures Harmless(t, late)
    {
      assert Harmless(s, late) && FlyInv(e, s, late);
      StoredKeepsHarmless(e, s, t, late);
    }
  }

  lemma StoredKeepsHarmless(e: Setup, s: World, t: World, late: (Id, Json))
    requires Valid(s.journal) && PcInv(e, s) && s.pc.Ran? && Harmless(s, late) && late.0 in s.journal.rows
    requires t.flying == s.flying && t.pc.Kept?
    requires Changes(s.journal, t.journal, s.pc.sig, Done(s.pc.id, Envelope(s.pc.value)))
    ensures Harmless(t, late)
  {
    if s.journal.rows[late.0].sig == s.pc.sig {
      OwnIsHarmless(s, t, s.pc.sig, Done(s.pc.id, Envelope(s.pc.value)), late);
    } else {
      OthersStayHarmless(s, t, s.pc.sig, Done(s.pc.id, Envelope(s.pc.value)), late);
    }
  }

  lemma ArriveKeepsHarmless(e: Setup, s: World, here: (Id, Json))
    requires Inv(e, s) && AllHarmless(s) && here in s.flying
    ensures Valid(Next(e, s, Step.Arrive(here)).journal) && AllHarmless(Next(e, s, Step.Arrive(here)))
  {
    assert FlyInv(e, s, here) && Harmless(s, here);
    CommitChanges(s.journal, here, s.journal.rows[here.0].sig);
    var t := Next(e, s, Step.Arrive(here));
    forall late | late in t.flying
      ensures Harmless(t, late)
    {
      assert late in s.flying;
      assert Harmless(s, late) && FlyInv(e, s, late);
      ArrivedKeepsHarmless(e, s, t, here, late);
    }
  }

  lemma ArrivedIsHarmless(slot: Slot, flying: multiset<(Id, Json)>, left: multiset<(Id, Json)>, pc: Pc, here: (Id, Json), late: (Id, Json))
    requires here in flying && late in flying && forall x :: x in left ==> x in flying
    requires HarmlessAt(slot, flying, pc, here) && HarmlessAt(slot, flying, pc, late)
    requires Redoing(pc, late) ==> !slot.Free?
    ensures HarmlessAt(AfterCommit(slot, here), left, pc, late)
  {
    if slot.Free? && late.0 == here.0 {
      assert (here.0, here.1) in flying && (late.0, late.1) in flying;
    }
  }

  lemma ArrivedKeepsHarmless(e: Setup, s: World, t: World, here: (Id, Json), late: (Id, Json))
    requires Valid(s.journal) && PcInv(e, s) && here in s.flying && here.0 in s.journal.rows && Harmless(s, here)
    requires late in s.flying && late.0 in s.journal.rows && Harmless(s, late)
    requires t.pc == s.pc && forall x :: x in t.flying ==> x in s.flying
    requires var sig := s.journal.rows[here.0].sig; Changes(s.journal, t.journal, sig, AfterCommit(SlotOf(s.journal, sig), here))
    ensures Harmless(t, late)
  {
    var sig := s.journal.rows[here.0].sig;
    var slot := SlotOf(s.journal, sig);
    if s.journal.rows[late.0].sig == sig {
      if Redoing(s.pc, late) {
        RedoingHolds(e, s, late);
      }
      ArrivedIsHarmless(slot, s.flying, t.flying, s.pc, here, late);
      OwnIsHarmless(s, t, sig, AfterCommit(slot, here), late);
    } else {
      OthersStayHarmless(s, t, sig, AfterCommit(slot, here), late);
    }
  }

  lemma OtherKeepsHarmless(e: Setup, s: World, r: Request)
    requires Inv(e, s) && AllHarmless(s) && Enabled(e, s, Other(r))
    ensures Valid(Next(e, s, Other(r)).journal) && AllHarmless(Next(e, s, Other(r)))
  {
    var t := Next(e, s, Other(r));
    OtherSparesOurs(e, s.journal, r);
    ServeKeepsRows(s.journal, r);
    forall late | late in t.flying
      ensures Harmless(t, late)
    {
      assert Harmless(s, late) && FlyInv(e, s, late);
      ReturnedAreOurs(e, s.returned, s.journal.rows[late.0].sig, late.1);
    }
  }

  lemma StayingKeepsHarmless(e: Setup, s: World, step: Step)
    requires Valid(s.journal) && NoFailures(s) && AllHarmless(s) && Enabled(e, s, step) && Quiet(step) && !IsServed(step)
    ensures Valid(Next(e, s, step).journal) && AllHarmless(Next(e, s, step))
  {
    var t := Next(e, s, step);
    assert t.journal == s.journal && t.flying == s.flying;
    if step.Enter? || step.Return? {
      assert forall late :: Redoing(t.pc, late) ==> Redoing(s.pc, late);
    }
    MovingKeepsHarmless(s, t);
  }

  lemma QuietKeepsHarmless(e: Setup, s: World, step: Step)
    requires Inv(e, s) && NoFailures(s) && AllHarmless(s) && Enabled(e, s, step) && Quiet(step)
    ensures Valid(Next(e, s, step).journal) && AllHarmless(Next(e, s, step))
  {
    if step.Send? {
      SendKeepsHarmless(e, s, step.auto, step.id, step.aid);
    } else if step.Finish? {
      FinishKeepsHarmless(e, s);
    } else if step.Arrive? {
      ArriveKeepsHarmless(e, s, step.late);
    } else if step.Other? {
      OtherKeepsHarmless(e, s, step.r);
    } else {
      StayingKeepsHarmless(e, s, step);
    }
  }

  lemma QuietKeepsStable(e: Setup, s: World, step: Step)
    requires Inv(e, s) && Stable(e, s) && Enabled(e, s, step) && Quiet(step)
    ensures Inv(e, Next(e, s, step)) && Stable(e, Next(e, s, step))
  {
    StableIsNotOverwritten(e, s, step);
    StepKeepsInv(e, s, step);
    StepKeepsHeld(e, s, step);
    QuietKeepsNoFailures(e, s, step);
    QuietKeepsHarmless(e, s, step);
  }

  lemma {:induction false} PathKeepsStable(e: Setup, states: seq<World>, steps: seq<Step>, n: nat)
    requires IsPath(e, states, steps) && n < |states| && Inv(e, states[0]) && Stable(e, states[0])
    ensures Inv(e, states[n]) && Stable(e, states[n])
  {
    if n > 0 {
      PathKeepsStable(e, states, steps, n - 1);
      assert IsQuiet(e, states, steps, n - 1);
      QuietKeepsStable(e, states[n - 1], steps[n - 1]);
    }
  }

  /** Whatever quietly follows a stable state, incarnations agree. */
  lemma StableMeansAgreement(e: Setup, s: World, t: World)
    requires Inv(e, s) && Stable(e, s) && Leads(e, s, t)
    ensures Agreed(t.views)
  {
    var states, steps :| IsPath(e, states, steps) && states[0] == s && states[|steps|] == t;
    PathKeepsStable(e, states, steps, |steps|);
    StableAgrees(e, t);
  }

  // ── Building continuations ────────────────────────────────────────────────

  lemma LeadsToSelf(e: Setup, s: World)
    ensures Leads(e, s, s)
  {
    var states: seq<World>, steps: seq<Step> := [s], [];
    assert IsPath(e, states, steps);
  }

  lemma PathExtends(e: Setup, states: seq<World>, steps: seq<Step>, step: Step)
    requires IsPath(e, states, steps) && Quiet(step) && Enabled(e, states[|steps|], step)
    ensures IsPath(e, states + [Next(e, states[|steps|], step)], steps + [step])
  {
    var states', steps' := states + [Next(e, states[|steps|], step)], steps + [step];
    forall i {:trigger IsQuiet(e, states', steps', i)} | 0 <= i < |steps'|
      ensures IsQuiet(e, states', steps', i)
    {
      assert states'[i] == states[i];
      if i < |steps| {
        assert IsQuiet(e, states, steps, i);
        assert states'[i + 1] == states[i + 1] && steps'[i] == steps[i];
      }
    }
  }

  /** The state is reached quietly from o, and keeps what o has seen. */
  ghost predicate Reached(e: Setup, o: World, s: World) {
    Leads(e, o, s) && Inv(e, s)
  }

  lemma Reach(e: Setup, o: World, s: World, step: Step)
    requires Reached(e, o, s) && Quiet(step) && Enabled(e, s, step)
    ensures Reached(e, o, Next(e, s, step)) && s.views <= Next(e, s, step).views
  {
    var states, steps :| IsPath(e, states, steps) && states[0] == o && states[|steps|] == s;
    PathExtends(e, states, steps, step);
    StepKeepsInv(e, s, step);
    ViewsGrowBy(e, s, step);
    var states' := states + [Next(e, s, step)];
    assert states'[0] == o && states'[|steps + [step]|] == Next(e, s, step);
  }

  /** All slots stand as they did. */
  ghost predicate SameSlots(j: Journal, t: Journal) {
    Valid(j) && Valid(t) && RowsKept(j, t) && forall sig :: SlotOf(t, sig) == SlotOf(j, sig)
  }

  /** Apart from the process and the counts, one state goes on where the other was. */
  ghost predicate GoesOn(s: World, t: World) {
    t.flying == s.flying && s.views <= t.views
  }

  /** The process is brought down and booted again. */
  lemma StartOver(e: Setup, o: World, s: World) returns (t: World)
    requires Reached(e, o, s)
    ensures Reached(e, o, t) && GoesOn(s, t) && t.journal == s.journal && t.pc == Thinking([])
  {
    t := s;
    if !s.pc.Down? {
      Reach(e, o, s, Crash);
      t := Next(e, s, Crash);
    }
    Reach(e, o, t, Boot);
    t := Next(e, t, Boot);
  }

  lemma {:induction false} FreshId(ids: set<Id>) returns (id: Id)
    ensures forall x :: x in ids ==> x < id
  {
    if ids == {} {
      id := 0;
    } else {
      var x :| x in ids;
      id := FreshId(ids - {x});
      if id <= x {
        id := x + 1;
      }
      assert forall y :: y in ids ==> y == x || y in ids - {x};
    }
  }

  /** The agent decides on its next call and asks for it. */
  lemma AskAgain(e: Setup, o: World, s: World, sig: Sig) returns (t: World, id: Id)
    requires Reached(e, o, s) && s.pc.Thinking? && SigAt(e, s.pc.seen) == Some(sig)
    ensures Reached(e, o, t) && GoesOn(s, t)
    ensures Changes(s.journal, t.journal, sig, AfterIntercept(SlotOf(s.journal, sig), id))
    ensures t.pc == Answered(s.pc.seen, sig, AnswerFor(SlotOf(s.journal, sig), id)) && !SlotOf(s.journal, sig).Waiting?
  {
    Reach(e, o, s, Decide);
    var u := Next(e, s, Decide);
    id := FreshId(u.journal.rows.Keys);
    var aid := FreshId(u.journal.approvals.Keys);
    assert Enabled(e, u, Send(false, id, aid));
    Reach(e, o, u, Send(false, id, aid));
    CallsAreOurs(e, s.pc.seen);
    assert SlotInv(e, s.journal, s.returned, sig);
    SendChanges(s.journal, sig, false, id, aid);
    t := Next(e, u, Send(false, id, aid));
  }

  /** A call that is done is replayed, and nothing in the journal's slots moves. */
  lemma GetReplay(e: Setup, o: World, s: World, sig: Sig) returns (t: World)
    requires Reached(e, o, s) && s.pc.Thinking? && SigAt(e, s.pc.seen) == Some(sig) && SlotOf(s.journal, sig).Done?
    ensures Reached(e, o, t) && GoesOn(s, t) && SameSlots(s.journal, t.journal)
    ensures t.pc == Thinking(s.pc.seen + [Value(Unwrap(Some(SlotOf(s.journal, sig).result)))]) && t.pc.seen in t.views
  {
    var u, _ := AskAgain(e, o, s, sig);
    Reach(e, o, u, TakeReplay);
    t := Next(e, u, TakeReplay);
  }

  lemma ChangesTwice(j: Journal, u: Journal, t: Journal, sig: Sig, first: Slot, second: Slot)
    requires Changes(j, u, sig, first) && Changes(u, t, sig, second)
    ensures Changes(j, t, sig, second)
  {
    forall other | other != sig
      ensures SlotOf(t, other) == SlotOf(j, other)
    {
      assert SlotOf(u, other) == SlotOf(j, other);
    }
  }

  /** A call that is not done is executed, and may return anything. */
  lemma RunBody(e: Setup, o: World, s: World, sig: Sig, w: Json) returns (t: World, id: Id)
    requires Reached(e, o, s) && s.pc.Thinking? && SigAt(e, s.pc.seen) == Some(sig) && !SlotOf(s.journal, sig).Done?
    ensures Reached(e, o, t) && GoesOn(s, t) && Changes(s.journal, t.journal, sig, Done(id, Envelope(w)))
    ensures SlotOf(s.journal, sig).Busy? ==> id == SlotOf(s.journal, sig).id
    ensures t.pc == Thinking(s.pc.seen + [Value(w)]) && t.pc.seen in t.views
  {
    var u;
    u, id := AskAgain(e, o, s, sig);
    var slot := AfterIntercept(SlotOf(s.journal, sig), id);
    id := u.pc.id;
    Reach(e, o, u, Enter);
    t := Next(e, u, Enter);
    t := GoHome(e, o, t, w);
    ChangesTwice(s.journal, u.journal, t.journal, sig, slot, Done(id, Envelope(w)));
  }

  /** A body that is running returns w, and the agent gets it. */
  lemma GoHome(e: Setup, o: World, s: World, w: Json) returns (t: World)
    requires Reached(e, o, s) && s.pc.InBody?
    ensures Reached(e, o, t) && GoesOn(s, t) && Changes(s.journal, t.journal, s.pc.sig, Done(s.pc.id, Envelope(w)))
    ensures t.pc == Thinking(s.pc.seen + [Value(w)]) && t.pc.seen in t.views
  {
    Reach(e, o, s, Return(w));
    t := CommitIt(e, o, Next(e, s, Return(w)));
  }

  lemma CommitIt(e: Setup, o: World, s: World) returns (t: World)
    requires Reached(e, o, s) && s.pc.Ran?
    ensures Reached(e, o, t) && GoesOn(s, t) && Changes(s.journal, t.journal, s.pc.sig, Done(s.pc.id, Envelope(s.pc.value)))
    ensures t.pc == Thinking(s.pc.seen + [Value(s.pc.value)]) && t.pc.seen in t.views
  {
    Reach(e, o, s, Finish);
    FinishStores(e, s);
    var u := Finished(s);
    Reach(e, o, u, Resume);
    t := Next(e, u, Resume);
  }

  // ── Walking back along a view ─────────────────────────────────────────────

  /** A restart would be handed the last outcome of the view again. */
  ghost predicate Confirmed(e: Setup, j: Journal, a: seq<Outcome>)
    requires Valid(j)
  {
    a != [] ==> !Last(a).Failure? && ViewHeld(e, j, a)
  }

  ghost predicate ConfirmedTo(e: Setup, j: Journal, a: seq<Outcome>, n: nat)
    requires Valid(j)
  {
    forall k :: 0 <= k <= n <= |a| ==> Confirmed(e, j, a[..k])
  }

  lemma GetRefused(e: Setup, o: World, s: World) returns (t: World)
    requires Reached(e, o, s) && s.pc.Thinking? && e.agent(s.pc.seen).Some? && SigAt(e, s.pc.seen).None?
    ensures Reached(e, o, t) && GoesOn(s, t) && SameSlots(s.journal, t.journal) && t.pc == Thinking(s.pc.seen + [Outcome.Refused])
  {
    Reach(e, o, s, Decide);
    t := Next(e, s, Decide);
  }

  /** A call made now would be handed the outcome. */
  ghost predicate WouldHand(e: Setup, j: Journal, seen: seq<Outcome>, x: Outcome)
    requires Valid(j)
  {
    && e.agent(seen).Some? && (SigAt(e, seen).None? ==> x == Outcome.Refused)
    && (SigAt(e, seen).Some? ==> var slot := SlotOf(j, SigAt(e, seen).value); slot.Done? && x == Value(Unwrap(Some(slot.result))))
  }

  lemma ConfirmedWouldHand(e: Setup, s: World, a: seq<Outcome>)
    requires Valid(s.journal) && ViewInv(e, s, a) && a != [] && Confirmed(e, s.journal, a)
    ensures WouldHand(e, s.journal, Front(a), Last(a))
  {
    if Last(a).Value? {
      EnvelopeRoundTrip(Last(a).v);
    }
  }

  lemma ReplayNext(e: Setup, o: World, s: World, x: Outcome) returns (t: World)
    requires Reached(e, o, s) && s.pc.Thinking? && WouldHand(e, s.journal, s.pc.seen, x)
    ensures Reached(e, o, t) && GoesOn(s, t) && SameSlots(s.journal, t.journal) && t.pc == Thinking(s.pc.seen + [x])
  {
    if SigAt(e, s.pc.seen).None? {
      t := GetRefused(e, o, s);
    } else {
      t := GetReplay(e, o, s, SigAt(e, s.pc.seen).value);
    }
  }

  lemma ConfirmedStays(e: Setup, j: Journal, t: Journal, a: seq<Outcome>, n: nat)
    requires SameSlots(j, t) && ConfirmedTo(e, j, a, n) && n <= |a|
    ensures Confirmed(e, t, a[..n])
  {
    assert Confirmed(e, j, a[..n]);
  }

  lemma SameSlotsTwice(j: Journal, u: Journal, t: Journal)
    requires SameSlots(j, u) && SameSlots(u, t)
    ensures SameSlots(j, t)
  {
    forall sig
      ensures SlotOf(t, sig) == SlotOf(j, sig)
    {
      assert SlotOf(u, sig) == SlotOf(j, sig);
    }
  }

  lemma ReplayOneMore(e: Setup, o: World, s: World, a: seq<Outcome>, n: nat) returns (t: World)
    requires Reached(e, o, s) && a in s.views && n < |a| && s.pc == Thinking(a[..n]) && Confirmed(e, s.journal, a[..n + 1])
    ensures Reached(e, o, t) && GoesOn(s, t) && SameSlots(s.journal, t.journal) && t.pc == Thinking(a[..n + 1])
  {
    NextWouldHand(e, s, a, n);
    t := ReplayNext(e, o, s, a[n]);
  }

  lemma NextWouldHand(e: Setup, s: World, a: seq<Outcome>, n: nat)
    requires Valid(s.journal) && ViewsInv(e, s) && a in s.views && n < |a| && Confirmed(e, s.journal, a[..n + 1])
    ensures WouldHand(e, s.journal, a[..n], a[n]) && a[..n + 1] == a[..n] + [a[n]]
  {
    var b := a[..n + 1];
    OutcomeAt(e, s, a, n);
    ConfirmedWouldHand(e, s, b);
    assert Front(b) == a[..n] && Last(b) == a[n];
  }

  /** A restarted process is led along a confirmed view by replays alone. */
  lemma {:induction false} ReplayTo(e: Setup, o: World, s: World, a: seq<Outcome>, n: nat) returns (t: World)
    requires Reached(e, o, s) && a in s.views && n <= |a| && ConfirmedTo(e, s.journal, a, n) && s.pc == Thinking([])
    ensures Reached(e, o, t) && GoesOn(s, t) && SameSlots(s.journal, t.journal) && t.pc == Thinking(a[..n])
  {
    if n == 0 {
      t := s;
      assert a[..0] == [];
    } else {
      assert ConfirmedTo(e, s.journal, a, n - 1);
      var u := ReplayTo(e, o, s, a, n - 1);
      ConfirmedStays(e, s.journal, u.journal, a, n);
      t := ReplayOneMore(e, o, u, a, n - 1);
      SameSlotsTwice(s.journal, u.journal, t.journal);
    }
  }

  // ── An unstable state can come to a disagreement ──────────────────────────

  ghost predicate Diverges(e: Setup, o: World) {
    exists t :: Leads(e, o, t) && !Agreed(t.views)
  }

  lemma DifferentViewsDiverge(e: Setup, o: World, t: World, p: seq<Outcome>, x: Outcome, y: Outcome)
    requires Leads(e, o, t) && p + [x] in t.views && p + [y] in t.views && x != y
    ensures Diverges(e, o)
  {
    var a, b := p + [x], p + [y];
    assert a[|p|] == x && b[|p|] == y;
    assert !Comparable(a, b);
  }

  lemma FirstUnconfirmed(e: Setup, j: Journal, a: seq<Outcome>) returns (n: nat)
    requires Valid(j) && !Confirmed(e, j, a)
    ensures n < |a| && ConfirmedTo(e, j, a, n) && !Confirmed(e, j, a[..n + 1])
  {
    n := 0;
    assert a[..|a|] == a;
    while Confirmed(e, j, a[..n + 1])
      invariant n < |a| && ConfirmedTo(e, j, a, n)
      decreases |a| - n
    {
      n := n + 1;
    }
  }

  /** The next call, made again, comes out otherwise. */
  lemma ComesOutOtherwise(e: Setup, o: World, s: World, sig: Sig, x: Outcome)
    requires Reached(e, o, s) && s.pc.Thinking? && SigAt(e, s.pc.seen) == Some(sig) && s.pc.seen + [x] in s.views
    requires x.Failure? || (x.Value? && !Stores(s.journal, sig, Envelope(x.v)))
    ensures Diverges(e, o)
  {
    if SlotOf(s.journal, sig).Done? {
      CallsAreOurs(e, s.pc.seen);
      assert SlotInv(e, s.journal, s.returned, sig);
      var t := GetReplay(e, o, s, sig);
      DifferentViewsDiverge(e, o, t, s.pc.seen, x, Value(Unwrap(Some(SlotOf(s.journal, sig).result))));
    } else {
      var w := if x == Value(CanonicalJson.Null) then CanonicalJson.Bool(true) else CanonicalJson.Null;
      var t, _ := RunBody(e, o, s, sig, w);
      DifferentViewsDiverge(e, o, t, s.pc.seen, x, Value(w));
    }
  }

  /** An outcome that a restart would not be handed again leads to a disagreement. */
  lemma UnconfirmedDiverges(e: Setup, o: World, s: World, a: seq<Outcome>)
    requires Reached(e, o, s) && a in s.views && !Confirmed(e, s.journal, a)
    ensures Diverges(e, o)
  {
    var n := FirstUnconfirmed(e, s.journal, a);
    var u := StartOver(e, o, s);
    var t := ReplayTo(e, o, u, a, n);
    OutcomeAt(e, s, a, n);
    assert a[..n] + [a[n]] == a[..n + 1];
    var sig := SigAt(e, a[..n]).value;
    assert SlotOf(t.journal, sig) == SlotOf(s.journal, sig);
    ComesOutOtherwise(e, o, t, sig, a[n]);
  }

  lemma HandedUnconfirmed(e: Setup, o: World, s: World, x: Outcome)
    requires Inv(e, s) && !s.pc.Down? && Reached(e, o, Handed(s, x)) && SigAt(e, s.pc.seen).Some?
    requires x.Failure? || (x.Value? && !Stores(s.journal, SigAt(e, s.pc.seen).value, Envelope(x.v)))
    ensures Diverges(e, o)
  {
    var a := s.pc.seen + [x];
    assert Front(a) == s.pc.seen && Last(a) == x;
    UnconfirmedDiverges(e, o, Handed(s, x), a);
  }

  lemma FailingDiverges(e: Setup, o: World, s: World)
    requires Reached(e, o, s) && s.pc.Failing?
    ensures Diverges(e, o)
  {
    Reach(e, o, s, HandFailure);
    HandedUnconfirmed(e, o, s, Failure(s.pc.error));
  }

  lemma RaisedDiverges(e: Setup, o: World, s: World)
    requires Reached(e, o, s) && s.pc.Raised?
    ensures Diverges(e, o)
  {
    Reach(e, o, s, Report);
    FailingDiverges(e, o, Next(e, s, Report));
  }

  lemma PendingDiverges(e: Setup, o: World, s: World)
    requires Reached(e, o, s) && !PendingHeld(s.journal, s.pc)
    ensures Diverges(e, o)
  {
    if s.pc.Replaying? {
      Reach(e, o, s, TakeReplay);
      HandedUnconfirmed(e, o, s, Value(Unwrap(s.pc.result)));
    } else {
      Reach(e, o, s, Resume);
      HandedUnconfirmed(e, o, s, Value(s.pc.value));
    }
  }

  // ── Commits under way ─────────────────────────────────────────────────────

  /** A commit under way meets its own call, done with a value that was given out. */
  lemma LateCommitDiverges(e: Setup, o: World, s: World, late: (Id, Json), sig: Sig, p: seq<Outcome>, w: Json)
    requires Reached(e, o, s) && late in s.flying && late.0 in s.journal.rows && s.journal.rows[late.0].sig == sig
    requires SlotOf(s.journal, sig).Done? && SlotOf(s.journal, sig).id == late.0
    requires p + [Value(w)] in s.views && SigAt(e, p) == Some(sig) && w != late.1
    ensures Diverges(e, o)
  {
    Reach(e, o, s, Step.Arrive(late));
    CommitChanges(s.journal, late, sig);
    var t := Next(e, s, Step.Arrive(late));
    var a := p + [Value(w)];
    assert Front(a) == p && Last(a) == Value(w);
    EnvelopeRoundTrip(w);
    EnvelopeRoundTrip(late.1);
    assert !ViewHeld(e, t.journal, a);
    UnconfirmedDiverges(e, o, t, a);
  }

  ghost predicate AllConfirmed(e: Setup, s: World)
    requires Valid(s.journal)
  {
    forall a :: a in s.views ==> Confirmed(e, s.journal, a)
  }

  /** The process comes back to where a call of the signature was made. */
  lemma ComeBack(e: Setup, o: World, s: World, sig: Sig, v: Json) returns (t: World)
    requires Reached(e, o, s) && AllConfirmed(e, s) && BodyReturned(e, s.returned, sig, v)
    ensures Reached(e, o, t) && GoesOn(s, t) && SameSlots(s.journal, t.journal) && t.pc.Thinking? && SigAt(e, t.pc.seen) == Some(sig)
  {
    var p :| (p, v) in s.returned && SigAt(e, p) == Some(sig);
    var u := StartOver(e, o, s);
    forall k | 0 <= k <= |p|
      ensures Confirmed(e, u.journal, p[..k])
    {
      PrefixIsView(e, s, p, k);
    }
    t := ReplayTo(e, o, u, p, |p|);
    assert p[..|p|] == p;
  }

  lemma LateOnDone(e: Setup, o: World, s: World, late: (Id, Json), sig: Sig)
    requires Reached(e, o, s) && AllConfirmed(e, s) && late in s.flying && s.journal.rows[late.0].sig == sig
    requires SlotOf(s.journal, sig).Done? && SlotOf(s.journal, sig).id == late.0 && SlotOf(s.journal, sig).result != Envelope(late.1)
    ensures Diverges(e, o)
  {
    assert FlyInv(e, s, late);
    var u := ComeBack(e, o, s, sig, late.1);
    CallsAreOurs(e, u.pc.seen);
    assert SlotOf(u.journal, sig) == SlotOf(s.journal, sig);
    assert SlotInv(e, s.journal, s.returned, sig);
    var t := GetReplay(e, o, u, sig);
    assert SlotOf(t.journal, sig) == SlotOf(u.journal, sig);
    LateCommitDiverges(e, o, t, late, sig, u.pc.seen, Unwrap(Some(SlotOf(s.journal, sig).result)));
  }

  function OtherThan(v: Json): (w: Json)
    ensures w != v
  {
    if v == CanonicalJson.Null then CanonicalJson.Bool(true) else CanonicalJson.Null
  }

  lemma LateOnBusy(e: Setup, o: World, s: World, late: (Id, Json), sig: Sig)
    requires Reached(e, o, s) && AllConfirmed(e, s) && late in s.flying && s.journal.rows[late.0].sig == sig
    requires SlotOf(s.journal, sig) == Busy(late.0)
    ensures Diverges(e, o)
  {
    assert FlyInv(e, s, late);
    var u := ComeBack(e, o, s, sig, late.1);
    assert SlotOf(u.journal, sig) == SlotOf(s.journal, sig);
    var t, _ := RunBody(e, o, u, sig, OtherThan(late.1));
    LateCommitDiverges(e, o, t, late, sig, u.pc.seen, OtherThan(late.1));
  }

  lemma LateOnFree(e: Setup, o: World, s: World, late: (Id, Json), v: Json, sig: Sig)
    requires Reached(e, o, s) && AllConfirmed(e, s) && late in s.flying && s.journal.rows[late.0].sig == sig
    requires SlotOf(s.journal, sig).Free? && (late.0, v) in s.flying && v != late.1
    ensures Diverges(e, o)
  {
    assert FlyInv(e, s, late);
    Reach(e, o, s, Step.Arrive(late));
    CommitChanges(s.journal, late, sig);
    var u := Next(e, s, Step.Arrive(late));
    BusyHasNoValue(e, s, sig);
    assert AllConfirmed(e, u) by {
      forall a | a in u.views
        ensures Confirmed(e, u.journal, a)
      {
        assert Confirmed(e, s.journal, a);
      }
    }
    EnvelopeRoundTrip(late.1);
    EnvelopeRoundTrip(v);
    assert (late.0, v) in u.flying;
    LateOnDone(e, o, u, (late.0, v), sig);
  }

  lemma LateOnRedone(e: Setup, o: World, s: World, late: (Id, Json))
    requires Reached(e, o, s) && late in s.flying && Redoing(s.pc, late)
    ensures Diverges(e, o)
  {
    RedoingHolds(e, s, late);
    var u := s;
    if s.pc.Told? {
      Reach(e, o, s, Enter);
      u := Next(e, s, Enter);
    }
    var w := if s.pc.Ran? then s.pc.value else OtherThan(late.1);
    var t;
    if u.pc.InBody? {
      t := GoHome(e, o, u, w);
    } else {
      t := CommitIt(e, o, u);
    }
    LateCommitDiverges(e, o, t, late, s.pc.sig, s.pc.seen, w);
  }

  lemma HarmfulDiverges(e: Setup, o: World, s: World, late: (Id, Json))
    requires Reached(e, o, s) && AllConfirmed(e, s) && late in s.flying && !Harmless(s, late)
    ensures Diverges(e, o)
  {
    assert FlyInv(e, s, late);
    var sig := s.journal.rows[late.0].sig;
    ReturnedAreOurs(e, s.returned, sig, late.1);
    assert SlotInv(e, s.journal, s.returned, sig);
    match SlotOf(s.journal, sig)
    case Free =>
      var v :| (late.0, v) in s.flying && v != late.1;
      LateOnFree(e, o, s, late, v, sig);
    case Busy(_) => LateOnBusy(e, o, s, late, sig);
    case Done(_, r) =>
      if r != Envelope(late.1) {
        LateOnDone(e, o, s, late, sig);
      } else {
        LateOnRedone(e, o, s, late);
      }
  }

  lemma UnstableDiverges(e: Setup, s: World)
    requires Inv(e, s) && !Stable(e, s)
    ensures Diverges(e, s)
  {
    LeadsToSelf(e, s);
    if s.pc.Raised? {
      RaisedDiverges(e, s, s);
    } else if s.pc.Failing? {
      FailingDiverges(e, s, s);
    } else if a :| a in s.views && !Confirmed(e, s.journal, a) {
      UnconfirmedDiverges(e, s, s, a);
    } else if !PendingHeld(s.journal, s.pc) {
      PendingDiverges(e, s, s);
    } else {
      assert NoFailures(s) && Held(e, s) by {
        forall a | a in s.views
          ensures Confirmed(e, s.journal, a)
        {
        }
      }
      var late :| late in s.flying && !Harmless(s, late);
      HarmfulDiverges(e, s, s, late);
    }
  }

  /** From any reachable state: every quiet continuation keeps all incarnations agreed exactly if the state is stable. */
  lemma StableIff(e: Setup, states: seq<World>, steps: seq<Step>, n: nat)
    requires AgentReplay.IsRun(e, states, steps) && n < |states|
    ensures Valid(states[n].journal)
    ensures Stable(e, states[n]) <==> forall t :: Leads(e, states[n], t) ==> Agreed(t.views)
  {
    var s := states[n];
    RunKeepsInv(e, states, steps, n);
    if Stable(e, s) {
      forall t | Leads(e, s, t)
        ensures Agreed(t.views)
      {
        StableMeansAgreement(e, s, t);
      }
    } else {
      UnstableDiverges(e, s);
    }
  }

  /** With no commit under way and none having overwritten a result, it is failures alone that decide. */
  lemma FailuresDecide(e: Setup, states: seq<World>, steps: seq<Step>, n: nat)
    requires AgentReplay.IsRun(e, states, steps) && n < |states| && NothingOverwritten(states, steps) && states[n].flying == multiset{}
    ensures NoFailures(states[n]) <==> forall t :: Leads(e, states[n], t) ==> Agreed(t.views)
  {
    ValuesStayHeld(e, states, steps, n);
    StableIff(e, states, steps, n);
  }
}
