/**
 The same question with crashes of every kind let in, also one that leaves a commit under way. Such a
 crash needs no tool to fail: the restarted process runs the body again, and the late commit then puts
 the first value over the second. Incarnations are safe from it exactly once the journal answers every
 call the agent still makes.
 */
module AgentCrashes {
  import opened Types
  import opened DevJournal
  import opened JournalMachine
  import opened AgentReplay
  import opened AgentAgreement
  import CanonicalJson

  type Step = AgentReplay.Step

  /** No body raises and no connection breaks; crashes, with a commit under way or not, go on. */
  predicate Calm(step: Step) {
    !step.Raise? && !step.Break? && !step.BreakSending?
  }

  ghost predicate IsCalm(e: Setup, states: seq<World>, steps: seq<Step>, i: nat)
    requires i < |steps| && |states| == |steps| + 1
  {
    Calm(steps[i]) && Takes(e, states, steps, i)
  }

  ghost predicate IsCalmPath(e: Setup, states: seq<World>, steps: seq<Step>) {
    && |states| == |steps| + 1
    && forall i {:trigger IsCalm(e, states, steps, i)} :: 0 <= i < |steps| ==> IsCalm(e, states, steps, i)
  }

  /** A continuation without new failures leads from one state to the other. */
  ghost predicate CalmLeads(e: Setup, s: World, t: World) {
    exists states, steps :: IsCalmPath(e, states, steps) && states[0] == s && states[|steps|] == t
  }

  // ── Paths ─────────────────────────────────────────────────────────────────

  lemma QuietIsCalm(e: Setup, s: World, t: World)
    requires Leads(e, s, t)
    ensures CalmLeads(e, s, t)
  {
    var states, steps :| IsPath(e, states, steps) && states[0] == s && states[|steps|] == t;
    forall i {:trigger IsCalm(e, states, steps, i)} | 0 <= i < |steps|
      ensures IsCalm(e, states, steps, i)
    {
      assert IsQuiet(e, states, steps, i);
    }
    assert IsCalmPath(e, states, steps);
  }

  lemma OneCalmStep(e: Setup, s: World, step: Step)
    requires Enabled(e, s, step) && Calm(step)
    ensures CalmLeads(e, s, Next(e, s, step))
  {
    var states, steps := [s, Next(e, s, step)], [step];
    forall i {:trigger IsCalm(e, states, steps, i)} | 0 <= i < |steps|
      ensures IsCalm(e, states, steps, i)
    {
    }
    assert IsCalmPath(e, states, steps);
  }

  lemma PathsJoin(e: Setup, xs: seq<World>, ps: seq<Step>, ys: seq<World>, qs: seq<Step>)
    requires IsCalmPath(e, xs, ps) && IsCalmPath(e, ys, qs) && xs[|ps|] == ys[0]
    ensures IsCalmPath(e, xs + ys[1..], ps + qs) && (xs + ys[1..])[0] == xs[0] && (xs + ys[1..])[|ps + qs|] == ys[|qs|]
  {
    var states, steps := xs + ys[1..], ps + qs;
    forall i {:trigger IsCalm(e, states, steps, i)} | 0 <= i < |steps|
      ensures IsCalm(e, states, steps, i)
    {
      if i < |ps| {
        assert IsCalm(e, xs, ps, i);
        assert states[i] == xs[i] && states[i + 1] == xs[i + 1] && steps[i] == ps[i];
      } else {
        var j := i - |ps|;
        assert IsCalm(e, ys, qs, j);
        assert states[i] == ys[j] && states[i + 1] == ys[j + 1] && steps[i] == qs[j];
      }
    }
  }

  lemma LeadsOn(e: Setup, o: World, s: World, t: World)
    requires CalmLeads(e, o, s) && CalmLeads(e, s, t)
    ensures CalmLeads(e, o, t)
  {
    var xs, ps :| IsCalmPath(e, xs, ps) && xs[0] == o && xs[|ps|] == s;
    var ys, qs :| IsCalmPath(e, ys, qs) && ys[0] == s && ys[|qs|] == t;
    PathsJoin(e, xs, ps, ys, qs);
  }

  // ── The condition ─────────────────────────────────────────────────────────

  ghost predicate LedAt(e: Setup, j: Journal, seen: seq<Outcome>, k: nat)
    requires Valid(j) && k < |seen|
  {
    WouldHand(e, j, seen[..k], seen[k])
  }

  /** A restarted agent is led to these outcomes by the journal alone. */
  ghost predicate Led(e: Setup, j: Journal, seen: seq<Outcome>)
    requires Valid(j)
  {
    forall k {:trigger LedAt(e, j, seen, k)} :: 0 <= k < |seen| ==> LedAt(e, j, seen, k)
  }

  /** The journal answers every call the agent makes on its way. */
  ghost predicate AnswersAll(e: Setup, j: Journal)
    requires Valid(j)
  {
    forall seen :: Led(e, j, seen) && SigAt(e, seen).Some? ==> SlotOf(j, SigAt(e, seen).value).Done?
  }

  /** No body is running or about to run, and one that has returned found its value stored already. */
  ghost predicate NothingRuns(s: World)
    requires Valid(s.journal)
  {
    !s.pc.Told? && !s.pc.InBody? && (s.pc.Ran? ==> Stores(s.journal, s.pc.sig, Envelope(s.pc.value)))
  }

  ghost predicate Settled(e: Setup, s: World)
    requires Valid(s.journal)
  {
    Stable(e, s) && AnswersAll(e, s.journal) && NothingRuns(s)
  }

  // ── A settled state stays settled ─────────────────────────────────────────

  lemma ViewIsLed(e: Setup, s: World, a: seq<Outcome>)
    requires Inv(e, s) && Stable(e, s) && a in s.views
    ensures Led(e, s.journal, a)
  {
    forall k {:trigger LedAt(e, s.journal, a, k)} | 0 <= k < |a|
      ensures LedAt(e, s.journal, a, k)
    {
      OutcomeAt(e, s, a, k);
      NextWouldHand(e, s, a, k);
    }
  }

  /** Results of the session's calls stay as they are. */
  ghost predicate ResultsStay(e: Setup, j: Journal, t: Journal)
    requires Valid(j) && Valid(t)
  {
    forall sig {:trigger Ours(e, sig)} :: Ours(e, sig) && SlotOf(j, sig).Done? ==> SlotOf(t, sig) == SlotOf(j, sig)
  }

  lemma ChangeKeepsResults(e: Setup, j: Journal, t: Journal, sig: Sig, slot: Slot)
    requires Changes(j, t, sig, slot) && (SlotOf(j, sig).Done? ==> slot == SlotOf(j, sig))
    ensures ResultsStay(e, j, t)
  {
    forall other {:trigger Ours(e, other)} | Ours(e, other) && SlotOf(j, other).Done?
      ensures SlotOf(t, other) == SlotOf(j, other)
    {
      if other != sig {
        assert SlotOf(t, other) == SlotOf(j, other);
      }
    }
  }

  lemma SendKeepsResults(e: Setup, s: World, auto: bool, id: Id, aid: Id)
    requires Inv(e, s) && Enabled(e, s, Send(auto, id, aid))
    ensures var t := Next(e, s, Send(auto, id, aid)); Valid(t.journal) && ResultsStay(e, s.journal, t.journal)
    ensures SlotOf(s.journal, s.pc.sig).Done? ==> Next(e, s, Send(auto, id, aid)).pc.Replaying?
  {
    CallsAreOurs(e, s.pc.seen);
    assert SlotInv(e, s.journal, s.returned, s.pc.sig);
    SendChanges(s.journal, s.pc.sig, auto, id, aid);
    ChangeKeepsResults(e, s.journal, Next(e, s, Send(auto, id, aid)).journal, s.pc.sig, AfterIntercept(SlotOf(s.journal, s.pc.sig), id));
  }

  lemma FinishKeepsResults(e: Setup, s: World)
    requires Inv(e, s) && s.pc.Ran? && Stores(s.journal, s.pc.sig, Envelope(s.pc.value))
    ensures Valid(Finished(s).journal) && ResultsStay(e, s.journal, Finished(s).journal) && Finished(s).pc.Kept?
  {
    FinishStores(e, s);
    ChangeKeepsResults(e, s.journal, Finished(s).journal, s.pc.sig, Done(s.pc.id, Envelope(s.pc.value)));
  }

  lemma ArriveKeepsResults(e: Setup, s: World, late: (Id, Json))
    requires Inv(e, s) && AllHarmless(s) && late in s.flying
    ensures var t := Next(e, s, Step.Arrive(late)); Valid(t.journal) && ResultsStay(e, s.journal, t.journal)
  {
    assert FlyInv(e, s, late) && Harmless(s, late);
    var sig := s.journal.rows[late.0].sig;
    CommitChanges(s.journal, late, sig);
    ChangeKeepsResults(e, s.journal, Next(e, s, Step.Arrive(late)).journal, sig, AfterCommit(SlotOf(s.journal, sig), late));
  }

  /** No step of a settled state touches a result. */
  lemma SettledKeepsResults(e: Setup, s: World, step: Step)
    requires Inv(e, s) && Stable(e, s) && NothingRuns(s) && Enabled(e, s, step) && Calm(step)
    ensures Valid(Next(e, s, step).journal) && ResultsStay(e, s.journal, Next(e, s, step).journal)
  {
    if step.Send? {
      SendKeepsResults(e, s, step.auto, step.id, step.aid);
    } else if step.Finish? {
      FinishKeepsResults(e, s);
    } else if step.Arrive? {
      ArriveKeepsResults(e, s, step.late);
    } else if step.Other? {
      OtherSparesOurs(e, s.journal, step.r);
    } else {
      assert !step.Report?;
      StaysPut(e, s, step);
    }
  }

  lemma StaysPut(e: Setup, s: World, step: Step)
    requires Enabled(e, s, step) && !IsServed(step)
    ensures Next(e, s, step).journal == s.journal
  {
  }

  lemma HandsTheSame(e: Setup, j: Journal, t: Journal, seen: seq<Outcome>, x: Outcome)
    requires Valid(j) && Valid(t) && ResultsStay(e, j, t) && AnswersAll(e, j) && Led(e, j, seen) && WouldHand(e, t, seen, x)
    ensures WouldHand(e, j, seen, x)
  {
    if SigAt(e, seen).Some? {
      CallsAreOurs(e, seen);
    }
  }

  lemma {:induction false} LedBefore(e: Setup, j: Journal, t: Journal, seen: seq<Outcome>)
    requires Valid(j) && Valid(t) && ResultsStay(e, j, t) && AnswersAll(e, j) && Led(e, t, seen)
    ensures Led(e, j, seen)
    decreases |seen|
  {
    if seen != [] {
      var n := |seen| - 1;
      LedPrefix(e, t, seen);
      LedBefore(e, j, t, seen[..n]);
      assert LedAt(e, t, seen, n);
      HandsTheSame(e, j, t, seen[..n], seen[n]);
      LedLonger(e, j, seen);
    }
  }

  lemma LedPrefix(e: Setup, j: Journal, seen: seq<Outcome>)
    requires Valid(j) && Led(e, j, seen) && seen != []
    ensures Led(e, j, seen[..|seen| - 1])
  {
    var p := seen[..|seen| - 1];
    forall k {:trigger LedAt(e, j, p, k)} | 0 <= k < |p|
      ensures LedAt(e, j, p, k)
    {
      assert LedAt(e, j, seen, k);
      assert p[..k] == seen[..k] && p[k] == seen[k];
    }
  }

  lemma LedLonger(e: Setup, j: Journal, seen: seq<Outcome>)
    requires Valid(j) && seen != [] && Led(e, j, seen[..|seen| - 1]) && WouldHand(e, j, seen[..|seen| - 1], seen[|seen| - 1])
    ensures Led(e, j, seen)
  {
    var p := seen[..|seen| - 1];
    forall k {:trigger LedAt(e, j, seen, k)} | 0 <= k < |seen|
      ensures LedAt(e, j, seen, k)
    {
      if k < |p| {
        assert LedAt(e, j, p, k);
        assert p[..k] == seen[..k] && p[k] == seen[k];
      }
    }
  }

  lemma AnswersStay(e: Setup, j: Journal, t: Journal)
    requires Valid(j) && Valid(t) && ResultsStay(e, j, t) && AnswersAll(e, j)
    ensures AnswersAll(e, t)
  {
    forall seen | Led(e, t, seen) && SigAt(e, seen).Some?
      ensures SlotOf(t, SigAt(e, seen).value).Done?
    {
      LedBefore(e, j, t, seen);
      CallsAreOurs(e, seen);
    }
  }

  /** The open call of a settled state is done. */
  lemma OpenCallIsDone(e: Setup, s: World)
    requires Inv(e, s) && Settled(e, s) && s.pc.Requesting?
    ensures SlotOf(s.journal, s.pc.sig).Done?
  {
    ViewIsLed(e, s, s.pc.seen);
  }

  lemma NothingStarts(e: Setup, s: World, step: Step)
    requires Inv(e, s) && Settled(e, s) && Enabled(e, s, step) && Calm(step)
    requires Valid(Next(e, s, step).journal) && ResultsStay(e, s.journal, Next(e, s, step).journal)
    ensures NothingRuns(Next(e, s, step))
  {
    var t := Next(e, s, step);
    if step.Send? {
      OpenCallIsDone(e, s);
      SendKeepsResults(e, s, step.auto, step.id, step.aid);
    } else if step.Finish? {
      FinishKeepsResults(e, s);
    } else if t.pc == s.pc && s.pc.Ran? {
      CallsAreOurs(e, s.pc.seen);
    }
  }

  /** A commit left under way by a settled state is harmless, and takes nothing from the others. */
  lemma StrayIsHarmless(e: Setup, s: World, late: (Id, Json))
    requires Inv(e, s) && s.pc.Ran? && Stores(s.journal, s.pc.sig, Envelope(s.pc.value)) && late in Next(e, s, CrashSending).flying
    requires late in s.flying ==> Harmless(s, late)
    ensures Harmless(Next(e, s, CrashSending), late)
  {
    HolderHasSig(s.journal, s.pc.sig);
    if late !in s.flying {
      assert late == (s.pc.id, s.pc.value);
    }
  }

  lemma CrashKeepsStable(e: Setup, s: World)
    requires Inv(e, s) && Settled(e, s) && s.pc.Ran?
    ensures Stable(e, Next(e, s, CrashSending))
  {
    var t := Next(e, s, CrashSending);
    forall late | late in t.flying
      ensures Harmless(t, late)
    {
      StrayIsHarmless(e, s, late);
    }
    MoveKeepsHeld(e, s, t);
  }

  lemma CalmKeepsSettled(e: Setup, s: World, step: Step)
    requires Inv(e, s) && Settled(e, s) && Enabled(e, s, step) && Calm(step)
    ensures Inv(e, Next(e, s, step)) && Settled(e, Next(e, s, step))
  {
    StepKeepsInv(e, s, step);
    SettledKeepsResults(e, s, step);
    AnswersStay(e, s.journal, Next(e, s, step).journal);
    NothingStarts(e, s, step);
    if step.CrashSending? {
      CrashKeepsStable(e, s);
    } else {
      QuietKeepsStable(e, s, step);
    }
  }

  lemma {:induction false} PathKeepsSettled(e: Setup, states: seq<World>, steps: seq<Step>, n: nat)
    requires IsCalmPath(e, states, steps) && n < |states| && Inv(e, states[0]) && Settled(e, states[0])
    ensures Inv(e, states[n]) && Settled(e, states[n])
  {
    if n > 0 {
      PathKeepsSettled(e, states, steps, n - 1);
      assert IsCalm(e, states, steps, n - 1);
      CalmKeepsSettled(e, states[n - 1], steps[n - 1]);
    }
  }

  lemma SettledMeansAgreement(e: Setup, s: World, t: World)
    requires Inv(e, s) && Settled(e, s) && CalmLeads(e, s, t)
    ensures Agreed(t.views)
  {
    var states, steps :| IsCalmPath(e, states, steps) && states[0] == s && states[|steps|] == t;
    PathKeepsSettled(e, states, steps, |steps|);
    StableAgrees(e, t);
  }

  // ── An unsettled state can come to a disagreement ─────────────────────────

  ghost predicate CalmDiverges(e: Setup, o: World) {
    exists t :: CalmLeads(e, o, t) && !Agreed(t.views)
  }

  lemma DivergesLater(e: Setup, o: World, s: World)
    requires CalmLeads(e, o, s) && Diverges(e, s)
    ensures CalmDiverges(e, o)
  {
    var t :| Leads(e, s, t) && !Agreed(t.views);
    QuietIsCalm(e, s, t);
    LeadsOn(e, o, s, t);
  }

  /** A crash with the commit of a value under way that the journal does not hold. */
  lemma StrayDiverges(e: Setup, o: World, s: World)
    requires Reached(e, o, s) && s.pc.Ran? && !Stores(s.journal, s.pc.sig, Envelope(s.pc.value))
    ensures CalmDiverges(e, o)
  {
    var t := Next(e, s, CrashSending);
    StepKeepsInv(e, s, CrashSending);
    HolderHasSig(s.journal, s.pc.sig);
    assert (s.pc.id, s.pc.value) in t.flying && !Harmless(t, (s.pc.id, s.pc.value));
    UnstableDiverges(e, t);
    QuietIsCalm(e, o, s);
    OneCalmStep(e, s, CrashSending);
    LeadsOn(e, o, s, t);
    DivergesLater(e, o, t);
  }

  /** A body that runs can return a value that the journal does not hold. */
  lemma BodyDiverges(e: Setup, o: World, s: World)
    requires Reached(e, o, s) && s.pc.InBody?
    ensures CalmDiverges(e, o)
  {
    var slot := SlotOf(s.journal, s.pc.sig);
    var w := if slot.Done? then OtherThan(Unwrap(Some(slot.result))) else CanonicalJson.Null;
    EnvelopeRoundTrip(w);
    Reach(e, o, s, Return(w));
    StrayDiverges(e, o, Next(e, s, Return(w)));
  }

  lemma ToldDiverges(e: Setup, o: World, s: World)
    requires Reached(e, o, s) && s.pc.Told?
    ensures CalmDiverges(e, o)
  {
    Reach(e, o, s, Enter);
    BodyDiverges(e, o, Next(e, s, Enter));
  }

  /** What the journal would hand over next, it still would with the same slots. */
  lemma StillHands(e: Setup, j: Journal, t: Journal, seen: seq<Outcome>, x: Outcome)
    requires AgentAgreement.SameSlots(j, t) && WouldHand(e, j, seen, x)
    ensures WouldHand(e, t, seen, x)
  {
  }

  lemma IsLedOn(e: Setup, o: World, s: World, j: Journal, seen: seq<Outcome>, x: Outcome) returns (t: World)
    requires Reached(e, o, s) && s.pc == Thinking(seen)
    requires AgentAgreement.SameSlots(j, s.journal) && WouldHand(e, j, seen, x)
    ensures Reached(e, o, t) && AgentAgreement.SameSlots(j, t.journal) && t.pc == Thinking(seen + [x])
  {
    StillHands(e, j, s.journal, seen, x);
    t := ReplayNext(e, o, s, x);
    SameSlotsTwice(j, s.journal, t.journal);
  }

  /** A restarted process comes to wherever the journal leads. */
  lemma {:induction false} IsLed(e: Setup, o: World, s: World, seen: seq<Outcome>) returns (t: World)
    requires Reached(e, o, s) && s.pc == Thinking([]) && Led(e, s.journal, seen)
    ensures Reached(e, o, t) && AgentAgreement.SameSlots(s.journal, t.journal) && t.pc == Thinking(seen)
    decreases |seen|
  {
    if seen == [] {
      t := s;
    } else {
      LedPrefix(e, s.journal, seen);
      var u := IsLed(e, o, s, seen[..|seen| - 1]);
      assert LedAt(e, s.journal, seen, |seen| - 1);
      t := IsLedOn(e, o, u, s.journal, seen[..|seen| - 1], seen[|seen| - 1]);
      assert seen == seen[..|seen| - 1] + [seen[|seen| - 1]];
    }
  }

  /** A call that the journal leads to and does not answer runs, and a crash then leaves its commit under way. */
  lemma OpenCallDiverges(e: Setup, s: World, seen: seq<Outcome>)
    requires Inv(e, s) && Led(e, s.journal, seen) && SigAt(e, seen).Some? && !SlotOf(s.journal, SigAt(e, seen).value).Done?
    ensures CalmDiverges(e, s)
  {
    LeadsToSelf(e, s);
    var u := StartOver(e, s, s);
    var v := IsLed(e, s, u, seen);
    var sig := SigAt(e, seen).value;
    assert SlotOf(v.journal, sig) == SlotOf(s.journal, sig);
    var t, _ := AskAgain(e, s, v, sig);
    ToldDiverges(e, s, t);
  }

  lemma UnsettledDiverges(e: Setup, s: World)
    requires Inv(e, s) && !Settled(e, s)
    ensures CalmDiverges(e, s)
  {
    LeadsToSelf(e, s);
    if !Stable(e, s) {
      UnstableDiverges(e, s);
      QuietIsCalm(e, s, s);
      DivergesLater(e, s, s);
    } else if s.pc.Told? {
      ToldDiverges(e, s, s);
    } else if s.pc.InBody? {
      BodyDiverges(e, s, s);
    } else if !NothingRuns(s) {
      StrayDiverges(e, s, s);
    } else {
      var seen :| Led(e, s.journal, seen) && SigAt(e, seen).Some? && !SlotOf(s.journal, SigAt(e, seen).value).Done?;
      OpenCallDiverges(e, s, seen);
    }
  }

  /** From any reachable state: every continuation without new failures keeps all incarnations agreed exactly if the state is settled. */
  lemma SettledIff(e: Setup, states: seq<World>, steps: seq<Step>, n: nat)
    requires AgentReplay.IsRun(e, states, steps) && n < |states|
    ensures Valid(states[n].journal)
    ensures Settled(e, states[n]) <==> forall t :: CalmLeads(e, states[n], t) ==> Agreed(t.views)
  {
    var s := states[n];
    RunKeepsInv(e, states, steps, n);
    if Settled(e, s) {
      forall t | CalmLeads(e, s, t)
        ensures Agreed(t.views)
      {
        SettledMeansAgreement(e, s, t);
      }
    } else {
      UnsettledDiverges(e, s);
    }
  }

  // ── The run ───────────────────────────────────────────────────────────────

  lemma CalmKeepsNoFailures(e: Setup, s: World, step: Step)
    requires Inv(e, s) && NoFailures(s) && Enabled(e, s, step) && Calm(step)
    ensures NoFailures(Next(e, s, step))
  {
    if !step.CrashSending? {
      QuietKeepsNoFailures(e, s, step);
    }
  }

  lemma {:induction false} PathKeepsNoFailures(e: Setup, states: seq<World>, steps: seq<Step>, n: nat)
    requires IsCalmPath(e, states, steps) && n < |states| && Inv(e, states[0]) && NoFailures(states[0])
    ensures Inv(e, states[n]) && NoFailures(states[n])
  {
    if n > 0 {
      PathKeepsNoFailures(e, states, steps, n - 1);
      assert IsCalm(e, states, steps, n - 1);
      StepKeepsInv(e, states[n - 1], steps[n - 1]);
      CalmKeepsNoFailures(e, states[n - 1], steps[n - 1]);
    }
  }

  /** Without new failures, none is ever handed over. */
  lemma NoneFails(e: Setup, s: World, t: World)
    requires Inv(e, s) && NoFailures(s) && CalmLeads(e, s, t)
    ensures NoFailures(t)
  {
    var states, steps :| IsCalmPath(e, states, steps) && states[0] == s && states[|steps|] == t;
    PathKeepsNoFailures(e, states, steps, |steps|);
  }

  /** The agent's first call is told to execute, its body returns v, and the process crashes with the commit under way. */
  lemma FirstCrash(e: Setup, s: World, sig: Sig, v: Json) returns (t: World, id: Id)
    requires Inv(e, s) && s.pc.Down? && SigAt(e, []) == Some(sig) && SlotOf(s.journal, sig).Free?
    ensures CalmLeads(e, s, t) && Inv(e, t) && (id, v) in t.flying && SlotOf(t.journal, sig) == Busy(id)
    ensures id in t.journal.rows && t.journal.rows[id].sig == sig
  {
    LeadsToSelf(e, s);
    var u := StartOver(e, s, s);
    u, id := AskAgain(e, s, u, sig);
    Reach(e, s, u, Enter);
    u := Next(e, u, Enter);
    Reach(e, s, u, Return(v));
    u := Next(e, u, Return(v));
    t := Next(e, u, CrashSending);
    StepKeepsInv(e, u, CrashSending);
    QuietIsCalm(e, s, u);
    OneCalmStep(e, u, CrashSending);
    LeadsOn(e, s, u, t);
    HolderHasSig(t.journal, sig);
  }

  /** The late commit arrives, and the next restart is handed its value. */
  lemma LateIsReplayed(e: Setup, o: World, s: World, sig: Sig, late: (Id, Json)) returns (t: World)
    requires Reached(e, o, s) && SigAt(e, []) == Some(sig) && late in s.flying && late.0 in s.journal.rows
    requires s.journal.rows[late.0].sig == sig && SlotOf(s.journal, sig).Done? && SlotOf(s.journal, sig).id == late.0
    ensures Leads(e, o, t) && s.views <= t.views && [Value(late.1)] in t.views
  {
    Reach(e, o, s, Step.Arrive(late));
    CommitChanges(s.journal, late, sig);
    var x := StartOver(e, o, Next(e, s, Step.Arrive(late)));
    EnvelopeRoundTrip(late.1);
    t := GetReplay(e, o, x, sig);
    assert [] + [Value(late.1)] == [Value(late.1)];
  }

  /** The restarted process runs the body again and is handed w; then the late commit comes in. */
  lemma SecondThoughts(e: Setup, s: World, sig: Sig, id: Id, v: Json, w: Json) returns (t: World)
    requires Inv(e, s) && SigAt(e, []) == Some(sig) && SlotOf(s.journal, sig) == Busy(id)
    requires (id, v) in s.flying && id in s.journal.rows && s.journal.rows[id].sig == sig
    ensures Leads(e, s, t) && [Value(w)] in t.views && [Value(v)] in t.views
  {
    LeadsToSelf(e, s);
    var b := StartOver(e, s, s);
    var u, _ := RunBody(e, s, b, sig, w);
    assert [] + [Value(w)] == [Value(w)];
    t := LateIsReplayed(e, s, u, sig, (id, v));
  }

  /**
   Whatever agent makes a first call: one crash with its commit under way, the body run again with another
   value, the late commit and a restart make two incarnations disagree. No failure was ever handed over.
   */
  lemma CommitUnderWayDiverges(e: Setup, start: World) returns (t: World)
    requires Init(e, start) && SigAt(e, []).Some?
    ensures CalmLeads(e, start, t) && NoFailures(t)
    ensures [Value(CanonicalJson.Null)] in t.views && [Value(CanonicalJson.Bool(true))] in t.views && !Agreed(t.views)
  {
    var sig := SigAt(e, []).value;
    CallsAreOurs(e, []);
    InitIsInv(e, start);
    assert Project(start.journal, sig) == Initial();
    var s, id := FirstCrash(e, start, sig, CanonicalJson.Null);
    t := SecondThoughts(e, s, sig, id, CanonicalJson.Null, CanonicalJson.Bool(true));
    QuietIsCalm(e, s, t);
    LeadsOn(e, start, s, t);
    NoneFails(e, start, t);
    assert !Comparable([Value(CanonicalJson.Null)], [Value(CanonicalJson.Bool(true))]);
  }
}
