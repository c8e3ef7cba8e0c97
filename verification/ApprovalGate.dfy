/** The approval gate of the local server: what tools matching an irreversible pattern can and cannot be told. */
module ApprovalGate {
  import opened Types
  import opened DevJournal
  import opened JournalMachine

  /** The patterns are fixed: g says which signatures name an irreversible tool. */
  ghost predicate Patterned(requests: seq<Request>, g: Sig -> bool) {
    forall i :: 0 <= i < |requests| && requests[i].Intercept? ==> requests[i].gated == g(requests[i].sig)
  }

  predicate IsAuto(r: Request, sig: Sig) {
    r.Intercept? && r.sig == sig && r.auto
  }

  ghost function SlotAfter(sig: Sig, requests: seq<Request>, n: nat): Slot
    requires n <= |requests|
  {
    Fold(sig, requests[..n]).slot
  }

  /** Some auto-approved intercept of the signature was served since its slot was last free. */
  ghost predicate AutoServed(sig: Sig, requests: seq<Request>, n: nat)
    requires n <= |requests|
  {
    exists i :: 0 <= i < n && IsAuto(requests[i], sig) && NeverFree(sig, requests, i, n)
  }

  ghost predicate NeverFree(sig: Sig, requests: seq<Request>, i: int, n: nat)
    requires n <= |requests|
  {
    forall j: nat :: i < j <= n ==> !SlotAfter(sig, requests, j).Free?
  }

  lemma FoldSnoc(sig: Sig, requests: seq<Request>, n: nat)
    requires n < |requests|
    ensures Fold(sig, requests[..n + 1]) == Step(Fold(sig, requests[..n]), sig, requests[n])
  {
    assert requests[..n + 1][..n] == requests[..n];
  }

  lemma AutoServedStep(sig: Sig, requests: seq<Request>, n: nat)
    requires n < |requests|
    ensures AutoServed(sig, requests, n + 1)
            <==> !SlotAfter(sig, requests, n + 1).Free? && (IsAuto(requests[n], sig) || AutoServed(sig, requests, n))
  {
    if AutoServed(sig, requests, n + 1) {
      var i :| 0 <= i < n + 1 && IsAuto(requests[i], sig) && NeverFree(sig, requests, i, n + 1);
      assert NeverFree(sig, requests, i, n);
    }
    if !SlotAfter(sig, requests, n + 1).Free? && IsAuto(requests[n], sig) {
      assert NeverFree(sig, requests, n, n + 1);
    }
    if !SlotAfter(sig, requests, n + 1).Free? && AutoServed(sig, requests, n) {
      var i :| 0 <= i < n && IsAuto(requests[i], sig) && NeverFree(sig, requests, i, n);
      assert NeverFree(sig, requests, i, n + 1);
    }
  }

  /** While a call of an irreversible tool holds its signature, it runs or its approval is closed exactly by an auto-approved intercept. */
  predicate GateInv(m: Machine, auto: bool) {
    match m.slot
    case Free => !auto
    case Busy(_) => auto
    case Waiting(id, ask) => ask in m.asks && m.asks[ask].id == id && (m.asks[ask].open <==> !auto)
    case Done(_, _) => true
  }

  lemma StepKeepsGate(m: Machine, sig: Sig, r: Request, auto: bool)
    requires GateInv(m, auto) && (r.Intercept? && r.sig == sig ==> r.gated)
    ensures var t := Step(m, sig, r); GateInv(t, !t.slot.Free? && (IsAuto(r, sig) || auto))
  {
  }

  lemma {:induction false} FoldKeepsGate(sig: Sig, requests: seq<Request>, n: nat, g: Sig -> bool)
    requires Patterned(requests, g) && g(sig) && n <= |requests|
    ensures GateInv(Fold(sig, requests[..n]), AutoServed(sig, requests, n))
  {
    if n > 0 {
      FoldKeepsGate(sig, requests, n - 1, g);
      FoldSnoc(sig, requests, n - 1);
      AutoServedStep(sig, requests, n - 1);
      StepKeepsGate(Fold(sig, requests[..n - 1]), sig, requests[n - 1], AutoServed(sig, requests, n - 1));
    }
  }

  /**
   An irreversible tool is told to execute exactly if no result is committed and some auto-approved
   intercept of the call was served since its signature was last free, this one included.
   */
  lemma ExecutedIffAutoApproved(journals: seq<Journal>, requests: seq<Request>, answers: seq<Answer>, n: nat, g: Sig -> bool)
    requires IsRun(journals, requests, answers) && Patterned(requests, g) && n < |requests|
    requires requests[n].Intercept? && g(requests[n].sig)
    ensures answers[n].Executed? <==> var sig := requests[n].sig;
              !SlotAfter(sig, requests, n).Done? && (requests[n].auto || AutoServed(sig, requests, n))
    ensures answers[n].Executed? || answers[n].PendingApproval? || answers[n].Replayed?
  {
    var sig := requests[n].sig;
    AnswersAreTheMachines(journals, requests, answers, n, sig);
    FoldKeepsGate(sig, requests, n, g);
  }

  /** With auto-approve off throughout, it is told to wait or given a committed result, and nothing else, whatever was reported. */
  lemma IrreversibleNeverExecuted(journals: seq<Journal>, requests: seq<Request>, answers: seq<Answer>, n: nat, g: Sig -> bool)
    requires IsRun(journals, requests, answers) && Patterned(requests, g) && n < |requests|
    requires forall i :: 0 <= i < |requests| && requests[i].Intercept? ==> !requests[i].auto
    requires requests[n].Intercept? && g(requests[n].sig)
    ensures answers[n].PendingApproval? || answers[n].Replayed?
  {
    ExecutedIffAutoApproved(journals, requests, answers, n, g);
  }

  // ── Awaiting effects and their approvals ──────────────────────────────────

  lemma {:induction false} IdsGrow(sig: Sig, requests: seq<Request>, m: nat, n: nat)
    requires m <= n <= |requests|
    ensures Fold(sig, requests[..m]).ids <= Fold(sig, requests[..n]).ids
    decreases n
  {
    if m < n {
      IdsGrow(sig, requests, m, n - 1);
      FoldSnoc(sig, requests, n - 1);
    }
  }

  /** The call was journaled before request i. */
  ghost predicate Known(sig: Sig, requests: seq<Request>, i: nat, id: Id)
    requires i <= |requests|
  {
    id in Fold(sig, requests[..i]).ids
  }

  ghost predicate AutoSinceKnown(sig: Sig, requests: seq<Request>, n: nat, id: Id)
    requires n <= |requests|
  {
    exists i: nat :: i < n && IsAuto(requests[i], sig) && Known(sig, requests, i, id)
  }

  lemma AutoSinceStep(sig: Sig, requests: seq<Request>, n: nat, id: Id)
    requires n < |requests|
    ensures AutoSinceKnown(sig, requests, n + 1, id)
            <==> AutoSinceKnown(sig, requests, n, id) || (IsAuto(requests[n], sig) && Known(sig, requests, n, id))
  {
    if AutoSinceKnown(sig, requests, n + 1, id) {
      var i: nat :| i < n + 1 && IsAuto(requests[i], sig) && Known(sig, requests, i, id);
    }
  }

  /** An intercept draws an identifier that the signature has not seen. */
  ghost predicate DrawsFresh(sig: Sig, requests: seq<Request>, n: nat)
    requires n < |requests|
  {
    requests[n].Intercept? ==> !Known(sig, requests, n, requests[n].id)
  }

  lemma WaitingFrom(m: Machine, sig: Sig, r: Request, id: Id)
    requires Step(m, sig, r).slot.Waiting? && Step(m, sig, r).slot.id == id
    ensures m.slot == Step(m, sig, r).slot || (m.slot.Free? && r.Intercept? && r.sig == sig && !r.auto && r.id == id)
  {
  }

  /** For a waiting call, "since the signature was last free" is "since the call was journaled". */
  lemma {:induction false} WaitingSinceKnown(sig: Sig, requests: seq<Request>, n: nat, id: Id)
    requires n <= |requests| && SlotAfter(sig, requests, n).Waiting? && SlotAfter(sig, requests, n).id == id
    requires forall i: nat :: i < n ==> DrawsFresh(sig, requests, i)
    ensures Known(sig, requests, n, id)
    ensures AutoServed(sig, requests, n) <==> AutoSinceKnown(sig, requests, n, id)
  {
    assert n > 0;
    var k := n - 1;
    var m := Fold(sig, requests[..k]);
    FoldSnoc(sig, requests, k);
    AutoServedStep(sig, requests, k);
    AutoSinceStep(sig, requests, k, id);
    WaitingFrom(m, sig, requests[k], id);
    if m.slot == SlotAfter(sig, requests, n) {
      WaitingSinceKnown(sig, requests, k, id);
      IdsGrow(sig, requests, k, n);
    } else {
      assert DrawsFresh(sig, requests, k);
      FreeNotServed(sig, requests, k);
      UnknownNotSince(sig, requests, k, id);
    }
  }

  lemma FreeNotServed(sig: Sig, requests: seq<Request>, n: nat)
    requires n <= |requests| && SlotAfter(sig, requests, n).Free?
    ensures !AutoServed(sig, requests, n)
  {
  }

  lemma UnknownNotSince(sig: Sig, requests: seq<Request>, n: nat, id: Id)
    requires n <= |requests| && !Known(sig, requests, n, id)
    ensures !AutoSinceKnown(sig, requests, n, id)
  {
    if AutoSinceKnown(sig, requests, n, id) {
      var i: nat :| i < n && IsAuto(requests[i], sig) && Known(sig, requests, i, id);
      IdsGrow(sig, requests, i, n);
      assert false;
    }
  }

  lemma RunDrawsFresh(journals: seq<Journal>, requests: seq<Request>, answers: seq<Answer>, i: nat, sig: Sig)
    requires IsRun(journals, requests, answers) && i < |requests|
    ensures DrawsFresh(sig, requests, i)
  {
    assert Serves(journals, requests, answers, i);
    JournalIsFold(journals, requests, answers, i, sig);
  }

  /**
   An awaiting effect has its pending approval, the one it was created with, exactly if no auto-approved
   intercept of its call was served since its row was created.
   */
  lemma AwaitingHasItsApprovalIff(journals: seq<Journal>, requests: seq<Request>, answers: seq<Answer>, n: nat, g: Sig -> bool, id: Id)
    requires IsRun(journals, requests, answers) && Patterned(requests, g) && n < |journals|
    requires id in journals[n].rows && journals[n].rows[id].status.Awaiting?
    ensures var row := journals[n].rows[id];
            && row.approval.Some?
            && (PendingFor(journals[n], id) == row.approval
                <==> forall i: nat :: i < n && IsAuto(requests[i], row.sig) ==> id !in journals[i].rows)
            && (PendingFor(journals[n], id) == None || PendingFor(journals[n], id) == row.approval)
  {
    var j := journals[n];
    var sig := j.rows[id].sig;
    JournalIsFold(journals, requests, answers, n, sig);
    SlotIs(j, sig, id);
    PendingIs(j, id);
    AwaitingIsGated(journals, requests, answers, n, g, id);
    FoldKeepsGate(sig, requests, n, g);
    forall i: nat | i < n
      ensures DrawsFresh(sig, requests, i) && (Known(sig, requests, i, id) <==> id in journals[i].rows)
    {
      RunDrawsFresh(journals, requests, answers, i, sig);
      KnownIsRow(journals, requests, answers, i, n, id);
    }
    WaitingSinceKnown(sig, requests, n, id);
  }

  lemma {:induction false} RowsKeepSig(journals: seq<Journal>, requests: seq<Request>, answers: seq<Answer>, m: nat, n: nat, id: Id)
    requires IsRun(journals, requests, answers) && m <= n < |journals| && id in journals[m].rows
    ensures id in journals[n].rows && journals[n].rows[id].sig == journals[m].rows[id].sig
    decreases n
  {
    if m < n {
      RowsKeepSig(journals, requests, answers, m, n - 1, id);
      assert Serves(journals, requests, answers, n - 1);
      ServeKeepsSig(journals[n - 1], requests[n - 1], id);
    }
  }

  lemma KnownIsRow(journals: seq<Journal>, requests: seq<Request>, answers: seq<Answer>, i: nat, n: nat, id: Id)
    requires IsRun(journals, requests, answers) && i <= n < |journals| && id in journals[n].rows
    ensures Known(journals[n].rows[id].sig, requests, i, id) <==> id in journals[i].rows
  {
    JournalIsFold(journals, requests, answers, i, journals[n].rows[id].sig);
    if id in journals[i].rows {
      RowsKeepSig(journals, requests, answers, i, n, id);
    }
  }

  /** Only calls of irreversible tools ever await approval. */
  lemma {:induction false} AwaitingIsGated(journals: seq<Journal>, requests: seq<Request>, answers: seq<Answer>, n: nat, g: Sig -> bool, id: Id)
    requires IsRun(journals, requests, answers) && Patterned(requests, g) && n < |journals|
    requires id in journals[n].rows && journals[n].rows[id].status.Awaiting?
    ensures g(journals[n].rows[id].sig)
    decreases n
  {
    assert n > 0;
    assert Serves(journals, requests, answers, n - 1);
    AwaitingFrom(journals[n - 1], requests[n - 1], id);
    if id in journals[n - 1].rows {
      AwaitingIsGated(journals, requests, answers, n - 1, g, id);
    }
  }

  lemma AwaitingFrom(j: Journal, r: Request, id: Id)
    requires Fresh(j, r) && id in Serve(j, r).0.rows && Serve(j, r).0.rows[id].status.Awaiting?
    ensures id in j.rows ==> j.rows[id].status.Awaiting? && j.rows[id].sig == Serve(j, r).0.rows[id].sig
    ensures id !in j.rows ==> r.Intercept? && r.gated && r.sig == Serve(j, r).0.rows[id].sig
  {
  }

  /** With auto-approve off throughout, every awaiting effect has its pending approval. */
  lemma AwaitingHasItsApproval(journals: seq<Journal>, requests: seq<Request>, answers: seq<Answer>, n: nat, g: Sig -> bool, id: Id)
    requires IsRun(journals, requests, answers) && Patterned(requests, g) && n < |journals|
    requires forall i :: 0 <= i < |requests| && requests[i].Intercept? ==> !requests[i].auto
    requires id in journals[n].rows && journals[n].rows[id].status.Awaiting?
    ensures journals[n].rows[id].approval.Some? && PendingFor(journals[n], id) == journals[n].rows[id].approval
  {
    AwaitingHasItsApprovalIff(journals, requests, answers, n, g, id);
  }

  /** One auto-approved intercept leaves an effect awaiting with nothing pending; the next one executes even with the mode off again. */
  lemma AutoModeLeavesAwaiting() returns (journals: seq<Journal>, requests: seq<Request>, answers: seq<Answer>)
    ensures IsRun(journals, requests, answers) && |requests| == 3
    ensures answers[1] == Executed(10) && !IsAuto(requests[2], "s") && answers[2] == Executed(10)
    ensures Holds(journals[2], 10, "s") && journals[2].rows[10].status.Awaiting? && PendingFor(journals[2], 10) == None
  {
    var first, second := Intercept("s", true, false, 10, 20), Intercept("s", true, true, 11, 21);
    var third := Intercept("s", true, false, 12, 22);
    var j0 := Journal(map[], map[]);
    var j1 := Created(j0, "s", true, false, 10, 20);
    var j2 := Resolved(j1, 20, Approved);
    assert Holds(j1, 10, "s");
    LiveIs(j1, "s", 10);
    CreateKeepsValid(j0, "s", true, false, 10, 20);
    PendingIs(j1, 10);
    ResolveKeepsValid(j1, 20, Approved);
    PendingIs(j2, 10);
    assert Holds(j2, 10, "s");
    LiveIs(j2, "s", 10);
    assert Serve(j0, first) == (j1, PendingApproval(20));
    assert Serve(j1, second) == (j2, Executed(10));
    assert Serve(j2, third) == (j2, Executed(10));
    journals, requests, answers := [j0, j1, j2, j2], [first, second, third], [PendingApproval(20), Executed(10), Executed(10)];
    forall i {:trigger Serves(journals, requests, answers, i)} | 0 <= i < 3
      ensures Serves(journals, requests, answers, i)
    {
      assert i == 0 || i == 1 || i == 2;
    }
  }

  // ── Decisions ─────────────────────────────────────────────────────────────

  predicate Settled(j: Journal, a: Id, status: ApprovalStatus) {
    a in j.approvals && j.approvals[a].status == status && !status.Pending?
  }

  lemma ServeKeepsDecision(j: Journal, r: Request, a: Id, status: ApprovalStatus)
    requires Valid(j) && Fresh(j, r) && Settled(j, a, status)
    ensures Settled(Serve(j, r).0, a, status)
  {
  }

  /** A decided approval keeps its decision for good. */
  lemma {:induction false} DecisionIsFinal(journals: seq<Journal>, requests: seq<Request>, answers: seq<Answer>,
                                           m: nat, n: nat, a: Id, status: ApprovalStatus)
    requires IsRun(journals, requests, answers) && m <= n < |journals| && Settled(journals[m], a, status)
    ensures Settled(journals[n], a, status)
    decreases n
  {
    if m < n {
      DecisionIsFinal(journals, requests, answers, m, n - 1, a, status);
      RunKeepsValid(journals, requests, answers, n - 1);
      assert Serves(journals, requests, answers, n - 1);
      ServeKeepsDecision(journals[n - 1], requests[n - 1], a, status);
    }
  }

  predicate Decides(r: Request, a: Id) {
    (r.Approve? || r.Reject?) && r.aid == a
  }

  lemma DecidingSettles(j: Journal, r: Request, a: Id)
    requires a in j.approvals && Decides(r, a)
    ensures Settled(Serve(j, r).0, a, Approved) || Settled(Serve(j, r).0, a, ApprovalStatus.Rejected)
  {
  }

  /** An approval is decided at most once: after one decision request found it, every later one is a conflict. */
  lemma DecidedAtMostOnce(journals: seq<Journal>, requests: seq<Request>, answers: seq<Answer>, i: nat, k: nat, a: Id)
    requires IsRun(journals, requests, answers) && i < k < |requests|
    requires Decides(requests[i], a) && Decides(requests[k], a) && answers[i] != NotFound
    ensures answers[k] == Conflict
  {
    assert Serves(journals, requests, answers, i) && Serves(journals, requests, answers, k);
    DecidingSettles(journals[i], requests[i], a);
    var status := if Settled(journals[i + 1], a, Approved) then Approved else ApprovalStatus.Rejected;
    DecisionIsFinal(journals, requests, answers, i + 1, k, a, status);
  }
}
