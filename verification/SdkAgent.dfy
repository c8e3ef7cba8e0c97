/**
 The agent with the SDK's own signatures: session, step, tool name and canonical arguments, hashed. A
 value is replayed only to a call of the same step and tool whose arguments differ at most in key order
 and the form of numbers; other sessions are foreign traffic. And a run in which incarnations disagree.
 */
module SdkAgent {
  import opened Types
  import opened DevJournal
  import opened JournalMachine
  import opened AgentReplay
  import opened AgentAgreement
  import opened CallSignature
  import CanonicalJson
  import Utf8

  type Step = AgentReplay.Step

  // ── Signatures ────────────────────────────────────────────────────────────

  /** A call that cannot be packed has no signature. */
  function SdkSigner(session: seq<Byte>, digest: seq<Byte> -> string): Signer {
    (step: nat, call: ToolCall) =>
      match PythonStream(session, step, call.name, call.args)
      case Ok(bytes) => Some(digest(bytes))
      case Err(_) => None
  }

  ghost predicate SameCall(c: ToolCall, d: ToolCall) {
    c.name == d.name && CanonicalJson.Equiv(c.args, d.args)
  }

  ghost predicate WellFormedCall(c: ToolCall) {
    CanonicalJson.WellFormed(c.args)
  }

  /** Equal signatures come from equal steps and the same call up to key order and the form of numbers. */
  ghost predicate Identifies(sign: Signer) {
    forall k: nat, c: ToolCall, l: nat, d: ToolCall ::
      WellFormedCall(c) && WellFormedCall(d) && sign(k, c).Some? && sign(k, c) == sign(l, d) ==> k == l && SameCall(c, d)
  }

  lemma SdkSignerIdentifies(session: seq<Byte>, digest: seq<Byte> -> string)
    requires |session| == 16 && CollisionFree(digest)
    ensures Identifies(SdkSigner(session, digest))
  {
    var sign := SdkSigner(session, digest);
    forall k: nat, c: ToolCall, l: nat, d: ToolCall | WellFormedCall(c) && WellFormedCall(d) && sign(k, c).Some? && sign(k, c) == sign(l, d)
      ensures k == l && SameCall(c, d)
    {
      SignatureIdentifiesCall(session, k, c.name, c.args, session, l, d.name, d.args, digest);
    }
  }

  /** Two sessions never share a signature, whatever the calls. */
  lemma SessionsAreApart(s1: seq<Byte>, s2: seq<Byte>, digest: seq<Byte> -> string, k: nat, c: ToolCall, l: nat, d: ToolCall)
    requires |s1| == |s2| == 16 && s1 != s2 && CollisionFree(digest) && SdkSigner(s1, digest)(k, c).Some?
    ensures SdkSigner(s1, digest)(k, c) != SdkSigner(s2, digest)(l, d)
  {
    var x, y := PythonStream(s1, k, c.name, c.args), PythonStream(s2, l, d.name, d.args);
    if y.Ok? && digest(x.value) == digest(y.value) {
      StreamIsUnambiguous(s1, k, Utf8.Encode(c.name), Utf8.Encode(CanonicalJson.Print(c.args)),
                          s2, l, Utf8.Encode(d.name), Utf8.Encode(CanonicalJson.Print(d.args)));
    }
  }

  /** So an intercept of another session is foreign traffic. */
  lemma OtherSessionIsForeign(s1: seq<Byte>, s2: seq<Byte>, digest: seq<Byte> -> string, agent: Agent, j: Journal, r: Request, l: nat, d: ToolCall)
    requires |s1| == |s2| == 16 && s1 != s2 && CollisionFree(digest) && Valid(j)
    requires r.Intercept? && SdkSigner(s2, digest)(l, d) == Some(r.sig)
    ensures Foreign(Setup(agent, SdkSigner(s1, digest)), j, r)
  {
    var e := Setup(agent, SdkSigner(s1, digest));
    forall sig | Ours(e, sig)
      ensures !Concerns(Project(j, sig), sig, r)
    {
      var k: nat, c: ToolCall :| e.sign(k, c) == Some(sig);
      SessionsAreApart(s1, s2, digest, k, c, l, d);
    }
  }

  /** A Python mapping has no key twice. */
  ghost predicate CallsWellFormed(agent: Agent) {
    forall seen :: agent(seen).Some? ==> WellFormedCall(agent(seen).value)
  }

  /** A body of the same step and the same call, up to key order and number form in its arguments, returned the value. */
  ghost predicate OwnBodyReturned(e: Setup, s: World, k: nat, call: ToolCall, v: Json) {
    exists p :: (p, v) in s.returned && |p| == k && e.agent(p).Some? && SameCall(e.agent(p).value, call)
  }

  /** Whatever is replayed to a call was returned by a body of that call. */
  lemma ReplayedValueIsOwn(e: Setup, states: seq<World>, steps: seq<Step>, n: nat, a: seq<Outcome>, k: nat)
    requires AgentReplay.IsRun(e, states, steps) && Identifies(e.sign) && CallsWellFormed(e.agent)
    requires n < |states| && a in states[n].views && k < |a| && a[k].Value?
    ensures e.agent(a[..k]).Some? && OwnBodyReturned(e, states[n], k, e.agent(a[..k]).value, a[k].v)
  {
    ValuesCameFromBodies(e, states, steps, n, a, k);
    var sig := SigAt(e, a[..k]).value;
    var p :| (p, a[k].v) in states[n].returned && SigAt(e, p) == Some(sig);
    assert e.sign(|p| + 1, e.agent(p).value) == e.sign(k + 1, e.agent(a[..k]).value);
  }

  lemma ReplayedValueIsOwnForSdk(session: seq<Byte>, digest: seq<Byte> -> string, agent: Agent, states: seq<World>, steps: seq<Step>, n: nat,
                                 a: seq<Outcome>, k: nat)
    requires |session| == 16 && CollisionFree(digest) && CallsWellFormed(agent)
    requires AgentReplay.IsRun(Setup(agent, SdkSigner(session, digest)), states, steps)
    requires n < |states| && a in states[n].views && k < |a| && a[k].Value?
    ensures agent(a[..k]).Some?
    ensures OwnBodyReturned(Setup(agent, SdkSigner(session, digest)), states[n], k, agent(a[..k]).value, a[k].v)
  {
    SdkSignerIdentifies(session, digest);
    ReplayedValueIsOwn(Setup(agent, SdkSigner(session, digest)), states, steps, n, a, k);
  }

  // ── A disagreement ────────────────────────────────────────────────────────

  lemma RunExtends(e: Setup, states: seq<World>, steps: seq<Step>, step: Step)
    requires AgentReplay.IsRun(e, states, steps) && Enabled(e, states[|steps|], step)
    ensures AgentReplay.IsRun(e, states + [Next(e, states[|steps|], step)], steps + [step])
  {
    var states', steps' := states + [Next(e, states[|steps|], step)], steps + [step];
    forall i {:trigger AgentReplay.Takes(e, states', steps', i)} | 0 <= i < |steps'|
      ensures AgentReplay.Takes(e, states', steps', i)
    {
      assert states'[i] == states[i];
      if i < |steps| {
        assert AgentReplay.Takes(e, states, steps, i);
        assert states'[i + 1] == states[i + 1] && steps'[i] == steps[i];
      }
    }
  }

  /** No commit is left under way. */
  predicate NoneLate(steps: seq<Step>) {
    forall i :: 0 <= i < |steps| ==> !steps[i].Arrive? && !steps[i].BreakSending? && !steps[i].CrashSending?
  }

  /** Some run in which no commit comes late ends in the state. */
  ghost predicate Happens(e: Setup, s: World) {
    exists states, steps :: AgentReplay.IsRun(e, states, steps) && NoneLate(steps) && states[|steps|] == s
  }

  ghost predicate Happened(e: Setup, s: World) {
    Happens(e, s) && Inv(e, s)
  }

  lemma Go(e: Setup, s: World, step: Step)
    requires Happened(e, s) && Enabled(e, s, step) && !step.Arrive? && !step.BreakSending? && !step.CrashSending?
    ensures Happened(e, Next(e, s, step)) && s.views <= Next(e, s, step).views
  {
    var states, steps :| AgentReplay.IsRun(e, states, steps) && NoneLate(steps) && states[|steps|] == s;
    RunExtends(e, states, steps, step);
    StepKeepsInv(e, s, step);
    ViewsGrowBy(e, s, step);
    var states', steps' := states + [Next(e, s, step)], steps + [step];
    assert AgentReplay.IsRun(e, states', steps') && NoneLate(steps') && states'[|steps'|] == Next(e, s, step);
  }

  /** From its start, the agent's first call is told to execute. */
  lemma FirstCall(e: Setup, s: World, sig: Sig) returns (t: World)
    requires Happened(e, s) && s.pc.Down? && SigAt(e, []) == Some(sig) && SlotOf(s.journal, sig).Free?
    ensures Happened(e, t) && s.views <= t.views && t.pc.Told? && t.pc.seen == [] && t.pc.sig == sig
  {
    Go(e, s, Boot);
    var s1 := Next(e, s, Boot);
    Go(e, s1, Decide);
    var s2 := Next(e, s1, Decide);
    var id := FreshId(s2.journal.rows.Keys);
    var aid := FreshId(s2.journal.approvals.Keys);
    assert Enabled(e, s2, Send(false, id, aid));
    Go(e, s2, Send(false, id, aid));
    SendChanges(s2.journal, sig, false, id, aid);
    t := Next(e, s2, Send(false, id, aid));
  }

  /** The body raises and the failure is reported, which frees the signature. */
  lemma BodyFails(e: Setup, s: World, error: string) returns (t: World)
    requires Happened(e, s) && s.pc.Told?
    ensures Happened(e, t) && s.views <= t.views && t.pc == Failing(s.pc.seen, s.pc.sig, error) && SlotOf(t.journal, s.pc.sig).Free?
  {
    Go(e, s, Enter);
    var s1 := Next(e, s, Enter);
    Go(e, s1, Raise(error));
    var s2 := Next(e, s1, Raise(error));
    Go(e, s2, Report);
    HolderHasSig(s2.journal, s.pc.sig);
    FailChanges(s2.journal, s2.pc.id, s.pc.sig);
    t := Next(e, s2, Report);
  }

  lemma FailureIsHanded(e: Setup, s: World) returns (t: World)
    requires Happened(e, s) && s.pc.Failing?
    ensures Happened(e, t) && t.journal == s.journal && t.pc.Down? && s.pc.seen + [Failure(s.pc.error)] in t.views
  {
    Go(e, s, HandFailure);
    var s1 := Next(e, s, HandFailure);
    Go(e, s1, Crash);
    t := Next(e, s1, Crash);
  }

  /** The body returns. */
  lemma BodyReturns(e: Setup, s: World, v: Json) returns (t: World)
    requires Happened(e, s) && s.pc.Told?
    ensures Happened(e, t) && s.views <= t.views && t.pc.Ran? && t.pc.seen == s.pc.seen && t.pc.value == v
  {
    Go(e, s, Enter);
    var s1 := Next(e, s, Enter);
    Go(e, s1, Return(v));
    t := Next(e, s1, Return(v));
  }

  lemma ValueIsHanded(e: Setup, s: World) returns (t: World)
    requires Happened(e, s) && s.pc.Ran?
    ensures Happened(e, t) && s.views <= t.views && s.pc.seen + [Value(s.pc.value)] in t.views
  {
    Go(e, s, Finish);
    FinishStores(e, s);
    var s1 := Finished(s);
    Go(e, s1, Resume);
    t := Next(e, s1, Resume);
  }

  /**
   Whatever agent makes a first call: its tool fails, the agent is handed the error and goes on, the
   process crashes; the restarted agent runs the freed call again and is handed a value instead. No
   commit was ever late.
   */
  lemma PassedOverFailureDiverges(e: Setup, start: World) returns (t: World)
    requires Init(e, start) && SigAt(e, []).Some?
    ensures Happens(e, t)
    ensures [Failure("error")] in t.views && [Value(CanonicalJson.Null)] in t.views
    ensures !Comparable([Failure("error")], [Value(CanonicalJson.Null)])
  {
    var sig := SigAt(e, []).value;
    CallsAreOurs(e, []);
    InitIsInv(e, start);
    assert Project(start.journal, sig) == Initial();
    assert Happens(e, start) by {
      var states: seq<World>, steps: seq<Step> := [start], [];
      assert AgentReplay.IsRun(e, states, steps) && NoneLate(steps) && states[|steps|] == start;
    }
    t := FirstCall(e, start, sig);
    t := BodyFails(e, t, "error");
    t := FailureIsHanded(e, t);
    assert [] + [Failure("error")] == [Failure("error")];
    t := FirstCall(e, t, sig);
    t := BodyReturns(e, t, CanonicalJson.Null);
    t := ValueIsHanded(e, t);
    assert [] + [Value(CanonicalJson.Null)] == [Value(CanonicalJson.Null)];
  }
}
