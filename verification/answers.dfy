/** What a caller is told, and what one governed call leads to, column by column. */
module Answers {
  import opened Text
  import opened Models
  import opened Trails
  import opened TrailFacts
  import opened LedgerSpec
  import opened LedgerProofs
  import opened LedgerSteps
  import opened LedgerSweeps
  import opened Histories
  import opened Tenancy
  import opened Runtime
  import opened Operators
  import opened Effects
  import opened TrustedActions

  /** The answer tells the row: its action, status, key, policy version, reason, result and attempt. */
  predicate Tells(x: ActionResult, r: RunId, run: LedgerSpec.Run, duplicate: bool) {
    && x.run == r && x.action == run.q.action && x.status == run.status && x.key == run.q.key
    && x.version == run.version && x.reason == run.reason && x.value == run.result && x.attempt == run.attempt
    && x.duplicate == duplicate
  }

  // ---- Single reads ----

  /** Reading back a known run answers with its row as it stands at that read. */
  lemma ReadBackTells(y: Sys, w: nat)
    requires PcOf(y, w).Reading? && PcOf(y, w).run in Db(y).runs
    ensures
      var pc, told := PcOf(y, w), PcOf(Next(y, ReadBack(w)), w);
      told.Returned? && Tells(told.result, pc.run, Db(y).runs[pc.run], pc.duplicate)
  {
    hide Reached;
  }

  /** Resuming a completed run of the action answers with its row, as a duplicate. */
  lemma ResumeTells(y: Sys, w: nat, r: RunId, action: string)
    requires PcOf(y, w) == Idle && r in Db(y).runs
    requires Db(y).runs[r].q.action == action && Db(y).runs[r].status == Completed
    ensures
      var told := PcOf(Next(y, StepLabel.Resume(w, r, action)), w);
      told.Returned? && Tells(told.result, r, Db(y).runs[r], true)
  {
    hide Reached;
  }

  /** Where answers come from: a worker is answered only by reading back or by resuming a completed run. */
  lemma AnswerSource(y: Sys, step: StepLabel, v: nat)
    requires PcOf(Next(y, step), v).Returned? && !PcOf(y, v).Returned?
    ensures
      var x := PcOf(Next(y, step), v).result;
      || (step == ReadBack(v) && PcOf(y, v).Reading? && PcOf(y, v).run in Db(y).runs
          && Tells(x, PcOf(y, v).run, Db(y).runs[PcOf(y, v).run], PcOf(y, v).duplicate))
      || (step.Resume? && step.w == v && step.r in Db(y).runs && Db(y).runs[step.r].status == Completed
          && Tells(x, step.r, Db(y).runs[step.r], true))
  {
    hide Reached, Answer, RequestFingerprint;
  }

  /** ... and is about to read back as a duplicate exactly after counting one or losing a claim; after a decision that
      does not allow, or after its own report, it reads back as the run's own caller. */
  lemma ReadingSource(y: Sys, step: StepLabel, v: nat)
    requires PcOf(Next(y, step), v).Reading? && !PcOf(y, v).Reading?
    ensures
      var q := PcOf(Next(y, step), v);
      && !step.Client? && step.w == v
      && (q.duplicate <==> step.CountDuplicate? || step.Claim?)
      && (!q.duplicate <==> (step.DecidePolicy? && step.d.outcome != Allow) || step.Finish?)
      && (step.Claim? ==> Answer(y, OpClaim(q.run, step.owner, step.seconds, step.now, step.clock)) == Flag(false))
  {
    hide Reached, Apply, RequestFingerprint;
  }

  // ---- Reports of finished calls ----

  /** The run ended as the protected function did: a value that can be stored completes it, an error that says nothing
      of the outcome, or a value that cannot be stored, leaves it unknown, and any other error fails it. */
  predicate EndedAs(run: LedgerSpec.Run, outcome: FnResult) {
    && run.owner == None && run.lease == None
    && match outcome
       case Value(v, true) => run.status == Completed && run.result == v && run.reason == None
       case Value(v, false) =>
         && run.status == Unknown && run.result == None
         && run.reason == Some("tool execution outcome uncertain: " + "ResultSerializationError")
       case Indeterminate(e) =>
         run.status == Unknown && run.result == None && run.reason == Some("tool execution outcome uncertain: " + e)
       case Failure(e) =>
         run.status == Failed && run.result == None && run.reason == Some("tool execution failed: " + e)
  }

  /** A worker whose report the ledger took finds its run ended as its function ended. */
  lemma ReportEnds(y: Sys, w: nat, now: Time, clock: Clock)
    requires PcOf(y, w).Finishing? && PcOf(Next(y, StepLabel.Finish(w, now, clock)), w).Reading?
    ensures
      var pc, z := PcOf(y, w), Next(y, StepLabel.Finish(w, now, clock));
      PcOf(z, w) == Reading(pc.run, false) && pc.run in Db(z).runs && EndedAs(Db(z).runs[pc.run], pc.outcome)
  {
    hide Reached, Inv, Trail, Grew, OthersSame, Next, FinishExecution;
    var pc := PcOf(y, w);
    FinishIsCall(y, w, now, clock);
    var how := match pc.outcome
      case Value(v, ok) => if ok then Complete(v) else Uncertain("ResultSerializationError")
      case Indeterminate(e) => Uncertain(e)
      case Failure(e) => Fail(e);
    ReachedInv(y.ops);
    FinishEffect(Db(y), pc.run, pc.owner, how, now, clock);
  }

  lemma FinishIsCall(y: Sys, w: nat, now: Time, clock: Clock)
    requires PcOf(y, w).Finishing?
    ensures
      var pc, z := PcOf(y, w), Next(y, StepLabel.Finish(w, now, clock));
      var how := match pc.outcome
        case Value(v, ok) => if ok then Complete(v) else Uncertain("ResultSerializationError")
        case Indeterminate(e) => Uncertain(e)
        case Failure(e) => Fail(e);
      var (t, reply) := FinishExecution(Db(y), pc.run, pc.owner, how, now, clock);
      Db(z) == t && PcOf(z, w) == if reply.Raised? then Aborted(reply.error) else Reading(pc.run, false)
  {
    hide Reached, FinishExecution;
    var pc := PcOf(y, w);
    CommitTables(y, OpFinish(pc.run, pc.owner, FinishOf(pc.outcome), now, clock), w);
  }

  // ---- One governed call, in program order ----

  /** A first call: nothing under its key yet, a fresh run name, and settings the action accepts. */
  ghost predicate FirstCall(t: TrustedAction, y: Sys, w: nat, c: Context, key: string, m: Meets) {
    && PcOf(y, w) == Idle && !IsBlank(key) && 1 <= t.approvalTtl <= 604800
    && IdemKey(c.tenant, t.name, Strip(key)) !in Db(y).index && m.run !in Db(y).runs
  }

  /** The run holds the caller's identity and the call as it was made. */
  predicate HoldsCall(q: Request, c: Context, action: string, risk: string, key: string, args: map<string, Json>) {
    && q.tenant == c.tenant && q.actor == c.actor && q.roles == c.roles && q.evidence == c.evidence
    && q.action == action && q.risk == risk && q.key == Strip(key) && q.args == args && q.metadata == c.metadata
  }

  lemma InvokeCreates(
    t: TrustedAction, y: Sys, w: nat, c: Context, key: string, args: map<string, Json>, m: Meets)
    requires FirstCall(t, y, w, c, key, m)
    ensures
      var z := Next(y, StepLabel.Invoke(w, m.run, c, t.name, t.risk, key, args, m.created));
      && PcOf(z, w) == Deciding(m.run, args) && z.calls == y.calls && m.run in Db(z).runs
      && Db(z).runs[m.run].status == Created && Db(z).runs[m.run].version == None && Db(z).runs[m.run].attempt == 0
      && HoldsCall(Db(z).runs[m.run].q, c, t.name, t.risk, key, args)
  {
    hide Reached, Inv, Trail, Grew, OthersSame, RequestFingerprint, CreateOrGet;
    var q := GovernedRequest(c, t.name, t.risk, key, args);
    InvokeStep(y, w, m.run, c, t.name, t.risk, key, args, m.created);
    NextCalls(y, StepLabel.Invoke(w, m.run, c, t.name, t.risk, key, args, m.created));
    hide Next;
    ReachedInv(y.ops);
    CreateEffect(Db(y), m.run, q, m.created);
    CommitTables(y, OpCreate(m.run, q, m.created), w);
  }

  /** The outcome the policy settled on: its own, or a denial when it raised or could not be written. */
  predicate SettledOn(m: Meets, outcome: PolicyOutcome) {
    match m.decision
    case Decides(d) => outcome == d.outcome
    case Raises(_) => outcome == Deny
    case Unwritable(_) => outcome == Deny
  }

  /** What the decision leaves on the run, whatever became of the policy. */
  predicate DecisionShows(m: Meets, run: LedgerSpec.Run) {
    match m.decision
    case Decides(d) => run.version == Some(d.version) && run.reason == Some(d.reason)
    case Raises(e) => run.version == Some("policy-error") && run.reason == Some("policy evaluation failed: " + e)
    case Unwritable(e) =>
      run.version == Some("policy-error") && run.reason == Some("policy decision could not be serialized: " + e)
  }

  lemma PolicySettles(
    t: TrustedAction, y: Sys, w: nat, r: RunId, args: map<string, Json>, m: Meets, outcome: PolicyOutcome)
    requires PcOf(y, w) == Deciding(r, args) && r in Db(y).runs && Db(y).runs[r].status == Created
    requires 1 <= t.approvalTtl <= 604800 && SettledOn(m, outcome)
    ensures
      var z := Next(y, DecidePolicy(w, DecisionOf(m.decision), t.approvalTtl, m.decided, m.decidedClock));
      && z.calls == y.calls && r in Db(z).runs && DecisionShows(m, Db(z).runs[r])
      && Db(z).runs[r].q == Db(y).runs[r].q && Db(z).runs[r].attempt == Db(y).runs[r].attempt
      && Db(z).runs[r].status == (match outcome case Allow => Created case Deny => Denied case _ => PendingApproval)
      && PcOf(z, w) == if outcome == Allow then Claiming(r, args) else Reading(r, false)
  {
    hide Reached, Inv, Trail, Grew, OthersSame, RecordPolicy;
    var d := DecisionOf(m.decision);
    PolicyStepIs(y, w, r, args, d, t.approvalTtl, m);
    NextCalls(y, DecidePolicy(w, d, t.approvalTtl, m.decided, m.decidedClock));
    hide Next;
    ReachedInv(y.ops);
    PolicyEffect(Db(y), r, d, t.approvalTtl, m.decided, m.decidedClock);
  }

  lemma PolicyStepIs(y: Sys, w: nat, r: RunId, args: map<string, Json>, d: Decision, ttl: int, m: Meets)
    requires PcOf(y, w) == Deciding(r, args)
    ensures
      var z := Next(y, DecidePolicy(w, d, ttl, m.decided, m.decidedClock));
      var (t, reply) := RecordPolicy(Db(y), r, d, ttl, m.decided, m.decidedClock);
      && Db(z) == t
      && PcOf(z, w) == if reply.Raised? then Aborted(reply.error)
                       else if d.outcome.Allow? then Claiming(r, args) else Reading(r, false)
  {
    hide Reached, RecordPolicy;
    CommitTables(y, OpPolicy(r, d, ttl, m.decided, m.decidedClock), w);
  }

  /** After the prepare steps of a first call: refused or waiting, the caller is told so; allowed, the claim is next. */
  lemma PreparedTells(
    t: TrustedAction, y: Sys, w: nat, c: Context, key: string, args: map<string, Json>, m: Meets,
    outcome: PolicyOutcome)
    requires FirstCall(t, y, w, c, key, m) && SettledOn(m, outcome)
    ensures
      var z := t.Prepared(y, w, c, key, args, m);
      && z.calls == y.calls && m.run in Db(z).runs && DecisionShows(m, Db(z).runs[m.run])
      && HoldsCall(Db(z).runs[m.run].q, c, t.name, t.risk, key, args) && Db(z).runs[m.run].attempt == 0
      && Db(z).runs[m.run].status == (match outcome case Allow => Created case Deny => Denied case _ => PendingApproval)
      && (outcome == Allow ==> PcOf(z, w) == Claiming(m.run, args))
      && (outcome != Allow ==>
           PcOf(z, w).Returned? && Tells(PcOf(z, w).result, m.run, Db(z).runs[m.run], false))
  {
    hide Reached, Next, DecisionOf, IsBlank, Strip, SettledOn, DecisionShows, HoldsCall;
    var d := DecisionOf(m.decision);
    InvokeCreates(t, y, w, c, key, args, m);
    var y1 := Next(y, StepLabel.Invoke(w, m.run, c, t.name, t.risk, key, args, m.created));
    PolicySettles(t, y1, w, m.run, args, m, outcome);
    DecidedSkipsSweeps(y1, w, d, t.approvalTtl, m);
    var y2 := Next(y1, DecidePolicy(w, d, t.approvalTtl, m.decided, m.decidedClock));
    if outcome == Allow {
      RestSkips(y2, w, d, t.approvalTtl, m);
    } else {
      ReadStep(y2, w, m.run, false);
      ReadBackTells(y2, w);
      NextCalls(y2, ReadBack(w));
    }
  }

  /** A first call whose policy does not allow it, raises, or cannot be written, never enters protected
      code: the run stands denied or waiting for approval, and that is what the caller is told. */
  lemma NotAllowedNotEntered(
    t: TrustedAction, y: Sys, w: nat, c: Context, key: string, args: map<string, Json>, m: Meets)
    requires FirstCall(t, y, w, c, key, m)
    requires m.decision.Decides? ==> m.decision.d.outcome != Allow
    ensures
      var z := t.Executed(t.Prepared(y, w, c, key, args, m), w, m);
      var waits := m.decision.Decides? && m.decision.d.outcome == ApprovalRequired;
      && z.calls == y.calls && m.run in Db(z).runs && DecisionShows(m, Db(z).runs[m.run])
      && HoldsCall(Db(z).runs[m.run].q, c, t.name, t.risk, key, args)
      && Db(z).runs[m.run].status == (if waits then PendingApproval else Denied)
      && PcOf(z, w).Returned? && Tells(PcOf(z, w).result, m.run, Db(z).runs[m.run], false)
      && PcOf(z, w).result.status == (if waits then PendingApproval else Denied)
  {
    hide Reached, Next, DecisionShows, HoldsCall, FirstCall;
    var outcome := if m.decision.Decides? then m.decision.d.outcome else Deny;
    PreparedTells(t, y, w, c, key, args, m, outcome);
    hide t.Prepared, t.Executed;
    t.DoneStays(t.Prepared(y, w, c, key, args, m), w, m);
  }

  // ---- The claim and what follows ----

  lemma ClaimIsCall(
    y: Sys, w: nat, r: RunId, args: map<string, Json>, owner: string, seconds: int, now: Time, clock: Clock)
    requires PcOf(y, w) == Claiming(r, args)
    ensures
      var z := Next(y, Claim(w, owner, seconds, now, clock));
      var (t, reply) := ClaimExecution(Db(y), r, owner, seconds, now, clock);
      && Db(z) == t && z.calls == y.calls && |z.ops| == |y.ops| + 1
      && (reply == Flag(true) ==> PcOf(z, w) == Claimed(r, owner, args, |y.ops|))
      && (reply == Flag(false) ==> PcOf(z, w) == Reading(r, true))
      && (reply.Raised? ==> PcOf(z, w) == Aborted(reply.error))
  {
    hide Reached, ClaimExecution;
    CommitTables(y, OpClaim(r, owner, seconds, now, clock), w);
  }

  /** The run as the claim leaves it: executing for this owner, and otherwise as it was. */
  predicate Won(s: State, t: State, r: RunId, owner: string) {
    && r in s.runs && r in t.runs
    && t.runs[r].status == Executing && t.runs[r].owner == Some(owner) && t.runs[r].attempt == 1
    && t.runs[r].q == s.runs[r].q && t.runs[r].version == s.runs[r].version
  }

  lemma ClaimWon(
    y: Sys, w: nat, r: RunId, args: map<string, Json>, owner: string, seconds: int, now: Time, clock: Clock)
    requires PcOf(y, w) == Claiming(r, args) && r in Db(y).runs
    requires Db(y).runs[r].status == Approved || (Db(y).runs[r].status == Created && Db(y).runs[r].version.Some?)
    requires !IsBlank(owner) && 1 <= seconds <= 86400
    ensures
      var z := Next(y, Claim(w, owner, seconds, now, clock));
      && PcOf(z, w) == Claimed(r, owner, args, |y.ops|) && z.calls == y.calls && |z.ops| == |y.ops| + 1
      && Won(Db(y), Db(z), r, owner)
  {
    hide Reached, Inv, Trail, Grew, OthersSame, Next, ClaimExecution, IsBlank;
    ClaimIsCall(y, w, r, args, owner, seconds, now, clock);
    ReachedInv(y.ops);
    ClaimEffect(Db(y), r, owner, seconds, now, clock);
  }

  /** From a won claim: one entry with the stored arguments, then the report, then the answer, which tells how the
      function ended. */
  lemma ConcludedTells(t: TrustedAction, y: Sys, w: nat, r: RunId, args: map<string, Json>, claim: nat, m: Meets)
    requires PcOf(y, w) == Claimed(r, m.owner, args, claim) && r in Db(y).runs
    requires Db(y).runs[r].status == Executing && Db(y).runs[r].owner == Some(m.owner)
    ensures
      var z := t.Concluded(y, w, m);
      && z.calls == y.calls + [Call(w, r, m.owner, args, claim, |y.ops|)]
      && r in Db(z).runs && EndedAs(Db(z).runs[r], m.outcome)
      && Db(z).runs[r].q == Db(y).runs[r].q && Db(z).runs[r].version == Db(y).runs[r].version
      && Db(z).runs[r].attempt == Db(y).runs[r].attempt
      && PcOf(z, w).Returned? && Tells(PcOf(z, w).result, r, Db(z).runs[r], false)
  {
    hide Reached, Next, Tells, EndedAs;
    EnterLeave(y, w, r, args, claim, m);
    var u := Next(Next(y, Enter(w)), Leave(w, m.outcome));
    OwnReport(u, w, r, m);
    var v := Next(u, StepLabel.Finish(w, m.finished, m.finishedClock));
    ReportEnds(u, w, m.finished, m.finishedClock);
    NextCalls(u, StepLabel.Finish(w, m.finished, m.finishedClock));
    NextCalls(v, ReadBack(w));
    ReadStep(v, w, r, false);
    ReadBackTells(v, w);
  }

  lemma EnterLeave(y: Sys, w: nat, r: RunId, args: map<string, Json>, claim: nat, m: Meets)
    requires PcOf(y, w) == Claimed(r, m.owner, args, claim)
    ensures
      var u := Next(Next(y, Enter(w)), Leave(w, m.outcome));
      && Db(u) == Db(y) && PcOf(u, w) == Finishing(r, m.owner, m.outcome)
      && u.calls == y.calls + [Call(w, r, m.owner, args, claim, |y.ops|)]
  {
    hide Reached;
  }

  lemma OwnReport(u: Sys, w: nat, r: RunId, m: Meets)
    requires PcOf(u, w) == Finishing(r, m.owner, m.outcome) && r in Db(u).runs
    requires Db(u).runs[r].status == Executing && Db(u).runs[r].owner == Some(m.owner)
    ensures
      var v := Next(u, StepLabel.Finish(w, m.finished, m.finishedClock));
      && PcOf(v, w) == Reading(r, false) && r in Db(v).runs && Db(v).runs[r].q == Db(u).runs[r].q
      && Db(v).runs[r].version == Db(u).runs[r].version && Db(v).runs[r].attempt == Db(u).runs[r].attempt
  {
    hide Reached, Inv, Trail, Grew, OthersSame, Next, FinishExecution;
    FinishIsCall(u, w, m.finished, m.finishedClock);
    var how := match m.outcome
      case Value(v, ok) => if ok then Complete(v) else Uncertain("ResultSerializationError")
      case Indeterminate(e) => Uncertain(e)
      case Failure(e) => Fail(e);
    ReachedInv(u.ops);
    FinishEffect(Db(u), r, m.owner, how, m.finished, m.finishedClock);
  }

  /** A claimable run that its worker sets out to execute, with nobody in between: exactly one entry, and the answer. */
  lemma ExecutedTells(t: TrustedAction, y: Sys, w: nat, r: RunId, args: map<string, Json>, m: Meets)
    requires PcOf(y, w) == Claiming(r, args) && r in Db(y).runs
    requires Db(y).runs[r].status == Approved || (Db(y).runs[r].status == Created && Db(y).runs[r].version.Some?)
    requires !IsBlank(m.owner) && 1 <= t.leaseSeconds <= 86400
    ensures
      var z := t.Executed(y, w, m);
      && z.calls == y.calls + [Call(w, r, m.owner, args, |y.ops|, |y.ops| + 1)]
      && r in Db(z).runs && EndedAs(Db(z).runs[r], m.outcome) && Db(z).runs[r].attempt == 1
      && Db(z).runs[r].q == Db(y).runs[r].q && Db(z).runs[r].version == Db(y).runs[r].version
      && PcOf(z, w).Returned? && Tells(PcOf(z, w).result, r, Db(z).runs[r], false)
  {
    hide Reached, Next, Tells, EndedAs, IsBlank, t.Concluded;
    ClaimWon(y, w, r, args, m.owner, t.leaseSeconds, m.claimed, m.claimedClock);
    var u := Next(y, Claim(w, m.owner, t.leaseSeconds, m.claimed, m.claimedClock));
    ConcludedTells(t, u, w, r, args, |y.ops|, m);
  }

  /** A first call that the policy allows enters protected code once, with the caller's arguments, and the caller is
      told how the function ended: completed with its value exactly when it returned one that can be stored. */
  lemma AllowedEntersOnce(
    t: TrustedAction, y: Sys, w: nat, c: Context, key: string, args: map<string, Json>, m: Meets)
    requires FirstCall(t, y, w, c, key, m) && m.decision.Decides? && m.decision.d.outcome == Allow
    requires !IsBlank(m.owner) && 1 <= t.leaseSeconds <= 86400
    ensures
      var z := t.Executed(t.Prepared(y, w, c, key, args, m), w, m);
      && |z.calls| == |y.calls| + 1 && y.calls <= z.calls
      && z.calls[|y.calls|].(claim := 0, entered := 0) == Call(w, m.run, m.owner, args, 0, 0)
      && m.run in Db(z).runs && EndedAs(Db(z).runs[m.run], m.outcome) && Db(z).runs[m.run].attempt == 1
      && HoldsCall(Db(z).runs[m.run].q, c, t.name, t.risk, key, args)
      && PcOf(z, w).Returned? && Tells(PcOf(z, w).result, m.run, Db(z).runs[m.run], false)
      && PcOf(z, w).result.status == (match m.outcome
           case Value(_, true) => Completed
           case Failure(_) => Failed
           case _ => Unknown)
      && (m.outcome.Value? && m.outcome.serializable ==> PcOf(z, w).result.value == m.outcome.result)
  {
    hide Reached, Next, HoldsCall, FirstCall, IsBlank, t.Prepared, t.Executed;
    PreparedTells(t, y, w, c, key, args, m, Allow);
    ExecutedTells(t, t.Prepared(y, w, c, key, args, m), w, m.run, args, m);
  }

  // ---- Resuming ----

  /** Resuming an approved run of the action enters protected code once, with the arguments its first caller gave, and
      tells how the function ended. */
  lemma ApprovedResumes(t: TrustedAction, y: Sys, w: nat, r: RunId, m: Meets)
    requires PcOf(y, w) == Idle && r in Db(y).runs
    requires Db(y).runs[r].q.action == t.name && Db(y).runs[r].status == Approved
    requires !IsBlank(m.owner) && 1 <= t.leaseSeconds <= 86400
    ensures
      var z := t.Executed(Next(y, StepLabel.Resume(w, r, t.name)), w, m);
      && z.calls == y.calls + [Call(w, r, m.owner, Db(y).runs[r].q.args, |y.ops|, |y.ops| + 1)]
      && r in Db(z).runs && EndedAs(Db(z).runs[r], m.outcome)
      && Db(z).runs[r].q == Db(y).runs[r].q && Db(z).runs[r].version == Db(y).runs[r].version
      && PcOf(z, w).Returned? && Tells(PcOf(z, w).result, r, Db(z).runs[r], false)
  {
    hide Reached, EndedAs, Tells, IsBlank, t.Executed;
    var u := Next(y, StepLabel.Resume(w, r, t.name));
    hide Next;
    ExecutedTells(t, u, w, r, Db(y).runs[r].q.args, m);
  }

  /** Resuming any other run of the action, but a completed one, is refused; nothing is entered and no table moves. */
  lemma NotApprovedNotResumed(t: TrustedAction, y: Sys, w: nat, r: RunId, m: Meets)
    requires PcOf(y, w) == Idle && r in Db(y).runs && Db(y).runs[r].q.action == t.name
    requires Db(y).runs[r].status !in {Approved, Completed}
    ensures
      var z := t.Executed(Next(y, StepLabel.Resume(w, r, t.name)), w, m);
      z.calls == y.calls && z.ops == y.ops && PcOf(z, w) == Aborted(ValueError)
  {
    hide Reached, t.Executed;
    var u := Next(y, StepLabel.Resume(w, r, t.name));
    hide Next;
    t.DoneStays(u, w, m);
  }

  // ---- Answers over time ----

  /** Worker `v` is given its answer by this step. */
  predicate Told(y: Sys, step: StepLabel, v: nat) { PcOf(Next(y, step), v).Returned? && !PcOf(y, v).Returned? }

  /** Told an ended run's fate by one step, a worker or any other is told the same at every later time: the answers
      differ in nothing but whether they call themselves duplicates. */
  lemma EndedAnswersAgree(y: Sys, step: StepLabel, v: nat, z: Sys, later: StepLabel, u: nat)
    requires y.ops <= z.ops && Told(y, step, v) && Told(z, later, u)
    requires PcOf(Next(z, later), u).result.run == PcOf(Next(y, step), v).result.run
    requires Terminal(PcOf(Next(y, step), v).result.status)
    ensures
      var first, second := PcOf(Next(y, step), v).result, PcOf(Next(z, later), u).result;
      second == first.(duplicate := second.duplicate)
  {
    hide Reached, Next, RowMoves;
    AnswerSource(y, step, v);
    AnswerSource(z, later, u);
    EndedRowStays(y.ops, z.ops, PcOf(Next(y, step), v).result.run);
  }

  lemma EndedRowStays(ops: seq<Op>, more: seq<Op>, r: RunId)
    requires ops <= more && r in Reached(ops).runs && Terminal(Reached(ops).runs[r].status)
    ensures r in Reached(more).runs
    ensures var a, b := Reached(ops).runs[r], Reached(more).runs[r]; b == a.(duplicates := b.duplicates)
  {
    hide Reached;
    assert more[..|ops|] == ops;
    AtMostFiveChanges(more, r, |ops|);
  }

  /** Once a worker's report of a returned value was taken, every answer about its run, to anyone and at any later time,
      says completed and carries that value. */
  lemma RecordedValueIsTold(y: Sys, w: nat, now: Time, clock: Clock, v: Option<Json>, z: Sys, later: StepLabel, u: nat)
    requires PcOf(y, w).Finishing? && PcOf(y, w).outcome == Value(v, true)
    requires PcOf(Next(y, StepLabel.Finish(w, now, clock)), w).Reading?
    requires Next(y, StepLabel.Finish(w, now, clock)).ops <= z.ops && Told(z, later, u)
    requires PcOf(Next(z, later), u).result.run == PcOf(y, w).run
    ensures
      var x := PcOf(Next(z, later), u).result;
      x.status == Completed && x.value == v && x.reason == None
  {
    hide Reached, Next;
    ReportEnds(y, w, now, clock);
    AnswerSource(z, later, u);
    EndedRowStays(Next(y, StepLabel.Finish(w, now, clock)).ops, z.ops, PcOf(y, w).run);
  }

  // ---- Repeating a call ----

  /** The key already belongs to a run, made for the same request or for another. */
  ghost predicate KeyTaken(t: TrustedAction, y: Sys, w: nat, c: Context, key: string, args: map<string, Json>,
                           found: RunId, same: bool)
  {
    && PcOf(y, w) == Idle && !IsBlank(key)
    && IdemKey(c.tenant, t.name, Strip(key)) in Db(y).index
    && Db(y).index[IdemKey(c.tenant, t.name, Strip(key))] == found
    && found in Db(y).runs
    && same == (Db(y).runs[found].q.fp
                  == RequestFingerprint(c.tenant, c.actor, c.roles, c.evidence, t.name, t.risk, args, c.metadata))
  }

  lemma InvokeFinds(t: TrustedAction, y: Sys, w: nat, c: Context, key: string, args: map<string, Json>, m: Meets,
                    found: RunId, same: bool)
    requires KeyTaken(t, y, w, c, key, args, found, same)
    ensures
      var z := Next(y, StepLabel.Invoke(w, m.run, c, t.name, t.risk, key, args, m.created));
      && Db(z) == Db(y) && z.calls == y.calls
      && PcOf(z, w) == if same then Expiring(found, c.tenant) else Aborted(IdempotencyConflict)
  {
    hide Reached, Inv, Trail, Grew, OthersSame, RequestFingerprint, CreateOrGet;
    var q := GovernedRequest(c, t.name, t.risk, key, args);
    InvokeStep(y, w, m.run, c, t.name, t.risk, key, args, m.created);
    NextCalls(y, StepLabel.Invoke(w, m.run, c, t.name, t.risk, key, args, m.created));
    hide Next;
    ReachedInv(y.ops);
    CreateEffect(Db(y), m.run, q, m.created);
    CommitTables(y, OpCreate(m.run, q, m.created), w);
  }

  /** Another request under a taken key is a conflict: nothing is entered and no table moves. */
  lemma ConflictIsRefused(t: TrustedAction, y: Sys, w: nat, c: Context, key: string, args: map<string, Json>, m: Meets,
                          found: RunId)
    requires KeyTaken(t, y, w, c, key, args, found, false)
    ensures
      var z := t.Executed(t.Prepared(y, w, c, key, args, m), w, m);
      z.calls == y.calls && Db(z) == Db(y) && PcOf(z, w) == Aborted(IdempotencyConflict)
  {
    hide Reached, Next, DecisionOf, t.Executed, KeyTaken;
    InvokeFinds(t, y, w, c, key, args, m, found, false);
    var z := Next(y, StepLabel.Invoke(w, m.run, c, t.name, t.risk, key, args, m.created));
    RestSkips(z, w, DecisionOf(m.decision), t.approvalTtl, m);
    t.DoneStays(z, w, m);
  }

  /** Where the sweeps of a duplicate leave a run. */
  function AfterSweeps(s: State, r: RunId, tenant: string, m: Meets): Status
    requires r in s.runs
  {
    if r in m.scanApprovals && ApprovalOverdue(s, r, Some(tenant), m.swept) then ApprovalExpired
    else if r in m.scanLeases && LeaseOverdue(s, r, Some(tenant), m.recovered) then Unknown
    else s.runs[r].status
  }

  lemma ApprovalSweepLeaves(s: State, r: RunId, tenant: string, m: Meets)
    requires Inv(s) && r in s.runs
    ensures
      var (t, reply) := ExpireApprovals(s, m.scanApprovals, Some(tenant), m.swept, m.sweptClock);
      && reply.Ids? && Inv(t) && r in t.runs
      && t.runs[r].q == s.runs[r].q && t.runs[r].duplicates == s.runs[r].duplicates
      && if r in m.scanApprovals && ApprovalOverdue(s, r, Some(tenant), m.swept)
         then t.runs[r].status == ApprovalExpired
         else t.runs[r] == s.runs[r]
  {
    hide Inv, Trail, Quiet, Evolves, ExpireApprovals, Grew;
    ExpireMoves(s, m.scanApprovals, Some(tenant), m.swept, m.sweptClock);
    ExpireEffect(s, m.scanApprovals, Some(tenant), m.swept, m.sweptClock);
    var (t, reply) := ExpireApprovals(s, m.scanApprovals, Some(tenant), m.swept, m.sweptClock);
    if r in reply.ids {
      var k :| 0 <= k < |reply.ids| && reply.ids[k] == r;
      assert Lapses(s, t, reply.ids[k], m.swept, m.sweptClock(k));
    } else {
      assert Untouched(s, t, r);
    }
  }

  lemma LeaseSweepLeaves(s: State, r: RunId, tenant: string, m: Meets)
    requires Inv(s) && r in s.runs
    ensures
      var t := RecoverExpired(s, m.scanLeases, Some(tenant), m.recovered, m.recoveredClock).0;
      && r in t.runs && t.runs[r].q == s.runs[r].q && t.runs[r].duplicates == s.runs[r].duplicates
      && if r in m.scanLeases && LeaseOverdue(s, r, Some(tenant), m.recovered) then t.runs[r].status == Unknown
         else t.runs[r] == s.runs[r]
  {
    hide Inv, Trail, Quiet, Evolves, RecoverExpired, Grew;
    RecoverMoves(s, m.scanLeases, Some(tenant), m.recovered, m.recoveredClock);
    RecoverEffect(s, m.scanLeases, Some(tenant), m.recovered, m.recoveredClock);
    var (t, reply) := RecoverExpired(s, m.scanLeases, Some(tenant), m.recovered, m.recoveredClock);
    if r in reply.ids {
      var k :| 0 <= k < |reply.ids| && reply.ids[k] == r;
      assert TakenAway(s, t, reply.ids[k], m.recovered, m.recoveredClock(k));
    } else {
      assert Untouched(s, t, r);
    }
  }

  lemma SweepsLeave(s: State, r: RunId, tenant: string, m: Meets)
    requires Inv(s) && r in s.runs
    ensures
      var (s2, reply) := ExpireApprovals(s, m.scanApprovals, Some(tenant), m.swept, m.sweptClock);
      var s3 := RecoverExpired(s2, m.scanLeases, Some(tenant), m.recovered, m.recoveredClock).0;
      && reply.Ids? && r in s3.runs && s3.runs[r].status == AfterSweeps(s, r, tenant, m)
      && s3.runs[r].q == s.runs[r].q && s3.runs[r].duplicates == s.runs[r].duplicates
      && (s3.runs[r].status == s.runs[r].status ==> s3.runs[r] == s.runs[r])
  {
    hide Inv, Trail, ExpireApprovals, RecoverExpired;
    ApprovalSweepLeaves(s, r, tenant, m);
    var s2 := ExpireApprovals(s, m.scanApprovals, Some(tenant), m.swept, m.sweptClock).0;
    LeaseSweepLeaves(s2, r, tenant, m);
  }

  /** The same request under a taken key enters nothing. It runs the two sweeps of the caller's tenant, counts itself on
      the run, and answers, as a duplicate, with the run as the sweeps left it. */
  lemma DuplicateTells(t: TrustedAction, y: Sys, w: nat, c: Context, key: string, args: map<string, Json>, m: Meets,
                       found: RunId)
    requires KeyTaken(t, y, w, c, key, args, found, true)
    ensures
      var z := t.Executed(t.Prepared(y, w, c, key, args, m), w, m);
      var was := Db(y).runs[found];
      && z.calls == y.calls && found in Db(z).runs && Db(z).runs[found].q == was.q
      && Db(z).runs[found].status == AfterSweeps(Db(y), found, c.tenant, m)
      && Db(z).runs[found].duplicates == was.duplicates + 1
      && (Db(z).runs[found].status == was.status ==> Db(z).runs[found] == was.(duplicates := was.duplicates + 1))
      && PcOf(z, w).Returned? && Tells(PcOf(z, w).result, found, Db(z).runs[found], true)
  {
    hide Reached, Next, DecisionOf, t.Executed, AfterSweeps;
    InvokeFinds(t, y, w, c, key, args, m, found, true);
    var y1 := Next(y, StepLabel.Invoke(w, m.run, c, t.name, t.risk, key, args, m.created));
    DuplicateSkipsPolicy(y1, w, DecisionOf(m.decision), t.approvalTtl, m);
    SweepsAndCount(y1, w, found, c.tenant, m);
    var y5 := Counted(y1, w, m);
    NextCalls(y5, ReadBack(w));
    ReadStep(y5, w, found, true);
    ReadBackTells(y5, w);
    t.DoneStays(Next(y5, ReadBack(w)), w, m);
  }

  ghost function Counted(y: Sys, w: nat, m: Meets): Sys {
    var y3 := Next(y, SweepApprovals(w, m.scanApprovals, m.swept, m.sweptClock));
    var y4 := Next(y3, SweepLeases(w, m.scanLeases, m.recovered, m.recoveredClock));
    Next(y4, CountDuplicate(w))
  }

  lemma SweepsAndCount(y: Sys, w: nat, r: RunId, tenant: string, m: Meets)
    requires PcOf(y, w) == Expiring(r, tenant) && r in Db(y).runs
    ensures
      var z, was := Counted(y, w, m), Db(y).runs[r];
      && z.calls == y.calls && PcOf(z, w) == Reading(r, true) && r in Db(z).runs
      && Db(z).runs[r].q == was.q && Db(z).runs[r].status == AfterSweeps(Db(y), r, tenant, m)
      && Db(z).runs[r].duplicates == was.duplicates + 1
      && (Db(z).runs[r].status == was.status ==> Db(z).runs[r] == was.(duplicates := was.duplicates + 1))
  {
    hide Reached, Inv, ExpireApprovals, RecoverExpired, AfterSweeps, Next;
    ReachedInv(y.ops);
    SweepsLeave(Db(y), r, tenant, m);
    SweepCalls(y, w, r, tenant, m);
  }

  lemma SweepCalls(y: Sys, w: nat, r: RunId, tenant: string, m: Meets)
    requires PcOf(y, w) == Expiring(r, tenant)
    ensures
      var (s2, reply) := ExpireApprovals(Db(y), m.scanApprovals, Some(tenant), m.swept, m.sweptClock);
      var s3 := RecoverExpired(s2, m.scanLeases, Some(tenant), m.recovered, m.recoveredClock).0;
      var z := Counted(y, w, m);
      reply.Ids? && r in s3.runs ==>
        z.calls == y.calls && Db(z) == RecordDuplicate(s3, r).0 && PcOf(z, w) == Reading(r, true)
  {
    hide Reached, ExpireApprovals, RecoverExpired;
    var op3 := OpExpire(m.scanApprovals, Some(tenant), m.swept, m.sweptClock);
    CommitTables(y, op3, w);
    if Answer(y, op3).Ids? {
      var y3 := At(Commits(y, op3), w, Recovering(r, tenant));
      var op4 := OpRecover(m.scanLeases, Some(tenant), m.recovered, m.recoveredClock);
      CommitTables(y3, op4, w);
      CommitTables(At(Commits(y3, op4), w, Counting(r)), OpDuplicate(r), w);
    }
  }

  // ---- Reconciling ----

  lemma ReadOfTells(s: State, r: RunId, duplicate: bool)
    requires r in s.runs
    ensures ReadOf(s, r, duplicate).Returned? && Tells(ReadOf(s, r, duplicate).result, r, s.runs[r], duplicate)
  {
  }

  /** A qualified operator who concludes an unknown run is told the conclusion, the note without its padding, and the
      result; on a run that is not unknown the operator is refused and no table moves. */
  lemma ReconcileTells(
    t: TrustedAction, s: State, r: RunId, status: Status, note: string, result: Option<Json>, p: Principal, now: Time,
    clock: Clock)
    requires Inv(s) && MayResolve(t.reconciliationRoles, s, t.name, r, p)
    requires (status == Completed || status == Failed) && Strip(note) != ""
    ensures ReconcileGate(t.reconciliationRoles, s, t.name, r, status, note, p) == None
    ensures
      var (u, reply) := Apply(s, OpReconcile(r, status, Strip(note), result, p, now, clock));
      if s.runs[r].status == Unknown then
        && reply == Flag(true) && r in u.runs && ReadOf(u, r, false).Returned?
        && var x := ReadOf(u, r, false).result;
        && Tells(x, r, u.runs[r], false) && x.status == status && x.reason == Some(Strip(note)) && x.value == result
        && x.action == t.name && x.key == s.runs[r].q.key && x.attempt == s.runs[r].attempt
      else reply != Flag(true) && u == s
  {
    hide Inv, Trail, Grew, OthersSame, ReconcileRun, Strip, ReconcileGate;
    GatesOpen(t.reconciliationRoles, s, t.name, r, status, note, p);
    ReconcileEffect(s, r, status, Strip(note), result, p, now, clock);
    var u := ReconcileRun(s, r, status, Strip(note), result, p, now, clock).0;
    if r in u.runs { ReadOfTells(u, r, false); }
  }

  /** An operator whose lookup came back is told the run as the observation left it, as a duplicate exactly when the run
      was no longer unknown. */
  lemma LookupTells(
    t: TrustedAction, s: State, r: RunId, provider: string, probed: Probed, p: Principal, now: Time, clock: Clock)
    requires Inv(s) && r in s.runs && s.runs[r].q.tenant == p.tenant
    ensures
      var (u, reply) := Apply(s, OpObserve(r, ObservationFrom(provider, probed), p, now, clock));
      && !reply.Raised? && r in u.runs && ReadOf(u, r, reply != Flag(true)).Returned?
      && var x := ReadOf(u, r, reply != Flag(true)).result;
      && Tells(x, r, u.runs[r], s.runs[r].status != Unknown)
      && x.status == (if s.runs[r].status != Unknown then s.runs[r].status
                      else match probed.outcome
                        case Committed => Completed
                        case NotCommitted => Failed
                        case Pending => Unknown)
  {
    hide Inv, Trail, Grew, OthersSame, ObservationFrom, Commit;
    ObservationKeeps(provider, probed);
    ObserveEffect(s, r, ObservationFrom(provider, probed), p, now, clock);
    var u := ApplyObservation(s, r, ObservationFrom(provider, probed), p, now, clock).0;
    ReadOfTells(u, r, s.runs[r].status != Unknown);
  }
}
