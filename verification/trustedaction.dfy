/** A trusted action as the object that drives the ledger: invoke, resume and execute in program order.

    Each method is one schedule of the worker protocol of module Runtime: its contract names the protocol state it
    ends in, so what is proved there of every interleaving holds of these methods. */
module TrustedActions {
  import opened Text
  import opened Models
  import opened Trails
  import opened LedgerSpec
  import opened Histories
  import opened Ledger
  import opened Runtime
  import opened Operators

  /** What one pass through the action meets outside itself: fresh names, clock samples, the engine's table orders,
      the policy's answer and what the protected function comes to. */
  datatype Meets = Meets(
    run: RunId, created: Time, decision: Evaluation, decided: Time, decidedClock: Clock,
    scanApprovals: seq<RunId>, swept: Time, sweptClock: Clock,
    scanLeases: seq<RunId>, recovered: Time, recoveredClock: Clock,
    owner: string, claimed: Time, claimedClock: Clock, outcome: FnResult, finished: Time, finishedClock: Clock)

  /** A policy answers, raises, or answers with something that the ledger fails to write down. */
  datatype Evaluation = Decides(d: Decision) | Raises(errorType: string) | Unwritable(errorType: string)

  /** A policy that raises, or whose answer cannot be written, denies. */
  function DecisionOf(e: Evaluation): Decision {
    match e
    case Decides(d) => d
    case Raises(name) =>
      Decision(Deny, "policy evaluation failed: " + name, "policy-error", map["error_type" := JStr(name)], None)
    case Unwritable(name) =>
      var reason := "policy decision could not be serialized: " + name;
      Decision(Deny, reason, "policy-error", map["error_type" := JStr(name)], None)
  }

  /** Committing a call and moving one worker leaves the tables that call leaves. */
  lemma CommitTables(y: Sys, op: Op, w: nat)
    ensures forall pc {:trigger At(Commits(y, op), w, pc)} ::
      Db(At(Commits(y, op), w, pc)) == Apply(Db(y), op).0 && PcOf(At(Commits(y, op), w, pc), w) == pc
  {
    hide Apply;
    assert (y.ops + [op])[..|y.ops|] == y.ops;
  }

  /** A worker that has its answer, or is about to claim, takes no part in the rest of an invocation. */
  lemma RestSkips(y: Sys, w: nat, d: Decision, ttl: int, m: Meets)
    requires PcOf(y, w).Returned? || PcOf(y, w).Aborted? || PcOf(y, w).Claiming?
    ensures Next(y, DecidePolicy(w, d, ttl, m.decided, m.decidedClock)) == y
    ensures Next(y, SweepApprovals(w, m.scanApprovals, m.swept, m.sweptClock)) == y
    ensures Next(y, SweepLeases(w, m.scanLeases, m.recovered, m.recoveredClock)) == y
    ensures Next(y, CountDuplicate(w)) == y && Next(y, ReadBack(w)) == y
  {
  }

  lemma DuplicateSkipsPolicy(y: Sys, w: nat, d: Decision, ttl: int, m: Meets)
    requires PcOf(y, w).Expiring?
    ensures Next(y, DecidePolicy(w, d, ttl, m.decided, m.decidedClock)) == y
  {
  }

  lemma DecidedSkipsSweeps(y: Sys, w: nat, d: Decision, ttl: int, m: Meets)
    requires PcOf(y, w).Deciding?
    ensures
      var z := Next(y, DecidePolicy(w, d, ttl, m.decided, m.decidedClock));
      && Next(z, SweepApprovals(w, m.scanApprovals, m.swept, m.sweptClock)) == z
      && Next(z, SweepLeases(w, m.scanLeases, m.recovered, m.recoveredClock)) == z
      && Next(z, CountDuplicate(w)) == z
  {
    hide Reached, Answer;
  }

  lemma InvokeStep(y: Sys, w: nat, r: RunId, c: Context, action: string, risk: string, key: string,
                   args: map<string, Json>, now: Time)
    requires PcOf(y, w) == Idle
    ensures
      var op := OpCreate(r, GovernedRequest(c, action, risk, key, args), now);
      Next(y, StepLabel.Invoke(w, r, c, action, risk, key, args, now)) ==
        if IsBlank(key) then At(y, w, Aborted(ValueError))
        else At(Commits(y, op), w,
          match Answer(y, op)
          case Fetched(found, created) => if created then Deciding(found, args) else Expiring(found, c.tenant)
          case Raised(error) => Aborted(error)
          case _ => Aborted(RuntimeError))
  {
    hide Reached, Apply, RequestFingerprint;
  }

  lemma ClaimingStep(
    y: Sys, w: nat, r: RunId, args: map<string, Json>, owner: string, seconds: int, now: Time, clock: Clock)
    requires PcOf(y, w) == Claiming(r, args)
    ensures
      var op := OpClaim(r, owner, seconds, now, clock);
      Next(y, Claim(w, owner, seconds, now, clock)) == At(Commits(y, op), w,
        match Answer(y, op)
        case Flag(yes) => if yes then Claimed(r, owner, args, |y.ops|) else Reading(r, true)
        case Raised(error) => Aborted(error)
        case _ => Aborted(RuntimeError))
  {
    hide Reached, Apply;
  }

  lemma EnterLeaveFinish(y: Sys, w: nat, r: RunId, args: map<string, Json>, claim: nat, m: Meets)
    requires PcOf(y, w) == Claimed(r, m.owner, args, claim)
    ensures
      var z := Next(Next(y, Enter(w)), Leave(w, m.outcome));
      var op := OpFinish(r, m.owner, FinishOf(m.outcome), m.finished, m.finishedClock);
      && Db(z) == Db(y)
      && Next(z, StepLabel.Finish(w, m.finished, m.finishedClock))
           == At(Commits(z, op), w, if Answer(z, op).Raised? then Aborted(Answer(z, op).error) else Reading(r, false))
  {
    hide Reached, Apply;
  }

  lemma ExecuteSkips(y: Sys, w: nat, m: Meets)
    requires PcOf(y, w).Returned? || PcOf(y, w).Aborted? || PcOf(y, w).Reading?
    ensures Next(y, Enter(w)) == y && Next(y, Leave(w, m.outcome)) == y
    ensures Next(y, StepLabel.Finish(w, m.finished, m.finishedClock)) == y
    ensures !PcOf(y, w).Reading? ==> Next(y, ReadBack(w)) == y
  {
  }

  lemma ReadStep(y: Sys, w: nat, r: RunId, duplicate: bool)
    requires PcOf(y, w) == Reading(r, duplicate)
    ensures Next(y, ReadBack(w)) == At(y, w, ReadBackPc(y, r, duplicate))
    ensures Db(Next(y, ReadBack(w))) == Db(y)
  {
  }

  function ReadOf(s: State, r: RunId, duplicate: bool): Pc {
    if r in s.runs then Returned(ResultFromRun(r, s.runs[r], duplicate)) else Aborted(KeyError)
  }

  class TrustedAction {
    const ledger: SQLiteActionLedger
    const name: string
    const risk: string
    const leaseSeconds: int
    const approvalTtl: int

    const reconciliationRoles: seq<string>

    constructor (ledger: SQLiteActionLedger, name: string, risk: string, leaseSeconds: int, approvalTtl: int,
                 reconciliationRoles: seq<string>)
      requires !IsBlank(name) && !IsBlank(risk) && 1 <= leaseSeconds <= 86400 && 1 <= approvalTtl <= 604800
      requires Normalize(reconciliationRoles) != []
      ensures this.ledger == ledger && this.name == Strip(name) && this.risk == Strip(risk)
      ensures this.leaseSeconds == leaseSeconds && this.approvalTtl == approvalTtl
      ensures this.reconciliationRoles == Normalize(reconciliationRoles)
    {
      this.ledger, this.name, this.risk := ledger, Strip(name), Strip(risk);
      this.leaseSeconds, this.approvalTtl := leaseSeconds, approvalTtl;
      this.reconciliationRoles := Normalize(reconciliationRoles);
    }

    /** Worker `w` through `_prepare_invoke`; a step whose turn has not come does nothing. */
    ghost function Prepared(y: Sys, w: nat, c: Context, key: string, args: map<string, Json>, m: Meets): Sys {
      var y1 := Next(y, StepLabel.Invoke(w, m.run, c, name, risk, key, args, m.created));
      var y2 := Next(y1, DecidePolicy(w, DecisionOf(m.decision), approvalTtl, m.decided, m.decidedClock));
      var y3 := Next(y2, SweepApprovals(w, m.scanApprovals, m.swept, m.sweptClock));
      var y4 := Next(y3, SweepLeases(w, m.scanLeases, m.recovered, m.recoveredClock));
      var y5 := Next(y4, CountDuplicate(w));
      Next(y5, ReadBack(w))
    }

    /** Worker `w` through `_execute`. */
    ghost function Executed(y: Sys, w: nat, m: Meets): Sys {
      Concluded(Next(y, Claim(w, m.owner, leaseSeconds, m.claimed, m.claimedClock)), w, m)
    }

    /** From a won claim: enter the protected function, leave it, report, read back. */
    ghost function Concluded(y: Sys, w: nat, m: Meets): Sys {
      var y2 := Next(y, Enter(w));
      var y3 := Next(y2, Leave(w, m.outcome));
      var y4 := Next(y3, StepLabel.Finish(w, m.finished, m.finishedClock));
      Next(y4, ReadBack(w))
    }

    /** `_result_from_run(get_run(r))`. */
    method ReadRun(r: RunId, duplicate: bool) returns (pc: Pc)
      ensures pc == ReadOf(ledger.Tables(), r, duplicate)
    {
      if r !in ledger.runs { return Aborted(KeyError); }
      var run := ledger.runs[r];
      pc := Returned(ActionResult(r, run.q.action, run.status, run.q.key, run.version, run.reason, run.result,
                                  duplicate, run.attempt));
    }

    method PrepareInvoke(c: Context, key: string, args: map<string, Json>, m: Meets, ghost y: Sys, ghost w: nat)
      returns (pc: Pc)
      requires Db(y) == ledger.Tables() && PcOf(y, w) == Idle
      modifies ledger
      ensures Db(Prepared(y, w, c, key, args, m)) == ledger.Tables()
      ensures PcOf(Prepared(y, w, c, key, args, m), w) == pc
      ensures pc.Returned? || pc.Aborted? || pc.Claiming?
    {
      hide Reached, Apply, RequestFingerprint, IsBlank, Next;
      InvokeStep(y, w, m.run, c, name, risk, key, args, m.created);
      if IsBlank(key) {
        pc := Aborted(ValueError);
        RestSkips(At(y, w, pc), w, DecisionOf(m.decision), approvalTtl, m);
        AtTables(y, w, pc);
        return;
      }
      var q := GovernedRequest(c, name, risk, key, args);
      var op1 := OpCreate(m.run, q, m.created);
      CommitTables(y, op1, w);
      var reply := ledger.CreateOrGetRun(m.run, q, m.created);
      if !reply.Fetched? {
        pc := if reply.Raised? then Aborted(reply.error) else Aborted(RuntimeError);
        RestSkips(At(Commits(y, op1), w, pc), w, DecisionOf(m.decision), approvalTtl, m);
        return;
      }
      var found := reply.run;
      if !reply.created {
        ghost var y1 := At(Commits(y, op1), w, Expiring(found, c.tenant));
        DuplicateSkipsPolicy(y1, w, DecisionOf(m.decision), approvalTtl, m);
        pc := AnswerDuplicate(found, c.tenant, m, At(Commits(y, op1), w, Expiring(found, c.tenant)), w);
        return;
      }
      DecidedSkipsSweeps(At(Commits(y, op1), w, Deciding(found, args)), w, DecisionOf(m.decision), approvalTtl, m);
      pc := RecordPolicy(found, args, m, At(Commits(y, op1), w, Deciding(found, args)), w);
    }

    /** Steps of a duplicate: the two sweeps, the count, the answer. */
    ghost function Swept(y: Sys, w: nat, m: Meets): Sys {
      var y3 := Next(y, SweepApprovals(w, m.scanApprovals, m.swept, m.sweptClock));
      var y4 := Next(y3, SweepLeases(w, m.scanLeases, m.recovered, m.recoveredClock));
      var y5 := Next(y4, CountDuplicate(w));
      Next(y5, ReadBack(w))
    }

    method AnswerDuplicate(found: RunId, tenant: string, m: Meets, ghost y: Sys, ghost w: nat) returns (pc: Pc)
      requires Db(y) == ledger.Tables() && PcOf(y, w) == Expiring(found, tenant)
      modifies ledger
      ensures Db(Swept(y, w, m)) == ledger.Tables()
      ensures PcOf(Swept(y, w, m), w) == pc
      ensures pc.Returned? || pc.Aborted?
    {
      hide Reached, Apply;
      ghost var op3 := OpExpire(m.scanApprovals, Some(tenant), m.swept, m.sweptClock);
      CommitTables(y, op3, w);
      var reply := ledger.ExpireApprovals(m.scanApprovals, Some(tenant), m.swept, m.sweptClock);
      if reply.Raised? { return Aborted(reply.error); }
      ghost var y3 := At(Commits(y, op3), w, Recovering(found, tenant));
      ghost var op4 := OpRecover(m.scanLeases, Some(tenant), m.recovered, m.recoveredClock);
      CommitTables(y3, op4, w);
      var _ := ledger.RecoverExpiredExecutions(m.scanLeases, Some(tenant), m.recovered, m.recoveredClock);
      ghost var y4 := At(Commits(y3, op4), w, Counting(found));
      CommitTables(y4, OpDuplicate(found), w);
      reply := ledger.RecordDuplicate(found);
      if reply.Raised? { return Aborted(reply.error); }
      pc := ReadRun(found, true);
    }

    ghost function DecidedThen(y: Sys, w: nat, m: Meets): Sys {
      var y2 := Next(y, DecidePolicy(w, DecisionOf(m.decision), approvalTtl, m.decided, m.decidedClock));
      Next(y2, ReadBack(w))
    }

    method RecordPolicy(found: RunId, args: map<string, Json>, m: Meets, ghost y: Sys, ghost w: nat) returns (pc: Pc)
      requires Db(y) == ledger.Tables() && PcOf(y, w) == Deciding(found, args)
      modifies ledger
      ensures Db(DecidedThen(y, w, m)) == ledger.Tables()
      ensures PcOf(DecidedThen(y, w, m), w) == pc
      ensures pc.Returned? || pc.Aborted? || pc.Claiming?
    {
      hide Reached, Apply;
      var d := DecisionOf(m.decision);
      CommitTables(y, OpPolicy(found, d, approvalTtl, m.decided, m.decidedClock), w);
      var reply := ledger.RecordPolicyDecision(found, d, approvalTtl, m.decided, m.decidedClock);
      if reply.Raised? { return Aborted(reply.error); }
      if d.outcome.Allow? { return Claiming(found, args); }
      pc := ReadRun(found, false);
    }

    method Execute(r: RunId, args: map<string, Json>, m: Meets, ghost y: Sys, ghost w: nat) returns (pc: Pc)
      requires Db(y) == ledger.Tables() && PcOf(y, w) == Claiming(r, args)
      modifies ledger
      ensures Db(Executed(y, w, m)) == ledger.Tables()
      ensures PcOf(Executed(y, w, m), w) == pc
      ensures pc.Returned? || pc.Aborted?
    {
      hide Reached, Apply, Next;
      ghost var op1 := OpClaim(r, m.owner, leaseSeconds, m.claimed, m.claimedClock);
      CommitTables(y, op1, w);
      ClaimingStep(y, w, r, args, m.owner, leaseSeconds, m.claimed, m.claimedClock);
      var reply := ledger.ClaimExecution(r, m.owner, leaseSeconds, m.claimed, m.claimedClock);
      if !reply.Flag? {
        pc := if reply.Raised? then Aborted(reply.error) else Aborted(RuntimeError);
        ExecuteSkips(At(Commits(y, op1), w, pc), w, m);
        return;
      }
      if !reply.yes {
        ghost var z := At(Commits(y, op1), w, Reading(r, true));
        ExecuteSkips(z, w, m);
        ReadStep(z, w, r, true);
        pc := ReadRun(r, true);
        return;
      }
      pc := Conclude(r, args, m, At(Commits(y, op1), w, Claimed(r, m.owner, args, |y.ops|)), w);
    }

    method Conclude(r: RunId, args: map<string, Json>, m: Meets, ghost y: Sys, ghost w: nat) returns (pc: Pc)
      requires Db(y) == ledger.Tables() && PcOf(y, w).Claimed?
      requires PcOf(y, w) == Claimed(r, m.owner, args, PcOf(y, w).claim)
      modifies ledger
      ensures Db(Concluded(y, w, m)) == ledger.Tables()
      ensures PcOf(Concluded(y, w, m), w) == pc
      ensures pc.Returned? || pc.Aborted?
    {
      hide Reached, Apply, Next;
      var how := match m.outcome
        case Value(result, serializable) =>
          if serializable then Complete(result) else Uncertain("ResultSerializationError")
        case Indeterminate(error) => Uncertain(error)
        case Failure(error) => Fail(error);
      ghost var z := Next(Next(y, Enter(w)), Leave(w, m.outcome));
      ghost var op := OpFinish(r, m.owner, how, m.finished, m.finishedClock);
      EnterLeaveFinish(y, w, r, args, PcOf(y, w).claim, m);
      CommitTables(z, op, w);
      var reply := ledger.FinishExecution(r, m.owner, how, m.finished, m.finishedClock);
      if reply.Raised? {
        pc := Aborted(reply.error);
        ExecuteSkips(At(Commits(z, op), w, pc), w, m);
        return;
      }
      ReadStep(At(Commits(z, op), w, Reading(r, false)), w, r, false);
      pc := ReadRun(r, false);
    }

    /** `_prepare_resume`: a completed run is answered again; only an approved one goes on. */
    method PrepareResume(r: RunId, ghost y: Sys, ghost w: nat) returns (pc: Pc)
      requires Db(y) == ledger.Tables() && PcOf(y, w) == Idle
      ensures Next(y, StepLabel.Resume(w, r, name)) == At(y, w, pc)
      ensures
        pc.Returned? || pc.Aborted? || (pc.Claiming? && r in ledger.runs && pc == Claiming(r, ledger.runs[r].q.args))
    {
      hide Reached;
      if r !in ledger.runs { return Aborted(KeyError); }
      var run := ledger.runs[r];
      if run.q.action != name { return Aborted(ValueError); }
      if run.status == Completed { return Returned(ResultFromRun(r, run, true)); }
      if run.status != Approved { return Aborted(ValueError); }
      pc := Claiming(r, run.q.args);
    }

    method Resume(r: RunId, m: Meets, ghost y: Sys, ghost w: nat) returns (pc: Pc)
      requires Db(y) == ledger.Tables() && PcOf(y, w) == Idle
      modifies ledger
      ensures
        var z := Executed(Next(y, StepLabel.Resume(w, r, name)), w, m);
        Db(z) == ledger.Tables() && PcOf(z, w) == pc
      ensures pc.Returned? || pc.Aborted?
    {
      hide Reached, Next, Apply;
      pc := PrepareResume(r, y, w);
      ghost var z := Next(y, StepLabel.Resume(w, r, name));
      AtTables(y, w, pc);
      if pc.Claiming? { pc := Execute(r, pc.args, m, z, w); } else { DoneStays(z, w, m); }
    }

    /** One governed call from start to finish. */
    method Invoke(c: Context, key: string, args: map<string, Json>, m: Meets, ghost y: Sys, ghost w: nat)
      returns (pc: Pc)
      requires Db(y) == ledger.Tables() && PcOf(y, w) == Idle
      modifies ledger
      ensures
        var z := Executed(Prepared(y, w, c, key, args, m), w, m);
        Db(z) == ledger.Tables() && PcOf(z, w) == pc
      ensures pc.Returned? || pc.Aborted?
    {
      hide Reached, Next, Apply, Prepared, Executed;
      pc := PrepareInvoke(c, key, args, m, y, w);
      ghost var z := Prepared(y, w, c, key, args, m);
      if pc.Claiming? { pc := Execute(pc.run, pc.args, m, z, w); } else { DoneStays(z, w, m); }
    }

    /** An operator's own conclusion: refused at the gate with the tables as they were, or one ledger call. */
    method Reconcile(
      r: RunId, status: Status, note: string, result: Option<Json>, p: Principal, now: Time, clock: Clock)
      returns (pc: Pc)
      modifies ledger
      ensures
        var gate := ReconcileGate(reconciliationRoles, old(ledger.Tables()), name, r, status, note, p);
        var (t, reply) := Apply(old(ledger.Tables()), OpReconcile(r, status, Strip(note), result, p, now, clock));
        if gate.Some? then pc == Aborted(gate.value) && ledger.Tables() == old(ledger.Tables())
        else
          ledger.Tables() == t
          && pc == if reply == Flag(true) then ReadOf(t, r, false)
                   else if reply.Raised? then Aborted(reply.error) else Aborted(ValueError)
    {
      hide Apply, Commit, IsBlank, Strip, Shares;
      if status !in {Completed, Failed} || IsBlank(note) { return Aborted(ValueError); }
      if !Shares(reconciliationRoles, p.roles) { return Aborted(ApprovalDenied); }
      if r !in ledger.runs { return Aborted(KeyError); }
      if ledger.runs[r].q.action != name { return Aborted(ValueError); }
      if ledger.runs[r].q.tenant != p.tenant { return Aborted(ApprovalDenied); }
      var reply := ledger.ReconcileRun(r, status, Strip(note), result, p, now, clock);
      if reply.Raised? { return Aborted(reply.error); }
      if reply != Flag(true) { return Aborted(ValueError); }
      pc := ReadRun(r, false);
    }

    /** `_load_reconcilable_run`: what must hold before a provider is asked at all. */
    method LoadReconcilable(r: RunId, p: Principal) returns (error: Option<Error>)
      ensures error == LookupGate(reconciliationRoles, ledger.Tables(), name, r, p)
    {
      if !Shares(reconciliationRoles, p.roles) { return Some(ApprovalDenied); }
      if r !in ledger.runs { return Some(KeyError); }
      if ledger.runs[r].q.action != name { return Some(ValueError); }
      if ledger.runs[r].q.tenant != p.tenant { return Some(ApprovalDenied); }
      if ledger.runs[r].status != Unknown { return Some(ValueError); }
      error := None;
    }

    /** The ledger's half of `reconcile_from_provider`, once the probe has answered `o`. */
    method ApplyLookup(r: RunId, o: Observation, p: Principal, now: Time, clock: Clock) returns (pc: Pc)
      modifies ledger
      ensures
        var (t, reply) := Apply(old(ledger.Tables()), OpObserve(r, o, p, now, clock));
        && ledger.Tables() == t
        && pc == if reply.Raised? then Aborted(reply.error) else ReadOf(t, r, reply != Flag(true))
    {
      hide Apply, Commit;
      var reply := ledger.ApplyProviderObservation(r, o, p, now, clock);
      if reply.Raised? { return Aborted(reply.error); }
      pc := ReadRun(r, reply != Flag(true));
    }

    /** A worker that has its answer takes no part in execution. */
    lemma DoneStays(y: Sys, w: nat, m: Meets)
      requires PcOf(y, w).Returned? || PcOf(y, w).Aborted?
      ensures Executed(y, w, m) == y
    {
      hide Reached, Apply;
    }
  }

  lemma AtTables(y: Sys, w: nat, pc: Pc)
    ensures Db(At(y, w, pc)) == Db(y) && PcOf(At(y, w, pc), w) == pc
  {
    hide Reached;
  }

  // ---- Program order is one interleaving ----

  lemma OneMore(steps: seq<StepLabel>, step: StepLabel)
    ensures Runtime.Run(steps + [step]) == Next(Runtime.Run(steps), step)
  {
    hide Next;
    assert (steps + [step])[..|steps|] == steps;
  }

  lemma ExecuteIsARun(t: TrustedAction, done: seq<StepLabel>, w: nat, m: Meets) returns (steps: seq<StepLabel>)
    ensures done <= steps && Runtime.Run(steps) == t.Executed(Runtime.Run(done), w, m)
  {
    hide Next;
    var s1 := done + [Claim(w, m.owner, t.leaseSeconds, m.claimed, m.claimedClock)];
    OneMore(done, Claim(w, m.owner, t.leaseSeconds, m.claimed, m.claimedClock));
    var s2 := s1 + [Enter(w)];
    OneMore(s1, Enter(w));
    var s3 := s2 + [Leave(w, m.outcome)];
    OneMore(s2, Leave(w, m.outcome));
    var s4 := s3 + [StepLabel.Finish(w, m.finished, m.finishedClock)];
    OneMore(s3, StepLabel.Finish(w, m.finished, m.finishedClock));
    steps := s4 + [ReadBack(w)];
    OneMore(s4, ReadBack(w));
  }

  lemma PrepareIsARun(
    t: TrustedAction, done: seq<StepLabel>, w: nat, c: Context, key: string, args: map<string, Json>, m: Meets)
    returns (steps: seq<StepLabel>)
    ensures done <= steps && Runtime.Run(steps) == t.Prepared(Runtime.Run(done), w, c, key, args, m)
  {
    hide Next;
    var a := StepLabel.Invoke(w, m.run, c, t.name, t.risk, key, args, m.created);
    OneMore(done, a);
    var b := DecidePolicy(w, DecisionOf(m.decision), t.approvalTtl, m.decided, m.decidedClock);
    OneMore(done + [a], b);
    var s2 := done + [a] + [b];
    var d := SweepApprovals(w, m.scanApprovals, m.swept, m.sweptClock);
    OneMore(s2, d);
    var e := SweepLeases(w, m.scanLeases, m.recovered, m.recoveredClock);
    OneMore(s2 + [d], e);
    var s4 := s2 + [d] + [e];
    OneMore(s4, CountDuplicate(w));
    steps := s4 + [CountDuplicate(w)] + [ReadBack(w)];
    OneMore(s4 + [CountDuplicate(w)], ReadBack(w));
  }

  /** An invocation carried out in program order, after anything else whatever, ends in a state the interleaving machine
      reaches; so the worker-level theorems cover it. */
  lemma InvokeIsARun(
    t: TrustedAction, done: seq<StepLabel>, w: nat, c: Context, key: string, args: map<string, Json>, m: Meets)
    ensures exists steps: seq<StepLabel> ::
      done <= steps && Runtime.Run(steps) == t.Executed(t.Prepared(Runtime.Run(done), w, c, key, args, m), w, m)
  {
    hide Next, Runtime.Run;
    var prepared := PrepareIsARun(t, done, w, c, key, args, m);
    var steps := ExecuteIsARun(t, prepared, w, m);
  }
}
