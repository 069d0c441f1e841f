/** Whole runs of the ledger: any finite sequence of public calls, each with clock samples of its own. */
module Histories {
  import opened Text
  import opened Models
  import opened Trails
  import opened TrailFacts
  import opened LedgerSpec
  import opened LedgerProofs
  import opened LedgerSteps
  import opened LedgerSweeps

  /** Every public mutator of the ledger. */
  datatype Op =
    | OpCreate(run: RunId, q: Request, now: Time)
    | OpDuplicate(run: RunId)
    | OpPolicy(run: RunId, d: Decision, ttl: int, now: Time, clock: Clock)
    | OpDecide(run: RunId, approved: bool, p: Principal, note: string, required: seq<string>, allowSelf: bool,
               now: Time, clock: Clock)
    | OpExpire(scan: seq<RunId>, tenant: Option<string>, now: Time, clock: Clock)
    | OpClaim(run: RunId, owner: string, seconds: int, now: Time, clock: Clock)
    | OpHeartbeat(run: RunId, owner: string, seconds: int, now: Time)
    | OpFinish(run: RunId, owner: string, how: Finish, now: Time, clock: Clock)
    | OpRecover(scan: seq<RunId>, tenant: Option<string>, now: Time, clock: Clock)
    | OpReconcile(run: RunId, status: Status, reason: string, result: Option<Json>, p: Principal,
                  now: Time, clock: Clock)
    | OpObserve(run: RunId, o: Observation, p: Principal, now: Time, clock: Clock)

  function Apply(s: State, op: Op): (State, Reply) {
    match op
    case OpCreate(r, q, now) => CreateOrGet(s, r, q, now)
    case OpDuplicate(r) => RecordDuplicate(s, r)
    case OpPolicy(r, d, ttl, now, clock) => RecordPolicy(s, r, d, ttl, now, clock)
    case OpDecide(r, approved, p, note, required, allowSelf, now, clock) =>
      DecideApproval(s, r, approved, p, note, required, allowSelf, now, clock)
    case OpExpire(scan, tenant, now, clock) => ExpireApprovals(s, scan, tenant, now, clock)
    case OpClaim(r, owner, seconds, now, clock) => ClaimExecution(s, r, owner, seconds, now, clock)
    case OpHeartbeat(r, owner, seconds, now) => Heartbeat(s, r, owner, seconds, now)
    case OpFinish(r, owner, how, now, clock) => FinishExecution(s, r, owner, how, now, clock)
    case OpRecover(scan, tenant, now, clock) => RecoverExpired(s, scan, tenant, now, clock)
    case OpReconcile(r, status, reason, result, p, now, clock) =>
      ReconcileRun(s, r, status, reason, result, p, now, clock)
    case OpObserve(r, o, p, now, clock) => ApplyObservation(s, r, o, p, now, clock)
  }

  /** The ledger after a history. */
  function Reached(ops: seq<Op>): State {
    if ops == [] then Empty else Apply(Reached(ops[..|ops| - 1]), ops[|ops| - 1]).0
  }

  /** The call that wins a run's execution claim. */
  predicate Launches(s: State, op: Op) { op.OpClaim? && Apply(s, op).1 == Flag(true) }

  /** The call that grants a run's approval. */
  predicate Grants(s: State, op: Op) { op.OpDecide? && op.approved && Apply(s, op).1 == Flag(true) }

  lemma ApplyKeeps(s: State, op: Op)
    requires Inv(s)
    ensures Inv(Apply(s, op).0) && Evolves(s, Apply(s, op).0)
    ensures Launches(s, op) || SameAttempts(s, Apply(s, op).0)
    ensures Grants(s, op) || NoGrant(s, Apply(s, op).0)
  {
    hide Inv, Evolves, SameAttempts, NoGrant, OnlyRun, Trail, CreateOrGet, RecordDuplicate, RecordPolicy;
    hide DecideApproval, ExpireApprovals, ClaimExecution, Heartbeat, FinishExecution, RecoverExpired, ReconcileRun;
    hide ApplyObservation;
    match op
    case OpCreate(r, q, now) => CreateStep(s, r, q, now);
    case OpDuplicate(r) => DuplicateStep(s, r);
    case OpPolicy(r, d, ttl, now, clock) => PolicyStep(s, r, d, ttl, now, clock);
    case OpDecide(r, approved, p, note, required, allowSelf, now, clock) =>
      DecideStep(s, r, approved, p, note, required, allowSelf, now, clock);
    case OpExpire(scan, tenant, now, clock) => ExpireMoves(s, scan, tenant, now, clock);
    case OpClaim(r, owner, seconds, now, clock) => ClaimStep(s, r, owner, seconds, now, clock);
    case OpHeartbeat(r, owner, seconds, now) => HeartbeatStep(s, r, owner, seconds, now);
    case OpFinish(r, owner, how, now, clock) => FinishStep(s, r, owner, how, now, clock);
    case OpRecover(scan, tenant, now, clock) => RecoverMoves(s, scan, tenant, now, clock);
    case OpReconcile(r, status, reason, result, p, now, clock) =>
      ReconcileStep(s, r, status, reason, result, p, now, clock);
    case OpObserve(r, o, p, now, clock) => ObserveStep(s, r, o, p, now, clock);
  }

  lemma ReachedStep(ops: seq<Op>, n: nat)
    requires n < |ops|
    ensures Reached(ops[..n + 1]) == Apply(Reached(ops[..n]), ops[n]).0
  {
    assert ops[..n + 1][..n] == ops[..n];
  }

  lemma {:induction false} ReachedInv(ops: seq<Op>)
    ensures Inv(Reached(ops))
  {
    hide Apply;
    if ops == [] {
    } else {
      ReachedInv(ops[..|ops| - 1]);
      hide Inv;
      ApplyKeeps(Reached(ops[..|ops| - 1]), ops[|ops| - 1]);
    }
  }

  lemma {:induction false} ReachedEvolves(ops: seq<Op>, n: nat)
    requires n <= |ops|
    ensures Evolves(Reached(ops[..n]), Reached(ops))
  {
    hide Inv, Evolves, Apply;
    if n == |ops| {
      assert ops[..n] == ops;
      EvolvesReflexive(Reached(ops));
    } else {
      var m := |ops| - 1;
      ReachedEvolves(ops[..m], n);
      assert ops[..m][..n] == ops[..n];
      ReachedInv(ops[..m]);
      ApplyKeeps(Reached(ops[..m]), ops[m]);
      EvolvesTransitive(Reached(ops[..n]), Reached(ops[..m]), Reached(ops));
    }
  }

  /** Some history leads to these tables. */
  ghost predicate Arises(s: State) { exists ops: seq<Op> :: Reached(ops) == s }

  lemma ArisesInv(s: State)
    requires Arises(s)
    ensures Inv(s)
  {
    hide Reached, Inv;
    var ops: seq<Op> :| Reached(ops) == s;
    ReachedInv(ops);
  }

  // ---- Replay refinement ----

  /** In every reachable ledger, folding a run's trail gives back its status, policy, reason, owner, attempt and
      approval. */
  lemma ReplayRefinement(ops: seq<Op>, r: RunId)
    requires r in Reached(ops).runs
    ensures
      var s := Reached(ops);
      && Replay(Trail(s.events, r)) == Live(ViewOf(s.runs[r], ApprovalOf(s, r)))
      && Verified(r, Trail(s.events, r), s.runs[r].eventCount, s.runs[r].head)
  {
    ReachedInv(ops);
    hide Replay, Trail, Sealed, ViewOf, Indexed;
    assert RunFits(Reached(ops), r);
  }

  /** How often run `r` changed status over a history. */
  function StatusChanges(ops: seq<Op>, r: RunId): nat {
    if ops == [] then 0
    else
      var s, t := Reached(ops[..|ops| - 1]), Reached(ops);
      StatusChanges(ops[..|ops| - 1], r)
        + Bit(r in s.runs && r in t.runs && s.runs[r].status != t.runs[r].status)
  }

  lemma {:induction false} ChangesBelowRank(ops: seq<Op>, r: RunId)
    ensures r !in Reached(ops).runs ==> StatusChanges(ops, r) == 0
    ensures r in Reached(ops).runs ==> StatusChanges(ops, r) <= Rank(Reached(ops).runs[r].status)
  {
    if ops != [] {
      hide Apply, Trail;
      var init := ops[..|ops| - 1];
      ChangesBelowRank(init, r);
      ReachedEvolves(ops, |init|);
    }
  }

  /** A run changes status at most five times, and never leaves a terminal status. */
  lemma AtMostFiveChanges(ops: seq<Op>, r: RunId, n: nat)
    requires n <= |ops| && r in Reached(ops[..n]).runs
    ensures StatusChanges(ops, r) <= 5
    ensures r in Reached(ops).runs
    ensures
      var a, b := Reached(ops[..n]).runs[r], Reached(ops).runs[r];
      && (a.status == b.status || Rank(a.status) < Rank(b.status))
      && (Terminal(a.status) ==> b == a.(duplicates := b.duplicates))
  {
    hide StatusChanges, Reached, Trail;
    ChangesBelowRank(ops, r);
    ReachedEvolves(ops, n);
    assert RowMoves(Reached(ops[..n]).runs[r], Reached(ops).runs[r]);
  }

  // ---- At most one start ----

  function AttemptOf(s: State, r: RunId): nat { if r in s.runs then s.runs[r].attempt else 0 }

  /** Won claims of run `r` in a history. */
  function Starts(ops: seq<Op>, r: RunId): nat {
    if ops == [] then 0
    else
      var n := |ops| - 1;
      Starts(ops[..n], r) + Bit(ops[n].OpClaim? && ops[n].run == r && Launches(Reached(ops[..n]), ops[n]))
  }

  /** The attempt column is the number of won claims, and that is zero or one. */
  lemma {:induction false} AttemptIsStarts(ops: seq<Op>, r: RunId)
    ensures Starts(ops, r) == AttemptOf(Reached(ops), r) <= 1
  {
    hide Inv, Evolves, Apply, Trail, OnlyRun;
    if ops != [] {
      var n := |ops| - 1;
      AttemptIsStarts(ops[..n], r);
      ReachedInv(ops[..n]);
      var s, op := Reached(ops[..n]), ops[n];
      ApplyKeeps(s, op);
      if Launches(s, op) { ClaimMovesOne(s, op, r); } else { AttemptStays(s, op, r); }
    }
  }

  lemma ClaimMovesOne(s: State, op: Op, r: RunId)
    requires Inv(s) && Launches(s, op)
    ensures op.run in s.runs && AttemptOf(s, op.run) == 0
    ensures AttemptOf(Apply(s, op).0, r) == (if r == op.run then 1 else AttemptOf(s, r))
  {
    hide Inv, Evolves, Trail, ClaimExecution;
    ClaimStep(s, op.run, op.owner, op.seconds, op.now, op.clock);
  }

  lemma AttemptStays(s: State, op: Op, r: RunId)
    requires SameAttempts(s, Apply(s, op).0) && Evolves(s, Apply(s, op).0)
    ensures AttemptOf(Apply(s, op).0, r) == AttemptOf(s, r)
  {
    hide Apply, Trail;
  }

  /** Call `n` won run `r`'s execution claim. */
  predicate WonAt(ops: seq<Op>, n: nat, r: RunId)
    requires n < |ops|
  {
    ops[n].OpClaim? && ops[n].run == r && Launches(Reached(ops[..n]), ops[n])
  }

  lemma {:induction false} StartsWitness(ops: seq<Op>, r: RunId)
    requires Starts(ops, r) > 0
    ensures exists n: nat :: n < |ops| && WonAt(ops, n, r)
  {
    hide Apply, Launches;
    var m := |ops| - 1;
    if WonAt(ops, m, r) {
    } else {
      StartsWitness(ops[..m], r);
      var n: nat :| n < m && WonAt(ops[..m], n, r);
      assert ops[..m][..n] == ops[..n];
      assert WonAt(ops, n, r);
    }
  }

  /** No two won claims in any history share a (tenant, action, key). */
  lemma NoTwoStarts(ops: seq<Op>, i: nat, j: nat)
    requires i < j < |ops|
    requires Launches(Reached(ops[..i]), ops[i]) && Launches(Reached(ops[..j]), ops[j])
    ensures ops[i].run in Reached(ops[..i]).runs && ops[j].run in Reached(ops[..j]).runs
    ensures KeyOf(Reached(ops[..i]).runs[ops[i].run].q) != KeyOf(Reached(ops[..j]).runs[ops[j].run].q)
  {
    hide Inv, Trail, Apply;
    var r := ops[i].run;
    ReachedInv(ops[..i]);
    ReachedInv(ops[..j]);
    ClaimMovesOne(Reached(ops[..i]), ops[i], r);
    ClaimMovesOne(Reached(ops[..j]), ops[j], r);
    ReachedStep(ops, i);
    ReachedEvolves(ops[..j], i + 1);
    ReachedEvolves(ops[..j], i);
    assert ops[..j][..i + 1] == ops[..i + 1] && ops[..j][..i] == ops[..i];
    if KeyOf(Reached(ops[..i]).runs[r].q) == KeyOf(Reached(ops[..j]).runs[ops[j].run].q) {
      OneRunPerKey(Reached(ops[..j]), r, ops[j].run);
    }
  }

  lemma OneRunPerKey(s: State, a: RunId, b: RunId)
    requires Inv(s) && a in s.runs && b in s.runs && KeyOf(s.runs[a].q) == KeyOf(s.runs[b].q)
    ensures a == b
  {
    hide RunFits, EventsOwned;
  }

  // ---- Decisions, exactly ----

  /** The principal may decide run `r`: same tenant, a required role, and not the requester unless that is allowed. */
  predicate MayDecide(s: State, r: RunId, p: Principal, required: seq<string>, allowSelf: bool) {
    && r in s.runs && r in s.approvals && p.tenant == s.runs[r].q.tenant && Shares(required, p.roles)
    && (allowSelf || p.actor != s.runs[r].q.actor)
  }

  /** In every reachable ledger a decision is refused only to a principal who may not decide, or for a run that was
      never put up for approval; anyone else gets `true` exactly while the run is pending and not yet expired, and
      `false` otherwise. The inconsistency error and the binding-mismatch refusal are never the answer. */
  lemma DecisionExact(
    s: State, r: RunId, approved: bool, p: Principal, note: string, required: seq<string>, allowSelf: bool,
    now: Time, clock: Clock)
    requires Arises(s)
    ensures
      var reply := DecideApproval(s, r, approved, p, note, required, allowSelf, now, clock).1;
      reply ==
        if r !in s.runs || r !in s.approvals then Raised(KeyError)
        else if !MayDecide(s, r, p, required, allowSelf) then Raised(ApprovalDenied)
        else Flag(s.runs[r].status == PendingApproval && now < s.approvals[r].expiresAt)
  {
    hide Inv, Arises, Commit, Shares;
    ArisesInv(s);
    if r in s.approvals { ApprovalMirrors(s, r); }
  }

  // ---- Authorised starts ----

  /** Call `m` granted run `r`'s approval: a same-tenant holder of a required role, not the requester unless that is
      allowed, at an instant before expiry. */
  predicate GrantedAt(ops: seq<Op>, m: nat, r: RunId)
    requires m < |ops|
  {
    && ops[m].OpDecide? && ops[m].run == r && Grants(Reached(ops[..m]), ops[m])
  }

  predicate ProperGrant(op: Op, run: Run, a: Approval)
    requires op.OpDecide?
  {
    && op.approved && op.p.tenant == run.q.tenant && Shares(op.required, op.p.roles)
    && (op.allowSelf || op.p.actor != run.q.actor)
    && op.now < a.expiresAt
    && a.approver == Some(op.p.actor) && a.authSource == Some(op.p.authSource)
    && a.fp == run.q.fp && Some(a.version) == run.version && Some(a.digest) == run.digest
  }

  lemma {:induction false} ApprovedMeansGranted(ops: seq<Op>, r: RunId)
    requires r in Reached(ops).approvals && Reached(ops).approvals[r].status == Approved
    ensures exists m: nat :: m < |ops| && GrantedAt(ops, m, r)
  {
    hide Inv, Evolves, Trail, Apply, SameAttempts, Launches, OnlyRun;
    var n := |ops| - 1;
    assert ops != [];
    var s, op := Reached(ops[..n]), ops[n];
    ReachedInv(ops[..n]);
    ApplyKeeps(s, op);
    if r in s.approvals && s.approvals[r].status == Approved {
      ApprovedMeansGranted(ops[..n], r);
      var m: nat :| m < n && GrantedAt(ops[..n], m, r);
      assert ops[..n][..m] == ops[..m];
      assert GrantedAt(ops, m, r);
    } else {
      GrantIsOnRun(s, op, r);
      assert GrantedAt(ops, n, r);
    }
  }

  lemma GrantIsOnRun(s: State, op: Op, r: RunId)
    requires Inv(s) && Grants(s, op)
    requires r in Apply(s, op).0.approvals && Apply(s, op).0.approvals[r].status == Approved
    requires r !in s.approvals || s.approvals[r].status != Approved
    ensures op.run == r
  {
    hide Inv, Evolves, Trail, DecideApproval;
    DecideStep(s, op.run, op.approved, op.p, op.note, op.required, op.allowSelf, op.now, op.clock);
    var t := Apply(s, op).0;
    assert r != op.run ==> ApprovalOf(t, r) == ApprovalOf(s, r);
  }

  /** What one grant checked and recorded, on the row it left behind. */
  lemma GrantIsProper(s: State, op: Op)
    requires Inv(s) && Grants(s, op)
    ensures
      var t := Apply(s, op).0;
      && op.run in t.runs && op.run in t.approvals && t.approvals[op.run].status == Approved
      && ProperGrant(op, t.runs[op.run], t.approvals[op.run])
  {
    hide Inv, Trail, Evolves, Commit, SameAttempts, NoGrant;
    DecideStep(s, op.run, op.approved, op.p, op.note, op.required, op.allowSelf, op.now, op.clock);
    ApprovalMirrors(s, op.run);
    assert ApprovalOf(Apply(s, op).0, op.run).Some?;
  }

  /** Before call `n`, run `r` stood on a policy allow, or on an approval-required outcome that an earlier proper grant
      answered; either way under the policy version and digest the run holds. */
  ghost predicate Authorised(ops: seq<Op>, n: nat, r: RunId)
    requires n < |ops|
  {
    var s := Reached(ops[..n]);
    var last := LastPolicy(Trail(s.events, r));
    && r in s.runs && last.Some? && last.value.PolicyChecked?
    && s.runs[r].version == Some(last.value.version) && s.runs[r].digest == Some(last.value.digest)
    && ((s.runs[r].status == Created && last.value.outcome == Allow)
        || (s.runs[r].status == Approved && last.value.outcome == ApprovalRequired && r in s.approvals
            && exists m: nat :: m < n && GrantedAt(ops, m, r) && ProperGrant(ops[m], s.runs[r], s.approvals[r])))
  }

  /** Every execution that starts was authorised. */
  lemma StartIsAuthorised(ops: seq<Op>, n: nat)
    requires n < |ops| && ops[n].OpClaim? && Launches(Reached(ops[..n]), ops[n])
    ensures Authorised(ops, n, ops[n].run)
  {
    hide Inv, Trail, Evolves, Replay, Commit;
    var s, r := Reached(ops[..n]), ops[n].run;
    ReachedInv(ops[..n]);
    ClaimMovesOne(s, ops[n], r);
    RunSettles(s, r);
    RunOutcome(s, r);
    LaunchNeedsClaimable(s, ops[n]);
    if s.runs[r].status == Approved {
      hide Launches, Apply, LastPolicy;
      assert r in s.approvals && s.approvals[r].status == Approved;
      ApprovedMeansGranted(ops[..n], r);
      var m: nat :| m < n && GrantedAt(ops[..n], m, r);
      assert ops[..n][..m] == ops[..m];
      assert GrantedAt(ops, m, r);
      GrantSurvives(ops, m, n, r);
    }
  }

  lemma RunOutcome(s: State, r: RunId)
    requires Inv(s) && r in s.runs
    ensures OutcomeFits(ViewOf(s.runs[r], ApprovalOf(s, r)), LastPolicy(Trail(s.events, r)))
  {
    hide Trail, Replay, Indexed, EventsOwned;
    assert RunFits(s, r);
    ReplayOutcome(Trail(s.events, r));
  }

  lemma LaunchNeedsClaimable(s: State, op: Op)
    requires Launches(s, op)
    ensures op.run in s.runs && Claimable(s.runs[op.run])
  {
    hide Commit, MarkExpired;
  }

  lemma GrantSurvives(ops: seq<Op>, m: nat, n: nat, r: RunId)
    requires m < n <= |ops| && GrantedAt(ops, m, r)
    ensures r in Reached(ops[..n]).runs && r in Reached(ops[..n]).approvals
    ensures ProperGrant(ops[m], Reached(ops[..n]).runs[r], Reached(ops[..n]).approvals[r])
  {
    hide Inv, Trail, Apply, Grants, RowMoves;
    ReachedInv(ops[..m]);
    ReachedInv(ops[..n]);
    GrantIsProper(Reached(ops[..m]), ops[m]);
    ReachedStep(ops, m);
    assert ops[..n][..m + 1] == ops[..m + 1];
    ReachedEvolves(ops[..n], m + 1);
    var t, u := Reached(ops[..m + 1]), Reached(ops[..n]);
    assert RowMoves(t.runs[r], u.runs[r]) && ApprovalMoves(t.approvals[r], u.approvals[r]);
    ApprovalMirrors(u, r);
    assert u.runs[r].q == t.runs[r].q by { MovesKeepRequest(t.runs[r], u.runs[r]); }
  }

  lemma MovesKeepRequest(a: Run, b: Run)
    requires RowMoves(a, b)
    ensures b.q == a.q
  {
  }

  // ---- Exits and conclusions ----

  /** In every reachable ledger, each execution has at most one exit, each uncertain exit at most one conclusion, and a
      definitive provider observation is followed at once, and finally, by the matching conclusion. */
  lemma OneExitOneConclusionEverywhere(ops: seq<Op>, r: RunId)
    requires r in Reached(ops).runs
    ensures
      var s := Reached(ops);
      var rows := Trail(s.events, r);
      && Count(rows, KStarted) == s.runs[r].attempt <= 1
      && Count(rows, KSucceeded) + Count(rows, KFailed) + Count(rows, KUncertain) + Count(rows, KLeaseExpired)
           + Bit(s.runs[r].status == Executing) == Count(rows, KStarted)
      && Count(rows, KReconciled) + Bit(s.runs[r].status == Unknown)
           == Count(rows, KUncertain) + Count(rows, KLeaseExpired)
      && (forall i :: 0 <= i < |rows| && Definitive(rows[i].body) ==>
            i + 2 == |rows| && rows[i + 1].body.RunReconciled?
            && Some(rows[i + 1].body.concluded) == Conclusion(rows[i].body.observed)
            && s.runs[r].status == rows[i + 1].body.concluded)
  {
    hide Replay, Trail, Apply, Inv, Count, Sealed;
    var s := Reached(ops);
    var rows := Trail(s.events, r);
    ReplayRefinement(ops, r);
    OneExitOneConclusion(rows);
    StartsAreAttempt(rows);
    forall i | 0 <= i < |rows| && Definitive(rows[i].body)
      ensures i + 2 == |rows| && rows[i + 1].body.RunReconciled?
      ensures Some(rows[i + 1].body.concluded) == Conclusion(rows[i].body.observed)
      ensures s.runs[r].status == rows[i + 1].body.concluded
    {
      ObservationConcluded(rows, i);
    }
  }

  lemma StartsAreAttempt(rows: seq<Event>)
    requires Replay(rows).Live?
    ensures Count(rows, KStarted) == Replay(rows).view.attempt
  {
    ReplayCounts(rows);
    assert (k => Count(rows, k))(KStarted) == Count(rows, KStarted);
  }
}
