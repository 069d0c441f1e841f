/** Every execution that starts rests on a policy decision that was really given, and on no later one. */
module PolicyCalls {
  import opened Text
  import opened Models
  import opened Trails
  import opened TrailFacts
  import opened LedgerSpec
  import opened LedgerProofs
  import opened LedgerSteps
  import opened LedgerSweeps
  import opened Histories
  import opened Tenancy
  import opened Effects

  lemma {:induction false} LastPolicySuffix(rows: seq<Event>, n: nat)
    requires n <= |rows| && forall i :: n <= i < |rows| ==> !rows[i].body.PolicyChecked?
    ensures LastPolicy(rows) == LastPolicy(rows[..n])
  {
    if n == |rows| {
      assert rows[..n] == rows;
    } else {
      var m := |rows| - 1;
      assert rows[..m][..n] == rows[..n];
      LastPolicySuffix(rows[..m], n);
    }
  }

  /** The run's last policy check is what it was. */
  predicate SameCheck(s: State, t: State, r: RunId) {
    LastPolicy(Trail(t.events, r)) == LastPolicy(Trail(s.events, r))
  }

  lemma GrewUnchecked(s: State, t: State, r: RunId, bodies: seq<Body>, times: seq<Time>)
    requires Grew(s, t, r, bodies, times) && forall i :: 0 <= i < |bodies| ==> !bodies[i].PolicyChecked?
    ensures SameCheck(s, t, r)
  {
    hide Trail, LastPolicy;
    var before, after := Trail(s.events, r), Trail(t.events, r);
    forall i | |before| <= i < |after| ensures !after[i].body.PolicyChecked? {
      assert after[|before| + (i - |before|)].body == bodies[i - |before|];
    }
    LastPolicySuffix(after, |before|);
    assert after[..|before|] == before;
  }

  lemma SameTables(s: State, t: State, r: RunId)
    requires t.events == s.events
    ensures SameCheck(s, t, r)
  {
  }

  lemma UntouchedCheck(s: State, t: State, r: RunId)
    requires Untouched(s, t, r)
    ensures SameCheck(s, t, r)
  {
    hide Trail, LastPolicy;
  }

  lemma SweepCheck(s: State, op: Op, r: RunId)
    requires Inv(s) && (op.OpExpire? || op.OpRecover?) && r in s.runs
    ensures SameCheck(s, Apply(s, op).0, r)
  {
    hide Inv, Trail, Grew, SameCheck, ExpireApprovals, RecoverExpired, Untouched;
    match op
    case OpExpire(scan, tenant, now, clock) =>
      var (t, reply) := ExpireApprovals(s, scan, tenant, now, clock);
      ExpireEffect(s, scan, tenant, now, clock);
      if r in reply.ids {
        var k :| 0 <= k < |reply.ids| && reply.ids[k] == r;
        GrewUnchecked(s, t, r, [ApprovalLapsed(s.approvals[r].expiresAt)], [clock(k)]);
      } else {
        UntouchedCheck(s, t, r);
      }
    case OpRecover(scan, tenant, now, clock) =>
      var (t, reply) := RecoverExpired(s, scan, tenant, now, clock);
      RecoverEffect(s, scan, tenant, now, clock);
      if r in reply.ids {
        var k :| 0 <= k < |reply.ids| && reply.ids[k] == r;
        GrewUnchecked(s, t, r, [ExecLeaseExpired(EXPIRED_TEXT)], [clock(k)]);
      } else {
        UntouchedCheck(s, t, r);
      }
  }

  lemma FinishCheck(s: State, r: RunId, owner: string, how: Finish, now: Time, clock: Clock)
    requires Inv(s)
    ensures SameCheck(s, FinishExecution(s, r, owner, how, now, clock).0, r)
  {
    hide Inv, Trail, Grew, SameCheck, FinishExecution, SameButAnchor, OthersSame;
    FinishEffect(s, r, owner, how, now, clock);
    var t := FinishExecution(s, r, owner, how, now, clock).0;
    if r in s.runs && s.runs[r].status == Executing && s.runs[r].owner == Some(owner) {
      match how
      case Complete(v) => GrewUnchecked(s, t, r, [ExecSucceeded, RunCompleted], [clock(0), clock(1)]);
      case Fail(e) => GrewUnchecked(s, t, r, [ExecFailed(e)], [clock(0)]);
      case Uncertain(e) =>
        GrewUnchecked(s, t, r, [ExecUncertain(e, "tool execution outcome uncertain: " + e)], [clock(0)]);
    } else {
      SameTables(s, t, r);
    }
  }

  lemma ClaimCheck(s: State, r: RunId, owner: string, seconds: int, now: Time, clock: Clock)
    requires Inv(s)
    ensures SameCheck(s, ClaimExecution(s, r, owner, seconds, now, clock).0, r)
  {
    hide Inv, Trail, Grew, SameCheck, Commit, MarkExpired, IsBlank, SameButAnchor, OthersSame;
    var t := ClaimExecution(s, r, owner, seconds, now, clock).0;
    if r in s.runs && !IsBlank(owner) && 1 <= seconds <= 86400 {
      ClaimEffect(s, r, owner, seconds, now, clock);
      var due := now + seconds * 1000000;
      if t == s {
        SameTables(s, t, r);
      } else if s.runs[r].status == Executing {
        GrewUnchecked(s, t, r, [ExecLeaseExpired(EXPIRED_TEXT)], [clock(0)]);
      } else if s.runs[r].status == Approved {
        GrewUnchecked(s, t, r, [RunResumed, ExecStarted(owner, 1, due)], [clock(0), clock(1)]);
      } else {
        GrewUnchecked(s, t, r, [ExecStarted(owner, 1, due)], [clock(0), clock(1)][..1]);
      }
    } else {
      SameTables(s, t, r);
    }
  }

  lemma DecideCheck(s: State, op: Op)
    requires Inv(s) && op.OpDecide?
    ensures SameCheck(s, Apply(s, op).0, op.run)
  {
    hide Inv, Trail, Grew, SameCheck, DecideApproval, SameButAnchor, OthersSame, Shares;
    var r, t := op.run, Apply(s, op).0;
    DecideEffect(s, r, op.approved, op.p, op.note, op.required, op.allowSelf, op.now, op.clock);
    if MayDecide(s, r, op.p, op.required, op.allowSelf) && s.runs[r].status == PendingApproval {
      var a := s.approvals[r];
      if a.expiresAt <= op.now {
        GrewUnchecked(s, t, r, [ApprovalLapsed(a.expiresAt)], [op.clock(0)]);
      } else {
        GrewUnchecked(s, t, r, [ApprovalDecided(op.approved, op.p.actor, op.p.authSource, op.note, s.runs[r].q.fp,
                                                a.version, a.digest)], [op.clock(0)]);
      }
    } else {
      SameTables(s, t, r);
    }
  }

  lemma ReconcileCheck(s: State, op: Op)
    requires Inv(s) && op.OpReconcile?
    ensures SameCheck(s, Apply(s, op).0, op.run)
  {
    hide Inv, Trail, Grew, SameCheck, ReconcileRun, SameButAnchor, OthersSame;
    var r, t := op.run, Apply(s, op).0;
    ReconcileEffect(s, r, op.status, op.reason, op.result, op.p, op.now, op.clock);
    if t == s {
      SameTables(s, t, r);
    } else {
      GrewUnchecked(s, t, r, [RunReconciled(op.p.actor, op.p.authSource, op.status, op.reason)], [op.clock(0)]);
    }
  }

  lemma ObserveCheck(s: State, op: Op)
    requires Inv(s) && op.OpObserve?
    ensures SameCheck(s, Apply(s, op).0, op.run)
  {
    hide Inv, Trail, Grew, SameCheck, Commit, SameButAnchor, OthersSame;
    var r, o, t := op.run, op.o, Apply(s, op).0;
    if ObservationOk(o) && r in s.runs && op.p.tenant == s.runs[r].q.tenant && s.runs[r].status == Unknown {
      ObserveEffect(s, r, o, op.p, op.now, op.clock);
      hide ApplyObservation;
      var seen := ProviderObserved(op.p.actor, op.p.authSource, o.provider, o.outcome, o.summary, o.reference);
      if o.outcome == "pending" {
        GrewUnchecked(s, t, r, [seen], [op.clock(0)]);
      } else {
        var status := if o.outcome == "committed" then Completed else Failed;
        var ends := RunReconciled(op.p.actor, op.p.authSource, status, o.provider + " lookup: " + o.summary);
        GrewUnchecked(s, t, r, [seen, ends], [op.clock(0), op.clock(1)]);
      }
    } else {
      SameTables(s, t, r);
    }
  }

  lemma CreateCheck(s: State, op: Op)
    requires Inv(s) && op.OpCreate?
    ensures SameCheck(s, Apply(s, op).0, op.run)
  {
    hide Inv, Trail, Grew, SameCheck, CreateOrGet, SameButAnchor, OthersSame;
    var r, q, t := op.run, op.q, Apply(s, op).0;
    CreateEffect(s, r, q, op.now);
    if t == s {
      SameTables(s, t, r);
    } else {
      GrewUnchecked(s, t, r, [RunCreated(q.action, q.risk, q.fp)], [op.now]);
    }
  }

  /** Only a policy decision that the ledger took puts a policy check on a run's trail. */
  lemma OwnCheck(s: State, op: Op)
    requires Inv(s) && !op.OpExpire? && !op.OpRecover? && !(op.OpPolicy? && Apply(s, op).1 == Done)
    ensures SameCheck(s, Apply(s, op).0, op.run)
  {
    hide Inv, Trail, SameCheck, Commit, FinishExecution, ClaimExecution, DecideApproval, ReconcileRun, ApplyObservation;
    hide CreateOrGet;
    match op
    case OpCreate(_, _, _) => CreateCheck(s, op);
    case OpDuplicate(r) => SameTables(s, Apply(s, op).0, r);
    case OpPolicy(r, _, _, _, _) => SameTables(s, Apply(s, op).0, r);
    case OpDecide(_, _, _, _, _, _, _, _) => DecideCheck(s, op);
    case OpClaim(r, owner, seconds, now, clock) => ClaimCheck(s, r, owner, seconds, now, clock);
    case OpHeartbeat(r, _, _, _) => SameTables(s, Apply(s, op).0, r);
    case OpFinish(r, owner, how, now, clock) => FinishCheck(s, r, owner, how, now, clock);
    case OpReconcile(_, _, _, _, _, _, _) => ReconcileCheck(s, op);
    case OpObserve(_, _, _, _, _) => ObserveCheck(s, op);
    case _ => assert false;
  }

  lemma OpCheck(s: State, op: Op, r: RunId)
    requires Inv(s) && r in s.runs && !(op.OpPolicy? && op.run == r && Apply(s, op).1 == Done)
    ensures SameCheck(s, Apply(s, op).0, r)
  {
    hide Inv, Trail, Apply, SameCheck, Untouched;
    if op.OpExpire? || op.OpRecover? {
      SweepCheck(s, op, r);
    } else if op.run == r {
      OwnCheck(s, op);
    } else {
      OneRunFrame(s, op);
      UntouchedCheck(s, Apply(s, op).0, r);
    }
  }

  // ---- Lifted to histories ----

  /** Call `p` is a policy decision on run `r` that the ledger took. */
  predicate PolicyAt(ops: seq<Op>, p: nat, r: RunId)
    requires p < |ops|
  {
    ops[p].OpPolicy? && ops[p].run == r && Apply(Reached(ops[..p]), ops[p]).1 == Done
  }

  /** ... and the last such one. */
  ghost predicate LastPolicyAt(ops: seq<Op>, p: nat, r: RunId) {
    p < |ops| && ops[p].OpPolicy? && PolicyAt(ops, p, r) && forall q: nat :: p < q < |ops| ==> !PolicyAt(ops, q, r)
  }

  /** The check on the trail says what the decision said. */
  predicate Says(body: Body, d: Decision) {
    body.PolicyChecked? && body.outcome == d.outcome && body.version == d.version && body.reason == d.reason
    && body.facts == d.facts
    && body.digest == (match d.digest case Some(text) => Given(text) case None => OfVersion(d.version))
  }

  lemma DoneMeansTaken(s: State, op: Op)
    requires op.OpPolicy? && Apply(s, op).1 == Done
    ensures op.run in s.runs && s.runs[op.run].status == Created && 1 <= op.ttl <= 604800
  {
    hide Commit;
  }

  lemma TakenIsLast(s: State, op: Op)
    requires Inv(s) && op.OpPolicy? && Apply(s, op).1 == Done
    ensures
      var last := LastPolicy(Trail(Apply(s, op).0.events, op.run));
      last.Some? && Says(last.value, op.d)
  {
    hide Inv, Trail, Commit, SameButAnchor, OthersSame;
    DoneMeansTaken(s, op);
    PolicyEffect(s, op.run, op.d, op.ttl, op.now, op.clock);
    hide RecordPolicy;
    hide Grew;
    var t, d, q := Apply(s, op).0, op.d, s.runs[op.run].q;
    var digest := match d.digest case Some(text) => Given(text) case None => OfVersion(d.version);
    var checked := PolicyChecked(d.outcome, d.version, digest, d.reason, d.facts);
    match d.outcome
    case Allow => CheckedFirst(s, t, op.run, [checked], [op.clock(0)]);
    case Deny => CheckedFirst(s, t, op.run, [checked, RunDenied(d.reason)], [op.clock(0), op.clock(1)]);
    case ApprovalRequired =>
      var due := op.now + op.ttl * 1000000;
      CheckedFirst(s, t, op.run, [checked, ApprovalRequested(d.reason, d.version, digest, q.fp, due)],
                   [op.clock(0), op.clock(1)]);
  }

  lemma CheckedFirst(s: State, t: State, r: RunId, bodies: seq<Body>, times: seq<Time>)
    requires Grew(s, t, r, bodies, times) && bodies != [] && bodies[0].PolicyChecked?
    requires forall i :: 1 <= i < |bodies| ==> !bodies[i].PolicyChecked?
    ensures LastPolicy(Trail(t.events, r)) == Some(bodies[0])
  {
    hide Trail;
    var rows, n := Trail(t.events, r), |Trail(s.events, r)|;
    assert rows[n + 0].body == bodies[0];
    forall i | n + 1 <= i < |rows| ensures !rows[i].body.PolicyChecked? {
      assert rows[n + (i - n)].body == bodies[i - n];
    }
    LastPolicySuffix(rows, n + 1);
    assert rows[..n + 1][n] == rows[n];
  }

  lemma NewRunUnchecked(s: State, op: Op, r: RunId)
    requires Inv(s) && r !in s.runs && r in Apply(s, op).0.runs
    ensures LastPolicy(Trail(Apply(s, op).0.events, r)) == None
  {
    hide Inv, Trail, Apply, Quiet, Untouched, OnlyRun;
    if op.OpExpire? || op.OpRecover? {
      SweepKeys(s, op);
    } else {
      OneRunFrame(s, op);
      NewRunTenant(s, op);
      NewTrailUnchecked(s, op);
    }
  }

  lemma SweepKeys(s: State, op: Op)
    requires Inv(s) && (op.OpExpire? || op.OpRecover?)
    ensures Apply(s, op).0.runs.Keys == s.runs.Keys
  {
    hide Inv, Trail, Evolves, Quiet, Untouched, ExpireApprovals, RecoverExpired;
    match op
    case OpExpire(scan, tenant, now, clock) => ExpireMoves(s, scan, tenant, now, clock);
    case OpRecover(scan, tenant, now, clock) => RecoverMoves(s, scan, tenant, now, clock);
  }

  lemma NewTrailUnchecked(s: State, op: Op)
    requires Inv(s) && op.OpCreate? && op.run !in s.runs && op.run in Apply(s, op).0.runs
    ensures LastPolicy(Trail(Apply(s, op).0.events, op.run)) == None
  {
    hide Inv, Trail, CreateOrGet, SameButAnchor, OthersSame;
    CreateEffect(s, op.run, op.q, op.now);
    GrewUnchecked(s, Apply(s, op).0, op.run, [RunCreated(op.q.action, op.q.risk, op.q.fp)], [op.now]);
  }

  lemma CallsBefore(ops: seq<Op>, n: nat, p: nat, r: RunId)
    requires p < n <= |ops|
    ensures PolicyAt(ops[..n], p, r) == PolicyAt(ops, p, r)
  {
    assert ops[..n][..p] == ops[..p];
  }

  /** The last policy check on a run's trail is the last policy decision given on it, word for word. */
  lemma {:induction false} LastCheckIsLastCall(ops: seq<Op>, r: RunId)
    requires r in Reached(ops).runs && LastPolicy(Trail(Reached(ops).events, r)).Some?
    ensures exists p: nat ::
      LastPolicyAt(ops, p, r) && Says(LastPolicy(Trail(Reached(ops).events, r)).value, ops[p].d)
  {
    hide Apply, Trail, LastPolicy, Says, PolicyAt;
    assert ops != [];
    var n := |ops| - 1;
    var s := Reached(ops[..n]);
    ReachedInv(ops[..n]);
    hide Inv;
    assert ops[..n + 1] == ops;
    if r !in s.runs {
      NewRunUnchecked(s, ops[n], r);
      assert false;
    } else if PolicyAt(ops, n, r) {
      CallTaken(ops, n, r);
      assert LastPolicyAt(ops, n, r);
    } else {
      NotTaken(ops, n, r);
      OpCheck(s, ops[n], r);
      LastCheckIsLastCall(ops[..n], r);
      var p: nat :| LastPolicyAt(ops[..n], p, r) && Says(LastPolicy(Trail(s.events, r)).value, ops[..n][p].d);
      forall q: nat | q < n ensures PolicyAt(ops[..n], q, r) == PolicyAt(ops, q, r) { CallsBefore(ops, n, q, r); }
      assert LastPolicyAt(ops, p, r);
    }
  }

  lemma CallTaken(ops: seq<Op>, n: nat, r: RunId)
    requires n + 1 == |ops| && PolicyAt(ops, n, r)
    ensures
      var last := LastPolicy(Trail(Reached(ops).events, r));
      ops[n].OpPolicy? && last.Some? && Says(last.value, ops[n].d)
  {
    hide Apply, Trail, LastPolicy, Says, Inv;
    ReachedInv(ops[..n]);
    TakenIsLast(Reached(ops[..n]), ops[n]);
  }

  lemma NotTaken(ops: seq<Op>, n: nat, r: RunId)
    requires n < |ops| && !PolicyAt(ops, n, r)
    ensures !(ops[n].OpPolicy? && ops[n].run == r && Apply(Reached(ops[..n]), ops[n]).1 == Done)
  {
  }

  /** Call `n`, which won run `r`'s claim, rests on the last decision given on the run: that decision itself allowed it,
      or asked for an approval that a later proper grant gave; the run holds that decision's version and digest. */
  ghost predicate RestsOn(ops: seq<Op>, n: nat, r: RunId, p: nat)
    requires n < |ops|
  {
    && p < n && LastPolicyAt(ops[..n], p, r) && r in Reached(ops[..n]).runs
    && var run, d := Reached(ops[..n]).runs[r], ops[p].d;
    && run.version == Some(d.version)
    && run.digest == Some(match d.digest case Some(text) => Given(text) case None => OfVersion(d.version))
    && (d.outcome == Allow
        || (d.outcome == ApprovalRequired && r in Reached(ops[..n]).approvals
            && exists m: nat :: p < m < n && GrantedAt(ops, m, r)
                                && ProperGrant(ops[m], run, Reached(ops[..n]).approvals[r])))
  }

  lemma GrantAfterPolicy(ops: seq<Op>, n: nat, p: nat, m: nat, r: RunId)
    requires p < n <= |ops| && m < n && PolicyAt(ops, p, r) && GrantedAt(ops, m, r)
    ensures p < m
  {
    hide Inv, Trail, Apply, RowMoves;
    DoneMeansTaken(Reached(ops[..p]), ops[p]);
    if m <= p {
      assert m != p;
      GrantSurvives(ops, m, p, r);
      ReachedInv(ops[..p]);
      ApprovalMirrors(Reached(ops[..p]), r);
      assert false;
    }
  }

  /** Every won claim rests on a policy decision given by a call in the history. */
  lemma StartRestsOnPolicy(ops: seq<Op>, n: nat)
    requires n < |ops| && ops[n].OpClaim? && Launches(Reached(ops[..n]), ops[n])
    ensures exists p: nat :: RestsOn(ops, n, ops[n].run, p)
  {
    StartIsAuthorised(ops, n);
    hide Inv, Trail, Apply, Reached, LastPolicy, PolicyAt, Launches, GrantedAt, ProperGrant;
    var r := ops[n].run;
    LastCheckIsLastCall(ops[..n], r);
    var p: nat :| LastPolicyAt(ops[..n], p, r)
                  && Says(LastPolicy(Trail(Reached(ops[..n]).events, r)).value, ops[..n][p].d);
    CallsBefore(ops, n, p, r);
    if ops[p].d.outcome != Allow {
      var m: nat :| m < n && GrantedAt(ops, m, r)
                    && ProperGrant(ops[m], Reached(ops[..n]).runs[r], Reached(ops[..n]).approvals[r]);
      GrantAfterPolicy(ops, n, p, m, r);
    }
    assert RestsOn(ops, n, r, p);
  }
}
