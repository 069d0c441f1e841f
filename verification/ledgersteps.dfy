/** Every transaction keeps the joint invariant and moves rows only forward. */
module LedgerSteps {
  import opened Text
  import opened Models
  import opened Trails
  import opened TrailFacts
  import opened LedgerSpec
  import opened LedgerProofs

  /** How far along its life a run is; a run can change status at most as often as the rank can rise. */
  function Rank(status: Status): nat {
    match status
    case Created => 0
    case PendingApproval => 1
    case Approved => 2
    case Executing => 3
    case Unknown => 4
    case _ => 5
  }

  predicate RowMoves(a: Run, b: Run) {
    && b.q == a.q && b.createdAt == a.createdAt && a.attempt <= b.attempt && a.duplicates <= b.duplicates
    && (b.status == a.status || Rank(a.status) < Rank(b.status))
    && (Terminal(a.status) ==> b == a.(duplicates := b.duplicates))
  }

  predicate ApprovalMoves(a: Approval, b: Approval) {
    && b.fp == a.fp && b.version == a.version && b.digest == a.digest && b.requester == a.requester
    && b.requestedAt == a.requestedAt && b.expiresAt == a.expiresAt
    && (a.status != PendingApproval ==> b == a)
  }

  /** Nothing is lost or rewritten: rows move forward, decided approvals stay, trails only grow. */
  ghost predicate Evolves(s: State, t: State) {
    && s.runs.Keys <= t.runs.Keys && s.index.Keys <= t.index.Keys
    && (forall key :: key in s.index ==> t.index[key] == s.index[key])
    && (forall r :: r in s.runs ==> RowMoves(s.runs[r], t.runs[r]))
    && (forall r :: r in s.approvals ==> r in t.approvals && ApprovalMoves(s.approvals[r], t.approvals[r]))
    && (forall r :: Trail(s.events, r) <= Trail(t.events, r))
  }

  /** No run starts executing in this step. */
  ghost predicate SameAttempts(s: State, t: State) {
    && (forall r :: r in s.runs && r in t.runs ==> t.runs[r].attempt == s.runs[r].attempt)
    && (forall r :: r in t.runs && r !in s.runs ==> t.runs[r].attempt == 0)
  }

  /** No approval is granted in this step. */
  ghost predicate NoGrant(s: State, t: State) {
    forall r :: r in t.approvals && t.approvals[r].status == Approved
      ==> r in s.approvals && s.approvals[r].status == Approved
  }

  ghost predicate Quiet(s: State, t: State) { SameAttempts(s, t) && NoGrant(s, t) }

  lemma EvolvesTransitive(s: State, t: State, u: State)
    requires Evolves(s, t) && Evolves(t, u)
    ensures Evolves(s, u)
  {
    hide Trail;
    forall r | r in s.runs ensures RowMoves(s.runs[r], u.runs[r]) {
      assert RowMoves(t.runs[r], u.runs[r]);
    }
    forall r ensures Trail(s.events, r) <= Trail(u.events, r) {
      assert Trail(t.events, r) <= Trail(u.events, r);
    }
  }

  lemma QuietTransitive(s: State, t: State, u: State)
    requires s.runs.Keys <= t.runs.Keys <= u.runs.Keys && Quiet(s, t) && Quiet(t, u)
    ensures Quiet(s, u)
  {
  }

  /** What the invariant says about one run, in terms of its row and approval alone. */
  predicate Settles(run: Run, approval: Option<Approval>) {
    && Coherent(ViewOf(run, approval))
    && (run.lease.Some? <==> run.status == Executing)
    && (run.result.Some? ==> run.status in {Completed, Failed})
    && (approval.Some? ==> approval.value.requester == run.q.actor)
  }

  lemma RunSettles(s: State, r: RunId)
    requires Inv(s) && r in s.runs
    ensures Settles(s.runs[r], ApprovalOf(s, r))
  {
    hide Step, Replay, Coherent, Trail, Indexed, EventsOwned;
    assert RunFits(s, r);
    ReplayCoherent(Trail(s.events, r));
  }

  /** A change confined to one run, seen row by row. */
  lemma OneRunMoves(s: State, t: State, r: RunId, row: Run, approval: Option<Approval>)
    requires OnlyRun(s, t, r) && r in s.runs && s.approvals.Keys <= s.runs.Keys
    requires SameButAnchor(t.runs[r], row) && ApprovalOf(t, r) == NewApproval(s, r, approval)
    requires RowMoves(s.runs[r], row) && !Terminal(s.runs[r].status)
    requires approval.Some? && r in s.approvals ==> ApprovalMoves(s.approvals[r], approval.value)
    ensures Evolves(s, t)
  {
    hide Trail, Rank, Terminal;
    forall x | x in s.runs ensures RowMoves(s.runs[x], t.runs[x]) {}
    hide RowMoves;
    forall x | x in s.approvals ensures x in t.approvals && ApprovalMoves(s.approvals[x], t.approvals[x]) {
      assert x != r ==> ApprovalOf(t, x) == ApprovalOf(s, x);
    }
    forall x ensures Trail(s.events, x) <= Trail(t.events, x) {
      assert x != r ==> Trail(t.events, x) == Trail(s.events, x);
    }
  }

  lemma OneRunQuiet(s: State, t: State, r: RunId, row: Run, approval: Option<Approval>)
    requires OnlyRun(s, t, r) && r in s.runs
    requires SameButAnchor(t.runs[r], row) && ApprovalOf(t, r) == NewApproval(s, r, approval)
    ensures row.attempt == s.runs[r].attempt ==> SameAttempts(s, t)
    ensures approval.None? || approval.value.status != Approved ==> NoGrant(s, t)
  {
    hide Trail;
    forall x | x in t.approvals && x != r ensures x in s.approvals && t.approvals[x] == s.approvals[x] {
      assert ApprovalOf(t, x) == ApprovalOf(s, x);
    }
  }

  lemma JustifiedRun(s: State, r: RunId, row: Run, approval: Option<Approval>, bodies: seq<Body>)
    requires Inv(s) && Justified(s, r, row, approval, bodies)
    ensures r in s.runs && s.approvals.Keys <= s.runs.Keys
  {
  }

  /** A justified commit that moves its row forward keeps everything. */
  lemma CommitStep(s: State, r: RunId, row: Run, approval: Option<Approval>, bodies: seq<Body>, clock: Clock)
    requires Inv(s) && Justified(s, r, row, approval, bodies)
    requires RowMoves(s.runs[r], row) && !Terminal(s.runs[r].status)
    requires approval.Some? && r in s.approvals ==> ApprovalMoves(s.approvals[r], approval.value)
    ensures
      var t := Commit(s, r, row, approval, bodies, clock);
      && Inv(t) && Evolves(s, t) && OnlyRun(s, t, r) && SameButAnchor(t.runs[r], row)
      && ApprovalOf(t, r) == NewApproval(s, r, approval)
      && (row.attempt == s.runs[r].attempt ==> SameAttempts(s, t))
      && (approval.None? || approval.value.status != Approved ==> NoGrant(s, t))
  {
    JustifiedRun(s, r, row, approval, bodies);
    hide Step, StepAll, Replay, Trail, AppendAll, RunFits, Commit, Indexed, EventsOwned, RowMoves, Justified;
    CommitKeeps(s, r, row, approval, bodies, clock);
    hide OnlyRun, Inv, Evolves, SameAttempts, NoGrant, ApprovalMoves, SameButAnchor;
    OneRunMoves(s, Commit(s, r, row, approval, bodies, clock), r, row, approval);
    OneRunQuiet(s, Commit(s, r, row, approval, bodies, clock), r, row, approval);
  }

  // ---- The joint invariant, read off ----

  lemma ApprovalHasRun(s: State, r: RunId)
    requires Inv(s) && r in s.approvals
    ensures r in s.runs
  {
  }

  /** An approval mirrors its run until execution and stays approved afterwards; its bindings are the run's. */
  lemma ApprovalMirrors(s: State, r: RunId)
    requires Inv(s) && r in s.approvals
    ensures r in s.runs
    ensures
      var run, a := s.runs[r], s.approvals[r];
      && a.status == (if Rank(run.status) < Rank(Executing) || run.status in {Rejected, ApprovalExpired} then run.status
                      else Approved)
      && run.status !in {Created, Denied}
      && a.fp == run.q.fp && run.version == Some(a.version) && run.digest == Some(a.digest)
      && a.requester == run.q.actor
  {
    hide Inv;
    ApprovalHasRun(s, r);
    RunSettles(s, r);
  }

  /** Which runs have an approval row, an owner, a lease and an attempt. */
  lemma ColumnsMirrorStatus(s: State, r: RunId)
    requires Inv(s) && r in s.runs
    ensures s.runs[r].status in {PendingApproval, Approved, Rejected, ApprovalExpired} ==> r in s.approvals
    ensures s.runs[r].owner.Some? <==> s.runs[r].status == Executing
    ensures s.runs[r].lease.Some? <==> s.runs[r].status == Executing
    ensures s.runs[r].attempt == (if s.runs[r].status in {Executing, Unknown, Completed, Failed} then 1 else 0)
    ensures s.runs[r].status != Created ==> s.runs[r].version.Some?
  {
    hide Inv;
    RunSettles(s, r);
  }

  // ---- Transactions on one run ----

  lemma {:induction false} FreshTrail(events: seq<Event>, r: RunId)
    requires forall e :: e in events ==> e.run != r
    ensures Trail(events, r) == []
  {
    if events != [] { FreshTrail(events[..|events| - 1], r); }
  }

  lemma EvolvesReflexive(s: State)
    ensures Evolves(s, s) && Quiet(s, s)
  {
    hide Trail;
  }

  lemma CreateStep(s: State, r: RunId, q: Request, now: Time)
    requires Inv(s)
    ensures var t := CreateOrGet(s, r, q, now).0; Inv(t) && Evolves(s, t) && Quiet(s, t)
  {
    hide Trail, Append, Inv, Evolves, Quiet;
    EvolvesReflexive(s);
    if RowByKey(s, KeyOf(q)).None? && r !in s.runs && KeyOf(q) !in s.index {
      InsertStep(s, r, q, now);
    }
  }

  function Inserted(s: State, r: RunId, q: Request, now: Time): State {
    s.(runs := s.runs[r := NewRun(q, now)], index := s.index[KeyOf(q) := r])
  }

  lemma InsertStep(s: State, r: RunId, q: Request, now: Time)
    requires Inv(s) && r !in s.runs && KeyOf(q) !in s.index
    ensures
      var t := Append(Inserted(s, r, q, now), r, RunCreated(q.action, q.risk, q.fp), now);
      Inv(t) && Evolves(s, t) && Quiet(s, t)
  {
    var u := Inserted(s, r, q, now);
    var t := Append(u, r, RunCreated(q.action, q.risk, q.fp), now);
    InsertFits(s, r, q, now);
    assert t.index == u.index && t.approvals == u.approvals;
    hide Trail, Append, RunFits, Indexed, RowMoves, ApprovalOf, OnlyRun, Inv, Evolves, Quiet, EventsOwned;
    InsertKeepsOthers(s, u, t, r);
    InsertEvolves(s, u, t, r);
  }

  lemma InsertEvolves(s: State, u: State, t: State, r: RunId)
    requires r !in s.runs && r in u.runs && OnlyRun(u, t, r) && u.events == s.events && t.approvals == s.approvals
    requires u.runs == s.runs[r := u.runs[r]] && t.index.Keys >= s.index.Keys && t.runs[r].attempt == 0
    requires forall key :: key in s.index ==> t.index[key] == s.index[key]
    ensures Evolves(s, t) && Quiet(s, t)
  {
    hide Trail, ApprovalOf, Terminal, Rank;
    forall x | x in s.runs ensures t.runs[x] == s.runs[x] { assert t.runs[x] == u.runs[x]; }
    forall x ensures Trail(s.events, x) <= Trail(t.events, x) {
      assert x != r ==> Trail(t.events, x) == Trail(u.events, x);
    }
  }

  lemma InsertKeepsOthers(s: State, u: State, t: State, r: RunId)
    requires Inv(s) && r !in s.runs && r in u.runs && OnlyRun(u, t, r) && u.events == s.events
    requires t.approvals == s.approvals == u.approvals
    requires u.runs == s.runs[r := u.runs[r]] && t.runs[r].q == u.runs[r].q
    requires KeyOf(u.runs[r].q) !in s.index && u.index == s.index[KeyOf(u.runs[r].q) := r]
    requires RunFits(t, r) && EventsOwned(t)
    ensures Inv(t)
  {
    hide Trail, RowFits, Indexed, EventsOwned;
    IndexedInsert(s, t, r);
    forall x | x in t.runs && x != r ensures RunFits(t, x) { assert RunFits(s, x); }
  }

  lemma InsertFits(s: State, r: RunId, q: Request, now: Time)
    requires Inv(s) && r !in s.runs && KeyOf(q) !in s.index
    ensures
      var u := Inserted(s, r, q, now);
      var t := Append(u, r, RunCreated(q.action, q.risk, q.fp), now);
      && RunFits(t, r) && EventsOwned(t) && OnlyRun(u, t, r) && t.approvals == s.approvals
      && t.runs[r].q == q && t.runs[r].attempt == 0
  {
    FreshTrail(s.events, r);
    AppendFacts(Inserted(s, r, q, now), r, RunCreated(q.action, q.risk, q.fp), now);
    hide Trail, Indexed, OnlyRun, Append;
  }

  lemma IndexedInsert(s: State, t: State, r: RunId)
    requires Indexed(s) && r !in s.runs && t.runs.Keys == s.runs.Keys + {r}
    requires forall x :: x in s.runs ==> t.runs[x] == s.runs[x]
    requires KeyOf(t.runs[r].q) !in s.index && t.index == s.index[KeyOf(t.runs[r].q) := r]
    ensures Indexed(t)
  {
  }

  /** Rewriting columns the trail does not record, on one run. */
  lemma TouchStep(s: State, r: RunId, row: Run)
    requires Inv(s) && r in s.runs && RowMoves(s.runs[r], row)
    requires row == s.runs[r].(duplicates := row.duplicates, lease := row.lease, updatedAt := row.updatedAt)
    requires row.lease.Some? <==> row.status == Executing
    ensures var t := s.(runs := s.runs[r := row]); Inv(t) && Evolves(s, t) && Quiet(s, t)
  {
    hide Trail, Indexed, RowFits;
    var t := s.(runs := s.runs[r := row]);
    assert RunFits(s, r);
    RunTouched(s, r, row);
    assert EventsOwned(t) by { assert EventsOwned(s); }
    InvByOneRun(s, t, r);
    hide Inv;
    forall x | x in s.runs ensures RowMoves(s.runs[x], t.runs[x]) {}
  }

  lemma RunTouched(s: State, r: RunId, row: Run)
    requires r in s.runs && RunFits(s, r)
    requires row == s.runs[r].(duplicates := row.duplicates, lease := row.lease, updatedAt := row.updatedAt)
    requires row.lease.Some? <==> row.status == Executing
    ensures RunFits(s.(runs := s.runs[r := row]), r)
  {
    hide Trail, Replay, Sealed, ChainHead;
  }

  lemma DuplicateStep(s: State, r: RunId)
    requires Inv(s)
    ensures var t := RecordDuplicate(s, r).0; Inv(t) && Evolves(s, t) && Quiet(s, t)
  {
    hide Inv, Trail, Evolves, Quiet;
    EvolvesReflexive(s);
    if r in s.runs {
      RunSettles(s, r);
      TouchStep(s, r, s.runs[r].(duplicates := s.runs[r].duplicates + 1));
    }
  }

  lemma HeartbeatStep(s: State, r: RunId, owner: string, seconds: int, now: Time)
    requires Inv(s)
    ensures var t := Heartbeat(s, r, owner, seconds, now).0; Inv(t) && Evolves(s, t) && Quiet(s, t)
  {
    hide Inv, Trail, Evolves, Quiet;
    EvolvesReflexive(s);
    if r in s.runs && Renewable(s.runs[r], owner, now) {
      TouchStep(s, r, s.runs[r].(lease := Some(now + seconds * SECOND), updatedAt := now));
    }
  }

  lemma PolicyStep(s: State, r: RunId, d: Decision, ttl: int, now: Time, clock: Clock)
    requires Inv(s)
    ensures var t := RecordPolicy(s, r, d, ttl, now, clock).0; Inv(t) && Evolves(s, t) && Quiet(s, t)
  {
    hide Inv, Trail, Commit, Replay, StepAll, Evolves, SameAttempts, NoGrant;
    EvolvesReflexive(s);
    if 1 <= ttl <= 604800 && r in s.runs && s.runs[r].status == Created {
      RunSettles(s, r);
      var x, bodies := Live(ViewOf(s.runs[r], ApprovalOf(s, r))), PolicyBodies(s.runs[r].q, d, now + ttl * SECOND);
      if d.outcome.Allow? { StepAllOne(x, bodies[0]); } else { StepAllTwo(x, bodies[0], bodies[1]); }
      var q, expiresAt := s.runs[r].q, now + ttl * SECOND;
      var status := match d.outcome case Allow => Created case Deny => Denied case ApprovalRequired => PendingApproval;
      var row := s.runs[r].(
        status := status, version := Some(d.version), digest := Some(DigestOf(d)), reason := Some(d.reason),
        updatedAt := now);
      var approval :=
        if d.outcome.ApprovalRequired? then
          Some(Approval(PendingApproval, q.fp, d.version, DigestOf(d), q.actor, None, None, None, now, expiresAt, None))
        else None;
      CommitStep(s, r, row, approval, bodies, clock);
    }
  }

  lemma LapseStep(s: State, r: RunId, now: Time, clock: Clock)
    requires Inv(s) && r in s.runs && r in s.approvals && s.approvals[r].status == PendingApproval
    ensures
      var a := s.approvals[r];
      var t := Commit(s, r, s.runs[r].(status := ApprovalExpired, updatedAt := now), Some(Lapsed(a, now)),
                      [ApprovalLapsed(a.expiresAt)], clock);
      Inv(t) && Evolves(s, t) && Quiet(s, t)
  {
    hide Inv, Trail, Commit, Replay, StepAll, Evolves, SameAttempts, NoGrant;
    RunSettles(s, r);
    var a := s.approvals[r];
    StepAllOne(Live(ViewOf(s.runs[r], ApprovalOf(s, r))), ApprovalLapsed(a.expiresAt));
    CommitStep(s, r, s.runs[r].(status := ApprovalExpired, updatedAt := now), Some(Lapsed(a, now)),
               [ApprovalLapsed(a.expiresAt)], clock);
  }

  lemma VerdictStep(s: State, r: RunId, approved: bool, p: Principal, note: string, now: Time, clock: Clock)
    requires Inv(s) && r in s.runs && r in s.approvals && s.approvals[r].status == PendingApproval
    ensures
      var run, a := s.runs[r], s.approvals[r];
      var t := Commit(s, r, DecidedRow(run, approved, note, now), Some(DecidedApproval(a, approved, p, note, now)),
                      [ApprovalDecided(approved, p.actor, p.authSource, note, run.q.fp, a.version, a.digest)], clock);
      && Inv(t) && Evolves(s, t) && SameAttempts(s, t) && (!approved ==> NoGrant(s, t)) && OnlyRun(s, t, r)
      && ApprovalOf(t, r) == Some(DecidedApproval(a, approved, p, note, now))
      && SameButAnchor(t.runs[r], DecidedRow(run, approved, note, now))
  {
    hide Inv, Trail, Commit, Replay, StepAll, Evolves, SameAttempts, NoGrant, OnlyRun;
    RunSettles(s, r);
    var run, a := s.runs[r], s.approvals[r];
    var body := ApprovalDecided(approved, p.actor, p.authSource, note, run.q.fp, a.version, a.digest);
    StepAllOne(Live(ViewOf(run, ApprovalOf(s, r))), body);
    var decided := DecidedApproval(a, approved, p, note, now);
    CommitStep(s, r, DecidedRow(run, approved, note, now), Some(decided), [body], clock);
  }

  lemma DecideStep(
    s: State, r: RunId, approved: bool, p: Principal, note: string, required: seq<string>, allowSelf: bool,
    now: Time, clock: Clock)
    requires Inv(s)
    ensures
      var (t, reply) := DecideApproval(s, r, approved, p, note, required, allowSelf, now, clock);
      && Inv(t) && Evolves(s, t) && SameAttempts(s, t)
      && ((approved && reply == Flag(true)) || NoGrant(s, t))
      && (reply == Flag(true) ==>
           r in s.runs && r in s.approvals && OnlyRun(s, t, r)
           && ApprovalOf(t, r) == Some(DecidedApproval(s.approvals[r], approved, p, note, now))
           && SameButAnchor(t.runs[r], DecidedRow(s.runs[r], approved, note, now)))
  {
    hide Inv, Trail, Commit, Replay, StepAll, Evolves, SameAttempts, NoGrant;
    EvolvesReflexive(s);
    if r in s.runs && r in s.approvals {
      var a := s.approvals[r];
      if a.status == PendingApproval {
        if a.expiresAt <= now {
          LapseStep(s, r, now, clock);
        } else {
          VerdictStep(s, r, approved, p, note, now, clock);
        }
      }
    }
  }

  lemma MarkExpiredStep(s: State, r: RunId, now: Time, at: Time)
    requires Inv(s) && r in s.runs && s.runs[r].status == Executing
    ensures
      var t := MarkExpired(s, r, now, at);
      && Inv(t) && Evolves(s, t) && OnlyRun(s, t, r) && t.runs[r].status == Unknown
      && ApprovalOf(t, r) == ApprovalOf(s, r) && Quiet(s, t)
  {
    hide Inv, Trail, Commit, Replay, StepAll, Evolves, SameAttempts, NoGrant;
    RunSettles(s, r);
    StepAllOne(Live(ViewOf(s.runs[r], ApprovalOf(s, r))), ExecLeaseExpired(LEASE_REASON));
    var row := s.runs[r].(
      status := Unknown, reason := Some(LEASE_REASON), owner := None, lease := None, updatedAt := now);
    CommitStep(s, r, row, None, [ExecLeaseExpired(LEASE_REASON)], _ => at);
  }

  lemma ClaimStep(s: State, r: RunId, owner: string, seconds: int, now: Time, clock: Clock)
    requires Inv(s)
    ensures
      var (t, reply) := ClaimExecution(s, r, owner, seconds, now, clock);
      && Inv(t) && Evolves(s, t) && NoGrant(s, t) && (reply != Flag(true) ==> SameAttempts(s, t))
      && (reply == Flag(true) ==> r in s.runs && s.runs[r].attempt == 0 && OnlyRun(s, t, r) && t.runs[r].attempt == 1
                                  && t.runs[r].status == Executing && t.runs[r].owner == Some(owner))
  {
    hide Inv, Trail, Commit, Replay, StepAll, Evolves, SameAttempts, NoGrant;
    EvolvesReflexive(s);
    if LeaseArgumentsOk(owner, seconds) && r in s.runs {
      RunSettles(s, r);
      var run, leaseEnd, x := s.runs[r], now + seconds * SECOND, Live(ViewOf(s.runs[r], ApprovalOf(s, r)));
      if LeaseDue(run, now) {
        MarkExpiredStep(s, r, now, clock(0));
      } else if Claimable(run) {
        var bodies := ClaimBodies(run, owner, leaseEnd);
        if run.status == Approved { StepAllTwo(x, bodies[0], bodies[1]); } else { StepAllOne(x, bodies[0]); }
        var row := run.(
          status := Executing, owner := Some(owner), lease := Some(leaseEnd), attempt := run.attempt + 1,
          updatedAt := now);
        CommitStep(s, r, row, None, bodies, clock);
      }
    }
  }

  lemma FinishStep(s: State, r: RunId, owner: string, how: Finish, now: Time, clock: Clock)
    requires Inv(s)
    ensures var t := FinishExecution(s, r, owner, how, now, clock).0; Inv(t) && Evolves(s, t) && Quiet(s, t)
  {
    hide Inv, Trail, Commit, Replay, StepAll, Evolves, SameAttempts, NoGrant;
    EvolvesReflexive(s);
    if Owns(s, r, owner) {
      RunSettles(s, r);
      var x, bodies := Live(ViewOf(s.runs[r], ApprovalOf(s, r))), FinishBodies(how);
      if how.Complete? {
        StepAllTwo(x, bodies[0], bodies[1]);
        CommitStep(s, r, FinishRow(s.runs[r], how, now), None, bodies, clock);
      } else {
        StepAllOne(x, bodies[0]);
        CommitStep(s, r, FinishRow(s.runs[r], how, now), None, bodies, clock);
      }
    }
  }

  lemma ReconcileStep(
    s: State, r: RunId, status: Status, reason: string, result: Option<Json>, p: Principal, now: Time, clock: Clock)
    requires Inv(s)
    ensures var t := ReconcileRun(s, r, status, reason, result, p, now, clock).0; Inv(t) && Evolves(s, t) && Quiet(s, t)
  {
    hide Inv, Trail, Commit, Replay, StepAll, Evolves, SameAttempts, NoGrant;
    EvolvesReflexive(s);
    if status in {Completed, Failed} && r in s.runs && s.runs[r].status == Unknown {
      RunSettles(s, r);
      var body := RunReconciled(p.actor, p.authSource, status, reason);
      StepAllOne(Live(ViewOf(s.runs[r], ApprovalOf(s, r))), body);
      var row := s.runs[r].(status := status, reason := Some(reason), result := result, updatedAt := now);
      CommitStep(s, r, row, None, [body], clock);
    }
  }

  lemma ObserveStep(s: State, r: RunId, o: Observation, p: Principal, now: Time, clock: Clock)
    requires Inv(s)
    ensures var t := ApplyObservation(s, r, o, p, now, clock).0; Inv(t) && Evolves(s, t) && Quiet(s, t)
  {
    hide Inv, Trail, Commit, Replay, StepAll, Evolves, SameAttempts, NoGrant;
    EvolvesReflexive(s);
    if ObservationOk(o) && r in s.runs && s.runs[r].status == Unknown {
      RunSettles(s, r);
      var x, note := Live(ViewOf(s.runs[r], ApprovalOf(s, r))), LookupReason(o);
      var seen := ProviderObserved(p.actor, p.authSource, o.provider, o.outcome, o.summary, o.reference);
      match o.status
      case None =>
        StepAllOne(x, seen);
        CommitStep(s, r, s.runs[r], None, [seen], clock);
      case Some(status) =>
        var ends := RunReconciled(p.actor, p.authSource, status, note);
        StepAllTwo(x, seen, ends);
        var row := s.runs[r].(status := status, reason := Some(note), result := o.result, updatedAt := now);
        CommitStep(s, r, row, None, [seen, ends], clock);
    }
  }
}
