/** What each ledger call does to the run it names: every column, the approval row, and the events added, in full. */
module Effects {
  import opened Text
  import opened Models
  import opened Trails
  import opened LedgerSpec
  import opened LedgerProofs
  import opened LedgerSteps
  import opened LedgerSweeps
  import opened Histories
  import opened Tenancy

  /** `r`'s trail grew by exactly these events, at these instants, and by nothing else. */
  predicate Grew(s: State, t: State, r: RunId, bodies: seq<Body>, times: seq<Time>) {
    var before, after := Trail(s.events, r), Trail(t.events, r);
    && |times| == |bodies| && |after| == |before| + |bodies| && before <= after
    && forall i :: 0 <= i < |bodies| ==> after[|before| + i].body == bodies[i] && after[|before| + i].at == times[i]
  }

  function Times(clock: Clock, n: nat): seq<Time> { seq(n, i requires 0 <= i < n => clock(i)) }

  lemma {:induction false} AppendAllGrows(s: State, r: RunId, bodies: seq<Body>, clock: Clock)
    requires r in s.runs
    ensures Grew(s, AppendAll(s, r, bodies, clock), r, bodies, Times(clock, |bodies|))
    ensures AppendAll(s, r, bodies, clock).approvals == s.approvals && AppendAll(s, r, bodies, clock).index == s.index
  {
    hide Trail, NextEvent;
    if bodies != [] {
      var n := |bodies| - 1;
      AppendAllGrows(s, r, bodies[..n], clock);
      var u := AppendAll(s, r, bodies[..n], clock);
      AppendTrails(u, r, bodies[n], clock(n));
      NextIs(u.events, r, bodies[n], clock(n));
    }
  }

  lemma NextIs(events: seq<Event>, r: RunId, body: Body, at: Time)
    ensures var e := NextEvent(events, r, body, at); e.body == body && e.at == at
  {
  }

  /** A commit leaves the given row and approval, adds the given events, and touches no other run. */
  lemma CommitEffect(s: State, r: RunId, row: Run, approval: Option<Approval>, bodies: seq<Body>, clock: Clock)
    requires r in s.runs
    ensures
      var t := Commit(s, r, row, approval, bodies, clock);
      && r in t.runs && SameButAnchor(t.runs[r], row)
      && ApprovalOf(t, r) == (if approval.Some? then approval else ApprovalOf(s, r))
      && Grew(s, t, r, bodies, Times(clock, |bodies|)) && OthersSame(s, t, r) && t.index == s.index
  {
    hide Trail, AppendAll, NextEvent;
    CommitRow(s, r, row, approval, bodies, clock);
    CommitFrame(s, r, row, approval, bodies, clock);
    var approvals := if approval.Some? then s.approvals[r := approval.value] else s.approvals;
    AppendAllGrows(s.(runs := s.runs[r := row], approvals := approvals), r, bodies, clock);
  }

  lemma OneTime(clock: Clock)
    ensures Times(clock, 1) == [clock(0)] && Times(clock, 2) == [clock(0), clock(1)]
  {
  }

  // ---- Creation ----

  /** A first request under its key inserts a created run holding exactly the request; any other changes nothing. */
  lemma CreateEffect(s: State, r: RunId, q: Request, now: Time)
    requires Inv(s)
    ensures
      var (t, reply) := CreateOrGet(s, r, q, now);
      if KeyOf(q) in s.index then
        && t == s && s.index[KeyOf(q)] in s.runs
        && reply == if s.runs[s.index[KeyOf(q)]].q.fp == q.fp then Fetched(s.index[KeyOf(q)], false)
                    else Raised(IdempotencyConflict)
      else if r in s.runs then t == s && reply == Raised(RuntimeError)
      else
        && reply == Fetched(r, true) && r in t.runs
        && SameButAnchor(t.runs[r], Run(q, Created, None, None, None, None, None, None, 0, 0, 0, None, now, now))
        && t.index == s.index[KeyOf(q) := r] && t.approvals == s.approvals && r !in t.approvals
        && Trail(s.events, r) == [] && Grew(s, t, r, [RunCreated(q.action, q.risk, q.fp)], [now])
        && OthersSame(s, t, r)
  {
    hide Trail, NextEvent, RunFits;
    if KeyOf(q) !in s.index && r !in s.runs {
      FreshTrail(s.events, r);
      CreateFrame(s, r, q, now);
      AppendTrails(Inserted(s, r, q, now), r, RunCreated(q.action, q.risk, q.fp), now);
      NextIs(s.events, r, RunCreated(q.action, q.risk, q.fp), now);
    }
  }

  // ---- Policy ----

  /** The decision given is the decision stored: its outcome sets the status, its text, version and digest are the
      run's, its facts are on the trail, and an approval request exists exactly when it asks for one. A run that is not
      created, or a time to live out of range, is refused and nothing changes. */
  lemma PolicyEffect(s: State, r: RunId, d: Decision, ttl: int, now: Time, clock: Clock)
    requires Inv(s)
    ensures
      var (t, reply) := RecordPolicy(s, r, d, ttl, now, clock);
      if r in s.runs && s.runs[r].status == Created && 1 <= ttl <= 604800 then
        var q := s.runs[r].q;
        var digest := match d.digest case Some(text) => Given(text) case None => OfVersion(d.version);
        var status := match d.outcome
          case Allow => Created
          case Deny => Denied
          case ApprovalRequired => PendingApproval;
        var due := now + ttl * 1000000;
        var checked := PolicyChecked(d.outcome, d.version, digest, d.reason, d.facts);
        && reply == Done && r in t.runs
        && SameButAnchor(t.runs[r], s.runs[r].(
             status := status, version := Some(d.version), digest := Some(digest), reason := Some(d.reason),
             updatedAt := now))
        && ApprovalOf(t, r) == (
             if d.outcome == ApprovalRequired then
               Some(Approval(PendingApproval, q.fp, d.version, digest, q.actor, None, None, None, now, due, None))
             else None)
        && (d.outcome == Allow ==> Grew(s, t, r, [checked], [clock(0)]))
        && (d.outcome == Deny ==> Grew(s, t, r, [checked, RunDenied(d.reason)], [clock(0), clock(1)]))
        && (d.outcome == ApprovalRequired ==>
             Grew(s, t, r, [checked, ApprovalRequested(d.reason, d.version, digest, q.fp, due)], [clock(0), clock(1)]))
        && OthersSame(s, t, r) && t.index == s.index
      else
        t == s && reply == if !(1 <= ttl <= 604800) then Raised(ValueError)
                           else if r !in s.runs then Raised(KeyError)
                           else Raised(InvalidTransition)
  {
    hide Inv, Trail, Commit, Grew, OthersSame, RecordPolicy;
    if r in s.runs && s.runs[r].status == Created && 1 <= ttl <= 604800 {
      CreatedHasNoApproval(s, r);
      PolicyIsCommit(s, r, d, ttl, now, clock);
      OneTime(clock);
      forall row, approval, bodies { CommitEffect(s, r, row, approval, bodies, clock); }
    } else {
      PolicyRefused(s, r, d, ttl, now, clock);
    }
  }

  lemma PolicyIsCommit(s: State, r: RunId, d: Decision, ttl: int, now: Time, clock: Clock)
    requires r in s.runs && s.runs[r].status == Created && 1 <= ttl <= 604800
    ensures
      var q := s.runs[r].q;
      var digest := match d.digest case Some(text) => Given(text) case None => OfVersion(d.version);
      var due := now + ttl * 1000000;
      var checked := PolicyChecked(d.outcome, d.version, digest, d.reason, d.facts);
      var row := s.runs[r].(
        version := Some(d.version), digest := Some(digest), reason := Some(d.reason), updatedAt := now);
      var asked := Approval(PendingApproval, q.fp, d.version, digest, q.actor, None, None, None, now, due, None);
      var request := ApprovalRequested(d.reason, d.version, digest, q.fp, due);
      RecordPolicy(s, r, d, ttl, now, clock) == (match d.outcome
        case Allow => (Commit(s, r, row, None, [checked], clock), Done)
        case Deny => (Commit(s, r, row.(status := Denied), None, [checked, RunDenied(d.reason)], clock), Done)
        case ApprovalRequired =>
          (Commit(s, r, row.(status := PendingApproval), Some(asked), [checked, request], clock), Done))
  {
    hide Commit;
  }

  lemma PolicyRefused(s: State, r: RunId, d: Decision, ttl: int, now: Time, clock: Clock)
    requires !(r in s.runs && s.runs[r].status == Created && 1 <= ttl <= 604800)
    ensures RecordPolicy(s, r, d, ttl, now, clock) ==
      (s, if !(1 <= ttl <= 604800) then Raised(ValueError)
          else if r !in s.runs then Raised(KeyError)
          else Raised(InvalidTransition))
  {
    hide Commit;
  }

  lemma CreatedHasNoApproval(s: State, r: RunId)
    requires Inv(s) && r in s.runs && s.runs[r].status == Created
    ensures r !in s.approvals
  {
    hide Inv;
    if r in s.approvals { ApprovalMirrors(s, r); }
  }

  // ---- Approval ----

  /** A decision by someone who may decide a pending request: before expiry it is recorded as made, with the principal
      and note; at or after expiry the request lapses instead. Any other call leaves the tables alone. */
  lemma DecideEffect(
    s: State, r: RunId, approved: bool, p: Principal, note: string, required: seq<string>, allowSelf: bool,
    now: Time, clock: Clock)
    requires Inv(s)
    ensures
      var (t, reply) := DecideApproval(s, r, approved, p, note, required, allowSelf, now, clock);
      if MayDecide(s, r, p, required, allowSelf) && s.runs[r].status == PendingApproval then
        var run, a := s.runs[r], s.approvals[r];
        var status := if a.expiresAt <= now then ApprovalExpired else if approved then Approved else Rejected;
        && r in t.runs && OthersSame(s, t, r) && t.index == s.index
        && (a.expiresAt <= now ==>
             && reply == Flag(false) && SameButAnchor(t.runs[r], run.(status := status, updatedAt := now))
             && ApprovalOf(t, r) == Some(a.(status := status, decidedAt := Some(now)))
             && Grew(s, t, r, [ApprovalLapsed(a.expiresAt)], [clock(0)]))
        && (now < a.expiresAt ==>
             && reply == Flag(true)
             && SameButAnchor(t.runs[r], run.(status := status, reason := Some(note), updatedAt := now))
             && ApprovalOf(t, r) == Some(a.(
                  status := status, approver := Some(p.actor), authSource := Some(p.authSource), note := Some(note),
                  decidedAt := Some(now)))
             && Grew(s, t, r, [ApprovalDecided(approved, p.actor, p.authSource, note, run.q.fp, a.version, a.digest)],
                     [clock(0)]))
      else t == s && reply != Flag(true)
  {
    if r in s.approvals { ApprovalMirrors(s, r); }
    hide Inv, Trail, Commit, Grew, OthersSame, Shares;
    OneTime(clock);
    forall row, approval, bodies | r in s.runs { CommitEffect(s, r, row, approval, bodies, clock); }
  }

  // ---- Execution ----

  const EXPIRED_TEXT := "execution lease expired; provider outcome requires reconciliation"

  /** The run was taken from its lost worker: unknown, nobody's, with the one event that says so. */
  predicate TakenAway(s: State, t: State, r: RunId, now: Time, at: Time) {
    && r in s.runs && r in t.runs
    && SameButAnchor(t.runs[r], s.runs[r].(
         status := Unknown, reason := Some(EXPIRED_TEXT), owner := None, lease := None, updatedAt := now))
    && ApprovalOf(t, r) == ApprovalOf(s, r) && Grew(s, t, r, [ExecLeaseExpired(EXPIRED_TEXT)], [at])
  }

  lemma MarkEffect(s: State, r: RunId, now: Time, at: Time)
    requires r in s.runs
    ensures
      var t := MarkExpired(s, r, now, at);
      TakenAway(s, t, r, now, at) && OthersSame(s, t, r) && t.index == s.index
  {
    hide Trail, Commit, Grew, OthersSame;
    var clock: Clock := _ => at;
    OneTime(clock);
    var row := s.runs[r].(
      status := Unknown, reason := Some(LEASE_REASON), owner := None, lease := None, updatedAt := now);
    CommitEffect(s, r, row, None, [ExecLeaseExpired(LEASE_REASON)], clock);
  }

  /** A decided created run, or an approved one, was won: executing, with a lease end, and the events that say so. */
  predicate TakenUp(s: State, t: State, r: RunId, owner: string, due: Time, now: Time, times: seq<Time>) {
    && r in s.runs && r in t.runs && |times| == 2
    && SameButAnchor(t.runs[r], s.runs[r].(
         status := Executing, owner := Some(owner), lease := Some(due), attempt := 1, updatedAt := now))
    && ApprovalOf(t, r) == ApprovalOf(s, r)
    && (if s.runs[r].status == Approved then Grew(s, t, r, [RunResumed, ExecStarted(owner, 1, due)], times)
        else Grew(s, t, r, [ExecStarted(owner, 1, due)], times[..1]))
  }

  lemma ClaimIsCommit(s: State, r: RunId, owner: string, seconds: int, now: Time, clock: Clock)
    requires Inv(s) && r in s.runs && Claimable(s.runs[r]) && !IsBlank(owner) && 1 <= seconds <= 86400
    ensures
      var run, due := s.runs[r], now + seconds * 1000000;
      var row := run.(status := Executing, owner := Some(owner), lease := Some(due), attempt := 1, updatedAt := now);
      var started := ExecStarted(owner, 1, due);
      ClaimExecution(s, r, owner, seconds, now, clock)
        == (Commit(s, r, row, None, if run.status == Approved then [RunResumed, started] else [started], clock),
            Flag(true))
  {
    ColumnsMirrorStatus(s, r);
    hide Inv, Commit, IsBlank, MarkExpired;
  }

  lemma WinEffect(s: State, r: RunId, owner: string, seconds: int, now: Time, clock: Clock)
    requires Inv(s) && r in s.runs && Claimable(s.runs[r]) && !IsBlank(owner) && 1 <= seconds <= 86400
    ensures
      var (t, reply) := ClaimExecution(s, r, owner, seconds, now, clock);
      && reply == Flag(true) && OthersSame(s, t, r) && t.index == s.index
      && TakenUp(s, t, r, owner, now + seconds * 1000000, now, [clock(0), clock(1)])
  {
    hide Inv, Trail, Commit, Grew, OthersSame, IsBlank, ClaimExecution;
    ClaimIsCommit(s, r, owner, seconds, now, clock);
    OneTime(clock);
    var run, due := s.runs[r], now + seconds * 1000000;
    var row := run.(status := Executing, owner := Some(owner), lease := Some(due), attempt := 1, updatedAt := now);
    var started := ExecStarted(owner, 1, due);
    if run.status == Approved {
      CommitEffect(s, r, row, None, [RunResumed, started], clock);
    } else {
      CommitEffect(s, r, row, None, [started], clock);
      assert [clock(0), clock(1)][..1] == [clock(0)];
    }
  }

  /** A claim by a blank owner or for no legal time, or on an unknown run, is refused. Otherwise a due lease is taken
      away; a decided created run, or an approved one, is won with a lease of exactly the seconds asked for, not due
      before then; any other run is left alone. */
  lemma ClaimEffect(s: State, r: RunId, owner: string, seconds: int, now: Time, clock: Clock)
    requires Inv(s)
    ensures
      var (t, reply) := ClaimExecution(s, r, owner, seconds, now, clock);
      var due := now + seconds * 1000000;
      if IsBlank(owner) || !(1 <= seconds <= 86400) then t == s && reply == Raised(ValueError)
      else if r !in s.runs then t == s && reply == Raised(KeyError)
      else if s.runs[r].status == Executing && s.runs[r].lease.Some? && s.runs[r].lease.value <= now then
        reply == Flag(false) && TakenAway(s, t, r, now, clock(0)) && OthersSame(s, t, r)
      else if s.runs[r].status == Approved || (s.runs[r].status == Created && s.runs[r].version.Some?) then
        && reply == Flag(true) && OthersSame(s, t, r) && t.index == s.index
        && TakenUp(s, t, r, owner, due, now, [clock(0), clock(1)])
        && (forall later: Time :: LeaseDue(t.runs[r], later) <==> due <= later)
      else t == s && reply == Flag(false)
  {
    if r in s.runs { ColumnsMirrorStatus(s, r); }
    hide Inv, Trail, Commit, Grew, OthersSame, IsBlank, MarkExpired, TakenAway;
    if r !in s.runs || !LeaseArgumentsOk(owner, seconds) {
    } else if LeaseDue(s.runs[r], now) {
      MarkEffect(s, r, now, clock(0));
    } else if Claimable(s.runs[r]) {
      WinEffect(s, r, owner, seconds, now, clock);
    }
  }

  /** An accepted heartbeat moves the lease end to exactly the seconds asked for from now, and touches nothing else. */
  lemma HeartbeatEffect(s: State, r: RunId, owner: string, seconds: int, now: Time)
    ensures
      var (t, reply) := Heartbeat(s, r, owner, seconds, now);
      var due := now + seconds * 1000000;
      if IsBlank(owner) || !(1 <= seconds <= 86400) then t == s && reply == Raised(ValueError)
      else if r in s.runs && s.runs[r].status == Executing && s.runs[r].owner == Some(owner)
              && s.runs[r].lease.Some? && now < s.runs[r].lease.value then
        && reply == Flag(true) && t == s.(runs := s.runs[r := s.runs[r].(lease := Some(due), updatedAt := now)])
        && (forall later: Time :: LeaseDue(t.runs[r], later) <==> due <= later)
      else t == s && reply == Flag(false)
  {
    hide IsBlank;
  }

  /** The owner's report on its executing run ends it as reported, with the result or the reason, and exactly the events
      of that report; a report by anyone else, or on any other run, changes nothing. */
  lemma FinishEffect(s: State, r: RunId, owner: string, how: Finish, now: Time, clock: Clock)
    requires Inv(s)
    ensures
      var (t, reply) := FinishExecution(s, r, owner, how, now, clock);
      if r in s.runs && s.runs[r].status == Executing && s.runs[r].owner == Some(owner) then
        var left := s.runs[r].(owner := None, lease := None, updatedAt := now);
        && reply == Done && r in t.runs && OthersSame(s, t, r) && t.index == s.index
        && ApprovalOf(t, r) == ApprovalOf(s, r)
        && match how
           case Complete(v) =>
             && SameButAnchor(t.runs[r], left.(status := Completed, reason := None, result := v))
             && Grew(s, t, r, [ExecSucceeded, RunCompleted], [clock(0), clock(1)])
           case Fail(e) =>
             && SameButAnchor(t.runs[r], left.(
                  status := Failed, reason := Some("tool execution failed: " + e), result := None))
             && Grew(s, t, r, [ExecFailed(e)], [clock(0)])
           case Uncertain(e) =>
             && SameButAnchor(t.runs[r], left.(
                  status := Unknown, reason := Some("tool execution outcome uncertain: " + e), result := None))
             && Grew(s, t, r, [ExecUncertain(e, "tool execution outcome uncertain: " + e)], [clock(0)])
      else t == s && reply == Raised(InvalidTransition)
  {
    hide Inv, Trail, Commit, Grew, OthersSame;
    OneTime(clock);
    forall row, approval, bodies | r in s.runs { CommitEffect(s, r, row, approval, bodies, clock); }
  }

  // ---- Reconciliation ----

  /** A same-tenant principal's conclusion of an unknown run stands as given; anything else changes nothing. */
  lemma ReconcileEffect(
    s: State, r: RunId, status: Status, reason: string, result: Option<Json>, p: Principal, now: Time, clock: Clock)
    requires Inv(s)
    ensures
      var (t, reply) := ReconcileRun(s, r, status, reason, result, p, now, clock);
      if status in {Completed, Failed} && r in s.runs && p.tenant == s.runs[r].q.tenant
         && s.runs[r].status == Unknown then
        && reply == Flag(true) && r in t.runs && OthersSame(s, t, r) && ApprovalOf(t, r) == ApprovalOf(s, r)
        && SameButAnchor(t.runs[r], s.runs[r].(
             status := status, reason := Some(reason), result := result, updatedAt := now))
        && Grew(s, t, r, [RunReconciled(p.actor, p.authSource, status, reason)], [clock(0)])
      else
        t == s && reply == if status !in {Completed, Failed} then Raised(ValueError)
                           else if r !in s.runs then Raised(KeyError)
                           else if p.tenant != s.runs[r].q.tenant then Raised(ApprovalDenied)
                           else Flag(false)
  {
    hide Inv, Trail, Commit, Grew, OthersSame;
    OneTime(clock);
    forall row, approval, bodies | r in s.runs { CommitEffect(s, r, row, approval, bodies, clock); }
  }

  /** A same-tenant principal's well-formed observation of an unknown run is put on its trail; a definitive one also
      concludes the run, with the observed result; a pending one leaves the row as it was but for its anchor. */
  lemma ObserveEffect(s: State, r: RunId, o: Observation, p: Principal, now: Time, clock: Clock)
    requires Inv(s)
    requires o.outcome in {"committed", "not_committed", "pending"}
    requires o.status == if o.outcome == "committed" then Some(Completed)
                         else if o.outcome == "not_committed" then Some(Failed) else None
    requires o.outcome == "pending" ==> o.result == None
    ensures
      var (t, reply) := ApplyObservation(s, r, o, p, now, clock);
      if r in s.runs && p.tenant == s.runs[r].q.tenant && s.runs[r].status == Unknown then
        var seen := ProviderObserved(p.actor, p.authSource, o.provider, o.outcome, o.summary, o.reference);
        var reason := o.provider + " lookup: " + o.summary;
        var status := if o.outcome == "committed" then Completed else Failed;
        && reply == Flag(true) && r in t.runs && OthersSame(s, t, r) && ApprovalOf(t, r) == ApprovalOf(s, r)
        && (o.outcome == "pending" ==> SameButAnchor(t.runs[r], s.runs[r]) && Grew(s, t, r, [seen], [clock(0)]))
        && (o.outcome != "pending" ==>
             && SameButAnchor(t.runs[r], s.runs[r].(
                  status := status, reason := Some(reason), result := o.result, updatedAt := now))
             && Grew(s, t, r, [seen, RunReconciled(p.actor, p.authSource, status, reason)], [clock(0), clock(1)]))
      else
        t == s && reply == if r !in s.runs then Raised(KeyError)
                           else if p.tenant != s.runs[r].q.tenant then Raised(ApprovalDenied)
                           else Flag(false)
  {
    hide Inv, Trail, Commit, Grew, OthersSame;
    OneTime(clock);
    forall row, approval, bodies | r in s.runs { CommitEffect(s, r, row, approval, bodies, clock); }
  }

  /** An observation whose outcome, status and result disagree is refused and changes nothing. */
  lemma MalformedObservation(s: State, r: RunId, o: Observation, p: Principal, now: Time, clock: Clock)
    requires
      || o.outcome !in {"committed", "not_committed", "pending"}
      || (o.outcome == "committed" && o.status != Some(Completed))
      || (o.outcome == "not_committed" && o.status != Some(Failed))
      || (o.outcome == "pending" && (o.status.Some? || o.result.Some?))
    ensures ApplyObservation(s, r, o, p, now, clock) == (s, Raised(ValueError))
  {
  }

  // ---- Sweeps ----

  lemma AwayFromHere(s: State, u: State, t: State, r: RunId, now: Time, at: Time)
    requires Untouched(s, u, r) && TakenAway(u, t, r, now, at)
    ensures TakenAway(s, t, r, now, at)
  {
    hide Trail;
  }

  lemma AwayStays(s: State, u: State, t: State, r: RunId, now: Time, at: Time)
    requires TakenAway(s, u, r, now, at) && Untouched(u, t, r)
    ensures TakenAway(s, t, r, now, at)
  {
    hide Trail;
  }

  lemma UntouchedOnwards(s: State, u: State, t: State, r: RunId)
    requires Untouched(s, u, r) && Untouched(u, t, r)
    ensures Untouched(s, t, r)
  {
    hide Trail;
  }

  ghost predicate AllTakenAway(s: State, t: State, ids: seq<RunId>, now: Time, clock: Clock) {
    && s.runs.Keys == t.runs.Keys
    && (forall k :: 0 <= k < |ids| ==> TakenAway(s, t, ids[k], now, clock(k)))
    && (forall r :: r in s.runs && r !in ids ==> Untouched(s, t, r))
  }

  lemma {:induction false} RecoverEachEffect(s: State, rows: seq<RunId>, now: Time, clock: Clock)
    ensures var x := RecoverEach(s, rows, now, clock); AllTakenAway(s, x.0, x.1, now, clock)
  {
    hide Trail, MarkExpired, TakenAway, Untouched;
    if rows == [] {
      SelfUntouched(s);
    } else {
      var n := |rows| - 1;
      RecoverEachEffect(s, rows[..n], now, clock);
      var x := RecoverEach(s, rows[..n], now, clock);
      if rows[n] in x.0.runs && x.0.runs[rows[n]].status == Executing {
        MarkEffect(x.0, rows[n], now, clock(|x.1|));
        OneMoreAway(s, x.0, MarkExpired(x.0, rows[n], now, clock(|x.1|)), x.1, rows[n], now, clock);
      }
    }
  }

  lemma SelfUntouched(s: State)
    ensures forall r :: r in s.runs ==> Untouched(s, s, r)
  {
  }

  lemma AwayIsUnknown(s: State, t: State, r: RunId, now: Time, at: Time)
    requires TakenAway(s, t, r, now, at)
    ensures r in t.runs && t.runs[r].status == Unknown
  {
    hide Trail, Grew;
  }

  lemma OneMoreAway(s: State, u: State, t: State, ids: seq<RunId>, r: RunId, now: Time, clock: Clock)
    requires AllTakenAway(s, u, ids, now, clock) && r in u.runs && u.runs[r].status == Executing
    requires TakenAway(u, t, r, now, clock(|ids|)) && OthersSame(u, t, r)
    ensures AllTakenAway(s, t, ids + [r], now, clock)
  {
    hide Trail, TakenAway, Untouched;
    assert r !in ids by {
      if r in ids {
        var k :| 0 <= k < |ids| && ids[k] == r;
        AwayIsUnknown(s, u, r, now, clock(k));
      }
    }
    forall k | 0 <= k < |ids + [r]| ensures TakenAway(s, t, (ids + [r])[k], now, clock(k)) {
      if k < |ids| {
        AwayIsUnknown(s, u, ids[k], now, clock(k));
        AwayStays(s, u, t, ids[k], now, clock(k));
      } else {
        AwayFromHere(s, u, t, r, now, clock(k));
      }
    }
    forall x | x in s.runs && x !in ids + [r] ensures Untouched(s, t, x) {
      assert x !in ids by { assert forall y :: y in ids ==> y in ids + [r]; }
      assert x != r by { assert r in ids + [r]; }
      UntouchedOnwards(s, u, t, x);
    }
  }

  /** Each run the lease sweep returns was taken from its worker, the k-th at the k-th event instant; no other moved. */
  lemma RecoverEffect(s: State, scan: seq<RunId>, tenant: Option<string>, now: Time, clock: Clock)
    ensures
      var (t, reply) := RecoverExpired(s, scan, tenant, now, clock);
      reply.Ids? && AllTakenAway(s, t, reply.ids, now, clock)
  {
    hide RecoverEach, OverdueLeases, AllTakenAway;
    RecoverEachEffect(s, OverdueLeases(s, scan, tenant, now), now, clock);
  }

  /** The request lapsed: run and approval say so, and one event with the request's own expiry. */
  predicate Lapses(s: State, t: State, r: RunId, now: Time, at: Time) {
    && r in s.runs && r in t.runs && r in s.approvals
    && SameButAnchor(t.runs[r], s.runs[r].(status := ApprovalExpired, updatedAt := now))
    && ApprovalOf(t, r) == Some(s.approvals[r].(status := ApprovalExpired, decidedAt := Some(now)))
    && Grew(s, t, r, [ApprovalLapsed(s.approvals[r].expiresAt)], [at])
  }

  ghost predicate AllLapsed(s: State, t: State, ids: seq<RunId>, now: Time, clock: Clock) {
    && s.runs.Keys == t.runs.Keys
    && (forall k :: 0 <= k < |ids| ==> Lapses(s, t, ids[k], now, clock(k)))
    && (forall r :: r in s.runs && r !in ids ==> Untouched(s, t, r))
  }

  lemma LapseEffect(s: State, r: RunId, expiresAt: Time, now: Time, at: Time)
    requires r in s.runs && r in s.approvals && s.approvals[r].expiresAt == expiresAt
    ensures
      var t := Commit(s, r, s.runs[r].(status := ApprovalExpired, updatedAt := now), Some(Lapsed(s.approvals[r], now)),
                      [ApprovalLapsed(expiresAt)], _ => at);
      Lapses(s, t, r, now, at) && OthersSame(s, t, r)
  {
    hide Trail, Commit, Grew, OthersSame;
    var clock: Clock := _ => at;
    OneTime(clock);
    CommitEffect(s, r, s.runs[r].(status := ApprovalExpired, updatedAt := now), Some(Lapsed(s.approvals[r], now)),
                 [ApprovalLapsed(expiresAt)], _ => at);
    assert Times(_ => at, 1) == [at];
  }

  lemma LapsedIsExpired(s: State, t: State, r: RunId, now: Time, at: Time)
    requires Lapses(s, t, r, now, at)
    ensures r in t.runs && t.runs[r].status == ApprovalExpired
  {
    hide Trail, Grew;
  }

  lemma LapseStays(s: State, u: State, t: State, r: RunId, now: Time, at: Time)
    requires Lapses(s, u, r, now, at) && Untouched(u, t, r)
    ensures Lapses(s, t, r, now, at)
  {
    hide Trail;
  }

  lemma LapseFromHere(s: State, u: State, t: State, r: RunId, now: Time, at: Time)
    requires Untouched(s, u, r) && Lapses(u, t, r, now, at)
    ensures Lapses(s, t, r, now, at)
  {
    hide Trail;
  }

  lemma OneMoreLapsed(s: State, u: State, t: State, ids: seq<RunId>, r: RunId, now: Time, clock: Clock)
    requires AllLapsed(s, u, ids, now, clock) && r in u.runs && u.runs[r].status == PendingApproval
    requires Lapses(u, t, r, now, clock(|ids|)) && OthersSame(u, t, r)
    ensures AllLapsed(s, t, ids + [r], now, clock)
  {
    hide Trail, Lapses, Untouched;
    assert r !in ids by {
      if r in ids {
        var k :| 0 <= k < |ids| && ids[k] == r;
        LapsedIsExpired(s, u, r, now, clock(k));
      }
    }
    forall k | 0 <= k < |ids + [r]| ensures Lapses(s, t, (ids + [r])[k], now, clock(k)) {
      if k < |ids| {
        LapsedIsExpired(s, u, ids[k], now, clock(k));
        LapseStays(s, u, t, ids[k], now, clock(k));
      } else {
        LapseFromHere(s, u, t, r, now, clock(k));
      }
    }
    forall x | x in s.runs && x !in ids + [r] ensures Untouched(s, t, x) {
      assert x !in ids by { assert forall y :: y in ids ==> y in ids + [r]; }
      assert x != r by { assert r in ids + [r]; }
      UntouchedOnwards(s, u, t, x);
    }
  }

  lemma {:induction false} ExpireEachEffect(s: State, rows: seq<(RunId, Time)>, now: Time, clock: Clock)
    requires forall row :: row in rows ==> row.0 in s.approvals && s.approvals[row.0].expiresAt == row.1
    ensures var x := ExpireEach(s, rows, now, clock); x.Swept? ==> AllLapsed(s, x.state, x.ids, now, clock)
  {
    hide Trail, Commit, Lapses, Untouched, Lapsed;
    if rows == [] {
      SelfUntouched(s);
    } else {
      var n := |rows| - 1;
      ExpireEachEffect(s, rows[..n], now, clock);
      var x := ExpireEach(s, rows[..n], now, clock);
      var r := rows[n].0;
      assert rows[n] in rows;
      if x.Swept? && r in x.state.approvals && x.state.approvals[r].status == PendingApproval
         && r in x.state.runs && x.state.runs[r].status == PendingApproval {
        StillPending(s, x.state, x.ids, r, now, clock);
        LapseEffect(x.state, r, rows[n].1, now, clock(|x.ids|));
        OneMoreLapsed(s, x.state, ExpireEach(s, rows, now, clock).state, x.ids, r, now, clock);
      }
    }
  }

  lemma StillPending(s: State, u: State, ids: seq<RunId>, r: RunId, now: Time, clock: Clock)
    requires AllLapsed(s, u, ids, now, clock) && r in u.runs && u.runs[r].status == PendingApproval
    ensures ApprovalOf(u, r) == ApprovalOf(s, r)
  {
    hide Trail, Lapses;
    if r in ids {
      var k :| 0 <= k < |ids| && ids[k] == r;
      LapsedIsExpired(s, u, r, now, clock(k));
    }
  }

  /** Each request the approval sweep returns has lapsed, the k-th at the k-th event instant; no other run moved. */
  lemma ExpireEffect(s: State, scan: seq<RunId>, tenant: Option<string>, now: Time, clock: Clock)
    requires Inv(s)
    ensures
      var (t, reply) := ExpireApprovals(s, scan, tenant, now, clock);
      reply.Ids? && AllLapsed(s, t, reply.ids, now, clock)
  {
    hide Inv, Trail, AllLapsed, ExpireEach, Moved;
    ExpireMoves(s, scan, tenant, now, clock);
    OverdueApprovalsAre(s, scan, tenant, now);
    ExpireEachEffect(s, OverdueApprovals(s, scan, tenant, now), now, clock);
  }
}
