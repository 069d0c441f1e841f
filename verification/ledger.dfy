/** The ledger object: its tables, updated in place by one method per public call.

    Each method is one serialized transaction; its contract equates the tables it leaves and the reply it gives
    with `Histories.Apply`. `scan` is the order in which the engine happens to visit a table. */
module Ledger {
  import opened Text
  import opened Models
  import opened Trails
  import opened LedgerSpec
  import opened LedgerProofs
  import opened Metrics
  import opened Histories

  lemma AppendOne(s: State, r: RunId, a: Body, clock: Clock)
    requires r in s.runs
    ensures AppendAll(s, r, [a], clock) == Append(s, r, a, clock(0))
  {
    assert [a][..0] == [];
  }

  lemma AppendTwo(s: State, r: RunId, a: Body, b: Body, clock: Clock)
    requires r in s.runs
    ensures AppendAll(s, r, [a, b], clock) == Append(Append(s, r, a, clock(0)), r, b, clock(1))
  {
    assert [a, b][..1] == [a];
    AppendOne(s, r, a, clock);
  }

  lemma PairIsExpireOne(s: State, ids: seq<RunId>, row: (RunId, Time), now: Time, clock: Clock)
    ensures
      var r := row.0;
      var first := r in s.approvals && s.approvals[r].status == PendingApproval;
      var second := r in s.runs && s.runs[r].status == PendingApproval;
      var x := ExpireOne(Swept(s, ids), row, now, clock);
      && (x.Torn? <==> first != second)
      && (!first && !second ==> x == Swept(s, ids))
      && (first && second ==>
           x == Swept(Commit(s, r, s.runs[r].(status := ApprovalExpired, updatedAt := now),
                             Some(Lapsed(s.approvals[r], now)), [ApprovalLapsed(row.1)], _ => clock(|ids|)),
                      ids + [r]))
  {
    if row.0 in s.runs && row.0 in s.approvals {
      var k := clock(|ids|);
      CommitByClock(s, row.0, s.runs[row.0].(status := ApprovalExpired, updatedAt := now),
                    Some(Lapsed(s.approvals[row.0], now)), ApprovalLapsed(row.1), _ => clock(|ids|), k);
    }
  }

  lemma CommitByClock(s: State, r: RunId, row: Run, approval: Option<Approval>, body: Body, c: Clock, k: Time)
    requires c(0) == k
    ensures Commit(s, r, row, approval, [body], c) == Commit(s, r, row, approval, [body], _ => k)
  {
    var approvals := if approval.Some? then s.approvals[r := approval.value] else s.approvals;
    AppendOne(s.(runs := s.runs[r := row], approvals := approvals), r, body, c);
    AppendOne(s.(runs := s.runs[r := row], approvals := approvals), r, body, _ => k);
  }

  class SQLiteActionLedger {
    var runs: map<RunId, Run>
    var index: map<IdemKey, RunId>
    var approvals: map<RunId, Approval>
    var events: seq<Event>

    ghost function Tables(): State
      reads this
    {
      State(runs, index, approvals, events)
    }

    constructor ()
      ensures Tables() == Reached([])
    {
      runs, index, approvals, events := map[], map[], map[], [];
    }

    /** Inserts the next event of `r` and moves its anchor; `false` means the anchor's UPDATE matched no row. */
    method AppendEvent(r: RunId, body: Body, at: Time) returns (anchored: bool)
      modifies this`runs, this`events
      ensures anchored <==> r in old(runs)
      ensures anchored ==> Tables() == Append(old(Tables()), r, body, at)
      ensures events == old(events) + [NextEvent(old(events), r, body, at)]
      ensures !anchored ==> runs == old(runs)
    {
      var prev := LatestHash(events, r);
      var hash := Digest(r, body, prev, at);
      events := events + [Event(r, body, prev, Some(hash), at)];
      if r !in runs { return false; }
      runs := runs[r := runs[r].(eventCount := runs[r].eventCount + 1, head := Some(hash))];
      anchored := true;
    }

    method CreateOrGetRun(r: RunId, q: Request, now: Time) returns (reply: Reply)
      modifies this
      ensures (Tables(), reply) == Apply(old(Tables()), OpCreate(r, q, now))
    {
      var created := r !in runs && KeyOf(q) !in index;
      if created {
        runs := runs[r := NewRun(q, now)];
        index := index[KeyOf(q) := r];
      }
      if KeyOf(q) !in index || index[KeyOf(q)] !in runs { return Raised(RuntimeError); }
      var found := index[KeyOf(q)];
      if runs[found].q.fp != q.fp { return Raised(IdempotencyConflict); }
      if created {
        var _ := AppendEvent(r, RunCreated(q.action, q.risk, q.fp), now);
      }
      reply := Fetched(found, created);
    }

    method RecordDuplicate(r: RunId) returns (reply: Reply)
      modifies this`runs
      ensures (Tables(), reply) == Apply(old(Tables()), OpDuplicate(r))
    {
      if r !in runs { return Raised(KeyError); }
      runs := runs[r := runs[r].(duplicates := runs[r].duplicates + 1)];
      reply := Done;
    }

    method RecordPolicyDecision(r: RunId, d: Decision, ttl: int, now: Time, clock: Clock) returns (reply: Reply)
      modifies this
      ensures (Tables(), reply) == Apply(old(Tables()), OpPolicy(r, d, ttl, now, clock))
    {
      hide Append, AppendAll, NextEvent;
      if !(1 <= ttl <= 604800) { return Raised(ValueError); }
      var digest := DigestOf(d);
      if r !in runs { return Raised(KeyError); }
      var run := runs[r];
      if run.status != Created { return Raised(InvalidTransition); }
      var next := match d.outcome case Deny => Denied case ApprovalRequired => PendingApproval case Allow => Created;
      runs := runs[r := run.(
        status := next, version := Some(d.version), digest := Some(digest), reason := Some(d.reason),
        updatedAt := now)];
      var checked := PolicyChecked(d.outcome, d.version, digest, d.reason, d.facts);
      var expiresAt := now + ttl * SECOND;
      if next == PendingApproval {
        approvals := approvals[r := Approval(
          PendingApproval, run.q.fp, d.version, digest, run.q.actor, None, None, None, now, expiresAt, None)];
      }
      ghost var s := Tables();
      var _ := AppendEvent(r, checked, clock(0));
      if next == Denied {
        AppendTwo(s, r, checked, RunDenied(d.reason), clock);
        var _ := AppendEvent(r, RunDenied(d.reason), clock(1));
      } else if next == PendingApproval {
        var requested := ApprovalRequested(d.reason, d.version, digest, run.q.fp, expiresAt);
        AppendTwo(s, r, checked, requested, clock);
        var _ := AppendEvent(r, requested, clock(1));
      } else {
        AppendOne(s, r, checked, clock);
      }
      reply := Done;
    }

    method DecideApproval(
      r: RunId, approved: bool, p: Principal, note: string, required: seq<string>, allowSelf: bool,
      now: Time, clock: Clock) returns (reply: Reply)
      modifies this
      ensures (Tables(), reply) == Apply(old(Tables()), OpDecide(r, approved, p, note, required, allowSelf, now, clock))
    {
      var next := if approved then Approved else Rejected;
      if r !in runs || r !in approvals { return Raised(KeyError); }
      var run, a := runs[r], approvals[r];
      if p.tenant != run.q.tenant { return Raised(ApprovalDenied); }
      if !Shares(required, p.roles) { return Raised(ApprovalDenied); }
      if !allowSelf && p.actor == a.requester { return Raised(ApprovalDenied); }
      if a.status != PendingApproval { return Flag(false); }
      if run.status != PendingApproval { return Raised(InvalidTransition); }
      if a.expiresAt <= now {
        approvals := approvals[r := a.(status := ApprovalExpired, decidedAt := Some(now))];
        runs := runs[r := run.(status := ApprovalExpired, updatedAt := now)];
        AppendOne(Tables(), r, ApprovalLapsed(a.expiresAt), clock);
        var _ := AppendEvent(r, ApprovalLapsed(a.expiresAt), clock(0));
        return Flag(false);
      }
      if run.q.fp != a.fp || run.version != Some(a.version) || run.digest != Some(a.digest) {
        return Raised(ApprovalDenied);
      }
      approvals := approvals[r := a.(
        status := next, approver := Some(p.actor), authSource := Some(p.authSource), note := Some(note),
        decidedAt := Some(now))];
      runs := runs[r := run.(status := next, reason := Some(note), updatedAt := now)];
      var body := ApprovalDecided(approved, p.actor, p.authSource, note, run.q.fp, a.version, a.digest);
      AppendOne(Tables(), r, body, clock);
      var _ := AppendEvent(r, body, clock(0));
      reply := Flag(true);
    }

    /** The sweep's two guarded updates of one row, with the event appended when both matched. */
    method ExpirePair(r: RunId, expiresAt: Time, now: Time, at: Time) returns (first: bool, second: bool)
      modifies this
      ensures index == old(index)
      ensures first <==> r in old(approvals) && old(approvals)[r].status == PendingApproval
      ensures second <==> r in old(runs) && old(runs)[r].status == PendingApproval
      ensures !first && !second ==> Tables() == old(Tables())
      ensures first && second ==>
        Tables() == Commit(old(Tables()), r, old(runs)[r].(status := ApprovalExpired, updatedAt := now),
                           Some(Lapsed(old(approvals)[r], now)), [ApprovalLapsed(expiresAt)], _ => at)
    {
      hide Append, NextEvent;
      first := r in approvals && approvals[r].status == PendingApproval;
      if first {
        approvals := approvals[r := approvals[r].(status := ApprovalExpired, decidedAt := Some(now))];
      }
      second := r in runs && runs[r].status == PendingApproval;
      if second {
        runs := runs[r := runs[r].(status := ApprovalExpired, updatedAt := now)];
      }
      if first && second {
        AppendOne(Tables(), r, ApprovalLapsed(expiresAt), _ => at);
        var _ := AppendEvent(r, ApprovalLapsed(expiresAt), at);
      }
    }

    /** Expires every overdue request the scan meets; a torn pair rolls the whole sweep back. */
    method ExpireApprovals(scan: seq<RunId>, tenant: Option<string>, now: Time, clock: Clock) returns (reply: Reply)
      modifies this
      ensures (Tables(), reply) == Apply(old(Tables()), OpExpire(scan, tenant, now, clock))
    {
      hide Append, AppendAll, Commit, NextEvent, OverdueApprovals, ExpireOne, Lapsed;
      var rows := OverdueApprovals(State(runs, index, approvals, events), scan, tenant, now);
      var savedRuns, savedApprovals, savedEvents := runs, approvals, events;
      var expired: seq<RunId> := [];
      for i := 0 to |rows|
        invariant index == old(index)
        invariant ExpireEach(old(Tables()), rows[..i], now, clock) == Swept(Tables(), expired)
      {
        assert rows[..i + 1][..i] == rows[..i];
        ghost var s := Tables();
        var first, second := ExpirePair(rows[i].0, rows[i].1, now, clock(|expired|));
        PairIsExpireOne(s, expired, rows[i], now, clock);
        if first && second {
          expired := expired + [rows[i].0];
        } else if first != second {
          TornForGood(old(Tables()), rows, i + 1, now, clock);
          runs, approvals, events := savedRuns, savedApprovals, savedEvents;
          return Raised(InvalidTransition);
        }
      }
      assert rows[..|rows|] == rows;
      reply := Ids(expired);
    }

    method ClaimExecution(r: RunId, owner: string, seconds: int, now: Time, clock: Clock) returns (reply: Reply)
      modifies this
      ensures (Tables(), reply) == Apply(old(Tables()), OpClaim(r, owner, seconds, now, clock))
    {
      hide Append, AppendAll, NextEvent, MarkExpired, IsBlank;
      if IsBlank(owner) || !(1 <= seconds <= 86400) { return Raised(ValueError); }
      var leaseEnd := now + seconds * SECOND;
      if r !in runs { return Raised(KeyError); }
      var run := runs[r];
      if run.status == Executing && run.lease.Some? && run.lease.value <= now {
        var _ := MarkExpiredExecution(r, now, clock(0));
        return Flag(false);
      }
      if !(run.status in {Created, Approved} && run.version.Some?) { return Flag(false); }
      runs := runs[r := run.(
        status := Executing, owner := Some(owner), lease := Some(leaseEnd), attempt := run.attempt + 1,
        updatedAt := now)];
      var started := ExecStarted(owner, runs[r].attempt, leaseEnd);
      if run.status == Approved {
        AppendTwo(Tables(), r, RunResumed, started, clock);
        var _ := AppendEvent(r, RunResumed, clock(0));
        var _ := AppendEvent(r, started, clock(1));
      } else {
        AppendOne(Tables(), r, started, clock);
        var _ := AppendEvent(r, started, clock(0));
      }
      reply := Flag(true);
    }

    method HeartbeatExecution(r: RunId, owner: string, seconds: int, now: Time) returns (reply: Reply)
      modifies this`runs
      ensures (Tables(), reply) == Apply(old(Tables()), OpHeartbeat(r, owner, seconds, now))
    {
      if IsBlank(owner) || !(1 <= seconds <= 86400) { return Raised(ValueError); }
      var expiresAt := now + seconds * SECOND;
      if r in runs && Renewable(runs[r], owner, now) {
        runs := runs[r := runs[r].(lease := Some(expiresAt), updatedAt := now)];
        return Flag(true);
      }
      reply := Flag(false);
    }

    method FinishExecution(r: RunId, owner: string, how: Finish, now: Time, clock: Clock) returns (reply: Reply)
      modifies this
      ensures (Tables(), reply) == Apply(old(Tables()), OpFinish(r, owner, how, now, clock))
    {
      hide Append, NextEvent;
      if !(r in runs && runs[r].status == Executing && runs[r].owner == Some(owner)) {
        return Raised(InvalidTransition);
      }
      runs := runs[r := FinishRow(runs[r], how, now)];
      var bodies := FinishBodies(how);
      ghost var s := Tables();
      for i := 0 to |bodies|
        invariant r in runs
        invariant Tables() == AppendAll(s, r, bodies[..i], clock)
      {
        assert bodies[..i + 1][..i] == bodies[..i];
        var _ := AppendEvent(r, bodies[i], clock(i));
      }
      assert bodies[..|bodies|] == bodies;
      reply := Done;
    }

    method MarkExpiredExecution(r: RunId, now: Time, at: Time) returns (moved: bool)
      modifies this`runs, this`events
      ensures moved <==> r in old(runs) && old(runs)[r].status == Executing
      ensures Tables() == if moved then MarkExpired(old(Tables()), r, now, at) else old(Tables())
    {
      if !(r in runs && runs[r].status == Executing) { return false; }
      runs := runs[r := runs[r].(
        status := Unknown, reason := Some(LEASE_REASON), owner := None, lease := None, updatedAt := now)];
      AppendOne(Tables(), r, ExecLeaseExpired(LEASE_REASON), _ => at);
      var _ := AppendEvent(r, ExecLeaseExpired(LEASE_REASON), at);
      moved := true;
    }

    method RecoverExpiredExecutions(scan: seq<RunId>, tenant: Option<string>, now: Time, clock: Clock)
      returns (reply: Reply)
      modifies this
      ensures (Tables(), reply) == Apply(old(Tables()), OpRecover(scan, tenant, now, clock))
    {
      var rows := OverdueLeases(State(runs, index, approvals, events), scan, tenant, now);
      var recovered: seq<RunId> := [];
      for i := 0 to |rows|
        invariant (Tables(), recovered) == RecoverEach(old(Tables()), rows[..i], now, clock)
      {
        assert rows[..i + 1][..i] == rows[..i];
        var moved := MarkExpiredExecution(rows[i], now, clock(|recovered|));
        if moved { recovered := recovered + [rows[i]]; }
      }
      assert rows[..|rows|] == rows;
      reply := Ids(recovered);
    }

    method ReconcileRun(
      r: RunId, status: Status, reason: string, result: Option<Json>, p: Principal, now: Time, clock: Clock)
      returns (reply: Reply)
      modifies this
      ensures (Tables(), reply) == Apply(old(Tables()), OpReconcile(r, status, reason, result, p, now, clock))
    {
      if status !in {Completed, Failed} { return Raised(ValueError); }
      if r !in runs { return Raised(KeyError); }
      if p.tenant != runs[r].q.tenant { return Raised(ApprovalDenied); }
      if runs[r].status != Unknown { return Flag(false); }
      runs := runs[r := runs[r].(status := status, reason := Some(reason), result := result, updatedAt := now)];
      var body := RunReconciled(p.actor, p.authSource, status, reason);
      AppendOne(Tables(), r, body, clock);
      var _ := AppendEvent(r, body, clock(0));
      reply := Flag(true);
    }

    method ApplyProviderObservation(r: RunId, o: Observation, p: Principal, now: Time, clock: Clock)
      returns (reply: Reply)
      modifies this
      ensures (Tables(), reply) == Apply(old(Tables()), OpObserve(r, o, p, now, clock))
    {
      hide AppendAll, NextEvent, ObservationOk, LookupReason;
      if !ObservationOk(o) { return Raised(ValueError); }
      if r !in runs { return Raised(KeyError); }
      if p.tenant != runs[r].q.tenant { return Raised(ApprovalDenied); }
      if runs[r].status != Unknown { return Flag(false); }
      var seen := ProviderObserved(p.actor, p.authSource, o.provider, o.outcome, o.summary, o.reference);
      if o.status.None? {
        assert runs == runs[r := runs[r]];
        AppendOne(Tables(), r, seen, clock);
        var _ := AppendEvent(r, seen, clock(0));
        return Flag(true);
      }
      var ends := RunReconciled(p.actor, p.authSource, o.status.value, LookupReason(o));
      ghost var row := runs[r].(
        status := o.status.value, reason := Some(LookupReason(o)), result := o.result, updatedAt := now);
      ghost var committed := Tables().(runs := runs[r := row]);
      AppendTwo(committed, r, seen, ends, clock);
      var _ := AppendEvent(r, seen, clock(0));
      runs := runs[r := runs[r].(
        status := o.status.value, reason := Some(LookupReason(o)), result := o.result, updatedAt := now)];
      assert Tables() == Append(committed, r, seen, clock(0));
      var _ := AppendEvent(r, ends, clock(1));
      reply := Flag(true);
    }

    /** Walks a run's events and recomputes each hash; true exactly when the snapshot verifies. */
    method VerifyEventChain(r: RunId) returns (ok: bool)
      ensures ok <==> r in runs && Verified(r, Trail(events, r), runs[r].eventCount, runs[r].head)
    {
      if r !in runs { return false; }
      var run, rows := runs[r], Trail(events, r);
      var prev: Option<Hash> := None;
      for i := 0 to |rows|
        invariant Sealed(r, rows[..i]) && prev == ChainHead(r, rows[..i])
      {
        assert rows[..i + 1][..i] == rows[..i];
        var expected := Digest(r, rows[i].body, prev, rows[i].at);
        if rows[i].prev != prev || rows[i].hash != Some(expected) {
          BrokenForGood(r, rows, i + 1);
          return false;
        }
        prev := rows[i].hash;
      }
      assert rows[..|rows|] == rows;
      ok := run.eventCount == |rows| && run.head == prev;
    }

    /** Counts approvals by status, and the pending ones already past their expiry. */
    method ApprovalCounts(scan: seq<RunId>, tenant: Option<string>, now: Time)
      returns (counts: map<Status, nat>, expiredPending: nat)
      requires (forall r :: r in approvals ==> r in scan) && forall i, j :: 0 <= i < j < |scan| ==> scan[i] != scan[j]
      ensures forall status :: Tally(counts, status) == ApprovalCount(Tables(), tenant, status)
      ensures expiredPending == |PendingLapsed(Tables(), tenant, now)|
    {
      var s := State(runs, index, approvals, events);
      counts, expiredPending := map[], 0;
      for i := 0 to |scan|
        invariant forall status :: Tally(counts, status) == |Seen(ApprovalsIn(s, tenant, status), scan[..i])|
        invariant expiredPending == |Seen(PendingLapsed(s, tenant, now), scan[..i])|
      {
        var r := scan[i];
        if r in approvals && InScope(s, r, tenant) {
          var status := approvals[r].status;
          counts := counts[status := (if status in counts then counts[status] else 0) + 1];
          if status == PendingApproval && approvals[r].expiresAt <= now {
            expiredPending := expiredPending + 1;
          }
        }
        forall status { SeenOneMore(ApprovalsIn(s, tenant, status), scan, i); }
        SeenOneMore(PendingLapsed(s, tenant, now), scan, i);
      }
      forall status { SeenAll(ApprovalsIn(s, tenant, status), scan); }
      SeenAll(PendingLapsed(s, tenant, now), scan);
    }
  }

  function Tally(counts: map<Status, nat>, status: Status): nat { if status in counts then counts[status] else 0 }

  function Seen(rows: set<RunId>, scan: seq<RunId>): set<RunId> { set x | x in rows && x in scan }

  lemma SeenOneMore(rows: set<RunId>, scan: seq<RunId>, i: nat)
    requires i < |scan| && forall j :: 0 <= j < i ==> scan[j] != scan[i]
    ensures |Seen(rows, scan[..i + 1])| == |Seen(rows, scan[..i])| + Bit(scan[i] in rows)
  {
    assert scan[..i + 1] == scan[..i] + [scan[i]];
    var a, b := Seen(rows, scan[..i]), Seen(rows, scan[..i + 1]);
    assert b == if scan[i] in rows then a + {scan[i]} else a;
  }

  lemma SeenAll(rows: set<RunId>, scan: seq<RunId>)
    requires rows <= set r | r in scan
    ensures Seen(rows, scan[..|scan|]) == rows
  {
    assert scan[..|scan|] == scan;
  }

  /** Once a sweep is torn, the rows after cannot mend it. */
  lemma {:induction false} TornForGood(s: State, rows: seq<(RunId, Time)>, n: nat, now: Time, clock: Clock)
    requires n <= |rows| && ExpireEach(s, rows[..n], now, clock).Torn?
    ensures ExpireEach(s, rows, now, clock).Torn?
  {
    if n == |rows| {
      assert rows[..n] == rows;
    } else {
      assert rows[..|rows| - 1][..n] == rows[..n];
      TornForGood(s, rows[..|rows| - 1], n, now, clock);
    }
  }

  lemma BrokenForGood(r: RunId, rows: seq<Event>, n: nat)
    requires n <= |rows| && !Sealed(r, rows[..n])
    ensures !Sealed(r, rows)
  {
    if Sealed(r, rows) { SealedPrefix(r, rows, n); }
  }
}
