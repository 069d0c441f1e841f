/** The duplicate-retry figure, tied to the calls that made it. */
module Duplicates {
  import opened Text
  import opened Models
  import opened Trails
  import opened LedgerSpec
  import opened LedgerProofs
  import opened LedgerSteps
  import opened LedgerSweeps
  import opened Histories
  import opened Metrics
  import opened Tenancy

  /** How often run `r` was recorded as a duplicate. */
  function Recorded(ops: seq<Op>, r: RunId): nat {
    if ops == [] then 0
    else
      var n := |ops| - 1;
      Recorded(ops[..n], r) + Bit(ops[n].OpDuplicate? && ops[n].run == r && r in Reached(ops[..n]).runs)
  }

  /** Only the duplicate call touches the count. */
  ghost predicate SameDuplicates(s: State, t: State) {
    forall r :: PerRunDuplicates(t)(r) == PerRunDuplicates(s)(r)
  }

  lemma MarkKeepsCount(s: State, r: RunId, now: Time, at: Time)
    requires r in s.runs
    ensures SameDuplicates(s, MarkExpired(s, r, now, at))
  {
    hide Commit, Trail;
    var row := s.runs[r].(
      status := Unknown, reason := Some(LEASE_REASON), owner := None, lease := None, updatedAt := now);
    CommitKeepsCount(s, r, row, None, [ExecLeaseExpired(LEASE_REASON)], _ => at);
  }

  lemma CommitKeepsCount(s: State, r: RunId, row: Run, approval: Option<Approval>, bodies: seq<Body>, clock: Clock)
    requires r in s.runs && row.duplicates == s.runs[r].duplicates
    ensures SameDuplicates(s, Commit(s, r, row, approval, bodies, clock))
  {
    hide Commit, Trail;
    CommitRow(s, r, row, approval, bodies, clock);
    CommitFrame(s, r, row, approval, bodies, clock);
    var t := Commit(s, r, row, approval, bodies, clock);
    forall x ensures PerRunDuplicates(t)(x) == PerRunDuplicates(s)(x) {
      if x in s.runs && x != r { assert Untouched(s, t, x); }
    }
  }

  lemma {:induction false} RecoverKeepsCount(s: State, rows: seq<RunId>, now: Time, clock: Clock)
    ensures SameDuplicates(s, RecoverEach(s, rows, now, clock).0)
  {
    hide MarkExpired, Trail;
    if rows != [] {
      var x := RecoverEach(s, rows[..|rows| - 1], now, clock);
      RecoverKeepsCount(s, rows[..|rows| - 1], now, clock);
      var r := rows[|rows| - 1];
      if r in x.0.runs && x.0.runs[r].status == Executing { MarkKeepsCount(x.0, r, now, clock(|x.1|)); }
    }
  }

  lemma {:induction false} ExpireKeepsCount(s: State, rows: seq<(RunId, Time)>, now: Time, clock: Clock)
    ensures var x := ExpireEach(s, rows, now, clock); x.Swept? ==> SameDuplicates(s, x.state)
  {
    hide Commit, Trail, Lapsed;
    if rows != [] {
      var x := ExpireEach(s, rows[..|rows| - 1], now, clock);
      ExpireKeepsCount(s, rows[..|rows| - 1], now, clock);
      var row := rows[|rows| - 1];
      if x.Swept? && row.0 in x.state.runs && row.0 in x.state.approvals {
        var run := x.state.runs[row.0].(status := ApprovalExpired, updatedAt := now);
        CommitKeepsCount(x.state, row.0, run, Some(Lapsed(x.state.approvals[row.0], now)), [ApprovalLapsed(row.1)],
                         _ => clock(|x.ids|));
      }
    }
  }

  lemma CreateKeepsCount(s: State, r: RunId, q: Request, now: Time)
    ensures SameDuplicates(s, CreateOrGet(s, r, q, now).0)
  {
    hide Trail, NextEvent;
  }

  /** Every other call leaves every run's count. */
  lemma OthersKeepCount(s: State, op: Op)
    requires !op.OpDuplicate?
    ensures SameDuplicates(s, Apply(s, op).0)
  {
    hide Trail, Commit, MarkExpired, RecoverEach, ExpireEach, SameDuplicates, OverdueApprovals, OverdueLeases;
    hide CreateOrGet, PolicyBodies;
    CountReflexive(s);
    match op
    case OpCreate(r, q, now) => CreateKeepsCount(s, r, q, now);
    case OpHeartbeat(r, owner, seconds, now) => HeartbeatKeepsCount(s, r, owner, seconds, now);
    case OpExpire(scan, tenant, now, clock) => ExpireKeepsCount(s, OverdueApprovals(s, scan, tenant, now), now, clock);
    case OpRecover(scan, tenant, now, clock) => RecoverKeepsCount(s, OverdueLeases(s, scan, tenant, now), now, clock);
    case OpDuplicate(_) => assert false;
    case _ =>
      if op.run in s.runs {
        forall row: Run, approval, bodies, clock | row.duplicates == s.runs[op.run].duplicates
          ensures SameDuplicates(s, Commit(s, op.run, row, approval, bodies, clock))
        {
          CommitKeepsCount(s, op.run, row, approval, bodies, clock);
        }
        forall now, at ensures SameDuplicates(s, MarkExpired(s, op.run, now, at)) {
          MarkKeepsCount(s, op.run, now, at);
        }
      }
  }

  lemma CountReflexive(s: State)
    ensures SameDuplicates(s, s)
  {
  }

  lemma HeartbeatKeepsCount(s: State, r: RunId, owner: string, seconds: int, now: Time)
    ensures SameDuplicates(s, Heartbeat(s, r, owner, seconds, now).0)
  {
  }

  /** A run's duplicate count is the number of duplicate calls recorded on it, and zero before it exists. */
  lemma {:induction false} CountIsRecorded(ops: seq<Op>, r: RunId)
    ensures PerRunDuplicates(Reached(ops))(r) == Recorded(ops, r)
  {
    hide Apply, SameDuplicates;
    if ops != [] {
      var n := |ops| - 1;
      CountIsRecorded(ops[..n], r);
      if ops[n].OpDuplicate? {
        OneMoreDuplicate(Reached(ops[..n]), ops[n], r);
      } else {
        OthersKeepCount(Reached(ops[..n]), ops[n]);
        SameAt(Reached(ops[..n]), Apply(Reached(ops[..n]), ops[n]).0, r);
      }
    }
  }

  lemma SameAt(s: State, t: State, r: RunId)
    requires SameDuplicates(s, t)
    ensures PerRunDuplicates(t)(r) == PerRunDuplicates(s)(r)
  {
  }

  lemma OneMoreDuplicate(s: State, op: Op, r: RunId)
    requires op.OpDuplicate?
    ensures PerRunDuplicates(Apply(s, op).0)(r) == PerRunDuplicates(s)(r) + Bit(op.run == r && r in s.runs)
  {
  }

  function RecordedOn(ops: seq<Op>): RunId -> nat { r => Recorded(ops, r) }

  /** The figure a tenant reads is the number of duplicate calls recorded on its runs. */
  lemma DuplicatesConserved(ops: seq<Op>, tenant: Option<string>)
    ensures DuplicateCount(Reached(ops), tenant) == Sum(Scope(Reached(ops), tenant), RecordedOn(ops))
  {
    hide Reached, Recorded;
    forall r ensures PerRunDuplicates(Reached(ops))(r) == RecordedOn(ops)(r) { CountIsRecorded(ops, r); }
    SumSame(Scope(Reached(ops), tenant), PerRunDuplicates(Reached(ops)), RecordedOn(ops));
  }
}
