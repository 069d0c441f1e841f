/** The two sweeps: which runs they move, and that they move all of them once. */
module LedgerSweeps {
  import opened Text
  import opened Models
  import opened Trails
  import opened LedgerSpec
  import opened LedgerProofs
  import opened LedgerSteps

  predicate Untouched(s: State, t: State, r: RunId) {
    && r in s.runs && r in t.runs && t.runs[r] == s.runs[r]
    && ApprovalOf(t, r) == ApprovalOf(s, r) && Trail(t.events, r) == Trail(s.events, r)
  }

  predicate Distinct(ids: seq<RunId>) { forall i, j :: 0 <= i < j < |ids| ==> ids[i] != ids[j] }

  /** What a sweep leaves behind: the listed runs went from one status to another, every other run is untouched. */
  ghost predicate Moved(s: State, t: State, ids: seq<RunId>, from: Status, to: Status) {
    && Inv(t) && Evolves(s, t) && Quiet(s, t) && t.runs.Keys == s.runs.Keys && t.index == s.index && Distinct(ids)
    && (forall r :: r in ids ==> r in s.runs && s.runs[r].status == from && t.runs[r].status == to)
    && (forall r :: r in s.runs && r !in ids ==> Untouched(s, t, r))
  }

  lemma MovedOneMore(s: State, t: State, u: State, ids: seq<RunId>, r: RunId, from: Status, to: Status)
    requires Moved(s, t, ids, from, to) && from != to
    requires r in t.runs && t.runs[r].status == from
    requires Inv(u) && Evolves(t, u) && Quiet(t, u) && OnlyRun(t, u, r) && u.runs[r].status == to
    ensures Moved(s, u, ids + [r], from, to)
  {
    hide Inv, Trail, Evolves, SameAttempts, NoGrant, RowMoves;
    EvolvesTransitive(s, t, u);
    QuietTransitive(s, t, u);
    hide Quiet;
    assert r !in ids;
    assert Untouched(s, t, r);
    assert forall x :: x in ids + [r] <==> x in ids || x == r;
    forall x | x in s.runs && x !in ids + [r] ensures Untouched(s, u, x) {
      assert Untouched(s, t, x);
    }
  }

  // ---- Lease sweep ----

  lemma {:induction false} RecoverEachMoves(s: State, rows: seq<RunId>, now: Time, clock: Clock)
    requires Inv(s) && forall r :: r in rows ==> r in s.runs && s.runs[r].status == Executing
    ensures
      var x := RecoverEach(s, rows, now, clock);
      && Moved(s, x.0, x.1, Executing, Unknown)
      && (forall r :: r in x.1 <==> r in rows)
  {
    hide Inv, Evolves, Trail, MarkExpired;
    if rows == [] {
      EvolvesReflexive(s);
    } else {
      var n := |rows| - 1;
      RecoverEachMoves(s, rows[..n], now, clock);
      var x, r := RecoverEach(s, rows[..n], now, clock), rows[n];
      assert forall y :: y in rows <==> y in rows[..n] || y == r by { assert rows == rows[..n] + [r]; }
      if r in x.0.runs && x.0.runs[r].status == Executing {
        MarkExpiredStep(x.0, r, now, clock(|x.1|));
        MovedOneMore(s, x.0, MarkExpired(x.0, r, now, clock(|x.1|)), x.1, r, Executing, Unknown);
      } else {
        assert r !in x.1 ==> Untouched(s, x.0, r);
      }
    }
  }

  lemma {:induction false} OverdueLeasesAre(s: State, scan: seq<RunId>, tenant: Option<string>, now: Time)
    ensures forall r :: r in OverdueLeases(s, scan, tenant, now) <==> r in scan && LeaseOverdue(s, r, tenant, now)
  {
    if scan != [] {
      OverdueLeasesAre(s, scan[..|scan| - 1], tenant, now);
      assert scan == scan[..|scan| - 1] + [scan[|scan| - 1]];
    }
  }

  lemma RecoverMoves(s: State, scan: seq<RunId>, tenant: Option<string>, now: Time, clock: Clock)
    requires Inv(s)
    ensures
      var (t, reply) := RecoverExpired(s, scan, tenant, now, clock);
      && reply.Ids? && Moved(s, t, reply.ids, Executing, Unknown)
      && (forall r :: r in reply.ids <==> r in scan && LeaseOverdue(s, r, tenant, now))
  {
    hide Inv, Evolves, Trail, MarkExpired, RecoverEach;
    OverdueLeasesAre(s, scan, tenant, now);
    RecoverEachMoves(s, OverdueLeases(s, scan, tenant, now), now, clock);
  }

  /** Recovery returns each overdue in-scope run once, moves those and no others, and leaves nothing overdue. */
  lemma RecoverExact(s: State, scan: seq<RunId>, tenant: Option<string>, now: Time, clock: Clock)
    requires Inv(s) && forall r :: r in s.runs ==> r in scan
    ensures
      var (t, reply) := RecoverExpired(s, scan, tenant, now, clock);
      && reply.Ids? && Moved(s, t, reply.ids, Executing, Unknown)
      && (forall r :: r in reply.ids <==> LeaseOverdue(s, r, tenant, now))
      && (forall r :: !LeaseOverdue(t, r, tenant, now))
  {
    hide Inv, Evolves, Trail, RecoverExpired;
    RecoverMoves(s, scan, tenant, now, clock);
    var (t, reply) := RecoverExpired(s, scan, tenant, now, clock);
    forall r ensures !LeaseOverdue(t, r, tenant, now) {
      if r in s.runs && r !in reply.ids { assert Untouched(s, t, r); }
    }
  }

  /** A second recovery at the same instant finds nothing and changes nothing, whatever order it scans in. */
  lemma RecoverTwice(s: State, scan: seq<RunId>, again: seq<RunId>, tenant: Option<string>, now: Time, clock: Clock)
    requires Inv(s) && forall r :: r in s.runs ==> r in scan
    ensures
      var t := RecoverExpired(s, scan, tenant, now, clock).0;
      RecoverExpired(t, again, tenant, now, clock) == (t, Ids([]))
  {
    hide Inv, Evolves, Trail, MarkExpired, Moved;
    RecoverExact(s, scan, tenant, now, clock);
    hide RecoverExpired;
    var t := RecoverExpired(s, scan, tenant, now, clock).0;
    OverdueLeasesAre(t, again, tenant, now);
    NoneIsEmpty(OverdueLeases(t, again, tenant, now));
    RecoverNone(t, again, tenant, now, clock);
  }

  lemma RecoverNone(t: State, scan: seq<RunId>, tenant: Option<string>, now: Time, clock: Clock)
    requires OverdueLeases(t, scan, tenant, now) == []
    ensures RecoverExpired(t, scan, tenant, now, clock) == (t, Ids([]))
  {
  }

  lemma NoneIsEmpty<T>(items: seq<T>)
    requires forall x :: x !in items
    ensures items == []
  {
    HeadIsMember(items);
  }

  lemma HeadIsMember<T>(items: seq<T>)
    ensures items == [] || items[0] in items
  {
  }

  /** At every instant an executing run is either renewable by its owner or recoverable, never both. */
  lemma RenewOrRecover(s: State, r: RunId, now: Time)
    requires Inv(s) && r in s.runs && s.runs[r].status == Executing
    ensures s.runs[r].owner.Some?
    ensures LeaseOverdue(s, r, None, now) <==> !Renewable(s.runs[r], s.runs[r].owner.value, now)
    ensures forall owner :: Renewable(s.runs[r], owner, now) ==> !LeaseOverdue(s, r, None, now)
  {
    hide Inv;
    RunSettles(s, r);
  }

  // ---- Approval sweep ----

  predicate ApprovalRow(s: State, row: (RunId, Time)) {
    && row.0 in s.runs && row.0 in s.approvals && s.approvals[row.0].expiresAt == row.1
    && s.runs[row.0].status == PendingApproval
  }

  lemma ExpireOneStep(s: State, t: State, ids: seq<RunId>, row: (RunId, Time), now: Time, clock: Clock)
    requires Moved(s, t, ids, PendingApproval, ApprovalExpired) && ApprovalRow(s, row)
    ensures
      var x := ExpireOne(Swept(t, ids), row, now, clock);
      && x.Swept? && Moved(s, x.state, x.ids, PendingApproval, ApprovalExpired)
      && (forall r :: r in x.ids <==> r in ids || r == row.0)
  {
    hide Inv, Trail, Commit, Replay, StepAll, Quiet, RowMoves;
    var r := row.0;
    assert r in t.approvals && t.approvals[r].expiresAt == row.1;
    ApprovalMirrors(t, r);
    assert r !in ids ==> Untouched(s, t, r);
    hide Moved, Evolves, Untouched;
    if t.runs[r].status == PendingApproval {
      ExpireCommit(t, r, now, clock(|ids|));
      var u := ExpireOne(Swept(t, ids), row, now, clock).state;
      MovedOneMore(s, t, u, ids, r, PendingApproval, ApprovalExpired);
    }
  }

  lemma ExpireCommit(t: State, r: RunId, now: Time, at: Time)
    requires Inv(t) && r in t.runs && r in t.approvals && t.runs[r].status == PendingApproval
    ensures t.approvals[r].status == PendingApproval
    ensures
      var run, a := t.runs[r].(status := ApprovalExpired, updatedAt := now), t.approvals[r];
      var u := Commit(t, r, run, Some(Lapsed(a, now)), [ApprovalLapsed(a.expiresAt)], _ => at);
      Inv(u) && Evolves(t, u) && Quiet(t, u) && OnlyRun(t, u, r) && u.runs[r].status == ApprovalExpired
  {
    hide Inv, Trail, Commit, Replay, StepAll, Evolves;
    RunSettles(t, r);
    var run, a := t.runs[r].(status := ApprovalExpired, updatedAt := now), t.approvals[r];
    StepAllOne(Live(ViewOf(t.runs[r], ApprovalOf(t, r))), ApprovalLapsed(a.expiresAt));
    CommitStep(t, r, run, Some(Lapsed(a, now)), [ApprovalLapsed(a.expiresAt)], _ => at);
  }

  lemma {:induction false} ExpireEachMoves(s: State, rows: seq<(RunId, Time)>, now: Time, clock: Clock)
    requires Inv(s) && forall row :: row in rows ==> ApprovalRow(s, row)
    ensures
      var x := ExpireEach(s, rows, now, clock);
      && x.Swept? && Moved(s, x.state, x.ids, PendingApproval, ApprovalExpired)
      && (forall r :: r in x.ids <==> exists row :: row in rows && row.0 == r)
  {
    hide Inv, Evolves, Trail, ExpireOne;
    if rows == [] {
      EvolvesReflexive(s);
    } else {
      var n := |rows| - 1;
      ExpireEachMoves(s, rows[..n], now, clock);
      var x := ExpireEach(s, rows[..n], now, clock);
      assert rows == rows[..n] + [rows[n]];
      hide Moved;
      ExpireOneStep(s, x.state, x.ids, rows[n], now, clock);
    }
  }

  lemma {:induction false} OverdueApprovalsAre(s: State, scan: seq<RunId>, tenant: Option<string>, now: Time)
    ensures forall row :: row in OverdueApprovals(s, scan, tenant, now) <==>
      row.0 in scan && ApprovalOverdue(s, row.0, tenant, now) && row.1 == s.approvals[row.0].expiresAt
  {
    if scan != [] {
      OverdueApprovalsAre(s, scan[..|scan| - 1], tenant, now);
      assert scan == scan[..|scan| - 1] + [scan[|scan| - 1]];
    }
  }

  /** Whatever the scan order, the approval sweep commits: the torn-pair branch is unreachable. */
  lemma ExpireMoves(s: State, scan: seq<RunId>, tenant: Option<string>, now: Time, clock: Clock)
    requires Inv(s)
    ensures
      var (t, reply) := ExpireApprovals(s, scan, tenant, now, clock);
      && reply.Ids? && Moved(s, t, reply.ids, PendingApproval, ApprovalExpired)
      && (forall r :: r in reply.ids <==> r in scan && ApprovalOverdue(s, r, tenant, now))
  {
    hide Inv, Evolves, Trail, ExpireEach, Moved;
    var rows := OverdueApprovals(s, scan, tenant, now);
    OverdueApprovalsAre(s, scan, tenant, now);
    ExpireEachMoves(s, rows, now, clock);
    forall r | r in scan && ApprovalOverdue(s, r, tenant, now) ensures exists row :: row in rows && row.0 == r {
      assert (r, s.approvals[r].expiresAt) in rows;
    }
  }

  /** Expiry returns each overdue in-scope request once, moves those and no others, and leaves nothing overdue. */
  lemma ExpireExact(s: State, scan: seq<RunId>, tenant: Option<string>, now: Time, clock: Clock)
    requires Inv(s) && forall r :: r in s.runs ==> r in scan
    ensures
      var (t, reply) := ExpireApprovals(s, scan, tenant, now, clock);
      && reply.Ids? && Moved(s, t, reply.ids, PendingApproval, ApprovalExpired)
      && (forall r :: r in reply.ids <==> ApprovalOverdue(s, r, tenant, now))
      && (forall r :: !ApprovalOverdue(t, r, tenant, now))
  {
    hide Inv, Evolves, Trail, ExpireApprovals;
    ExpireMoves(s, scan, tenant, now, clock);
    var (t, reply) := ExpireApprovals(s, scan, tenant, now, clock);
    forall r ensures !ApprovalOverdue(t, r, tenant, now) {
      if r in s.runs && r !in reply.ids { assert Untouched(s, t, r); }
    }
  }

  lemma ExpireTwice(s: State, scan: seq<RunId>, again: seq<RunId>, tenant: Option<string>, now: Time, clock: Clock)
    requires Inv(s) && forall r :: r in s.runs ==> r in scan
    ensures
      var t := ExpireApprovals(s, scan, tenant, now, clock).0;
      ExpireApprovals(t, again, tenant, now, clock) == (t, Ids([]))
  {
    hide Inv, Evolves, Trail, Moved, ExpireApprovals;
    ExpireExact(s, scan, tenant, now, clock);
    var t := ExpireApprovals(s, scan, tenant, now, clock).0;
    OverdueApprovalsAre(t, again, tenant, now);
    NoneIsEmpty(OverdueApprovals(t, again, tenant, now));
    ExpireNone(t, again, tenant, now, clock);
  }

  lemma ExpireNone(t: State, scan: seq<RunId>, tenant: Option<string>, now: Time, clock: Clock)
    requires OverdueApprovals(t, scan, tenant, now) == []
    ensures ExpireApprovals(t, scan, tenant, now, clock) == (t, Ids([]))
  {
  }
}
