/** Calls that carry one tenant leave every other tenant's runs, approvals, trails and counts as they were. */
module Tenancy {
  import opened Text
  import opened Models
  import opened Trails
  import opened LedgerSpec
  import opened LedgerProofs
  import opened LedgerSteps
  import opened LedgerSweeps
  import opened Histories
  import opened Metrics

  /** Every run but `r` is untouched and no other run appears. */
  ghost predicate OthersSame(s: State, t: State, r: RunId) {
    && s.runs.Keys <= t.runs.Keys <= s.runs.Keys + {r}
    && forall x :: x in s.runs && x != r ==> Untouched(s, t, x)
  }

  lemma AppendFrame(s: State, r: RunId, body: Body, at: Time)
    requires r in s.runs
    ensures OthersSame(s, Append(s, r, body, at), r)
  {
    var e := NextEvent(s.events, r, body, at);
    forall x ensures Trail(s.events + [e], x) == Trail(s.events, x) + (if x == r then [e] else []) {
      TrailAppend(s.events, e, x);
    }
    hide Trail;
  }

  lemma {:induction false} AppendAllFrame(s: State, r: RunId, bodies: seq<Body>, clock: Clock)
    requires r in s.runs
    ensures OthersSame(s, AppendAll(s, r, bodies, clock), r)
  {
    hide Trail, Append;
    if bodies != [] {
      var n := |bodies| - 1;
      AppendAllFrame(s, r, bodies[..n], clock);
      var u := AppendAll(s, r, bodies[..n], clock);
      AppendFrame(u, r, bodies[n], clock(n));
      forall x | x in s.runs && x != r ensures Untouched(s, AppendAll(s, r, bodies, clock), x) {
        assert Untouched(s, u, x);
      }
    }
  }

  lemma CommitFrame(s: State, r: RunId, row: Run, approval: Option<Approval>, bodies: seq<Body>, clock: Clock)
    requires r in s.runs
    ensures OthersSame(s, Commit(s, r, row, approval, bodies, clock), r)
  {
    hide Trail, AppendAll;
    var approvals := if approval.Some? then s.approvals[r := approval.value] else s.approvals;
    var u := s.(runs := s.runs[r := row], approvals := approvals);
    AppendAllFrame(u, r, bodies, clock);
    var t := AppendAll(u, r, bodies, clock);
    forall x | x in s.runs && x != r ensures Untouched(s, t, x) {
      assert Untouched(u, t, x);
    }
  }

  lemma SameFrame(s: State, r: RunId)
    ensures OthersSame(s, s, r)
  {
  }

  lemma PlainFrame(s: State, op: Op)
    requires op.OpCreate? || op.OpDuplicate? || op.OpHeartbeat?
    ensures OthersSame(s, Apply(s, op).0, op.run)
  {
    hide Trail, Append, OthersSame;
    SameFrame(s, op.run);
    match op
    case OpCreate(r, q, now) =>
      if RowByKey(s, KeyOf(q)).None? && r !in s.runs && KeyOf(q) !in s.index { CreateFrame(s, r, q, now); }
    case OpDuplicate(r) =>
      if r in s.runs { TouchFrame(s, r, s.runs[r].(duplicates := s.runs[r].duplicates + 1)); }
    case OpHeartbeat(r, owner, seconds, now) =>
      if r in s.runs { TouchFrame(s, r, s.runs[r].(lease := Some(now + seconds * SECOND), updatedAt := now)); }
  }

  /** A call addressed to one run, or creating one, touches no other run. */
  lemma OneRunFrame(s: State, op: Op)
    requires !op.OpExpire? && !op.OpRecover?
    ensures OthersSame(s, Apply(s, op).0, op.run)
  {
    hide Trail, Commit, AppendAll, Append, OthersSame, CreateOrGet, RecordDuplicate, Heartbeat;
    if op.OpCreate? || op.OpDuplicate? || op.OpHeartbeat? {
      PlainFrame(s, op);
    } else {
      forall row, approval, bodies, clock | op.run in s.runs
        ensures OthersSame(s, Commit(s, op.run, row, approval, bodies, clock), op.run)
      {
        CommitFrame(s, op.run, row, approval, bodies, clock);
      }
      SameFrame(s, op.run);
    }
  }

  lemma TouchFrame(s: State, r: RunId, row: Run)
    requires r in s.runs
    ensures OthersSame(s, s.(runs := s.runs[r := row]), r)
  {
    hide Trail;
  }

  lemma CreateFrame(s: State, r: RunId, q: Request, now: Time)
    requires r !in s.runs
    ensures OthersSame(s, Append(Inserted(s, r, q, now), r, RunCreated(q.action, q.risk, q.fp), now), r)
  {
    hide Trail, Append;
    var u := Inserted(s, r, q, now);
    AppendFrame(u, r, RunCreated(q.action, q.risk, q.fp), now);
    var t := Append(u, r, RunCreated(q.action, q.risk, q.fp), now);
    forall x | x in s.runs ensures Untouched(s, t, x) { assert Untouched(u, t, x); }
  }

  // ---- Tenants ----

  /** The call belongs to `tenant`: its context, principal, sweep filter or addressed run does. */
  predicate Carries(s: State, op: Op, tenant: string) {
    match op
    case OpCreate(_, q, _) => q.tenant == tenant
    case OpDecide(_, _, p, _, _, _, _, _) => p.tenant == tenant
    case OpReconcile(_, _, _, _, p, _, _) => p.tenant == tenant
    case OpObserve(_, _, p, _, _) => p.tenant == tenant
    case OpExpire(_, filter, _, _) => filter == Some(tenant)
    case OpRecover(_, filter, _, _) => filter == Some(tenant)
    case _ => op.run in s.runs ==> s.runs[op.run].q.tenant == tenant
  }

  ghost predicate OtherTenantsSame(s: State, t: State, tenant: string) {
    && s.runs.Keys <= t.runs.Keys
    && (forall r :: r in s.runs && s.runs[r].q.tenant != tenant ==> Untouched(s, t, r))
    && (forall r :: r in t.runs && r !in s.runs ==> t.runs[r].q.tenant == tenant)
    && (forall r :: r in s.runs ==> t.runs[r].q == s.runs[r].q)
  }

  /** A principal's call on another tenant's run is refused and changes nothing. */
  lemma ForeignPrincipalRefused(s: State, op: Op)
    requires op.OpDecide? || op.OpReconcile? || op.OpObserve?
    requires op.run in s.runs && s.runs[op.run].q.tenant != op.p.tenant
    ensures Apply(s, op).0 == s && Apply(s, op).1.Raised?
  {
  }

  lemma StepFrame(s: State, op: Op, tenant: string)
    requires Inv(s) && Carries(s, op, tenant)
    ensures OtherTenantsSame(s, Apply(s, op).0, tenant)
  {
    hide Inv, Trail, Apply, OnlyRun, Untouched, Quiet, Launches, Grants;
    ApplyKeeps(s, op);
    var t := Apply(s, op).0;
    if op.OpExpire? || op.OpRecover? {
      SweepFrame(s, op);
    } else {
      OneRunFrame(s, op);
      if op.run in s.runs {
        if s.runs[op.run].q.tenant != tenant { ForeignUntouched(s, op, tenant); }
      } else if op.run in t.runs {
        NewRunTenant(s, op);
      }
    }
  }

  lemma SweepFrame(s: State, op: Op)
    requires Inv(s) && (op.OpExpire? || op.OpRecover?) && op.tenant.Some?
    ensures Apply(s, op).0.runs.Keys == s.runs.Keys
    ensures forall r :: r in s.runs && s.runs[r].q.tenant != op.tenant.value ==> Untouched(s, Apply(s, op).0, r)
  {
    hide Inv, Trail, Evolves, Quiet, Untouched, ExpireApprovals, RecoverExpired;
    match op
    case OpExpire(scan, filter, now, clock) => ExpireMoves(s, scan, filter, now, clock);
    case OpRecover(scan, filter, now, clock) => RecoverMoves(s, scan, filter, now, clock);
  }

  lemma ForeignUntouched(s: State, op: Op, tenant: string)
    requires Inv(s) && Carries(s, op, tenant) && !op.OpExpire? && !op.OpRecover?
    requires op.run in s.runs && s.runs[op.run].q.tenant != tenant
    ensures Untouched(s, Apply(s, op).0, op.run)
  {
    hide Inv, Trail;
    if op.OpCreate? {
      CreateKeepsExisting(s, op.run, op.q, op.now);
    } else {
      ForeignPrincipalRefused(s, op);
    }
  }

  lemma CreateKeepsExisting(s: State, r: RunId, q: Request, now: Time)
    requires r in s.runs
    ensures CreateOrGet(s, r, q, now).0 == s
  {
  }

  lemma NewRunTenant(s: State, op: Op)
    requires !op.OpExpire? && !op.OpRecover? && op.run !in s.runs && op.run in Apply(s, op).0.runs
    ensures op.OpCreate? && Apply(s, op).0.runs[op.run].q == op.q
  {
    hide Trail, Commit, AppendAll;
  }

  lemma SameTransitive(s: State, t: State, u: State, tenant: string)
    requires OtherTenantsSame(s, t, tenant) && OtherTenantsSame(t, u, tenant)
    ensures OtherTenantsSame(s, u, tenant)
  {
    hide Trail;
    forall r | r in s.runs && s.runs[r].q.tenant != tenant ensures Untouched(s, u, r) {
      assert Untouched(s, t, r) && Untouched(t, u, r);
    }
  }

  /** Over any stretch of a history whose calls all carry one tenant, every other tenant's rows and trails stay. */
  lemma {:induction false} TenantFrame(ops: seq<Op>, m: nat, tenant: string)
    requires m <= |ops|
    requires forall i :: m <= i < |ops| ==> Carries(Reached(ops[..i]), ops[i], tenant)
    ensures OtherTenantsSame(Reached(ops[..m]), Reached(ops), tenant)
  {
    hide Inv, Trail, Apply, Carries, OtherTenantsSame;
    assert ops[..|ops|] == ops;
    if m == |ops| {
      OtherTenantsReflexive(Reached(ops), tenant);
    } else {
      var n := |ops| - 1;
      assert ops[..n][..m] == ops[..m];
      forall i | m <= i < n ensures Carries(Reached(ops[..n][..i]), ops[..n][i], tenant) {
        assert ops[..n][..i] == ops[..i];
      }
      TenantFrame(ops[..n], m, tenant);
      ReachedInv(ops[..n]);
      StepFrame(Reached(ops[..n]), ops[n], tenant);
      SameTransitive(Reached(ops[..m]), Reached(ops[..n]), Reached(ops), tenant);
    }
  }

  lemma OtherTenantsReflexive(s: State, tenant: string)
    ensures OtherTenantsSame(s, s, tenant)
  {
  }

  lemma OtherScopeSame(s: State, t: State, tenant: string, other: string)
    requires OtherTenantsSame(s, t, tenant) && other != tenant
    ensures Scope(t, Some(other)) == Scope(s, Some(other))
    ensures forall r :: r in Scope(s, Some(other)) ==> Untouched(s, t, r)
  {
    hide Trail, Untouched;
    forall r ensures r in Scope(t, Some(other)) <==> r in Scope(s, Some(other)) {}
  }

  lemma OtherEventsSame(s: State, t: State, scope: set<RunId>, name: string)
    requires forall r :: r in scope ==> Untouched(s, t, r)
    ensures CountIf(EventsIn(t.events, scope), Named(name)) == CountIf(EventsIn(s.events, scope), Named(name))
  {
    hide Trail, CountIf, TypeName;
    TrailsPartition(s.events, scope, Named(name));
    TrailsPartition(t.events, scope, Named(name));
    forall r | r in scope ensures PerRun(s.events, Named(name))(r) == PerRun(t.events, Named(name))(r) {
      assert Untouched(s, t, r);
    }
    SumSame(scope, PerRun(s.events, Named(name)), PerRun(t.events, Named(name)));
  }

  lemma OtherApprovalsSame(s: State, t: State, tenant: string, status: Status)
    requires forall r :: r in Scope(s, Some(tenant)) ==> Untouched(s, t, r)
    requires Scope(t, Some(tenant)) == Scope(s, Some(tenant))
    ensures ApprovalsIn(t, Some(tenant), status) == ApprovalsIn(s, Some(tenant), status)
    ensures InStatus(t, Some(tenant), status) == InStatus(s, Some(tenant), status)
  {
    hide Trail;
    forall r
      ensures r in ApprovalsIn(t, Some(tenant), status) <==> r in ApprovalsIn(s, Some(tenant), status)
      ensures r in InStatus(t, Some(tenant), status) <==> r in InStatus(s, Some(tenant), status)
    {
      assert InScope(s, r, Some(tenant)) <==> r in Scope(s, Some(tenant));
      assert InScope(t, r, Some(tenant)) <==> r in Scope(t, Some(tenant));
      if r in Scope(s, Some(tenant)) { assert Untouched(s, t, r); }
    }
  }

  lemma OtherDuplicatesSame(s: State, t: State, tenant: Option<string>)
    requires Scope(t, tenant) == Scope(s, tenant) && forall r :: r in Scope(s, tenant) ==> Untouched(s, t, r)
    ensures DuplicateCount(t, tenant) == DuplicateCount(s, tenant)
  {
    hide Trail, InScope;
    forall r | r in Scope(s, tenant) ensures PerRunDuplicates(s)(r) == PerRunDuplicates(t)(r) {
      assert Untouched(s, t, r);
    }
    SumSame(Scope(s, tenant), PerRunDuplicates(s), PerRunDuplicates(t));
  }

  /** Every count one tenant reads: runs by status, approvals by status, events by type, duplicate retries. */
  ghost predicate CountsSame(s: State, t: State, tenant: string) {
    && (forall status :: StatusCount(t, Some(tenant), status) == StatusCount(s, Some(tenant), status))
    && (forall status :: ApprovalCount(t, Some(tenant), status) == ApprovalCount(s, Some(tenant), status))
    && (forall name :: EventCount(t, Some(tenant), name) == EventCount(s, Some(tenant), name))
    && DuplicateCount(t, Some(tenant)) == DuplicateCount(s, Some(tenant))
  }

  lemma OthersCountTheSame(s: State, t: State, tenant: string, other: string)
    requires OtherTenantsSame(s, t, tenant) && other != tenant
    ensures CountsSame(s, t, other)
  {
    hide Inv, Untouched, CountIf, EventsIn, Scope, InStatus, ApprovalsIn, OtherTenantsSame, DuplicateCount;
    OtherScopeSame(s, t, tenant, other);
    OtherDuplicatesSame(s, t, Some(other));
    forall name ensures EventCount(t, Some(other), name) == EventCount(s, Some(other), name) {
      OtherEventsSame(s, t, Scope(s, Some(other)), name);
    }
    forall status
      ensures StatusCount(t, Some(other), status) == StatusCount(s, Some(other), status)
      ensures ApprovalCount(t, Some(other), status) == ApprovalCount(s, Some(other), status)
    {
      OtherApprovalsSame(s, t, other, status);
    }
  }

  /** The other tenants' counts stay with their rows. */
  lemma CountsFrame(ops: seq<Op>, m: nat, tenant: string, other: string)
    requires m <= |ops| && other != tenant
    requires forall i :: m <= i < |ops| ==> Carries(Reached(ops[..i]), ops[i], tenant)
    ensures CountsSame(Reached(ops[..m]), Reached(ops), other)
  {
    hide Apply, Reached, Carries, OtherTenantsSame, CountsSame;
    TenantFrame(ops, m, tenant);
    OthersCountTheSame(Reached(ops[..m]), Reached(ops), tenant, other);
  }
}
