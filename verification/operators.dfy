/** Operators resolving unknown runs through the runtime, by their own word or through a provider probe: who may. */
module Operators {
  import opened Text
  import opened Models
  import opened Trails
  import opened LedgerSpec
  import opened LedgerProofs
  import opened LedgerSteps
  import opened LedgerSweeps
  import opened Histories
  import opened Tenancy
  import opened Effects
  import opened Runtime

  /** The reconciliation roles of each action, by name. */
  type Roles = string -> seq<string>

  /** What `reconcile` checks before it calls the ledger, in its order; `None` lets the call through. */
  function ReconcileGate(
    roles: seq<string>, s: State, action: string, r: RunId, status: Status, note: string, p: Principal): Option<Error>
  {
    if status !in {Completed, Failed} || IsBlank(note) then Some(ValueError)
    else if !Shares(roles, p.roles) then Some(ApprovalDenied)
    else if r !in s.runs then Some(KeyError)
    else if s.runs[r].q.action != action then Some(ValueError)
    else if s.runs[r].q.tenant != p.tenant then Some(ApprovalDenied)
    else None
  }

  /** `_load_reconcilable_run`, which every provider lookup goes through first. */
  function LookupGate(roles: seq<string>, s: State, action: string, r: RunId, p: Principal): Option<Error> {
    if !Shares(roles, p.roles) then Some(ApprovalDenied)
    else if r !in s.runs then Some(KeyError)
    else if s.runs[r].q.action != action then Some(ValueError)
    else if s.runs[r].q.tenant != p.tenant then Some(ApprovalDenied)
    else if s.runs[r].status != Unknown then Some(ValueError)
    else None
  }

  /** The system and the provider lookups under way in it. */
  datatype Desk = Desk(y: Sys, lookups: set<(RunId, Principal)>)

  datatype DeskStep =
    | Work(step: StepLabel)
    | Reconcile(action: string, r: RunId, status: Status, note: string, result: Option<Json>, p: Principal,
                now: Time, clock: Clock)
    | StartLookup(action: string, r: RunId, p: Principal)
    | EndLookup(r: RunId, p: Principal, o: Observation, now: Time, clock: Clock)

  predicate Resolves(op: Op) { op.OpReconcile? || op.OpObserve? }

  /** Workers and other clients do anything but resolve; resolving goes through the gates. */
  function DeskNext(roles: Roles, x: Desk, step: DeskStep): Desk {
    match step
    case Work(inner) => if inner.Client? && Resolves(inner.op) then x else x.(y := Next(x.y, inner))
    case Reconcile(action, r, status, note, result, p, now, clock) =>
      if ReconcileGate(roles(action), Db(x.y), action, r, status, note, p).Some? then x
      else x.(y := Next(x.y, Client(OpReconcile(r, status, Strip(note), result, p, now, clock))))
    case StartLookup(action, r, p) =>
      if LookupGate(roles(action), Db(x.y), action, r, p).Some? then x else x.(lookups := x.lookups + {(r, p)})
    case EndLookup(r, p, o, now, clock) =>
      if (r, p) !in x.lookups then x else x.(y := Next(x.y, Client(OpObserve(r, o, p, now, clock))))
  }

  function DeskRun(roles: Roles, steps: seq<DeskStep>): Desk {
    if steps == [] then Desk(Start, {}) else DeskNext(roles, DeskRun(roles, steps[..|steps| - 1]), steps[|steps| - 1])
  }

  /** A principal of the run's tenant with one of its action's reconciliation roles. */
  predicate Qualified(roles: Roles, s: State, r: RunId, p: Principal) {
    r in s.runs && s.runs[r].q.tenant == p.tenant && Shares(roles(s.runs[r].q.action), p.roles)
  }

  ghost predicate QualifiedSoFar(roles: Roles, x: Desk) {
    && (forall n :: 0 <= n < |x.y.ops| && Resolves(x.y.ops[n]) ==>
          Qualified(roles, Reached(x.y.ops[..n]), x.y.ops[n].run, x.y.ops[n].p))
    && (forall look :: look in x.lookups ==> Qualified(roles, Db(x.y), look.0, look.1))
  }

  lemma QualifiedStays(roles: Roles, y: Sys, step: StepLabel, r: RunId, p: Principal)
    requires Qualified(roles, Db(y), r, p)
    ensures Qualified(roles, Db(Next(y, step)), r, p)
  {
    hide Reached, Next, OpOf, Shares;
    NextCommits(y, step);
    match OpOf(y, step)
    case None =>
    case Some(op) => CommitsOnward(y, op);
  }

  /** A runtime step whose call, if it resolves, is a qualified principal's. */
  lemma StepQualified(roles: Roles, x: Desk, z: Desk, step: StepLabel)
    requires QualifiedSoFar(roles, x) && z == x.(y := Next(x.y, step))
    requires OpOf(x.y, step).Some? && Resolves(OpOf(x.y, step).value) ==>
      Qualified(roles, Db(x.y), OpOf(x.y, step).value.run, OpOf(x.y, step).value.p)
    ensures QualifiedSoFar(roles, z)
  {
    NextCommits(x.y, step);
    hide Reached, Next, OpOf, Qualified;
    forall n | 0 <= n < |z.y.ops| && Resolves(z.y.ops[n])
      ensures Qualified(roles, Reached(z.y.ops[..n]), z.y.ops[n].run, z.y.ops[n].p)
    {
      assert n <= |x.y.ops| && z.y.ops[..n] == x.y.ops[..n];
      if n == |x.y.ops| { assert x.y.ops[..n] == x.y.ops; }
    }
    forall look | look in z.lookups ensures Qualified(roles, Db(z.y), look.0, look.1) {
      QualifiedStays(roles, x.y, step, look.0, look.1);
    }
  }

  lemma OnlyClientsResolve(y: Sys, step: StepLabel)
    requires OpOf(y, step).Some? && Resolves(OpOf(y, step).value)
    ensures step == Client(OpOf(y, step).value)
  {
    hide Reached, RequestFingerprint;
  }

  lemma DeskQualified(roles: Roles, x: Desk, step: DeskStep)
    requires QualifiedSoFar(roles, x)
    ensures QualifiedSoFar(roles, DeskNext(roles, x, step))
  {
    hide Reached, Next, Shares, QualifiedSoFar, IsBlank;
    match step
    case Work(inner) =>
      if OpOf(x.y, inner).Some? && Resolves(OpOf(x.y, inner).value) {
        OnlyClientsResolve(x.y, inner);
      } else {
        StepQualified(roles, x, x.(y := Next(x.y, inner)), inner);
      }
    case Reconcile(action, r, status, note, result, p, now, clock) =>
      if ReconcileGate(roles(action), Db(x.y), action, r, status, note, p).None? {
        var inner := Client(OpReconcile(r, status, Strip(note), result, p, now, clock));
        StepQualified(roles, x, x.(y := Next(x.y, inner)), inner);
      }
    case StartLookup(action, r, p) => LookupQualified(roles, x, action, r, p);
    case EndLookup(r, p, o, now, clock) =>
      if (r, p) in x.lookups {
        var inner := Client(OpObserve(r, o, p, now, clock));
        LookupIsQualified(roles, x, r, p);
        StepQualified(roles, x, x.(y := Next(x.y, inner)), inner);
      }
  }

  lemma LookupQualified(roles: Roles, x: Desk, action: string, r: RunId, p: Principal)
    requires QualifiedSoFar(roles, x)
    ensures QualifiedSoFar(roles, DeskNext(roles, x, StartLookup(action, r, p)))
  {
    hide Reached, Shares;
  }

  lemma LookupIsQualified(roles: Roles, x: Desk, r: RunId, p: Principal)
    requires QualifiedSoFar(roles, x) && (r, p) in x.lookups
    ensures Qualified(roles, Db(x.y), r, p)
  {
    hide Reached, Qualified;
  }

  lemma {:induction false} DeskRunQualified(roles: Roles, steps: seq<DeskStep>)
    ensures QualifiedSoFar(roles, DeskRun(roles, steps))
  {
    hide DeskNext, Reached;
    if steps != [] {
      DeskRunQualified(roles, steps[..|steps| - 1]);
      hide QualifiedSoFar;
      DeskQualified(roles, DeskRun(roles, steps[..|steps| - 1]), steps[|steps| - 1]);
    }
  }

  // ---- The law ----

  predicate IsUnknown(s: State, r: RunId) { r in s.runs && s.runs[r].status == Unknown }

  lemma OwnCallLeaves(s: State, op: Op)
    requires Inv(s) && !op.OpExpire? && !op.OpRecover? && IsUnknown(s, op.run) && !IsUnknown(Apply(s, op).0, op.run)
    ensures Resolves(op) && Apply(s, op).1 == Flag(true)
  {
    hide Inv, Commit, MarkExpired;
    if op.OpCreate? { CreateKeepsExisting(s, op.run, op.q, op.now); }
  }

  lemma SweepKeepsUnknown(s: State, op: Op, r: RunId)
    requires Inv(s) && (op.OpExpire? || op.OpRecover?) && IsUnknown(s, r)
    ensures IsUnknown(Apply(s, op).0, r)
  {
    hide Inv, Trail, Commit, Evolves, Quiet, ExpireApprovals, RecoverExpired;
    match op
    case OpExpire(scan, tenant, now, clock) => ExpireMoves(s, scan, tenant, now, clock);
      assert r !in Apply(s, op).1.ids && Untouched(s, Apply(s, op).0, r);
    case OpRecover(scan, tenant, now, clock) => RecoverMoves(s, scan, tenant, now, clock);
      assert r !in Apply(s, op).1.ids && Untouched(s, Apply(s, op).0, r);
  }

  /** Only a successful resolving call takes a run out of unknown. */
  lemma WhatResolves(s: State, op: Op, r: RunId)
    requires Inv(s) && IsUnknown(s, r) && !IsUnknown(Apply(s, op).0, r)
    ensures Resolves(op) && op.run == r && Apply(s, op).1 == Flag(true)
  {
    hide Inv, Trail, Commit, Apply, Untouched;
    if op.OpExpire? || op.OpRecover? {
      SweepKeepsUnknown(s, op, r);
    } else {
      OneRunFrame(s, op);
      if op.run == r { OwnCallLeaves(s, op); } else { UntouchedUnknown(s, Apply(s, op).0, r); }
    }
  }

  lemma UntouchedUnknown(s: State, t: State, r: RunId)
    requires IsUnknown(s, r) && Untouched(s, t, r)
    ensures IsUnknown(t, r)
  {
  }

  /** Whatever else happens, a call takes a run out of unknown only on behalf of a principal of the run's tenant who
      holds one of its action's reconciliation roles. */
  lemma ResolvedByRole(roles: Roles, steps: seq<DeskStep>, n: nat, r: RunId)
    requires n < |DeskRun(roles, steps).y.ops|
    ensures
      var ops := DeskRun(roles, steps).y.ops;
      var s, t := Reached(ops[..n]), Reached(ops[..n + 1]);
      IsUnknown(s, r) && !IsUnknown(t, r) ==> Resolves(ops[n]) && ops[n].run == r && Qualified(roles, s, r, ops[n].p)
  {
    hide Reached, DeskRun, Qualified, Apply, Inv;
    DeskRunQualified(roles, steps);
    var ops := DeskRun(roles, steps).y.ops;
    ReachedStep(ops, n);
    ReachedInv(ops[..n]);
    if IsUnknown(Reached(ops[..n]), r) && !IsUnknown(Reached(ops[..n + 1]), r) {
      WhatResolves(Reached(ops[..n]), ops[n], r);
    }
  }

  // ---- Who can, and what comes of it ----

  /** A principal of the run's tenant with one of the roles, speaking of a run of the named action. */
  predicate MayResolve(roles: seq<string>, s: State, action: string, r: RunId, p: Principal) {
    && r in s.runs && s.runs[r].q.action == action && s.runs[r].q.tenant == p.tenant
    && exists role :: role in roles && role in p.roles
  }

  /** The gates let through exactly such principals: for their own word, with a conclusion and a note; for a lookup, on
      an unknown run. */
  lemma GatesOpen(
    roles: seq<string>, s: State, action: string, r: RunId, status: Status, note: string, p: Principal)
    ensures ReconcileGate(roles, s, action, r, status, note, p) == None
      <==> MayResolve(roles, s, action, r, p) && (status == Completed || status == Failed) && Strip(note) != ""
    ensures LookupGate(roles, s, action, r, p) == None
      <==> MayResolve(roles, s, action, r, p) && s.runs[r].status == Unknown
  {
  }

  /** A qualified principal's own word settles an unknown run: it ends as asked, with the stripped note as its reason
      and the result as given, and the trail names the principal. On any other run it changes nothing. */
  lemma WordSettles(
    roles: Roles, x: Desk, action: string, r: RunId, status: Status, note: string, result: Option<Json>, p: Principal,
    now: Time, clock: Clock)
    requires MayResolve(roles(action), Db(x.y), action, r, p)
    requires (status == Completed || status == Failed) && !IsBlank(note)
    ensures
      var s, t := Db(x.y), Db(DeskNext(roles, x, Reconcile(action, r, status, note, result, p, now, clock)).y);
      if s.runs[r].status == Unknown then
        && r in t.runs && OthersSame(s, t, r) && ApprovalOf(t, r) == ApprovalOf(s, r)
        && SameButAnchor(t.runs[r], s.runs[r].(
             status := status, reason := Some(Strip(note)), result := result, updatedAt := now))
        && Grew(s, t, r, [RunReconciled(p.actor, p.authSource, status, Strip(note))], [clock(0)])
      else t == s
  {
    hide Reached, Inv, Trail, Grew, OthersSame, ReconcileRun, IsBlank, Strip, DeskNext, MayResolve, SameButAnchor;
    ReachedInv(x.y.ops);
    MayResolveKnown(roles(action), Db(x.y), action, r, p);
    WordIsCall(roles, x, action, r, status, note, result, p, now, clock);
    ReconcileEffect(Db(x.y), r, status, Strip(note), result, p, now, clock);
  }

  lemma MayResolveKnown(roles: seq<string>, s: State, action: string, r: RunId, p: Principal)
    requires MayResolve(roles, s, action, r, p)
    ensures r in s.runs && s.runs[r].q.tenant == p.tenant
  {
  }

  lemma WordIsCall(
    roles: Roles, x: Desk, action: string, r: RunId, status: Status, note: string, result: Option<Json>, p: Principal,
    now: Time, clock: Clock)
    requires MayResolve(roles(action), Db(x.y), action, r, p)
    requires (status == Completed || status == Failed) && !IsBlank(note)
    ensures Db(DeskNext(roles, x, Reconcile(action, r, status, note, result, p, now, clock)).y)
      == ReconcileRun(Db(x.y), r, status, Strip(note), result, p, now, clock).0
  {
    hide Reached, ReconcileRun, Strip;
    CommitsOnward(x.y, OpReconcile(r, status, Strip(note), result, p, now, clock));
  }

  /** What a provider's probe answers. */
  datatype ProviderOutcome = Committed | NotCommitted | Pending

  datatype Probed = Probed(outcome: ProviderOutcome, summary: string, reference: Option<string>, safe: Option<Json>)

  /** What `reconcile_from_provider` hands the ledger for it. */
  function ObservationFrom(provider: string, probed: Probed): Observation {
    var result := map["provider" := JStr(provider)]
      + (if probed.reference.Some? then map["provider_reference" := JStr(probed.reference.value)] else map[])
      + (if probed.safe.Some? then map["safe_result" := probed.safe.value] else map[]);
    match probed.outcome
    case Committed =>
      Observation(provider, "committed", probed.summary, probed.reference, Some(Completed), Some(JObj(result)))
    case NotCommitted =>
      Observation(provider, "not_committed", probed.summary, probed.reference, Some(Failed), Some(JObj(result)))
    case Pending => Observation(provider, "pending", probed.summary, probed.reference, None, None)
  }

  /** The result kept of a lookup names the provider, and its reference and safe result exactly when the probe gave
      them. */
  predicate KeepsProbe(kept: Json, provider: string, probed: Probed) {
    && kept.JObj? && kept.fields.Keys <= {"provider", "provider_reference", "safe_result"}
    && "provider" in kept.fields && kept.fields["provider"] == JStr(provider)
    && ("provider_reference" in kept.fields <==> probed.reference.Some?)
    && ("safe_result" in kept.fields <==> probed.safe.Some?)
    && (probed.reference.Some? ==> kept.fields["provider_reference"] == JStr(probed.reference.value))
    && (probed.safe.Some? ==> kept.fields["safe_result"] == probed.safe.value)
  }

  /** The row and the trail after a lookup of an unknown run has come back. */
  ghost predicate LookupLeaves(
    s: State, t: State, r: RunId, provider: string, probed: Probed, p: Principal, now: Time, clock: Clock)
    requires r in s.runs
  {
    var word := match probed.outcome
      case Committed => "committed" case NotCommitted => "not_committed" case Pending => "pending";
    var seen := ProviderObserved(p.actor, p.authSource, provider, word, probed.summary, probed.reference);
    var reason := provider + " lookup: " + probed.summary;
    var status := if probed.outcome == Committed then Completed else Failed;
    && r in t.runs && OthersSame(s, t, r) && ApprovalOf(t, r) == ApprovalOf(s, r)
    && if probed.outcome == Pending then SameButAnchor(t.runs[r], s.runs[r]) && Grew(s, t, r, [seen], [clock(0)])
       else
         && SameButAnchor(t.runs[r], s.runs[r].(
              status := status, reason := Some(reason), result := t.runs[r].result, updatedAt := now))
         && t.runs[r].result.Some? && KeepsProbe(t.runs[r].result.value, provider, probed)
         && Grew(s, t, r, [seen, RunReconciled(p.actor, p.authSource, status, reason)], [clock(0), clock(1)])
  }

  lemma ObservationKeeps(provider: string, probed: Probed)
    ensures
      var o := ObservationFrom(provider, probed);
      && o.provider == provider && o.summary == probed.summary && o.reference == probed.reference
      && (probed.outcome == Pending ==> o.outcome == "pending" && o.status == None && o.result == None)
      && (probed.outcome != Pending ==> o.result.Some? && KeepsProbe(o.result.value, provider, probed))
      && (probed.outcome == Committed ==> o.outcome == "committed" && o.status == Some(Completed))
      && (probed.outcome == NotCommitted ==> o.outcome == "not_committed" && o.status == Some(Failed))
  {
  }

  /** A lookup under way settles a run still unknown when it comes back: a committed outcome completes it, one that did
      not happen fails it, a pending one only leaves its observation. On a run no longer unknown it changes nothing. */
  lemma LookupSettles(
    roles: Roles, steps: seq<DeskStep>, r: RunId, p: Principal, provider: string, probed: Probed, now: Time,
    clock: Clock)
    requires (r, p) in DeskRun(roles, steps).lookups
    ensures
      var x := DeskRun(roles, steps);
      var s := Db(x.y);
      var t := Db(DeskNext(roles, x, EndLookup(r, p, ObservationFrom(provider, probed), now, clock)).y);
      && r in s.runs
      && if s.runs[r].status == Unknown then LookupLeaves(s, t, r, provider, probed, p, now, clock) else t == s
  {
    hide Reached, Inv, Trail, Grew, OthersSame, ApplyObservation, ObservationFrom, Shares, QualifiedSoFar, KeepsProbe;
    hide DeskRun, DeskNext;
    var x := DeskRun(roles, steps);
    DeskRunQualified(roles, steps);
    ReachedInv(x.y.ops);
    LookupIsQualified(roles, x, r, p);
    ObservationKeeps(provider, probed);
    LookupIsCall(roles, x, r, p, ObservationFrom(provider, probed), now, clock);
    ObserveEffect(Db(x.y), r, ObservationFrom(provider, probed), p, now, clock);
  }

  lemma LookupIsCall(roles: Roles, x: Desk, r: RunId, p: Principal, o: Observation, now: Time, clock: Clock)
    requires (r, p) in x.lookups
    ensures Db(DeskNext(roles, x, EndLookup(r, p, o, now, clock)).y)
      == ApplyObservation(Db(x.y), r, o, p, now, clock).0
  {
    hide Reached, ApplyObservation;
    CommitsOnward(x.y, OpObserve(r, o, p, now, clock));
  }
}
