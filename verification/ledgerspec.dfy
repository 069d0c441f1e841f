/** The ledger's tables as values, and the effect each serialized transaction has on them.

    A transaction either commits a whole new state or answers `Raised(_)` with the state it found.
    `now` is the transaction's own clock sample and `clock(k)` the sample its k-th event append takes;
    nothing relates samples of different transactions. */
module LedgerSpec {
  import opened Text
  import opened Models
  import opened Trails

  datatype IdemKey = IdemKey(tenant: string, action: string, key: string)

  /** The columns written once, when the run is inserted. */
  datatype Request = Request(
    tenant: string, actor: string, roles: seq<string>, evidence: seq<string>, action: string, risk: string,
    key: string, fp: Fingerprint, args: map<string, Json>, metadata: map<string, Json>)

  datatype Run = Run(
    q: Request, status: Status, version: Option<string>, digest: Option<PolicyDigest>, reason: Option<string>,
    result: Option<Json>, owner: Option<string>, lease: Option<Time>, attempt: nat, duplicates: nat,
    eventCount: nat, head: Option<Hash>, createdAt: Time, updatedAt: Time)

  datatype Approval = Approval(
    status: Status, fp: Fingerprint, version: string, digest: PolicyDigest, requester: string,
    approver: Option<string>, authSource: Option<string>, note: Option<string>,
    requestedAt: Time, expiresAt: Time, decidedAt: Option<Time>)

  datatype State = State(
    runs: map<RunId, Run>, index: map<IdemKey, RunId>, approvals: map<RunId, Approval>, events: seq<Event>)

  datatype Reply =
    | Done
    | Flag(yes: bool)
    | Ids(ids: seq<RunId>)
    | Fetched(run: RunId, created: bool)
    | Raised(error: Error)

  type Clock = nat -> Time

  const Empty := State(map[], map[], map[], [])

  function KeyOf(q: Request): IdemKey { IdemKey(q.tenant, q.action, q.key) }

  function RowByKey(s: State, key: IdemKey): Option<RunId> {
    if key in s.index && s.index[key] in s.runs then Some(s.index[key]) else None
  }

  function ApprovalOf(s: State, r: RunId): Option<Approval> {
    if r in s.approvals then Some(s.approvals[r]) else None
  }

  // ---- Event append ----

  /** The previous_hash an append reads: the text of the run's latest event_hash. */
  function LatestHash(events: seq<Event>, r: RunId): Option<Hash> {
    var rows := Trail(events, r);
    if rows == [] then None else Some(TextOf(rows[|rows| - 1].hash))
  }

  function NextEvent(events: seq<Event>, r: RunId, body: Body, at: Time): Event {
    var prev := LatestHash(events, r);
    Event(r, body, prev, Some(Digest(r, body, prev, at)), at)
  }

  /** Insert one event and move the run's anchor. */
  function Append(s: State, r: RunId, body: Body, at: Time): (t: State)
    requires r in s.runs
    ensures r in t.runs
  {
    var e := NextEvent(s.events, r, body, at);
    s.(events := s.events + [e],
       runs := s.runs[r := s.runs[r].(eventCount := s.runs[r].eventCount + 1, head := e.hash)])
  }

  function AppendAll(s: State, r: RunId, bodies: seq<Body>, clock: Clock): (t: State)
    requires r in s.runs
    ensures r in t.runs
  {
    if bodies == [] then s
    else
      var n := |bodies| - 1;
      Append(AppendAll(s, r, bodies[..n], clock), r, bodies[n], clock(n))
  }

  /** Rewrite one run's row (and approval row, when given) and append events to its trail. */
  function Commit(s: State, r: RunId, row: Run, approval: Option<Approval>, bodies: seq<Body>, clock: Clock): State {
    var approvals := if approval.Some? then s.approvals[r := approval.value] else s.approvals;
    AppendAll(s.(runs := s.runs[r := row], approvals := approvals), r, bodies, clock)
  }

  // ---- Creation ----

  function NewRun(q: Request, now: Time): Run {
    Run(q, Created, None, None, None, None, None, None, 0, 0, 0, None, now, now)
  }

  function CreateOrGet(s: State, r: RunId, q: Request, now: Time): (State, Reply) {
    var found := RowByKey(s, KeyOf(q));
    if found.Some? then
      if s.runs[found.value].q.fp != q.fp then (s, Raised(IdempotencyConflict)) else (s, Fetched(found.value, false))
    else if r in s.runs || KeyOf(q) in s.index then (s, Raised(RuntimeError))
    else
      var inserted := s.(runs := s.runs[r := NewRun(q, now)], index := s.index[KeyOf(q) := r]);
      (Append(inserted, r, RunCreated(q.action, q.risk, q.fp), now), Fetched(r, true))
  }

  function RecordDuplicate(s: State, r: RunId): (State, Reply) {
    if r !in s.runs then (s, Raised(KeyError))
    else (s.(runs := s.runs[r := s.runs[r].(duplicates := s.runs[r].duplicates + 1)]), Done)
  }

  // ---- Policy ----

  function DigestOf(d: Decision): PolicyDigest {
    match d.digest
    case Some(text) => Given(text)
    case None => OfVersion(d.version)
  }

  function PolicyBodies(q: Request, d: Decision, expiresAt: Time): seq<Body> {
    var checked := PolicyChecked(d.outcome, d.version, DigestOf(d), d.reason, d.facts);
    match d.outcome
    case Allow => [checked]
    case Deny => [checked, RunDenied(d.reason)]
    case ApprovalRequired => [checked, ApprovalRequested(d.reason, d.version, DigestOf(d), q.fp, expiresAt)]
  }

  function RecordPolicy(s: State, r: RunId, d: Decision, ttl: int, now: Time, clock: Clock): (State, Reply) {
    if !(1 <= ttl <= 604800) then (s, Raised(ValueError))
    else if r !in s.runs then (s, Raised(KeyError))
    else if s.runs[r].status != Created then (s, Raised(InvalidTransition))
    else
      var q := s.runs[r].q;
      var expiresAt := now + ttl * SECOND;
      var status := match d.outcome case Allow => Created case Deny => Denied case ApprovalRequired => PendingApproval;
      var row := s.runs[r].(
        status := status, version := Some(d.version), digest := Some(DigestOf(d)), reason := Some(d.reason),
        updatedAt := now);
      var approval :=
        if d.outcome.ApprovalRequired? then
          Some(Approval(PendingApproval, q.fp, d.version, DigestOf(d), q.actor, None, None, None, now, expiresAt, None))
        else None;
      (Commit(s, r, row, approval, PolicyBodies(q, d, expiresAt), clock), Done)
  }

  // ---- Approval ----

  predicate Shares(required: seq<string>, held: seq<string>) {
    exists role :: role in required && role in held
  }

  function Lapsed(a: Approval, now: Time): Approval { a.(status := ApprovalExpired, decidedAt := Some(now)) }

  function DecidedApproval(a: Approval, approved: bool, p: Principal, note: string, now: Time): Approval {
    a.(status := if approved then Approved else Rejected, approver := Some(p.actor), authSource := Some(p.authSource),
       note := Some(note), decidedAt := Some(now))
  }

  function DecidedRow(run: Run, approved: bool, note: string, now: Time): Run {
    run.(status := if approved then Approved else Rejected, reason := Some(note), updatedAt := now)
  }

  function DecideApproval(
    s: State, r: RunId, approved: bool, p: Principal, note: string, required: seq<string>, allowSelf: bool,
    now: Time, clock: Clock): (State, Reply)
  {
    if r !in s.runs || r !in s.approvals then (s, Raised(KeyError))
    else
      var run, a := s.runs[r], s.approvals[r];
      if p.tenant != run.q.tenant || !Shares(required, p.roles) || (!allowSelf && p.actor == a.requester) then
        (s, Raised(ApprovalDenied))
      else if a.status != PendingApproval then (s, Flag(false))
      else if run.status != PendingApproval then (s, Raised(InvalidTransition))
      else if a.expiresAt <= now then
        (Commit(s, r, run.(status := ApprovalExpired, updatedAt := now), Some(Lapsed(a, now)),
                [ApprovalLapsed(a.expiresAt)], clock),
         Flag(false))
      else if run.q.fp != a.fp || run.version != Some(a.version) || run.digest != Some(a.digest) then
        (s, Raised(ApprovalDenied))
      else
        (Commit(s, r, DecidedRow(run, approved, note, now), Some(DecidedApproval(a, approved, p, note, now)),
                [ApprovalDecided(approved, p.actor, p.authSource, note, run.q.fp, a.version, a.digest)], clock),
         Flag(true))
  }

  // ---- Approval sweep ----

  predicate InScope(s: State, r: RunId, tenant: Option<string>) {
    r in s.runs && (tenant.Some? ==> s.runs[r].q.tenant == tenant.value)
  }

  predicate ApprovalOverdue(s: State, r: RunId, tenant: Option<string>, now: Time) {
    && InScope(s, r, tenant) && r in s.approvals
    && s.approvals[r].status == PendingApproval && s.runs[r].status == PendingApproval
    && s.approvals[r].expiresAt <= now
  }

  /** The rows the sweep's SELECT returns when the engine visits the table in the order `scan`. */
  function OverdueApprovals(s: State, scan: seq<RunId>, tenant: Option<string>, now: Time): seq<(RunId, Time)> {
    if scan == [] then []
    else
      var n := |scan| - 1;
      var rest := OverdueApprovals(s, scan[..n], tenant, now);
      if ApprovalOverdue(s, scan[n], tenant, now) then rest + [(scan[n], s.approvals[scan[n]].expiresAt)] else rest
  }

  /** A sweep under way: the state so far and the ids moved, or a torn pair that rolls everything back. */
  datatype Sweep = Swept(state: State, ids: seq<RunId>) | Torn

  function ExpireOne(x: Sweep, row: (RunId, Time), now: Time, clock: Clock): Sweep {
    if x.Torn? then Torn
    else
      var s, r := x.state, row.0;
      var first := r in s.approvals && s.approvals[r].status == PendingApproval;
      var second := r in s.runs && s.runs[r].status == PendingApproval;
      if first && second then
        var run := s.runs[r].(status := ApprovalExpired, updatedAt := now);
        Swept(Commit(s, r, run, Some(Lapsed(s.approvals[r], now)), [ApprovalLapsed(row.1)], _ => clock(|x.ids|)),
              x.ids + [r])
      else if first != second then Torn
      else x
  }

  function ExpireEach(s: State, rows: seq<(RunId, Time)>, now: Time, clock: Clock): Sweep {
    if rows == [] then Swept(s, [])
    else ExpireOne(ExpireEach(s, rows[..|rows| - 1], now, clock), rows[|rows| - 1], now, clock)
  }

  function ExpireApprovals(s: State, scan: seq<RunId>, tenant: Option<string>, now: Time, clock: Clock)
    : (State, Reply)
  {
    match ExpireEach(s, OverdueApprovals(s, scan, tenant, now), now, clock)
    case Swept(t, ids) => (t, Ids(ids))
    case Torn => (s, Raised(InvalidTransition))
  }

  // ---- Execution ----

  const LEASE_REASON := "execution lease expired; provider outcome requires reconciliation"

  function MarkExpired(s: State, r: RunId, now: Time, at: Time): State
    requires r in s.runs
  {
    var row := s.runs[r].(
      status := Unknown, reason := Some(LEASE_REASON), owner := None, lease := None, updatedAt := now);
    Commit(s, r, row, None, [ExecLeaseExpired(LEASE_REASON)], _ => at)
  }

  predicate LeaseDue(run: Run, now: Time) {
    run.status == Executing && run.lease.Some? && run.lease.value <= now
  }

  predicate Claimable(run: Run) { run.status in {Created, Approved} && run.version.Some? }

  predicate LeaseArgumentsOk(owner: string, seconds: int) { !IsBlank(owner) && 1 <= seconds <= 86400 }

  function ClaimBodies(run: Run, owner: string, leaseEnd: Time): seq<Body> {
    var started := ExecStarted(owner, run.attempt + 1, leaseEnd);
    if run.status == Approved then [RunResumed, started] else [started]
  }

  function ClaimExecution(s: State, r: RunId, owner: string, seconds: int, now: Time, clock: Clock): (State, Reply) {
    if !LeaseArgumentsOk(owner, seconds) then (s, Raised(ValueError))
    else if r !in s.runs then (s, Raised(KeyError))
    else if LeaseDue(s.runs[r], now) then (MarkExpired(s, r, now, clock(0)), Flag(false))
    else if !Claimable(s.runs[r]) then (s, Flag(false))
    else
      var run, leaseEnd := s.runs[r], now + seconds * SECOND;
      var row := run.(
        status := Executing, owner := Some(owner), lease := Some(leaseEnd), attempt := run.attempt + 1,
        updatedAt := now);
      (Commit(s, r, row, None, ClaimBodies(run, owner, leaseEnd), clock), Flag(true))
  }

  predicate Renewable(run: Run, owner: string, now: Time) {
    run.status == Executing && run.owner == Some(owner) && run.lease.Some? && run.lease.value > now
  }

  function Heartbeat(s: State, r: RunId, owner: string, seconds: int, now: Time): (State, Reply) {
    if !LeaseArgumentsOk(owner, seconds) then (s, Raised(ValueError))
    else if r !in s.runs || !Renewable(s.runs[r], owner, now) then (s, Flag(false))
    else
      (s.(runs := s.runs[r := s.runs[r].(lease := Some(now + seconds * SECOND), updatedAt := now)]), Flag(true))
  }

  datatype Finish = Complete(result: Option<Json>) | Fail(errorType: string) | Uncertain(errorType: string)

  function FinishRow(run: Run, how: Finish, now: Time): Run {
    var row := run.(owner := None, lease := None, updatedAt := now);
    match how
    case Complete(result) => row.(status := Completed, reason := None, result := result)
    case Fail(errorType) =>
      row.(status := Failed, reason := Some("tool execution failed: " + errorType), result := None)
    case Uncertain(errorType) =>
      row.(status := Unknown, reason := Some("tool execution outcome uncertain: " + errorType), result := None)
  }

  function FinishBodies(how: Finish): seq<Body> {
    match how
    case Complete(_) => [ExecSucceeded, RunCompleted]
    case Fail(errorType) => [ExecFailed(errorType)]
    case Uncertain(errorType) => [ExecUncertain(errorType, "tool execution outcome uncertain: " + errorType)]
  }

  predicate Owns(s: State, r: RunId, owner: string) {
    r in s.runs && s.runs[r].status == Executing && s.runs[r].owner == Some(owner)
  }

  function FinishExecution(s: State, r: RunId, owner: string, how: Finish, now: Time, clock: Clock): (State, Reply) {
    if !Owns(s, r, owner) then (s, Raised(InvalidTransition))
    else (Commit(s, r, FinishRow(s.runs[r], how, now), None, FinishBodies(how), clock), Done)
  }

  // ---- Lease sweep ----

  predicate LeaseOverdue(s: State, r: RunId, tenant: Option<string>, now: Time) {
    InScope(s, r, tenant) && LeaseDue(s.runs[r], now)
  }

  function OverdueLeases(s: State, scan: seq<RunId>, tenant: Option<string>, now: Time): seq<RunId> {
    if scan == [] then []
    else
      var n := |scan| - 1;
      OverdueLeases(s, scan[..n], tenant, now) + (if LeaseOverdue(s, scan[n], tenant, now) then [scan[n]] else [])
  }

  function RecoverOne(x: (State, seq<RunId>), r: RunId, now: Time, clock: Clock): (State, seq<RunId>) {
    if r in x.0.runs && x.0.runs[r].status == Executing then
      (MarkExpired(x.0, r, now, clock(|x.1|)), x.1 + [r])
    else x
  }

  function RecoverEach(s: State, rows: seq<RunId>, now: Time, clock: Clock): (State, seq<RunId>) {
    if rows == [] then (s, [])
    else RecoverOne(RecoverEach(s, rows[..|rows| - 1], now, clock), rows[|rows| - 1], now, clock)
  }

  function RecoverExpired(s: State, scan: seq<RunId>, tenant: Option<string>, now: Time, clock: Clock): (State, Reply) {
    var x := RecoverEach(s, OverdueLeases(s, scan, tenant, now), now, clock);
    (x.0, Ids(x.1))
  }

  // ---- Reconciliation ----

  function ReconcileRun(
    s: State, r: RunId, status: Status, reason: string, result: Option<Json>, p: Principal, now: Time, clock: Clock)
    : (State, Reply)
  {
    if status !in {Completed, Failed} then (s, Raised(ValueError))
    else if r !in s.runs then (s, Raised(KeyError))
    else if p.tenant != s.runs[r].q.tenant then (s, Raised(ApprovalDenied))
    else if s.runs[r].status != Unknown then (s, Flag(false))
    else
      var row := s.runs[r].(status := status, reason := Some(reason), result := result, updatedAt := now);
      (Commit(s, r, row, None, [RunReconciled(p.actor, p.authSource, status, reason)], clock), Flag(true))
  }

  datatype Observation = Observation(
    provider: string, outcome: string, summary: string, reference: Option<string>, status: Option<Status>,
    result: Option<Json>)

  predicate ObservationOk(o: Observation) {
    && o.outcome in {"committed", "not_committed", "pending"} && o.status == Conclusion(o.outcome)
    && (o.status.None? ==> o.result.None?)
  }

  function LookupReason(o: Observation): string { o.provider + " lookup: " + o.summary }

  function ApplyObservation(s: State, r: RunId, o: Observation, p: Principal, now: Time, clock: Clock): (State, Reply) {
    if !ObservationOk(o) then (s, Raised(ValueError))
    else if r !in s.runs then (s, Raised(KeyError))
    else if p.tenant != s.runs[r].q.tenant then (s, Raised(ApprovalDenied))
    else if s.runs[r].status != Unknown then (s, Flag(false))
    else
      var seen := ProviderObserved(p.actor, p.authSource, o.provider, o.outcome, o.summary, o.reference);
      match o.status
      case None => (Commit(s, r, s.runs[r], None, [seen], clock), Flag(true))
      case Some(status) =>
        var row := s.runs[r].(status := status, reason := Some(LookupReason(o)), result := o.result, updatedAt := now);
        var ends := RunReconciled(p.actor, p.authSource, status, LookupReason(o));
        (Commit(s, r, row, None, [seen, ends], clock), Flag(true))
  }
}
