/** A run's event trail: its hash chain, and the fold that reads the run's state back from it. */
module Trails {
  import opened Text
  import opened Models

  type RunId = string

  /** One (event_type, payload) pair; `Foreign` is a pair this release never writes (a migrated or edited row). */
  datatype Body =
    | RunCreated(action: string, risk: string, fp: Fingerprint)
    | PolicyChecked(outcome: PolicyOutcome, version: string, digest: PolicyDigest, reason: string,
                    facts: map<string, Json>)
    | RunDenied(reason: string)
    | ApprovalRequested(reason: string, version: string, digest: PolicyDigest, fp: Fingerprint, expiresAt: Time)
    | ApprovalLapsed(expiresAt: Time)
    | ApprovalDecided(approved: bool, approver: string, authSource: string, note: string,
                      fp: Fingerprint, version: string, digest: PolicyDigest)
    | RunResumed
    | ExecStarted(owner: string, attempt: nat, leaseExpiresAt: Time)
    | ExecSucceeded
    | RunCompleted
    | ExecFailed(errorType: string)
    | ExecUncertain(errorType: string, reason: string)
    | ExecLeaseExpired(reason: string)
    | ProviderObserved(operator: string, authSource: string, provider: string, observed: string, summary: string,
                       reference: Option<string>)
    | RunReconciled(operator: string, authSource: string, concluded: Status, note: string)
    | Foreign(eventType: string, payload: Json)

  /** The event types this release writes. */
  datatype Kind =
    | KCreated | KChecked | KDenied | KRequested | KExpired | KApproved | KRejected | KResumed | KStarted
    | KSucceeded | KCompleted | KFailed | KUncertain | KLeaseExpired | KObserved | KReconciled | KOther(name: string)

  function KindOf(body: Body): Kind {
    match body
    case RunCreated(_, _, _) => KCreated
    case PolicyChecked(_, _, _, _, _) => KChecked
    case RunDenied(_) => KDenied
    case ApprovalRequested(_, _, _, _, _) => KRequested
    case ApprovalLapsed(_) => KExpired
    case ApprovalDecided(approved, _, _, _, _, _, _) => if approved then KApproved else KRejected
    case RunResumed => KResumed
    case ExecStarted(_, _, _) => KStarted
    case ExecSucceeded => KSucceeded
    case RunCompleted => KCompleted
    case ExecFailed(_) => KFailed
    case ExecUncertain(_, _) => KUncertain
    case ExecLeaseExpired(_) => KLeaseExpired
    case ProviderObserved(_, _, _, _, _, _) => KObserved
    case RunReconciled(_, _, _, _) => KReconciled
    case Foreign(eventType, _) => KOther(eventType)
  }

  /** The text of the event_type column. */
  function TypeName(kind: Kind): string {
    match kind
    case KCreated => "run.created"
    case KChecked => "policy.checked"
    case KDenied => "run.denied"
    case KRequested => "approval.requested"
    case KExpired => "approval.expired"
    case KApproved => "approval.approved"
    case KRejected => "approval.rejected"
    case KResumed => "run.resumed"
    case KStarted => "tool.execution.started"
    case KSucceeded => "tool.execution.succeeded"
    case KCompleted => "run.completed"
    case KFailed => "tool.execution.failed"
    case KUncertain => "tool.execution.uncertain"
    case KLeaseExpired => "tool.execution.lease_expired"
    case KObserved => "provider.reconciliation.observed"
    case KReconciled => "run.reconciled"
    case KOther(name) => name
  }

  /** A hash column: a SHA-256 digest as a free constructor, or any other text (such as `str(None)`). */
  datatype Hash = Digest(run: RunId, body: Body, prev: Option<Hash>, at: Time) | Verbatim(text: string)

  datatype Event = Event(run: RunId, body: Body, prev: Option<Hash>, hash: Option<Hash>, at: Time)

  /** `str(column)`: NULL becomes the text "None". */
  function TextOf(column: Option<Hash>): Hash {
    if column.Some? then column.value else Verbatim("None")
  }

  /** SELECT ... WHERE run_id = r ORDER BY sequence. */
  function Trail(events: seq<Event>, r: RunId): seq<Event> {
    if events == [] then []
    else
      var rest := Trail(events[..|events| - 1], r);
      var last := events[|events| - 1];
      if last.run == r then rest + [last] else rest
  }

  lemma TrailAppend(events: seq<Event>, e: Event, r: RunId)
    ensures Trail(events + [e], r) == Trail(events, r) + (if e.run == r then [e] else [])
  {
    assert (events + [e])[..|events|] == events;
  }

  lemma {:induction false} TrailBelongs(events: seq<Event>, r: RunId)
    ensures forall i :: 0 <= i < |Trail(events, r)| ==> Trail(events, r)[i].run == r && Trail(events, r)[i] in events
  {
    if events != [] { TrailBelongs(events[..|events| - 1], r); }
  }

  // ---- Hash chain ----

  /** The hash the chain must end with, computed from bodies and times alone. */
  function ChainHead(r: RunId, rows: seq<Event>): Option<Hash> {
    if rows == [] then None
    else
      var last := rows[|rows| - 1];
      Some(Digest(r, last.body, ChainHead(r, rows[..|rows| - 1]), last.at))
  }

  /** Every row names its predecessor's hash and carries its own. */
  predicate Sealed(r: RunId, rows: seq<Event>) {
    rows == [] ||
    var init, last := rows[..|rows| - 1], rows[|rows| - 1];
    Sealed(r, init) && last.prev == ChainHead(r, init) && last.hash == ChainHead(r, rows)
  }

  /** What verification decides about one snapshot of a run row and its events. */
  predicate Verified(r: RunId, rows: seq<Event>, count: nat, head: Option<Hash>) {
    Sealed(r, rows) && count == |rows| && head == ChainHead(r, rows)
  }

  lemma SealedAppend(r: RunId, rows: seq<Event>, e: Event)
    requires Sealed(r, rows) && e.prev == ChainHead(r, rows) && e.hash == Some(Digest(r, e.body, e.prev, e.at))
    ensures Sealed(r, rows + [e]) && ChainHead(r, rows + [e]) == e.hash
  {
    assert (rows + [e])[..|rows|] == rows;
  }

  lemma {:induction false} SealedPrefix(r: RunId, rows: seq<Event>, n: nat)
    requires Sealed(r, rows) && n <= |rows|
    ensures Sealed(r, rows[..n])
  {
    if n < |rows| {
      SealedPrefix(r, rows[..|rows| - 1], n);
      assert rows[..|rows| - 1][..n] == rows[..n];
    } else {
      assert rows[..n] == rows;
    }
  }

  /** One head hash fixes every type, payload, time and position behind it. */
  lemma {:induction false} HeadPinsRows(r: RunId, a: seq<Event>, b: seq<Event>)
    requires Sealed(r, a) && Sealed(r, b) && ChainHead(r, a) == ChainHead(r, b)
    requires forall e :: e in a || e in b ==> e.run == r
    ensures a == b
  {
    if a != [] && b != [] {
      var n, m := |a| - 1, |b| - 1;
      HeadPinsRows(r, a[..n], b[..m]);
      assert a[n] in a && b[m] in b;
      assert a == a[..n] + [a[n]] && b == b[..m] + [b[m]];
    }
  }

  /** Any two row lists a run's one anchor accepts are equal: edits, deletions anywhere and reorderings are caught. */
  lemma AnchorPinsTrail(r: RunId, rows: seq<Event>, other: seq<Event>, count: nat, head: Option<Hash>)
    requires Verified(r, rows, count, head)
    requires forall e :: e in rows || e in other ==> e.run == r
    ensures Verified(r, other, count, head) <==> other == rows
  {
    if Verified(r, other, count, head) { HeadPinsRows(r, rows, other); }
  }

  // ---- Replay ----

  /** Where a trail stands; the middle phases exist only inside one transaction. */
  datatype Phase =
    | Settled(status: Status)
    | Denying
    | Requesting
    | Resuming
    | Succeeding
    | Concluding(outcome: Status)

  datatype ApprovalView = ApprovalView(
    status: Status, fp: Fingerprint, version: string, digest: PolicyDigest, expiresAt: Time,
    approver: Option<string>, authSource: Option<string>, note: Option<string>)

  datatype View = View(
    phase: Phase, fp: Fingerprint, version: Option<string>, digest: Option<PolicyDigest>, reason: Option<string>,
    owner: Option<string>, attempt: nat, approval: Option<ApprovalView>)

  datatype Replayed = Blank | Live(view: View) | Broken

  function Conclusion(observed: string): Option<Status> {
    if observed == "committed" then Some(Completed)
    else if observed == "not_committed" then Some(Failed)
    else None
  }

  /** The effect of one event; an event that no committed history allows here breaks the replay. */
  function Step(x: Replayed, body: Body): Replayed {
    if x.Blank? then
      if body.RunCreated? then Live(View(Settled(Created), body.fp, None, None, None, None, 0, None)) else Broken
    else if x.Broken? then Broken
    else StepView(x.view, body)
  }

  function StepView(v: View, body: Body): Replayed {
    match body
    case PolicyChecked(outcome, version, digest, reason, _) =>
      if v.phase == Settled(Created) then
        var phase :=
          match outcome case Allow => Settled(Created) case Deny => Denying case ApprovalRequired => Requesting;
        Live(v.(phase := phase, version := Some(version), digest := Some(digest), reason := Some(reason)))
      else Broken
    case RunDenied(reason) =>
      if v.phase == Denying && v.reason == Some(reason) then Live(v.(phase := Settled(Denied))) else Broken
    case ApprovalRequested(reason, version, digest, fp, expiresAt) =>
      if v.phase == Requesting && v.reason == Some(reason) && v.version == Some(version) && v.digest == Some(digest)
         && v.fp == fp then
        var approval := ApprovalView(PendingApproval, fp, version, digest, expiresAt, None, None, None);
        Live(v.(phase := Settled(PendingApproval), approval := Some(approval)))
      else Broken
    case ApprovalLapsed(expiresAt) =>
      if v.phase == Settled(PendingApproval) && v.approval.Some? && v.approval.value.expiresAt == expiresAt then
        Live(v.(phase := Settled(ApprovalExpired), approval := Some(v.approval.value.(status := ApprovalExpired))))
      else Broken
    case ApprovalDecided(approved, approver, authSource, note, fp, version, digest) =>
      if v.phase == Settled(PendingApproval) && v.approval.Some? && v.fp == fp && v.version == Some(version)
         && v.digest == Some(digest) then
        var status := if approved then Approved else Rejected;
        var approval := v.approval.value.(
          status := status, approver := Some(approver), authSource := Some(authSource), note := Some(note));
        Live(v.(phase := Settled(status), reason := Some(note), approval := Some(approval)))
      else Broken
    case RunResumed =>
      if v.phase == Settled(Approved) then Live(v.(phase := Resuming)) else Broken
    case ExecStarted(owner, attempt, _) =>
      if (v.phase == Resuming || v.phase == Settled(Created)) && v.version.Some? && attempt == v.attempt + 1 then
        Live(v.(phase := Settled(Executing), owner := Some(owner), attempt := attempt))
      else Broken
    case ExecSucceeded =>
      if v.phase == Settled(Executing) then Live(v.(phase := Succeeding, owner := None, reason := None)) else Broken
    case RunCompleted =>
      if v.phase == Succeeding then Live(v.(phase := Settled(Completed))) else Broken
    case ExecFailed(errorType) =>
      if v.phase == Settled(Executing) then
        Live(v.(phase := Settled(Failed), owner := None, reason := Some("tool execution failed: " + errorType)))
      else Broken
    case ExecUncertain(_, reason) =>
      if v.phase == Settled(Executing) then
        Live(v.(phase := Settled(Unknown), owner := None, reason := Some(reason)))
      else Broken
    case ExecLeaseExpired(reason) =>
      if v.phase == Settled(Executing) then
        Live(v.(phase := Settled(Unknown), owner := None, reason := Some(reason)))
      else Broken
    case ProviderObserved(_, _, _, observed, _, _) =>
      if v.phase != Settled(Unknown) then Broken
      else if observed == "pending" then Live(v)
      else if Conclusion(observed).Some? then Live(v.(phase := Concluding(Conclusion(observed).value)))
      else Broken
    case RunReconciled(_, _, concluded, note) =>
      if (v.phase == Settled(Unknown) || v.phase == Concluding(concluded)) && concluded in {Completed, Failed} then
        Live(v.(phase := Settled(concluded), reason := Some(note)))
      else Broken
    case RunCreated(_, _, _) => Broken
    case Foreign(_, _) => Broken
  }

  function Replay(rows: seq<Event>): Replayed {
    if rows == [] then Blank else Step(Replay(rows[..|rows| - 1]), rows[|rows| - 1].body)
  }

  lemma ReplayAppend(rows: seq<Event>, e: Event)
    ensures Replay(rows + [e]) == Step(Replay(rows), e.body)
  {
    assert (rows + [e])[..|rows|] == rows;
  }

  lemma {:induction false} ReplayPrefix(rows: seq<Event>, n: nat)
    requires !Replay(rows).Broken? && n <= |rows|
    ensures !Replay(rows[..n]).Broken?
    ensures 0 < n ==> Replay(rows[..n]).Live?
  {
    if n < |rows| {
      ReplayPrefix(rows[..|rows| - 1], n);
      assert rows[..|rows| - 1][..n] == rows[..n];
    } else {
      assert rows[..n] == rows;
    }
  }

  /** Phases at or past the start of the protected function. */
  predicate Launched(p: Phase) {
    p == Succeeding || p.Concluding? || (p.Settled? && p.status in {Executing, Unknown, Completed, Failed})
  }

  /** The approval status a phase goes with. */
  predicate ApprovalFits(p: Phase, approval: Option<ApprovalView>) {
    match p
    case Settled(PendingApproval) => approval.Some? && approval.value.status == PendingApproval
    case Settled(Rejected) => approval.Some? && approval.value.status == Rejected
    case Settled(ApprovalExpired) => approval.Some? && approval.value.status == ApprovalExpired
    case Settled(Approved) => approval.Some? && approval.value.status == Approved
    case Resuming => approval.Some? && approval.value.status == Approved
    case _ => if Launched(p) then (approval.Some? ==> approval.value.status == Approved) else approval.None?
  }

  /** What every replayable trail's view satisfies. */
  predicate Coherent(v: View) {
    && ApprovalFits(v.phase, v.approval)
    && (v.approval.Some? ==>
         v.approval.value.fp == v.fp && v.version == Some(v.approval.value.version)
         && v.digest == Some(v.approval.value.digest))
    && (v.version.Some? <==> v.digest.Some?)
    && (v.phase != Settled(Created) ==> v.version.Some?)
    && (v.owner.Some? <==> v.phase == Settled(Executing))
    && v.attempt == (if Launched(v.phase) then 1 else 0)
    && (v.phase.Concluding? ==> v.phase.outcome in {Completed, Failed})
  }

  lemma FirstCoherent(body: Body)
    requires Step(Blank, body).Live?
    ensures Coherent(Step(Blank, body).view)
  {
  }

  lemma StepCoherent(v: View, body: Body)
    requires Coherent(v) && StepView(v, body).Live?
    ensures Coherent(StepView(v, body).view)
  {
  }

  lemma {:induction false} ReplayCoherent(rows: seq<Event>)
    ensures Replay(rows).Live? ==> Coherent(Replay(rows).view)
  {
    hide StepView, Coherent;
    if rows != [] && Replay(rows).Live? {
      var init, body := rows[..|rows| - 1], rows[|rows| - 1].body;
      if Replay(init).Live? {
        ReplayCoherent(init);
        StepCoherent(Replay(init).view, body);
      } else {
        FirstCoherent(body);
      }
    }
  }

  // ---- Counting events ----

  function Count(rows: seq<Event>, kind: Kind): nat {
    if rows == [] then 0
    else Count(rows[..|rows| - 1], kind) + Bit(KindOf(rows[|rows| - 1].body) == kind)
  }

  function Bit(b: bool): nat { if b then 1 else 0 }

  /** Execution events a replayable trail must have: the state it leads to fixes their counts. */
  predicate ExecutionsFit(c: Kind -> nat, v: View) {
    && c(KStarted) == v.attempt
    && c(KStarted) == c(KSucceeded) + c(KFailed) + c(KUncertain) + c(KLeaseExpired) + Bit(v.phase == Settled(Executing))
    && c(KUncertain) + c(KLeaseExpired) == c(KReconciled) + Bit(v.phase == Settled(Unknown) || v.phase.Concluding?)
    && c(KSucceeded) == c(KCompleted) + Bit(v.phase == Succeeding)
  }

  /** The same for creation, denial and approval events. */
  predicate ApprovalsFit(c: Kind -> nat, v: View) {
    && c(KCreated) == 1
    && c(KRequested) == c(KApproved) + c(KRejected) + c(KExpired) + Bit(v.phase == Settled(PendingApproval))
    && c(KRequested) == Bit(v.approval.Some?)
    && c(KDenied) == Bit(v.phase == Settled(Denied))
  }

  predicate CountsFit(c: Kind -> nat, v: View) { ExecutionsFit(c, v) && ApprovalsFit(c, v) }

  lemma StepStarts(c: Kind -> nat, d: Kind -> nat, v: View, body: Body)
    requires ExecutionsFit(c, v) && Coherent(v) && StepView(v, body).Live?
    requires forall k :: d(k) == c(k) + Bit(KindOf(body) == k)
    ensures var w := StepView(v, body).view;
      && d(KStarted) == w.attempt
      && d(KStarted) ==
           d(KSucceeded) + d(KFailed) + d(KUncertain) + d(KLeaseExpired) + Bit(w.phase == Settled(Executing))
  {
  }

  lemma StepConclusions(c: Kind -> nat, d: Kind -> nat, v: View, body: Body)
    requires ExecutionsFit(c, v) && Coherent(v) && StepView(v, body).Live?
    requires forall k :: d(k) == c(k) + Bit(KindOf(body) == k)
    ensures var w := StepView(v, body).view;
      && d(KUncertain) + d(KLeaseExpired) == d(KReconciled) + Bit(w.phase == Settled(Unknown) || w.phase.Concluding?)
      && d(KSucceeded) == d(KCompleted) + Bit(w.phase == Succeeding)
  {
  }

  lemma StepExecutions(c: Kind -> nat, d: Kind -> nat, v: View, body: Body)
    requires ExecutionsFit(c, v) && Coherent(v) && StepView(v, body).Live?
    requires forall k :: d(k) == c(k) + Bit(KindOf(body) == k)
    ensures ExecutionsFit(d, StepView(v, body).view)
  {
    StepStarts(c, d, v, body);
    StepConclusions(c, d, v, body);
    hide StepView, Coherent, KindOf;
  }

  lemma StepApprovals(c: Kind -> nat, d: Kind -> nat, v: View, body: Body)
    requires ApprovalsFit(c, v) && Coherent(v) && StepView(v, body).Live?
    requires forall k :: d(k) == c(k) + Bit(KindOf(body) == k)
    ensures ApprovalsFit(d, StepView(v, body).view)
  {
  }

  lemma FirstCounts(rows: seq<Event>)
    requires |rows| == 1 && rows[0].body.RunCreated?
    ensures Replay(rows).Live?
    ensures CountsFit(k => Count(rows, k), Replay(rows).view)
  {
    assert Replay(rows[..0]) == Blank;
    forall k ensures Count(rows, k) == Bit(KCreated == k) { assert Count(rows[..0], k) == 0; }
  }

  lemma {:induction false} ReplayCounts(rows: seq<Event>)
    requires Replay(rows).Live?
    ensures CountsFit(k => Count(rows, k), Replay(rows).view)
  {
    hide StepView, Coherent, ExecutionsFit, ApprovalsFit;
    var init, last := rows[..|rows| - 1], rows[|rows| - 1];
    var x := Replay(init);
    if x.Blank? {
      BlankIsEmpty(init);
      FirstCounts(rows);
    } else {
      ReplayCounts(init);
      ReplayCoherent(init);
      StepExecutions(k => Count(init, k), k => Count(rows, k), x.view, last.body);
      StepApprovals(k => Count(init, k), k => Count(rows, k), x.view, last.body);
    }
  }

  lemma BlankIsEmpty(rows: seq<Event>)
    requires Replay(rows).Blank?
    ensures rows == []
  {
  }
}
