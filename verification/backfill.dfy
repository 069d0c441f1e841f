/** Opening an older ledger file: missing fingerprints, approval bindings and event hashes are filled in place. */
module Backfill {
  import opened Text
  import opened Models
  import opened Trails

  datatype RunRow = RunRow(
    tenant: string, actor: string, roles: seq<string>, evidence: seq<string>, action: string, risk: string,
    args: map<string, Json>, metadata: map<string, Json>, fp: Fingerprint, version: Option<string>,
    digest: Option<string>, eventCount: nat, head: Option<Hash>)

  datatype ApprovalRow = ApprovalRow(
    fp: Fingerprint, version: Option<string>, digest: Option<string>, requester: Option<string>,
    requestedAt: Time, expiresAt: Option<Time>)

  datatype Tables = Tables(runs: map<RunId, RunRow>, approvals: map<RunId, ApprovalRow>, events: seq<Event>)

  // ---- What the migration should leave ----

  function FillRun(run: RunRow): RunRow {
    if run.fp.Missing? then
      run.(fp := RequestFingerprint(run.tenant, run.actor, run.roles, run.evidence, run.action, run.risk, run.args,
                                    run.metadata))
    else run
  }

  const HOUR: int := 3600 * SECOND

  /** `version or "legacy-unresolved"`. */
  function VersionOrLegacy(version: Option<string>): Option<string> {
    if version.None? || version.value == "" then Some("legacy-unresolved") else version
  }

  function FillApproval(a: ApprovalRow, run: RunRow): ApprovalRow {
    if a.fp.Missing? then
      ApprovalRow(run.fp, VersionOrLegacy(run.version), run.digest, Some(run.actor), a.requestedAt,
                  Some(a.requestedAt + HOUR))
    else a
  }

  predicate NeedsHash(rows: seq<Event>) { exists i :: 0 <= i < |rows| && rows[i].hash.None? }

  /** Event `i` with the hash its place in its run's trail calls for. */
  function SealedAt(events: seq<Event>, i: nat): Event
    requires i < |events|
  {
    var e := events[i];
    var prev := ChainHead(e.run, Trail(events[..i], e.run));
    e.(prev := prev, hash := Some(Digest(e.run, e.body, prev, e.at)))
  }

  /** The runs in `done` whose trail lacks a hash are resealed; every other event is as it was. */
  function FillEvents(events: seq<Event>, done: set<RunId>): (filled: seq<Event>)
    ensures |filled| == |events|
  {
    seq(|events|, i requires 0 <= i < |events| =>
      if events[i].run in done && NeedsHash(Trail(events, events[i].run)) then SealedAt(events, i) else events[i])
  }

  function LastText(rows: seq<Event>): Option<Hash> {
    if rows == [] then None else Some(TextOf(rows[|rows| - 1].hash))
  }

  function FillAnchor(r: RunId, run: RunRow, rows: seq<Event>): RunRow {
    if NeedsHash(rows) then run.(eventCount := |rows|, head := ChainHead(r, rows))
    else if run.eventCount == 0 && rows != [] then run.(eventCount := |rows|, head := LastText(rows))
    else run
  }

  function Migrated(s: Tables): Tables {
    var runs := map r | r in s.runs :: FillAnchor(r, FillRun(s.runs[r]), Trail(s.events, r));
    Tables(
      runs,
      map r | r in s.approvals :: if r in runs then FillApproval(s.approvals[r], runs[r]) else s.approvals[r],
      FillEvents(s.events, s.runs.Keys))
  }

  // ---- Trails of filled events ----

  /** A run's rows with every hash recomputed in order. */
  function Reseal(r: RunId, rows: seq<Event>): seq<Event> {
    if rows == [] then []
    else
      var n := |rows| - 1;
      Reseal(r, rows[..n]) + [rows[n].(prev := ChainHead(r, rows[..n]), hash := ChainHead(r, rows))]
  }

  lemma {:induction false} ResealIsSealed(r: RunId, rows: seq<Event>)
    ensures |Reseal(r, rows)| == |rows| && ChainHead(r, Reseal(r, rows)) == ChainHead(r, rows)
    ensures Sealed(r, Reseal(r, rows))
    ensures !NeedsHash(Reseal(r, rows))
    ensures forall i :: 0 <= i < |rows| ==>
      Reseal(r, rows)[i] == rows[i].(prev := Reseal(r, rows)[i].prev, hash := Reseal(r, rows)[i].hash)
  {
    if rows != [] {
      var n := |rows| - 1;
      ResealIsSealed(r, rows[..n]);
      assert Reseal(r, rows)[..n] == Reseal(r, rows[..n]);
    }
  }

  lemma {:induction false} TrailAgree(a: seq<Event>, b: seq<Event>, r: RunId)
    requires |a| == |b| && forall i :: 0 <= i < |a| ==> a[i].run == b[i].run && (a[i].run == r ==> a[i] == b[i])
    ensures Trail(a, r) == Trail(b, r)
  {
    if a != [] { TrailAgree(a[..|a| - 1], b[..|b| - 1], r); }
  }

  /** Sealing a run's events wherever they stand is resealing its trail. */
  lemma {:induction false} SealedTrail(events: seq<Event>, filled: seq<Event>, r: RunId, n: nat)
    requires n <= |events| == |filled|
    requires forall i :: 0 <= i < |events| ==> filled[i].run == events[i].run
    requires forall i :: 0 <= i < n && events[i].run == r ==> filled[i] == SealedAt(events, i)
    ensures Trail(filled[..n], r) == Reseal(r, Trail(events[..n], r))
  {
    if n > 0 {
      SealedTrail(events, filled, r, n - 1);
      assert filled[..n][..n - 1] == filled[..n - 1] && events[..n][..n - 1] == events[..n - 1];
      var rows := Trail(events[..n - 1], r);
      if events[n - 1].run == r {
        assert (rows + [events[n - 1]])[..|rows|] == rows;
      }
    }
  }

  /** What filling does to one run's trail. */
  lemma FilledTrail(events: seq<Event>, done: set<RunId>, r: RunId)
    ensures Trail(FillEvents(events, done), r)
      == if r in done && NeedsHash(Trail(events, r)) then Reseal(r, Trail(events, r)) else Trail(events, r)
  {
    var filled := FillEvents(events, done);
    if r in done && NeedsHash(Trail(events, r)) {
      SealedTrail(events, filled, r, |events|);
      assert filled[..|events|] == filled && events[..|events|] == events;
    } else {
      TrailAgree(filled, events, r);
    }
  }

  // ---- The law ----

  predicate Intact(s: Tables, r: RunId)
    requires r in s.runs
  {
    Verified(r, Trail(s.events, r), s.runs[r].eventCount, s.runs[r].head)
  }

  /** A run with a missing hash verifies after migration, with its types, payloads, times and order as they were. */
  lemma MissingHashesVerify(s: Tables, r: RunId)
    requires r in s.runs && NeedsHash(Trail(s.events, r))
    ensures Intact(Migrated(s), r)
    ensures
      var before, after := Trail(s.events, r), Trail(Migrated(s).events, r);
      |after| == |before| && forall i :: 0 <= i < |before| ==>
        after[i] == before[i].(prev := after[i].prev, hash := after[i].hash)
  {
    FilledTrail(s.events, s.runs.Keys, r);
    ResealIsSealed(r, Trail(s.events, r));
  }

  /** A run whose hashes are all present and whose count is nonzero is left alone, so a broken chain stays broken. */
  lemma HashedRunsUntouched(s: Tables, r: RunId)
    requires r in s.runs && !NeedsHash(Trail(s.events, r)) && s.runs[r].eventCount != 0
    ensures Trail(Migrated(s).events, r) == Trail(s.events, r)
    ensures Migrated(s).runs[r].eventCount == s.runs[r].eventCount && Migrated(s).runs[r].head == s.runs[r].head
    ensures Intact(Migrated(s), r) <==> Intact(s, r)
  {
    FilledTrail(s.events, s.runs.Keys, r);
  }

  lemma SettledAnchor(r: RunId, run: RunRow, rows: seq<Event>)
    ensures
      var again := if NeedsHash(rows) then Reseal(r, rows) else rows;
      FillAnchor(r, FillRun(FillAnchor(r, FillRun(run), rows)), again) == FillAnchor(r, FillRun(run), rows)
  {
    ResealIsSealed(r, rows);
  }

  lemma RunsSettle(s: Tables)
    ensures Migrated(Migrated(s)).runs == Migrated(s).runs
    ensures forall r :: r in s.runs ==> !NeedsHash(Trail(Migrated(s).events, r))
  {
    hide Trail, Reseal, NeedsHash, FillAnchor, FillRun;
    var t := Migrated(s);
    forall r | r in s.runs ensures Migrated(t).runs[r] == t.runs[r] && !NeedsHash(Trail(t.events, r)) {
      FilledTrail(s.events, s.runs.Keys, r);
      ResealIsSealed(r, Trail(s.events, r));
      SettledAnchor(r, s.runs[r], Trail(s.events, r));
    }
    assert Migrated(t).runs.Keys == t.runs.Keys;
  }

  lemma EventsSettle(events: seq<Event>, done: set<RunId>)
    requires forall r :: r in done ==> !NeedsHash(Trail(events, r))
    ensures FillEvents(events, done) == events
  {
  }

  lemma ApprovalSettles(a: ApprovalRow, run: RunRow, later: RunRow)
    requires !run.fp.Missing?
    ensures FillApproval(FillApproval(a, run), later) == FillApproval(a, run)
  {
  }

  lemma FilledFingerprint(r: RunId, run: RunRow, rows: seq<Event>)
    ensures !FillAnchor(r, FillRun(run), rows).fp.Missing?
  {
  }

  lemma ApprovalsSettle(s: Tables)
    requires forall r :: r in s.approvals ==> r in s.runs
    ensures Migrated(Migrated(s)).approvals == Migrated(s).approvals
  {
    hide Trail, NeedsHash, FillEvents, FillApproval, FillAnchor, FillRun;
    var t := Migrated(s);
    var u := Migrated(t);
    forall r | r in s.approvals ensures u.approvals[r] == t.approvals[r] {
      FilledFingerprint(r, s.runs[r], Trail(s.events, r));
      ApprovalSettles(s.approvals[r], t.runs[r], u.runs[r]);
    }
    assert u.approvals.Keys == t.approvals.Keys;
  }

  /** Opening the file again changes nothing. */
  lemma MigrationIdempotent(s: Tables)
    requires forall r :: r in s.approvals ==> r in s.runs
    ensures Migrated(Migrated(s)) == Migrated(s)
  {
    RunsSettle(s);
    ApprovalsSettle(s);
    EventsSettle(Migrated(s).events, s.runs.Keys);
    assert Migrated(s).runs.Keys == s.runs.Keys;
    hide FillEvents, FillApproval, FillAnchor, Trail;
  }

  // ---- In plain terms ----

  /** The fingerprint of a request read off its own columns. */
  predicate ReadOff(fp: Fingerprint, run: RunRow) {
    && fp.OfRequest? && fp.tenant == run.tenant && fp.actor == run.actor && fp.action == run.action
    && fp.risk == run.risk && fp.args == run.args && fp.metadata == run.metadata
    && (StrictlySorted(run.roles) ==> fp.roles == run.roles)
    && (StrictlySorted(run.evidence) ==> fp.evidence == run.evidence)
  }

  lemma FillReadsOff(run: RunRow)
    ensures FillRun(run) == run.(fp := FillRun(run).fp)
    ensures if run.fp == Missing then ReadOff(FillRun(run).fp, run) else FillRun(run).fp == run.fp
  {
    hide Sorted, StrictlySorted;
    if StrictlySorted(run.roles) { SortedIsIdentity(run.roles); }
    if StrictlySorted(run.evidence) { SortedIsIdentity(run.evidence); }
  }

  /** What opening an older file leaves of a run: everything but its fingerprint and anchor, a missing fingerprint made
      of the request's own columns, and, where all hashes are present but nothing was counted, the count and last hash
      of its trail. */
  lemma RunAsMigrated(s: Tables, r: RunId)
    requires r in s.runs
    ensures
      var was, now, rows := s.runs[r], Migrated(s).runs[r], Trail(s.events, r);
      && now == was.(fp := now.fp, eventCount := now.eventCount, head := now.head)
      && (if was.fp == Missing then ReadOff(now.fp, was) else now.fp == was.fp)
      && (!NeedsHash(rows) && was.eventCount == 0 && rows != [] ==>
           now.eventCount == |rows| && now.head == rows[|rows| - 1].hash)
      && (!NeedsHash(rows) && (was.eventCount != 0 || rows == []) ==>
           now.eventCount == was.eventCount && now.head == was.head)
  {
    hide Trail, Sorted, FillRun, ReadOff, ChainHead, FillEvents;
    FillReadsOff(s.runs[r]);
  }

  /** What it leaves of an approval: one already bound stays as it was; one that is not is bound to its run's request,
      policy and requester, and expires an hour after it was requested. */
  lemma ApprovalAsMigrated(s: Tables, r: RunId)
    requires r in s.approvals && r in s.runs
    ensures
      var was, now, run := s.approvals[r], Migrated(s).approvals[r], Migrated(s).runs[r];
      && (was.fp != Missing ==> now == was)
      && (was.fp == Missing ==>
           && now.fp == run.fp && now.fp != Missing && now.digest == s.runs[r].digest
           && now.requester == Some(s.runs[r].actor) && now.requestedAt == was.requestedAt
           && now.expiresAt == Some(was.requestedAt + 3600000000)
           && now.version == if s.runs[r].version in {None, Some("")} then Some("legacy-unresolved")
                             else s.runs[r].version)
  {
    hide Trail, NeedsHash, Sorted, FillEvents, ChainHead;
  }

  // ---- The loops ----

  /** The tables of one ledger file, updated in place. */
  class LedgerFile {
    var runs: map<RunId, RunRow>
    var approvals: map<RunId, ApprovalRow>
    var events: seq<Event>

    ghost function Contents(): Tables
      reads this
    {
      Tables(runs, approvals, events)
    }

    constructor (tables: Tables)
      ensures Contents() == tables
    {
      runs, approvals, events := tables.runs, tables.approvals, tables.events;
    }

    /** Fills whatever is missing; `runOrder` and `approvalOrder` are the orders the tables are read in. */
    method BackfillV1(runOrder: seq<RunId>, approvalOrder: seq<RunId>)
      requires forall r :: r in runOrder <==> r in runs
      requires forall r :: r in approvalOrder <==> r in approvals
      requires forall i, j :: 0 <= i < j < |runOrder| ==> runOrder[i] != runOrder[j]
      requires forall i, j :: 0 <= i < j < |approvalOrder| ==> approvalOrder[i] != approvalOrder[j]
      modifies this
      ensures Contents() == Migrated(old(Contents()))
    {
      hide FillEvents, Trail, FillAnchor, Migrated, FillRun, FillApproval;
      FillFingerprints(runOrder);
      FillApprovals(approvalOrder);
      ghost var s := Contents();
      FillChains(runOrder);
      FinalTables(old(Contents()), s, Contents(), s.runs.Keys);
    }

    /** Every run's turn, in the order the table is read. */
    method FillChains(order: seq<RunId>)
      requires forall r :: r in order <==> r in runs
      requires forall i, j :: 0 <= i < j < |order| ==> order[i] != order[j]
      modifies this`runs, this`events
      ensures events == FillEvents(old(events), old(runs).Keys)
      ensures runs.Keys == old(runs).Keys
      ensures forall r :: r in runs ==> runs[r] == FillAnchor(r, old(runs)[r], Trail(old(events), r))
    {
      hide FillEvents, Trail, NeedsHash, SealedAt, FillAnchor, ChainHead;
      ghost var done: set<RunId> := {};
      FillNone(events);
      for k := 0 to |order|
        invariant runs.Keys == old(runs).Keys
        invariant done == set r | r in order[..k]
        invariant events == FillEvents(old(events), done)
        invariant forall r :: r in runs ==>
          runs[r] == if r in done then FillAnchor(r, old(runs)[r], Trail(old(events), r)) else old(runs)[r]
      {
        var r := order[k];
        assert order[..k + 1] == order[..k] + [order[k]] && r !in done;
        FilledTrail(old(events), done, r);
        ghost var before := events;
        BackfillRun(r);
        FilledMore(old(events), done, r, before, events);
        done := done + {r};
      }
      assert order[..|order|] == order;
      assert done == old(runs).Keys;
    }

    /** One run's turn: reseal its events if any lacks a hash, and set its anchor when it is due. */
    method BackfillRun(r: RunId)
      requires r in runs
      modifies this`runs, this`events
      ensures runs == old(runs)[r := FillAnchor(r, old(runs)[r], Trail(old(events), r))]
      ensures !NeedsHash(Trail(old(events), r)) ==> events == old(events)
      ensures NeedsHash(Trail(old(events), r)) ==> |events| == |old(events)| && forall i :: 0 <= i < |events| ==>
        events[i] == if old(events)[i].run == r then SealedAt(old(events), i) else old(events)[i]
    {
      hide Trail, SealedAt, ChainHead;
      var rows := Trail(events, r);
      var needed := NeedsHash(rows);
      var previous: Option<Hash> := LastText(rows);
      if needed { previous := ResealRun(r); }
      if needed || (runs[r].eventCount == 0 && rows != []) {
        runs := runs[r := runs[r].(eventCount := |rows|, head := previous)];
      }
    }

    method FillFingerprints(order: seq<RunId>)
      requires forall r :: r in order <==> r in runs
      modifies this`runs
      ensures runs == map r | r in old(runs) :: FillRun(old(runs)[r])
    {
      for k := 0 to |order|
        invariant runs.Keys == old(runs).Keys
        invariant forall r :: r in runs ==>
          runs[r] == if r in order[..k] then FillRun(old(runs)[r]) else old(runs)[r]
      {
        assert order[..k + 1] == order[..k] + [order[k]];
        runs := runs[order[k] := FillRun(runs[order[k]])];
      }
      assert order[..|order|] == order;
    }

    method FillApprovals(order: seq<RunId>)
      requires forall r :: r in order <==> r in approvals
      modifies this`approvals
      ensures approvals == map r | r in old(approvals) ::
        if r in runs then FillApproval(old(approvals)[r], runs[r]) else old(approvals)[r]
    {
      for k := 0 to |order|
        invariant approvals.Keys == old(approvals).Keys
        invariant forall r :: r in approvals ==>
          approvals[r] ==
            if r in order[..k] && r in runs then FillApproval(old(approvals)[r], runs[r]) else old(approvals)[r]
      {
        assert order[..k + 1] == order[..k] + [order[k]];
        var r := order[k];
        if r in runs && approvals[r].fp.Missing? {
          approvals := approvals[r := FillApproval(approvals[r], runs[r])];
        }
      }
      assert order[..|order|] == order;
    }

    /** Recomputes every hash of one run, in order, and returns the last. */
    method ResealRun(r: RunId) returns (previous: Option<Hash>)
      modifies this`events
      ensures |events| == |old(events)|
      ensures forall i :: 0 <= i < |events| ==>
        events[i] == if old(events)[i].run == r then SealedAt(old(events), i) else old(events)[i]
      ensures previous == ChainHead(r, Trail(old(events), r))
    {
      hide Trail, ChainHead, SealedAt;
      HeadStart(events, r);
      previous := None;
      for i := 0 to |events|
        invariant |events| == |old(events)|
        invariant forall j :: 0 <= j < |events| ==>
          events[j] == if old(events)[j].run == r && j < i then SealedAt(old(events), j) else old(events)[j]
        invariant previous == ChainHead(r, Trail(old(events)[..i], r))
      {
        var e := events[i];
        HeadNext(old(events), i, r);
        if e.run == r {
          var hash := Digest(r, e.body, previous, e.at);
          events := events[i := e.(prev := previous, hash := Some(hash))];
          previous := Some(hash);
        }
      }
      assert old(events)[..|events|] == old(events);
    }
  }

  lemma FillNone(events: seq<Event>)
    ensures FillEvents(events, {}) == events
  {
  }

  lemma HeadStart(events: seq<Event>, r: RunId)
    ensures ChainHead(r, Trail(events[..0], r)) == None
  {
  }

  /** The chain head of a run after one more event of the table. */
  lemma HeadNext(events: seq<Event>, i: nat, r: RunId)
    requires i < |events|
    ensures
      var before, after := ChainHead(r, Trail(events[..i], r)), ChainHead(r, Trail(events[..i + 1], r));
      var e := events[i];
      if e.run != r then after == before
      else
        && after == Some(Digest(r, e.body, before, e.at))
        && SealedAt(events, i) == e.(prev := before, hash := after)
  {
    assert events[..i + 1] == events[..i] + [events[i]];
    TrailAppend(events[..i], events[i], r);
    var rows := Trail(events[..i], r);
    assert (rows + [events[i]])[..|rows|] == rows;
  }

  lemma ResealedMore(original: seq<Event>, done: set<RunId>, r: RunId)
    requires r !in done && NeedsHash(Trail(original, r))
    ensures |FillEvents(original, done + {r})| == |FillEvents(original, done)| == |original|
    ensures
      var a, b := FillEvents(original, done), FillEvents(original, done + {r});
      forall i :: 0 <= i < |original| ==>
        a[i].run == original[i].run && b[i] == if original[i].run == r then SealedAt(a, i) else a[i]
  {
    var a := FillEvents(original, done);
    forall i | 0 <= i < |original| && original[i].run == r ensures SealedAt(a, i) == SealedAt(original, i) {
      TrailAgree(a[..i], original[..i], r);
    }
  }

  /** Filling one more run, as the loop does it. */
  lemma FilledMore(original: seq<Event>, done: set<RunId>, r: RunId, before: seq<Event>, after: seq<Event>)
    requires r !in done && before == FillEvents(original, done)
    requires !NeedsHash(Trail(original, r)) ==> after == before
    requires NeedsHash(Trail(original, r)) ==> |after| == |before| && forall i :: 0 <= i < |after| ==>
      after[i] == if before[i].run == r then SealedAt(before, i) else before[i]
    ensures after == FillEvents(original, done + {r})
  {
    hide FillEvents, Trail, NeedsHash, SealedAt;
    if NeedsHash(Trail(original, r)) { ResealedMore(original, done, r); } else { ResealedNone(original, done, r); }
  }

  lemma ResealedNone(original: seq<Event>, done: set<RunId>, r: RunId)
    requires !NeedsHash(Trail(original, r))
    ensures FillEvents(original, done + {r}) == FillEvents(original, done)
  {
  }

  lemma FinalTables(before: Tables, s: Tables, after: Tables, done: set<RunId>)
    requires done == before.runs.Keys == s.runs.Keys == after.runs.Keys
    requires s.events == before.events && after.events == FillEvents(s.events, done)
    requires forall r :: r in before.runs ==> s.runs[r] == FillRun(before.runs[r])
    requires forall r :: r in s.runs ==> after.runs[r] == FillAnchor(r, s.runs[r], Trail(s.events, r))
    requires after.approvals == s.approvals && s.approvals.Keys == before.approvals.Keys
    requires forall r :: r in before.approvals ==>
      s.approvals[r] == if r in s.runs then FillApproval(before.approvals[r], s.runs[r]) else before.approvals[r]
    ensures after == Migrated(before)
  {
    hide Trail, FillEvents, NeedsHash;
    var m := Migrated(before);
    assert after.runs == m.runs;
    forall r | r in before.approvals ensures after.approvals[r] == m.approvals[r] {}
    assert after.approvals == m.approvals;
  }
}
