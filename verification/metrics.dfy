/** The operational counts, and the conservation laws that tie them together in every reachable ledger. */
module Metrics {
  import opened Text
  import opened Models
  import opened Trails
  import opened LedgerSpec
  import opened LedgerProofs
  import opened LedgerSteps
  import opened Histories

  // ---- Sums over a set of runs ----

  ghost function Sum(keys: set<RunId>, f: RunId -> nat): nat {
    if keys == {} then 0 else var x :| x in keys; f(x) + Sum(keys - {x}, f)
  }

  lemma {:induction false} SumSplit(keys: set<RunId>, f: RunId -> nat, x: RunId)
    requires x in keys
    ensures Sum(keys, f) == f(x) + Sum(keys - {x}, f)
  {
    var y :| y in keys && Sum(keys, f) == f(y) + Sum(keys - {y}, f);
    if y != x {
      SumSplit(keys - {y}, f, x);
      SumSplit(keys - {x}, f, y);
      assert keys - {y} - {x} == keys - {x} - {y};
    }
  }

  lemma {:induction false} SumPlus(keys: set<RunId>, f: RunId -> nat, g: RunId -> nat, h: RunId -> nat)
    requires forall x :: x in keys ==> f(x) == g(x) + h(x)
    ensures Sum(keys, f) == Sum(keys, g) + Sum(keys, h)
  {
    if keys != {} {
      var x :| x in keys;
      SumSplit(keys, f, x);
      SumSplit(keys, g, x);
      SumSplit(keys, h, x);
      SumPlus(keys - {x}, f, g, h);
    }
  }

  lemma {:induction false} SumSame(keys: set<RunId>, f: RunId -> nat, g: RunId -> nat)
    requires forall x :: x in keys ==> f(x) == g(x)
    ensures Sum(keys, f) == Sum(keys, g)
  {
    if keys != {} {
      var x :| x in keys;
      SumSplit(keys, f, x);
      SumSplit(keys, g, x);
      SumSame(keys - {x}, f, g);
    }
  }

  lemma SumBump(keys: set<RunId>, f: RunId -> nat, g: RunId -> nat, y: RunId, d: nat)
    requires forall x :: x in keys && x != y ==> g(x) == f(x)
    requires g(y) == f(y) + d
    ensures Sum(keys, g) == Sum(keys, f) + (if y in keys then d else 0)
  {
    if y in keys {
      SumSplit(keys, f, y);
      SumSplit(keys, g, y);
      SumSame(keys - {y}, f, g);
    } else {
      SumSame(keys, f, g);
    }
  }

  function Among(picked: set<RunId>): RunId -> nat { r => Bit(r in picked) }

  lemma {:induction false} SumOfBits(keys: set<RunId>, picked: set<RunId>)
    requires picked <= keys
    ensures Sum(keys, Among(picked)) == |picked|
  {
    if keys != {} {
      var x :| x in keys;
      SumSplit(keys, Among(picked), x);
      SumOfBits(keys - {x}, picked - {x});
      SumSame(keys - {x}, Among(picked), Among(picked - {x}));
    }
  }

  // ---- The counts ----

  /** Runs a tenant filter admits. */
  function Scope(s: State, tenant: Option<string>): set<RunId> { set r | r in s.runs && InScope(s, r, tenant) }

  function InStatus(s: State, tenant: Option<string>, status: Status): set<RunId> {
    set r | r in s.runs && InScope(s, r, tenant) && s.runs[r].status == status
  }

  function StatusCount(s: State, tenant: Option<string>, status: Status): nat { |InStatus(s, tenant, status)| }

  function CountIf(rows: seq<Event>, p: Body -> bool): nat {
    if rows == [] then 0 else CountIf(rows[..|rows| - 1], p) + Bit(p(rows[|rows| - 1].body))
  }

  function Named(name: string): Body -> bool { b => TypeName(KindOf(b)) == name }

  function EventsIn(events: seq<Event>, scope: set<RunId>): seq<Event> {
    if events == [] then []
    else
      var rest := EventsIn(events[..|events| - 1], scope);
      if events[|events| - 1].run in scope then rest + [events[|events| - 1]] else rest
  }

  /** COUNT(*) of events joined to in-scope runs, for one event_type text. */
  function EventCount(s: State, tenant: Option<string>, name: string): nat {
    CountIf(EventsIn(s.events, Scope(s, tenant)), Named(name))
  }

  function ApprovalsIn(s: State, tenant: Option<string>, status: Status): set<RunId> {
    set r | r in s.approvals && InScope(s, r, tenant) && s.approvals[r].status == status
  }

  function ApprovalCount(s: State, tenant: Option<string>, status: Status): nat { |ApprovalsIn(s, tenant, status)| }

  function PerRunDuplicates(s: State): RunId -> nat { r => if r in s.runs then s.runs[r].duplicates else 0 }

  /** SUM(duplicate_count) over the runs a tenant filter admits. */
  ghost function DuplicateCount(s: State, tenant: Option<string>): nat { Sum(Scope(s, tenant), PerRunDuplicates(s)) }

  /** Pending approvals whose expiry has passed: the `expired_pending` figure. */
  function PendingLapsed(s: State, tenant: Option<string>, now: Time): set<RunId> {
    set r | r in s.approvals && InScope(s, r, tenant) && s.approvals[r].status == PendingApproval
            && s.approvals[r].expiresAt <= now
  }

  // ---- Global counts are sums of per-run counts ----

  lemma CountIfAppend(rows: seq<Event>, e: Event, p: Body -> bool)
    ensures CountIf(rows + [e], p) == CountIf(rows, p) + Bit(p(e.body))
  {
    assert (rows + [e])[..|rows|] == rows;
  }

  function PerRun(events: seq<Event>, p: Body -> bool): RunId -> nat { r => CountIf(Trail(events, r), p) }

  lemma {:induction false} TrailsPartition(events: seq<Event>, scope: set<RunId>, p: Body -> bool)
    ensures CountIf(EventsIn(events, scope), p) == Sum(scope, PerRun(events, p))
  {
    if events == [] {
      SumOfBits(scope, {});
      SumSame(scope, PerRun(events, p), Among({}));
    } else {
      var init, e := events[..|events| - 1], events[|events| - 1];
      assert events == init + [e];
      TrailsPartition(init, scope, p);
      var f, g := PerRun(init, p), PerRun(events, p);
      forall r ensures g(r) == f(r) + (if r == e.run then Bit(p(e.body)) else 0) {
        TrailAppend(init, e, r);
        CountIfAppend(Trail(init, r), e, p);
      }
      SumBump(scope, f, g, e.run, Bit(p(e.body)));
      CountIfAppend(EventsIn(init, scope), e, p);
    }
  }

  lemma {:induction false} CountIfByKind(rows: seq<Event>, kind: Kind)
    requires Replay(rows).Live? || rows == []
    requires !kind.KOther?
    ensures CountIf(rows, Named(TypeName(kind))) == Count(rows, kind)
  {
    hide Step, TypeName, KindOf;
    if rows != [] {
      var init, last := rows[..|rows| - 1], rows[|rows| - 1];
      StepIsNative(Replay(init), last.body);
      NameIsKind(last.body, kind);
      if Replay(init).Blank? { BlankIsEmpty(init); }
      if init != [] { CountIfByKind(init, kind); }
    }
  }

  lemma StepIsNative(x: Replayed, body: Body)
    requires Step(x, body).Live?
    ensures !body.Foreign? && !x.Broken?
  {
  }

  lemma NameIsKind(body: Body, kind: Kind)
    requires !body.Foreign? && !kind.KOther?
    ensures TypeName(KindOf(body)) == TypeName(kind) <==> KindOf(body) == kind
  {
    if TypeName(KindOf(body)) == TypeName(kind) { KindNames(KindOf(body), kind); }
  }

  lemma KindNames(a: Kind, b: Kind)
    requires !a.KOther? && !b.KOther? && TypeName(a) == TypeName(b)
    ensures a == b
  {
  }

  // ---- Conservation ----

  function OfKind(s: State, kind: Kind): RunId -> nat { r => Count(Trail(s.events, r), kind) }

  function Plus(f: RunId -> nat, g: RunId -> nat): RunId -> nat { r => f(r) + g(r) }

  lemma EventCountIsSum(s: State, tenant: Option<string>, kind: Kind)
    requires Inv(s) && !kind.KOther?
    ensures EventCount(s, tenant, TypeName(kind)) == Sum(Scope(s, tenant), OfKind(s, kind))
  {
    hide Trail, Inv, Replay, Count, CountIf, TypeName;
    var scope, p := Scope(s, tenant), Named(TypeName(kind));
    TrailsPartition(s.events, scope, p);
    forall r | r in scope ensures PerRun(s.events, p)(r) == OfKind(s, kind)(r) {
      TrailReplays(s, r);
      CountIfByKind(Trail(s.events, r), kind);
    }
    SumSame(scope, PerRun(s.events, p), OfKind(s, kind));
  }

  lemma TrailReplays(s: State, r: RunId)
    requires Inv(s) && r in s.runs
    ensures Replay(Trail(s.events, r)) == Live(ViewOf(s.runs[r], ApprovalOf(s, r)))
    ensures |Trail(s.events, r)| == s.runs[r].eventCount
  {
    hide Trail, Replay, Indexed, EventsOwned, Sealed;
    assert RunFits(s, r);
  }

  /** Per-run counts as the run's row has them. */
  lemma RunCounts(s: State, r: RunId)
    requires Inv(s) && r in s.runs
    ensures
      var c := (k: Kind) => OfKind(s, k)(r);
      && c(KCreated) == 1
      && c(KStarted) ==
           c(KSucceeded) + c(KFailed) + c(KUncertain) + c(KLeaseExpired) + Bit(s.runs[r].status == Executing)
      && c(KUncertain) + c(KLeaseExpired) == c(KReconciled) + Bit(s.runs[r].status == Unknown)
      && c(KSucceeded) == c(KCompleted)
      && c(KRequested) == c(KApproved) + c(KRejected) + c(KExpired) + Bit(s.runs[r].status == PendingApproval)
      && c(KRequested) == Bit(r in s.approvals)
      && c(KDenied) == Bit(s.runs[r].status == Denied)
  {
    hide Trail, Inv, Replay, Count;
    TrailReplays(s, r);
    ReplayCounts(Trail(s.events, r));
    assert forall k :: OfKind(s, k)(r) == (k' => Count(Trail(s.events, r), k'))(k);
  }

  lemma SumOfFive(keys: set<RunId>, a: RunId -> nat, b: RunId -> nat, c: RunId -> nat, d: RunId -> nat, e: RunId -> nat,
                  f: RunId -> nat)
    requires forall x :: x in keys ==> f(x) == a(x) + b(x) + c(x) + d(x) + e(x)
    ensures Sum(keys, f) == Sum(keys, a) + Sum(keys, b) + Sum(keys, c) + Sum(keys, d) + Sum(keys, e)
  {
    SumPlus(keys, Plus(a, b), a, b);
    SumPlus(keys, Plus(c, d), c, d);
    SumPlus(keys, Plus(Plus(a, b), Plus(c, d)), Plus(a, b), Plus(c, d));
    SumPlus(keys, f, Plus(Plus(a, b), Plus(c, d)), e);
  }

  lemma ExecutionsConserved(s: State, tenant: Option<string>)
    requires Inv(s)
    ensures
      var e := (k: Kind) => EventCount(s, tenant, TypeName(k));
      e(KStarted) == e(KSucceeded) + e(KFailed) + e(KUncertain) + e(KLeaseExpired) + StatusCount(s, tenant, Executing)
  {
    hide Inv, TypeName, EventCount, InScope, Sum, Trail, Count;
    var keys, busy := Scope(s, tenant), InStatus(s, tenant, Executing);
    forall k | k in {KStarted, KSucceeded, KFailed, KUncertain, KLeaseExpired}
      ensures EventCount(s, tenant, TypeName(k)) == Sum(keys, OfKind(s, k))
    {
      EventCountIsSum(s, tenant, k);
    }
    SumOfBits(keys, busy);
    forall r | r in keys { RunCounts(s, r); }
    SumOfFive(keys, OfKind(s, KSucceeded), OfKind(s, KFailed), OfKind(s, KUncertain), OfKind(s, KLeaseExpired),
              Among(busy), OfKind(s, KStarted));
  }

  lemma UncertaintyConserved(s: State, tenant: Option<string>)
    requires Inv(s)
    ensures
      var e := (k: Kind) => EventCount(s, tenant, TypeName(k));
      StatusCount(s, tenant, Unknown) + e(KReconciled) == e(KUncertain) + e(KLeaseExpired)
  {
    hide Inv, TypeName, EventCount, InScope, Sum, Trail, Count;
    var keys, unknown := Scope(s, tenant), InStatus(s, tenant, Unknown);
    forall k | k in {KReconciled, KUncertain, KLeaseExpired}
      ensures EventCount(s, tenant, TypeName(k)) == Sum(keys, OfKind(s, k))
    {
      EventCountIsSum(s, tenant, k);
    }
    SumOfBits(keys, unknown);
    forall r | r in keys { RunCounts(s, r); }
    var total := Plus(OfKind(s, KUncertain), OfKind(s, KLeaseExpired));
    SumPlus(keys, total, OfKind(s, KUncertain), OfKind(s, KLeaseExpired));
    SumPlus(keys, total, OfKind(s, KReconciled), Among(unknown));
  }

  lemma WaitingIsPending(s: State, tenant: Option<string>)
    requires Inv(s)
    ensures ApprovalsIn(s, tenant, PendingApproval) == InStatus(s, tenant, PendingApproval)
  {
    hide Inv;
    forall r | r in s.approvals
      ensures r in s.runs && (s.approvals[r].status == PendingApproval <==> s.runs[r].status == PendingApproval)
    {
      ApprovalMirrors(s, r);
    }
    forall r | r in s.runs { ColumnsMirrorStatus(s, r); }
  }

  lemma ApprovalsConserved(s: State, tenant: Option<string>)
    requires Inv(s)
    ensures
      var e := (k: Kind) => EventCount(s, tenant, TypeName(k));
      e(KRequested) == e(KApproved) + e(KRejected) + e(KExpired) + ApprovalCount(s, tenant, PendingApproval)
  {
    hide Inv, TypeName, EventCount, InScope, ApprovalsIn, Sum, Trail, Count;
    var keys, waiting := Scope(s, tenant), InStatus(s, tenant, PendingApproval);
    forall k | k in {KRequested, KApproved, KRejected, KExpired}
      ensures EventCount(s, tenant, TypeName(k)) == Sum(keys, OfKind(s, k))
    {
      EventCountIsSum(s, tenant, k);
    }
    WaitingIsPending(s, tenant);
    SumOfBits(keys, waiting);
    SumOfBits(keys, {});
    forall r | r in keys { RunCounts(s, r); }
    SumOfFive(keys, OfKind(s, KApproved), OfKind(s, KRejected), OfKind(s, KExpired), Among(waiting), Among({}),
              OfKind(s, KRequested));
  }

  function Anchors(s: State): RunId -> nat { r => if r in s.runs then s.runs[r].eventCount else 0 }

  function Any(): Body -> bool { b => true }

  lemma {:induction false} EveryEventCounts(rows: seq<Event>)
    ensures CountIf(rows, Any()) == |rows|
  {
    if rows != [] { EveryEventCounts(rows[..|rows| - 1]); }
  }

  lemma {:induction false} AllInScope(events: seq<Event>, scope: set<RunId>)
    requires forall e :: e in events ==> e.run in scope
    ensures EventsIn(events, scope) == events
  {
    if events != [] { AllInScope(events[..|events| - 1], scope); }
  }

  lemma AnchorsAddUp(s: State)
    requires Inv(s)
    ensures |s.events| == Sum(s.runs.Keys, Anchors(s))
  {
    hide Trail, RunFits, Indexed, CountIf;
    var keys := s.runs.Keys;
    AllInScope(s.events, keys);
    TrailsPartition(s.events, keys, Any());
    EveryEventCounts(s.events);
    hide Inv;
    forall r | r in keys ensures PerRun(s.events, Any())(r) == Anchors(s)(r) {
      TrailReplays(s, r);
      EveryEventCounts(Trail(s.events, r));
    }
    SumSame(keys, PerRun(s.events, Any()), Anchors(s));
  }

  /** The metric laws, for every reachable ledger and every tenant filter. */
  lemma Conservation(s: State, tenant: Option<string>)
    requires Arises(s)
    ensures
      var e := (k: Kind) => EventCount(s, tenant, TypeName(k));
      && e(KStarted) ==
           e(KSucceeded) + e(KFailed) + e(KUncertain) + e(KLeaseExpired) + StatusCount(s, tenant, Executing)
      && StatusCount(s, tenant, Unknown) + e(KReconciled) == e(KUncertain) + e(KLeaseExpired)
      && e(KRequested) == e(KApproved) + e(KRejected) + e(KExpired) + ApprovalCount(s, tenant, PendingApproval)
      && |s.events| == Sum(s.runs.Keys, Anchors(s))
  {
    hide Inv, Arises, EventCount, TypeName, StatusCount, ApprovalCount, Sum;
    ArisesInv(s);
    ExecutionsConserved(s, tenant);
    UncertaintyConserved(s, tenant);
    ApprovalsConserved(s, tenant);
    AnchorsAddUp(s);
  }

  /** The `expired_pending` figure is exactly what an approval sweep at that instant would move. */
  lemma ExpiredPendingIsOverdue(s: State, tenant: Option<string>, now: Time)
    requires Inv(s)
    ensures forall r :: r in PendingLapsed(s, tenant, now) <==> ApprovalOverdue(s, r, tenant, now)
  {
    hide Inv;
    forall r | r in s.approvals { ApprovalMirrors(s, r); }
  }
}
