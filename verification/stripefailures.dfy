/** What a failed payment run says about its payment, exactly.

    A failure is a report of the run's own charge, a denial by the probe, or an operator's word. Leaving the last aside,
    the run is never paid unless its charge left on an exception it took for definite after its POST was sent; and then
    it comes down to whether the provider's slot for that POST is taken by anything but the succeeded payment. */
module StripeFailures {
  import opened Text
  import opened Models
  import opened Trails
  import opened TrailFacts
  import opened LedgerSpec
  import opened LedgerProofs
  import opened LedgerSteps
  import opened LedgerSweeps
  import opened Histories
  import opened Runtime
  import opened Stripe

  /** Call `n` failed run `r` on its own execution's report. */
  predicate FailAt(ops: seq<Op>, n: nat, r: RunId)
    requires n < |ops|
  {
    ops[n].OpFinish? && ops[n].run == r && ops[n].how.Fail? && Apply(Reached(ops[..n]), ops[n]).1 == Done
  }

  ghost predicate FailedByReport(ops: seq<Op>, r: RunId) { exists n: nat :: n < |ops| && FailAt(ops, n, r) }

  /** The run's charge left on an exception whose type it does not list as ambiguous, its POST already sent. */
  predicate Refused(a: Adapter, x: World, r: RunId) {
    r in x.heard && x.heard[r].Exception? && x.heard[r].errorType !in a.ambiguous
  }

  /** Why a charge may report failure: nothing was sent, the provider said so, or a refusing exception was heard. */
  predicate Explained(a: Adapter, x: World, r: RunId) {
    r !in x.charged || Covered(a, x, r, NOT_COMMITTED) || Refused(a, x, r)
  }

  predicate InFlight(a: Adapter, x: World, r: RunId) {
    && Governs(a, x.y, r) && PostOf(a, r, Db(x.y).runs[r].q).Some?
    && PostOf(a, r, Db(x.y).runs[r].q).value in x.sent
  }

  predicate HeldBy(y: Sys, v: nat, r: RunId) { Holds(PcOf(y, v)) && PcOf(y, v).run == r }

  // ---- The invariant ----

  ghost predicate WireKept(a: Adapter, x: World) {
    && (forall post :: post in x.sent ==> post.params.run in x.charged || post.params.run in x.looked)
    && (forall v :: v in x.waiting ==> PcOf(x.y, v).Inside? || PcOf(x.y, v).Crashed?)
    && (forall v :: v in x.waiting && Charging(a, x, v) ==> InFlight(a, x, PcOf(x.y, v).run))
    && (forall r :: r in x.heard ==> InFlight(a, x, r))
  }

  ghost predicate ChargesKept(a: Adapter, x: World) {
    && (forall v :: Charging(a, x, v) && v !in x.waiting ==> PcOf(x.y, v).run !in x.charged)
    && (forall r :: r in x.charged ==> Called(x.y, r))
  }

  ghost predicate ReportsKept(a: Adapter, x: World) {
    forall v :: PcOf(x.y, v).Finishing? && PcOf(x.y, v).outcome.Failure? && Governs(a, x.y, PcOf(x.y, v).run)
      ==> Explained(a, x, PcOf(x.y, v).run)
  }

  /** The probe only asks about runs that were unknown, and those no report can fail any more. */
  predicate PastReports(y: Sys, r: RunId) { r in Db(y).runs && Rank(Db(y).runs[r].status) >= Rank(Unknown) }

  ghost predicate LooksKept(x: World) {
    forall r :: r in x.looked ==> PastReports(x.y, r) && !FailedByReport(x.y.ops, r)
  }

  /** A reported failure stands, is explained, and nobody holds the run any more. */
  ghost predicate Reported(a: Adapter, x: World, r: RunId) {
    && Stands(Db(x.y), r, Failed)
    && (Governs(a, x.y, r) ==> Explained(a, x, r) && forall v :: !HeldBy(x.y, v, r))
  }

  ghost predicate FailuresKept(a: Adapter, x: World) {
    && (forall r :: FailedByReport(x.y.ops, r) ==> Reported(a, x, r))
    && (forall r :: Governs(a, x.y, r) && Stands(Db(x.y), r, Failed) ==>
          FailedByReport(x.y.ops, r) || DeniedByProbe(x.y.ops, r) || ByHand(x.y.ops, r))
  }

  ghost predicate Kept(a: Adapter, x: World) {
    && Traced(x.y) && WireKept(a, x) && ChargesKept(a, x) && ReportsKept(a, x) && LooksKept(x) && FailuresKept(a, x)
  }

  // ---- Facts about one runtime step ----

  lemma OneHolder(y: Sys, v: nat, w: nat)
    requires Safe(y) && v != w && Holds(PcOf(y, v)) && Holds(PcOf(y, w))
    ensures PcOf(y, v).run != PcOf(y, w).run
  {
    hide Reached;
  }

  lemma ClaimedUncalled(y: Sys, w: nat)
    requires Safe(y) && PcOf(y, w).Claimed?
    ensures !Called(y, PcOf(y, w).run)
  {
    hide Reached;
  }

  lemma InsideOrCrashed(y: Sys, step: StepLabel, v: nat)
    requires PcOf(y, v).Inside? || PcOf(y, v).Crashed?
    ensures
      var p, q := PcOf(y, v), PcOf(Next(y, step), v);
      if step.Leave? && step.w == v && p.Inside? then q.Finishing? else q == p || q.Crashed?
  {
    hide Reached, Answer, RequestFingerprint;
  }

  lemma FinishLetsGo(y: Sys, w: nat, now: Time, clock: Clock)
    requires PcOf(y, w).Finishing?
    ensures !Holds(PcOf(Next(y, StepLabel.Finish(w, now, clock)), w))
    ensures forall v :: v != w ==> PcOf(Next(y, StepLabel.Finish(w, now, clock)), v) == PcOf(y, v)
  {
    hide Reached, Answer;
  }

  lemma CallsGrow(y: Sys, step: StepLabel, r: RunId)
    requires Called(y, r)
    ensures Called(Next(y, step), r)
  {
    NextCalls(y, step);
    hide Next;
    var i :| 0 <= i < |y.calls| && y.calls[i].run == r;
    assert Next(y, step).calls[i] == y.calls[i];
  }

  /** Rows only move forward in a step. */
  lemma RowsMove(y: Sys, step: StepLabel, r: RunId)
    requires r in Db(y).runs
    ensures r in Db(Next(y, step)).runs && RowMoves(Db(y).runs[r], Db(Next(y, step)).runs[r])
  {
    hide Reached, Next, OpOf, RowMoves, Apply, Inv, Trail;
    NextCommits(y, step);
    ReachedInv(y.ops);
    match OpOf(y, step)
    case None => RowStays(Db(y).runs[r]);
    case Some(op) =>
      CommitsOnward(y, op);
      ApplyKeeps(Db(y), op);
      assert RowMoves(Db(y).runs[r], Apply(Db(y), op).0.runs[r]);
  }

  lemma RowStays(run: Run)
    ensures RowMoves(run, run)
  {
  }

  /** A finished report needs an executing run. */
  lemma ReportNeedsExecuting(s: State, op: Op)
    requires op.OpFinish? && Apply(s, op).1 == Done
    ensures op.run in s.runs && s.runs[op.run].status == Executing
    ensures op.how.Fail? ==> Stands(Apply(s, op).0, op.run, Failed)
  {
    hide Commit;
    if op.run in s.runs {
      CommitRow(s, op.run, FinishRow(s.runs[op.run], op.how, op.now), None, FinishBodies(op.how), op.clock);
    }
  }

  /** A failure on record is an old one, or this step's report. */
  lemma FailureWasThere(ops: seq<Op>, op: Op, r: RunId)
    requires FailedByReport(ops + [op], r)
    ensures FailedByReport(ops, r) || (op.OpFinish? && op.run == r && op.how.Fail? && Apply(Reached(ops), op).1 == Done)
  {
    hide Apply, Reached;
    var n: nat :| n < |ops + [op]| && FailAt(ops + [op], n, r);
    assert (ops + [op])[..n] == ops[..n];
    if n < |ops| {
      assert FailAt(ops, n, r);
    } else {
      assert ops[..n] == ops;
    }
  }

  lemma FailureStays(ops: seq<Op>, op: Op, r: RunId)
    requires FailedByReport(ops, r)
    ensures FailedByReport(ops + [op], r)
  {
    hide Apply, Reached;
    var n: nat :| n < |ops| && FailAt(ops, n, r);
    assert (ops + [op])[..n] == ops[..n];
    assert FailAt(ops + [op], n, r);
  }

  lemma DenialStays(ops: seq<Op>, op: Op, r: RunId)
    requires DeniedByProbe(ops, r)
    ensures DeniedByProbe(ops + [op], r)
  {
    hide Apply, Reached;
    var n: nat :| n < |ops| && DenialAt(ops, n, r);
    assert (ops + [op])[..n] == ops[..n];
    assert DenialAt(ops + [op], n, r);
  }

  // ---- Steps of workers and other clients ----

  /** A runtime step, with what it does to the adapter's own bookkeeping. */
  ghost predicate WorkerStep(a: Adapter, x: World, z: World, step: StepLabel) {
    && Steps(x, z, step) && z.charged == x.charged && z.looked == x.looked
    && z.waiting == (if step.Leave? then x.waiting - {step.w} else x.waiting)
    && (z.heard == x.heard
        || (step.Leave? && Charging(a, x, step.w) && step.w in x.waiting && PcOf(x.y, step.w).run in z.heard
            && z.heard == x.heard[PcOf(x.y, step.w).run := z.heard[PcOf(x.y, step.w).run]]))
  }

  /** Failures that leave a charge are explained, and only a charge's worker reports one on a payment run. */
  predicate Told(a: Adapter, x: World, z: World, step: StepLabel) {
    match step
    case Leave(w, outcome) => Charging(a, x, w) && outcome.Failure? ==> Explained(a, z, PcOf(x.y, w).run)
    case Client(op) => op.OpFinish? && op.how.Fail? ==> !Governs(a, x.y, op.run)
    case _ => true
  }

  lemma ExplainedStays(a: Adapter, x: World, z: World, r: RunId)
    requires Later(x, z) && Explained(a, x, r)
    requires r !in x.charged ==> r !in z.charged
    requires r in x.heard ==> r in z.heard && z.heard[r] == x.heard[r]
    ensures Explained(a, z, r)
  {
    hide Covered, Later, NOT_COMMITTED;
    if Covered(a, x, r, NOT_COMMITTED) { CoveredStays(a, x, z, r, NOT_COMMITTED); }
  }

  lemma FlightStays(a: Adapter, x: World, z: World, r: RunId)
    requires Later(x, z) && InFlight(a, x, r)
    ensures InFlight(a, z, r)
  {
    hide Reached, LookupParams;
  }

  /** Only the run of the leaving charge has its `heard` entry touched. */
  lemma OthersHeard(a: Adapter, x: World, z: World, step: StepLabel, r: RunId)
    requires WorkerStep(a, x, z, step)
    requires step.Leave? && Charging(a, x, step.w) ==> PcOf(x.y, step.w).run != r
    ensures r in x.heard <==> r in z.heard
    ensures r in x.heard ==> z.heard[r] == x.heard[r]
  {
    hide Next, Governs;
  }

  lemma GovernsBack(a: Adapter, x: World, z: World, r: RunId)
    requires Later(x, z) && r in Db(x.y).runs
    ensures Governs(a, z.y, r) <==> Governs(a, x.y, r)
  {
    hide Reached;
  }

  lemma StepWire(a: Adapter, x: World, z: World, step: StepLabel)
    requires Safe(x.y) && WireKept(a, x) && WorkerStep(a, x, z, step) && Later(x, z)
    ensures WireKept(a, z)
  {
    hide Reached, Next, InFlight, Later, Safe, Governs;
    forall v | v in z.waiting ensures PcOf(z.y, v).Inside? || PcOf(z.y, v).Crashed? { InsideOrCrashed(x.y, step, v); }
    forall v | v in z.waiting && Charging(a, z, v) ensures InFlight(a, z, PcOf(z.y, v).run) {
      InsideOrCrashed(x.y, step, v);
      HolderKnown(x.y, v);
      GovernsBack(a, x, z, PcOf(x.y, v).run);
      FlightStays(a, x, z, PcOf(x.y, v).run);
    }
    forall r | r in z.heard ensures InFlight(a, z, r) { FlightStays(a, x, z, r); }
  }

  lemma StepCharges(a: Adapter, x: World, z: World, step: StepLabel)
    requires Safe(x.y) && WireKept(a, x) && ChargesKept(a, x) && WorkerStep(a, x, z, step) && Later(x, z)
    ensures ChargesKept(a, z)
  {
    hide Reached, Next, InFlight, Later, Safe, Governs, Called;
    forall v | Charging(a, z, v) && v !in z.waiting ensures PcOf(z.y, v).run !in z.charged {
      NextWorker(x.y, step, v);
      if PcOf(x.y, v).Claimed? {
        ClaimedUncalled(x.y, v);
      } else {
        InsideOrCrashed(x.y, step, v);
        HolderKnown(x.y, v);
        GovernsBack(a, x, z, PcOf(x.y, v).run);
      }
    }
    forall r | r in z.charged ensures Called(z.y, r) { CallsGrow(x.y, step, r); }
  }

  lemma StepReports(a: Adapter, x: World, z: World, step: StepLabel, v: nat)
    requires Safe(x.y) && ReportsKept(a, x) && WorkerStep(a, x, z, step) && Told(a, x, z, step) && Later(x, z)
    requires PcOf(z.y, v).Finishing? && PcOf(z.y, v).outcome.Failure? && Governs(a, z.y, PcOf(z.y, v).run)
    ensures Explained(a, z, PcOf(z.y, v).run)
  {
    NextWorker(x.y, step, v);
    hide Reached, Next, Later, Safe, Governs, Explained, Answer;
    var r := PcOf(z.y, v).run;
    HolderKnown(x.y, v);
    GovernsBack(a, x, z, r);
    if PcOf(z.y, v) == PcOf(x.y, v) {
      if step.Leave? && Charging(a, x, step.w) { OneHolder(x.y, v, step.w); }
      OthersHeard(a, x, z, step, r);
      ExplainedStays(a, x, z, r);
    }
  }

  lemma StepLooks(x: World, z: World, step: StepLabel, r: RunId)
    requires LooksKept(x) && Steps(x, z, step) && r in x.looked
    ensures PastReports(z.y, r) && !FailedByReport(z.y.ops, r)
  {
    RowsMove(x.y, step, r);
    NextCommits(x.y, step);
    hide Reached, Next, OpOf, FailedByReport, Apply;
    if OpOf(x.y, step).Some? && FailedByReport(z.y.ops, r) {
      var op := OpOf(x.y, step).value;
      FailureWasThere(x.y.ops, op, r);
      ReportNeedsExecuting(Db(x.y), op);
      assert false;
    }
  }

  /** Nobody comes to hold a run that has failed. */
  lemma FailedStaysFree(y: Sys, step: StepLabel, r: RunId, v: nat)
    requires Stands(Db(y), r, Failed) && forall u :: !HeldBy(y, u, r)
    ensures !HeldBy(Next(y, step), v, r)
  {
    NextWorker(y, step, v);
    hide Reached, Next, Apply;
    assert !HeldBy(y, v, r);
    if step.Claim? && step.w == v && PcOf(y, v).Claiming? {
      var op := OpClaim(PcOf(y, v).run, step.owner, step.seconds, step.now, step.clock);
      if Answer(y, op) == Flag(true) {
        assert Launches(Db(y), op);
        LaunchNeedsClaimable(Db(y), op);
      }
    }
  }

  lemma OldReport(a: Adapter, x: World, z: World, step: StepLabel, r: RunId)
    requires WorkerStep(a, x, z, step) && Later(x, z) && Reported(a, x, r)
    ensures Reported(a, z, r)
  {
    RowsMove(x.y, step, r);
    hide Reached, Next, Later, Explained, HeldBy;
    GovernsBack(a, x, z, r);
    if Governs(a, z.y, r) {
      if step.Leave? && Charging(a, x, step.w) {
        assert !HeldBy(x.y, step.w, r);
        NotItsRun(x.y, step.w, r);
      }
      OthersHeard(a, x, z, step, r);
      ExplainedStays(a, x, z, r);
      forall v ensures !HeldBy(z.y, v, r) { FailedStaysFree(x.y, step, r, v); }
    }
  }

  lemma NotItsRun(y: Sys, w: nat, r: RunId)
    requires PcOf(y, w).Inside? && !HeldBy(y, w, r)
    ensures PcOf(y, w).run != r
  {
  }

  /** A report that fails a payment run comes from the worker that charged it. */
  lemma NewReport(a: Adapter, x: World, z: World, step: StepLabel, op: Op)
    requires Safe(x.y) && ReportsKept(a, x) && WorkerStep(a, x, z, step) && Told(a, x, z, step) && Later(x, z)
    requires OpOf(x.y, step) == Some(op) && op.OpFinish? && op.how.Fail? && Apply(Db(x.y), op).1 == Done
    requires Db(z.y) == Apply(Db(x.y), op).0
    ensures Reported(a, z, op.run)
  {
    ReportNeedsExecuting(Db(x.y), op);
    ReportSource(x.y, step, op);
    hide Reached, Next, Later, Explained, OpOf, Apply, Safe, HeldBy;
    GovernsBack(a, x, z, op.run);
    if Governs(a, z.y, op.run) {
      assert step.Finish?;
      FinishLetsGo(x.y, step.w, step.now, step.clock);
      ExplainedStays(a, x, z, op.run);
      forall v ensures !HeldBy(z.y, v, op.run) { LastHolderGone(x.y, z.y, step.w, v); }
    }
  }

  lemma LastHolderGone(y: Sys, z: Sys, w: nat, v: nat)
    requires Safe(y) && PcOf(y, w).Finishing? && !Holds(PcOf(z, w)) && (v != w ==> PcOf(z, v) == PcOf(y, v))
    ensures !HeldBy(z, v, PcOf(y, w).run)
  {
    hide Safe;
    if v != w && Holds(PcOf(y, v)) { OneHolder(y, v, w); }
  }

  lemma StepFailures(a: Adapter, x: World, z: World, step: StepLabel, r: RunId)
    requires Safe(x.y) && ReportsKept(a, x) && FailuresKept(a, x)
    requires WorkerStep(a, x, z, step) && Told(a, x, z, step) && Later(x, z) && FailedByReport(z.y.ops, r)
    ensures Reported(a, z, r)
  {
    NextCommits(x.y, step);
    hide Reached, Next, Later, OpOf, Apply, Safe, FailedByReport, Reported, ReportsKept, Told;
    if FailedByReport(x.y.ops, r) {
      OldReport(a, x, z, step, r);
    } else {
      var op := OpOf(x.y, step).value;
      FailureWasThere(x.y.ops, op, r);
      CommitsOnward(x.y, op);
      NewReport(a, x, z, step, op);
    }
  }

  lemma StepFailed(a: Adapter, x: World, z: World, step: StepLabel, r: RunId)
    requires FailuresKept(a, x) && Steps(x, z, step) && Later(x, z)
    requires Governs(a, z.y, r) && Stands(Db(z.y), r, Failed)
    ensures FailedByReport(z.y.ops, r) || DeniedByProbe(z.y.ops, r) || ByHand(z.y.ops, r)
  {
    NextCommits(x.y, step);
    ReachedInv(x.y.ops);
    hide Reached, Next, OpOf, Apply, Inv, FailedByReport, DeniedByProbe, ByHand;
    if OpOf(x.y, step).Some? {
      var op := OpOf(x.y, step).value;
      CommitsOnward(x.y, op);
      if Stands(Db(x.y), r, Failed) {
        FailureCauseStays(x.y.ops, op, r);
      } else {
        WhatEnds(Db(x.y), op, r, Failed);
        NewFailure(x.y.ops, op, r);
      }
    }
  }

  lemma FailureCauseStays(ops: seq<Op>, op: Op, r: RunId)
    requires FailedByReport(ops, r) || DeniedByProbe(ops, r) || ByHand(ops, r)
    ensures FailedByReport(ops + [op], r) || DeniedByProbe(ops + [op], r) || ByHand(ops + [op], r)
  {
    hide FailedByReport, DeniedByProbe, ByHand;
    if FailedByReport(ops, r) {
      FailureStays(ops, op, r);
    } else if DeniedByProbe(ops, r) {
      DenialStays(ops, op, r);
    } else {
      HandStays(ops, op, r);
    }
  }

  lemma NewFailure(ops: seq<Op>, op: Op, r: RunId)
    requires Ends(Reached(ops), op, r, Failed)
    ensures FailedByReport(ops + [op], r) || DeniedByProbe(ops + [op], r) || ByHand(ops + [op], r)
  {
    hide Reached, Apply;
    var more, n := ops + [op], |ops|;
    assert more[..n] == ops;
    if op.OpFinish? {
      assert FailAt(more, n, r);
    } else if op.OpObserve? {
      assert DenialAt(more, n, r);
    } else {
      assert HandAt(more, n, r);
    }
  }

  lemma StepKept(a: Adapter, x: World, z: World, step: StepLabel)
    requires Safe(x.y) && Kept(a, x) && WorkerStep(a, x, z, step) && Told(a, x, z, step)
    ensures Kept(a, z)
  {
    hide Reached, Next, Safe, Traced, Told, Explained, Reported, FailedByReport, DeniedByProbe, ByHand, PastReports;
    TracedNext(x.y, step);
    StepsLater(x, z, step);
    hide Later;
    StepWire(a, x, z, step);
    StepCharges(a, x, z, step);
    hide WireKept, ChargesKept;
    forall v | PcOf(z.y, v).Finishing? && PcOf(z.y, v).outcome.Failure? && Governs(a, z.y, PcOf(z.y, v).run) {
      StepReports(a, x, z, step, v);
    }
    forall r | r in z.looked ensures PastReports(z.y, r) && !FailedByReport(z.y.ops, r) { StepLooks(x, z, step, r); }
    forall r | FailedByReport(z.y.ops, r) ensures Reported(a, z, r) { StepFailures(a, x, z, step, r); }
    forall r | Governs(a, z.y, r) && Stands(Db(z.y), r, Failed) { StepFailed(a, x, z, step, r); }
  }

  // ---- Steps on the wire ----

  /** Nothing but the wire and the adapter's bookkeeping changes. */
  ghost predicate WireStep(x: World, z: World) { z.y == x.y && Later(x, z) && z.heard == x.heard }

  lemma ReportedStays(a: Adapter, x: World, z: World, r: RunId)
    requires WireStep(x, z) && Reported(a, x, r)
    requires Governs(a, x.y, r) && r !in x.charged ==> r !in z.charged
    ensures Reported(a, z, r)
  {
    hide Reached, Later, Explained, HeldBy;
    if Governs(a, x.y, r) { ExplainedStays(a, x, z, r); }
  }

  /** A charge that sends adds its own run, which nobody has reported on. */
  lemma SendKept(a: Adapter, x: World, z: World, w: nat, post: Post)
    requires Safe(x.y) && Kept(a, x) && Charging(a, x, w) && w !in x.waiting && WireStep(x, z)
    requires PostOf(a, PcOf(x.y, w).run, Db(x.y).runs[PcOf(x.y, w).run].q) == Some(post)
    requires post.params.run == PcOf(x.y, w).run
    requires z.sent == x.sent + {post} && z.charged == x.charged + {PcOf(x.y, w).run} && z.looked == x.looked
    requires z.waiting == x.waiting + {w}
    ensures Kept(a, z)
  {
    hide Reached, Safe, Later, Explained, Reported, FailedByReport, DeniedByProbe, ByHand, PastReports, PostOf, Called;
    var r := PcOf(x.y, w).run;
    forall v | v in z.waiting && Charging(a, z, v) ensures InFlight(a, z, PcOf(z.y, v).run) {
      if v != w { FlightStays(a, x, z, PcOf(x.y, v).run); }
    }
    forall q | q in z.heard ensures InFlight(a, z, q) { FlightStays(a, x, z, q); }
    forall v | Charging(a, z, v) && v !in z.waiting ensures PcOf(z.y, v).run !in z.charged { OneHolder(x.y, v, w); }
    assert Called(z.y, r) by { assert Called(x.y, r); }
    forall v | PcOf(z.y, v).Finishing? && PcOf(z.y, v).outcome.Failure? && Governs(a, z.y, PcOf(z.y, v).run)
      ensures Explained(a, z, PcOf(z.y, v).run)
    {
      OneHolder(x.y, v, w);
      ExplainedStays(a, x, z, PcOf(x.y, v).run);
    }
    forall q | FailedByReport(z.y.ops, q) ensures Reported(a, z, q) {
      ReportedFree(a, x, q, w);
      ReportedStays(a, x, z, q);
    }
  }

  lemma ReportedFree(a: Adapter, x: World, r: RunId, w: nat)
    requires Reported(a, x, r) && Charging(a, x, w)
    ensures PcOf(x.y, w).run != r
  {
    hide Reached, Explained;
    if Governs(a, x.y, r) {
      assert !HeldBy(x.y, w, r);
      NotItsRun(x.y, w, r);
    }
  }

  /** A probe sends only for a run that is unknown, so on none that was reported failed. */
  lemma LookKept(a: Adapter, x: World, z: World, r: RunId, post: Post)
    requires Kept(a, x) && WireStep(x, z) && post.params.run == r && Stands(Db(x.y), r, Unknown)
    requires z.sent == x.sent + {post} && z.charged == x.charged && z.looked == x.looked + {r} && z.waiting == x.waiting
    ensures Kept(a, z)
  {
    hide Reached, Later, Explained, FailedByReport, DeniedByProbe, ByHand, Called;
    forall v | v in z.waiting && Charging(a, z, v) ensures InFlight(a, z, PcOf(z.y, v).run) {
      FlightStays(a, x, z, PcOf(x.y, v).run);
    }
    forall q | q in z.heard ensures InFlight(a, z, q) { FlightStays(a, x, z, q); }
    assert FailedByReport(x.y.ops, r) ==> Reported(a, x, r);
    WireReports(a, x, z);
  }

  lemma WireReports(a: Adapter, x: World, z: World)
    requires WireStep(x, z) && z.charged == x.charged && ReportsKept(a, x) && FailuresKept(a, x)
    ensures ReportsKept(a, z) && FailuresKept(a, z)
  {
    hide Reached, Later, Explained, Reported, FailedByReport, DeniedByProbe, ByHand, Governs;
    forall v | PcOf(z.y, v).Finishing? && PcOf(z.y, v).outcome.Failure? && Governs(a, z.y, PcOf(z.y, v).run)
      ensures Explained(a, z, PcOf(z.y, v).run)
    {
      ExplainedStays(a, x, z, PcOf(x.y, v).run);
    }
    forall q | FailedByReport(z.y.ops, q) ensures Reported(a, z, q) { ReportedStays(a, x, z, q); }
  }

  lemma DeliverKept(a: Adapter, x: World, z: World)
    requires Kept(a, x) && WireStep(x, z) && z.sent == x.sent && z.charged == x.charged && z.looked == x.looked
    requires z.waiting == x.waiting
    ensures Kept(a, z)
  {
    hide Reached, Later, FailedByReport, PastReports, Called, Reported, Explained;
    forall v | v in z.waiting && Charging(a, z, v) ensures InFlight(a, z, PcOf(z.y, v).run) {
      FlightStays(a, x, z, PcOf(x.y, v).run);
    }
    forall q | q in z.heard ensures InFlight(a, z, q) { FlightStays(a, x, z, q); }
    WireReports(a, x, z);
  }

  // ---- Every step keeps the account ----

  lemma WorkKept(a: Adapter, x: World, inner: StepLabel)
    requires Safe(x.y) && Kept(a, x)
    ensures Kept(a, Advance(a, x, Work(inner)))
  {
    hide Reached, Safe, Next, Traced, WireKept, ReportsKept, LooksKept, FailuresKept, Covered;
    if Permitted(a, x, inner) { StepKept(a, x, Advance(a, x, Work(inner)), inner); }
  }

  lemma LeavesKept(a: Adapter, x: World, z: World, w: nat, outcome: FnResult)
    requires Safe(x.y) && Kept(a, x) && Charging(a, x, w)
    requires z == Leaves(x.(heard := z.heard), w, outcome)
    requires z.heard == x.heard
             || (w in x.waiting && PcOf(x.y, w).run in z.heard
                 && z.heard == x.heard[PcOf(x.y, w).run := z.heard[PcOf(x.y, w).run]])
    requires outcome.Failure? ==> Explained(a, z, PcOf(x.y, w).run)
    ensures Kept(a, z)
  {
    hide Reached, Safe, Next, Kept, Explained;
    StepKept(a, x, z, StepLabel.Leave(w, outcome));
  }

  lemma HearChargeKept(a: Adapter, x: World, w: nat, heard: Heard, serializable: bool)
    requires Converts(a) && Safe(x.y) && Kept(a, x)
    ensures Kept(a, Advance(a, x, HearCharge(w, heard, serializable)))
  {
    hide Reached, Safe, Next, Kept, ChargeVerdict, Covered, ChargePost, PostOf;
    var z := Advance(a, x, HearCharge(w, heard, serializable));
    if Charging(a, x, w) && w in x.waiting {
      var r := PcOf(x.y, w).run;
      match heard
      case Exception(errorType) => LeavesKept(a, x, z, w, RaisedVerdict(a, errorType));
      case Response =>
        var post := ChargePost(a, x, w);
        if post.Some? && Answered(x, post.value) {
          var outcome := ChargeVerdict(x.provider[post.value.key].intent, post.value.params, serializable);
          ChargeAnswered(a, x, w, serializable);
          if outcome.Failure? { LeaveCovered(a, x, z, w, outcome, r); }
          LeavesKept(a, x, z, w, outcome);
        }
    }
  }

  lemma LeaveCovered(a: Adapter, x: World, z: World, w: nat, outcome: FnResult, r: RunId)
    requires Covered(a, x, r, NOT_COMMITTED) && z == Leaves(x.(heard := z.heard), w, outcome)
    ensures Covered(a, z, r, NOT_COMMITTED)
  {
    hide Reached, Next, Covered, NOT_COMMITTED;
    StepsLater(x, z, StepLabel.Leave(w, outcome));
    CoveredStays(a, x, z, r, NOT_COMMITTED);
  }

  lemma UnsentUncharged(a: Adapter, x: World, w: nat)
    requires Kept(a, x) && Charging(a, x, w) && w !in x.waiting
    ensures PcOf(x.y, w).run !in x.charged
  {
    hide Reached, Charging, Traced, WireKept, ReportsKept, LooksKept, FailuresKept;
  }

  lemma UnsentKept(a: Adapter, x: World, w: nat, outcome: FnResult)
    requires Safe(x.y) && Kept(a, x) && Charging(a, x, w) && w !in x.waiting
    ensures Kept(a, Leaves(x, w, outcome))
  {
    hide Reached, Safe, Next, Kept, Covered;
    UnsentUncharged(a, x, w);
    LeavesKept(a, x, Leaves(x, w, outcome), w, outcome);
  }

  lemma SendChargeKept(a: Adapter, x: World, w: nat, error: string)
    requires Converts(a) && Safe(x.y) && Kept(a, x)
    ensures Kept(a, Advance(a, x, SendCharge(w, error)))
  {
    hide Reached, Safe, Next, ChargePost, PostOf, UnsentVerdict, Kept, Leaves;
    if Charging(a, x, w) && w !in x.waiting {
      var z := Advance(a, x, SendCharge(w, error));
      if ChargePost(a, x, w).None? {
        UnsentKept(a, x, w, UnsentVerdict(a, x, w, error));
      } else {
        ChargeIsGenuine(a, x, w);
        PostNamesRun(a, PcOf(x.y, w).run, Db(x.y).runs[PcOf(x.y, w).run].q);
        SendKept(a, x, z, w, ChargePost(a, x, w).value);
      }
    }
  }

  lemma PostNamesRun(a: Adapter, r: RunId, q: Request)
    ensures PostOf(a, r, q).Some? ==> PostOf(a, r, q).value.params.run == r
  {
    ParamsNameRun(a, r, q.args);
  }

  lemma SendLookupKept(a: Adapter, x: World, r: RunId, p: Principal, now: Time)
    requires Kept(a, x)
    ensures Kept(a, Advance(a, x, SendLookup(r, p, now)))
  {
    hide Reached, Kept, PostOf;
    if LookupAllowed(a, x, r, p, now) {
      var q := Db(x.y).runs[r].q;
      PostNamesRun(a, r, q);
      LookKept(a, x, Advance(a, x, SendLookup(r, p, now)), r, PostOf(a, r, q).value);
    }
  }

  lemma HearLookupKept(a: Adapter, x: World, r: RunId, p: Principal, now: Time, clock: Clock)
    requires Safe(x.y) && Kept(a, x)
    ensures Kept(a, Advance(a, x, HearLookup(r, p, now, clock)))
  {
    hide Reached, Safe, Kept, PostOf, LookupVerdict, Next;
    if (r, p) in x.lookups && Governs(a, x.y, r) {
      var post := PostOf(a, r, Db(x.y).runs[r].q);
      if post.Some? && Answered(x, post.value) {
        var o := LookupVerdict(x.provider[post.value.key].intent, post.value.params);
        if o.Some? {
          var step := Client(OpObserve(r, o.value, p, now, clock));
          StepKept(a, x, x.(y := Next(x.y, step)), step);
        }
      }
    }
  }

  lemma AdvanceKept(a: Adapter, x: World, step: WorldStep)
    requires Converts(a) && Safe(x.y) && Kept(a, x)
    ensures Kept(a, Advance(a, x, step))
  {
    hide Reached, Safe, Kept, Advance;
    match step
    case Work(inner) => WorkKept(a, x, inner);
    case SendCharge(w, error) => SendChargeKept(a, x, w, error);
    case Deliver(post, intent) => DeliveryKept(a, x, post, intent);
    case HearCharge(w, heard, serializable) => HearChargeKept(a, x, w, heard, serializable);
    case SendLookup(r, p, now) => SendLookupKept(a, x, r, p, now);
    case HearLookup(r, p, now, clock) => HearLookupKept(a, x, r, p, now, clock);
  }

  lemma DeliveryKept(a: Adapter, x: World, post: Post, intent: Intent)
    requires Kept(a, x)
    ensures Kept(a, Advance(a, x, Deliver(post, intent)))
  {
    hide Reached, Kept;
    DeliverKept(a, x, Advance(a, x, Deliver(post, intent)));
  }

  lemma OutsetKept(a: Adapter)
    ensures Kept(a, Outset)
  {
    assert Db(Start) == Empty;
  }

  lemma {:induction false} CourseKept(a: Adapter, steps: seq<WorldStep>)
    requires Converts(a)
    ensures Kept(a, Course(a, steps))
  {
    hide Kept, Sound, Advance, Reached;
    if steps == [] {
      OutsetKept(a);
    } else {
      var init := steps[..|steps| - 1];
      CourseKept(a, init);
      CourseSound(a, init);
      SoundIsSafe(a, Course(a, init));
      AdvanceKept(a, Course(a, init), steps[|steps| - 1]);
    }
  }

  lemma SoundIsSafe(a: Adapter, x: World)
    requires Sound(a, x)
    ensures Safe(x.y)
  {
  }

  lemma ArrivedKept(a: Adapter, x: World)
    requires Converts(a) && Arrived(a, x)
    ensures Kept(a, x)
  {
    hide Course, Kept;
    var steps: seq<WorldStep> :| Course(a, steps) == x;
    CourseKept(a, steps);
  }

  // ---- Then and ever after ----

  function Onwards(a: Adapter, x: World, steps: seq<WorldStep>): World {
    if steps == [] then x else Advance(a, Onwards(a, x, steps[..|steps| - 1]), steps[|steps| - 1])
  }

  /** The provider holds a payment made for the run that succeeded, whatever else its answer says. */
  predicate PaidIn(x: World, r: RunId) {
    exists key :: key in x.provider && x.provider[key].params.run == r && x.provider[key].intent.status in COMMITTED
  }

  /** No succeeded payment of the run now, nor after any further events. */
  ghost predicate NeverPaid(a: Adapter, x: World, r: RunId) {
    forall steps: seq<WorldStep> :: !PaidIn(Onwards(a, x, steps), r)
  }

  /** The slot the run's POST would fill is taken, and not by a succeeded payment of the run: so the POST, whenever it
      may still arrive, makes none. */
  predicate Closed(a: Adapter, x: World, r: RunId)
    requires Governs(a, x.y, r)
  {
    var post := PostOf(a, r, Db(x.y).runs[r].q);
    post.Some? ==>
      post.value.key in x.provider
      && !(x.provider[post.value.key].params.run == r && x.provider[post.value.key].intent.status in COMMITTED)
  }

  lemma {:induction false} OnwardsArrives(a: Adapter, x: World, steps: seq<WorldStep>)
    requires Arrived(a, x)
    ensures Arrived(a, Onwards(a, x, steps))
  {
    hide Advance, Arrived;
    if steps != [] {
      OnwardsArrives(a, x, steps[..|steps| - 1]);
      ArrivedNext(a, Onwards(a, x, steps[..|steps| - 1]), steps[|steps| - 1]);
    }
  }

  /** What one event leaves as it was: requests, payments, causes of failure, and what a failed run's charge left on. */
  ghost predicate Follows(a: Adapter, x: World, z: World, r: RunId) {
    && Later(x, z)
    && (FailedByReport(x.y.ops, r) ==> FailedByReport(z.y.ops, r))
    && (DeniedByProbe(x.y.ops, r) ==> DeniedByProbe(z.y.ops, r))
    && (FailedByReport(x.y.ops, r) && Governs(a, x.y, r) ==> (Refused(a, z, r) <==> Refused(a, x, r)))
  }

  /** Whatever happens, the workers and the ledger take at most one step, and nothing on the wire or paid is undone. */
  lemma AdvanceInner(a: Adapter, x: World, step: WorldStep)
    ensures
      var z := Advance(a, x, step);
      && (z.y == x.y || exists inner :: z.y == Next(x.y, inner))
      && x.sent <= z.sent
      && (forall key :: key in x.provider ==> key in z.provider && z.provider[key] == x.provider[key])
  {
    hide Reached, Next, LookupVerdict, ChargeVerdict, PostOf, ChargePost, UnsentVerdict;
  }

  lemma AdvanceLater(a: Adapter, x: World, step: WorldStep)
    ensures Later(x, Advance(a, x, step))
    ensures Advance(a, x, step).y.ops == x.y.ops || exists op :: Advance(a, x, step).y.ops == x.y.ops + [op]
  {
    AdvanceInner(a, x, step);
    hide Reached, Next, Advance;
    var z := Advance(a, x, step);
    if z.y != x.y {
      var inner :| z.y == Next(x.y, inner);
      NextIsOnward(x.y, inner);
      NextCommits(x.y, inner);
    }
  }

  lemma AdvanceHeard(a: Adapter, x: World, step: WorldStep, r: RunId)
    requires forall v :: !HeldBy(x.y, v, r)
    ensures Refused(a, Advance(a, x, step), r) <==> Refused(a, x, r)
  {
    hide Reached, Next, LookupVerdict, ChargeVerdict, PostOf, ChargePost, UnsentVerdict;
    if step.HearCharge? && Charging(a, x, step.w) {
      assert !HeldBy(x.y, step.w, r);
    }
  }

  lemma AdvanceFollows(a: Adapter, x: World, step: WorldStep, r: RunId)
    requires Kept(a, x)
    ensures Follows(a, x, Advance(a, x, step), r)
  {
    hide Advance, Reached, Later, Explained, FailedByReport, DeniedByProbe, Refused, HeldBy, Traced, WireKept;
    hide ChargesKept;
    AdvanceLater(a, x, step);
    var z := Advance(a, x, step);
    if z.y.ops != x.y.ops {
      var op :| z.y.ops == x.y.ops + [op];
      if FailedByReport(x.y.ops, r) { FailureStays(x.y.ops, op, r); }
      if DeniedByProbe(x.y.ops, r) { DenialStays(x.y.ops, op, r); }
    }
    if FailedByReport(x.y.ops, r) && Governs(a, x.y, r) {
      assert Reported(a, x, r);
      AdvanceHeard(a, x, step, r);
    }
  }

  lemma LaterTransitive(x: World, y: World, z: World)
    requires Later(x, y) && Later(y, z)
    ensures Later(x, z)
  {
    hide Reached;
  }

  lemma LaterGoverns(a: Adapter, x: World, z: World, r: RunId)
    requires Later(x, z) && Governs(a, x.y, r)
    ensures Governs(a, z.y, r) && Db(z.y).runs[r].q == Db(x.y).runs[r].q
  {
    hide Reached;
  }

  lemma {:induction false} OnwardsFollows(a: Adapter, x: World, steps: seq<WorldStep>, r: RunId)
    requires Converts(a) && Arrived(a, x)
    ensures Follows(a, x, Onwards(a, x, steps), r)
  {
    hide Advance, Arrived, Kept, Reached, FailedByReport, DeniedByProbe, Refused, Later, Converts;
    if steps == [] {
      LaterReflexive(x);
    } else {
      var init := steps[..|steps| - 1];
      var mid := Onwards(a, x, init);
      OnwardsFollows(a, x, init, r);
      OnwardsArrives(a, x, init);
      ArrivedKept(a, mid);
      AdvanceFollows(a, mid, steps[|steps| - 1], r);
      LaterTransitive(x, mid, Onwards(a, x, steps));
      if Governs(a, x.y, r) { LaterGoverns(a, x, mid, r); }
    }
  }

  lemma LaterReflexive(x: World)
    ensures Later(x, x)
  {
    hide Reached;
  }

  // ---- The exact condition ----

  /** A run with nothing on the wire has no payment. */
  lemma UnsentUnpaid(a: Adapter, x: World, r: RunId)
    requires Converts(a) && Arrived(a, x) && r !in x.charged && r !in x.looked
    ensures !PaidIn(x, r)
  {
    ArrivedKept(a, x);
    ArrivedSound(a, x);
    hide Arrived, Traced, ChargesKept, ReportsKept, LooksKept, FailuresKept, InFlight, Charging, Genuine, COMMITTED;
    hide Safe, ValuesSound, CompletedSound, DeniedSound;
  }

  /** A run covered by a refused payment has no succeeded one. */
  lemma CoveredUnpaid(a: Adapter, x: World, r: RunId)
    requires Converts(a) && Arrived(a, x) && Covered(a, x, r, NOT_COMMITTED)
    ensures !PaidIn(x, r) && Closed(a, x, r)
  {
    OnePaymentPerRun(a, x);
    PostNamesRun(a, r, Db(x.y).runs[r].q);
    hide Arrived, Reached, PostOf, ValidIntent;
    forall key | key in x.provider && x.provider[key].params.run == r
      ensures x.provider[key].intent.status !in COMMITTED
    {
      assert Genuine(a, x.y, Post(key, x.provider[key].params));
    }
  }

  /** Any payment of a run sits in the slot of its POST. */
  lemma PaymentSlot(a: Adapter, x: World, r: RunId)
    requires Converts(a) && Arrived(a, x) && Governs(a, x.y, r) && PaidIn(x, r)
    ensures
      var post := PostOf(a, r, Db(x.y).runs[r].q);
      post.Some? && post.value.key in x.provider && x.provider[post.value.key].params.run == r
      && x.provider[post.value.key].intent.status in COMMITTED
  {
    OnePaymentPerRun(a, x);
    hide Arrived, Reached, PostOf, COMMITTED;
    var key :| key in x.provider && x.provider[key].params.run == r && x.provider[key].intent.status in COMMITTED;
    assert Genuine(a, x.y, Post(key, x.provider[key].params));
  }

  /** A closed slot stays closed. */
  lemma ClosedNeverPaid(a: Adapter, x: World, r: RunId)
    requires Converts(a) && Arrived(a, x) && Governs(a, x.y, r) && Closed(a, x, r)
    ensures NeverPaid(a, x, r)
  {
    hide Arrived, Reached, PostOf, Onwards, PaidIn, COMMITTED, FailedByReport, DeniedByProbe, Refused;
    forall steps: seq<WorldStep> ensures !PaidIn(Onwards(a, x, steps), r) {
      var z := Onwards(a, x, steps);
      OnwardsFollows(a, x, steps, r);
      OnwardsArrives(a, x, steps);
      LaterGoverns(a, x, z, r);
      if PaidIn(z, r) { PaymentSlot(a, z, r); }
    }
  }

  /** A reported failure that no refusing exception explains is never paid. */
  lemma ReportedNeverPaid(a: Adapter, x: World, r: RunId)
    requires Converts(a) && Arrived(a, x) && Governs(a, x.y, r)
    requires FailedByReport(x.y.ops, r) && !Refused(a, x, r)
    ensures NeverPaid(a, x, r)
  {
    hide Arrived, Reached, Onwards, PaidIn, Covered, FailedByReport, DeniedByProbe, Refused, Later, NOT_COMMITTED;
    forall steps: seq<WorldStep> ensures !PaidIn(Onwards(a, x, steps), r) {
      var z := Onwards(a, x, steps);
      OnwardsFollows(a, x, steps, r);
      OnwardsArrives(a, x, steps);
      LaterGoverns(a, x, z, r);
      ArrivedKept(a, z);
      ReportedSaysWhy(a, z, r);
      if r !in z.charged { UnsentUnpaid(a, z, r); } else { CoveredUnpaid(a, z, r); }
    }
  }

  lemma ReportedSaysWhy(a: Adapter, z: World, r: RunId)
    requires Kept(a, z) && FailedByReport(z.y.ops, r) && Governs(a, z.y, r)
    ensures Explained(a, z, r) && r !in z.looked
  {
    hide Reached, FailedByReport, Explained, Traced, WireKept, ChargesKept, ReportsKept, HeldBy;
    assert Reported(a, z, r);
  }

  /** An open slot with the POST on the wire can still be filled by a succeeded payment. */
  lemma OpenCanBePaid(a: Adapter, x: World, r: RunId)
    requires InFlight(a, x, r) && !Closed(a, x, r)
    ensures !NeverPaid(a, x, r)
  {
    hide Reached, PostOf;
    PostNamesRun(a, r, Db(x.y).runs[r].q);
    var post := PostOf(a, r, Db(x.y).runs[r].q).value;
    if post.key in x.provider {
      assert Onwards(a, x, []) == x;
      assert PaidIn(x, r);
    } else {
      var deliver := Deliver(post, Intent("pi_", "succeeded", 0, "", false, map[]));
      assert [deliver][..0] == [];
      var z := Advance(a, x, deliver);
      assert Onwards(a, x, [deliver]) == z;
      assert z.provider[post.key].params.run == r && z.provider[post.key].intent.status in COMMITTED;
      assert PaidIn(z, r);
    }
  }

  lemma RefusedInFlight(a: Adapter, x: World, r: RunId)
    requires Kept(a, x) && Refused(a, x, r)
    ensures InFlight(a, x, r)
  {
    hide Reached, InFlight, Traced, ChargesKept, ReportsKept, LooksKept, FailuresKept;
  }

  lemma FailureCause(a: Adapter, x: World, r: RunId)
    requires Kept(a, x) && Governs(a, x.y, r) && Db(x.y).runs[r].status == Failed
    ensures FailedByReport(x.y.ops, r) || DeniedByProbe(x.y.ops, r) || ByHand(x.y.ops, r)
  {
    hide Reached, Traced, WireKept, ChargesKept, ReportsKept, LooksKept, FailedByReport, DeniedByProbe, ByHand;
  }

  /** In every reachable world, a payment run that failed other than by an operator's word has no succeeded payment,
      then or ever after, if and only if its charge did not leave on an unlisted exception after sending its POST, or
      else the slot of that POST is taken by something other than the run's succeeded payment. */
  lemma FailedIsUnpaid(a: Adapter, x: World, r: RunId)
    requires Converts(a) && Arrived(a, x)
    requires Governs(a, x.y, r) && Db(x.y).runs[r].status == Failed && !ByHand(x.y.ops, r)
    ensures NeverPaid(a, x, r) <==> !Refused(a, x, r) || Closed(a, x, r)
  {
    ArrivedKept(a, x);
    FailureCause(a, x, r);
    hide Arrived, Reached, Kept, NeverPaid, Refused, Closed, ByHand, FailedByReport, InFlight;
    if DeniedByProbe(x.y.ops, r) {
      DeniedCovered(a, x, r);
      CoveredUnpaid(a, x, r);
      ClosedNeverPaid(a, x, r);
    } else if !Refused(a, x, r) {
      ReportedNeverPaid(a, x, r);
    } else if Closed(a, x, r) {
      ClosedNeverPaid(a, x, r);
    } else {
      RefusedInFlight(a, x, r);
      OpenCanBePaid(a, x, r);
    }
  }

  lemma DeniedCovered(a: Adapter, x: World, r: RunId)
    requires Converts(a) && Arrived(a, x) && Governs(a, x.y, r) && DeniedByProbe(x.y.ops, r)
    ensures Covered(a, x, r, NOT_COMMITTED)
  {
    ArrivedSound(a, x);
    hide Reached, Arrived, Safe, ValuesSound, CompletedSound, PostsSound, Covered, DeniedByProbe;
  }
}
