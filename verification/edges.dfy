/** Where the code promises less than a reader may expect, and exactly how much it does promise there. */
module Edges {
  import opened Text
  import opened Models
  import opened Trails
  import opened TrailFacts
  import opened LedgerSpec
  import opened LedgerProofs
  import opened LedgerSteps
  import opened LedgerSweeps
  import opened Histories
  import opened Runtime
  import opened Stripe
  import opened StripeFailures

  // ---- More than one policy decision ----

  lemma StaysPastCreated(v: View, body: Body)
    requires v.phase != Settled(Created) && StepView(v, body).Live?
    ensures StepView(v, body).view.phase != Settled(Created)
  {
  }

  lemma CheckMoves(v: View, body: Body)
    requires body.PolicyChecked? && StepView(v, body).Live?
    ensures v.phase == Settled(Created)
    ensures StepView(v, body).view.phase == Settled(Created) <==> body.outcome.Allow?
  {
  }

  lemma {:induction false} PastCreated(rows: seq<Event>, n: nat)
    requires Replay(rows).Live? && n <= |rows|
    requires Replay(rows[..n]).Live? && Replay(rows[..n]).view.phase != Settled(Created)
    ensures Replay(rows).view.phase != Settled(Created)
  {
    hide StepView;
    if n == |rows| {
      assert rows[..n] == rows;
    } else {
      var m := |rows| - 1;
      assert rows[..m][..n] == rows[..n];
      ReplayPrefix(rows, m);
      hide Replay;
      NextReplay(rows, m);
      assert rows[..m + 1] == rows;
      LiveBefore(rows, n, m);
      PastCreated(rows[..m], n);
      StaysPastCreated(Replay(rows[..m]).view, rows[m].body);
    }
  }

  lemma LiveBefore(rows: seq<Event>, n: nat, m: nat)
    requires Replay(rows).Live? && n <= m <= |rows| && Replay(rows[..n]).Live?
    ensures Replay(rows[..m]).Live?
  {
    hide StepView;
    if n < m { ReplayPrefix(rows, m); }
  }

  /** A run may be checked against policy again and again; but every check before the last answered allow. */
  lemma EarlierChecksAllowed(ops: seq<Op>, r: RunId, i: nat, j: nat)
    requires r in Reached(ops).runs && i < j < |Trail(Reached(ops).events, r)|
    requires Trail(Reached(ops).events, r)[i].body.PolicyChecked?
    requires Trail(Reached(ops).events, r)[j].body.PolicyChecked?
    ensures Trail(Reached(ops).events, r)[i].body.outcome == Allow
  {
    hide Reached, Trail, Replay, StepView, Sealed;
    ReplayRefinement(ops, r);
    var rows := Trail(Reached(ops).events, r);
    CheckAt(rows, i);
    CheckAt(rows, j);
    if rows[i].body.outcome != Allow {
      ReplayPrefix(rows, j);
      assert rows[..j][..i + 1] == rows[..i + 1];
      PastCreated(rows[..j], i + 1);
    }
  }

  lemma CheckAt(rows: seq<Event>, i: nat)
    requires Replay(rows).Live? && i < |rows| && rows[i].body.PolicyChecked?
    ensures Replay(rows[..i]).Live? && Replay(rows[..i]).view.phase == Settled(Created)
    ensures Replay(rows[..i + 1]).Live?
    ensures Replay(rows[..i + 1]).view.phase == Settled(Created) <==> rows[i].body.outcome.Allow?
  {
    hide StepView, Replay;
    NextReplay(rows, i);
    CheckMoves(Replay(rows[..i]).view, rows[i].body);
  }

  /** The ledger accepts another decision on a run exactly while it stands created: so after an allow, and no other. */
  lemma DecidedAgain(s: State, r: RunId, d: Decision, e: Decision, ttl: int, n1: Time, n2: Time, c1: Clock, c2: Clock)
    requires r in s.runs && s.runs[r].status == Created && 1 <= ttl <= 604800
    ensures
      var (t, first) := RecordPolicy(s, r, d, ttl, n1, c1);
      && first == Done
      && RecordPolicy(t, r, e, ttl, n2, c2).1 == (if d.outcome == Allow then Done else Raised(InvalidTransition))
  {
    hide Commit, PolicyBodies;
    forall row, approval, bodies, clock
      ensures r in Commit(s, r, row, approval, bodies, clock).runs
      ensures SameButAnchor(Commit(s, r, row, approval, bodies, clock).runs[r], row)
    {
      CommitRow(s, r, row, approval, bodies, clock);
    }
  }

  // ---- Finishing late ----

  /** A lapsed lease alone does not stop the owner from finishing; a recovery in between does, and then the late report
      is refused and changes nothing. */
  lemma LateFinish(s: State, r: RunId, how: Finish, scan: seq<RunId>, now: Time, clock: Clock, later: Time, c: Clock)
    requires Inv(s) && LeaseOverdue(s, r, None, now) && forall x :: x in s.runs ==> x in scan
    ensures s.runs[r].owner.Some?
    ensures
      var owner := s.runs[r].owner.value;
      var t := RecoverExpired(s, scan, None, now, clock).0;
      && FinishExecution(s, r, owner, how, later, c).1 == Done
      && FinishExecution(t, r, owner, how, later, c) == (t, Raised(InvalidTransition))
  {
    hide Inv, Evolves, Trail, RecoverExpired, Commit;
    RunSettles(s, r);
    RecoverExact(s, scan, None, now, clock);
  }

  // ---- A failed run may have been paid ----

  /** An exception the adapter does not list as ambiguous, heard after the payment went through, makes the run fail
      although it is paid; `StripeFailures.FailedIsUnpaid` says exactly which failed runs are not. */
  lemma RefusalHidesPayment(a: Adapter, x: World, w: nat, error: string, now: Time, clock: Clock)
    requires Charging(a, x, w) && w in x.waiting && error !in a.ambiguous
    requires Owns(Db(x.y), PcOf(x.y, w).run, PcOf(x.y, w).owner) && Covered(a, x, PcOf(x.y, w).run, COMMITTED)
    ensures
      var r := PcOf(x.y, w).run;
      var heard := Advance(a, x, HearCharge(w, Exception(error), true));
      var z := Advance(a, heard, Work(StepLabel.Finish(w, now, clock)));
      && r in Db(z.y).runs && Db(z.y).runs[r].status == Failed
      && Covered(a, z, r, COMMITTED)
  {
    hide Reached, Covered, Advance, Next, COMMITTED, Owns;
    var pc := PcOf(x.y, w);
    var heard := Advance(a, x, HearCharge(w, Exception(error), true));
    var z := Advance(a, heard, Work(StepLabel.Finish(w, now, clock)));
    RefusedHeard(a, x, w, error);
    FinishFails(heard.y, w, pc.run, pc.owner, now, clock);
    FinishKeepsWire(a, heard, w, now, clock);
    StepsLater(heard, z, StepLabel.Finish(w, now, clock));
    assert Later(x, z);
    CoveredStays(a, x, z, pc.run, COMMITTED);
  }

  lemma RefusedHeard(a: Adapter, x: World, w: nat, error: string)
    requires Charging(a, x, w) && w in x.waiting && error !in a.ambiguous
    ensures
      var heard := Advance(a, x, HearCharge(w, Exception(error), true));
      && heard.y == Next(x.y, StepLabel.Leave(w, Failure("StripeSandboxPaymentFailed")))
      && Db(heard.y) == Db(x.y) && heard.sent == x.sent && heard.provider == x.provider
      && PcOf(heard.y, w) == Finishing(PcOf(x.y, w).run, PcOf(x.y, w).owner, Failure("StripeSandboxPaymentFailed"))
  {
    hide Reached;
  }

  lemma FinishFails(y: Sys, w: nat, r: RunId, owner: string, now: Time, clock: Clock)
    requires PcOf(y, w) == Finishing(r, owner, Failure("StripeSandboxPaymentFailed")) && Owns(Db(y), r, owner)
    ensures var z := Next(y, StepLabel.Finish(w, now, clock)); r in Db(z).runs && Db(z).runs[r].status == Failed
  {
    hide Reached, Commit;
    var op := OpFinish(r, owner, Fail("StripeSandboxPaymentFailed"), now, clock);
    CommitsOnward(y, op);
    var s := Db(y);
    CommitRow(s, r, FinishRow(s.runs[r], op.how, now), None, FinishBodies(op.how), clock);
  }

  lemma FinishKeepsWire(a: Adapter, x: World, w: nat, now: Time, clock: Clock)
    ensures
      var z := Advance(a, x, Work(StepLabel.Finish(w, now, clock)));
      z.y == Next(x.y, StepLabel.Finish(w, now, clock)) && z.sent == x.sent && z.provider == x.provider
  {
    hide Reached, Next;
  }

  // ---- A course that gets there ----

  const ARGS: map<string, Json> :=
    map["invoice_id" := JStr("inv"), "amount" := JNum(100), "currency" := JStr("usd")]

  function Asked(a: Adapter): Request {
    GovernedRequest(Context("alice", "acme", [], [], map[]), a.action, "high", "key", ARGS)
  }

  const ALLOWED := Decision(Allow, "ok", "v1", map[], None)

  /** The world after some events, with worker 0 at `pc` and run `r` under way. */
  predicate Under(a: Adapter, x: World, pc: Pc, status: Status) {
    && PcOf(x.y, 0) == pc && "r" in Db(x.y).runs
    && Db(x.y).runs["r"].q == Asked(a) && Db(x.y).runs["r"].status == status
    && x.waiting == {} && x.sent == {} && x.provider == map[]
  }

  function Zero(k: nat): Time { 0 }

  lemma KeyStrips()
    ensures !IsBlank("key") && Strip("key") == "key"
  {
    assert StripLeft("key") == "key" && StripRight("key") == "key";
  }

  lemma FirstCreate(q: Request)
    ensures
      var (t, reply) := Apply(Empty, OpCreate("r", q, 0));
      reply == Fetched("r", true) && "r" in t.runs && t.runs["r"].q == q && t.runs["r"].status == Created
  {
    hide Trail, NextEvent;
  }

  lemma Invoked(a: Adapter)
    ensures
      var step := StepLabel.Invoke(0, "r", Context("alice", "acme", [], [], map[]), a.action, "high", "key", ARGS, 0);
      Under(a, Advance(a, Outset, Work(step)), Deciding("r", ARGS), Created)
  {
    KeyStrips();
    hide IsBlank, Strip, RequestFingerprint, ARGS, Apply;
    assert Db(Start) == Empty;
    hide Reached;
    FirstCreate(Asked(a));
    CommitDb(Start, OpCreate("r", Asked(a), 0));
  }

  lemma CommitDb(y: Sys, op: Op)
    ensures Reached(y.ops + [op]) == Apply(Db(y), op).0
  {
    hide Apply;
    assert (y.ops + [op])[..|y.ops|] == y.ops;
  }

  lemma Allowed(a: Adapter, x: World)
    requires Under(a, x, Deciding("r", ARGS), Created)
    ensures
      var z := Advance(a, x, Work(DecidePolicy(0, ALLOWED, 60, 0, Zero)));
      Under(a, z, Claiming("r", ARGS), Created) && Db(z.y).runs["r"].version.Some?
  {
    hide Reached, Commit, ARGS, Asked;
    var op := OpPolicy("r", ALLOWED, 60, 0, Zero);
    CommitDb(x.y, op);
    var run := Db(x.y).runs["r"];
    CommitRow(Db(x.y), "r",
      run.(status := Created, version := Some("v1"), digest := Some(OfVersion("v1")), reason := Some("ok"),
           updatedAt := 0),
      None, PolicyBodies(run.q, ALLOWED, 0 + 60 * SECOND), Zero);
  }

  lemma Won(a: Adapter, x: World)
    requires Under(a, x, Claiming("r", ARGS), Created) && Db(x.y).runs["r"].version.Some?
    ensures
      var z := Advance(a, x, Work(Claim(0, "w", 60, 0, Zero)));
      Under(a, z, Claimed("r", "w", ARGS, |x.y.ops|), Executing) && Db(z.y).runs["r"].owner == Some("w")
  {
    hide Reached, Commit, ARGS, Asked;
    assert StripLeft("w") == "w" && StripRight("w") == "w";
    assert !IsBlank("w");
    hide IsBlank;
    var op := OpClaim("r", "w", 60, 0, Zero);
    CommitDb(x.y, op);
    var run := Db(x.y).runs["r"];
    var row := run.(status := Executing, owner := Some("w"), lease := Some(60 * SECOND), attempt := run.attempt + 1,
                    updatedAt := 0);
    CommitRow(Db(x.y), "r", row, None, ClaimBodies(run, "w", 60 * SECOND), Zero);
  }

  lemma Entered(a: Adapter, x: World, claim: nat)
    requires Under(a, x, Claimed("r", "w", ARGS, claim), Executing)
    ensures
      var z := Advance(a, x, Work(Enter(0)));
      Under(a, z, Inside("r", "w", ARGS), Executing) && Db(z.y) == Db(x.y) && "r" in Db(x.y).runs
  {
    hide Reached, ARGS, Asked;
  }

  /** The three-letter code survives the language's own text tables. */
  predicate Dollars(a: Adapter) { a.lower("usd") == "usd" && a.isAlpha("usd") }

  const POST := Post("key", Params(100, "usd", "r", "inv"))

  const PAID := Intent("pi_1", "succeeded", 100, "usd", false, map[RUN_FIELD := "r", INVOICE_FIELD := "inv"])

  lemma PostIs(a: Adapter)
    requires Converts(a) && Dollars(a)
    ensures PostFor("key", ChargeParams(a, "r", ARGS)) == Some(POST)
    ensures PostFor("key", LookupParams(a, "r", ARGS)) == Some(POST)
  {
    KeyStrips();
    assert StripLeft("usd") == "usd" && StripRight("usd") == "usd";
    assert StripLeft("inv") == "inv" && StripRight("inv") == "inv";
    hide Strip;
    ProbeRepeatsCharge(a, "r", ARGS);
  }

  lemma AskedIs(a: Adapter)
    ensures Asked(a).key == "key" && Asked(a).args == ARGS && Asked(a).action == a.action
  {
    KeyStrips();
    hide Strip, RequestFingerprint;
  }

  lemma PaidIsValid()
    ensures ValidIntent(PAID, POST.params) && PAID.status in COMMITTED
  {
  }

  lemma SendIs(a: Adapter, x: World, w: nat)
    requires Charging(a, x, w) && w !in x.waiting && ChargePost(a, x, w).Some?
    ensures Advance(a, x, SendCharge(w, ""))
      == x.(sent := x.sent + {ChargePost(a, x, w).value}, waiting := x.waiting + {w},
            charged := x.charged + {PcOf(x.y, w).run})
  {
    hide Reached, Charging, ChargePost;
  }

  lemma DeliverIs(a: Adapter, x: World, post: Post, intent: Intent)
    requires post in x.sent && post.key !in x.provider
    ensures Advance(a, x, Deliver(post, intent)) == x.(provider := x.provider[post.key := Payment(post.params, intent)])
  {
    hide Reached;
  }

  /** A worker inside the charge sends its POST. */
  lemma Sends(a: Adapter, x: World)
    requires Converts(a) && Dollars(a) && Under(a, x, Inside("r", "w", ARGS), Executing)
    ensures Advance(a, x, SendCharge(0, "")) == x.(sent := {POST}, waiting := {0}, charged := x.charged + {"r"})
    ensures Charging(a, x, 0)
  {
    PostIs(a);
    AskedIs(a);
    hide Reached, ARGS, Asked, ChargeParams, LookupParams, Converts, PostFor, Dollars, Advance;
    assert ChargePost(a, x, 0) == Some(POST);
    hide ChargePost;
    SendIs(a, x, 0);
  }

  /** The provider takes it and the payment succeeds. */
  lemma Paying(a: Adapter, x: World)
    requires Converts(a) && Dollars(a) && Under(a, x, Inside("r", "w", ARGS), Executing)
    ensures
      var z := Advance(a, x.(sent := {POST}, waiting := {0}, charged := x.charged + {"r"}), Deliver(POST, PAID));
      z.y == x.y && z.waiting == {0} && Covered(a, z, "r", COMMITTED)
  {
    PostIs(a);
    AskedIs(a);
    PaidIsValid();
    hide Reached, ARGS, Asked, ChargeParams, LookupParams, ValidIntent, PAID, COMMITTED, Converts, PostFor, ChargePost;
    hide Dollars, Advance;
    DeliverIs(a, x.(sent := {POST}, waiting := {0}, charged := x.charged + {"r"}), POST, PAID);
  }

  lemma InCharge(a: Adapter, x: World)
    requires Under(a, x, Inside("r", "w", ARGS), Executing) && Db(x.y).runs["r"].owner == Some("w")
    ensures Owns(Db(x.y), "r", "w") && PcOf(x.y, 0) == Inside("r", "w", ARGS)
  {
    hide Reached, ARGS, Asked;
  }

  /** No operator has reconciled anything. */
  predicate HandsOff(y: Sys) { forall i :: 0 <= i < |y.ops| ==> !y.ops[i].OpReconcile? }

  predicate ByOperator(step: StepLabel) { step.Client? && step.op.OpReconcile? }

  lemma StepHandsOff(y: Sys, step: StepLabel)
    requires HandsOff(y) && !ByOperator(step)
    ensures HandsOff(Next(y, step))
  {
    NextCommits(y, step);
    hide Next, Reached, RequestFingerprint;
  }

  lemma InnerStep(a: Adapter, x: World, step: WorldStep)
    requires step.Work? ==> !ByOperator(step.step)
    ensures
      var z := Advance(a, x, step);
      z.y == x.y || exists inner :: z.y == Next(x.y, inner) && !ByOperator(inner)
  {
    hide Reached, Next, LookupVerdict, ChargeVerdict, PostOf, ChargePost, UnsentVerdict;
  }

  /** One more event, none of them an operator's. */
  lemma Proceed(a: Adapter, x: World, step: WorldStep)
    requires Arrived(a, x) && HandsOff(x.y) && (step.Work? ==> !ByOperator(step.step))
    ensures Arrived(a, Advance(a, x, step)) && HandsOff(Advance(a, x, step).y)
  {
    hide Advance, Arrived, Next, HandsOff, ByOperator;
    ArrivedNext(a, x, step);
    InnerStep(a, x, step);
    var z := Advance(a, x, step);
    if z.y != x.y {
      var inner :| z.y == Next(x.y, inner) && !ByOperator(inner);
      StepHandsOff(x.y, inner);
    }
  }

  lemma ArrivedOutset(a: Adapter)
    ensures Arrived(a, Outset) && HandsOff(Outset.y)
  {
    assert Course(a, []) == Outset;
  }

  /** A reachable world in which worker 0 has charged, was paid for, and has not heard back. */
  lemma Charged(a: Adapter) returns (x: World)
    requires Converts(a) && Dollars(a)
    ensures Arrived(a, x) && Charging(a, x, 0) && 0 in x.waiting && Covered(a, x, "r", COMMITTED)
    ensures Owns(Db(x.y), "r", "w") && PcOf(x.y, 0) == Inside("r", "w", ARGS) && HandsOff(x.y)
  {
    hide Reached, Advance, ARGS, Asked, Covered, Dollars, Converts, Arrived, Under, HandsOff;
    ArrivedOutset(a);
    Invoked(a);
    var invoke := StepLabel.Invoke(0, "r", Context("alice", "acme", [], [], map[]), a.action, "high", "key", ARGS, 0);
    x := Advance(a, Outset, Work(invoke));
    Proceed(a, Outset, Work(invoke));
    Allowed(a, x);
    Proceed(a, x, Work(DecidePolicy(0, ALLOWED, 60, 0, Zero)));
    x := Advance(a, x, Work(DecidePolicy(0, ALLOWED, 60, 0, Zero)));
    Won(a, x);
    var claim := |x.y.ops|;
    Proceed(a, x, Work(Claim(0, "w", 60, 0, Zero)));
    x := Advance(a, x, Work(Claim(0, "w", 60, 0, Zero)));
    Entered(a, x, claim);
    Proceed(a, x, Work(Enter(0)));
    x := Advance(a, x, Work(Enter(0)));
    Sends(a, x);
    Paying(a, x);
    InCharge(a, x);
    Proceed(a, x, SendCharge(0, ""));
    x := Advance(a, x, SendCharge(0, ""));
    Proceed(a, x, Deliver(POST, PAID));
    x := Advance(a, x, Deliver(POST, PAID));
  }

  lemma HandsOffMeansNone(y: Sys, r: RunId)
    requires HandsOff(y)
    ensures !ByHand(y.ops, r)
  {
    hide Apply, Reached;
  }

  lemma CoveredIsPaid(a: Adapter, x: World, r: RunId)
    requires Covered(a, x, r, COMMITTED)
    ensures !NeverPaid(a, x, r)
  {
    hide Reached, PostOf, ValidIntent;
    PostNamesRun(a, r, Db(x.y).runs[r].q);
    assert Onwards(a, x, []) == x;
    assert PaidIn(x, r);
  }

  /** A definite exception then leaves a run that failed by nobody's word but its charge's, and whose payment succeeded:
      such a world is reachable. */
  lemma FailedButPaid(a: Adapter) returns (x: World)
    requires Converts(a) && Dollars(a) && "CardError" !in a.ambiguous
    ensures Arrived(a, x) && Governs(a, x.y, "r") && Db(x.y).runs["r"].status == Failed && !ByHand(x.y.ops, "r")
    ensures Covered(a, x, "r", COMMITTED) && !NeverPaid(a, x, "r")
  {
    hide Reached, Advance, ARGS, Dollars, Converts, Charging, Owns, Arrived, COMMITTED, HandsOff, NeverPaid, ByHand;
    var z := Charged(a);
    RefusalHidesPayment(a, z, 0, "CardError", 0, Zero);
    Proceed(a, z, HearCharge(0, Exception("CardError"), true));
    x := Advance(a, z, HearCharge(0, Exception("CardError"), true));
    Proceed(a, x, Work(StepLabel.Finish(0, 0, Zero)));
    x := Advance(a, x, Work(StepLabel.Finish(0, 0, Zero)));
    HandsOffMeansNone(x.y, "r");
    CoveredIsPaid(a, x, "r");
  }
}
