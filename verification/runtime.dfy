/** Any number of workers driving one ledger: invoke, resume and execute as separate ledger calls that interleave
    freely with each other, with crashes, and with every other client of the ledger. */
module Runtime {
  import opened Text
  import opened Models
  import opened Trails
  import opened TrailFacts
  import opened LedgerSpec
  import opened LedgerProofs
  import opened LedgerSteps
  import opened LedgerSweeps
  import opened Histories

  /** What calling the protected function came to. */
  datatype FnResult =
    | Value(result: Option<Json>, serializable: bool)
    | Indeterminate(name: string)
    | Failure(name: string)

  datatype ActionResult = ActionResult(
    run: RunId, action: string, status: Status, key: string, version: Option<string>, reason: Option<string>,
    value: Option<Json>, duplicate: bool, attempt: nat)

  /** A worker's place between two ledger calls; `claim` is the position of the claim it committed and won. */
  datatype Pc =
    | Idle
    | Deciding(run: RunId, args: map<string, Json>)
    | Claiming(run: RunId, args: map<string, Json>)
    | Claimed(run: RunId, owner: string, args: map<string, Json>, claim: nat)
    | Inside(run: RunId, owner: string, args: map<string, Json>)
    | Finishing(run: RunId, owner: string, outcome: FnResult)
    | Expiring(run: RunId, tenant: string)
    | Recovering(run: RunId, tenant: string)
    | Counting(run: RunId)
    | Reading(run: RunId, duplicate: bool)
    | Returned(result: ActionResult)
    | Aborted(error: Error)
    | Crashed

  /** One entry into the protected function: who entered, on which claim, and how many calls were committed by then. */
  datatype Call = Call(worker: nat, run: RunId, owner: string, args: map<string, Json>, claim: nat, entered: nat)

  /** The calls committed so far fix the tables; `calls` logs entries into protected code. */
  datatype Sys = Sys(ops: seq<Op>, workers: map<nat, Pc>, calls: seq<Call>)

  function Db(y: Sys): State { Reached(y.ops) }

  const Start := Sys([], map[], [])

  function PcOf(y: Sys, w: nat): Pc { if w in y.workers then y.workers[w] else Idle }

  function At(y: Sys, w: nat, pc: Pc): Sys { y.(workers := y.workers[w := pc]) }

  function Commits(y: Sys, op: Op): Sys { y.(ops := y.ops + [op]) }

  function Answer(y: Sys, op: Op): Reply { Apply(Db(y), op).1 }

  function ResultFromRun(r: RunId, run: Run, duplicate: bool): ActionResult {
    ActionResult(r, run.q.action, run.status, run.q.key, run.version, run.reason, run.result, duplicate, run.attempt)
  }

  /** `get_run` followed by `_result_from_run`. */
  function ReadBackPc(y: Sys, r: RunId, duplicate: bool): Pc {
    if r in Db(y).runs then Returned(ResultFromRun(r, Db(y).runs[r], duplicate)) else Aborted(KeyError)
  }

  function GovernedRequest(c: Context, action: string, risk: string, key: string, args: map<string, Json>): Request {
    var fp := RequestFingerprint(c.tenant, c.actor, c.roles, c.evidence, action, risk, args, c.metadata);
    Request(c.tenant, c.actor, c.roles, c.evidence, action, risk, Strip(key), fp, args, c.metadata)
  }

  datatype StepLabel =
    | Invoke(w: nat, r: RunId, c: Context, action: string, risk: string, key: string, args: map<string, Json>,
             now: Time)
    | DecidePolicy(w: nat, d: Decision, ttl: int, now: Time, clock: Clock)
    | SweepApprovals(w: nat, scan: seq<RunId>, now: Time, clock: Clock)
    | SweepLeases(w: nat, scan: seq<RunId>, now: Time, clock: Clock)
    | CountDuplicate(w: nat)
    | ReadBack(w: nat)
    | Resume(w: nat, r: RunId, action: string)
    | Claim(w: nat, owner: string, seconds: int, now: Time, clock: Clock)
    | Enter(w: nat)
    | Leave(w: nat, outcome: FnResult)
    | Finish(w: nat, now: Time, clock: Clock)
    | Crash(w: nat)
    | Release(w: nat)
    | Client(op: Op)

  /** The ledger call a worker makes with the function's outcome. */
  function FinishOf(outcome: FnResult): LedgerSpec.Finish {
    match outcome
    case Value(result, serializable) => if serializable then Complete(result) else Uncertain("ResultSerializationError")
    case Indeterminate(name) => Uncertain(name)
    case Failure(name) => Fail(name)
  }

  /** One atomic step; a label whose worker is elsewhere does nothing. */
  function Next(y: Sys, step: StepLabel): Sys {
    match step
    case Invoke(w, r, c, action, risk, key, args, now) =>
      if PcOf(y, w) != Idle then y
      else if IsBlank(key) then At(y, w, Aborted(ValueError))
      else
        var op := OpCreate(r, GovernedRequest(c, action, risk, key, args), now);
        var pc := match Answer(y, op)
          case Fetched(found, created) => if created then Deciding(found, args) else Expiring(found, c.tenant)
          case Raised(error) => Aborted(error)
          case _ => Aborted(RuntimeError);
        At(Commits(y, op), w, pc)
    case DecidePolicy(w, d, ttl, now, clock) =>
      if !PcOf(y, w).Deciding? then y
      else
        var r, op := PcOf(y, w).run, OpPolicy(PcOf(y, w).run, d, ttl, now, clock);
        var pc := match Answer(y, op)
          case Raised(error) => Aborted(error)
          case _ => if d.outcome.Allow? then Claiming(r, PcOf(y, w).args) else Reading(r, false);
        At(Commits(y, op), w, pc)
    case SweepApprovals(w, scan, now, clock) =>
      if !PcOf(y, w).Expiring? then y
      else
        var op := OpExpire(scan, Some(PcOf(y, w).tenant), now, clock);
        var pc :=
          if Answer(y, op).Raised? then Aborted(Answer(y, op).error)
          else Recovering(PcOf(y, w).run, PcOf(y, w).tenant);
        At(Commits(y, op), w, pc)
    case SweepLeases(w, scan, now, clock) =>
      if !PcOf(y, w).Recovering? then y
      else At(Commits(y, OpRecover(scan, Some(PcOf(y, w).tenant), now, clock)), w, Counting(PcOf(y, w).run))
    case CountDuplicate(w) =>
      if !PcOf(y, w).Counting? then y
      else
        var op := OpDuplicate(PcOf(y, w).run);
        var pc := if Answer(y, op).Raised? then Aborted(Answer(y, op).error) else Reading(PcOf(y, w).run, true);
        At(Commits(y, op), w, pc)
    case ReadBack(w) =>
      if !PcOf(y, w).Reading? then y else At(y, w, ReadBackPc(y, PcOf(y, w).run, PcOf(y, w).duplicate))
    case Resume(w, r, action) =>
      if PcOf(y, w) != Idle then y
      else if r !in Db(y).runs then At(y, w, Aborted(KeyError))
      else
        var run := Db(y).runs[r];
        if run.q.action != action then At(y, w, Aborted(ValueError))
        else if run.status == Completed then At(y, w, Returned(ResultFromRun(r, run, true)))
        else if run.status != Approved then At(y, w, Aborted(ValueError))
        else At(y, w, Claiming(r, run.q.args))
    case Claim(w, owner, seconds, now, clock) =>
      if !PcOf(y, w).Claiming? then y
      else
        var r, op := PcOf(y, w).run, OpClaim(PcOf(y, w).run, owner, seconds, now, clock);
        var pc := match Answer(y, op)
          case Flag(yes) => if yes then Claimed(r, owner, PcOf(y, w).args, |y.ops|) else Reading(r, true)
          case Raised(error) => Aborted(error)
          case _ => Aborted(RuntimeError);
        At(Commits(y, op), w, pc)
    case Enter(w) =>
      if !PcOf(y, w).Claimed? then y
      else
        var pc := PcOf(y, w);
        var call := Call(w, pc.run, pc.owner, pc.args, pc.claim, |y.ops|);
        At(y.(calls := y.calls + [call]), w, Inside(pc.run, pc.owner, pc.args))
    case Leave(w, outcome) =>
      if !PcOf(y, w).Inside? then y else At(y, w, Finishing(PcOf(y, w).run, PcOf(y, w).owner, outcome))
    case Finish(w, now, clock) =>
      if !PcOf(y, w).Finishing? then y
      else
        var pc := PcOf(y, w);
        var op := OpFinish(pc.run, pc.owner, FinishOf(pc.outcome), now, clock);
        At(Commits(y, op), w, if Answer(y, op).Raised? then Aborted(Answer(y, op).error) else Reading(pc.run, false))
    case Crash(w) => At(y, w, Crashed)
    case Release(w) => if PcOf(y, w).Returned? || PcOf(y, w).Aborted? then At(y, w, Idle) else y
    case Client(op) => Commits(y, op)
  }

  /** The ledger call a step commits, if it commits one. */
  function OpOf(y: Sys, step: StepLabel): Option<Op> {
    match step
    case Invoke(w, r, c, action, risk, key, args, now) =>
      if PcOf(y, w) != Idle || IsBlank(key) then None
      else Some(OpCreate(r, GovernedRequest(c, action, risk, key, args), now))
    case DecidePolicy(w, d, ttl, now, clock) =>
      if PcOf(y, w).Deciding? then Some(OpPolicy(PcOf(y, w).run, d, ttl, now, clock)) else None
    case SweepApprovals(w, scan, now, clock) =>
      if PcOf(y, w).Expiring? then Some(OpExpire(scan, Some(PcOf(y, w).tenant), now, clock)) else None
    case SweepLeases(w, scan, now, clock) =>
      if PcOf(y, w).Recovering? then Some(OpRecover(scan, Some(PcOf(y, w).tenant), now, clock)) else None
    case CountDuplicate(w) => if PcOf(y, w).Counting? then Some(OpDuplicate(PcOf(y, w).run)) else None
    case Claim(w, owner, seconds, now, clock) =>
      if PcOf(y, w).Claiming? then Some(OpClaim(PcOf(y, w).run, owner, seconds, now, clock)) else None
    case Finish(w, now, clock) =>
      if PcOf(y, w).Finishing? then
        Some(OpFinish(PcOf(y, w).run, PcOf(y, w).owner, FinishOf(PcOf(y, w).outcome), now, clock))
      else None
    case Client(op) => Some(op)
    case _ => None
  }

  lemma NextCommits(y: Sys, step: StepLabel)
    ensures Next(y, step).ops == match OpOf(y, step) case None => y.ops case Some(op) => y.ops + [op]
  {
    hide Reached, Answer, RequestFingerprint;
  }

  lemma FinishingByLeave(y: Sys, step: StepLabel, w: nat)
    requires PcOf(Next(y, step), w).Finishing? && !(step.Leave? && step.w == w)
    ensures PcOf(y, w) == PcOf(Next(y, step), w)
  {
    hide Reached, Answer, RequestFingerprint;
  }

  function Run(steps: seq<StepLabel>): Sys {
    if steps == [] then Start else Next(Run(steps[..|steps| - 1]), steps[|steps| - 1])
  }

  // ---- At most once ----

  predicate Holds(pc: Pc) { pc.Claimed? || pc.Inside? || pc.Finishing? }

  /** The worker will pass, or has passed, these arguments to the protected function. */
  predicate Carrying(pc: Pc) { pc.Deciding? || pc.Claiming? || pc.Claimed? || pc.Inside? }

  predicate Called(y: Sys, r: RunId) { exists i :: 0 <= i < |y.calls| && y.calls[i].run == r }

  predicate Governed(y: Sys, r: RunId, args: map<string, Json>) { r in Db(y).runs && Db(y).runs[r].q.args == args }

  /** Why the next entry cannot repeat an old one. */
  ghost predicate Safe(y: Sys) {
    && (forall w :: w in y.workers && Carrying(y.workers[w]) ==>
          Governed(y, y.workers[w].run, y.workers[w].args))
    && (forall w :: w in y.workers && Holds(y.workers[w]) ==> AttemptOf(Db(y), y.workers[w].run) == 1)
    && (forall w :: w in y.workers && y.workers[w].Claimed? ==> !Called(y, y.workers[w].run))
    && (forall v, w :: v in y.workers && w in y.workers && v != w && Holds(y.workers[v]) && Holds(y.workers[w]) ==>
          y.workers[v].run != y.workers[w].run)
    && (forall i, j :: 0 <= i < j < |y.calls| ==> y.calls[i].run != y.calls[j].run)
    && (forall i :: 0 <= i < |y.calls| ==>
          AttemptOf(Db(y), y.calls[i].run) == 1 && Governed(y, y.calls[i].run, y.calls[i].args))
  }

  /** Committing any call keeps attempts and stored arguments. */
  ghost predicate Onward(s: State, t: State) {
    forall r :: r in s.runs ==> r in t.runs && t.runs[r].q == s.runs[r].q && s.runs[r].attempt <= t.runs[r].attempt <= 1
  }

  lemma CommitsOnward(y: Sys, op: Op)
    ensures Onward(Db(y), Db(Commits(y, op)))
    ensures Db(Commits(y, op)) == Apply(Db(y), op).0
  {
    hide Inv, Apply, Trail;
    var ops := y.ops + [op];
    assert ops[..|y.ops|] == y.ops;
    ReachedEvolves(ops, |y.ops|);
    forall r | r in Reached(ops).runs ensures Reached(ops).runs[r].attempt <= 1 { AttemptIsStarts(ops, r); }
  }

  /** A commit with every worker where it was keeps the invariant. */
  lemma SafeCommit(y: Sys, op: Op)
    requires Safe(y)
    ensures Safe(Commits(y, op))
  {
    hide Inv, Apply, Trail, Reached;
    CommitsOnward(y, op);
    var z := Commits(y, op);
    assert forall r :: Called(z, r) <==> Called(y, r);
  }

  /** Moving one worker to a place that holds no claim keeps the invariant. */
  lemma SafeMove(y: Sys, w: nat, pc: Pc)
    requires Safe(y) && !Holds(pc)
    requires pc.Deciding? || pc.Claiming? ==> Governed(y, pc.run, pc.args)
    ensures Safe(At(y, w, pc))
  {
    hide Reached;
    var z := At(y, w, pc);
    assert forall r :: Called(z, r) <==> Called(y, r);
  }

  /** Handing one worker the claim of an uncalled run nobody else holds keeps the invariant. */
  lemma SafeHold(z: Sys, w: nat, r: RunId, owner: string, args: map<string, Json>, claim: nat)
    requires Safe(z) && AttemptOf(Db(z), r) == 1 && !Called(z, r) && Governed(z, r, args)
    requires forall v :: v in z.workers && Holds(z.workers[v]) ==> z.workers[v].run != r
    ensures Safe(At(z, w, Claimed(r, owner, args, claim)))
  {
    hide Reached;
    var u := At(z, w, Claimed(r, owner, args, claim));
    assert forall x :: Called(u, x) <==> Called(z, x);
  }

  lemma SafeClaim(y: Sys, w: nat, op: Op)
    requires Safe(y) && PcOf(y, w).Claiming? && op.OpClaim? && op.run == PcOf(y, w).run && Answer(y, op) == Flag(true)
    ensures Safe(At(Commits(y, op), w, Claimed(op.run, op.owner, PcOf(y, w).args, |y.ops|)))
  {
    ReachedInv(y.ops);
    assert Launches(Db(y), op);
    ClaimMovesOne(Db(y), op, op.run);
    hide Inv, Apply, Reached, Answer, Launches;
    UnclaimedIsFree(y, op.run);
    CommitsOnward(y, op);
    GovernedStays(y, w, op);
    SafeCommit(y, op);
    hide Safe;
    var z := Commits(y, op);
    assert Called(z, op.run) == Called(y, op.run);
    SafeHold(z, w, op.run, op.owner, PcOf(y, w).args, |y.ops|);
  }

  lemma UnclaimedIsFree(y: Sys, r: RunId)
    requires Safe(y) && AttemptOf(Db(y), r) == 0
    ensures !Called(y, r)
    ensures forall v :: v in y.workers && Holds(y.workers[v]) ==> y.workers[v].run != r
  {
    hide Reached;
  }

  lemma CalledOneMore(y: Sys, z: Sys, call: Call, r: RunId)
    requires z.calls == y.calls + [call]
    ensures Called(z, r) <==> Called(y, r) || r == call.run
  {
    assert z.calls[|y.calls|] == call;
    if Called(y, r) {
      var i :| 0 <= i < |y.calls| && y.calls[i].run == r;
      assert z.calls[i].run == r;
    }
  }

  lemma SafeEnter(y: Sys, w: nat)
    requires Safe(y)
    ensures Safe(Next(y, Enter(w)))
  {
    hide Reached;
    if PcOf(y, w).Claimed? {
      var pc, z := PcOf(y, w), Next(y, Enter(w));
      forall r ensures Called(z, r) <==> Called(y, r) || r == pc.run {
        CalledOneMore(y, z, Call(w, pc.run, pc.owner, pc.args, pc.claim, |y.ops|), r);
      }
      hide Called;
    }
  }

  lemma SafeLeave(y: Sys, w: nat, outcome: FnResult)
    requires Safe(y)
    ensures Safe(Next(y, Leave(w, outcome)))
  {
    hide Reached;
    var z := Next(y, Leave(w, outcome));
    assert forall r :: Called(z, r) <==> Called(y, r);
  }

  lemma CreatedIsGoverned(y: Sys, op: Op, found: RunId)
    requires op.OpCreate? && Answer(y, op) == Fetched(found, true)
    ensures Governed(Commits(y, op), found, op.q.args)
  {
    hide Inv, Trail, Reached;
    CommitsOnward(y, op);
    assert found == op.run;
  }

  lemma SafeNext(y: Sys, step: StepLabel)
    requires Safe(y)
    ensures Safe(Next(y, step))
  {
    hide Inv, Apply, Trail, Reached, Safe, Answer, RequestFingerprint;
    if OpOf(y, step).Some? { SafeCommit(y, OpOf(y, step).value); }
    match step
    case Enter(w) => SafeEnter(y, w);
    case Leave(w, outcome) => SafeLeave(y, w, outcome);
    case Client(op) =>
    case Claim(w, owner, seconds, now, clock) =>
      if PcOf(y, w).Claiming? {
        var op := OpClaim(PcOf(y, w).run, owner, seconds, now, clock);
        if Answer(y, op) == Flag(true) {
          SafeClaim(y, w, op);
        } else {
          SafeMove(Commits(y, op), w, PcOf(Next(y, step), w));
        }
      }
    case Invoke(w, r, c, action, risk, key, args, now) =>
      if PcOf(y, w) == Idle {
        if IsBlank(key) {
          SafeMove(y, w, Aborted(ValueError));
        } else {
          var op := OpCreate(r, GovernedRequest(c, action, risk, key, args), now);
          SafeInvoke(y, w, op, args, PcOf(Next(y, step), w));
        }
      }
    case DecidePolicy(w, d, ttl, now, clock) =>
      if PcOf(y, w).Deciding? {
        var op := OpPolicy(PcOf(y, w).run, d, ttl, now, clock);
        GovernedStays(y, w, op);
        SafeMove(Commits(y, op), w, PcOf(Next(y, step), w));
      }
    case SweepApprovals(w, scan, now, clock) =>
      if PcOf(y, w).Expiring? {
        SafeMove(Commits(y, OpExpire(scan, Some(PcOf(y, w).tenant), now, clock)), w, PcOf(Next(y, step), w));
      }
    case SweepLeases(w, scan, now, clock) =>
      if PcOf(y, w).Recovering? {
        SafeMove(Commits(y, OpRecover(scan, Some(PcOf(y, w).tenant), now, clock)), w, PcOf(Next(y, step), w));
      }
    case CountDuplicate(w) =>
      if PcOf(y, w).Counting? { SafeMove(Commits(y, OpDuplicate(PcOf(y, w).run)), w, PcOf(Next(y, step), w)); }
    case Finish(w, now, clock) =>
      if PcOf(y, w).Finishing? {
        var pc := PcOf(y, w);
        SafeMove(Commits(y, OpFinish(pc.run, pc.owner, FinishOf(pc.outcome), now, clock)), w, PcOf(Next(y, step), w));
      }
    case ReadBack(w) =>
      if PcOf(y, w).Reading? { SafeMove(y, w, PcOf(Next(y, step), w)); }
    case Resume(w, r, action) =>
      if PcOf(y, w) == Idle { SafeMove(y, w, PcOf(Next(y, step), w)); }
    case Crash(w) => SafeMove(y, w, Crashed);
    case Release(w) =>
      if PcOf(y, w).Returned? || PcOf(y, w).Aborted? { SafeMove(y, w, Idle); }
  }

  lemma GovernedStays(y: Sys, w: nat, op: Op)
    requires Safe(y) && (PcOf(y, w).Deciding? || PcOf(y, w).Claiming?)
    ensures Governed(Commits(y, op), PcOf(y, w).run, PcOf(y, w).args)
  {
    hide Reached, Trail;
    CommitsOnward(y, op);
  }

  lemma SafeInvoke(y: Sys, w: nat, op: Op, args: map<string, Json>, pc: Pc)
    requires Safe(Commits(y, op)) && op.OpCreate? && op.q.args == args && !Holds(pc) && !pc.Claiming?
    requires pc.Deciding? ==> Answer(y, op) == Fetched(pc.run, true) && pc.args == args
    ensures Safe(At(Commits(y, op), w, pc))
  {
    hide Reached, Trail, Safe, Answer;
    if pc.Deciding? { CreatedIsGoverned(y, op, pc.run); }
    SafeMove(Commits(y, op), w, pc);
  }

  lemma {:induction false} RunSafe(steps: seq<StepLabel>)
    ensures Safe(Run(steps))
  {
    hide Next, Reached;
    if steps != [] {
      RunSafe(steps[..|steps| - 1]);
      hide Safe;
      SafeNext(Run(steps[..|steps| - 1]), steps[|steps| - 1]);
    }
  }

  /** Some interleaving leads here. */
  ghost predicate Reachable(y: Sys) { exists steps: seq<StepLabel> :: Run(steps) == y }

  lemma ReachableSafe(y: Sys)
    requires Reachable(y)
    ensures Safe(y)
  {
    hide Run, Safe;
    var steps: seq<StepLabel> :| Run(steps) == y;
    RunSafe(steps);
  }

  /** The idempotency key of the run a call was made for. */
  function CallKey(y: Sys, call: Call): Option<IdemKey> {
    if call.run in Db(y).runs then Some(KeyOf(Db(y).runs[call.run].q)) else None
  }

  /** In every interleaving, protected code is entered at most once per (tenant, action, key), only on a run whose claim
      was won, and with exactly the arguments the ledger stored for that run. */
  lemma AtMostOnce(y: Sys)
    requires Reachable(y)
    ensures forall i :: 0 <= i < |y.calls| ==>
      Governed(y, y.calls[i].run, y.calls[i].args) && AttemptOf(Db(y), y.calls[i].run) == 1
      && CallKey(y, y.calls[i]).Some?
    ensures forall i, j :: 0 <= i < j < |y.calls| ==> CallKey(y, y.calls[i]) != CallKey(y, y.calls[j])
  {
    hide Reached, Reachable, Inv;
    ReachableSafe(y);
    ReachedInv(y.ops);
    forall i, j | 0 <= i < j < |y.calls| ensures CallKey(y, y.calls[i]) != CallKey(y, y.calls[j]) {
      if CallKey(y, y.calls[i]) == CallKey(y, y.calls[j]) {
        OneRunPerKey(Db(y), y.calls[i].run, y.calls[j].run);
      }
    }
  }

  // ---- Every entry was authorised ----

  /** What one step can do to one worker, as far as claims go. */
  lemma NextWorker(y: Sys, step: StepLabel, v: nat)
    ensures
      var p, q := PcOf(y, v), PcOf(Next(y, step), v);
      || q == p
      || !Holds(q)
      || (step.Claim? && step.w == v && p.Claiming? && q == Claimed(p.run, step.owner, p.args, |y.ops|)
          && Answer(y, OpClaim(p.run, step.owner, step.seconds, step.now, step.clock)) == Flag(true))
      || (step.Enter? && step.w == v && p.Claimed? && q == Inside(p.run, p.owner, p.args))
      || (step.Leave? && step.w == v && p.Inside? && q == Finishing(p.run, p.owner, step.outcome))
  {
    hide Reached, Apply, RequestFingerprint;
  }

  lemma NextCalls(y: Sys, step: StepLabel)
    ensures Next(y, step).calls ==
      if step.Enter? && PcOf(y, step.w).Claimed? then
        var pc := PcOf(y, step.w);
        y.calls + [Call(step.w, pc.run, pc.owner, pc.args, pc.claim, |y.ops|)]
      else y.calls
  {
    hide Reached, Answer, RequestFingerprint;
  }

  /** Call `n` is the claim by `owner` that won run `r`. */
  predicate WonBy(ops: seq<Op>, n: nat, r: RunId, owner: string) {
    n < |ops| && WonAt(ops, n, r) && ops[n].owner == owner
  }

  /** Claims held and claims entered on are claims won, and whoever is inside or past protected code has entered it. */
  ghost predicate Traced(y: Sys) {
    && (forall v :: PcOf(y, v).Claimed? ==> WonBy(y.ops, PcOf(y, v).claim, PcOf(y, v).run, PcOf(y, v).owner))
    && (forall v :: PcOf(y, v).Inside? || PcOf(y, v).Finishing? ==> Called(y, PcOf(y, v).run))
    && (forall i :: 0 <= i < |y.calls| ==>
          WonBy(y.ops, y.calls[i].claim, y.calls[i].run, y.calls[i].owner)
          && y.calls[i].claim < y.calls[i].entered <= |y.ops|)
  }

  lemma WonStays(ops: seq<Op>, more: seq<Op>, n: nat, r: RunId, owner: string)
    requires WonBy(ops, n, r, owner) && ops <= more
    ensures WonBy(more, n, r, owner)
  {
    hide Launches, Reached;
    assert more[..n] == ops[..n];
  }

  lemma ClaimWins(y: Sys, op: Op)
    requires op.OpClaim? && Answer(y, op) == Flag(true)
    ensures WonBy(y.ops + [op], |y.ops|, op.run, op.owner)
  {
    hide Apply, Reached;
    assert (y.ops + [op])[..|y.ops|] == y.ops;
  }

  lemma ClaimHeld(y: Sys, step: StepLabel, v: nat)
    requires Traced(y) && PcOf(Next(y, step), v).Claimed?
    ensures var z, q := Next(y, step), PcOf(Next(y, step), v); WonBy(z.ops, q.claim, q.run, q.owner)
  {
    NextWorker(y, step, v);
    NextCommits(y, step);
    if PcOf(Next(y, step), v) == PcOf(y, v) {
      hide Next, OpOf, WonBy;
      WonStays(y.ops, Next(y, step).ops, PcOf(y, v).claim, PcOf(y, v).run, PcOf(y, v).owner);
    } else {
      hide Next, WonBy;
      ClaimWins(y, OpClaim(PcOf(y, v).run, step.owner, step.seconds, step.now, step.clock));
    }
  }

  lemma TracedNext(y: Sys, step: StepLabel)
    requires Traced(y)
    ensures Traced(Next(y, step))
  {
    NextCommits(y, step);
    NextCalls(y, step);
    var z := Next(y, step);
    forall v | PcOf(z, v).Claimed? ensures WonBy(z.ops, PcOf(z, v).claim, PcOf(z, v).run, PcOf(z, v).owner) {
      ClaimHeld(y, step, v);
    }
    hide Next, OpOf, WonBy, Holds;
    forall v | PcOf(z, v).Inside? || PcOf(z, v).Finishing? ensures Called(z, PcOf(z, v).run) {
      CalledStays(y, step, v);
    }
    forall i | 0 <= i < |z.calls|
      ensures WonBy(z.ops, z.calls[i].claim, z.calls[i].run, z.calls[i].owner)
      ensures z.calls[i].claim < z.calls[i].entered <= |z.ops|
    {
      if i < |y.calls| {
        WonStays(y.ops, z.ops, y.calls[i].claim, y.calls[i].run, y.calls[i].owner);
      } else {
        ClaimIsPast(y, step.w);
        WonStays(y.ops, z.ops, z.calls[i].claim, z.calls[i].run, z.calls[i].owner);
      }
    }
  }

  lemma ClaimIsPast(y: Sys, w: nat)
    requires Traced(y) && PcOf(y, w).Claimed?
    ensures PcOf(y, w).claim < |y.ops| && WonBy(y.ops, PcOf(y, w).claim, PcOf(y, w).run, PcOf(y, w).owner)
  {
    hide Launches, Reached;
  }

  lemma CalledStays(y: Sys, step: StepLabel, v: nat)
    requires Traced(y) && (PcOf(Next(y, step), v).Inside? || PcOf(Next(y, step), v).Finishing?)
    ensures Called(Next(y, step), PcOf(Next(y, step), v).run)
  {
    NextWorker(y, step, v);
    NextCalls(y, step);
    hide Next, WonBy, Answer;
    var z := Next(y, step);
    if step.Enter? && PcOf(y, step.w).Claimed? {
      assert z.calls[|y.calls|].run == PcOf(y, step.w).run;
      CalledOneMore(y, z, z.calls[|y.calls|], PcOf(z, v).run);
    } else {
      assert Called(z, PcOf(z, v).run) == Called(y, PcOf(z, v).run);
    }
  }

  lemma {:induction false} RunTraced(steps: seq<StepLabel>)
    ensures Traced(Run(steps))
  {
    hide Next;
    if steps != [] {
      RunTraced(steps[..|steps| - 1]);
      hide Traced;
      TracedNext(Run(steps[..|steps| - 1]), steps[|steps| - 1]);
    }
  }

  /** Every entry into protected code is on a claim that the entering worker had committed and won before it entered,
      and that claim was authorised by policy or by a proper approval of the request the run still holds. */
  lemma EveryCallAuthorised(y: Sys, i: nat)
    requires Reachable(y) && i < |y.calls|
    ensures
      var call := y.calls[i];
      && call.claim < call.entered <= |y.ops| && WonBy(y.ops, call.claim, call.run, call.owner)
      && Authorised(y.ops, call.claim, call.run)
  {
    hide Reached, Trail, Inv, Apply, Run;
    var steps: seq<StepLabel> :| Run(steps) == y;
    RunTraced(steps);
    StartIsAuthorised(y.ops, y.calls[i].claim);
  }
}
