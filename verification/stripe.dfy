/** The Stripe Sandbox adapter and its probe, over a provider that is idempotent by key, composed with the workers and
    the ledger: how many payments a run can cause, and what a finished run says about its payment. */
module Stripe {
  import opened Text
  import opened Models
  import opened Trails
  import opened LedgerSpec
  import opened LedgerProofs
  import opened LedgerSteps
  import opened LedgerSweeps
  import opened Histories
  import opened Tenancy
  import opened Runtime
  import opened Operators

  // ---- The adapter ----

  /** The governed action's name and roles, the names of the exception types (their subtypes included) it takes for
      ambiguous, and the text tables and conversions of the language it runs on. */
  datatype Adapter = Adapter(
    action: string, roles: seq<string>, ambiguous: set<string>,
    lower: string -> string, isAlpha: string -> bool, text: Json -> string, number: Json -> Option<int>)

  /** `str` of a string and `int` of an integer are the value itself. */
  ghost predicate Converts(a: Adapter) {
    (forall t :: a.text(JStr(t)) == t) && (forall n :: a.number(JNum(n)) == Some(n))
  }

  /** The request parameters that vary; payment method, return URL and capture mode are fixed by the adapter object. */
  datatype Params = Params(amount: int, currency: string, run: RunId, invoice: string)

  datatype Intent = Intent(
    id: string, status: string, amount: int, currency: string, live: bool, metadata: map<string, string>)

  /** One POST: its idempotency key and its parameters. */
  datatype Post = Post(key: string, params: Params)

  const COMMITTED := ["succeeded"]
  const NOT_COMMITTED := ["canceled", "requires_payment_method"]
  const PENDING := ["processing", "requires_action", "requires_capture", "requires_confirmation"]

  const RUN_FIELD := "agenttrustops_run_id"
  const INVOICE_FIELD := "synthetic_invoice_id"

  function MakeParams(a: Adapter, r: RunId, invoice: string, amount: int, currency: string): Option<Params> {
    var bill, code := Strip(invoice), a.lower(Strip(currency));
    if bill == "" || |bill| > 100 then None
    else if amount < 50 then None
    else if |code| != 3 || !a.isAlpha(code) then None
    else Some(Params(amount, code, r, bill))
  }

  const ARGUMENTS: set<string> := {"invoice_id", "amount", "currency"}

  /** What `charge` sends: exactly its three arguments, of the types it checks. */
  function ChargeParams(a: Adapter, r: RunId, args: map<string, Json>): Option<Params> {
    if args.Keys != ARGUMENTS then None
    else
      match (args["invoice_id"], args["amount"], args["currency"])
      case (JStr(invoice), JNum(amount), JStr(currency)) => MakeParams(a, r, invoice, amount, currency)
      case _ => None
  }

  /** What `inspect` sends: the stored arguments after `str`, `int` and `str`. */
  function LookupParams(a: Adapter, r: RunId, args: map<string, Json>): Option<Params> {
    if !(ARGUMENTS <= args.Keys) then None
    else
      match a.number(args["amount"])
      case None => None
      case Some(amount) => MakeParams(a, r, a.text(args["invoice_id"]), amount, a.text(args["currency"]))
  }

  /** Whatever `charge` is willing to send, the probe sends identically. */
  lemma ProbeRepeatsCharge(a: Adapter, r: RunId, args: map<string, Json>)
    requires Converts(a) && ChargeParams(a, r, args).Some?
    ensures LookupParams(a, r, args) == ChargeParams(a, r, args)
  {
  }

  function StripeKey(key: string): Option<string> {
    if 1 <= |Strip(key)| <= 255 then Some(Strip(key)) else None
  }

  function PostFor(key: string, params: Option<Params>): Option<Post> {
    if params.Some? && StripeKey(key).Some? then Some(Post(StripeKey(key).value, params.value)) else None
  }

  /** The only POST a stored run can give rise to. */
  function PostOf(a: Adapter, r: RunId, q: Request): Option<Post> { PostFor(q.key, LookupParams(a, r, q.args)) }

  predicate ValidIntent(intent: Intent, params: Params) {
    && !intent.live && intent.amount == params.amount && intent.currency == params.currency
    && RUN_FIELD in intent.metadata && intent.metadata[RUN_FIELD] == params.run
    && INVOICE_FIELD in intent.metadata && intent.metadata[INVOICE_FIELD] == params.invoice
    && "pi_" <= intent.id
  }

  function SafeResult(intent: Intent): Json {
    JObj(map["payment_intent_id" := JStr(intent.id), "status" := JStr(intent.status), "amount" := JNum(intent.amount),
             "currency" := JStr(intent.currency), "livemode" := JBool(false)])
  }

  /** What `charge` makes of the provider's answer. */
  function ChargeVerdict(intent: Intent, params: Params, serializable: bool): FnResult {
    if !ValidIntent(intent, params) then Indeterminate("IndeterminateOutcome")
    else if intent.status in COMMITTED then Value(Some(SafeResult(intent)), serializable)
    else if intent.status in PENDING then Indeterminate("IndeterminateOutcome")
    else if intent.status in NOT_COMMITTED then Failure("StripeSandboxPaymentFailed")
    else Indeterminate("IndeterminateOutcome")
  }

  /** What `charge` makes of an exception: definite unless its type is listed as ambiguous. */
  function RaisedVerdict(a: Adapter, errorType: string): FnResult {
    if errorType in a.ambiguous then Indeterminate("IndeterminateOutcome") else Failure("StripeSandboxPaymentFailed")
  }

  const PROVIDER := "stripe-sandbox"

  /** What `inspect`, and then `reconcile_from_provider`, make of the same answer; `None` when the lookup raises. */
  function LookupVerdict(intent: Intent, params: Params): Option<Observation> {
    var summary, reference := "Stripe Sandbox PaymentIntent status is " + intent.status, Strip(intent.id);
    var result := JObj(map["provider" := JStr(PROVIDER), "provider_reference" := JStr(reference),
                           "safe_result" := SafeResult(intent)]);
    if !ValidIntent(intent, params) || |reference| > 255 then None
    else if intent.status in COMMITTED then
      Some(Observation(PROVIDER, "committed", summary, Some(reference), Some(Completed), Some(result)))
    else if intent.status in NOT_COMMITTED then
      Some(Observation(PROVIDER, "not_committed", summary, Some(reference), Some(Failed), Some(result)))
    else if intent.status in PENDING then
      Some(Observation(PROVIDER, "pending", summary, Some(reference), None, None))
    else None
  }

  // ---- The system ----

  /** A payment as the provider keeps it: the request that made it and the answer every replay of its key gets. */
  datatype Payment = Payment(params: Params, intent: Intent)

  /** What a charge hears: the provider's answer, or an exception, which says nothing about whether it was delivered. */
  datatype Heard = Response | Exception(errorType: string)

  /** `sent` holds every POST ever put on the wire, `charged` and `looked` the runs whose charge or probe put one there;
      `waiting` and `lookups` say who still awaits an answer, and `heard` what each charge left on. */
  datatype World = World(
    y: Sys, sent: set<Post>, provider: map<string, Payment>, waiting: set<nat>, lookups: set<(RunId, Principal)>,
    charged: set<RunId>, looked: set<RunId>, heard: map<RunId, Heard>)

  const Outset := World(Start, {}, map[], {}, {}, {}, {}, map[])

  datatype WorldStep =
    | Work(step: StepLabel)
    | SendCharge(w: nat, error: string)
    | Deliver(post: Post, intent: Intent)
    | HearCharge(w: nat, heard: Heard, serializable: bool)
    | SendLookup(r: RunId, p: Principal, now: Time)
    | HearLookup(r: RunId, p: Principal, now: Time, clock: Clock)

  predicate Governs(a: Adapter, y: Sys, r: RunId) { r in Db(y).runs && Db(y).runs[r].q.action == a.action }

  predicate Charging(a: Adapter, x: World, w: nat) {
    PcOf(x.y, w).Inside? && Governs(a, x.y, PcOf(x.y, w).run)
  }

  /** Only the adapter's own code reports a payment: no other route returns a value from it, or a failure once its POST
      is sent; finishes its run with a definite report; or applies a provider observation to it. Everything else any
      client may do at any time. */
  predicate Permitted(a: Adapter, x: World, step: StepLabel) {
    match step
    case Leave(w, outcome) =>
      Charging(a, x, w) ==> !outcome.Value? && (w in x.waiting ==> outcome.Indeterminate?)
    case Client(op) =>
      (op.OpFinish? && !op.how.Uncertain?) || op.OpObserve? ==> !Governs(a, x.y, op.run)
    case _ => true
  }

  /** The POST a charging worker makes, from the arguments it was called with. */
  function ChargePost(a: Adapter, x: World, w: nat): Option<Post>
    requires Charging(a, x, w)
  {
    var pc := PcOf(x.y, w);
    PostFor(Db(x.y).runs[pc.run].q.key, ChargeParams(a, pc.run, pc.args))
  }

  /** How a charge ends that sends nothing: its parameters raise as they are, its key inside the guarded block. */
  function UnsentVerdict(a: Adapter, x: World, w: nat, error: string): FnResult
    requires Charging(a, x, w)
  {
    var pc := PcOf(x.y, w);
    if ChargeParams(a, pc.run, pc.args).None? then Failure(error) else RaisedVerdict(a, "ValueError")
  }

  function Leaves(x: World, w: nat, outcome: FnResult): World {
    x.(y := Next(x.y, StepLabel.Leave(w, outcome)), waiting := x.waiting - {w})
  }

  predicate InWindow(run: Run, now: Time) { 0 <= now - run.createdAt < 23 * 3600 * SECOND }

  /** `_load_reconcilable_run`, then the probe's own checks. */
  predicate LookupAllowed(a: Adapter, x: World, r: RunId, p: Principal, now: Time) {
    && Shares(a.roles, p.roles) && Governs(a, x.y, r)
    && var run := Db(x.y).runs[r];
    p.tenant == run.q.tenant && run.status == Unknown && InWindow(run, now) && PostOf(a, r, run.q).Some?
  }

  predicate Answered(x: World, post: Post) { post.key in x.provider && x.provider[post.key].params == post.params }

  function Advance(a: Adapter, x: World, step: WorldStep): World {
    match step
    case Work(inner) =>
      if Permitted(a, x, inner) then
        x.(y := Next(x.y, inner), waiting := if inner.Leave? then x.waiting - {inner.w} else x.waiting)
      else x
    case SendCharge(w, error) =>
      if !Charging(a, x, w) || w in x.waiting then x
      else if ChargePost(a, x, w).None? then Leaves(x, w, UnsentVerdict(a, x, w, error))
      else
        x.(sent := x.sent + {ChargePost(a, x, w).value}, waiting := x.waiting + {w},
           charged := x.charged + {PcOf(x.y, w).run})
    case Deliver(post, intent) =>
      if post !in x.sent || post.key in x.provider then x
      else x.(provider := x.provider[post.key := Payment(post.params, intent)])
    case HearCharge(w, heard, serializable) =>
      if !Charging(a, x, w) || w !in x.waiting then x
      else
        var z := x.(heard := x.heard[PcOf(x.y, w).run := heard]);
        (match heard
         case Exception(errorType) => Leaves(z, w, RaisedVerdict(a, errorType))
         case Response =>
           var post := ChargePost(a, x, w);
           if post.Some? && Answered(x, post.value) then
             Leaves(z, w, ChargeVerdict(x.provider[post.value.key].intent, post.value.params, serializable))
           else x)
    case SendLookup(r, p, now) =>
      if !LookupAllowed(a, x, r, p, now) then x
      else
        x.(sent := x.sent + {PostOf(a, r, Db(x.y).runs[r].q).value}, lookups := x.lookups + {(r, p)},
           looked := x.looked + {r})
    case HearLookup(r, p, now, clock) =>
      if (r, p) !in x.lookups || !Governs(a, x.y, r) then x
      else
        var post := PostOf(a, r, Db(x.y).runs[r].q);
        if post.None? || !Answered(x, post.value) then x
        else
          match LookupVerdict(x.provider[post.value.key].intent, post.value.params)
          case None => x
          case Some(o) => x.(y := Next(x.y, Client(OpObserve(r, o, p, now, clock))))
  }

  function Course(a: Adapter, steps: seq<WorldStep>): World {
    if steps == [] then Outset else Advance(a, Course(a, steps[..|steps| - 1]), steps[|steps| - 1])
  }

  // ---- What can complete or fail a run ----

  predicate Stands(s: State, r: RunId, status: Status) { r in s.runs && s.runs[r].status == status }

  predicate IsCompleted(s: State, r: RunId) { Stands(s, r, Completed) }

  /** A call that brings a run to `status`. */
  predicate Ends(s: State, op: Op, r: RunId, status: Status) {
    match op
    case OpFinish(run, _, how, _, _) =>
      run == r && Apply(s, op).1 == Done
      && status == (match how case Complete(_) => Completed case Fail(_) => Failed case _ => Unknown)
    case OpReconcile(run, to, _, _, _, _, _) => run == r && to == status && Apply(s, op).1 == Flag(true)
    case OpObserve(run, o, _, _, _) => run == r && Conclusion(o.outcome) == Some(status) && Apply(s, op).1 == Flag(true)
    case _ => false
  }

  /** The only ways into the two concluded statuses. */
  lemma WhatEnds(s: State, op: Op, r: RunId, status: Status)
    requires Inv(s) && Stands(Apply(s, op).0, r, status) && !Stands(s, r, status) && status in {Completed, Failed}
    ensures Ends(s, op, r, status) && r in s.runs
  {
    hide Inv, Trail, Commit, AppendAll, Evolves, Quiet, Ends;
    if op.OpExpire? || op.OpRecover? {
      SweepEndsNone(s, op, r, status);
    } else {
      OneRunFrame(s, op);
      if op.run == r { OwnCallEnds(s, op, status); }
    }
  }

  lemma SweepEndsNone(s: State, op: Op, r: RunId, status: Status)
    requires Inv(s) && (op.OpExpire? || op.OpRecover?) && status in {Completed, Failed}
    ensures Stands(Apply(s, op).0, r, status) ==> Stands(s, r, status)
  {
    hide Inv, Trail, Commit, Evolves, Quiet, ExpireApprovals, RecoverExpired;
    match op
    case OpExpire(scan, tenant, now, clock) => ExpireMoves(s, scan, tenant, now, clock);
      assert r in s.runs && r !in Apply(s, op).1.ids ==> Untouched(s, Apply(s, op).0, r);
    case OpRecover(scan, tenant, now, clock) => RecoverMoves(s, scan, tenant, now, clock);
      assert r in s.runs && r !in Apply(s, op).1.ids ==> Untouched(s, Apply(s, op).0, r);
  }

  lemma OwnCallEnds(s: State, op: Op, status: Status)
    requires !op.OpExpire? && !op.OpRecover? && status in {Completed, Failed}
    requires Stands(Apply(s, op).0, op.run, status) && !Stands(s, op.run, status)
    ensures Ends(s, op, op.run, status) && op.run in s.runs
  {
    hide Commit;
    forall row, approval, bodies, clock | op.run in s.runs
      ensures op.run in Commit(s, op.run, row, approval, bodies, clock).runs
      ensures SameButAnchor(Commit(s, op.run, row, approval, bodies, clock).runs[op.run], row)
    {
      CommitRow(s, op.run, row, approval, bodies, clock);
    }
  }

  /** A call that makes a run completed. */
  predicate Completes(s: State, op: Op, r: RunId) { Ends(s, op, r, Completed) }

  // ---- The invariant ----

  /** A POST on the wire is the one its run gives rise to. */
  predicate Genuine(a: Adapter, y: Sys, post: Post) {
    Governs(a, y, post.params.run) && PostOf(a, post.params.run, Db(y).runs[post.params.run].q) == Some(post)
  }

  /** The provider holds run `r`'s payment: made by its POST, answered with its amount, currency and run id, and with a
      status among `statuses`. */
  predicate Covered(a: Adapter, x: World, r: RunId, statuses: seq<string>) {
    && Governs(a, x.y, r)
    && var post := PostOf(a, r, Db(x.y).runs[r].q);
    post.Some? && Answered(x, post.value)
    && ValidIntent(x.provider[post.value.key].intent, post.value.params)
    && x.provider[post.value.key].intent.status in statuses
  }

  /** Call `n` concluded run `r` by an operator's own word. */
  predicate HandAt(ops: seq<Op>, n: nat, r: RunId)
    requires n < |ops|
  {
    ops[n].OpReconcile? && ops[n].run == r && Apply(Reached(ops[..n]), ops[n]).1 == Flag(true)
  }

  ghost predicate ByHand(ops: seq<Op>, r: RunId) { exists n: nat :: n < |ops| && HandAt(ops, n, r) }

  /** Call `n` failed run `r` on a provider's definite word. */
  predicate DenialAt(ops: seq<Op>, n: nat, r: RunId)
    requires n < |ops|
  {
    ops[n].OpObserve? && ops[n].run == r && ops[n].o.outcome == "not_committed"
    && Apply(Reached(ops[..n]), ops[n]).1 == Flag(true)
  }

  ghost predicate DeniedByProbe(ops: seq<Op>, r: RunId) { exists n: nat :: n < |ops| && DenialAt(ops, n, r) }

  ghost predicate PostsSound(a: Adapter, x: World) {
    && (forall post :: post in x.sent ==> Genuine(a, x.y, post))
    && (forall key :: key in x.provider ==> Post(key, x.provider[key].params) in x.sent)
  }

  ghost predicate ValuesSound(a: Adapter, x: World) {
    forall w :: PcOf(x.y, w).Finishing? && PcOf(x.y, w).outcome.Value? && Governs(a, x.y, PcOf(x.y, w).run)
      ==> Covered(a, x, PcOf(x.y, w).run, COMMITTED)
  }

  ghost predicate CompletedSound(a: Adapter, x: World) {
    forall r :: Governs(a, x.y, r) && IsCompleted(Db(x.y), r) ==> Covered(a, x, r, COMMITTED) || ByHand(x.y.ops, r)
  }

  ghost predicate DeniedSound(a: Adapter, x: World) {
    forall r :: DeniedByProbe(x.y.ops, r) ==>
      r in Db(x.y).runs && (Governs(a, x.y, r) ==> Covered(a, x, r, NOT_COMMITTED))
  }

  ghost predicate Sound(a: Adapter, x: World) {
    Safe(x.y) && PostsSound(a, x) && ValuesSound(a, x) && CompletedSound(a, x) && DeniedSound(a, x)
  }

  /** Requests stay and payments stay. */
  ghost predicate Later(x: World, z: World) {
    && (forall r :: r in Db(x.y).runs ==> r in Db(z.y).runs && Db(z.y).runs[r].q == Db(x.y).runs[r].q)
    && x.sent <= z.sent
    && (forall key :: key in x.provider ==> key in z.provider && z.provider[key] == x.provider[key])
  }

  lemma CoveredStays(a: Adapter, x: World, z: World, r: RunId, statuses: seq<string>)
    requires Later(x, z) && Covered(a, x, r, statuses)
    ensures Covered(a, z, r, statuses)
  {
    hide Reached, ValidIntent, LookupParams;
  }

  lemma HandStays(ops: seq<Op>, op: Op, r: RunId)
    requires ByHand(ops, r)
    ensures ByHand(ops + [op], r)
  {
    hide Apply, Reached;
    var n: nat :| n < |ops| && HandAt(ops, n, r);
    assert (ops + [op])[..n] == ops[..n];
    assert HandAt(ops + [op], n, r);
  }

  lemma DenialWasThere(ops: seq<Op>, op: Op, r: RunId)
    requires DeniedByProbe(ops + [op], r)
    ensures DeniedByProbe(ops, r) || (op.OpObserve? && op.run == r && op.o.outcome == "not_committed"
                               && Apply(Reached(ops), op).1 == Flag(true))
  {
    hide Apply, Reached;
    var n: nat :| n < |ops + [op]| && DenialAt(ops + [op], n, r);
    assert (ops + [op])[..n] == ops[..n];
    if n < |ops| {
      assert DenialAt(ops, n, r);
    } else {
      assert ops[..n] == ops;
    }
  }

  lemma NextIsOnward(y: Sys, step: StepLabel)
    ensures Onward(Db(y), Db(Next(y, step)))
  {
    hide Reached, Next, OpOf, Onward;
    NextCommits(y, step);
    match OpOf(y, step)
    case None => OnwardReflexive(y);
    case Some(op) => CommitsOnward(y, op);
  }

  lemma OnwardReflexive(y: Sys)
    ensures Onward(Db(y), Db(y))
  {
    hide Reached;
    forall r | r in Db(y).runs ensures Db(y).runs[r].attempt <= 1 { AttemptIsStarts(y.ops, r); }
  }

  /** What a runtime step must bring with it to keep the payment claims. */
  predicate Backed(a: Adapter, x: World, step: StepLabel) {
    match step
    case Leave(w, outcome) => Charging(a, x, w) && outcome.Value? ==> Covered(a, x, PcOf(x.y, w).run, COMMITTED)
    case Client(op) =>
      && (op.OpFinish? && op.how.Complete? ==> !Governs(a, x.y, op.run))
      && (op.OpObserve? && Governs(a, x.y, op.run) ==>
           (op.o.outcome == "committed" ==> Covered(a, x, op.run, COMMITTED))
           && (op.o.outcome == "not_committed" ==> Covered(a, x, op.run, NOT_COMMITTED)))
    case _ => true
  }

  ghost predicate Steps(x: World, z: World, step: StepLabel) {
    z.y == Next(x.y, step) && z.sent == x.sent && z.provider == x.provider
  }

  lemma StepsLater(x: World, z: World, step: StepLabel)
    requires Steps(x, z, step)
    ensures Later(x, z)
  {
    hide Reached, Next;
    NextIsOnward(x.y, step);
  }

  lemma PostsStay(a: Adapter, x: World, z: World)
    requires Later(x, z) && PostsSound(a, x) && z.sent == x.sent && z.provider == x.provider
    ensures PostsSound(a, z)
  {
    hide Reached, LookupParams;
    forall post | post in z.sent ensures Genuine(a, z.y, post) { assert Genuine(a, x.y, post); }
  }

  lemma HolderKnown(y: Sys, w: nat)
    requires Safe(y) && Holds(PcOf(y, w))
    ensures PcOf(y, w).run in Db(y).runs
  {
    hide Reached;
  }

  lemma StepValues(a: Adapter, x: World, z: World, step: StepLabel, w: nat)
    requires Safe(x.y) && ValuesSound(a, x) && Steps(x, z, step) && Backed(a, x, step) && Later(x, z)
    requires PcOf(z.y, w).Finishing? && PcOf(z.y, w).outcome.Value? && Governs(a, z.y, PcOf(z.y, w).run)
    ensures Covered(a, z, PcOf(z.y, w).run, COMMITTED)
  {
    hide Safe, Reached, Covered, COMMITTED;
    var r := PcOf(z.y, w).run;
    if step.Leave? && step.w == w && PcOf(x.y, w).Inside? {
      assert PcOf(x.y, w).run == r;
    } else {
      hide Next;
      if step.Leave? && step.w == w { LeaveOnlyInside(x.y, w, step.outcome); } else { FinishingByLeave(x.y, step, w); }
    }
    hide Next;
    HolderKnown(x.y, w);
    CoveredStays(a, x, z, r, COMMITTED);
  }

  lemma LeaveOnlyInside(y: Sys, w: nat, outcome: FnResult)
    requires !PcOf(y, w).Inside?
    ensures Next(y, StepLabel.Leave(w, outcome)) == y
  {
  }

  lemma StepCompleted(a: Adapter, x: World, z: World, step: StepLabel, r: RunId)
    requires Safe(x.y) && ValuesSound(a, x) && CompletedSound(a, x)
    requires Steps(x, z, step) && Backed(a, x, step) && Later(x, z)
    requires Governs(a, z.y, r) && IsCompleted(Db(z.y), r)
    ensures Covered(a, z, r, COMMITTED) || ByHand(z.y.ops, r)
  {
    NextCommits(x.y, step);
    ReachedInv(x.y.ops);
    hide Safe, Reached, Covered, Next, Apply, Inv, COMMITTED;
    if OpOf(x.y, step).None? {
      OldCompletion(a, x, z, r);
    } else {
      var op := OpOf(x.y, step).value;
      CommitsOnward(x.y, op);
      if IsCompleted(Db(x.y), r) {
        OldCompletion(a, x, z, r);
      } else {
        WhatEnds(Db(x.y), op, r, Completed);
        NewCompletion(a, x, z, step, op, r);
      }
    }
  }

  lemma OldCompletion(a: Adapter, x: World, z: World, r: RunId)
    requires CompletedSound(a, x) && Later(x, z) && Governs(a, z.y, r) && IsCompleted(Db(x.y), r)
    requires z.y.ops == x.y.ops || exists op :: z.y.ops == x.y.ops + [op]
    ensures Covered(a, z, r, COMMITTED) || ByHand(z.y.ops, r)
  {
    hide Reached, Covered, ByHand, COMMITTED;
    if Covered(a, x, r, COMMITTED) {
      CoveredStays(a, x, z, r, COMMITTED);
    } else if z.y.ops != x.y.ops {
      var op :| z.y.ops == x.y.ops + [op];
      HandStays(x.y.ops, op, r);
    }
  }

  /** Which steps carry a report of an outcome to the ledger. */
  lemma ReportSource(y: Sys, step: StepLabel, op: Op)
    requires OpOf(y, step) == Some(op) && (op.OpFinish? || op.OpObserve?)
    ensures step == Client(op) || (op.OpFinish? && step.Finish? && PcOf(y, step.w).Finishing?
                                   && op.run == PcOf(y, step.w).run && op.how == FinishOf(PcOf(y, step.w).outcome))
  {
    hide RequestFingerprint;
  }

  lemma NewCompletion(a: Adapter, x: World, z: World, step: StepLabel, op: Op, r: RunId)
    requires ValuesSound(a, x) && Backed(a, x, step) && Later(x, z)
    requires OpOf(x.y, step) == Some(op) && z.y.ops == x.y.ops + [op]
    requires Completes(Db(x.y), op, r) && r in Db(x.y).runs && Governs(a, z.y, r)
    ensures Covered(a, z, r, COMMITTED) || ByHand(z.y.ops, r)
  {
    hide Reached, Covered, Apply, COMMITTED;
    if op.OpReconcile? {
      assert z.y.ops[..|x.y.ops|] == x.y.ops;
      assert HandAt(z.y.ops, |x.y.ops|, r);
    } else {
      ReportSource(x.y, step, op);
      hide OpOf;
      assert Covered(a, x, r, COMMITTED);
      CoveredStays(a, x, z, r, COMMITTED);
    }
  }

  lemma FlagMeansRun(s: State, op: Op)
    requires op.OpObserve? && Apply(s, op).1 == Flag(true)
    ensures op.run in s.runs
  {
    hide Commit;
  }

  lemma StepDenied(a: Adapter, x: World, z: World, step: StepLabel, r: RunId)
    requires DeniedSound(a, x) && Steps(x, z, step) && Backed(a, x, step) && Later(x, z) && DeniedByProbe(z.y.ops, r)
    ensures r in Db(z.y).runs && (Governs(a, z.y, r) ==> Covered(a, z, r, NOT_COMMITTED))
  {
    NextCommits(x.y, step);
    hide Reached, Covered, Next, Apply, NOT_COMMITTED;
    if OpOf(x.y, step).Some? {
      var op := OpOf(x.y, step).value;
      DenialWasThere(x.y.ops, op, r);
      hide DeniedByProbe;
      if !DeniedByProbe(x.y.ops, r) { FlagMeansRun(Db(x.y), op); }
    }
    hide DeniedByProbe;
    if Governs(a, z.y, r) { CoveredStays(a, x, z, r, NOT_COMMITTED); }
  }

  /** A backed runtime step keeps the invariant. */
  lemma StepSound(a: Adapter, x: World, z: World, step: StepLabel)
    requires Sound(a, x) && Steps(x, z, step) && Backed(a, x, step)
    ensures Sound(a, z)
  {
    hide Reached, Covered, Backed, Next, Safe, ByHand, DeniedByProbe;
    SafeNext(x.y, step);
    StepsLater(x, z, step);
    PostsStay(a, x, z);
    hide Later, PostsSound;
    forall w | PcOf(z.y, w).Finishing? && PcOf(z.y, w).outcome.Value? && Governs(a, z.y, PcOf(z.y, w).run) {
      StepValues(a, x, z, step, w);
    }
    forall r | Governs(a, z.y, r) && IsCompleted(Db(z.y), r) { StepCompleted(a, x, z, step, r); }
    forall r | DeniedByProbe(z.y.ops, r) { StepDenied(a, x, z, step, r); }
  }

  /** Events on the wire keep the invariant. */
  lemma WireSound(a: Adapter, x: World, z: World)
    requires Sound(a, x) && z.y == x.y && PostsSound(a, z) && Later(x, z)
    ensures Sound(a, z)
  {
    hide Reached, Covered, Safe, ByHand, DeniedByProbe, PostsSound, COMMITTED, NOT_COMMITTED;
    forall r | Covered(a, x, r, COMMITTED) ensures Covered(a, z, r, COMMITTED) { CoveredStays(a, x, z, r, COMMITTED); }
    forall r | Covered(a, x, r, NOT_COMMITTED) ensures Covered(a, z, r, NOT_COMMITTED) {
      CoveredStays(a, x, z, r, NOT_COMMITTED);
    }
  }

  /** A charge sends its run's own POST. */
  lemma ChargeIsGenuine(a: Adapter, x: World, w: nat)
    requires Converts(a) && Safe(x.y) && Charging(a, x, w) && ChargePost(a, x, w).Some?
    ensures ChargePost(a, x, w) == PostOf(a, PcOf(x.y, w).run, Db(x.y).runs[PcOf(x.y, w).run].q)
    ensures Genuine(a, x.y, ChargePost(a, x, w).value)
  {
    hide Reached, LookupParams, ChargeParams;
    var pc := PcOf(x.y, w);
    ChargeArguments(x.y, w);
    ProbeRepeatsCharge(a, pc.run, pc.args);
    ParamsNameRun(a, pc.run, pc.args);
  }

  lemma ChargeArguments(y: Sys, w: nat)
    requires Safe(y) && PcOf(y, w).Inside?
    ensures Governed(y, PcOf(y, w).run, PcOf(y, w).args)
  {
    hide Reached;
  }

  lemma ParamsNameRun(a: Adapter, r: RunId, args: map<string, Json>)
    ensures LookupParams(a, r, args).Some? ==> LookupParams(a, r, args).value.run == r
  {
  }

  lemma AnswerCovers(a: Adapter, x: World, r: RunId)
    requires Governs(a, x.y, r) && PostOf(a, r, Db(x.y).runs[r].q).Some?
    requires Answered(x, PostOf(a, r, Db(x.y).runs[r].q).value)
    ensures
      var post := PostOf(a, r, Db(x.y).runs[r].q).value;
      var intent := x.provider[post.key].intent;
      && (forall ok: bool :: ChargeVerdict(intent, post.params, ok).Value? ==> Covered(a, x, r, COMMITTED))
      && (forall ok: bool :: ChargeVerdict(intent, post.params, ok).Failure? ==> Covered(a, x, r, NOT_COMMITTED))
      && (LookupVerdict(intent, post.params).Some? ==>
           var o := LookupVerdict(intent, post.params).value;
           (o.outcome == "committed" ==> Covered(a, x, r, COMMITTED))
           && (o.outcome == "not_committed" ==> Covered(a, x, r, NOT_COMMITTED)))
  {
    hide Reached, LookupParams, ValidIntent;
  }

  // ---- Every step keeps it ----

  lemma PermittedIsBacked(a: Adapter, x: World, step: StepLabel)
    requires Permitted(a, x, step)
    ensures Backed(a, x, step)
  {
    hide Reached, Covered;
  }

  lemma LeavesSound(a: Adapter, x: World, w: nat, outcome: FnResult)
    requires Sound(a, x)
    requires Charging(a, x, w) && outcome.Value? ==> Covered(a, x, PcOf(x.y, w).run, COMMITTED)
    ensures Sound(a, Leaves(x, w, outcome))
  {
    hide Sound, Reached, Covered, Next, Charging;
    StepSound(a, x, Leaves(x, w, outcome), StepLabel.Leave(w, outcome));
  }

  lemma SentSound(a: Adapter, x: World, z: World, post: Post)
    requires Sound(a, x) && Genuine(a, x.y, post)
    requires z.y == x.y && z.sent == x.sent + {post} && z.provider == x.provider
    ensures Sound(a, z)
  {
    hide Reached, Genuine, Safe, ValuesSound, CompletedSound, DeniedSound;
    WireSound(a, x, z);
  }

  lemma DeliverSound(a: Adapter, x: World, post: Post, intent: Intent)
    requires Sound(a, x)
    ensures Sound(a, Advance(a, x, Deliver(post, intent)))
  {
    hide Reached, Genuine, Safe, ValuesSound, CompletedSound, DeniedSound, Charging, LookupAllowed, Governs;
    WireSound(a, x, Advance(a, x, Deliver(post, intent)));
  }

  lemma HearChargeSound(a: Adapter, x: World, w: nat, heard: Heard, serializable: bool)
    requires Converts(a) && Sound(a, x)
    ensures Sound(a, Advance(a, x, HearCharge(w, heard, serializable)))
  {
    hide Reached, ChargeVerdict, Covered, ChargePost, PostOf, Leaves, Safe;
    hide PostsSound, ValuesSound, CompletedSound, DeniedSound;
    if Charging(a, x, w) && w in x.waiting {
      var z := x.(heard := x.heard[PcOf(x.y, w).run := heard]);
      HeardSound(a, x, z);
      match heard
      case Exception(errorType) => LeavesSound(a, z, w, RaisedVerdict(a, errorType));
      case Response =>
        var post := ChargePost(a, x, w);
        if post.Some? && Answered(x, post.value) {
          ChargeAnswered(a, x, w, serializable);
          SameCover(a, x, z, PcOf(x.y, w).run);
          LeavesSound(a, z, w, ChargeVerdict(x.provider[post.value.key].intent, post.value.params, serializable));
        }
    }
  }

  /** The history variables say nothing about payments. */
  lemma HeardSound(a: Adapter, x: World, z: World)
    requires Sound(a, x) && z.y == x.y && z.sent == x.sent && z.provider == x.provider
    ensures Sound(a, z)
  {
    hide Reached, Safe, ValuesSound, CompletedSound, DeniedSound, LookupParams;
    WireSound(a, x, z);
  }

  lemma SameCover(a: Adapter, x: World, z: World, r: RunId)
    requires z.y == x.y && z.sent == x.sent && z.provider == x.provider
    ensures forall statuses :: Covered(a, x, r, statuses) <==> Covered(a, z, r, statuses)
  {
    hide Reached, LookupParams, ValidIntent;
  }

  lemma ChargeAnswered(a: Adapter, x: World, w: nat, serializable: bool)
    requires Converts(a) && Safe(x.y) && Charging(a, x, w)
    requires ChargePost(a, x, w).Some? && Answered(x, ChargePost(a, x, w).value)
    ensures
      var post := ChargePost(a, x, w).value;
      var verdict := ChargeVerdict(x.provider[post.key].intent, post.params, serializable);
      && (verdict.Value? ==> Covered(a, x, PcOf(x.y, w).run, COMMITTED))
      && (verdict.Failure? ==> Covered(a, x, PcOf(x.y, w).run, NOT_COMMITTED))
  {
    hide Reached, ChargePost, PostOf, ChargeVerdict, LookupVerdict, Covered, Safe;
    ChargeIsGenuine(a, x, w);
    AnswerCovers(a, x, PcOf(x.y, w).run);
  }

  lemma HearLookupSound(a: Adapter, x: World, r: RunId, p: Principal, now: Time, clock: Clock)
    requires Sound(a, x)
    ensures Sound(a, Advance(a, x, HearLookup(r, p, now, clock)))
  {
    hide Reached, Safe, Covered, PostOf, LookupVerdict, ChargeVerdict, Next;
    hide PostsSound, ValuesSound, CompletedSound, DeniedSound;
    if (r, p) in x.lookups && Governs(a, x.y, r) {
      var post := PostOf(a, r, Db(x.y).runs[r].q);
      if post.Some? && Answered(x, post.value) {
        var o := LookupVerdict(x.provider[post.value.key].intent, post.value.params);
        if o.Some? {
          AnswerCovers(a, x, r);
          var step := Client(OpObserve(r, o.value, p, now, clock));
          StepSound(a, x, x.(y := Next(x.y, step)), step);
        }
      }
    }
  }

  lemma SendChargeSound(a: Adapter, x: World, w: nat, error: string)
    requires Converts(a) && Sound(a, x)
    ensures Sound(a, Advance(a, x, SendCharge(w, error)))
  {
    hide Reached, Safe, Genuine, ChargePost, Leaves, PostsSound, ValuesSound, CompletedSound, DeniedSound, Charging;
    if Charging(a, x, w) && w !in x.waiting {
      if ChargePost(a, x, w).None? {
        LeavesSound(a, x, w, UnsentVerdict(a, x, w, error));
      } else {
        ChargeIsGenuine(a, x, w);
        SentSound(a, x, Advance(a, x, SendCharge(w, error)), ChargePost(a, x, w).value);
      }
    }
  }

  lemma SendLookupSound(a: Adapter, x: World, r: RunId, p: Principal, now: Time)
    requires Sound(a, x)
    ensures Sound(a, Advance(a, x, SendLookup(r, p, now)))
  {
    hide Reached, Safe, LookupParams, PostsSound, ValuesSound, CompletedSound, DeniedSound;
    if LookupAllowed(a, x, r, p, now) {
      var q := Db(x.y).runs[r].q;
      ParamsNameRun(a, r, q.args);
      SentSound(a, x, Advance(a, x, SendLookup(r, p, now)), PostOf(a, r, q).value);
    }
  }

  lemma AdvanceSound(a: Adapter, x: World, step: WorldStep)
    requires Converts(a) && Sound(a, x)
    ensures Sound(a, Advance(a, x, step))
  {
    hide Reached, Sound, Advance;
    match step
    case Work(inner) => WorkSound(a, x, inner);
    case SendCharge(w, error) => SendChargeSound(a, x, w, error);
    case Deliver(post, intent) => DeliverSound(a, x, post, intent);
    case HearCharge(w, heard, serializable) => HearChargeSound(a, x, w, heard, serializable);
    case SendLookup(r, p, now) => SendLookupSound(a, x, r, p, now);
    case HearLookup(r, p, now, clock) => HearLookupSound(a, x, r, p, now, clock);
  }

  lemma WorkSound(a: Adapter, x: World, inner: StepLabel)
    requires Sound(a, x)
    ensures Sound(a, Advance(a, x, WorldStep.Work(inner)))
  {
    hide Reached, Sound, Next, Permitted, Backed;
    if Permitted(a, x, inner) {
      PermittedIsBacked(a, x, inner);
      StepSound(a, x, Advance(a, x, WorldStep.Work(inner)), inner);
    }
  }

  lemma OutsetSound(a: Adapter)
    ensures Sound(a, Outset)
  {
    assert Db(Start) == Empty;
  }

  lemma {:induction false} CourseSound(a: Adapter, steps: seq<WorldStep>)
    requires Converts(a)
    ensures Sound(a, Course(a, steps))
  {
    hide Sound, Advance, Reached;
    if steps == [] {
      OutsetSound(a);
    } else {
      CourseSound(a, steps[..|steps| - 1]);
      AdvanceSound(a, Course(a, steps[..|steps| - 1]), steps[|steps| - 1]);
    }
  }

  // ---- The end-to-end laws ----

  /** Some course of events leads here. */
  ghost predicate Arrived(a: Adapter, x: World) { exists steps: seq<WorldStep> :: Course(a, steps) == x }

  lemma ArrivedNext(a: Adapter, x: World, step: WorldStep)
    requires Arrived(a, x)
    ensures Arrived(a, Advance(a, x, step))
  {
    hide Advance;
    var steps: seq<WorldStep> :| Course(a, steps) == x;
    assert (steps + [step])[..|steps|] == steps;
    assert Course(a, steps + [step]) == Advance(a, x, step);
  }

  lemma ArrivedSound(a: Adapter, x: World)
    requires Converts(a) && Arrived(a, x)
    ensures Sound(a, x)
  {
    hide Course, Sound;
    var steps: seq<WorldStep> :| Course(a, steps) == x;
    CourseSound(a, steps);
  }

  /** Over any mix of charges, lost answers, repeated deliveries, retries, crashes and probe lookups, the provider makes
      at most one payment per run, and makes it with the run's own key, amount, currency and invoice. */
  lemma OnePaymentPerRun(a: Adapter, x: World)
    requires Converts(a) && Arrived(a, x)
    ensures forall key :: key in x.provider ==> Genuine(a, x.y, Post(key, x.provider[key].params))
    ensures forall key, other :: key in x.provider && other in x.provider && key != other ==>
      x.provider[key].params.run != x.provider[other].params.run
  {
    ArrivedSound(a, x);
    hide Reached, Arrived, Safe, ValuesSound, CompletedSound, DeniedSound, LookupParams, StripeKey;
    forall key | key in x.provider ensures Genuine(a, x.y, Post(key, x.provider[key].params)) {}
  }

  /** A payment run that completed, other than by an operator's own word, has its succeeded payment at the provider. */
  lemma CompletedIsPaid(a: Adapter, x: World, r: RunId)
    requires Converts(a) && Arrived(a, x)
    requires Governs(a, x.y, r) && Db(x.y).runs[r].status == Completed && !ByHand(x.y.ops, r)
    ensures Covered(a, x, r, COMMITTED)
  {
    ArrivedSound(a, x);
    hide Reached, Arrived, Safe, ValuesSound, PostsSound, DeniedSound, Covered, ByHand;
  }

  /** A payment run that failed on the probe's word has no succeeded payment, then or ever after. */
  lemma DeniedIsUnpaid(a: Adapter, x: World, r: RunId)
    requires Converts(a) && Arrived(a, x)
    requires Governs(a, x.y, r) && DeniedByProbe(x.y.ops, r)
    ensures forall key :: key in x.provider && x.provider[key].params.run == r ==>
      x.provider[key].intent.status in NOT_COMMITTED && x.provider[key].intent.status !in COMMITTED
  {
    ArrivedSound(a, x);
    OnePaymentPerRun(a, x);
    hide Reached, Arrived, Safe, ValuesSound, CompletedSound, PostsSound, LookupParams, StripeKey, ValidIntent;
    hide DeniedByProbe;
    assert Covered(a, x, r, NOT_COMMITTED);
    forall key | key in x.provider && x.provider[key].params.run == r
      ensures x.provider[key].intent.status in NOT_COMMITTED && x.provider[key].intent.status !in COMMITTED
    {
      assert Genuine(a, x.y, Post(key, x.provider[key].params));
    }
  }

  // ---- In plain terms ----

  /** The only POST a stored run gives rise to: under its own key, for its own amount, currency, invoice and run id, and
      only when the provider's rules allow them. */
  lemma PostSays(a: Adapter, r: RunId, q: Request)
    ensures
      var amount := if "amount" in q.args then a.number(q.args["amount"]) else None;
      match PostOf(a, r, q)
      case None => true
      case Some(post) =>
        && "invoice_id" in q.args && "currency" in q.args
        && post.key == Strip(q.key) && 1 <= |post.key| <= 255 && post.params.run == r
        && amount == Some(post.params.amount) && 50 <= post.params.amount
        && post.params.currency == a.lower(Strip(a.text(q.args["currency"])))
        && |post.params.currency| == 3 && a.isAlpha(post.params.currency)
        && post.params.invoice == Strip(a.text(q.args["invoice_id"])) && 1 <= |post.params.invoice| <= 100
  {
  }

  /** The provider's answer speaks of this request: a sandbox payment of its amount and currency, for its run and
      invoice, under a payment's id. */
  predicate SpeaksOf(intent: Intent, params: Params) {
    && intent.live == false && intent.amount == params.amount && intent.currency == params.currency
    && "pi_" <= intent.id
    && {"agenttrustops_run_id", "synthetic_invoice_id"} <= intent.metadata.Keys
    && intent.metadata["agenttrustops_run_id"] == params.run
    && intent.metadata["synthetic_invoice_id"] == params.invoice
  }

  /** Charge ends with a value exactly on a succeeded payment of its request, fails exactly on a refused one, and is
      otherwise uncertain; the value is the payment's own id, status, amount and currency. */
  lemma ChargeVerdictExact(intent: Intent, params: Params, serializable: bool)
    ensures
      var verdict := ChargeVerdict(intent, params, serializable);
      && (verdict.Value? <==> SpeaksOf(intent, params) && intent.status == "succeeded")
      && (verdict.Failure? <==>
           SpeaksOf(intent, params) && (intent.status == "canceled" || intent.status == "requires_payment_method"))
      && (verdict.Value? ==> verdict.serializable == serializable && verdict.result == Some(JObj(map[
            "payment_intent_id" := JStr(intent.id), "status" := JStr("succeeded"), "amount" := JNum(params.amount),
            "currency" := JStr(params.currency), "livemode" := JBool(false)])))
      && (!verdict.Value? && !verdict.Failure? ==> verdict == Indeterminate("IndeterminateOutcome"))
  {
    SpeaksIsValid(intent, params);
    hide ValidIntent;
  }

  lemma SpeaksIsValid(intent: Intent, params: Params)
    ensures ValidIntent(intent, params) <==> SpeaksOf(intent, params)
  {
  }

  /** What a provider's status means for the run, if anything. */
  function Meaning(status: string): Option<ProviderOutcome> {
    if status == "succeeded" then Some(Committed)
    else if status == "canceled" || status == "requires_payment_method" then Some(NotCommitted)
    else if status == "processing" || status == "requires_action" || status == "requires_capture"
            || status == "requires_confirmation" then Some(Pending)
    else None
  }

  /** The probe's verdict is what any probe's answer becomes, for an answer that speaks of the request, has a known
      status and a short id; for any other answer there is none. */
  lemma LookupVerdictExact(intent: Intent, params: Params)
    ensures
      var safe := JObj(map[
        "payment_intent_id" := JStr(intent.id), "status" := JStr(intent.status), "amount" := JNum(params.amount),
        "currency" := JStr(params.currency), "livemode" := JBool(false)]);
      LookupVerdict(intent, params) ==
        if SpeaksOf(intent, params) && Meaning(intent.status).Some? && |Strip(intent.id)| <= 255 then
          Some(ObservationFrom("stripe-sandbox", Probed(
            Meaning(intent.status).value, "Stripe Sandbox PaymentIntent status is " + intent.status,
            Some(Strip(intent.id)), Some(safe))))
        else None
  {
    SpeaksIsValid(intent, params);
    hide ValidIntent, Strip;
    var safe := SafeResult(intent);
    var reference := JStr(Strip(intent.id));
    assert map["provider" := JStr(PROVIDER)] + map["provider_reference" := reference] + map["safe_result" := safe]
        == map["provider" := JStr(PROVIDER), "provider_reference" := reference, "safe_result" := safe];
  }

  /** A payment run that completed, other than by an operator's own word, was paid as it asked: the provider holds,
      under its key, one succeeded sandbox payment of its amount and currency for its run and invoice. */
  lemma PaidAsAsked(a: Adapter, x: World, r: RunId)
    requires Converts(a) && Arrived(a, x)
    requires Governs(a, x.y, r) && Db(x.y).runs[r].status == Completed && !ByHand(x.y.ops, r)
    ensures
      var q := Db(x.y).runs[r].q;
      && {"invoice_id", "amount", "currency"} <= q.args.Keys && Strip(q.key) in x.provider
      && var intent := x.provider[Strip(q.key)].intent;
      && intent.status == "succeeded" && !intent.live && "pi_" <= intent.id
      && Some(intent.amount) == a.number(q.args["amount"]) && 50 <= intent.amount
      && intent.currency == a.lower(Strip(a.text(q.args["currency"])))
      && {"agenttrustops_run_id", "synthetic_invoice_id"} <= intent.metadata.Keys
      && intent.metadata["agenttrustops_run_id"] == r
      && intent.metadata["synthetic_invoice_id"] == Strip(a.text(q.args["invoice_id"]))
  {
    CompletedIsPaid(a, x, r);
    hide Reached, Arrived, ByHand;
    PostSays(a, r, Db(x.y).runs[r].q);
    hide PostOf;
  }
}
