# A verified model of the governed-action ledger

AgentTrustOps puts business actions behind a policy check, an optional human approval and an idempotency key, and keeps
the evidence in an action ledger. This project models that ledger and the code around it in Dafny 4.11 and proves what
the design promises. `dafny verify dfyconfig.toml` checks everything.

## How the model is laid out

- **Values.** `text.dfy` has code-point order, `strip` and name normalisation; `models.dfy` has the status and policy
  types and the request fingerprint. Digests, hashes, keys and signatures are free datatype constructors, so two are
  equal only when made from equal parts; JSON objects are maps, so key order carries no meaning.
- **Trails.** `trails.dfy` gives a run's events their hash chain and a replay automaton: folding the events gives back
  the run's state, and any event the code could not have written there breaks the replay. `trailfacts.dfy` draws
  consequences.
- **Ledger.** `ledgerspec.dfy` states each public call as a function on the tables. `ledgerproofs.dfy`,
  `ledgersteps.dfy` and `ledgersweeps.dfy` prove that every call keeps one joint invariant: status column, approval
  row, unique index, event trail, hash chain and anchor are views of one another. `histories.dfy` lifts this to every
  finite history of calls. `effects.dfy` spells out, column by column and event by event, what each call does to the
  run it names, and `policycalls.dfy` traces every won claim back to the policy call it rests on. `ledger.dfy` is the
  ledger object, its fields updated in place by one method per public call; each method's contract equates the tables
  it leaves and the reply it gives with the specification.
- **Runtime.** `runtime.dfy` has any number of workers, each with a program counter, interleaving ledger calls with
  crashes and every other client. `trustedaction.dfy` is the same code in program order, proved to be one of those
  interleavings. `answers.dfy` says, field by field, what callers are told and when protected code is entered: for a
  denied, a waiting, an allowed, a repeated and a resumed call. `idempotency.dfy` says what a repeated invocation
  sees, `tenantworkers.dfy` what workers of one tenant leave alone, and `operators.dfy` who may resolve an unknown run
  and what comes of it.
- **Around it.** `metrics.dfy` and `duplicates.dfy` (counts and conservation), `tenancy.dfy` (framing by tenant),
  `postgres.dfy` (event appends as micro-steps under the per-run row lock), `backfill.dfy` (opening a version 1 file),
  `isotime.dfy` (stored instants as text), `exposition.dfy` and `observability.dfy` (the Prometheus text exposition
  format 0.0.4 and the renderer), `stripe.dfy`, `stripefailures.dfy` and `stripeadapter.dfy` (the payment adapter and
  its probe over a provider idempotent by key), `audit.dfy` (bundles). `edges.dfy` shows where the code promises less
  than a reader may expect, and how much it does.

## Reading the model

- `now` is a call's own clock sample and `clock(k)` the sample its k-th event takes. Nothing relates samples of
  different calls: the code reads the clock before it opens its transaction, so commit order need not follow clock order,
  and no safety theorem assumes it does. Instants are integers, microseconds on one time line; `isotime.dfy` ties them to
  the stored texts.
- `scan` is the order in which the engine happens to visit a table; theorems hold for every order.
- A call that raises leaves the tables as they were. An (event type, payload) pair is one `Body` value; `Foreign` is a
  row this release never writes, and only migrated or edited files hold one.
- A worker's heartbeats, recoveries, approvals and reconciliations by others are `Client` steps: any ledger call, at any
  time, with any arguments.
- `InvalidTransition` is neither a `ValueError` nor a `TypeError`, so the executor's handler around `complete_execution`
  lets it through and the worker aborts; the model does the same. A result that cannot be serialised is reported as
  uncertain.
- docs/architecture.md:39-42 says an unknown run is resolved only by a same-tenant principal with a reconciliation role.
  The role is checked by the runtime (src/agenttrustops/runtime.py:376-391, 457-476); the ledger calls themselves check
  only the tenant. `ledger.dfy` follows the code, and `operators.dfy` proves the law for runs resolved through the runtime.
- The Stripe model assumes that only the adapter's own code reports on its runs: no other client finishes them with a
  definite report (finishing takes the worker's random owner token) or applies a provider observation to them, and
  protected code returns no value, and no failure once its POST is sent, except what the adapter makes of what it heard.
  Everything else any client may do. `lower`, `isalpha`, `str` and `int` are parameters of the adapter, constrained only
  where the value already has the type. `ambiguous` is the adapter's set of ambiguous exception types; it is empty when a
  payment resource is passed without one (src/agenttrustops/integrations/stripe_sandbox.py:66-71), and then every
  exception counts as definite.

## Model

| member | source | states |
|---|---|---|
| Text.NormalizeAgrees | src/agenttrustops/models.py:97-112 | two role or evidence lists normalise to the same tuple exactly when they name the same set after padding, order, repetition and blanks are ignored |
| Text.StripIdempotent | src/agenttrustops/integrations/stripe_sandbox.py:257-261 | stripping twice is stripping once, so a key the runtime stripped reaches the provider unchanged |
| Text.StripSays | src/agenttrustops/models.py:88-112 | stripping drops exactly the white space at both ends |
| Models.FingerprintAgrees | src/agenttrustops/ledger.py:40-65 | two callers' requests have one fingerprint exactly when tenant, actor, name sets, risk, arguments and metadata agree |
| Models.ContextSays | src/agenttrustops/models.py:88-117 | a context exists exactly when actor and tenant are not blank, and holds them without padding with each nonblank role and evidence name once, in order |
| Trails.HeadPinsRows | src/agenttrustops/ledger.py:328-345 | two sealed row lists of a run with the same head hash are equal in type, payload, time and order |
| Trails.AnchorPinsTrail | src/agenttrustops/ledger.py:1173-1196 | against an anchor some trail satisfies, another row list verifies if and only if it is that trail |
| Trails.ReplayCoherent | src/agenttrustops/ledger.py:519-581 | any replayable trail leads to a view in which approval status, bindings, owner and attempt fit the phase |
| Trails.ReplayCounts | src/agenttrustops/ledger.py:900-951 | the view a trail replays to fixes how many starts, exits, conclusions, approval requests and approval answers the trail holds |
| TrailFacts.TerminalEnds | docs/architecture.md:21-37 | a replayable trail stops where it reaches a terminal status |
| TrailFacts.ObservationConcluded | src/agenttrustops/ledger.py:1066-1115 | a definitive provider observation is followed at once by the one matching conclusion, and that ends the trail |
| TrailFacts.OneExitOneConclusion | src/agenttrustops/ledger.py:900-1027 | at most one start; each execution leaves by exactly one exit; each uncertain exit has at most one conclusion |
| TrailFacts.ReplayOutcome | src/agenttrustops/ledger.py:519-581 | the policy version and digest a trail leads to, and the outcome behind its phase, are those of its last policy check |
| LedgerProofs.AppendFacts | src/agenttrustops/ledger.py:347-400 | one append keeps its run's anchor verified, steps its replay by that event, and touches no other run's row, approval or trail |
| LedgerProofs.CommitKeeps | src/agenttrustops/ledger.py:500-581 | a row rewrite whose events replay to the rewritten row keeps the joint invariant of rows, approvals, index, trails and anchors |
| LedgerSteps.ApprovalMirrors | src/agenttrustops/ledger.py:519-569 | an approval mirrors its run until execution and stays approved after; its fingerprint, policy and requester are the run's |
| Histories.DecisionExact | src/agenttrustops/ledger.py:583-678 | in every reachable ledger a decision answers KeyError, a refusal, true or false exactly by who decides and whether the request is pending and unexpired; the inconsistency error and the binding-mismatch refusal are never the answer |
| LedgerSteps.ColumnsMirrorStatus | src/agenttrustops/ledger.py:786-818 | owner and lease are set exactly while executing; attempt is 1 exactly from execution on; every status past created has a policy version |
| LedgerSteps.PolicyStep | src/agenttrustops/ledger.py:489-581 | a policy decision keeps the invariant, moves its run only forward, starts nothing and approves nothing |
| LedgerSteps.DecideStep | src/agenttrustops/ledger.py:583-692 | an approval decision keeps the invariant, and a granted one records exactly the principal's approval and touches one run |
| LedgerSteps.ClaimStep | src/agenttrustops/ledger.py:755-819 | a claim keeps the invariant and is won only at attempt 0, leaving attempt 1, executing, owned by the claimer, one run touched |
| LedgerSteps.FinishStep | src/agenttrustops/ledger.py:887-921 | finishing keeps the invariant, moves its run only forward, starts nothing and approves nothing |
| LedgerSteps.ReconcileStep | src/agenttrustops/ledger.py:977-1027 | an operator's conclusion keeps the invariant and moves its run only forward |
| LedgerSteps.ObserveStep | src/agenttrustops/ledger.py:1029-1115 | a provider observation keeps the invariant and moves its run only forward |
| LedgerSweeps.RecoverExact | src/agenttrustops/ledger.py:953-975 | recovery returns exactly the in-scope runs whose lease is due, once each, moves those and no others, and leaves none due |
| LedgerSweeps.RecoverTwice | src/agenttrustops/ledger.py:953-975 | a second recovery at the same instant returns nothing and changes nothing, whatever order it scans in |
| LedgerSweeps.RenewOrRecover | src/agenttrustops/ledger.py:832-846 | at every instant an executing run is either renewable by its owner or recoverable, never both |
| LedgerSweeps.ExpireExact | src/agenttrustops/ledger.py:694-753 | the approval sweep never reaches its rollback branch, returns exactly the overdue in-scope runs, moves those and no others, and leaves none overdue |
| LedgerSweeps.ExpireTwice | src/agenttrustops/ledger.py:694-753 | a second approval sweep at the same instant returns nothing and changes nothing |
| Histories.ApplyKeeps | src/agenttrustops/ledger.py:405-1115 | every public call keeps the joint invariant and only moves rows forward; only a won claim starts, only a granting decision approves |
| Histories.ReachedInv | src/agenttrustops/ledger.py:405-1115 | the joint invariant holds after every finite history of calls, with arbitrary clock samples |
| Histories.ReplayRefinement | src/agenttrustops/ledger.py:462-1114 | in every reachable ledger, folding a run's trail gives back its status, policy version and digest, reason, owner, attempt and approval, and its chain verifies |
| Histories.AtMostFiveChanges | docs/architecture.md:21-37 | a run changes status at most five times, statuses only climb a rank, and an ended run changes nothing but its duplicate count |
| Histories.AttemptIsStarts | src/agenttrustops/ledger.py:786-818 | the attempt column equals the number of won claims, which is 0 or 1 |
| Histories.NoTwoStarts | src/agenttrustops/ledger.py:423-461 | no two won claims in any history share a (tenant, action, key) |
| Histories.StartIsAuthorised | src/agenttrustops/ledger.py:583-692 | every won claim rests on a last policy outcome of allow, or of approval-required answered by an earlier proper grant, under the policy the run still holds |
| Histories.OneExitOneConclusionEverywhere | src/agenttrustops/ledger.py:900-1115 | in every reachable ledger each execution has one exit, each uncertain exit at most one conclusion across both reconciliation routes, and definitive observations end the trail with the matching conclusion |
| Effects.CreateEffect | src/agenttrustops/ledger.py:405-474 | a first request under its key inserts a created run holding exactly the request, indexed, with one creation event; a known key gives its run or a conflict by the stored fingerprint and changes nothing |
| Effects.PolicyEffect | src/agenttrustops/ledger.py:489-581 | the outcome given fixes the status (allow: created, deny: denied, approval required: pending); version, digest, reason and facts are the decision's own, an approval row exists exactly when one is asked for, bound to the request and due ttl seconds from now, and exactly the events of that outcome are added; the refusals come in the code's order |
| Effects.DecideEffect | src/agenttrustops/ledger.py:583-692 | a decision by someone who may decide a pending request is recorded as made, with the principal and note, or lapses at or after expiry, with its one event; any other call changes nothing |
| Effects.ClaimEffect | src/agenttrustops/ledger.py:755-819 | a claim takes a due lease away, or wins a decided created or an approved run for exactly the seconds asked for, with the same instant in its started event and not due before then, or changes nothing |
| Effects.HeartbeatEffect | src/agenttrustops/ledger.py:821-846 | an accepted heartbeat moves the lease end to exactly the seconds asked for from now and touches nothing else; it is accepted only from the owner before the lease ends |
| Effects.FinishEffect | src/agenttrustops/ledger.py:848-921 | the owner's report of a completion leaves completed, the result, no reason and the events succeeded and completed; a failure or an uncertain end leaves its status, its reason text, no result and its one event; any other report is refused and changes nothing |
| Effects.ReconcileEffect | src/agenttrustops/ledger.py:977-1027 | a same-tenant conclusion of an unknown run leaves the status, reason and result as given and one event naming the principal; otherwise the code's refusals in its order |
| Effects.ObserveEffect | src/agenttrustops/ledger.py:1029-1115 | a committed or not committed observation of an unknown run leaves completed or failed, the observed result and the lookup reason, with the observation and the conclusion on the trail; a pending one adds only the observation |
| Effects.MalformedObservation | src/agenttrustops/ledger.py:1043-1051 | an observation whose outcome, status and result disagree is refused and changes nothing |
| Effects.RecoverEffect | src/agenttrustops/ledger.py:923-975 | each run the lease sweep returns is unknown, nobody's, with the lease-expired reason and one event; no other run moved |
| Effects.ExpireEffect | src/agenttrustops/ledger.py:694-753 | each request the approval sweep returns has lapsed on run and approval with one event carrying its own expiry; no other run moved |
| PolicyCalls.LastCheckIsLastCall | src/agenttrustops/ledger.py:509-580 | in every history the last policy check on a run's trail is, word for word, the last decision given on it that the ledger took |
| PolicyCalls.StartRestsOnPolicy | src/agenttrustops/ledger.py:786-803 | every won claim rests on a policy call in the history on that run whose own outcome was allow, or approval required answered by a later proper grant, and whose version and digest the run holds |
| Metrics.TrailsPartition | src/agenttrustops/ledger.py:1289-1301 | counting events of in-scope runs is summing per-run counts over the trails |
| Metrics.Conservation | src/agenttrustops/ledger.py:1278-1336 | started = succeeded + failed + uncertain + lease expired + executing; unknown + reconciled = uncertain + lease expired; requests = answers + pending; events = sum of anchors, for every history and tenant filter |
| Metrics.ExpiredPendingIsOverdue | src/agenttrustops/ledger.py:1325-1336 | the expired_pending figure counts exactly what an approval sweep at that instant would move |
| Tenancy.TenantFrame | src/agenttrustops/ledger.py:712-714 | any stretch of ledger calls that carry one tenant (by context, principal, sweep filter, or the run they name) leaves every other tenant's rows, approvals and trails as they were |
| TenantWorkers.CrewFrame | src/agenttrustops/runtime.py:239-318 | over any stretch in which workers invoke with one tenant's context, resume its runs and execute, and other clients' calls carry it, those workers go on working for it and every other tenant's runs, approvals and trails stay; that each worker's own call carries the tenant is derived |
| TenantWorkers.CrewCountsFrame | src/agenttrustops/ledger.py:1278-1336 | and every count another tenant reads stays |
| Tenancy.CountsFrame | src/agenttrustops/ledger.py:1278-1336 | such a stretch of calls leaves every other tenant's status, approval, event and duplicate counts as they were |
| Duplicates.CountIsRecorded | src/agenttrustops/ledger.py:476-487 | a run's duplicate count is the number of duplicate calls recorded on it; nothing else touches it |
| Duplicates.DuplicatesConserved | src/agenttrustops/ledger.py:1303-1311 | the duplicate figure a tenant reads is the number of duplicate calls recorded on its runs |
| Ledger.SQLiteActionLedger.constructor | src/agenttrustops/ledger.py:80-88 | a new ledger is the state of the empty history |
| Ledger.SQLiteActionLedger.AppendEvent | src/agenttrustops/ledger.py:347-400 | inserts the next event of the run's chain and moves its anchor; false exactly when no row matched |
| Ledger.SQLiteActionLedger.CreateOrGetRun | src/agenttrustops/ledger.py:405-474 | leaves the tables and gives the reply that the specification's creation gives |
| Ledger.SQLiteActionLedger.RecordDuplicate | src/agenttrustops/ledger.py:476-487 | leaves the tables and reply of the specification's duplicate count |
| Ledger.SQLiteActionLedger.RecordPolicyDecision | src/agenttrustops/ledger.py:489-581 | leaves the tables and reply of the specification's policy decision, which `Effects.PolicyEffect` spells out |
| Ledger.SQLiteActionLedger.DecideApproval | src/agenttrustops/ledger.py:583-692 | leaves the tables and reply of the specification's approval decision, every refusal included |
| Ledger.SQLiteActionLedger.ExpireApprovals | src/agenttrustops/ledger.py:694-753 | the sweep loop, with rollback of a torn pair, equals the specification's sweep |
| Ledger.SQLiteActionLedger.ClaimExecution | src/agenttrustops/ledger.py:755-819 | leaves the tables and reply of the specification's claim |
| Ledger.SQLiteActionLedger.HeartbeatExecution | src/agenttrustops/ledger.py:821-846 | leaves the tables and reply of the specification's heartbeat |
| Ledger.SQLiteActionLedger.FinishExecution | src/agenttrustops/ledger.py:887-921 | the guarded update and the event loop equal the specification's finish, which `Effects.FinishEffect` spells out |
| Ledger.SQLiteActionLedger.MarkExpiredExecution | src/agenttrustops/ledger.py:923-951 | moves the run to unknown exactly when it is executing |
| Ledger.SQLiteActionLedger.RecoverExpiredExecutions | src/agenttrustops/ledger.py:953-975 | the recovery loop equals the specification's recovery |
| Ledger.SQLiteActionLedger.ReconcileRun | src/agenttrustops/ledger.py:977-1027 | leaves the tables and reply of the specification's manual reconciliation |
| Ledger.SQLiteActionLedger.ApplyProviderObservation | src/agenttrustops/ledger.py:1029-1115 | leaves the tables and reply of the specification's observation, which `Effects.ObserveEffect` spells out |
| Ledger.SQLiteActionLedger.VerifyEventChain | src/agenttrustops/ledger.py:1173-1196 | the loop answers true exactly when the snapshot's chain, count and head verify |
| Ledger.SQLiteActionLedger.ApprovalCounts | src/agenttrustops/ledger.py:1313-1336 | the loop's tallies are the per-status cardinalities, and its pending figure counts the lapsed ones |
| Runtime.AtMostOnce | src/agenttrustops/runtime.py:504-550 | in every interleaving of workers, crashes and other clients, protected code is entered at most once per (tenant, action, key), on a claimed run, with the arguments the ledger stored |
| Runtime.EveryCallAuthorised | src/agenttrustops/runtime.py:516-537 | every entry into protected code is on a claim the entering worker committed and won before it entered, under its own owner token, and that claim was authorised by policy or by a proper approval |
| Idempotency.InvokeAgain | src/agenttrustops/ledger.py:448-461 | a later invocation under the same key gets the same run exactly when it is the same request up to normalisation; otherwise a conflict; neither changes a table |
| Idempotency.CreatedStays | src/agenttrustops/ledger.py:423-461 | a created run keeps its request for ever and stays the one its key finds |
| Idempotency.EndedAnswerFixed | src/agenttrustops/runtime.py:632-650 | whatever happens after a run ended, reading it gives the same public answer: its row as it ended |
| Answers.AnswerSource | src/agenttrustops/runtime.py:632-650 | a worker is answered only by reading its run back or by resuming a completed run, and every field of the answer is that row's at that read |
| Answers.ReadingSource | src/agenttrustops/runtime.py:282-318 | an answer calls itself a duplicate exactly after a counted duplicate or a lost claim |
| Answers.ReportEnds | src/agenttrustops/runtime.py:530-550 | a worker whose report was taken finds its run ended as its function ended: completed with the value if it can be stored, unknown or failed with the reason otherwise |
| Answers.NotAllowedNotEntered | src/agenttrustops/runtime.py:289-317 | a first call whose policy denies, asks for approval, raises, or decides something that cannot be written enters no protected code; its run is denied or pending, holds the policy's version and reason, and the caller is told that status |
| Answers.AllowedEntersOnce | src/agenttrustops/runtime.py:174-180 | a first call the policy allows enters protected code once, with the caller's arguments, and the caller is told how the function ended, its value included |
| Answers.DuplicateTells | src/agenttrustops/runtime.py:282-288 | the same request under a taken key enters nothing, sweeps, counts itself and answers as a duplicate with the run as the sweeps left it |
| Answers.ConflictIsRefused | src/agenttrustops/ledger.py:450-461 | another request under a taken key is a conflict: nothing entered, no table moved |
| Answers.ApprovedResumes | src/agenttrustops/runtime.py:478-506 | resuming an approved run enters protected code once, with the arguments its first caller gave, and tells how the function ended |
| Answers.NotApprovedNotResumed | src/agenttrustops/runtime.py:496-506 | resuming a run that is neither approved nor completed is refused; nothing is entered and nothing is committed |
| Answers.EndedAnswersAgree | src/agenttrustops/runtime.py:632-650 | after any worker was told an ended run's fate, every later answer about that run differs in nothing but the duplicate flag |
| Answers.RecordedValueIsTold | src/agenttrustops/runtime.py:530-550 | once a report of a returned value was taken, every answer about its run, to anyone and at any later time, says completed and carries that value |
| Answers.ReconcileTells | src/agenttrustops/runtime.py:366-401 | a qualified operator concluding an unknown run passes the gate and is told the conclusion, the stripped note and the result; on any other run the call is refused and nothing moves |
| Answers.LookupTells | src/agenttrustops/runtime.py:443-455 | an operator whose lookup came back is told the run as the observation left it, as a duplicate exactly when it was no longer unknown |
| Idempotency.DuplicateOfEnded | src/agenttrustops/runtime.py:282-288 | a duplicate of an ended run adds one to its duplicate count; otherwise only overdue runs of its tenant can change |
| TrustedActions.TrustedAction.PrepareInvoke | src/agenttrustops/runtime.py:239-318 | in program order the method reaches exactly the protocol state of the worker's prepare steps, tables and answer alike; `Answers.NotAllowedNotEntered`, `Answers.DuplicateTells` and `Answers.ConflictIsRefused` say what that state holds |
| TrustedActions.TrustedAction.AnswerDuplicate | src/agenttrustops/runtime.py:282-288 | a duplicate sweeps approvals, sweeps leases, counts and reads back, in that order |
| TrustedActions.TrustedAction.RecordPolicy | src/agenttrustops/runtime.py:289-318 | the decision is recorded, a raising policy's as the denial that `Answers.NotAllowedNotEntered` spells out, and only an allow goes on to the claim |
| TrustedActions.TrustedAction.Execute | src/agenttrustops/runtime.py:516-550 | claim, call, report and read back reach exactly the protocol state of the worker's execute steps; `Answers.AllowedEntersOnce` says what is entered and told |
| TrustedActions.TrustedAction.PrepareResume | src/agenttrustops/runtime.py:496-506 | only an approved run of this action goes on; a completed one is answered again |
| TrustedActions.TrustedAction.Invoke | src/agenttrustops/runtime.py:174-180 | one governed call ends with the tables and the answer of the protocol state its steps reach, which the lemmas of `Answers` spell out for each kind of call |
| TrustedActions.TrustedAction.Resume | src/agenttrustops/runtime.py:478-484 | resuming ends with the tables and the answer of the protocol state its steps reach |
| TrustedActions.TrustedAction.Reconcile | src/agenttrustops/runtime.py:366-401 | an operator's conclusion is refused at the gate with the tables as they were, or is one ledger call and its answer |
| TrustedActions.TrustedAction.LoadReconcilable | src/agenttrustops/runtime.py:457-476 | says exactly which check stops a provider lookup, if one does |
| TrustedActions.TrustedAction.ApplyLookup | src/agenttrustops/runtime.py:443-455 | the probe's observation is one ledger call; an unapplied one is answered as a duplicate |
| TrustedActions.InvokeIsARun | src/agenttrustops/runtime.py:174-318 | an invocation in program order, after anything else, is one run of the interleaving machine |
| Operators.WhatResolves | src/agenttrustops/ledger.py:977-1115 | only a successful reconciliation or observation takes a run out of unknown |
| Operators.ResolvedByRole | docs/architecture.md:39-42 | when reconciliations and lookups go through the runtime, whatever else happens, a run leaves unknown only on behalf of a principal of its tenant holding one of its action's reconciliation roles |
| Operators.GatesOpen | src/agenttrustops/runtime.py:376-391 | the reconcile gate opens exactly for a same-tenant holder of a reconciliation role, a run of the action, a conclusion and a nonblank note; the lookup gate exactly for such a holder and an unknown run |
| Operators.WordSettles | src/agenttrustops/runtime.py:366-401 | such a principal's word settles an unknown run as asked, with the stripped note as reason, the result as given and one event naming the principal; any other run stays as it was |
| Operators.LookupSettles | src/agenttrustops/runtime.py:403-455 | in every reachable desk a lookup under way completes, fails or leaves an unknown run by the probe's outcome, and the kept result names the provider and its reference and safe result exactly when given |
| PostgresAppend.RunWhole | src/agenttrustops/postgres.py:154-158 | in every interleaving of append micro-steps under the per-run lock, each run's committed chain fits its committed anchor |
| PostgresAppend.ChainNeverForks | src/agenttrustops/postgres.py:203-213 | no two committed events of a run share a predecessor, and the anchor is the committed count and last hash |
| Backfill.MissingHashesVerify | src/agenttrustops/ledger.py:244-326 | a run with a missing event hash verifies after migration, types, payloads, times and order unchanged |
| Backfill.HashedRunsUntouched | src/agenttrustops/ledger.py:244-326 | a run with all hashes and a nonzero count keeps events and anchor, so a broken hashed chain stays broken |
| Backfill.RunAsMigrated | src/agenttrustops/ledger.py:244-326 | a migrated run differs in nothing but fingerprint and anchor; a missing fingerprint is made of its own columns, and an uncounted hashed trail gets its count and last hash |
| Backfill.ApprovalAsMigrated | src/agenttrustops/ledger.py:263-289 | a bound approval stays as it was; an unbound one is bound to its run's fingerprint, policy and requester and expires an hour after it was requested |
| Backfill.MigrationIdempotent | src/agenttrustops/ledger.py:244-326 | migrating a migrated file changes nothing |
| Backfill.LedgerFile.BackfillV1 | src/agenttrustops/ledger.py:244-326 | the loops leave exactly the specified migrated tables, whatever order the rows are read in |
| Backfill.LedgerFile.ResealRun | src/agenttrustops/ledger.py:294-316 | recomputes every hash of one run in order, leaves other runs' events, and returns the chain head |
| IsoTime.TextOrderIsTimeOrder | src/agenttrustops/ledger.py:22-23 | for all valid UTC stamps, code-point order of isoformat text is chronological order, also when the fraction is left out |
| IsoTime.TestsAgree | src/agenttrustops/ledger.py:704-711 | the SQL string tests on stored instants decide as the instant tests of the claim and decision paths do |
| IsoTime.StampExists | src/agenttrustops/ledger.py:18-23 | every microsecond of years 1 to 9999 is the instant of some stamp |
| Exposition.UnescapeEscape | src/agenttrustops/observability.py:122-123 | no escaped label value closes its own quotes, and unescaping gives it back |
| Observability.SequentialIsOnePass | src/agenttrustops/observability.py:122-123 | the three sequential replacements equal one character-by-character escape, for every string |
| Observability.RenderPrometheus | src/agenttrustops/observability.py:64-119 | the loops render exactly the specified lines, keys in code-point order, joined and ended by line feeds |
| Observability.ScrapeReadsSamples | src/agenttrustops/observability.py:64-119 | the rendered text is well formed and reads back as exactly the snapshot's samples |
| Observability.EveryCountComesBack | src/agenttrustops/observability.py:64-119 | looking up any label text, a scraper finds the count the snapshot holds for it and nothing otherwise |
| Observability.RenderingIsFaithful | src/agenttrustops/observability.py:64-119 | two snapshots render alike exactly when tenant label and all numbers agree |
| Observability.FiguresAreCounts | src/agenttrustops/observability.py:37-61 | every status, event, approval and duplicate figure a scraper reads is the ledger's own count |
| Observability.ScrapedConservation | src/agenttrustops/observability.py:37-61 | the conservation laws hold of the numbers scraped from the text of any reachable ledger's snapshot |
| Stripe.OnePaymentPerRun | src/agenttrustops/integrations/stripe_sandbox.py:85-142 | over any mix of charges, lost answers, redeliveries, crashes and lookups the provider makes at most one payment per run, with the run's own key, amount, currency and invoice |
| Stripe.CompletedIsPaid | src/agenttrustops/runtime.py:417-455 | a payment run completed other than by an operator's own word has its succeeded payment with its amount, currency and run id |
| Stripe.PaidAsAsked | src/agenttrustops/integrations/stripe_sandbox.py:167-230 | under a completed payment run's own key the provider holds a succeeded sandbox payment of the run's amount and currency, for its run and invoice |
| Stripe.PostSays | src/agenttrustops/integrations/stripe_sandbox.py:167-198 | the only POST a run gives rise to carries its stripped key, amount of at least 50, three-letter currency, run id and invoice of 1 to 100 characters |
| Stripe.ChargeVerdictExact | src/agenttrustops/integrations/stripe_sandbox.py:104-119 | a charge has a value exactly on a succeeded payment of its request, a failure exactly on a refused one, and is otherwise uncertain; the value is the payment's id, status, amount and currency |
| Stripe.LookupVerdictExact | src/agenttrustops/integrations/stripe_sandbox.py:144-165 | the probe's verdict exists exactly for an answer that speaks of the request with a known status and a short id, and is what any probe's answer of that outcome, reference and safe result becomes |
| Stripe.DeniedIsUnpaid | src/agenttrustops/integrations/stripe_sandbox.py:151-165 | a payment run failed on the probe's word has no succeeded payment |
| StripeFailures.FailedIsUnpaid | src/agenttrustops/integrations/stripe_sandbox.py:91-119 | a payment run that failed other than by an operator's word has no succeeded payment, then or ever after, if and only if its charge did not leave on an unlisted exception after sending its POST, or else the POST's slot at the provider is taken by something other than the run's succeeded payment |
| StripeAdapter.SandboxProvider.Create | tests/test_stripe_sandbox.py:52-73 | a used key answers as it first did, or errs on changed parameters; a new key adds one payment |
| StripeAdapter.StripeSandboxPaymentAdapter.Charge | src/agenttrustops/integrations/stripe_sandbox.py:75-119 | a value comes back exactly when the answer shows a succeeded payment of this request; a failure exactly when nothing could be sent, the answer shows it refused, or an unlisted exception was raised; at most this request's payment is added |
| StripeAdapter.StripeSandboxPaymentAdapter.Inspect | src/agenttrustops/integrations/stripe_sandbox.py:121-165 | an observation comes back exactly for a delivered, valid answer of known status with a reference of at most 255 characters inside the replay window, and its outcome is the class of the provider's own record; outside the window nothing is sent |
| Audit.ExportAuditBundle | src/agenttrustops/audit.py:112-157 | a bundle comes out exactly when every listed trail is present, redacted and verified; otherwise the first fault is named |
| Audit.BundleSays | src/agenttrustops/audit.py:112-157 | an exported bundle names schema, time, backend and scope, counts its runs, holds each listed run's run and events in order, and its proof is that payload's digest with the key's signature or none |
| Audit.VerifyAuditBundle | src/agenttrustops/audit.py:175-237 | valid exactly when digest, count, trail verdicts and signature hold under the pinned key or none; an AttributeError escapes exactly for a signature that is no dictionary |
| Audit.ExportAccepted | src/agenttrustops/audit.py:133-157 | every exported bundle is accepted; a signed one under its own pinned key and no other, an unsigned one under no pinned key |
| Audit.WriteReadSame | src/agenttrustops/audit.py:160-164 | writing any document as JSON and reading it back changes nothing verification looks at |
| Audit.AcceptedReadsLedger | src/agenttrustops/audit.py:187-224 | whatever document is accepted under the pinned key with the signature of an export of a reachable ledger, however the rest was edited or rewritten, carries exactly that ledger's trails, run for run, and their chains verify there |
| Audit.AcceptedFields | src/agenttrustops/audit.py:187-224 | and field by field, run and events of each listed trail have the JSON the ledger's trail gave |
| Audit.AcceptedSays | src/agenttrustops/audit.py:187-224 | any accepted document names the schema, the digest of its own payload and its own run count, calls every trail verified and redacted, and under a pinned key is signed by it |
| Audit.EditIsNoticed | src/agenttrustops/audit.py:187-189 | replacing the payload of an accepted document is refused unless the canonical payload is unchanged |
| Audit.LedgerExports | src/agenttrustops/audit.py:121-157 | exporting any listing of any reachable ledger succeeds and the bundle is accepted, also after a JSON round trip |
| Edges.EarlierChecksAllowed | src/agenttrustops/ledger.py:509-516 | a run may be checked against policy repeatedly, but every check before the last answered allow |
| Edges.DecidedAgain | src/agenttrustops/ledger.py:509-516 | after one decision on a created run another is accepted if and only if the first was allow |
| Edges.LateFinish | src/agenttrustops/ledger.py:900-906 | a lapsed lease alone does not stop the owner from finishing; a recovery in between does |
| Edges.RefusalHidesPayment | src/agenttrustops/integrations/stripe_sandbox.py:96-103 | an exception not listed as ambiguous, heard after the payment went through, leaves the run failed and the payment in place |
| Edges.FailedButPaid | src/agenttrustops/integrations/stripe_sandbox.py:96-103 | a world with a run that failed by its charge's word alone and was paid is reachable, so the exception side of `StripeFailures.FailedIsUnpaid` is not empty |

## Left out

- PostgreSQL transitions: the full transition set under read-committed isolation, where `BEGIN IMMEDIATE` does nothing; only the append under the row lock is modelled there.
- SQL text, schema creation, column migration, connection handling and marker translation: tables are maps and a sequence.
- SHA-256, Ed25519, base64, PEM files and the JSON codec: free constructors, one per meaning; floats, NaN and lone surrogates in JSON have no values here.
- Version 1 rows in the replay and joint-invariant theorems: a migrated row can have a status its trail does not explain; `backfill.dfy` proves only what the migration does to them.
- Liveness and timers: a run whose worker crashes before the claim stays created, and no theorem says otherwise; heartbeats are steps that may or may not happen, and their thread is not modelled.
- Clock overflow: adding a lease or an approval period at the end of year 9999 raises in the code and does not here.
- Resolver metadata `None` and `{}` fingerprint alike in the code; the model has only the map.
- Context construction errors other than a blank actor or tenant, and payload-type errors of `PolicyDecision` and `VerifiedPrincipal`: one-branch checks.
- Asynchronous execution: the same ledger calls in the same order; cancellation is an uncertain outcome.
- Verification while appends run: the run row and its events are read separately, so the theorem is about one snapshot; likewise the metrics.
- Backend name and schema version in a snapshot: not rendered.
- Provider forgetting keys: the sandbox provider, as modelled at tests/test_stripe_sandbox.py:52-73, keeps every key; the 23-hour replay window is modelled as the code tests it, and no theorem rests on a provider that forgets.
- Payment runs concluded by an operator's own word: nothing in the code ties that word to the provider, so the payment theorems except them.
- Exceptions outside `Exception`, such as an interrupt: they pass every handler and leave the run executing, as a crash does.
- Stripe amounts that equal integers without being integers, such as `True` or `50.0` in a response.
- Audit values: non-string keys and lengths of digests and base64 texts used where a list of trails is expected; loading key files.
- `api.py`, `cli.py`, `auth.py`, the console and the OPA, LangGraph, MCP and OpenAI adapters: input, output and wrappers around the same calls.
- `registry.py`, `errors.py`, `refund_ops.py`, the benchmark and the examples: only easy facts.
