/** What a repeated invocation sees: the same run exactly for the same governed request, and a fixed answer once the
    run has ended. */
module Idempotency {
  import opened Text
  import opened Models
  import opened Trails
  import opened TrailFacts
  import opened LedgerSpec
  import opened LedgerProofs
  import opened LedgerSteps
  import opened LedgerSweeps
  import opened Histories
  import opened Runtime

  /** A caller's raw identity, before `ActionContext` normalises it. */
  datatype Caller = Caller(
    actor: string, tenant: string, roles: seq<string>, evidence: seq<string>, metadata: map<string, Json>)

  function ContextOf(caller: Caller): Option<Context> {
    MakeContext(caller.actor, caller.tenant, caller.roles, caller.evidence, caller.metadata)
  }

  /** Same request up to padding, order and repetition of names. */
  predicate SameRequest(
    a: Caller, risk1: string, args1: map<string, Json>, b: Caller, risk2: string, args2: map<string, Json>)
  {
    && Strip(a.tenant) == Strip(b.tenant) && Strip(a.actor) == Strip(b.actor)
    && Names(a.roles) == Names(b.roles) && Names(a.evidence) == Names(b.evidence)
    && a.metadata == b.metadata && risk1 == risk2 && args1 == args2
  }

  /** Once a run was created for a request, any later invocation under its (tenant, action, key) gets that run exactly
      when it is the same request; otherwise it is a conflict. Neither changes any table. */
  lemma InvokeAgain(
    ops: seq<Op>, m: nat, r: RunId, a: Caller, b: Caller, action: string, risk1: string, risk2: string,
    key1: string, key2: string, args1: map<string, Json>, args2: map<string, Json>, other: RunId, now: Time)
    requires m < |ops| && ContextOf(a).Some? && ContextOf(b).Some?
    requires ops[m].OpCreate? && ops[m].q == GovernedRequest(ContextOf(a).value, action, risk1, key1, args1)
    requires Apply(Reached(ops[..m]), ops[m]).1 == Fetched(r, true)
    requires Strip(a.tenant) == Strip(b.tenant) && Strip(key1) == Strip(key2)
    ensures
      var again := OpCreate(other, GovernedRequest(ContextOf(b).value, action, risk2, key2, args2), now);
      Apply(Reached(ops), again)
        == (Reached(ops),
            if SameRequest(a, risk1, args1, b, risk2, args2) then Fetched(r, false) else Raised(IdempotencyConflict))
  {
    hide Inv, Apply, Reached, RequestFingerprint, Trail;
    FingerprintAgrees(a.actor, a.tenant, a.roles, a.evidence, a.metadata, args1,
                      b.actor, b.tenant, b.roles, b.evidence, b.metadata, args2, action, risk1, risk2);
    CreatedStays(ops, m, r);
    LookAgain(Reached(ops), r, other, GovernedRequest(ContextOf(b).value, action, risk2, key2, args2), now);
  }

  lemma LookAgain(s: State, r: RunId, other: RunId, q: Request, now: Time)
    requires RowByKey(s, KeyOf(q)) == Some(r)
    ensures Apply(s, OpCreate(other, q, now))
      == (s, if s.runs[r].q.fp == q.fp then Fetched(r, false) else Raised(IdempotencyConflict))
  {
  }

  /** A created run keeps its request and stays the one its key finds. */
  lemma CreatedStays(ops: seq<Op>, m: nat, r: RunId)
    requires m < |ops| && ops[m].OpCreate? && Apply(Reached(ops[..m]), ops[m]).1 == Fetched(r, true)
    ensures r in Reached(ops).runs && Reached(ops).runs[r].q == ops[m].q
    ensures RowByKey(Reached(ops), KeyOf(ops[m].q)) == Some(r)
  {
    hide Inv, Reached, Trail, Append;
    CreateStores(Reached(ops[..m]), ops[m], r);
    ReachedStep(ops, m);
    ReachedEvolves(ops, m + 1);
    hide Apply, RowMoves;
    var t, u := Reached(ops[..m + 1]), Reached(ops);
    assert RowMoves(t.runs[r], u.runs[r]);
    MovesKeepRequest(t.runs[r], u.runs[r]);
  }

  lemma CreateStores(s: State, op: Op, r: RunId)
    requires op.OpCreate? && Apply(s, op).1 == Fetched(r, true)
    ensures
      var t := Apply(s, op).0;
      r in t.runs && t.runs[r].q == op.q && KeyOf(op.q) in t.index && t.index[KeyOf(op.q)] == r
  {
    hide Trail;
  }

  // ---- Answers of ended runs ----

  /** `to_public_dict`: the answer without the key and the duplicate flag. */
  datatype PublicAnswer = PublicAnswer(
    run: RunId, action: string, status: Status, version: Option<string>, reason: Option<string>, value: Option<Json>,
    attempt: nat)

  function Public(x: ActionResult): PublicAnswer {
    PublicAnswer(x.run, x.action, x.status, x.version, x.reason, x.value, x.attempt)
  }

  /** Whatever happens after a run has ended, reading it gives the same public answer: its row as it stood when it
      ended. */
  lemma EndedAnswerFixed(ops: seq<Op>, m: nat, r: RunId, first: bool, later: bool)
    requires m <= |ops| && r in Reached(ops[..m]).runs && Terminal(Reached(ops[..m]).runs[r].status)
    ensures r in Reached(ops).runs
    ensures Public(ResultFromRun(r, Reached(ops).runs[r], later))
      == Public(ResultFromRun(r, Reached(ops[..m]).runs[r], first))
    ensures
      var ended := Reached(ops[..m]).runs[r];
      Public(ResultFromRun(r, Reached(ops).runs[r], later)) == PublicAnswer(
        r, ended.q.action, ended.status, ended.version, ended.reason, ended.result, ended.attempt)
  {
    hide Inv, Reached, Trail, Apply;
    AtMostFiveChanges(ops, r, m);
  }

  /** A duplicate of an ended run adds one to that run's duplicate count; apart from that, only runs of its tenant that
      were pending or executing and overdue can change. */
  lemma DuplicateOfEnded(s: State, r: RunId, scan1: seq<RunId>, scan2: seq<RunId>, n2: Time, n3: Time,
                         c1: Clock, c2: Clock)
    requires Inv(s) && r in s.runs && Terminal(s.runs[r].status)
    ensures
      var tenant := Some(s.runs[r].q.tenant);
      var s2 := ExpireApprovals(s, scan1, tenant, n2, c1).0;
      var s3 := RecoverExpired(s2, scan2, tenant, n3, c2).0;
      var (s4, reply) := RecordDuplicate(s3, r);
      && reply == Done && r in s4.runs
      && s4.runs[r] == s.runs[r].(duplicates := s.runs[r].duplicates + 1)
      && ApprovalOf(s4, r) == ApprovalOf(s, r) && Trail(s4.events, r) == Trail(s.events, r)
      && (forall x :: x in s.runs && x != r && !ApprovalOverdue(s, x, tenant, n2) && !LeaseOverdue(s, x, tenant, n3) ==>
            Untouched(s, s4, x))
  {
    hide Inv, Trail, Evolves, Quiet, ExpireApprovals, RecoverExpired;
    var tenant := Some(s.runs[r].q.tenant);
    ExpireMoves(s, scan1, tenant, n2, c1);
    var s2 := ExpireApprovals(s, scan1, tenant, n2, c1).0;
    assert Untouched(s, s2, r);
    RecoverMoves(s2, scan2, tenant, n3, c2);
    var s3 := RecoverExpired(s2, scan2, tenant, n3, c2).0;
    assert Untouched(s2, s3, r);
    forall x | x in s.runs && x != r && !ApprovalOverdue(s, x, tenant, n2) && !LeaseOverdue(s, x, tenant, n3)
      ensures Untouched(s, RecordDuplicate(s3, r).0, x)
    {
      assert Untouched(s, s2, x);
      assert Untouched(s2, s3, x);
    }
  }
}
