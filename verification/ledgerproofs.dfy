/** The joint invariant of runs, approvals, index and trails, and its preservation by every transaction. */
module LedgerProofs {
  import opened Text
  import opened Models
  import opened Trails
  import opened LedgerSpec

  function ViewOfApproval(a: Approval): ApprovalView {
    ApprovalView(a.status, a.fp, a.version, a.digest, a.expiresAt, a.approver, a.authSource, a.note)
  }

  /** The part of a run row and its approval row that the trail alone must reproduce. */
  function ViewOf(run: Run, approval: Option<Approval>): View {
    View(Settled(run.status), run.q.fp, run.version, run.digest, run.reason, run.owner, run.attempt,
         if approval.Some? then Some(ViewOfApproval(approval.value)) else None)
  }

  /** One run: its trail verifies against its anchor and replays to exactly its row and approval. */
  predicate RowFits(r: RunId, run: Run, approval: Option<Approval>, rows: seq<Event>) {
    && Verified(r, rows, run.eventCount, run.head)
    && Replay(rows) == Live(ViewOf(run, approval))
    && (run.lease.Some? <==> run.status == Executing)
    && (run.result.Some? ==> run.status in {Completed, Failed})
    && (approval.Some? ==> approval.value.requester == run.q.actor)
  }

  predicate RunFits(s: State, r: RunId)
    requires r in s.runs
  {
    RowFits(r, s.runs[r], ApprovalOf(s, r), Trail(s.events, r))
  }

  predicate Indexed(s: State) {
    && (forall key :: key in s.index ==> s.index[key] in s.runs && KeyOf(s.runs[s.index[key]].q) == key)
    && (forall r :: r in s.runs ==> KeyOf(s.runs[r].q) in s.index && s.index[KeyOf(s.runs[r].q)] == r)
  }

  predicate EventsOwned(s: State) { forall e :: e in s.events ==> e.run in s.runs }

  ghost predicate Inv(s: State) {
    && Indexed(s)
    && EventsOwned(s)
    && s.approvals.Keys <= s.runs.Keys
    && forall r {:trigger RunFits(s, r)} :: r in s.runs ==> RunFits(s, r)
  }

  // ---- Appending ----

  function StepAll(x: Replayed, bodies: seq<Body>): Replayed {
    if bodies == [] then x else Step(StepAll(x, bodies[..|bodies| - 1]), bodies[|bodies| - 1])
  }

  lemma StepAllOne(x: Replayed, a: Body)
    ensures StepAll(x, [a]) == Step(x, a)
  {
    assert [a][..0] == [];
  }

  lemma StepAllTwo(x: Replayed, a: Body, b: Body)
    ensures StepAll(x, [a, b]) == Step(Step(x, a), b)
  {
    assert [a, b][..1] == [a];
    StepAllOne(x, a);
  }

  /** The chain of `r` is intact and anchored, whatever its status column says. */
  predicate Anchored(s: State, r: RunId) {
    r in s.runs && Verified(r, Trail(s.events, r), s.runs[r].eventCount, s.runs[r].head)
  }

  /** `t` differs from `s` only in run `r`: other rows, approvals and trails are the same, and `r`'s trail only grew. */
  ghost predicate OnlyRun(s: State, t: State, r: RunId) {
    && t.runs.Keys == s.runs.Keys && t.index == s.index && t.approvals.Keys <= s.approvals.Keys + {r}
    && (forall x {:trigger t.runs[x]} :: x in s.runs && x != r ==> t.runs[x] == s.runs[x])
    && (forall x {:trigger ApprovalOf(t, x)} :: x != r ==> ApprovalOf(t, x) == ApprovalOf(s, x))
    && (forall x {:trigger Trail(t.events, x)} :: x != r ==> Trail(t.events, x) == Trail(s.events, x))
    && Trail(s.events, r) <= Trail(t.events, r)
    && |t.events| >= |s.events|
  }

  lemma LatestIsHead(s: State, r: RunId)
    requires Anchored(s, r)
    ensures LatestHash(s.events, r) == ChainHead(r, Trail(s.events, r))
  {
  }

  /** The appended event seals onto its run's chain. */
  lemma NextSeals(s: State, r: RunId, body: Body, at: Time)
    requires Anchored(s, r)
    ensures
      var e, rows := NextEvent(s.events, r, body, at), Trail(s.events, r);
      Sealed(r, rows + [e]) && ChainHead(r, rows + [e]) == e.hash && e.run == r && e.body == body
  {
    LatestIsHead(s, r);
    hide Trail;
    SealedAppend(r, Trail(s.events, r), NextEvent(s.events, r, body, at));
  }

  lemma AppendTrails(s: State, r: RunId, body: Body, at: Time)
    requires r in s.runs
    ensures
      var t, e := Append(s, r, body, at), NextEvent(s.events, r, body, at);
      forall x :: Trail(t.events, x) == Trail(s.events, x) + (if x == r then [e] else [])
  {
    var t, e := Append(s, r, body, at), NextEvent(s.events, r, body, at);
    forall x ensures Trail(t.events, x) == Trail(s.events, x) + (if x == r then [e] else []) {
      TrailAppend(s.events, e, x);
    }
  }

  lemma AppendOnly(s: State, r: RunId, body: Body, at: Time)
    requires r in s.runs && EventsOwned(s)
    ensures var t := Append(s, r, body, at); OnlyRun(s, t, r) && EventsOwned(t)
  {
    AppendTrails(s, r, body, at);
    hide Trail, NextEvent;
  }

  lemma AppendFacts(s: State, r: RunId, body: Body, at: Time)
    requires Anchored(s, r) && EventsOwned(s)
    ensures
      var t := Append(s, r, body, at);
      && Anchored(t, r) && EventsOwned(t) && OnlyRun(s, t, r)
      && t.approvals == s.approvals
      && t.runs[r] == s.runs[r].(eventCount := s.runs[r].eventCount + 1, head := t.runs[r].head)
      && Replay(Trail(t.events, r)) == Step(Replay(Trail(s.events, r)), body)
  {
    NextSeals(s, r, body, at);
    AppendOnly(s, r, body, at);
    AppendTrails(s, r, body, at);
    hide Step, Replay, Trail, NextEvent, Sealed, ChainHead, OnlyRun, EventsOwned;
    ReplayAppend(Trail(s.events, r), NextEvent(s.events, r, body, at));
  }

  lemma OnlyRunTransitive(s: State, t: State, u: State, r: RunId)
    requires OnlyRun(s, t, r) && OnlyRun(t, u, r) && r in s.runs
    ensures OnlyRun(s, u, r)
  {
    hide Trail, ApprovalOf;
    forall x | x in s.runs && x != r ensures u.runs[x] == s.runs[x] { assert t.runs[x] == s.runs[x]; }
    forall x | x != r ensures ApprovalOf(u, x) == ApprovalOf(s, x) { assert ApprovalOf(t, x) == ApprovalOf(s, x); }
    forall x | x != r ensures Trail(u.events, x) == Trail(s.events, x) {
      assert Trail(t.events, x) == Trail(s.events, x);
    }
  }

  lemma OnlyRunReflexive(s: State, r: RunId)
    ensures OnlyRun(s, s, r)
  {
    hide Trail;
  }

  lemma {:induction false} AppendAllFacts(s: State, r: RunId, bodies: seq<Body>, clock: Clock)
    requires Anchored(s, r) && EventsOwned(s)
    ensures
      var t := AppendAll(s, r, bodies, clock);
      && Anchored(t, r) && EventsOwned(t) && OnlyRun(s, t, r)
      && t.approvals == s.approvals
      && t.runs[r] == s.runs[r].(eventCount := t.runs[r].eventCount, head := t.runs[r].head)
      && Replay(Trail(t.events, r)) == StepAll(Replay(Trail(s.events, r)), bodies)
  {
    hide Step, Replay, OnlyRun, EventsOwned, Trail, Append, Verified;
    if bodies == [] {
      OnlyRunReflexive(s, r);
    } else {
      var n := |bodies| - 1;
      var t := AppendAll(s, r, bodies[..n], clock);
      AppendAllFacts(s, r, bodies[..n], clock);
      AppendFacts(t, r, bodies[n], clock(n));
      OnlyRunTransitive(s, t, Append(t, r, bodies[n], clock(n)), r);
    }
  }

  // ---- One-run transactions ----

  function NewApproval(s: State, r: RunId, approval: Option<Approval>): Option<Approval> {
    if approval.Some? then approval else ApprovalOf(s, r)
  }

  /** A row rewrite and the events appended with it agree: replaying the events from the old row gives the new one. */
  predicate Justified(s: State, r: RunId, row: Run, approval: Option<Approval>, bodies: seq<Body>) {
    r in s.runs
    && row.q == s.runs[r].q && row.eventCount == s.runs[r].eventCount && row.head == s.runs[r].head
    && (row.lease.Some? <==> row.status == Executing)
    && (row.result.Some? ==> row.status in {Completed, Failed})
    && (approval.Some? ==> approval.value.requester == row.q.actor)
    && StepAll(Live(ViewOf(s.runs[r], ApprovalOf(s, r))), bodies) == Live(ViewOf(row, NewApproval(s, r, approval)))
  }

  predicate SameButAnchor(a: Run, b: Run) { a == b.(eventCount := a.eventCount, head := a.head) }

  lemma IndexedByOneRun(s: State, t: State, r: RunId)
    requires Indexed(s) && t.runs.Keys == s.runs.Keys && t.index == s.index
    requires forall x :: x in s.runs && x != r ==> t.runs[x] == s.runs[x]
    requires r in s.runs && t.runs[r].q == s.runs[r].q
    ensures Indexed(t)
  {
    forall x | x in s.runs ensures t.runs[x].q == s.runs[x].q {}
  }

  /** The invariant is local: a change confined to one run keeps it when that run still fits. */
  lemma InvByOneRun(s: State, t: State, r: RunId)
    requires Inv(s) && OnlyRun(s, t, r) && EventsOwned(t)
    requires r in s.runs && t.runs[r].q == s.runs[r].q && RunFits(t, r)
    ensures Inv(t)
  {
    IndexedByOneRun(s, t, r);
    forall x | x in t.runs ensures RunFits(t, x) {
      if x != r { FitsElsewhere(s, t, r, x); }
    }
    hide Indexed, EventsOwned, RunFits;
  }

  lemma FitsElsewhere(s: State, t: State, r: RunId, x: RunId)
    requires Inv(s) && OnlyRun(s, t, r) && x in t.runs && x != r
    ensures RunFits(t, x)
  {
    hide Indexed, EventsOwned, Trail, RowFits;
    assert RunFits(s, x);
  }

  lemma OnlyRunSameEvents(s: State, t: State, r: RunId, u: State)
    requires r in s.runs && OnlyRun(u, t, r)
    requires u.events == s.events && u.index == s.index && r in u.runs && u.runs == s.runs[r := u.runs[r]]
    requires u.approvals == s.approvals || (r in u.approvals && u.approvals == s.approvals[r := u.approvals[r]])
    ensures OnlyRun(s, t, r)
  {
    hide Trail;
    assert forall x :: x != r ==> ApprovalOf(u, x) == ApprovalOf(s, x);
  }

  lemma CommitKeeps(s: State, r: RunId, row: Run, approval: Option<Approval>, bodies: seq<Body>, clock: Clock)
    requires Inv(s) && Justified(s, r, row, approval, bodies)
    ensures
      var t := Commit(s, r, row, approval, bodies, clock);
      && Inv(t) && OnlyRun(s, t, r) && SameButAnchor(t.runs[r], row)
      && ApprovalOf(t, r) == NewApproval(s, r, approval)
  {
    hide Step, Replay, StepAll, Trail, AppendAll, Sealed;
    var approvals := if approval.Some? then s.approvals[r := approval.value] else s.approvals;
    var u := s.(runs := s.runs[r := row], approvals := approvals);
    assert RunFits(s, r);
    AppendAllFacts(u, r, bodies, clock);
    var t := AppendAll(u, r, bodies, clock);
    OnlyRunSameEvents(s, t, r, u);
    assert ApprovalOf(t, r) == NewApproval(s, r, approval);
    assert RunFits(t, r);
    InvByOneRun(s, t, r);
  }

  // ---- The row a commit leaves ----

  lemma {:induction false} AppendAllRow(s: State, r: RunId, bodies: seq<Body>, clock: Clock)
    requires r in s.runs
    ensures SameButAnchor(AppendAll(s, r, bodies, clock).runs[r], s.runs[r])
  {
    hide NextEvent;
    if bodies != [] { AppendAllRow(s, r, bodies[..|bodies| - 1], clock); }
  }

  lemma CommitRow(s: State, r: RunId, row: Run, approval: Option<Approval>, bodies: seq<Body>, clock: Clock)
    requires r in s.runs
    ensures r in Commit(s, r, row, approval, bodies, clock).runs
    ensures SameButAnchor(Commit(s, r, row, approval, bodies, clock).runs[r], row)
  {
    hide AppendAll;
    var approvals := if approval.Some? then s.approvals[r := approval.value] else s.approvals;
    AppendAllRow(s.(runs := s.runs[r := row], approvals := approvals), r, bodies, clock);
  }
}
