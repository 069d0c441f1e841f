/** What a replayable trail says about policy, exits and conclusions. */
module TrailFacts {
  import opened Text
  import opened Models
  import opened Trails

  predicate Terminal(status: Status) {
    status in {Denied, Rejected, ApprovalExpired, Completed, Failed}
  }

  /** Replaying one more row of a replayable trail is one step, and never a broken one. */
  lemma NextReplay(rows: seq<Event>, n: nat)
    requires !Replay(rows).Broken? && n < |rows|
    ensures Replay(rows[..n + 1]) == Step(Replay(rows[..n]), rows[n].body)
    ensures Replay(rows[..n + 1]).Live?
  {
    ReplayPrefix(rows, n + 1);
    assert rows[..n + 1][..n] == rows[..n];
  }

  lemma TerminalStep(v: View, body: Body)
    requires v.phase.Settled? && Terminal(v.phase.status)
    ensures StepView(v, body).Broken?
  {
  }

  lemma ObservedStep(v: View, body: Body)
    requires Definitive(body) && StepView(v, body).Live?
    ensures StepView(v, body).view.phase == Concluding(Conclusion(body.observed).value)
  {
  }

  lemma ConcludingStep(v: View, body: Body)
    requires v.phase.Concluding? && StepView(v, body).Live?
    ensures body.RunReconciled? && body.concluded == v.phase.outcome
    ensures StepView(v, body).view.phase == Settled(v.phase.outcome) && Terminal(v.phase.outcome)
  {
  }

  /** Nothing follows a terminal status: a replayable trail stops where it reaches one. */
  lemma TerminalEnds(rows: seq<Event>, n: nat)
    requires Replay(rows).Live? && 0 < n <= |rows|
    requires Replay(rows[..n]).Live? && Replay(rows[..n]).view.phase.Settled?
    requires Terminal(Replay(rows[..n]).view.phase.status)
    ensures n == |rows|
  {
    hide StepView, Replay;
    if n < |rows| {
      NextReplay(rows, n);
      TerminalStep(Replay(rows[..n]).view, rows[n].body);
    }
  }

  lemma ObservedFromLive(rows: seq<Event>, i: nat)
    requires Replay(rows).Live? && i < |rows| && Definitive(rows[i].body)
    ensures Replay(rows[..i]).Live?
  {
    NextReplay(rows, i);
  }

  predicate Definitive(body: Body) { body.ProviderObserved? && Conclusion(body.observed).Some? }

  /** A definitive provider observation is followed at once by the one matching conclusion, and that ends the trail. */
  lemma ObservationConcluded(rows: seq<Event>, i: nat)
    requires Replay(rows).Live? && Replay(rows).view.phase.Settled?
    requires i < |rows| && Definitive(rows[i].body)
    ensures i + 2 == |rows|
    ensures rows[i + 1].body.RunReconciled?
    ensures Some(rows[i + 1].body.concluded) == Conclusion(rows[i].body.observed)
    ensures Replay(rows).view.phase == Settled(rows[i + 1].body.concluded)
  {
    hide StepView, Replay;
    assert rows[..|rows|] == rows;
    NextReplay(rows, i);
    ObservedFromLive(rows, i);
    ObservedStep(Replay(rows[..i]).view, rows[i].body);
    NextReplay(rows, i + 1);
    ConcludingStep(Replay(rows[..i + 1]).view, rows[i + 1].body);
    TerminalEnds(rows, i + 2);
  }

  /** At most one start, one exit of each execution, and one conclusion of each uncertain one. */
  lemma OneExitOneConclusion(rows: seq<Event>)
    requires Replay(rows).Live? && Replay(rows).view.phase.Settled?
    ensures Count(rows, KStarted) <= 1
    ensures Count(rows, KStarted) == Bit(Replay(rows).view.phase == Settled(Executing))
              + Count(rows, KSucceeded) + Count(rows, KFailed) + Count(rows, KUncertain) + Count(rows, KLeaseExpired)
    ensures Count(rows, KReconciled) <= Count(rows, KUncertain) + Count(rows, KLeaseExpired) <= 1
    ensures Replay(rows).view.phase == Settled(Unknown) <==>
      Count(rows, KReconciled) < Count(rows, KUncertain) + Count(rows, KLeaseExpired)
  {
    ReplayCounts(rows);
    ReplayCoherent(rows);
    var c := k => Count(rows, k);
    assert CountsFit(c, Replay(rows).view);
    assert forall k :: c(k) == Count(rows, k);
  }

  /** The last policy.checked event. */
  function LastPolicy(rows: seq<Event>): Option<Body> {
    if rows == [] then None
    else if rows[|rows| - 1].body.PolicyChecked? then Some(rows[|rows| - 1].body)
    else LastPolicy(rows[..|rows| - 1])
  }

  /** The outcome that leads to each phase. */
  predicate OutcomeFits(v: View, last: Option<Body>) {
    if last.None? then v.version.None?
    else
      && last.value.PolicyChecked? && v.version == Some(last.value.version) && v.digest == Some(last.value.digest)
      && match v.phase
         case Denying => last.value.outcome == Deny
         case Settled(Denied) => last.value.outcome == Deny
         case Requesting => last.value.outcome == ApprovalRequired
         case _ => last.value.outcome == (if v.approval.Some? then ApprovalRequired else Allow)
  }

  lemma FirstOutcome(e: Event)
    requires Step(Blank, e.body).Live?
    ensures OutcomeFits(Step(Blank, e.body).view, None) && !e.body.PolicyChecked?
  {
  }

  lemma StepOutcome(v: View, body: Body, last: Option<Body>)
    requires Coherent(v) && OutcomeFits(v, last) && StepView(v, body).Live?
    ensures OutcomeFits(StepView(v, body).view, if body.PolicyChecked? then Some(body) else last)
  {
  }

  /** The policy version and digest a run holds, and the outcome behind its state, are those of its last check. */
  lemma {:induction false} ReplayOutcome(rows: seq<Event>)
    ensures Replay(rows).Live? ==> OutcomeFits(Replay(rows).view, LastPolicy(rows))
  {
    hide StepView, Coherent, OutcomeFits;
    if rows != [] && Replay(rows).Live? {
      var init, last := rows[..|rows| - 1], rows[|rows| - 1];
      if Replay(init).Blank? {
        BlankIsEmpty(init);
        assert LastPolicy(init) == None;
        FirstOutcome(last);
      } else {
        ReplayOutcome(init);
        ReplayCoherent(init);
        StepOutcome(Replay(init).view, last.body, LastPolicy(init));
      }
    }
  }
}
