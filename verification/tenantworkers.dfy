/** Invokes, resumes and whatever their workers do next, framed by the tenant they were made for. */
module TenantWorkers {
  import opened Text
  import opened Models
  import opened Trails
  import opened LedgerSpec
  import opened LedgerProofs
  import opened LedgerSteps
  import opened Histories
  import opened Tenancy
  import opened Runtime

  predicate OwnedBy(y: Sys, r: RunId, tenant: string) { r in Db(y).runs && Db(y).runs[r].q.tenant == tenant }

  /** Worker `w` is working for the tenant: the run it is at, and the tenant it is to sweep, are the tenant's. */
  predicate WorksFor(y: Sys, w: nat, tenant: string) {
    match PcOf(y, w)
    case Idle => true
    case Returned(_) => true
    case Aborted(_) => true
    case Crashed => true
    case Expiring(r, sweeps) => OwnedBy(y, r, tenant) && sweeps == tenant
    case Recovering(r, sweeps) => OwnedBy(y, r, tenant) && sweeps == tenant
    case pc => OwnedBy(y, pc.run, tenant)
  }

  ghost predicate CrewWorksFor(y: Sys, crew: set<nat>, tenant: string) {
    forall w :: w in crew ==> WorksFor(y, w, tenant)
  }

  /** The step is the tenant's: an invoke with the tenant's context, a resume that names no other tenant's run, any
      other step of a worker of the crew, or a call of another client that carries the tenant. */
  predicate StepFor(y: Sys, step: StepLabel, crew: set<nat>, tenant: string) {
    match step
    case Client(op) => Carries(Db(y), op, tenant)
    case Invoke(w, _, c, _, _, _, _, _) => w in crew && c.tenant == tenant
    case Resume(w, r, _) => w in crew && (r in Db(y).runs ==> Db(y).runs[r].q.tenant == tenant)
    case _ => step.w in crew
  }

  /** What such a step commits carries the tenant; for invokes and workers this is proved, not assumed. */
  lemma StepCarries(y: Sys, step: StepLabel, crew: set<nat>, tenant: string)
    requires CrewWorksFor(y, crew, tenant) && StepFor(y, step, crew, tenant) && OpOf(y, step).Some?
    ensures Carries(Db(y), OpOf(y, step).value, tenant)
  {
    hide Reached, RequestFingerprint;
    if !step.Client? { assert WorksFor(y, step.w, tenant); }
  }

  /** Creation answers with a run of the tenant it was asked for. */
  lemma FetchedIsOwned(s: State, op: Op, found: RunId, created: bool)
    requires Inv(s) && op.OpCreate? && Apply(s, op).1 == Fetched(found, created)
    ensures var t := Apply(s, op).0; found in t.runs && t.runs[found].q.tenant == op.q.tenant
  {
    hide Trail, RunFits;
  }

  lemma OwnedStays(y: Sys, step: StepLabel, r: RunId, tenant: string)
    requires OwnedBy(y, r, tenant)
    ensures OwnedBy(Next(y, step), r, tenant)
  {
    hide Reached, Next, OpOf;
    NextCommits(y, step);
    match OpOf(y, step)
    case None =>
    case Some(op) => CommitsOnward(y, op);
  }

  lemma WorksStays(y: Sys, step: StepLabel, v: nat, tenant: string)
    requires WorksFor(y, v, tenant) && PcOf(Next(y, step), v) == PcOf(y, v)
    ensures WorksFor(Next(y, step), v, tenant)
  {
    hide Reached, Next, OwnedBy;
    forall r | OwnedBy(y, r, tenant) ensures OwnedBy(Next(y, step), r, tenant) { OwnedStays(y, step, r, tenant); }
  }

  lemma OtherPcs(y: Sys, step: StepLabel, v: nat)
    requires step.Client? || step.w != v
    ensures PcOf(Next(y, step), v) == PcOf(y, v)
  {
    hide Reached, Answer, RequestFingerprint;
  }

  lemma InvokeWorks(y: Sys, step: StepLabel, tenant: string)
    requires step.Invoke? && step.c.tenant == tenant && WorksFor(y, step.w, tenant)
    ensures WorksFor(Next(y, step), step.w, tenant)
  {
    hide Reached, RequestFingerprint, IsBlank, Apply, Inv;
    if PcOf(y, step.w) == Idle && !IsBlank(step.key) {
      var op := OpCreate(step.r, GovernedRequest(step.c, step.action, step.risk, step.key, step.args), step.now);
      ReachedInv(y.ops);
      CommitsOnward(y, op);
      if Answer(y, op).Fetched? { FetchedIsOwned(Db(y), op, Answer(y, op).run, Answer(y, op).created); }
    }
  }

  lemma ResumeWorks(y: Sys, step: StepLabel, crew: set<nat>, tenant: string)
    requires step.Resume? && StepFor(y, step, crew, tenant) && WorksFor(y, step.w, tenant)
    ensures WorksFor(Next(y, step), step.w, tenant)
  {
    hide Reached;
  }

  /** A worker that works for the tenant goes on doing so. */
  lemma OwnStepWorks(y: Sys, step: StepLabel, tenant: string)
    requires !step.Client? && !step.Invoke? && !step.Resume? && WorksFor(y, step.w, tenant)
    ensures WorksFor(Next(y, step), step.w, tenant)
  {
    forall r | OwnedBy(y, r, tenant) ensures OwnedBy(Next(y, step), r, tenant) { OwnedStays(y, step, r, tenant); }
    hide Reached, Answer, RequestFingerprint, OwnedBy;
  }

  lemma CrewStays(y: Sys, step: StepLabel, crew: set<nat>, tenant: string)
    requires CrewWorksFor(y, crew, tenant) && StepFor(y, step, crew, tenant)
    ensures CrewWorksFor(Next(y, step), crew, tenant)
  {
    hide Reached, Next, WorksFor, Carries;
    forall v | v in crew ensures WorksFor(Next(y, step), v, tenant) {
      if step.Client? || step.w != v {
        OtherPcs(y, step, v);
        WorksStays(y, step, v, tenant);
      } else if step.Invoke? {
        InvokeWorks(y, step, tenant);
      } else if step.Resume? {
        ResumeWorks(y, step, crew, tenant);
      } else {
        OwnStepWorks(y, step, tenant);
      }
    }
  }

  lemma StepLeavesOthers(y: Sys, step: StepLabel, crew: set<nat>, tenant: string)
    requires CrewWorksFor(y, crew, tenant) && StepFor(y, step, crew, tenant)
    ensures OtherTenantsSame(Db(y), Db(Next(y, step)), tenant)
  {
    NextCommits(y, step);
    ReachedInv(y.ops);
    hide Reached, Next, OpOf, Apply, Inv, Carries, OtherTenantsSame, CrewWorksFor, StepFor;
    match OpOf(y, step)
    case None => OtherTenantsReflexive(Db(y), tenant);
    case Some(op) =>
      StepCarries(y, step, crew, tenant);
      StepFrame(Db(y), op, tenant);
      CommitsOnward(y, op);
  }

  /** Over any stretch of a run in which a crew of workers working for one tenant invokes, resumes and executes for it,
      and every other client's call carries it, all other tenants' runs, approvals and trails stay as they were. */
  lemma {:induction false} CrewFrame(steps: seq<StepLabel>, m: nat, crew: set<nat>, tenant: string)
    requires m <= |steps| && CrewWorksFor(Runtime.Run(steps[..m]), crew, tenant)
    requires forall i :: m <= i < |steps| ==> StepFor(Runtime.Run(steps[..i]), steps[i], crew, tenant)
    ensures OtherTenantsSame(Db(Runtime.Run(steps[..m])), Db(Runtime.Run(steps)), tenant)
    ensures CrewWorksFor(Runtime.Run(steps), crew, tenant)
  {
    hide Reached, Next, StepFor, OtherTenantsSame, CrewWorksFor;
    if m == |steps| {
      assert steps[..m] == steps;
      OtherTenantsReflexive(Db(Runtime.Run(steps)), tenant);
    } else {
      var n := |steps| - 1;
      var init := steps[..n];
      assert init[..m] == steps[..m];
      forall i | m <= i < n ensures StepFor(Runtime.Run(init[..i]), init[i], crew, tenant) {
        assert init[..i] == steps[..i];
      }
      CrewFrame(init, m, crew, tenant);
      StepLeavesOthers(Runtime.Run(init), steps[n], crew, tenant);
      CrewStays(Runtime.Run(init), steps[n], crew, tenant);
      SameTransitive(Db(Runtime.Run(steps[..m])), Db(Runtime.Run(init)), Db(Runtime.Run(steps)), tenant);
    }
  }

  /** And so do all their counts. */
  lemma CrewCountsFrame(steps: seq<StepLabel>, m: nat, crew: set<nat>, tenant: string, other: string)
    requires m <= |steps| && CrewWorksFor(Runtime.Run(steps[..m]), crew, tenant) && other != tenant
    requires forall i :: m <= i < |steps| ==> StepFor(Runtime.Run(steps[..i]), steps[i], crew, tenant)
    ensures CountsSame(Db(Runtime.Run(steps[..m])), Db(Runtime.Run(steps)), other)
  {
    hide Reached, Next, StepFor, OtherTenantsSame, CrewWorksFor, CountsSame;
    CrewFrame(steps, m, crew, tenant);
    OthersCountTheSame(Db(Runtime.Run(steps[..m])), Db(Runtime.Run(steps)), tenant, other);
  }
}
