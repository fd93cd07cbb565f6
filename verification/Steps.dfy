/**
 The transactions as steps of a state machine: any worker, operator or timer may
 take any step at any moment.
 */
module Steps {
  import opened Graph
  import opened Plan
  import opened RunState
  import opened Transitions
  import opened Invariants
  import opened Outcomes
  import opened Blame

  // Callers pass the attempt id, as the worker does.
  datatype Step =
    | ClaimStep(n: Name, worker: string, until: int)
    | RenewStep(n: Name, worker: string, token: nat, until: int)
    | CompleteStep(n: Name, cost: real, id: nat)
    | FailStep(n: Name, id: nat, retryable: Option<bool>, requested: Status)
    | CancelAgentStep(n: Name)
    | CancelRunStep
    | RefreshStep
    | MarkReadyStep
    | ResumeStep
    | ExpireStep(now: int, names: seq<Name>)
    | SpawnStep(manager: Name, spawned: AgentSpec)

  // A step is possible; only the listing of the expiry query is constrained.
  ghost predicate Enabled(s: State, step: Step) {
    step.ExpireStep? ==> StaleListing(s, step.now, step.names)
  }

  lemma ListedRows(s: State, now: int, names: seq<Name>)
    requires StaleListing(s, now, names)
    ensures forall i :: 0 <= i < |names| ==> names[i] in s.agents && s.agents[names[i]].status == Running
  {
    forall i | 0 <= i < |names| ensures names[i] in s.agents && s.agents[names[i]].status == Running {
      assert names[i] in Members(names);
    }
  }

  ghost function Apply(s: State, step: Step): State
    requires Enabled(s, step)
  {
    match step
    case ClaimStep(n, worker, until) => Claim(s, n, worker, until)
    case RenewStep(n, worker, token, until) => Renew(s, n, worker, token, until)
    case CompleteStep(n, cost, id) => Complete(s, n, cost, Some(id))
    case FailStep(n, id, retryable, requested) => Fail(s, n, Some(id), retryable, requested)
    case CancelAgentStep(n) => CancelAgent(s, n)
    case CancelRunStep => CancelRun(s)
    case RefreshStep => Refresh(s)
    case MarkReadyStep => MarkReady(s)
    case ResumeStep => Resume(s)
    case ExpireStep(now, names) => ListedRows(s, now, names); ExpirePass(s, names)
    case SpawnStep(manager, spawned) => Spawn(s, manager, spawned)
  }

  // Steps that start nobody, complete nobody and bring nobody back.
  predicate Minor(step: Step) {
    !step.ClaimStep? && !step.CompleteStep? && !step.SpawnStep? && !step.ResumeStep?
  }

  lemma MinorStepKeeps(s: State, step: Step)
    requires Owned(s) && DepSafe(s.agents) && Enabled(s, step) && Minor(step)
    ensures Keeps(s, Apply(s, step))
  {
    match step
    case RenewStep(n, worker, token, until) => RenewKeeps(s, n, worker, token, until);
    case FailStep(n, id, retryable, requested) => FailKeeps(s, n, id, retryable, requested);
    case CancelAgentStep(n) => CancelAgentKeeps(s, n);
    case CancelRunStep => CancelRunKeeps(s);
    case RefreshStep => RefreshKeeps(s);
    case MarkReadyStep => MarkReadyKeeps(s);
    case ExpireStep(now, names) => ExpirePassKeeps(s, now, names);
  }

  lemma ResumeKeepsCore(s: State)
    requires Core(s)
    ensures Core(Resume(s))
  {
    ResumeKeeps(s);
    QuietKeepsCore(s, Resume(s));
  }

  lemma StepKeepsCore(s: State, step: Step)
    requires Core(s) && Enabled(s, step)
    ensures Core(Apply(s, step))
    ensures !step.ResumeStep? && !step.SpawnStep? ==> AllAdvance(s.agents, Apply(s, step).agents)
  {
    if Minor(step) {
      MinorStepKeeps(s, step);
      QuietKeepsCore(s, Apply(s, step));
    } else {
      match step
      case ClaimStep(n, worker, until) => ClaimKeepsCore(s, n, worker, until);
      case CompleteStep(n, cost, id) => CompleteKeepsCore(s, n, cost, id);
      case SpawnStep(manager, spawned) => SpawnKeepsCore(s, manager, spawned);
      case ResumeStep => ResumeKeepsCore(s);
    }
  }

  // ---------------------------------------------------------------------------
  // Waiting work
  // ---------------------------------------------------------------------------

  lemma BudgetUpdates(s: State)
    ensures Blameless(s.agents, EnforceBudget(s).agents)
    ensures Unstranding(s.agents, EnforceBudget(s).agents)
    ensures WithStatus(EnforceBudget(s).agents, Pending) <= WithStatus(s.agents, Pending)
  {
    if BudgetExceeded(s) {
      match s.config.onExceed
      case WarnOnExceed =>
      case CancelOnExceed => CancelUnstranding(s, NonTerminal(s.agents));
      case PauseOnExceed => PauseUnstranding(s);
    }
  }

  lemma FinishedUpdates(s: State, n: Name, cost: real, id: nat)
    requires n in s.agents
    ensures Blameless(s.agents, Finished(s, n, cost, Some(id)).agents)
    ensures Unstranding(s.agents, Finished(s, n, cost, Some(id)).agents)
  {
  }

  lemma CompleteKeepsUnblamed(s: State, n: Name, cost: real, id: nat)
    requires NoneBlamed(s.agents)
    ensures NoneBlamed(Complete(s, n, cost, Some(id)).agents)
  {
    if MayFinish(s, n, Some(id)) {
      var f := Finished(s, n, cost, Some(id));
      FinishedUpdates(s, n, cost, id);
      BlamelessKeeps(s.agents, f.agents);
      MarkReadyBlameless(f);
      BlamelessKeeps(f.agents, MarkReady(f).agents);
      BudgetUpdates(MarkReady(f));
      BlamelessKeeps(MarkReady(f).agents, EnforceBudget(MarkReady(f)).agents);
    }
  }

  lemma CompleteKeepsUnstranded(s: State, n: Name, cost: real, id: nat)
    requires NoneStranded(s.agents)
    ensures NoneStranded(Complete(s, n, cost, Some(id)).agents)
  {
    if MayFinish(s, n, Some(id)) {
      var f := Finished(s, n, cost, Some(id));
      FinishedUpdates(s, n, cost, id);
      UnstrandingKeeps(s.agents, f.agents);
      MarkReadyUnstranding(f);
      UnstrandingKeeps(f.agents, MarkReady(f).agents);
      BudgetUpdates(MarkReady(f));
      UnstrandingKeeps(MarkReady(f).agents, EnforceBudget(MarkReady(f)).agents);
    }
  }

  lemma CompleteNoneOverdue(s: State, n: Name, cost: real, id: nat)
    requires Core(s) && NoneOverdue(s.agents)
    ensures NoneOverdue(Complete(s, n, cost, Some(id)).agents)
  {
    if MayFinish(s, n, Some(id)) {
      var t := MarkReady(Finished(s, n, cost, Some(id)));
      MarkReadyClearsOverdue(Finished(s, n, cost, Some(id)));
      FinishedOwned(s, n, cost, id);
      MarkReadyKeeps(Finished(s, n, cost, Some(id)));
      EnforceBudgetKeeps(t);
      BudgetUpdates(t);
      QuietKeepsNoneOverdue(t, EnforceBudget(t));
    }
  }

  lemma RetriedBlameless(s: State, n: Name, id: Option<nat>)
    requires n in s.agents && DepsDone(s.agents, s.agents[n].dependsOn)
    requires s.agents[n].status == Running
    ensures Blameless(s.agents, Retried(s, n, id).agents)
    ensures Unstranding(s.agents, Retried(s, n, id).agents)
  {
  }

  lemma FailBlameless(s: State, n: Name, id: nat, retryable: Option<bool>, requested: Status)
    requires DepSafe(s.agents) && NoneBlamed(s.agents)
    ensures NoneBlamed(Fail(s, n, Some(id), retryable, requested).agents)
  {
    if MayFinish(s, n, Some(id)) {
      assert DepsHeld(s.agents, n);
      var final := FinalStatus(requested);
      if WillRetry(s.agents[n], retryable, final) {
        RetriedBlameless(s, n, Some(id));
        BlamelessKeeps(s.agents, Retried(s, n, Some(id)).agents);
      } else {
        BrokenBlames(s, n, Some(id), final);
        HandleFailureClearsBlame(Broken(s, n, Some(id), final), n, s.agents[n].onFailure);
      }
    }
  }

  lemma BrokenUnstranding(s: State, n: Name, id: Option<nat>, final: Status)
    requires n in s.agents && final.Failure()
    ensures Unstranding(s.agents, Broken(s, n, id, final).agents)
  {
  }

  lemma FailUnstranding(s: State, n: Name, id: nat, retryable: Option<bool>, requested: Status)
    requires DepSafe(s.agents)
    ensures Unstranding(s.agents, Fail(s, n, Some(id), retryable, requested).agents)
  {
    if MayFinish(s, n, Some(id)) {
      assert DepsHeld(s.agents, n);
      var final := FinalStatus(requested);
      if WillRetry(s.agents[n], retryable, final) {
        RetriedBlameless(s, n, Some(id));
      } else {
        var t := Broken(s, n, Some(id), final);
        BrokenUnstranding(s, n, Some(id), final);
        HandleFailureUnstranding(t, n, s.agents[n].onFailure);
        UnstrandingTransitive(s.agents, t.agents, HandleFailure(t, n, s.agents[n].onFailure).agents);
      }
    }
  }

  lemma RenewUpdates(s: State, n: Name, worker: string, token: nat, until: int)
    ensures Blameless(s.agents, Renew(s, n, worker, token, until).agents)
    ensures Unstranding(s.agents, Renew(s, n, worker, token, until).agents)
  {
  }

  lemma ClaimUpdates(s: State, n: Name, worker: string, until: int)
    ensures Blameless(s.agents, Claim(s, n, worker, until).agents)
    ensures Unstranding(s.agents, Claim(s, n, worker, until).agents)
  {
  }

  lemma CancelUpdates(s: State, n: Name)
    ensures Blameless(s.agents, CancelAgent(s, n).agents)
  {
    CancelBlameless(s, {n});
  }

  lemma CancelRunUpdates(s: State)
    ensures Blameless(s.agents, CancelRun(s).agents)
    ensures Unstranding(s.agents, CancelRun(s).agents)
  {
    CancelBlameless(s, NonTerminal(s.agents));
    CancelUnstranding(s, NonTerminal(s.agents));
  }

  lemma ResumeNoneOverdue(s: State)
    requires Owned(s) && NoneOverdue(s.agents)
    ensures NoneOverdue(Resume(s).agents)
  {
    ResumeKeeps(s);
    QuietKeepsNoneOverdue(s, Resume(s));
  }

  lemma ExpireWaiting(s: State, now: int, names: seq<Name>)
    requires Owned(s) && DepSafe(s.agents) && StaleListing(s, now, names)
    ensures forall i :: 0 <= i < |names| ==> names[i] in s.agents
    ensures NoneBlamed(s.agents) ==> NoneBlamed(ExpirePass(s, names).agents)
    ensures NoneStranded(s.agents) ==> NoneStranded(ExpirePass(s, names).agents)
    ensures NoneOverdue(s.agents) ==> NoneOverdue(ExpirePass(s, names).agents)
  {
    ListedRows(s, now, names);
    ExpireRowsClearBlame(s, names, |names|);
    assert ReadRows(s, names)[..|names|] == ReadRows(s, names);
  }

  lemma KeepsNoneOverdue(s: State, t: State)
    requires Keeps(s, t) && NoneOverdue(s.agents)
    ensures NoneOverdue(t.agents)
  {
    forall n | n in s.agents && t.agents[n].status == Pending ensures s.agents[n].status == Pending {
      assert Advances(s.agents[n], t.agents[n]);
    }
    QuietKeepsNoneOverdue(s, t);
  }

  lemma ClaimNoneOverdue(s: State, n: Name, worker: string, until: int)
    requires NoneOverdue(s.agents)
    ensures NoneOverdue(Claim(s, n, worker, until).agents)
  {
    var t := Claim(s, n, worker, until);
    forall m | m in t.agents ensures Waits(t.agents, m) {
      assert Waits(s.agents, m);
      assert forall d :: d in s.agents && t.agents[d].status == Completed ==> s.agents[d].status == Completed;
    }
  }

  // Holds after every step, resumption included.
  lemma StepKeepsNoneOverdue(s: State, step: Step)
    requires Core(s) && Enabled(s, step) && NoneOverdue(s.agents)
    ensures NoneOverdue(Apply(s, step).agents)
  {
    if Minor(step) {
      MinorStepKeeps(s, step);
      KeepsNoneOverdue(s, Apply(s, step));
    } else {
      match step
      case ClaimStep(n, worker, until) => ClaimNoneOverdue(s, n, worker, until);
      case CompleteStep(n, cost, id) => CompleteNoneOverdue(s, n, cost, id);
      case SpawnStep(manager, spawned) => SpawnNoneOverdue(s, manager, spawned);
      case ResumeStep => ResumeNoneOverdue(s);
    }
  }

  lemma SpawnNoneOverdue(s: State, manager: Name, worker: AgentSpec)
    requires Core(s) && NoneOverdue(s.agents)
    ensures NoneOverdue(Spawn(s, manager, worker).agents)
  {
    var t := Spawn(s, manager, worker);
    forall m | m in t.agents ensures Waits(t.agents, m) {
      if m in s.agents {
        assert Waits(s.agents, m);
        assert m in Graphed(s.agents) && Graphed(s.agents)[m] == s.agents[m].dependsOn;
        assert forall d :: d in t.agents && t.agents[d].status == Completed ==>
                             d in s.agents && s.agents[d].status == Completed;
      }
    }
  }

  lemma SpawnBlameless(s: State, manager: Name, worker: AgentSpec)
    requires Core(s)
    ensures NoneBlamed(s.agents) ==> NoneBlamed(Spawn(s, manager, worker).agents)
    ensures NoneStranded(s.agents) ==> NoneStranded(Spawn(s, manager, worker).agents)
  {
    var t := Spawn(s, manager, worker);
    assert NewAgent(Spawned(worker)).dependsOn == {};
    assert FailureSet(t.agents) == FailureSet(s.agents);
    assert WithStatus(t.agents, Cancelled) == WithStatus(s.agents, Cancelled);
    if NoneBlamed(s.agents) {
      forall m | m in t.agents ensures Unblamed(t.agents, m) {
        if m in s.agents {
          assert Unblamed(s.agents, m);
        }
      }
    }
    if NoneStranded(s.agents) {
      forall m | m in t.agents ensures Unstranded(t.agents, m) {
        if m in s.agents {
          assert Unstranded(s.agents, m);
        }
      }
    }
  }

  // Only resumption can put work behind a failure again.
  lemma StepKeepsNoneBlamed(s: State, step: Step)
    requires Core(s) && Enabled(s, step) && NoneBlamed(s.agents) && !step.ResumeStep?
    ensures NoneBlamed(Apply(s, step).agents)
  {
    match step
    case CompleteStep(n, cost, id) => CompleteKeepsUnblamed(s, n, cost, id);
    case FailStep(n, id, retryable, requested) => FailBlameless(s, n, id, retryable, requested);
    case SpawnStep(manager, spawned) => SpawnBlameless(s, manager, spawned);
    case ExpireStep(now, names) => ExpireWaiting(s, now, names);
    case MarkReadyStep =>
      MarkReadyBlameless(s);
      BlamelessKeeps(s.agents, MarkReady(s).agents);
    case ClaimStep(n, worker, until) =>
      ClaimUpdates(s, n, worker, until);
      BlamelessKeeps(s.agents, Claim(s, n, worker, until).agents);
    case RenewStep(n, worker, token, until) =>
      RenewUpdates(s, n, worker, token, until);
      BlamelessKeeps(s.agents, Renew(s, n, worker, token, until).agents);
    case CancelAgentStep(n) =>
      CancelUpdates(s, n);
      BlamelessKeeps(s.agents, CancelAgent(s, n).agents);
    case CancelRunStep =>
      CancelRunUpdates(s);
      BlamelessKeeps(s.agents, CancelRun(s).agents);
    case RefreshStep =>
  }

  // Only resumption and the cancellation of a single agent can strand pending work.
  lemma StepKeepsNoneStranded(s: State, step: Step)
    requires Core(s) && Enabled(s, step) && NoneStranded(s.agents) && !step.ResumeStep? && !step.CancelAgentStep?
    ensures NoneStranded(Apply(s, step).agents)
  {
    match step
    case CompleteStep(n, cost, id) => CompleteKeepsUnstranded(s, n, cost, id);
    case FailStep(n, id, retryable, requested) =>
      FailUnstranding(s, n, id, retryable, requested);
      UnstrandingKeeps(s.agents, Fail(s, n, Some(id), retryable, requested).agents);
    case SpawnStep(manager, spawned) => SpawnBlameless(s, manager, spawned);
    case ExpireStep(now, names) => ExpireWaiting(s, now, names);
    case CancelRunStep =>
      CancelRunUpdates(s);
      UnstrandingKeeps(s.agents, CancelRun(s).agents);
    case MarkReadyStep =>
      MarkReadyUnstranding(s);
      UnstrandingKeeps(s.agents, MarkReady(s).agents);
    case ClaimStep(n, worker, until) =>
      ClaimUpdates(s, n, worker, until);
      UnstrandingKeeps(s.agents, Claim(s, n, worker, until).agents);
    case RenewStep(n, worker, token, until) =>
      RenewUpdates(s, n, worker, token, until);
      UnstrandingKeeps(s.agents, Renew(s, n, worker, token, until).agents);
    case RefreshStep =>
  }

  lemma MarkReadyUnstranding(s: State)
    ensures Unstranding(s.agents, MarkReady(s).agents)
  {
  }

  // ---------------------------------------------------------------------------
  // The shape of the graph and the run status
  // ---------------------------------------------------------------------------

  lemma {:induction false} AcyclicWithIsolated(before: Deps, after: Deps, w: Name)
    requires Acyclic(before) && Closed(before) && w !in before
    requires after == before[w := {}]
    ensures Acyclic(after)
  {
    forall p | Cycle(after, p) ensures false {
      forall i | 0 < i < |p| ensures p[i] in before && p[i - 1] in before[p[i]] {
        assert p[i] in after && p[i - 1] in after[p[i]];
      }
      assert Cycle(before, p);
    }
  }

  lemma AdvanceSameGraph(a: Agents, b: Agents)
    requires AllAdvance(a, b)
    ensures Graphed(a) == Graphed(b)
  {
    forall n | n in a ensures a[n].dependsOn == b[n].dependsOn {
      assert Advances(a[n], b[n]);
    }
  }

  lemma ResumeSameGraph(s: State)
    ensures Graphed(Resume(s).agents) == Graphed(s.agents)
  {
  }

  lemma SpawnAcyclic(s: State, manager: Name, worker: AgentSpec)
    requires SpecAgrees(s) && Acyclic(Graphed(s.agents))
    ensures Acyclic(Graphed(Spawn(s, manager, worker).agents))
  {
    var t := Spawn(s, manager, worker);
    if t.agents.Keys != s.agents.Keys {
      var w := worker.name;
      assert NewAgent(Spawned(worker)).dependsOn == {};
      assert Graphed(t.agents) == Graphed(s.agents)[w := {}];
      AcyclicWithIsolated(Graphed(s.agents), Graphed(t.agents), w);
    }
  }

  lemma StepSameGraph(s: State, step: Step)
    requires Core(s) && Enabled(s, step) && !step.SpawnStep?
    ensures Graphed(Apply(s, step).agents) == Graphed(s.agents)
  {
    if step.ResumeStep? {
      ResumeSameGraph(s);
    } else {
      StepKeepsCore(s, step);
      AdvanceSameGraph(s.agents, Apply(s, step).agents);
    }
  }

  lemma StepKeepsGraph(s: State, step: Step)
    requires Core(s) && Enabled(s, step)
    ensures !step.SpawnStep? ==> Graphed(Apply(s, step).agents) == Graphed(s.agents)
    ensures Acyclic(Graphed(s.agents)) ==> Acyclic(Graphed(Apply(s, step).agents))
  {
    if !step.SpawnStep? {
      StepSameGraph(s, step);
    } else if Acyclic(Graphed(s.agents)) {
      SpawnAcyclic(s, step.manager, step.spawned);
    }
  }

  // A run that was closed for good has no live agent.
  ghost predicate ClosedRun(s: State) {
    s.status == Cancelled || s.status == CostExceeded ==> AllTerminal(s.agents)
  }

  lemma CancelAllEnds(s: State)
    ensures AllTerminal(CancelSet(s, NonTerminal(s.agents)).agents)
  {
  }

  lemma {:induction false} ExpireRowsStatus(s: State, rows: seq<(Name, Agent)>)
    ensures ExpireRows(s, rows).status == s.status || ExpireRows(s, rows).status == Failed
  {
    if rows == [] {
    } else {
      ExpireRowsStatus(s, rows[..|rows| - 1]);
    }
  }

  lemma RolledUpCloses(s: State)
    requires ClosedRun(s)
    ensures ClosedRun(Refresh(s))
  {
  }

  lemma AdvanceKeepsTerminal(a: Agents, b: Agents)
    requires AllAdvance(a, b) && AllTerminal(a)
    ensures AllTerminal(b)
  {
    forall n | n in b ensures b[n].status.Terminal() {
      assert Advances(a[n], b[n]);
    }
  }

  lemma BudgetCloses(s: State)
    requires s.status != Cancelled && s.status != CostExceeded
    ensures ClosedRun(EnforceBudget(s))
  {
    CancelAllEnds(s);
  }

  // Unless every agent was terminal before, a step closes a run only with its agents.
  lemma LiveStepCloses(s: State, step: Step)
    requires Enabled(s, step) && s.status != Cancelled && s.status != CostExceeded
    ensures ClosedRun(Apply(s, step))
  {
    match step
    case CompleteStep(n, cost, id) =>
      if MayFinish(s, n, Some(id)) {
        BudgetCloses(MarkReady(Finished(s, n, cost, Some(id))));
      }
    case ExpireStep(now, names) =>
      ListedRows(s, now, names);
      ExpireRowsStatus(s, ReadRows(s, names));
    case CancelRunStep => CancelAllEnds(s);
    case RefreshStep => RolledUpCloses(s);
    case FailStep(n, id, retryable, requested) => FailStatus(s, n, id, retryable, requested);
    case _ =>
  }

  lemma FailStatus(s: State, n: Name, id: nat, retryable: Option<bool>, requested: Status)
    ensures var status := Fail(s, n, Some(id), retryable, requested).status;
            status == s.status || status == Failed || status == Paused
  {
  }

  lemma StepKeepsClosedRun(s: State, step: Step)
    requires Core(s) && Enabled(s, step) && ClosedRun(s) && !step.SpawnStep?
    ensures ClosedRun(Apply(s, step))
  {
    if s.status != Cancelled && s.status != CostExceeded {
      LiveStepCloses(s, step);
    } else if step.ResumeStep? {
      ResumeCloses(s);
    } else {
      StepKeepsCore(s, step);
      AdvanceKeepsTerminal(s.agents, Apply(s, step).agents);
    }
  }

  lemma ResumeCloses(s: State)
    requires ClosedRun(s)
    ensures ClosedRun(Resume(s))
  {
  }
}
