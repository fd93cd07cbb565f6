/**
 What a retry costs: without resumption the retries an agent used up are exactly the
 claims it spent, so it is claimed once more until the plan's retries are gone.
 */
module Retries {
  import opened Graph
  import opened Plan
  import opened RunState
  import opened Transitions
  import opened Invariants
  import opened Outcomes
  import opened Steps
  import opened Validation
  import opened Runs
  import opened Exceptions

  // A row rests or runs only if it did so before, with the same retries.
  ghost predicate Gentle(a: Agent, b: Agent) {
    && (Resting(b.status) ==> Resting(a.status) && b.retryAttempt == a.retryAttempt)
    && (b.status == Running ==> a.status == Running && b.retryAttempt == a.retryAttempt)
  }

  ghost predicate AllGentle(a: Agents, b: Agents) {
    b.Keys == a.Keys && forall n {:trigger a[n]} {:trigger b[n]} :: n in a ==> Gentle(a[n], b[n])
  }

  // The same, except that a running row may go back to rest for one more retry.
  ghost predicate Fair(a: Agent, b: Agent) {
    && (Resting(b.status) ==>
          (Resting(a.status) && b.retryAttempt == a.retryAttempt)
          || (a.status == Running && b.retryAttempt == a.retryAttempt + 1))
    && (b.status == Running ==> a.status == Running && b.retryAttempt == a.retryAttempt)
  }

  ghost predicate AllFair(a: Agents, b: Agents) {
    b.Keys == a.Keys && forall n {:trigger a[n]} {:trigger b[n]} :: n in a ==> Fair(a[n], b[n])
  }

  lemma GentleTransitive(a: Agents, b: Agents, c: Agents)
    requires AllGentle(a, b) && AllGentle(b, c)
    ensures AllGentle(a, c)
  {
    forall n | n in a ensures Gentle(a[n], c[n]) {
      assert Gentle(a[n], b[n]) && Gentle(b[n], c[n]);
    }
  }

  lemma FairThenGentle(a: Agents, b: Agents, c: Agents)
    requires AllFair(a, b) && AllGentle(b, c)
    ensures AllFair(a, c)
  {
    forall n | n in a ensures Fair(a[n], c[n]) {
      assert Fair(a[n], b[n]) && Gentle(b[n], c[n]);
    }
  }

  // ---------------------------------------------------------------------------
  // The helpers
  // ---------------------------------------------------------------------------

  lemma ReleaseGentle(agents: Agents, names: set<Name>, status: Status)
    requires status.Terminal()
    ensures AllGentle(agents, Release(agents, names, status))
  {
  }

  lemma MarkGentle(agents: Agents, names: set<Name>, status: Status)
    requires Resting(status) && forall n :: n in names && n in agents ==> Resting(agents[n].status)
    ensures AllGentle(agents, Mark(agents, names, status))
  {
  }

  lemma BudgetGentle(s: State)
    ensures AllGentle(s.agents, EnforceBudget(s).agents)
  {
    ReleaseGentle(s.agents, NonTerminal(s.agents), Cancelled);
    MarkGentle(s.agents, WaitingSet(s.agents), Paused);
  }

  lemma CascadeGentle(s: State, n: Name)
    ensures AllGentle(s.agents, MarkReady(Cascade(s, n)).agents)
  {
    var c := Cascade(s, n);
    ReleaseGentle(s.agents, Doomed(s.agents, {n}), Failed);
    MarkGentle(c.agents, ReadySet(c.agents), Queued);
    GentleTransitive(s.agents, c.agents, MarkReady(c).agents);
  }

  lemma HandleFailureGentle(s: State, n: Name, policy: OnFailure)
    ensures AllGentle(s.agents, HandleFailure(s, n, policy).agents)
  {
    MarkGentle(s.agents, WaitingSet(s.agents), Paused);
    ReleaseGentle(s.agents, NonTerminal(s.agents), Cancelled);
    ReleaseGentle(s.agents, NonTerminal(s.agents) - {n}, Cancelled);
    CascadeGentle(s, n);
  }

  // ---------------------------------------------------------------------------
  // The steps
  // ---------------------------------------------------------------------------

  lemma CompleteFair(s: State, n: Name, cost: real, id: nat)
    ensures AllFair(s.agents, Complete(s, n, cost, Some(id)).agents)
  {
    if MayFinish(s, n, Some(id)) {
      var f := Finished(s, n, cost, Some(id));
      assert AllFair(s.agents, f.agents);
      MarkGentle(f.agents, ReadySet(f.agents), Queued);
      FairThenGentle(s.agents, f.agents, MarkReady(f).agents);
      BudgetGentle(MarkReady(f));
      FairThenGentle(s.agents, MarkReady(f).agents, EnforceBudget(MarkReady(f)).agents);
    }
  }

  lemma FailFair(s: State, n: Name, id: nat, retryable: Option<bool>, requested: Status)
    ensures AllFair(s.agents, Fail(s, n, Some(id), retryable, requested).agents)
  {
    if MayFinish(s, n, Some(id)) && !WillRetry(s.agents[n], retryable, FinalStatus(requested)) {
      var b := Broken(s, n, Some(id), FinalStatus(requested));
      assert AllFair(s.agents, b.agents);
      HandleFailureGentle(b, n, s.agents[n].onFailure);
      FairThenGentle(s.agents, b.agents, HandleFailure(b, n, s.agents[n].onFailure).agents);
    }
  }

  lemma OthersGentle(s: State, n: Name, row: Agent)
    requires n in s.agents
    ensures var t := ExpireRow(s, n, row).agents;
            && t.Keys == s.agents.Keys
            && (forall m :: m in s.agents && m != n ==> Gentle(s.agents[m], t[m]))
            && (CanRetry(row) ==> t[n].retryAttempt == row.retryAttempt + 1)
            && (!CanRetry(row) ==> !Resting(t[n].status) && t[n].status != Running)
  {
    var t := Lapsed(s, n, row);
    if !CanRetry(row) {
      ReleaseGentle(t.agents, NonTerminal(t.agents) - {n}, Cancelled);
      CascadeGentle(t, n);
      assert Gentle(t.agents[n], ExpireRow(s, n, row).agents[n]);
    }
  }

  ghost predicate FairAt(s0: State, names: seq<Name>, m: nat)
    requires PassOver(s0, names)
  {
    m <= |names| && AllFair(s0.agents, Handled(s0, names, m).agents)
  }

  lemma FairNext(s0: State, names: seq<Name>, m: nat)
    requires PassOver(s0, names) && m < |names| && FairAt(s0, names, m)
    ensures FairAt(s0, names, m + 1)
  {
    var s, n := Handled(s0, names, m), names[m];
    PassNext(s0, names, m);
    StillDueAt(s0, names, m);
    OthersGentle(s, n, s0.agents[n]);
    var t := ExpireRow(s, n, s0.agents[n]);
    forall x | x in s0.agents ensures Fair(s0.agents[x], t.agents[x]) {
      assert Fair(s0.agents[x], s.agents[x]);
      if x != n {
        assert Gentle(s.agents[x], t.agents[x]);
      }
    }
  }

  lemma {:induction false} PassFair(s0: State, names: seq<Name>, m: nat)
    requires PassOver(s0, names) && m <= |names|
    ensures FairAt(s0, names, m)
    decreases m
  {
    if m == 0 {
      assert ReadRows(s0, names)[..0] == [];
    } else {
      PassFair(s0, names, m - 1);
      FairNext(s0, names, m - 1);
    }
  }

  lemma ExpireFair(s: State, now: int, names: seq<Name>)
    requires Core(s) && StaleListing(s, now, names)
    ensures forall i :: 0 <= i < |names| ==> names[i] in s.agents
    ensures AllFair(s.agents, ExpirePass(s, names).agents)
  {
    ListedRows(s, now, names);
    PassFair(s, names, |names|);
    assert ReadRows(s, names)[..|names|] == ReadRows(s, names);
  }

  lemma CancelFair(s: State, names: set<Name>)
    ensures AllFair(s.agents, CancelSet(s, names).agents)
  {
    ReleaseGentle(s.agents, names, Cancelled);
  }

  lemma MinorStepFair(s: State, step: Step)
    requires Core(s) && Enabled(s, step) && Minor(step)
    ensures AllFair(s.agents, Apply(s, step).agents)
  {
    match step
    case RenewStep(n, worker, token, until) =>
    case FailStep(n, id, retryable, requested) => FailFair(s, n, id, retryable, requested);
    case CancelAgentStep(n) => CancelFair(s, {n});
    case CancelRunStep => CancelFair(s, NonTerminal(s.agents));
    case RefreshStep =>
    case MarkReadyStep => MarkGentle(s.agents, ReadySet(s.agents), Queued);
    case ExpireStep(now, names) => ExpireFair(s, now, names);
  }

  // ---------------------------------------------------------------------------
  // Claims and retries
  // ---------------------------------------------------------------------------

  // The claims of an agent at rest are its retries; a running one has spent one more.
  ghost predicate Even(s: State, n: Name)
    requires n in s.agents
  {
    var claims := ClaimCount(ClaimLog(s.attempts), n);
    && (Resting(s.agents[n].status) ==> claims == s.agents[n].retryAttempt)
    && (s.agents[n].status == Running ==> claims == s.agents[n].retryAttempt + 1)
  }

  ghost predicate AllEven(s: State) {
    forall n {:trigger Even(s, n)} :: n in s.agents ==> Even(s, n)
  }

  lemma FairKeepsEven(s: State, t: State)
    requires AllEven(s) && AllFair(s.agents, t.agents) && ClaimLog(t.attempts) == ClaimLog(s.attempts)
    ensures AllEven(t)
  {
    forall n | n in t.agents ensures Even(t, n) {
      assert Even(s, n) && Fair(s.agents[n], t.agents[n]);
    }
  }

  lemma ClaimKeepsEven(s: State, n: Name, worker: string, until: int)
    requires Core(s) && AllEven(s)
    ensures AllEven(Claim(s, n, worker, until))
  {
    if MayClaim(s, n) {
      var t := Claim(s, n, worker, until);
      HighestIsCount(s.attempts, n);
      ClaimLogGrows(s.attempts, t.attempts[|s.attempts|]);
      forall m | m in t.agents ensures Even(t, m) {
        assert Even(s, m);
      }
    }
  }

  lemma SpawnKeepsEven(s: State, manager: Name, worker: AgentSpec)
    requires Core(s) && AllEven(s)
    ensures AllEven(Spawn(s, manager, worker))
  {
    var t := Spawn(s, manager, worker);
    forall m | m in t.agents ensures Even(t, m) {
      if m in s.agents {
        assert Even(s, m);
      } else {
        NeverClaimed(s, m, |s.attempts|);
      }
    }
  }

  lemma CompleteKeepsEven(s: State, n: Name, cost: real, id: nat)
    requires Core(s) && AllEven(s)
    ensures AllEven(Complete(s, n, cost, Some(id)))
  {
    CompleteFair(s, n, cost, id);
    CompleteSameClaims(s, n, cost, id);
    FairKeepsEven(s, Complete(s, n, cost, Some(id)));
  }

  lemma CompleteSameClaims(s: State, n: Name, cost: real, id: nat)
    requires Owned(s)
    ensures ClaimLog(Complete(s, n, cost, Some(id)).attempts) == ClaimLog(s.attempts)
  {
    if MayFinish(s, n, Some(id)) {
      var f := Finished(s, n, cost, Some(id));
      FinishedOwned(s, n, cost, id);
      MarkReadyKeeps(f);
      EnforceBudgetKeeps(MarkReady(f));
    }
  }

  lemma StepKeepsEven(s: State, step: Step)
    requires Core(s) && AllEven(s) && Enabled(s, step) && !step.ResumeStep?
    ensures AllEven(Apply(s, step))
  {
    if Minor(step) {
      MinorStepFair(s, step);
      MinorStepKeeps(s, step);
      FairKeepsEven(s, Apply(s, step));
    } else {
      match step
      case ClaimStep(n, worker, until) => ClaimKeepsEven(s, n, worker, until);
      case CompleteStep(n, cost, id) => CompleteKeepsEven(s, n, cost, id);
      case SpawnStep(manager, spawned) => SpawnKeepsEven(s, manager, spawned);
    }
  }

  lemma StartsEven(plan: PlanSpec, s: State)
    requires ValidPlan(plan.agents) && CreateRun(plan) == Some(s)
    ensures AllEven(s)
  {
    forall n | n in s.agents ensures Even(s, n) {
      FreshRow(plan.agents, n);
    }
  }

  lemma NextEven(plan: PlanSpec, states: seq<State>, steps: seq<Step>, k: nat)
    requires Execution(plan, states, steps) && k < |steps| && !steps[k].ResumeStep? && AllEven(states[k])
    ensures AllEven(states[k + 1])
  {
    Reached(plan, states, steps, k);
    assert Taken(states, steps, k);
    StepKeepsEven(states[k], steps[k]);
  }

  lemma {:induction false} AlwaysEven(plan: PlanSpec, states: seq<State>, steps: seq<Step>, k: nat)
    requires Execution(plan, states, steps) && k < |states| && NoResume(steps)
    ensures AllEven(states[k])
  {
    if k == 0 {
      StartsEven(plan, states[0]);
    } else {
      AlwaysEven(plan, states, steps, k - 1);
      NextEven(plan, states, steps, k - 1);
    }
  }

  // Without resumption an agent that is pending, queued or paused was claimed as often as
  // it used a retry, and a running one exactly once more.
  lemma ClaimsPayForRetries(plan: PlanSpec, states: seq<State>, steps: seq<Step>, k: nat, n: Name)
    requires Execution(plan, states, steps) && k < |states| && NoResume(steps) && n in states[k].agents
    ensures var a, claims := states[k].agents[n], ClaimCount(ClaimLog(states[k].attempts), n);
            && (a.status == Pending || a.status == Queued || a.status == Paused ==> claims == a.retryAttempt)
            && (a.status == Running ==> claims == a.retryAttempt + 1)
  {
    AlwaysEven(plan, states, steps, k);
    assert Even(states[k], n);
  }

  lemma RunningMayFinish(s: State, n: Name, i: nat)
    requires Owned(s)
    ensures RunsUnder(s, n, i) <==> MayFinish(s, n, Some(i))
    ensures RunsUnder(s, n, i) ==> n in s.agents && s.agents[n].status == Running
  {
    if RunsUnder(s, n, i) {
      assert AttemptOwned(s, i) && AgentOwned(s, n);
    }
  }

  lemma FinalStays(s: State, n: Name, id: nat, retryable: Option<bool>, requested: Status)
    requires MayFinish(s, n, Some(id)) && !WillRetry(s.agents[n], retryable, FinalStatus(requested))
    ensures n in Fail(s, n, Some(id), retryable, requested).agents
    ensures Fail(s, n, Some(id), retryable, requested).agents[n].status
         == if requested == TimedOut then TimedOut else if requested == CostExceeded then CostExceeded else Failed
  {
    var b := Broken(s, n, Some(id), FinalStatus(requested));
    HandleFailureSparesOwn(b, n, s.agents[n].onFailure);
  }

  lemma HandleFailureSparesOwn(s: State, n: Name, policy: OnFailure)
    requires n in s.agents && s.agents[n].status.Failure()
    ensures n in HandleFailure(s, n, policy).agents
    ensures HandleFailure(s, n, policy).agents[n].status == s.agents[n].status
  {
    DoomedWaits(s.agents, {n});
  }

  // A failure that may be retried queues the agent again exactly as long as its policy is
  // to retry and it was claimed at most `retry_count` times; the next claim is then counted
  // as one more.  Otherwise the failure is final, under the status that was asked for.
  lemma RetriedIff(plan: PlanSpec, states: seq<State>, steps: seq<Step>, k: nat,
                   n: Name, i: nat, retryable: Option<bool>, requested: Status)
    requires Execution(plan, states, steps) && k < |states| && NoResume(steps) && RunsUnder(states[k], n, i)
    ensures n in states[k].agents && n in Fail(states[k], n, Some(i), retryable, requested).agents
    ensures var s, t := states[k], Fail(states[k], n, Some(i), retryable, requested);
            var claims := ClaimCount(ClaimLog(s.attempts), n);
            && (t.agents[n].status == Queued <==>
                  retryable != Some(false) && requested != CostExceeded
                  && s.agents[n].onFailure == Retry && claims <= s.agents[n].retryCount)
            && (t.agents[n].status == Queued ==> t.agents[n].retryAttempt == claims)
            && (t.agents[n].status != Queued ==>
                  t.agents[n].status
                  == if requested == TimedOut then TimedOut
                     else if requested == CostExceeded then CostExceeded
                     else Failed)
  {
    var s := states[k];
    Reached(plan, states, steps, k);
    AlwaysEven(plan, states, steps, k);
    RunningMayFinish(s, n, i);
    assert Even(s, n);
    if !WillRetry(s.agents[n], retryable, FinalStatus(requested)) {
      FinalStays(s, n, i, retryable, requested);
    }
  }
}
