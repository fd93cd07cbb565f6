/**
 Fencing: an attempt that stopped running never runs again, and whatever its worker
 still sends changes nothing.
 */
module Fencing {
  import opened Graph
  import opened Plan
  import opened RunState
  import opened Transitions
  import opened Invariants
  import opened Steps
  import opened Runs

  // Attempt rows are never removed, keep their identity, and are final once they stop running.
  ghost predicate Ages(a: seq<Attempt>, b: seq<Attempt>) {
    && |a| <= |b|
    && forall i {:trigger a[i]} {:trigger b[i]} :: 0 <= i < |a| ==>
         && b[i].agent == a[i].agent && b[i].number == a[i].number
         && b[i].lease.token == a[i].lease.token && b[i].lease.worker == a[i].lease.worker
         && (a[i].status != AttemptRunning ==> b[i] == a[i])
  }

  lemma AgesTransitive(a: seq<Attempt>, b: seq<Attempt>, c: seq<Attempt>)
    requires Ages(a, b) && Ages(b, c)
    ensures Ages(a, c)
  {
  }

  lemma CancelAges(attempts: seq<Attempt>, names: set<Name>)
    ensures Ages(attempts, CancelAttempts(attempts, names))
  {
  }

  lemma BudgetAges(s: State)
    ensures Ages(s.attempts, EnforceBudget(s).attempts)
  {
    CancelAges(s.attempts, NonTerminal(s.agents));
  }

  lemma HandleFailureAges(s: State, n: Name, policy: OnFailure)
    ensures Ages(s.attempts, HandleFailure(s, n, policy).attempts)
  {
    CancelAges(s.attempts, NonTerminal(s.agents));
    CancelAges(s.attempts, NonTerminal(s.agents) - {n});
  }

  lemma ExpireRowAges(s: State, n: Name, row: Agent)
    ensures Ages(s.attempts, ExpireRow(s, n, row).attempts)
  {
    if n in s.agents {
      var t := Lapsed(s, n, row);
      assert Ages(s.attempts, t.attempts);
      CancelAges(t.attempts, NonTerminal(t.agents) - {n});
    }
  }

  lemma {:induction false} ExpireRowsAge(s: State, rows: seq<(Name, Agent)>)
    ensures Ages(s.attempts, ExpireRows(s, rows).attempts)
  {
    if rows == [] {
    } else {
      var init := rows[..|rows| - 1];
      ExpireRowsAge(s, init);
      var last := rows[|rows| - 1];
      ExpireRowAges(ExpireRows(s, init), last.0, last.1);
      AgesTransitive(s.attempts, ExpireRows(s, init).attempts, ExpireRows(s, rows).attempts);
    }
  }

  lemma FinishAges(attempts: seq<Attempt>, id: nat, status: AttemptStatus)
    ensures Ages(attempts, FinishAttempt(attempts, Some(id), status))
  {
  }

  lemma RenewAges(s: State, n: Name, worker: string, token: nat, until: int)
    ensures Ages(s.attempts, Renew(s, n, worker, token, until).attempts)
  {
  }

  lemma StepAges(s: State, step: Step)
    requires Enabled(s, step)
    ensures Ages(s.attempts, Apply(s, step).attempts)
  {
    match step
    case CompleteStep(n, cost, id) =>
      FinishAges(s.attempts, id, AttemptCompleted);
      if MayFinish(s, n, Some(id)) {
        var t := MarkReady(Finished(s, n, cost, Some(id)));
        BudgetAges(t);
        AgesTransitive(s.attempts, t.attempts, EnforceBudget(t).attempts);
      }
    case FailStep(n, id, retryable, requested) =>
      FinishAges(s.attempts, id, AttemptFailed);
      if MayFinish(s, n, Some(id)) {
        var t := Broken(s, n, Some(id), FinalStatus(requested));
        HandleFailureAges(t, n, s.agents[n].onFailure);
        AgesTransitive(s.attempts, t.attempts, HandleFailure(t, n, s.agents[n].onFailure).attempts);
      }
    case RenewStep(n, worker, token, until) => RenewAges(s, n, worker, token, until);
    case CancelAgentStep(n) => CancelAges(s.attempts, {n});
    case CancelRunStep => CancelAges(s.attempts, NonTerminal(s.agents));
    case ExpireStep(now, names) =>
      ListedRows(s, now, names);
      ExpireRowsAge(s, ReadRows(s, names));
    case _ =>
  }

  lemma {:induction false} AttemptsAge(plan: PlanSpec, states: seq<State>, steps: seq<Step>, j: nat, k: nat)
    requires Execution(plan, states, steps) && j <= k < |states|
    ensures Ages(states[j].attempts, states[k].attempts)
    decreases k
  {
    if j == k {
    } else {
      AttemptsAge(plan, states, steps, j, k - 1);
      assert Taken(states, steps, k - 1);
      StepAges(states[k - 1], steps[k - 1]);
      AgesTransitive(states[j].attempts, states[k - 1].attempts, states[k].attempts);
    }
  }

  lemma StaleTokenRefused(s: State, n: Name, worker: string, i: nat)
    requires Owned(s) && i < |s.attempts| && s.attempts[i].status != AttemptRunning
    ensures !HoldsLease(s, n, worker, i)
  {
    if n in s.agents {
      assert AgentOwned(s, n);
    }
  }

  // Once an attempt left `running`, its row is final, and every later completion,
  // failure or renewal that carries its id or token leaves the whole run unchanged.
  lemma Fenced(plan: PlanSpec, states: seq<State>, steps: seq<Step>, j: nat, k: nat, i: nat)
    requires Execution(plan, states, steps) && j <= k < |states|
    requires i < |states[j].attempts| && states[j].attempts[i].status != AttemptRunning
    ensures i < |states[k].attempts| && states[k].attempts[i] == states[j].attempts[i]
    ensures forall n, cost :: Complete(states[k], n, cost, Some(i)) == states[k]
    ensures forall n, retryable, requested :: Fail(states[k], n, Some(i), retryable, requested) == states[k]
    ensures forall n, worker, until ::
              Renew(states[k], n, worker, states[j].attempts[i].lease.token, until) == states[k]
  {
    AttemptsAge(plan, states, steps, j, k);
    Reached(plan, states, steps, j);
    Reached(plan, states, steps, k);
    var s := states[k];
    assert s.attempts[i] == states[j].attempts[i];
    assert AttemptOwned(s, i);
    forall n, worker, until ensures Renew(s, n, worker, i, until) == s {
      StaleTokenRefused(s, n, worker, i);
    }
  }

  // What a successful round of renewal tells the worker: its attempt ran the agent all
  // the time since the claim, so nobody else did.
  lemma RenewalsMeanOwnership(plan: PlanSpec, states: seq<State>, steps: seq<Step>,
                              j: nat, m: nat, k: nat, n: Name, worker: string, i: nat)
    requires Execution(plan, states, steps) && j <= m <= k < |states|
    requires HoldsLease(states[j], n, worker, i) && HoldsLease(states[k], n, worker, i)
    ensures HoldsLease(states[m], n, worker, i)
    ensures forall l: nat :: RunsUnder(states[m], n, l) ==> l == i
  {
    Reached(plan, states, steps, j);
    Reached(plan, states, steps, m);
    Reached(plan, states, steps, k);
    AttemptsAge(plan, states, steps, j, m);
    AttemptsAge(plan, states, steps, m, k);
    assert AgentOwned(states[j], n) && AgentOwned(states[k], n);
    assert states[m].attempts[i].status == AttemptRunning;
    assert AttemptOwned(states[m], i) && AgentOwned(states[m], n);
    forall l: nat | RunsUnder(states[m], n, l) ensures l == i {
      assert AttemptOwned(states[m], l);
    }
  }

  // At most one attempt of an agent is ever completed, and only of a completed agent.
  lemma OneCompletedAttempt(plan: PlanSpec, states: seq<State>, steps: seq<Step>, k: nat, i: nat, j: nat)
    requires Execution(plan, states, steps) && k < |states|
    requires i < |states[k].attempts| && states[k].attempts[i].status == AttemptCompleted
    requires j < |states[k].attempts| && states[k].attempts[j].status == AttemptCompleted
    ensures states[k].attempts[i].agent in states[k].agents
         && states[k].agents[states[k].attempts[i].agent].status == Completed
    ensures states[k].attempts[i].agent == states[k].attempts[j].agent ==> i == j
  {
    Reached(plan, states, steps, k);
    assert AttemptOwned(states[k], i);
  }

  // When every agent is terminal, only spawning and resumption change any status of
  // an agent or an attempt.
  lemma SettledRunStays(plan: PlanSpec, states: seq<State>, steps: seq<Step>, k: nat)
    requires Execution(plan, states, steps) && k < |steps|
    requires AllTerminal(states[k].agents) && !steps[k].ResumeStep? && !steps[k].SpawnStep?
    ensures states[k + 1].agents.Keys == states[k].agents.Keys
    ensures forall n :: n in states[k].agents ==> states[k + 1].agents[n].status == states[k].agents[n].status
    ensures states[k + 1].attempts == states[k].attempts
  {
    Reached(plan, states, steps, k);
    assert Taken(states, steps, k);
    var s, t := states[k], states[k + 1];
    StepKeepsCore(s, steps[k]);
    forall n | n in s.agents ensures t.agents[n].status == s.agents[n].status {
      assert Advances(s.agents[n], t.agents[n]);
    }
    StepAges(s, steps[k]);
    forall i: nat | i < |s.attempts| ensures t.attempts[i] == s.attempts[i] {
      assert AttemptOwned(s, i) && AgentOwned(s, s.attempts[i].agent);
    }
    NoNewAttempt(s, steps[k]);
  }

  lemma {:induction false} ExpireRowsSameLength(s: State, rows: seq<(Name, Agent)>)
    ensures |ExpireRows(s, rows).attempts| == |s.attempts|
  {
    if rows == [] {
    } else {
      ExpireRowsSameLength(s, rows[..|rows| - 1]);
    }
  }

  // Only a successful claim adds an attempt.
  lemma NoNewAttempt(s: State, step: Step)
    requires Enabled(s, step)
    ensures (step.ClaimStep? && MayClaim(s, step.n)) || |Apply(s, step).attempts| == |s.attempts|
  {
    if step.ExpireStep? {
      ListedRows(s, step.now, step.names);
      ExpireRowsSameLength(s, ReadRows(s, step.names));
    }
  }

  // ---------------------------------------------------------------------------
  // Claims decided on one snapshot
  // ---------------------------------------------------------------------------

  // The write of a claim whose checks were made earlier: only the status is rechecked.
  function CommitClaim(s: State, n: Name, worker: string, until: int): State {
    if n in s.agents && s.agents[n].status == Queued then
      var lease := Lease(worker, |s.attempts|, until);
      s.(agents := s.agents[n := s.agents[n].(status := Running, lease := Some(lease))],
         attempts := s.attempts + [Attempt(n, MaxNumber(s.attempts, n) + 1, AttemptRunning, lease)],
         status := Running)
    else s
  }

  function CommitAll(s: State, names: seq<Name>, worker: string, until: int): State {
    if names == [] then s
    else CommitClaim(CommitAll(s, names[..|names| - 1], worker, until), names[|names| - 1], worker, until)
  }

  lemma {:induction false} CommitAllRuns(s: State, names: seq<Name>, worker: string, until: int)
    requires forall i :: 0 <= i < |names| ==> MayClaim(s, names[i])
    ensures CommitAll(s, names, worker, until).agents.Keys == s.agents.Keys
    ensures forall n :: n in s.agents ==>
              CommitAll(s, names, worker, until).agents[n].status == if n in names then Running else s.agents[n].status
  {
    if names == [] {
    } else {
      var init := names[..|names| - 1];
      assert names == init + [names[|names| - 1]];
      CommitAllRuns(s, init, worker, until);
    }
  }

  // However many agents pass the check on one snapshot, and in whatever order their
  // claims commit, the limit holds.
  lemma SnapshotClaimsFit(s: State, names: seq<Name>, worker: string, until: int)
    requires Listed(s) && WithinLimit(s) && EffectiveLimit(s.config).Some?
    requires Distinct(names) && forall i :: 0 <= i < |names| ==> MayClaim(s, names[i])
    ensures |names| <= EffectiveLimit(s.config).value - |WithStatus(s.agents, Running)|
    ensures |WithStatus(CommitAll(s, names, worker, until).agents, Running)| <= EffectiveLimit(s.config).value
  {
    var claimable := Claimable(s);
    var queued := Select(s.order, WithStatus(s.agents, Queued));
    SelectAll(s, WithStatus(s.agents, Queued));
    DistinctSlice(queued, 0, |claimable|);
    assert claimable == queued[0..|claimable|];
    DistinctSize(claimable);
    DistinctSize(names);
    assert Members(names) <= Members(claimable) by {
      forall n | n in Members(names) ensures n in claimable {
        var i :| 0 <= i < |names| && names[i] == n;
        assert MayClaim(s, names[i]);
      }
    }
    SubsetSize(Members(names), Members(claimable));
    CommitAllRuns(s, names, worker, until);
    var running, after := WithStatus(s.agents, Running), WithStatus(CommitAll(s, names, worker, until).agents, Running);
    assert after <= running + Members(names);
    SubsetSize(after, running + Members(names));
    UnionSize(running, Members(names));
  }

  lemma UnionSize<T>(a: set<T>, b: set<T>)
    ensures |a + b| <= |a| + |b|
  {
    assert a + b == a + (b - a);
    assert |b| == |b - a| + |b * a| by {
      assert b == (b - a) + (b * a);
    }
  }

  // Where the check still passes, the write is the whole claim.
  lemma CommitIsClaim(s: State, n: Name, worker: string, until: int)
    requires MayClaim(s, n)
    ensures CommitClaim(s, n, worker, until) == Claim(s, n, worker, until)
  {
  }
}
