/**
 What the outcome of an attempt, an expired lease, a cancellation, a claim and a spawn
 write, row by row, and what the callers are told.
 */
module Effects {
  import opened Graph
  import opened Plan
  import opened RunState
  import opened Transitions
  import opened Invariants
  import opened Outcomes
  import opened Blame
  import opened Runs
  import opened CascadeReach
  import opened Store
  import opened Retries
  import opened Laws

  // ---------------------------------------------------------------------------
  // Rows and attempts
  // ---------------------------------------------------------------------------

  // Every other live agent is cancelled.
  ghost predicate OthersCancelled(a: Agents, b: Agents, n: Name) {
    b.Keys == a.Keys && forall m :: m in a && m != n ==>
      b[m] == if Over(a[m].status) then a[m] else a[m].(status := Cancelled, lease := None)
  }

  // Every other agent that has not started is paused.
  ghost predicate OthersPaused(a: Agents, b: Agents, n: Name) {
    b.Keys == a.Keys && forall m :: m in a && m != n ==>
      b[m] == if Idle(a[m].status) then a[m].(status := Paused) else a[m]
  }

  // Every other pending agent whose dependencies completed by then is queued.
  ghost predicate OthersReleased(a: Agents, b: Agents, n: Name) {
    b.Keys == a.Keys && forall m :: m in a && m != n ==>
      b[m] == if a[m].status == Pending && AllDone(b, a[m].dependsOn) then a[m].(status := Queued) else a[m]
  }

  ghost predicate Chained(agents: Agents, n: Name, m: Name) {
    exists p :: WaitingChain(agents, p, m) && p[0] == n
  }

  // Whoever waits behind `n` fails; nobody else is touched.
  ghost predicate ChainedFail(a: Agents, b: Agents, n: Name) {
    b.Keys == a.Keys && forall m :: m in a && m != n ==>
      b[m] == if Chained(a, n, m) then a[m].(status := Failed, lease := None) else a[m]
  }

  // The attempt `i` ended; of the others the running ones were cancelled, or none changed.
  ghost predicate AttemptEnded(a: seq<Attempt>, b: seq<Attempt>, i: nat, status: AttemptStatus, cancelled: bool) {
    && i < |a| && |b| == |a|
    && forall j :: 0 <= j < |a| ==>
         b[j] == if j == i then a[j].(status := status)
                 else if cancelled && a[j].status == AttemptRunning then a[j].(status := AttemptCancelled)
                 else a[j]
  }

  lemma CancelledRest(s: State, t: State, n: Name, i: nat, status: AttemptStatus)
    requires Owned(s) && RunsUnder(s, n, i) && status != AttemptRunning
    requires t.attempts == s.attempts[i := s.attempts[i].(status := status)]
    requires n in s.agents && t.agents.Keys == s.agents.Keys && t.agents[n].status.Terminal()
    requires forall m :: m in s.agents && m != n ==> t.agents[m].status.Terminal() == s.agents[m].status.Terminal()
    ensures AttemptEnded(s.attempts, CancelSet(t, NonTerminal(t.agents)).attempts, i, status, true)
    ensures AttemptEnded(s.attempts, CancelSet(t, NonTerminal(t.agents) - {n}).attempts, i, status, true)
  {
    forall j: nat | j < |s.attempts| && j != i && s.attempts[j].status == AttemptRunning
      ensures s.attempts[j].agent in NonTerminal(t.agents) - {n}
    {
      assert AttemptOwned(s, j) && AttemptOwned(s, i) && AgentOwned(s, s.attempts[j].agent);
    }
  }

  // ---------------------------------------------------------------------------
  // Completion
  // ---------------------------------------------------------------------------

  ghost predicate OverBudget(s: State) {
    s.config.maxCost > 0.0 && SumCost(s.agents, s.order) > s.config.maxCost
  }

  // The completion of `n`, and the release of its dependents.
  ghost predicate FinishedOnly(s: State, u: State, n: Name) {
    && SamePlan(s, u) && n in s.agents && s.agents[n].status == Running && u.agents[n].status == Completed
    && u.status == s.status && u.totalCost == s.totalCost
    && forall m :: m in s.agents && m != n ==>
         u.agents[m] == s.agents[m]
         || (s.agents[m].status == Pending && u.agents[m] == s.agents[m].(status := Queued))
  }

  lemma FinishedOthers(s: State, n: Name, cost: real, i: nat)
    requires n in s.agents && s.agents[n].status == Running
    ensures FinishedOnly(s, MarkReady(Finished(s, n, cost, Some(i))), n)
  {
  }

  lemma BudgetCancels(s: State, u: State, n: Name)
    requires FinishedOnly(s, u, n)
    ensures OthersCancelled(s.agents, CancelSet(u, NonTerminal(u.agents)).agents, n)
    ensures CancelSet(u, NonTerminal(u.agents)).agents[n] == u.agents[n]
  {
  }

  lemma BudgetPauses(s: State, u: State, n: Name)
    requires FinishedOnly(s, u, n)
    ensures OthersPaused(s.agents, PauseWaiting(u).agents, n) && PauseWaiting(u).agents[n] == u.agents[n]
  {
  }

  lemma BudgetCosts(s: State)
    ensures var t := EnforceBudget(s);
            SumCost(t.agents, t.order) == SumCost(s.agents, s.order) && (OverBudget(t) <==> BudgetExceeded(s))
  {
    SameCosts(s.agents, EnforceBudget(s).agents, s.order);
  }

  lemma BudgetRows(s: State, u: State, n: Name)
    requires FinishedOnly(s, u, n)
    ensures var t := EnforceBudget(u);
            && t.agents[n] == u.agents[n] && SamePlan(u, t) && t.done == u.done
            && (BudgetExceeded(u) && s.config.onExceed == CancelOnExceed ==>
                  OthersCancelled(s.agents, t.agents, n) && t.status == CostExceeded
                  && t.totalCost == SumCost(u.agents, u.order))
            && (BudgetExceeded(u) && s.config.onExceed == PauseOnExceed ==>
                  OthersPaused(s.agents, t.agents, n) && t.status == Paused
                  && t.totalCost == SumCost(u.agents, u.order))
            && (!BudgetExceeded(u) || s.config.onExceed == WarnOnExceed ==> t == u)
  {
    BudgetCancels(s, u, n);
    BudgetPauses(s, u, n);
  }

  lemma BudgetAttempts(s: State, u: State, n: Name, i: nat)
    requires Owned(s) && RunsUnder(s, n, i) && FinishedOnly(s, u, n)
    requires u.attempts == s.attempts[i := s.attempts[i].(status := AttemptCompleted)]
    ensures AttemptEnded(s.attempts, EnforceBudget(u).attempts, i, AttemptCompleted,
                         BudgetExceeded(u) && s.config.onExceed == CancelOnExceed)
  {
    CancelledRest(s, u, n, i, AttemptCompleted);
  }

  // What a fenced completion writes: the agent, its attempt and its event; and then, by the
  // total it reaches, a cancelled run, a paused run, or released dependents.
  lemma CompleteLaw(s: State, n: Name, cost: real, i: nat)
    requires Owned(s) && RunsUnder(s, n, i)
    ensures n in s.agents
    ensures var t := Complete(s, n, cost, Some(i));
            var over, total := OverBudget(t), SumCost(t.agents, t.order);
            && SamePlan(s, t) && t.done == s.done + [n]
            && t.agents[n] == s.agents[n].(status := Completed, cost := cost, lease := None)
            && AttemptEnded(s.attempts, t.attempts, i, AttemptCompleted, over && s.config.onExceed == CancelOnExceed)
            && (if over && s.config.onExceed == CancelOnExceed then
                  OthersCancelled(s.agents, t.agents, n) && t.status == CostExceeded && t.totalCost == total
                else if over && s.config.onExceed == PauseOnExceed then
                  OthersPaused(s.agents, t.agents, n) && t.status == Paused && t.totalCost == total
                else
                  OthersReleased(s.agents, t.agents, n) && t.status == s.status && t.totalCost == s.totalCost)
  {
    RunningMayFinish(s, n, i);
    var u := MarkReady(Finished(s, n, cost, Some(i)));
    FinishedOthers(s, n, cost, i);
    BudgetRows(s, u, n);
    BudgetCosts(u);
    BudgetAttempts(s, u, n, i);
    ReleasedOthers(s, n, cost, i);
  }

  lemma {:induction false} SameCosts(a: Agents, b: Agents, order: seq<Name>)
    requires b.Keys == a.Keys && forall n :: n in a ==> b[n].cost == a[n].cost
    ensures SumCost(b, order) == SumCost(a, order)
  {
    if order == [] {
    } else {
      SameCosts(a, b, order[..|order| - 1]);
    }
  }

  lemma ReleasedOthers(s: State, n: Name, cost: real, i: nat)
    requires n in s.agents && s.agents[n].status == Running
    ensures var u := MarkReady(Finished(s, n, cost, Some(i)));
            OthersReleased(s.agents, u.agents, n)
  {
    var f := Finished(s, n, cost, Some(i));
    var u := MarkReady(f);
    forall m | m in s.agents
      ensures DepsDone(f.agents, s.agents[m].dependsOn) <==> AllDone(u.agents, s.agents[m].dependsOn)
    {
      assert forall d :: d in u.agents ==> (u.agents[d].status == Completed <==> f.agents[d].status == Completed);
    }
  }

  // The caller is told exactly whom the new state lets start, in row order.
  lemma CompleteAnswer(s: State, n: Name, cost: real, i: nat)
    requires Owned(s) && RunsUnder(s, n, i)
    ensures CompleteReady(s, n, cost, Some(i)) == Claimable(Complete(s, n, cost, Some(i)))
  {
    RunningMayFinish(s, n, i);
    var u := MarkReady(Finished(s, n, cost, Some(i)));
    if BudgetExceeded(u) && s.config.onExceed != WarnOnExceed {
      assert WithStatus(EnforceBudget(u).agents, Queued) == {};
      SelectNone(u.order);
    }
  }

  // ---------------------------------------------------------------------------
  // Failure
  // ---------------------------------------------------------------------------

  predicate RetryAllowed(a: Agent, retryable: Option<bool>, requested: Status) {
    && requested != CostExceeded && retryable != Some(false)
    && a.onFailure == Retry && a.retryAttempt < a.retryCount
  }

  function FinalOf(requested: Status): Status {
    match requested
    case TimedOut => TimedOut
    case CostExceeded => CostExceeded
    case _ => Failed
  }

  ghost function Failures(agents: Agents): set<Name> {
    set m | m in agents
            && (agents[m].status == Failed || agents[m].status == TimedOut || agents[m].status == CostExceeded)
  }

  // With one more failure the breaker is due.
  ghost predicate TripsNext(s: State) {
    s.config.circuitBreaker.Some? && s.config.circuitBreaker.value.threshold > 0
    && |Failures(s.agents)| + 1 >= s.config.circuitBreaker.value.threshold
  }

  // A failure with a retry left queues the agent and ends the attempt, and that is all.
  lemma RetryLaw(s: State, n: Name, i: nat, retryable: Option<bool>, requested: Status)
    requires Owned(s) && RunsUnder(s, n, i)
    ensures n in s.agents
    ensures RetryAllowed(s.agents[n], retryable, requested) ==>
              var a := s.agents[n];
              Fail(s, n, Some(i), retryable, requested)
              == s.(agents := s.agents[n := a.(status := Queued, lease := None, retryAttempt := a.retryAttempt + 1)],
                    attempts := s.attempts[i := s.attempts[i].(status := AttemptFailed)])
  {
    RunningMayFinish(s, n, i);
  }

  lemma OneMoreFailure(s: State, n: Name, i: nat, final: Status)
    requires n in s.agents && s.agents[n].status == Running && final.Failure()
    ensures BreakerTripped(Broken(s, n, Some(i), final)) <==> TripsNext(s)
  {
    var b := Broken(s, n, Some(i), final);
    assert FailureSet(b.agents) == Failures(s.agents) + {n};
  }

  // The breaker pauses; the breaker or the policy cancels.
  ghost predicate PausesNext(s: State) {
    TripsNext(s) && s.config.circuitBreaker.value.action == PauseWork
  }

  ghost predicate CancelsNext(s: State, policy: OnFailure) {
    (TripsNext(s) && s.config.circuitBreaker.value.action == CancelAll) || (!PausesNext(s) && policy == Stop)
  }

  // `b` is `s` but for the failure of `n`, which was running.
  ghost predicate FailedOnly(s: State, b: State, n: Name) {
    && SamePlan(s, b) && n in s.agents && s.agents[n].status == Running
    && b.agents[n].status.Failure() && b.agents[n].dependsOn == s.agents[n].dependsOn
    && (forall m :: m in s.agents && m != n ==> b.agents[m] == s.agents[m])
    && b.status == s.status
  }

  lemma PausedEffect(s: State, b: State, n: Name)
    requires FailedOnly(s, b, n)
    ensures var t := PauseWaiting(b);
            && OthersPaused(s.agents, t.agents, n) && t.agents[n] == b.agents[n]
            && t.status == if exists m :: m in s.agents && Idle(s.agents[m].status) then Paused else s.status
  {
    SomebodyWaits(s.agents, b.agents, n);
  }

  lemma CancelledEffect(s: State, b: State, n: Name)
    requires FailedOnly(s, b, n)
    ensures OthersCancelled(s.agents, CancelSet(b, NonTerminal(b.agents)).agents, n)
    ensures CancelSet(b, NonTerminal(b.agents)).agents[n] == b.agents[n]
    ensures OthersCancelled(s.agents, StopOthers(b, n).agents, n) && StopOthers(b, n).agents[n] == b.agents[n]
  {
  }

  lemma HandledEffect(s: State, b: State, n: Name, policy: OnFailure)
    requires NoneOverdue(s.agents) && FailedOnly(s, b, n) && (BreakerTripped(b) <==> TripsNext(s))
    ensures var t := HandleFailure(b, n, policy);
            && SamePlan(s, t) && t.done == b.done && t.totalCost == b.totalCost && t.agents[n] == b.agents[n]
            && (if PausesNext(s) then
                  OthersPaused(s.agents, t.agents, n)
                  && t.status == if exists m :: m in s.agents && Idle(s.agents[m].status) then Paused else s.status
                else if CancelsNext(s, policy) then
                  OthersCancelled(s.agents, t.agents, n) && t.status == Failed
                else
                  ChainedFail(s.agents, t.agents, n) && t.status == s.status)
  {
    if PausesNext(s) {
      PausedEffect(s, b, n);
    } else if CancelsNext(s, policy) {
      CancelledEffect(s, b, n);
    } else {
      CascadeEffect(s, b, n);
    }
  }

  lemma HandledAttempts(s: State, b: State, n: Name, i: nat, policy: OnFailure)
    requires Owned(s) && RunsUnder(s, n, i) && FailedOnly(s, b, n) && (BreakerTripped(b) <==> TripsNext(s))
    requires b.attempts == s.attempts[i := s.attempts[i].(status := AttemptFailed)]
    ensures AttemptEnded(s.attempts, HandleFailure(b, n, policy).attempts, i, AttemptFailed, CancelsNext(s, policy))
  {
    CancelledRest(s, b, n, i, AttemptFailed);
  }

  // A final failure: the agent gets the status asked for, and then the breaker, the stop
  // policy or the cascade deals with the others, in this order.
  lemma FinalLaw(s: State, n: Name, i: nat, retryable: Option<bool>, requested: Status)
    requires Owned(s) && NoneOverdue(s.agents) && RunsUnder(s, n, i)
    requires n in s.agents ==> !RetryAllowed(s.agents[n], retryable, requested)
    ensures n in s.agents
    ensures var t, a := Fail(s, n, Some(i), retryable, requested), s.agents[n];
            && SamePlan(s, t) && t.done == s.done && t.totalCost == s.totalCost
            && t.agents[n] == a.(status := FinalOf(requested), lease := None)
            && AttemptEnded(s.attempts, t.attempts, i, AttemptFailed, CancelsNext(s, a.onFailure))
            && (if PausesNext(s) then
                  OthersPaused(s.agents, t.agents, n)
                  && t.status == if exists m :: m in s.agents && Idle(s.agents[m].status) then Paused else s.status
                else if CancelsNext(s, a.onFailure) then
                  OthersCancelled(s.agents, t.agents, n) && t.status == Failed
                else
                  ChainedFail(s.agents, t.agents, n) && t.status == s.status)
  {
    RunningMayFinish(s, n, i);
    var final := FinalStatus(requested);
    var b := Broken(s, n, Some(i), final);
    assert Fail(s, n, Some(i), retryable, requested) == HandleFailure(b, n, s.agents[n].onFailure);
    OneMoreFailure(s, n, i, final);
    HandledEffect(s, b, n, s.agents[n].onFailure);
    HandledAttempts(s, b, n, i, s.agents[n].onFailure);
  }

  lemma SomebodyWaits(a: Agents, b: Agents, n: Name)
    requires b.Keys == a.Keys && n in a && !Idle(a[n].status) && !b[n].status.Waiting()
    requires forall m :: m in a && m != n ==> b[m] == a[m]
    ensures WaitingSet(b) == {} <==> !exists m :: m in a && Idle(a[m].status)
  {
    if m :| m in a && Idle(a[m].status) {
      assert m in WaitingSet(b);
    }
  }

  // The cascade and the release that follows it: the release finds nobody.
  lemma CascadeEffect(s: State, b: State, n: Name)
    requires NoneOverdue(s.agents) && n in s.agents && s.agents[n].status == Running
    requires b.agents.Keys == s.agents.Keys && b.agents[n].status.Failure()
    requires b.agents[n].dependsOn == s.agents[n].dependsOn
    requires forall m :: m in s.agents && m != n ==> b.agents[m] == s.agents[m]
    ensures var t := MarkReady(Cascade(b, n));
            ChainedFail(s.agents, t.agents, n) && t.agents[n] == b.agents[n]
    ensures ReadyNames(Cascade(b, n)) == []
  {
    DoomedWaits(b.agents, {n});
    NobodyReady(s, b, n);
    forall m | m in s.agents && m != n ensures m in Doomed(b.agents, {n}) <==> Chained(s.agents, n, m) {
      DoomedIffChained(b.agents, n, m);
      SameChains(s.agents, b.agents, n, m);
    }
    SelectNone(b.order);
  }

  lemma SameChains(a: Agents, b: Agents, n: Name, m: Name)
    requires b.Keys == a.Keys && n in a && !a[n].status.Waiting() && !b[n].status.Waiting()
    requires forall x :: x in a ==> b[x].dependsOn == a[x].dependsOn && (x != n ==> b[x] == a[x])
    ensures Chained(a, n, m) <==> Chained(b, n, m)
  {
    assert Graphed(a) == Graphed(b);
    assert forall p :: WaitingChain(a, p, m) <==> WaitingChain(b, p, m);
  }

  lemma NobodyReady(s: State, b: State, n: Name)
    requires NoneOverdue(s.agents) && n in s.agents && s.agents[n].status == Running
    requires b.agents.Keys == s.agents.Keys && b.agents[n].status.Failure()
    requires forall m :: m in s.agents && m != n ==> b.agents[m] == s.agents[m]
    ensures ReadySet(Cascade(b, n).agents) == {}
  {
    var c := Cascade(b, n);
    forall m | m in c.agents && c.agents[m].status == Pending ensures !DepsDone(c.agents, c.agents[m].dependsOn) {
      assert Waits(s.agents, m);
      assert forall d :: d in c.agents && c.agents[d].status == Completed ==> s.agents[d].status == Completed;
    }
  }

  // The caller is told to announce the agent itself, exactly when it is queued again.
  lemma FailAnswer(s: State, n: Name, i: nat, retryable: Option<bool>, requested: Status)
    requires Owned(s) && NoneOverdue(s.agents) && RunsUnder(s, n, i)
    ensures n in Fail(s, n, Some(i), retryable, requested).agents
    ensures FailQueued(s, n, Some(i), retryable, requested)
         == if Fail(s, n, Some(i), retryable, requested).agents[n].status == Queued then [n] else []
  {
    RunningMayFinish(s, n, i);
    if !WillRetry(s.agents[n], retryable, FinalStatus(requested)) {
      FinalStays(s, n, i, retryable, requested);
      CascadeEffect(s, Broken(s, n, Some(i), FinalStatus(requested)), n);
    }
  }

  // ---------------------------------------------------------------------------
  // Lease expiry
  // ---------------------------------------------------------------------------

  lemma LapseAttempts(s: State, n: Name)
    requires Owned(s) && n in s.agents && s.agents[n].status == Running
    ensures s.agents[n].lease.Some?
    ensures var a := s.agents[n];
            AttemptEnded(s.attempts, ExpireRow(s, n, a).attempts, a.lease.value.token, AttemptExpired,
                         !CanRetry(a) && a.onFailure == Stop)
  {
    assert AgentOwned(s, n);
    LatestRunningIsTheLease(s, n);
    var i := s.agents[n].lease.value.token;
    if !CanRetry(s.agents[n]) {
      CancelledRest(s, Lapsed(s, n, s.agents[n]), n, i, AttemptExpired);
    }
  }

  // One stale row of a sound run, read as it is.
  lemma LapseLaw(s: State, n: Name)
    requires Owned(s) && DepSafe(s.agents) && NoneOverdue(s.agents)
    requires n in s.agents && s.agents[n].status == Running
    ensures s.agents[n].lease.Some?
    ensures var t, a, i := ExpireRow(s, n, s.agents[n]), s.agents[n], s.agents[n].lease.value.token;
            var retry := a.onFailure == Retry && a.retryAttempt < a.retryCount;
            && SamePlan(s, t) && t.done == s.done && t.totalCost == s.totalCost
            && t.agents[n] == (if retry then a.(status := Queued, lease := None, retryAttempt := a.retryAttempt + 1)
                               else a.(status := Failed, lease := None))
            && AttemptEnded(s.attempts, t.attempts, i, AttemptExpired, !retry && a.onFailure == Stop)
            && (if retry then
                  t.agents == s.agents[n := t.agents[n]] && t.status == s.status
                else if a.onFailure == Stop then
                  OthersCancelled(s.agents, t.agents, n) && t.status == Failed
                else
                  ChainedFail(s.agents, t.agents, n) && t.status == s.status)
  {
    LapseAttempts(s, n);
    if !CanRetry(s.agents[n]) {
      CascadeEffect(s, Lapsed(s, n, s.agents[n]), n);
    }
  }

  // ---------------------------------------------------------------------------
  // Cancellation
  // ---------------------------------------------------------------------------

  // A live run is cancelled with all its live agents and running attempts.
  lemma CancelRunLaw(s: State)
    requires Owned(s)
    ensures Over(s.status) ==> CancelRun(s) == s
    ensures !Over(s.status) ==>
              var t := CancelRun(s);
              && SamePlan(s, t) && t.status == Cancelled && t.done == s.done && t.totalCost == s.totalCost
              && (forall m :: m in s.agents ==>
                    t.agents[m] == if Over(s.agents[m].status) then s.agents[m]
                                   else s.agents[m].(status := Cancelled, lease := None))
              && |t.attempts| == |s.attempts|
              && (forall j :: 0 <= j < |s.attempts| ==>
                    t.attempts[j] == if s.attempts[j].status == AttemptRunning
                                     then s.attempts[j].(status := AttemptCancelled) else s.attempts[j])
  {
    forall j: nat | j < |s.attempts| && s.attempts[j].status == AttemptRunning
      ensures s.attempts[j].agent in NonTerminal(s.agents)
    {
      assert AttemptOwned(s, j) && AgentOwned(s, s.attempts[j].agent);
    }
  }

  // A live agent is cancelled with the attempt that runs it, and nothing else changes.
  lemma CancelAgentLaw(s: State, n: Name)
    requires Owned(s)
    ensures n !in s.agents || Over(s.agents[n].status) ==> CancelAgent(s, n) == s
    ensures n in s.agents && !Over(s.agents[n].status) ==>
              var t := CancelAgent(s, n);
              && t == s.(agents := s.agents[n := s.agents[n].(status := Cancelled, lease := None)],
                         attempts := t.attempts)
              && |t.attempts| == |s.attempts|
              && (forall j :: 0 <= j < |s.attempts| ==>
                    t.attempts[j] == if RunsUnder(s, n, j) then s.attempts[j].(status := AttemptCancelled)
                                     else s.attempts[j])
  {
  }

  // ---------------------------------------------------------------------------
  // Claim and spawn
  // ---------------------------------------------------------------------------

  // The claim opens the attempt with the next number, under one fresh token.
  lemma ClaimLaw(s: State, n: Name, worker: string, until: int)
    requires Core(s) && MayClaim(s, n)
    ensures var t, lease := Claim(s, n, worker, until), Lease(worker, |s.attempts|, until);
            && t == s.(agents := s.agents[n := s.agents[n].(status := Running, lease := Some(lease))],
                       attempts := t.attempts, status := Running)
            && t.attempts == s.attempts + [Attempt(n, t.attempts[|s.attempts|].number, AttemptRunning, lease)]
            && t.attempts[|s.attempts|].number == ClaimCount(ClaimLog(s.attempts), n) + 1
  {
    HighestIsCount(s.attempts, n);
  }

  // The worker gets a queued row without dependencies and an entry in the spec.
  lemma SpawnLaw(s: State, spawner: Name, worker: AgentSpec)
    requires worker.name !in s.agents && spawner in s.agents && !CapReached(s, spawner)
    ensures var entry := AgentSpec(worker.name, [], worker.onFailure, worker.retryCount, None);
            var row := Agent(Queued, {}, worker.onFailure, worker.retryCount, 0, 0.0, None, None);
            Spawn(s, spawner, worker) == s.(spec := s.spec + [entry], agents := s.agents[worker.name := row],
                                            order := s.order + [worker.name])
  {
    assert Members([]) == {};
  }

  // ---------------------------------------------------------------------------
  // Callers that name no attempt
  // ---------------------------------------------------------------------------

  // They reach every agent that is not over, whether it runs or not, and leave all attempts
  // to whatever follows the outcome.
  lemma UnfencedCompleteLaw(s: State, n: Name, cost: real)
    ensures n !in s.agents || Over(s.agents[n].status) ==> Complete(s, n, cost, None) == s
    ensures n in s.agents && !Over(s.agents[n].status) ==>
              var t := Complete(s, n, cost, None);
              && n in t.agents && t.done == s.done + [n]
              && t.agents[n] == s.agents[n].(status := Completed, cost := cost, lease := None)
  {
  }

  lemma UnfencedFailLaw(s: State, n: Name, retryable: Option<bool>, requested: Status)
    ensures n !in s.agents || Over(s.agents[n].status) ==> Fail(s, n, None, retryable, requested) == s
    ensures n in s.agents && !Over(s.agents[n].status) ==>
              var t := Fail(s, n, None, retryable, requested);
              && n in t.agents
              && t.agents[n].status
                 == if RetryAllowed(s.agents[n], retryable, requested) then Queued else FinalOf(requested)
  {
    if n in s.agents && !Over(s.agents[n].status) && !RetryAllowed(s.agents[n], retryable, requested) {
      HandleFailureSparesOwn(Broken(s, n, None, FinalStatus(requested)), n, s.agents[n].onFailure);
    }
  }

  // A named attempt that does not run the agent is refused.
  lemma FencedLaw(s: State, n: Name, cost: real, i: nat, retryable: Option<bool>, requested: Status)
    requires Owned(s) && !RunsUnder(s, n, i)
    ensures Complete(s, n, cost, Some(i)) == s && Fail(s, n, Some(i), retryable, requested) == s
  {
    RunningMayFinish(s, n, i);
  }

  // ---------------------------------------------------------------------------
  // Release and creation
  // ---------------------------------------------------------------------------

  // Exactly the pending agents with all dependencies completed are queued, and they are
  // listed in row order.
  lemma ReleaseLaw(s: State)
    requires Listed(s)
    ensures var t := MarkReady(s);
            && t == s.(agents := t.agents) && t.agents.Keys == s.agents.Keys
            && (forall m :: m in s.agents ==>
                  var a := s.agents[m];
                  && (m in ReadyNames(s) <==> a.status == Pending && AllDone(s.agents, a.dependsOn))
                  && t.agents[m] == if m in ReadyNames(s) then a.(status := Queued) else a)
            && InRowOrder(s.order, ReadyNames(s))
  {
    SelectAll(s, ReadySet(s.agents));
    SelectInOrder(s.order, ReadySet(s.agents));
    forall m | m in s.agents
      ensures m in ReadyNames(s) <==> s.agents[m].status == Pending && AllDone(s.agents, s.agents[m].dependsOn)
    {
      assert m in Members(ReadyNames(s)) <==> m in ReadySet(s.agents);
    }
  }

  // A new run: a row for each agent of the plan, and the settings of the plan, with 25
  // dollars and a pause where it names no budget.
  lemma CreateLaw(plan: PlanSpec, i: nat)
    requires Distinct(NamesOf(plan.agents)) && i < |plan.agents|
    ensures CreateRun(plan).Some?
    ensures var s, a := CreateRun(plan).value, plan.agents[i];
            && a.name in s.agents
            && s.agents[a.name] == Agent(if |a.dependsOn| == 0 then Queued else Pending, Members(a.dependsOn),
                                         a.onFailure, a.retryCount, 0, 0.0, None, a.managerCap)
            && s.spec == plan.agents && s.status == Queued && s.totalCost == 0.0
            && s.attempts == [] && s.done == []
    ensures var config := CreateRun(plan).value.config;
            && config.concurrencyLimit == plan.concurrencyLimit && config.circuitBreaker == plan.circuitBreaker
            && match plan.costBudget
               case None => config.maxCost == 25.0 && config.onExceed == PauseOnExceed
               case Some(budget) => config.maxCost == budget.totalUsd && config.onExceed == budget.onExceed
  {
    InsertedRow(plan.agents, i);
  }
}
