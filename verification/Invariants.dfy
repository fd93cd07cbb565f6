/**
 What every transaction keeps: row and spec agreement, single ownership, dependency
 safety, attempt numbering and the concurrency limit.
 */
module Invariants {
  import opened Graph
  import opened Plan
  import opened RunState
  import opened Transitions
  import opened DependencyGraphs

  // ---------------------------------------------------------------------------
  // The invariants
  // ---------------------------------------------------------------------------

  // `runs.spec` and the agent rows describe the same agents.
  ghost predicate SpecAgrees(s: State) {
    && Listed(s)
    && NamesOf(s.spec) == s.order
    && (forall i :: 0 <= i < |s.spec| ==>
          s.spec[i].name in s.agents && s.agents[s.spec[i].name].dependsOn == Members(s.spec[i].dependsOn))
    && Closed(Graphed(s.agents))
  }

  lemma DependencyKnown(agents: Agents, n: Name, d: Name)
    requires Closed(Graphed(agents)) && n in agents && d in agents[n].dependsOn
    ensures d in agents
  {
    var deps := Graphed(agents);
    assert n in deps && deps[n] == agents[n].dependsOn;
    assert d in deps[n];
    assert d in deps;
  }

  ghost predicate AgentOwned(s: State, n: Name)
    requires n in s.agents
  {
    var a := s.agents[n];
    && (a.status == Running <==> a.lease.Some?)
    && (a.lease.Some? ==>
          var i := a.lease.value.token;
          i < |s.attempts| && s.attempts[i].agent == n && s.attempts[i].status == AttemptRunning
          && s.attempts[i].lease == a.lease.value)
  }

  ghost predicate AttemptOwned(s: State, i: nat)
    requires i < |s.attempts|
  {
    var t := s.attempts[i];
    && t.agent in s.agents
    && t.lease.token == i
    && (t.status == AttemptRunning ==> s.agents[t.agent].lease == Some(t.lease))
    && (t.status == AttemptCompleted ==> s.agents[t.agent].status == Completed)
  }

  // An agent runs exactly when one attempt of it does, under the same lease.
  ghost predicate Owned(s: State) {
    && (forall n {:trigger AgentOwned(s, n)} :: n in s.agents ==> AgentOwned(s, n))
    && (forall i: nat {:trigger AttemptOwned(s, i)} :: i < |s.attempts| ==> AttemptOwned(s, i))
    && (forall i, j :: 0 <= i < j < |s.attempts| && s.attempts[i].status == s.attempts[j].status == AttemptCompleted
          ==> s.attempts[i].agent != s.attempts[j].agent)
  }

  // Past the dependency gate.
  predicate Released(status: Status) {
    status == Queued || status == Running || status == Completed
  }

  ghost predicate DepsHeld(agents: Agents, n: Name)
    requires n in agents
  {
    Released(agents[n].status) ==> DepsDone(agents, agents[n].dependsOn)
  }

  ghost predicate DepSafe(agents: Agents) {
    forall n {:trigger DepsHeld(agents, n)} :: n in agents ==> DepsHeld(agents, n)
  }

  // The `done` events are the completed agents, each once and after its dependencies.
  ghost predicate DoneInOrder(s: State) {
    && DependenciesFirst(Graphed(s.agents), s.done)
    && Members(s.done) == WithStatus(s.agents, Completed)
  }

  // The agent and the number of every attempt, oldest first.
  function ClaimLog(attempts: seq<Attempt>): seq<(Name, nat)> {
    seq(|attempts|, i requires 0 <= i < |attempts| => (attempts[i].agent, attempts[i].number))
  }

  function ClaimCount(log: seq<(Name, nat)>, n: Name): nat {
    if log == [] then 0
    else ClaimCount(log[..|log| - 1], n) + if log[|log| - 1].0 == n then 1 else 0
  }

  // The attempts of an agent are numbered 1, 2, 3, ...
  ghost predicate Numbered(log: seq<(Name, nat)>) {
    forall i :: 0 <= i < |log| ==> log[i].1 == ClaimCount(log[..i], log[i].0) + 1
  }

  // Waiting for a first or for another attempt.
  predicate Resting(status: Status) {
    status == Pending || status == Queued || status == Paused
  }

  // The number of claims that the retries granted so far pay for.
  function Granted(a: Agent): int {
    a.retryAttempt + if Resting(a.status) then 0 else 1
  }

  function Max0(k: int): nat {
    if k > 0 then k else 0
  }

  ghost predicate RetriesPaid(s: State, n: Name)
    requires n in s.agents
  {
    && 0 <= s.agents[n].retryAttempt <= Max0(s.agents[n].retryCount)
    && ClaimCount(ClaimLog(s.attempts), n) <= Granted(s.agents[n])
  }

  ghost predicate RetriesBounded(s: State) {
    && Numbered(ClaimLog(s.attempts))
    && forall n {:trigger RetriesPaid(s, n)} :: n in s.agents ==> RetriesPaid(s, n)
  }

  ghost predicate WithinLimit(s: State) {
    EffectiveLimit(s.config).Some? ==> |WithStatus(s.agents, Running)| <= EffectiveLimit(s.config).value
  }

  ghost predicate Core(s: State) {
    SpecAgrees(s) && Owned(s) && DepSafe(s.agents) && DoneInOrder(s) && RetriesBounded(s) && WithinLimit(s)
  }

  // ---------------------------------------------------------------------------
  // Quiet changes: nothing is claimed and nothing completes
  // ---------------------------------------------------------------------------

  ghost predicate QuietRow(s: State, t: State, n: Name)
    requires n in s.agents && n in t.agents
  {
    var a, b := s.agents[n], t.agents[n];
    && b.dependsOn == a.dependsOn && b.onFailure == a.onFailure && b.retryCount == a.retryCount && b.cost == a.cost
    && b.maxSubagents == a.maxSubagents
    && (b.status == Completed <==> a.status == Completed)
    && (b.status == Running ==> a.status == Running)
    && (Released(b.status) ==> Released(a.status) || DepsDone(s.agents, a.dependsOn))
    && a.retryAttempt <= b.retryAttempt && (b.retryAttempt > a.retryAttempt ==> b.retryAttempt <= a.retryCount)
    && Granted(a) <= Granted(b)
  }

  ghost predicate Quiet(s: State, t: State) {
    && t.spec == s.spec && t.order == s.order && t.config == s.config && t.done == s.done
    && t.agents.Keys == s.agents.Keys
    && ClaimLog(t.attempts) == ClaimLog(s.attempts)
    && forall n {:trigger QuietRow(s, t, n)} :: n in s.agents ==> QuietRow(s, t, n)
  }

  lemma SameDepsDone(s: State, t: State, deps: set<Name>)
    requires Quiet(s, t)
    ensures DepsDone(s.agents, deps) <==> DepsDone(t.agents, deps)
  {
    forall d | d in s.agents ensures QuietRow(s, t, d) {
    }
  }

  lemma QuietTransitive(s: State, t: State, u: State)
    requires Quiet(s, t) && Quiet(t, u)
    ensures Quiet(s, u)
  {
    forall n | n in s.agents ensures QuietRow(s, u, n) {
      assert QuietRow(s, t, n) && QuietRow(t, u, n);
      SameDepsDone(s, t, s.agents[n].dependsOn);
    }
  }

  lemma QuietKeepsCore(s: State, t: State)
    requires Core(s) && Quiet(s, t) && Owned(t)
    ensures Core(t)
  {
    assert Graphed(t.agents) == Graphed(s.agents) by {
      forall n | n in s.agents ensures t.agents[n].dependsOn == s.agents[n].dependsOn {
        assert QuietRow(s, t, n);
      }
    }
    assert SpecAgrees(t) by {
      forall i | 0 <= i < |s.spec| ensures t.agents[s.spec[i].name].dependsOn == Members(s.spec[i].dependsOn) {
        assert QuietRow(s, t, s.spec[i].name);
      }
    }
    forall n | n in t.agents ensures DepsHeld(t.agents, n) {
      assert QuietRow(s, t, n) && DepsHeld(s.agents, n);
      SameDepsDone(s, t, s.agents[n].dependsOn);
    }
    assert WithStatus(t.agents, Completed) == WithStatus(s.agents, Completed) by {
      forall n | n in s.agents ensures t.agents[n].status == Completed <==> s.agents[n].status == Completed {
        assert QuietRow(s, t, n);
      }
    }
    forall n | n in t.agents ensures RetriesPaid(t, n) {
      assert QuietRow(s, t, n) && RetriesPaid(s, n);
    }
    assert WithStatus(t.agents, Running) <= WithStatus(s.agents, Running) by {
      forall n | n in t.agents && t.agents[n].status == Running ensures s.agents[n].status == Running {
        assert QuietRow(s, t, n);
      }
    }
    SubsetSize(WithStatus(t.agents, Running), WithStatus(s.agents, Running));
  }

  // ---------------------------------------------------------------------------
  // Progress: outside resumption, agents only ever use up what is left of their life
  // ---------------------------------------------------------------------------

  function Rank(status: Status): nat {
    match status
    case Pending => 4
    case Queued => 3
    case Running => 2
    case Paused => 1
    case _ => 0
  }

  // Five for every retry that is left, plus the rank of the status.
  function Fuel(a: Agent): nat {
    5 * Max0(a.retryCount - a.retryAttempt) + Rank(a.status)
  }

  ghost predicate Advances(a: Agent, b: Agent) {
    && b.dependsOn == a.dependsOn && b.onFailure == a.onFailure && b.retryCount == a.retryCount
    && b.maxSubagents == a.maxSubagents
    && (a.status.Terminal() ==> b.status == a.status && b.retryAttempt == a.retryAttempt && b.cost == a.cost)
    && (b.status == Pending ==> a.status == Pending)
    && (a.status == Paused ==> b.status == Paused || b.status.Terminal())
    && ((b.status == a.status && b.retryAttempt == a.retryAttempt) || Fuel(b) < Fuel(a))
  }

  ghost predicate AllAdvance(a: Agents, b: Agents) {
    && a.Keys == b.Keys
    && forall n {:trigger Advances(a[n], b[n])} :: n in a ==> Advances(a[n], b[n])
  }

  lemma AdvanceTransitive(a: Agents, b: Agents, c: Agents)
    requires AllAdvance(a, b) && AllAdvance(b, c)
    ensures AllAdvance(a, c)
  {
    forall n | n in a ensures Advances(a[n], c[n]) {
      assert Advances(a[n], b[n]) && Advances(b[n], c[n]);
    }
  }

  // ---------------------------------------------------------------------------
  // The updates that transactions are made of
  // ---------------------------------------------------------------------------

  lemma CancelAttemptsLog(attempts: seq<Attempt>, names: set<Name>)
    ensures ClaimLog(CancelAttempts(attempts, names)) == ClaimLog(attempts)
  {
  }

  lemma CancelSetKeeps(s: State, names: set<Name>)
    requires Owned(s) && names <= NonTerminal(s.agents)
    ensures Owned(CancelSet(s, names)) && Quiet(s, CancelSet(s, names))
    ensures AllAdvance(s.agents, CancelSet(s, names).agents)
  {
    var t := CancelSet(s, names);
    CancelAttemptsLog(s.attempts, names);
    forall n | n in s.agents ensures AgentOwned(t, n) && QuietRow(s, t, n) && Advances(s.agents[n], t.agents[n]) {
      assert AgentOwned(s, n);
    }
    forall i: nat | i < |t.attempts| ensures AttemptOwned(t, i) {
      assert AttemptOwned(s, i);
    }
  }

  // Waiting agents may be marked, released or failed without touching any attempt.
  lemma WaitingMovesKeep(s: State, t: State, names: set<Name>)
    requires Owned(s) && names <= WaitingSet(s.agents)
    requires t == s.(agents := t.agents) && t.agents.Keys == s.agents.Keys
    requires forall n :: n in s.agents && n !in names ==> t.agents[n] == s.agents[n]
    requires forall n :: n in names ==>
               && t.agents[n] == s.agents[n].(status := t.agents[n].status, lease := t.agents[n].lease)
               && (t.agents[n].lease == s.agents[n].lease || t.agents[n].lease == None)
               && (t.agents[n].status == Paused || t.agents[n].status == Failed
                   || (t.agents[n].status == Queued && s.agents[n].status == Pending
                       && DepsDone(s.agents, s.agents[n].dependsOn)))
    ensures Owned(t) && Quiet(s, t) && AllAdvance(s.agents, t.agents)
  {
    forall n | n in s.agents ensures AgentOwned(t, n) && QuietRow(s, t, n) && Advances(s.agents[n], t.agents[n]) {
      assert AgentOwned(s, n);
    }
    forall i: nat | i < |t.attempts| ensures AttemptOwned(t, i) {
      assert AttemptOwned(s, i);
      assert AgentOwned(s, s.attempts[i].agent);
    }
  }

  lemma MarkReadyKeeps(s: State)
    requires Owned(s)
    ensures Owned(MarkReady(s)) && Quiet(s, MarkReady(s)) && AllAdvance(s.agents, MarkReady(s).agents)
  {
    WaitingMovesKeep(s, MarkReady(s), ReadySet(s.agents));
  }

  lemma {:induction false} DoomedWaits(agents: Agents, failed: set<Name>)
    ensures Doomed(agents, failed) <= WaitingSet(agents)
    ensures Doomed(agents, failed) !! failed
    decreases |agents.Keys - failed|
  {
    var hit := Hit(agents, failed);
    if hit == {} {
    } else {
      HitShrinks(agents, failed);
      DoomedWaits(agents, failed + hit);
    }
  }

  lemma CascadeKeeps(s: State, root: Name)
    requires Owned(s)
    ensures Owned(Cascade(s, root)) && Quiet(s, Cascade(s, root)) && AllAdvance(s.agents, Cascade(s, root).agents)
  {
    DoomedWaits(s.agents, {root});
    WaitingMovesKeep(s, Cascade(s, root), Doomed(s.agents, {root}));
  }

  // The columns of the run row do not matter to the invariants.
  lemma RunColumnsKeep(s: State, status: Status, total: real)
    requires Owned(s)
    ensures var t := s.(status := status, totalCost := total);
            Owned(t) && Quiet(s, t) && AllAdvance(s.agents, t.agents)
  {
    var t := s.(status := status, totalCost := total);
    forall n | n in s.agents ensures AgentOwned(t, n) && QuietRow(s, t, n) && Advances(s.agents[n], t.agents[n]) {
      assert AgentOwned(s, n);
    }
    forall i: nat | i < |t.attempts| ensures AttemptOwned(t, i) {
      assert AttemptOwned(s, i);
    }
  }

  ghost predicate Keeps(s: State, t: State) {
    Owned(t) && Quiet(s, t) && AllAdvance(s.agents, t.agents)
  }

  lemma KeepsTransitive(s: State, t: State, u: State)
    requires Keeps(s, t) && Keeps(t, u)
    ensures Keeps(s, u)
  {
    QuietTransitive(s, t, u);
    AdvanceTransitive(s.agents, t.agents, u.agents);
  }

  lemma PauseKeeps(s: State)
    requires Owned(s)
    ensures Keeps(s, PauseWaiting(s))
  {
    var t := s.(agents := Mark(s.agents, WaitingSet(s.agents), Paused));
    WaitingMovesKeep(s, t, WaitingSet(s.agents));
    RunColumnsKeep(t, PauseWaiting(s).status, t.totalCost);
    KeepsTransitive(s, t, PauseWaiting(s));
  }

  lemma CancelAndCloseKeeps(s: State, names: set<Name>, status: Status, total: real)
    requires Owned(s) && names <= NonTerminal(s.agents)
    ensures Keeps(s, CancelSet(s, names).(status := status, totalCost := total))
  {
    CancelSetKeeps(s, names);
    var t := CancelSet(s, names);
    RunColumnsKeep(t, status, total);
    KeepsTransitive(s, t, t.(status := status, totalCost := total));
  }

  lemma EnforceBudgetKeeps(s: State)
    requires Owned(s)
    ensures Keeps(s, EnforceBudget(s))
  {
    RunColumnsKeep(s, s.status, s.totalCost);
    if BudgetExceeded(s) {
      match s.config.onExceed
      case WarnOnExceed =>
      case CancelOnExceed => CancelAndCloseKeeps(s, NonTerminal(s.agents), CostExceeded, TotalCost(s));
      case PauseOnExceed =>
        PauseKeeps(s);
        var t := PauseWaiting(s);
        RunColumnsKeep(t, Paused, TotalCost(s));
        KeepsTransitive(s, t, t.(status := Paused, totalCost := TotalCost(s)));
    }
  }

  lemma CascadeAndReleaseKeeps(s: State, n: Name)
    requires Owned(s)
    ensures Keeps(s, MarkReady(Cascade(s, n)))
  {
    CascadeKeeps(s, n);
    MarkReadyKeeps(Cascade(s, n));
    KeepsTransitive(s, Cascade(s, n), MarkReady(Cascade(s, n)));
  }

  lemma HandleFailureKeeps(s: State, n: Name, policy: OnFailure)
    requires Owned(s)
    ensures Keeps(s, HandleFailure(s, n, policy))
  {
    PauseKeeps(s);
    CancelAndCloseKeeps(s, NonTerminal(s.agents), Failed, s.totalCost);
    CancelAndCloseKeeps(s, NonTerminal(s.agents) - {n}, Failed, s.totalCost);
    CascadeAndReleaseKeeps(s, n);
  }
}
