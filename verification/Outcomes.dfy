/**
 Claims, renewals, outcomes and expiry keep the invariants.
 */
module Outcomes {
  import opened Graph
  import opened Plan
  import opened RunState
  import opened Transitions
  import opened Invariants
  import opened DependencyGraphs

  // ---------------------------------------------------------------------------
  // Attempts
  // ---------------------------------------------------------------------------

  lemma LatestRunningIsTheLease(s: State, n: Name)
    requires Owned(s) && n in s.agents
    ensures s.agents[n].status == Running ==>
              s.agents[n].lease.Some? && LatestRunning(s.attempts, n) == s.agents[n].lease.value.token
    ensures s.agents[n].status != Running ==> LatestRunning(s.attempts, n) == -1
  {
    assert AgentOwned(s, n);
    var i := LatestRunning(s.attempts, n);
    if i >= 0 {
      assert AttemptOwned(s, i);
    }
  }

  // One running attempt and its agent leave `running` together.
  lemma AttemptEnds(s: State, t: State, n: Name, i: nat)
    requires Owned(s) && n in s.agents && i < |s.attempts|
    requires s.attempts[i].agent == n && s.attempts[i].status == AttemptRunning
    requires t.agents.Keys == s.agents.Keys && |t.attempts| == |s.attempts|
    requires forall m :: m in s.agents && m != n ==> t.agents[m] == s.agents[m]
    requires t.agents[n].status != Running && t.agents[n].lease == None
    requires forall j :: 0 <= j < |s.attempts| && j != i ==> t.attempts[j] == s.attempts[j]
    requires t.attempts[i] == s.attempts[i].(status := t.attempts[i].status) && t.attempts[i].status != AttemptRunning
    requires t.attempts[i].status == AttemptCompleted ==> t.agents[n].status == Completed
    ensures Owned(t)
    ensures ClaimLog(t.attempts) == ClaimLog(s.attempts)
  {
    assert AttemptOwned(s, i);
    assert AgentOwned(s, n);
    forall m | m in t.agents ensures AgentOwned(t, m) {
      assert AgentOwned(s, m);
    }
    forall j: nat | j < |t.attempts| ensures AttemptOwned(t, j) {
      assert AttemptOwned(s, j);
    }
    forall j, k | 0 <= j < k < |t.attempts| && t.attempts[j].status == t.attempts[k].status == AttemptCompleted
      ensures t.attempts[j].agent != t.attempts[k].agent
    {
      assert AttemptOwned(s, j) && AttemptOwned(s, k);
    }
  }

  lemma RetriedKeeps(s: State, n: Name, i: nat)
    requires Owned(s) && MayFinish(s, n, Some(i)) && CanRetry(s.agents[n])
    ensures Keeps(s, Retried(s, n, Some(i)))
  {
    var t := Retried(s, n, Some(i));
    AttemptEnds(s, t, n, i);
    forall m | m in s.agents ensures QuietRow(s, t, m) && Advances(s.agents[m], t.agents[m]) {
    }
  }

  lemma BrokenKeeps(s: State, n: Name, i: nat, final: Status)
    requires Owned(s) && MayFinish(s, n, Some(i)) && final.Failure()
    ensures Keeps(s, Broken(s, n, Some(i), final))
  {
    var t := Broken(s, n, Some(i), final);
    AttemptEnds(s, t, n, i);
    forall m | m in s.agents ensures QuietRow(s, t, m) && Advances(s.agents[m], t.agents[m]) {
    }
  }

  lemma FailKeeps(s: State, n: Name, i: nat, retryable: Option<bool>, requested: Status)
    requires Owned(s)
    ensures Keeps(s, Fail(s, n, Some(i), retryable, requested))
  {
    if !MayFinish(s, n, Some(i)) {
      RunColumnsKeep(s, s.status, s.totalCost);
    } else if WillRetry(s.agents[n], retryable, FinalStatus(requested)) {
      RetriedKeeps(s, n, i);
    } else {
      var t := Broken(s, n, Some(i), FinalStatus(requested));
      BrokenKeeps(s, n, i, FinalStatus(requested));
      HandleFailureKeeps(t, n, s.agents[n].onFailure);
      KeepsTransitive(s, t, HandleFailure(t, n, s.agents[n].onFailure));
    }
  }

  // ---------------------------------------------------------------------------
  // Completion
  // ---------------------------------------------------------------------------

  lemma SameShape(s: State, t: State)
    requires SpecAgrees(s) && t.spec == s.spec && t.order == s.order && t.agents.Keys == s.agents.Keys
    requires forall m :: m in s.agents ==> t.agents[m].dependsOn == s.agents[m].dependsOn
    ensures SpecAgrees(t) && Graphed(t.agents) == Graphed(s.agents)
  {
  }

  lemma FinishedOwned(s: State, n: Name, cost: real, i: nat)
    requires Owned(s) && MayFinish(s, n, Some(i))
    ensures Owned(Finished(s, n, cost, Some(i)))
    ensures ClaimLog(Finished(s, n, cost, Some(i)).attempts) == ClaimLog(s.attempts)
  {
    AttemptEnds(s, Finished(s, n, cost, Some(i)), n, i);
  }

  lemma FinishedDone(s: State, n: Name, cost: real, i: nat)
    requires DoneInOrder(s) && DepSafe(s.agents) && MayFinish(s, n, Some(i))
    ensures DoneInOrder(Finished(s, n, cost, Some(i)))
  {
    var t := Finished(s, n, cost, Some(i));
    assert Graphed(t.agents) == Graphed(s.agents);
    assert DepsHeld(s.agents, n);
    assert Graphed(s.agents)[n] <= Members(s.done);
    assert n !in Members(s.done);
    ExtendOrder(Graphed(s.agents), s.done, n);
    assert WithStatus(t.agents, Completed) == WithStatus(s.agents, Completed) + {n};
  }

  lemma FinishedRows(s: State, n: Name, cost: real, i: nat)
    requires Core(s) && MayFinish(s, n, Some(i))
    ensures DepSafe(Finished(s, n, cost, Some(i)).agents)
    ensures RetriesBounded(Finished(s, n, cost, Some(i)))
    ensures AllAdvance(s.agents, Finished(s, n, cost, Some(i)).agents)
  {
    var t := Finished(s, n, cost, Some(i));
    FinishedOwned(s, n, cost, i);
    assert DepsHeld(s.agents, n);
    forall m | m in t.agents ensures DepsHeld(t.agents, m) {
      assert DepsHeld(s.agents, m);
    }
    forall m | m in t.agents ensures RetriesPaid(t, m) && Advances(s.agents[m], t.agents[m]) {
      assert RetriesPaid(s, m);
    }
  }

  lemma FinishedKeepsCore(s: State, n: Name, cost: real, i: nat)
    requires Core(s) && MayFinish(s, n, Some(i))
    ensures Core(Finished(s, n, cost, Some(i))) && AllAdvance(s.agents, Finished(s, n, cost, Some(i)).agents)
  {
    var t := Finished(s, n, cost, Some(i));
    FinishedOwned(s, n, cost, i);
    FinishedDone(s, n, cost, i);
    FinishedRows(s, n, cost, i);
    SameShape(s, t);
    SubsetSize(WithStatus(t.agents, Running), WithStatus(s.agents, Running));
  }

  lemma CompleteKeepsCore(s: State, n: Name, cost: real, i: nat)
    requires Core(s)
    ensures Core(Complete(s, n, cost, Some(i))) && AllAdvance(s.agents, Complete(s, n, cost, Some(i)).agents)
  {
    if MayFinish(s, n, Some(i)) {
      var t := Finished(s, n, cost, Some(i));
      FinishedKeepsCore(s, n, cost, i);
      MarkReadyKeeps(t);
      EnforceBudgetKeeps(MarkReady(t));
      KeepsTransitive(t, MarkReady(t), EnforceBudget(MarkReady(t)));
      QuietKeepsCore(t, EnforceBudget(MarkReady(t)));
      AdvanceTransitive(s.agents, t.agents, EnforceBudget(MarkReady(t)).agents);
    } else {
      RunColumnsKeep(s, s.status, s.totalCost);
    }
  }

  // ---------------------------------------------------------------------------
  // Claims and renewals
  // ---------------------------------------------------------------------------

  // With numbers 1, 2, 3, ... the highest is the count.
  lemma {:induction false} HighestIsCount(attempts: seq<Attempt>, n: Name)
    requires Numbered(ClaimLog(attempts))
    ensures MaxNumber(attempts, n) == ClaimCount(ClaimLog(attempts), n)
  {
    if attempts == [] {
    } else {
      var k := |attempts| - 1;
      var init := attempts[..k];
      var log := ClaimLog(attempts);
      assert log[..k] == ClaimLog(init);
      forall i | 0 <= i < k ensures ClaimLog(init)[i].1 == ClaimCount(ClaimLog(init)[..i], ClaimLog(init)[i].0) + 1 {
        assert log[..i] == ClaimLog(init)[..i];
      }
      HighestIsCount(init, n);
      assert log[k].1 == ClaimCount(log[..k], log[k].0) + 1;
      if attempts[k].agent == n {
        assert log[k].0 == n;
      }
    }
  }

  lemma ClaimLogGrows(attempts: seq<Attempt>, a: Attempt)
    requires Numbered(ClaimLog(attempts)) && a.number == ClaimCount(ClaimLog(attempts), a.agent) + 1
    ensures Numbered(ClaimLog(attempts + [a]))
    ensures forall n :: ClaimCount(ClaimLog(attempts + [a]), n)
                     == ClaimCount(ClaimLog(attempts), n) + if n == a.agent then 1 else 0
  {
    var log, longer := ClaimLog(attempts), ClaimLog(attempts + [a]);
    assert longer == log + [(a.agent, a.number)];
    assert longer[..|log|] == log;
    forall i | 0 <= i < |longer| ensures longer[i].1 == ClaimCount(longer[..i], longer[i].0) + 1 {
      if i < |log| {
        assert longer[..i] == log[..i];
        assert log[i].1 == ClaimCount(log[..i], log[i].0) + 1;
      }
    }
  }

  lemma ClaimableRespectsLimit(s: State, n: Name)
    requires n in Claimable(s)
    ensures EffectiveLimit(s.config).Some? ==> |WithStatus(s.agents, Running)| < EffectiveLimit(s.config).value
  {
  }

  lemma ClaimKeepsOwned(s: State, n: Name, worker: string, until: int)
    requires Owned(s) && MayClaim(s, n)
    ensures Owned(Claim(s, n, worker, until))
  {
    var t := Claim(s, n, worker, until);
    assert AgentOwned(s, n);
    forall m | m in t.agents ensures AgentOwned(t, m) {
      assert AgentOwned(s, m);
    }
    forall j: nat | j < |t.attempts| ensures AttemptOwned(t, j) {
      if j < |s.attempts| {
        assert AttemptOwned(s, j);
      }
    }
  }

  lemma ClaimRows(s: State, n: Name, worker: string, until: int)
    requires Core(s) && MayClaim(s, n)
    ensures DepSafe(Claim(s, n, worker, until).agents)
    ensures RetriesBounded(Claim(s, n, worker, until))
    ensures AllAdvance(s.agents, Claim(s, n, worker, until).agents)
  {
    var t := Claim(s, n, worker, until);
    ClaimPaid(s, n, worker, until);
    assert DepsHeld(s.agents, n);
    forall m | m in t.agents ensures DepsHeld(t.agents, m) && Advances(s.agents[m], t.agents[m]) {
      assert DepsHeld(s.agents, m);
    }
  }

  lemma ClaimPaid(s: State, n: Name, worker: string, until: int)
    requires RetriesBounded(s) && MayClaim(s, n)
    ensures RetriesBounded(Claim(s, n, worker, until))
  {
    var t := Claim(s, n, worker, until);
    HighestIsCount(s.attempts, n);
    ClaimLogGrows(s.attempts, t.attempts[|s.attempts|]);
    forall m | m in t.agents ensures RetriesPaid(t, m) {
      assert RetriesPaid(s, m);
    }
  }

  lemma ClaimKeepsCore(s: State, n: Name, worker: string, until: int)
    requires Core(s)
    ensures Core(Claim(s, n, worker, until)) && AllAdvance(s.agents, Claim(s, n, worker, until).agents)
  {
    var t := Claim(s, n, worker, until);
    if MayClaim(s, n) {
      ClaimKeepsOwned(s, n, worker, until);
      ClaimRows(s, n, worker, until);
      SameShape(s, t);
      assert WithStatus(t.agents, Completed) == WithStatus(s.agents, Completed);
      ClaimableRespectsLimit(s, n);
      assert WithStatus(t.agents, Running) == WithStatus(s.agents, Running) + {n};
    } else {
      RunColumnsKeep(s, s.status, s.totalCost);
    }
  }

  lemma RenewKeeps(s: State, n: Name, worker: string, token: nat, until: int)
    requires Owned(s)
    ensures Keeps(s, Renew(s, n, worker, token, until))
  {
    var t := Renew(s, n, worker, token, until);
    if HoldsLease(s, n, worker, token) {
      assert AgentOwned(s, n);
      assert ClaimLog(t.attempts) == ClaimLog(s.attempts);
      forall j: nat | j < |t.attempts| ensures AttemptOwned(t, j) {
        assert AttemptOwned(s, j);
      }
      forall m | m in s.agents ensures AgentOwned(t, m) && QuietRow(s, t, m) && Advances(s.agents[m], t.agents[m]) {
        assert AgentOwned(s, m);
        if m != n && s.agents[m].lease.Some? {
          assert t.attempts[s.agents[m].lease.value.token] == s.attempts[s.agents[m].lease.value.token];
        }
      }
    } else {
      RunColumnsKeep(s, s.status, s.totalCost);
    }
  }

  // ---------------------------------------------------------------------------
  // Expiry
  // ---------------------------------------------------------------------------

  // A row the pass has still to handle: running, unless an earlier row's stop
  // cancelled it meanwhile.
  ghost predicate StillDue(s0: State, s: State, n: Name) {
    && n in s0.agents && n in s.agents && s0.agents[n].status == Running
    && (s.agents[n].status == Running || s.agents[n].status == Cancelled)
    && s.agents[n].retryAttempt == s0.agents[n].retryAttempt
  }

  ghost predicate Expiring(s0: State, s: State, due: set<Name>) {
    && Keeps(s0, s)
    && forall n {:trigger StillDue(s0, s, n)} :: n in due ==> StillDue(s0, s, n)
  }

  lemma LapsedOwned(s: State, n: Name, row: Agent)
    requires Owned(s) && n in s.agents
    requires s.agents[n].status == Running || s.agents[n].status == Cancelled
    ensures Owned(Lapsed(s, n, row)) && ClaimLog(Lapsed(s, n, row).attempts) == ClaimLog(s.attempts)
  {
    var t := Lapsed(s, n, row);
    LatestRunningIsTheLease(s, n);
    assert AgentOwned(s, n);
    if s.agents[n].status == Running {
      AttemptEnds(s, t, n, LatestRunning(s.attempts, n));
    } else {
      forall m | m in t.agents ensures AgentOwned(t, m) {
        assert AgentOwned(s, m);
      }
      forall j: nat | j < |t.attempts| ensures AttemptOwned(t, j) {
        assert AttemptOwned(s, j);
      }
    }
  }

  lemma LapsedQuiet(s0: State, s: State, due: set<Name>, n: Name)
    requires DepSafe(s0.agents) && Expiring(s0, s, due) && n in due && StillDue(s0, s, n)
    ensures var t := Lapsed(s, n, s0.agents[n]);
            t.agents.Keys == s0.agents.Keys
            && forall m :: m in s0.agents ==> QuietRow(s0, t, m) && Advances(s0.agents[m], t.agents[m])
  {
    var t := Lapsed(s, n, s0.agents[n]);
    assert QuietRow(s0, s, n) && DepsHeld(s0.agents, n);
    forall m | m in s0.agents ensures QuietRow(s0, t, m) && Advances(s0.agents[m], t.agents[m]) {
      assert QuietRow(s0, s, m) && Advances(s0.agents[m], s.agents[m]);
    }
  }

  lemma LapsedExpiring(s0: State, s: State, due: set<Name>, n: Name)
    requires DepSafe(s0.agents) && Expiring(s0, s, due) && n in due && StillDue(s0, s, n)
    ensures Expiring(s0, Lapsed(s, n, s0.agents[n]), due - {n})
  {
    var row := s0.agents[n];
    var t := Lapsed(s, n, row);
    LapsedOwned(s, n, row);
    LapsedQuiet(s0, s, due, n);
    forall m | m in due - {n} ensures StillDue(s0, t, m) {
      assert StillDue(s0, s, m);
    }
  }

  lemma ExpiringContinues(s0: State, s: State, t: State, due: set<Name>)
    requires Expiring(s0, s, due) && Keeps(s, t)
    requires forall n :: n in due ==>
               (n in t.agents && n in s.agents
                && (t.agents[n] == s.agents[n]
                    || t.agents[n] == s.agents[n].(status := Cancelled, lease := t.agents[n].lease)))
    ensures Expiring(s0, t, due)
  {
    KeepsTransitive(s0, s, t);
    forall n | n in due ensures StillDue(s0, t, n) {
      assert StillDue(s0, s, n);
    }
  }

  lemma CascadeSparesDue(s: State, n: Name, due: set<Name>)
    requires forall m :: m in due ==> m in s.agents && !s.agents[m].status.Waiting()
    ensures forall m :: m in due ==> MarkReady(Cascade(s, n)).agents[m] == s.agents[m]
  {
    DoomedWaits(s.agents, {n});
  }

  lemma ExpireRowContinues(s0: State, s: State, due: set<Name>, n: Name)
    requires DepSafe(s0.agents) && Expiring(s0, s, due) && n in due && StillDue(s0, s, n)
    ensures Expiring(s0, ExpireRow(s, n, s0.agents[n]), due - {n})
  {
    var row := s0.agents[n];
    var t := Lapsed(s, n, row);
    var left := due - {n};
    LapsedExpiring(s0, s, due, n);
    forall m | m in left ensures m in t.agents && !t.agents[m].status.Waiting() {
      assert StillDue(s0, t, m);
    }
    if CanRetry(row) {
    } else if row.onFailure == Stop {
      var u := StopOthers(t, n);
      CancelAndCloseKeeps(t, NonTerminal(t.agents) - {n}, Failed, t.totalCost);
      ExpiringContinues(s0, t, u, left);
    } else {
      var u := MarkReady(Cascade(t, n));
      CascadeAndReleaseKeeps(t, n);
      CascadeSparesDue(t, n, left);
      ExpiringContinues(s0, t, u, left);
    }
  }

  lemma {:induction false} ExpireRowsContinue(s0: State, names: seq<Name>, k: nat)
    requires DepSafe(s0.agents) && Owned(s0) && k <= |names|
    requires Distinct(names)
    requires forall i :: 0 <= i < |names| ==> names[i] in s0.agents && s0.agents[names[i]].status == Running
    ensures Expiring(s0, ExpireRows(s0, ReadRows(s0, names)[..k]), Members(names[k..]))
  {
    var rows := ReadRows(s0, names);
    if k == 0 {
      RunColumnsKeep(s0, s0.status, s0.totalCost);
      forall n | n in Members(names[0..]) ensures StillDue(s0, s0, n) {
        assert n in names;
      }
    } else {
      ExpireRowsContinue(s0, names, k - 1);
      assert rows[..k][..k - 1] == rows[..k - 1];
      RestOf(names, k - 1);
      var s := ExpireRows(s0, rows[..k - 1]);
      assert StillDue(s0, s, names[k - 1]);
      ExpireRowContinues(s0, s, Members(names[k - 1..]), names[k - 1]);
    }
  }

  lemma RestOf(names: seq<Name>, k: nat)
    requires Distinct(names) && k < |names|
    ensures names[k] in Members(names[k..])
    ensures Members(names[k + 1..]) == Members(names[k..]) - {names[k]}
  {
    assert names[k..] == [names[k]] + names[k + 1..];
    DistinctPositions(names);
  }

  function ExpirePass(s: State, names: seq<Name>): State
    requires forall i :: 0 <= i < |names| ==> names[i] in s.agents
  {
    ExpireRows(s, ReadRows(s, names))
  }

  lemma ExpirePassKeeps(s: State, now: int, names: seq<Name>)
    requires DepSafe(s.agents) && Owned(s) && StaleListing(s, now, names)
    ensures forall i :: 0 <= i < |names| ==> names[i] in s.agents
    ensures Keeps(s, ExpirePass(s, names))
  {
    forall i | 0 <= i < |names| ensures names[i] in s.agents && s.agents[names[i]].status == Running {
      assert names[i] in Members(names);
    }
    ExpireRowsContinue(s, names, |names|);
    assert ReadRows(s, names)[..|names|] == ReadRows(s, names);
  }

  // ---------------------------------------------------------------------------
  // Resumption, cancellation, roll-up, spawning and creation
  // ---------------------------------------------------------------------------

  lemma ResumeKeeps(s: State)
    requires Owned(s)
    ensures Owned(Resume(s)) && Quiet(s, Resume(s))
  {
    var t := Resume(s);
    forall n | n in s.agents ensures AgentOwned(t, n) && QuietRow(s, t, n) {
      assert AgentOwned(s, n);
    }
    forall j: nat | j < |t.attempts| ensures AttemptOwned(t, j) {
      assert AttemptOwned(s, j);
      assert AgentOwned(s, s.attempts[j].agent);
    }
  }

  lemma CancelAgentKeeps(s: State, n: Name)
    requires Owned(s)
    ensures Keeps(s, CancelAgent(s, n))
  {
    if n in s.agents && !s.agents[n].status.Terminal() {
      CancelSetKeeps(s, {n});
    } else {
      RunColumnsKeep(s, s.status, s.totalCost);
    }
  }

  lemma CancelRunKeeps(s: State)
    requires Owned(s)
    ensures Keeps(s, CancelRun(s))
  {
    RunColumnsKeep(s, s.status, s.totalCost);
    CancelAndCloseKeeps(s, NonTerminal(s.agents), Cancelled, s.totalCost);
  }

  lemma RefreshKeeps(s: State)
    requires Owned(s)
    ensures Keeps(s, Refresh(s))
  {
    RunColumnsKeep(s, s.status, s.totalCost);
    RunColumnsKeep(s, RolledUp(s), TotalCost(s));
  }

  lemma SpawnAgrees(s: State, manager: Name, worker: AgentSpec)
    requires SpecAgrees(s)
    ensures SpecAgrees(Spawn(s, manager, worker))
  {
    var t := Spawn(s, manager, worker);
    var w := worker.name;
    if !(w in s.agents || manager !in s.agents || CapReached(s, manager)) {
      assert w !in Members(s.order);
      AppendNew(s.order, w);
      SpecGrows(s.spec, Spawned(worker));
      SpawnClosed(s, manager, worker);
      SpawnSpec(s, worker);
    }
  }

  lemma SpecGrows(spec: seq<AgentSpec>, worker: AgentSpec)
    ensures NamesOf(spec + [worker]) == NamesOf(spec) + [worker.name]
  {
  }

  lemma SpawnSpec(s: State, worker: AgentSpec)
    requires SpecAgrees(s) && worker.name !in s.agents
    ensures var w := Spawned(worker);
            var spec, agents := s.spec + [w], s.agents[w.name := NewAgent(w)];
            forall i :: 0 <= i < |spec| ==>
              spec[i].name in agents && agents[spec[i].name].dependsOn == Members(spec[i].dependsOn)
  {
  }

  lemma SpawnClosed(s: State, manager: Name, worker: AgentSpec)
    requires Closed(Graphed(s.agents))
    ensures Closed(Graphed(Spawn(s, manager, worker).agents))
  {
    var t := Spawn(s, manager, worker);
    var before, after := Graphed(s.agents), Graphed(t.agents);
    forall n, d | n in after && d in after[n] ensures d in after {
      assert NewAgent(Spawned(worker)).dependsOn == {};
      assert n in before && before[n] == after[n];
      assert d in before;
    }
  }

  lemma SpawnRows(s: State, manager: Name, worker: AgentSpec)
    requires Core(s) && !(worker.name in s.agents || manager !in s.agents || CapReached(s, manager))
    ensures Owned(Spawn(s, manager, worker)) && DepSafe(Spawn(s, manager, worker).agents)
    ensures RetriesBounded(Spawn(s, manager, worker))
  {
    var t := Spawn(s, manager, worker);
    var w := worker.name;
    forall n | n in t.agents ensures AgentOwned(t, n) && DepsHeld(t.agents, n) {
      if n != w {
        assert AgentOwned(s, n) && DepsHeld(s.agents, n);
      }
    }
    forall j: nat | j < |t.attempts| ensures AttemptOwned(t, j) {
      assert AttemptOwned(s, j);
    }
    NeverClaimed(s, w, |s.attempts|);
    forall n | n in t.agents ensures RetriesPaid(t, n) {
      if n != w {
        assert RetriesPaid(s, n);
      }
    }
  }

  lemma SpawnDone(s: State, manager: Name, worker: AgentSpec)
    requires DoneInOrder(s)
    ensures DoneInOrder(Spawn(s, manager, worker))
  {
    var t := Spawn(s, manager, worker);
    assert WithStatus(t.agents, Completed) == WithStatus(s.agents, Completed);
    forall i | 0 <= i < |t.done|
      ensures t.done[i] in Graphed(t.agents) && Graphed(t.agents)[t.done[i]] <= Members(t.done[..i])
    {
      assert t.done[i] in Graphed(s.agents);
    }
  }

  lemma SpawnKeepsCore(s: State, manager: Name, worker: AgentSpec)
    requires Core(s)
    ensures Core(Spawn(s, manager, worker))
  {
    if !(worker.name in s.agents || manager !in s.agents || CapReached(s, manager)) {
      SpawnAgrees(s, manager, worker);
      SpawnRows(s, manager, worker);
      SpawnDone(s, manager, worker);
      assert WithStatus(Spawn(s, manager, worker).agents, Running) == WithStatus(s.agents, Running);
    }
  }

  lemma {:induction false} NeverClaimed(s: State, w: Name, k: nat)
    requires Owned(s) && w !in s.agents && k <= |s.attempts|
    ensures ClaimCount(ClaimLog(s.attempts)[..k], w) == 0
    ensures k == |s.attempts| ==> ClaimLog(s.attempts)[..k] == ClaimLog(s.attempts)
  {
    if k == 0 {
    } else {
      NeverClaimed(s, w, k - 1);
      assert ClaimLog(s.attempts)[..k][..k - 1] == ClaimLog(s.attempts)[..k - 1];
      assert AttemptOwned(s, k - 1);
    }
  }

  lemma {:induction false} InsertedKeys(agents: seq<AgentSpec>)
    ensures Members(NamesOf(agents)) == InsertAll(agents).Keys
  {
    if agents == [] {
    } else {
      var init := agents[..|agents| - 1];
      InsertedKeys(init);
      NamesOfLast(agents);
      MembersLast(NamesOf(init), agents[|agents| - 1].name);
    }
  }

  lemma {:induction false} InsertedRow(agents: seq<AgentSpec>, i: nat)
    requires Distinct(NamesOf(agents)) && i < |agents|
    ensures agents[i].name in InsertAll(agents) && InsertAll(agents)[agents[i].name] == NewAgent(agents[i])
  {
    var init := agents[..|agents| - 1];
    NamesOfLast(agents);
    if i < |init| {
      InsertedRow(init, i);
      assert NamesOf(init)[i] in NamesOf(init);
    }
  }

  lemma Inserted(agents: seq<AgentSpec>)
    requires Distinct(NamesOf(agents))
    ensures Members(NamesOf(agents)) == InsertAll(agents).Keys
    ensures forall i :: 0 <= i < |agents| ==>
              agents[i].name in InsertAll(agents) && InsertAll(agents)[agents[i].name] == NewAgent(agents[i])
  {
    InsertedKeys(agents);
    forall i | 0 <= i < |agents|
      ensures agents[i].name in InsertAll(agents) && InsertAll(agents)[agents[i].name] == NewAgent(agents[i])
    {
      InsertedRow(agents, i);
    }
  }

  lemma InsertedGraph(agents: seq<AgentSpec>)
    requires Distinct(NamesOf(agents))
    ensures Graphed(InsertAll(agents)) == DepsOf(agents)
  {
    Inserted(agents);
    DepsOfKeys(agents);
    forall n | n in InsertAll(agents)
      ensures n in DepsOf(agents) && InsertAll(agents)[n].dependsOn == DepsOf(agents)[n]
    {
      assert n in Members(NamesOf(agents));
      var i :| 0 <= i < |NamesOf(agents)| && NamesOf(agents)[i] == n;
      DepsOfEntry(agents, i);
    }
    forall n | n in DepsOf(agents) ensures n in InsertAll(agents) {
      var i :| 0 <= i < |agents| && agents[i].name == n;
    }
  }

  lemma FreshRow(agents: seq<AgentSpec>, n: Name)
    requires Distinct(NamesOf(agents)) && n in InsertAll(agents)
    ensures exists i :: 0 <= i < |agents| && agents[i].name == n && InsertAll(agents)[n] == NewAgent(agents[i])
  {
    Inserted(agents);
    assert n in Members(NamesOf(agents));
    var i :| 0 <= i < |NamesOf(agents)| && NamesOf(agents)[i] == n;
    assert agents[i].name == n;
  }

  lemma CreatedCore(plan: PlanSpec)
    requires WellNamed(plan.agents)
    ensures CreateRun(plan).Some? && Core(CreateRun(plan).value)
  {
    var s := CreateRun(plan).value;
    Inserted(plan.agents);
    InsertedGraph(plan.agents);
    WellNamedMeansClosed(plan.agents);
    forall n | n in s.agents
      ensures AgentOwned(s, n) && DepsHeld(s.agents, n) && RetriesPaid(s, n)
           && s.agents[n].status != Completed && s.agents[n].status != Running
    {
      FreshRow(plan.agents, n);
    }
    assert WithStatus(s.agents, Completed) == {};
    assert WithStatus(s.agents, Running) == {};
  }
}
