/**
 Safety and progress over whole runs: every execution of a valid plan, with any
 interleaving of claims, outcomes, cancellations, resumptions, expiries and spawns.
 */
module Runs {
  import opened Graph
  import opened Plan
  import opened RunState
  import opened Transitions
  import opened Invariants
  import opened Outcomes
  import opened Blame
  import opened Steps
  import opened Validation

  ghost predicate Taken(states: seq<State>, steps: seq<Step>, i: nat)
    requires i < |steps| < |states|
  {
    Enabled(states[i], steps[i]) && states[i + 1] == Apply(states[i], steps[i])
  }

  // A run of a validated plan: creation, then any enabled steps.
  ghost predicate Execution(plan: PlanSpec, states: seq<State>, steps: seq<Step>) {
    && ValidPlan(plan.agents)
    && |states| == |steps| + 1
    && CreateRun(plan) == Some(states[0])
    && forall i: nat {:trigger Taken(states, steps, i)} :: i < |steps| ==> Taken(states, steps, i)
  }

  ghost predicate NoResume(steps: seq<Step>) {
    forall i :: 0 <= i < |steps| ==> !steps[i].ResumeStep?
  }

  ghost predicate NoSpawn(steps: seq<Step>) {
    forall i :: 0 <= i < |steps| ==> !steps[i].SpawnStep?
  }

  ghost predicate NoAgentCancel(steps: seq<Step>) {
    forall i :: 0 <= i < |steps| ==> !steps[i].CancelAgentStep?
  }

  // ---------------------------------------------------------------------------
  // Every reached state satisfies the invariants
  // ---------------------------------------------------------------------------

  ghost predicate Good(s: State) {
    Core(s) && NoneOverdue(s.agents) && Acyclic(Graphed(s.agents))
  }

  lemma Created(plan: PlanSpec, s: State)
    requires ValidPlan(plan.agents) && CreateRun(plan) == Some(s)
    ensures Good(s) && NoneBlamed(s.agents) && NoneStranded(s.agents) && ClosedRun(s)
  {
    CreatedCore(plan);
    InsertedGraph(plan.agents);
    forall n | n in s.agents ensures Waits(s.agents, n) && s.agents[n].status.Waiting() {
      FreshRow(plan.agents, n);
      if s.agents[n].status == Pending {
        var i :| 0 <= i < |plan.agents| && s.agents[n] == NewAgent(plan.agents[i]);
        assert NewAgent(plan.agents[i]).status == Pending;
        var d := plan.agents[i].dependsOn[0];
        assert d in s.agents[n].dependsOn;
        if d in s.agents {
          FreshRow(plan.agents, d);
        }
      }
    }
    assert FailureSet(s.agents) == {};
    assert WithStatus(s.agents, Cancelled) == {};
    forall n | n in s.agents ensures Unblamed(s.agents, n) && Unstranded(s.agents, n) {
    }
  }

  lemma {:induction false} Reached(plan: PlanSpec, states: seq<State>, steps: seq<Step>, k: nat)
    requires Execution(plan, states, steps) && k < |states|
    ensures Good(states[k])
    ensures NoResume(steps) ==> NoneBlamed(states[k].agents)
    ensures NoResume(steps) && NoAgentCancel(steps) ==> NoneStranded(states[k].agents)
    ensures NoSpawn(steps) ==> ClosedRun(states[k])
  {
    if k == 0 {
      Created(plan, states[0]);
    } else {
      Reached(plan, states, steps, k - 1);
      assert Taken(states, steps, k - 1);
      var s, step := states[k - 1], steps[k - 1];
      StepKeepsCore(s, step);
      StepKeepsNoneOverdue(s, step);
      StepKeepsGraph(s, step);
      if NoResume(steps) {
        StepKeepsNoneBlamed(s, step);
        if NoAgentCancel(steps) {
          StepKeepsNoneStranded(s, step);
        }
      }
      if NoSpawn(steps) {
        StepKeepsClosedRun(s, step);
      }
    }
  }

  // ---------------------------------------------------------------------------
  // Single ownership
  // ---------------------------------------------------------------------------

  ghost predicate RunsUnder(s: State, n: Name, i: nat) {
    i < |s.attempts| && s.attempts[i].agent == n && s.attempts[i].status == AttemptRunning
  }

  // At every moment of every run an agent is running iff exactly one attempt of it
  // is, and the two rows then carry the same lease.
  lemma SingleOwner(plan: PlanSpec, states: seq<State>, steps: seq<Step>, k: nat, n: Name)
    requires Execution(plan, states, steps) && k < |states| && n in states[k].agents
    ensures var s := states[k];
            && (s.agents[n].status == Running <==> exists i: nat :: RunsUnder(s, n, i))
            && (forall i: nat, j: nat :: RunsUnder(s, n, i) && RunsUnder(s, n, j) ==> i == j)
            && (forall i: nat :: RunsUnder(s, n, i) ==> s.agents[n].lease == Some(s.attempts[i].lease))
            && (s.agents[n].status != Running ==> s.agents[n].lease == None)
  {
    Reached(plan, states, steps, k);
    var s := states[k];
    assert AgentOwned(s, n);
    if s.agents[n].status == Running {
      assert RunsUnder(s, n, s.agents[n].lease.value.token);
    }
    forall i: nat | RunsUnder(s, n, i)
      ensures s.agents[n].lease == Some(s.attempts[i].lease) && s.attempts[i].lease.token == i
    {
      assert AttemptOwned(s, i);
    }
  }

  // ---------------------------------------------------------------------------
  // Dependency safety
  // ---------------------------------------------------------------------------

  lemma {:induction false} ChainsCompleted(s: State, p: seq<Name>)
    requires DepSafe(s.agents) && |p| >= 1 && Chain(Graphed(s.agents), p)
    requires p[|p| - 1] in s.agents && Released(s.agents[p[|p| - 1]].status)
    ensures |p| > 1 ==> p[0] in s.agents && s.agents[p[0]].status == Completed
  {
    if |p| == 1 {
    } else {
      var last := p[|p| - 1];
      assert DepsHeld(s.agents, last);
      assert p[|p| - 2] in Graphed(s.agents)[last];
      if |p| > 2 {
        ChainsCompleted(s, p[..|p| - 1]);
      }
    }
  }

  // Every dependency of a row is a row, spawned workers included.
  lemma DependencyRows(plan: PlanSpec, states: seq<State>, steps: seq<Step>, k: nat, n: Name, d: Name)
    requires Execution(plan, states, steps) && k < |states|
    requires n in states[k].agents && d in states[k].agents[n].dependsOn
    ensures d in states[k].agents
  {
    Reached(plan, states, steps, k);
    DependencyKnown(states[k].agents, n, d);
  }

  // A queued, running or completed agent has all its transitive dependencies completed.
  lemma DependenciesCompleted(plan: PlanSpec, states: seq<State>, steps: seq<Step>, k: nat, m: Name, n: Name)
    requires Execution(plan, states, steps) && k < |states|
    requires n in states[k].agents && Released(states[k].agents[n].status)
    requires m != n && Reaches(Graphed(states[k].agents), m, n)
    ensures m in states[k].agents && states[k].agents[m].status == Completed
  {
    Reached(plan, states, steps, k);
    var p :| ChainBetween(Graphed(states[k].agents), p, m, n);
    ChainsCompleted(states[k], p);
  }

  // The `done` events list the completed agents once each, dependencies first.
  lemma DoneIsLinearExtension(plan: PlanSpec, states: seq<State>, steps: seq<Step>, k: nat)
    requires Execution(plan, states, steps) && k < |states|
    ensures var s := states[k];
            && (forall i, j :: 0 <= i < j < |s.done| ==> s.done[i] != s.done[j])
            && (forall n :: n in s.done <==> n in s.agents && s.agents[n].status == Completed)
            && (forall i :: 0 <= i < |s.done| ==>
                  s.done[i] in s.agents && forall d :: d in s.agents[s.done[i]].dependsOn ==> d in s.done[..i])
  {
    Reached(plan, states, steps, k);
    var s := states[k];
    DistinctPositions(s.done);
    forall n ensures n in s.done <==> n in s.agents && s.agents[n].status == Completed {
      assert n in Members(s.done) <==> n in WithStatus(s.agents, Completed);
    }
    forall i | 0 <= i < |s.done|
      ensures s.done[i] in s.agents && forall d :: d in s.agents[s.done[i]].dependsOn ==> d in s.done[..i]
    {
      assert s.done[i] in Graphed(s.agents) && Graphed(s.agents)[s.done[i]] <= Members(s.done[..i]);
    }
  }

  lemma SpawnExtendsDone(s: State, manager: Name, worker: AgentSpec)
    ensures Spawn(s, manager, worker).done == s.done
  {
  }

  lemma StepExtendsDone(s: State, step: Step)
    requires Core(s) && Enabled(s, step)
    ensures s.done <= Apply(s, step).done
  {
    if Minor(step) {
      MinorStepKeeps(s, step);
    } else {
      match step
      case ClaimStep(n, worker, until) => ClaimSameRun(s, n, worker, until);
      case CompleteStep(n, cost, id) => CompleteExtends(s, n, cost, id);
      case SpawnStep(manager, spawned) => SpawnExtendsDone(s, manager, spawned);
      case ResumeStep => ResumeKeeps(s);
    }
  }

  lemma ClaimSameRun(s: State, n: Name, worker: string, until: int)
    ensures var t := Claim(s, n, worker, until);
            t.done == s.done && t.order == s.order && t.config == s.config && t.spec == s.spec
  {
  }

  lemma CompleteExtends(s: State, n: Name, cost: real, id: nat)
    requires Owned(s)
    ensures var t := Complete(s, n, cost, Some(id));
            s.done <= t.done && t.order == s.order && t.config == s.config && t.spec == s.spec
  {
    if MayFinish(s, n, Some(id)) {
      var t := Finished(s, n, cost, Some(id));
      FinishedOwned(s, n, cost, id);
      MarkReadyKeeps(t);
      EnforceBudgetKeeps(MarkReady(t));
    }
  }

  lemma NextExtendsDone(plan: PlanSpec, states: seq<State>, steps: seq<Step>, k: nat)
    requires Execution(plan, states, steps) && k < |steps|
    ensures states[k].done <= states[k + 1].done
  {
    Reached(plan, states, steps, k);
    assert Taken(states, steps, k);
    StepExtendsDone(states[k], steps[k]);
  }

  lemma {:induction false} DoneGrows(plan: PlanSpec, states: seq<State>, steps: seq<Step>, j: nat, k: nat)
    requires Execution(plan, states, steps) && j <= k < |states|
    ensures states[j].done <= states[k].done
    decreases k
  {
    if j == k {
    } else {
      DoneGrows(plan, states, steps, j, k - 1);
      NextExtendsDone(plan, states, steps, k - 1);
    }
  }

  lemma DoneMeansCompleted(plan: PlanSpec, states: seq<State>, steps: seq<Step>, k: nat, n: Name)
    requires Execution(plan, states, steps) && k < |states|
    ensures n in states[k].done <==> n in states[k].agents && states[k].agents[n].status == Completed
  {
    Reached(plan, states, steps, k);
    assert n in Members(states[k].done) <==> n in WithStatus(states[k].agents, Completed);
  }

  // The log only grows: a completed agent stays completed, resumption included.
  lemma CompletedForever(plan: PlanSpec, states: seq<State>, steps: seq<Step>, j: nat, k: nat)
    requires Execution(plan, states, steps) && j <= k < |states|
    ensures states[j].done <= states[k].done
    ensures forall n :: n in states[j].agents && states[j].agents[n].status == Completed ==>
              n in states[k].agents && states[k].agents[n].status == Completed
  {
    DoneGrows(plan, states, steps, j, k);
    forall n | n in states[j].agents && states[j].agents[n].status == Completed
      ensures n in states[k].agents && states[k].agents[n].status == Completed
    {
      DoneMeansCompleted(plan, states, steps, j, n);
      DoneMeansCompleted(plan, states, steps, k, n);
    }
  }

  // ---------------------------------------------------------------------------
  // Retries
  // ---------------------------------------------------------------------------

  lemma {:induction false} NumbersOf(log: seq<(Name, nat)>, n: Name, m: nat)
    requires Numbered(log)
    ensures 1 <= m <= ClaimCount(log, n) <==> exists i :: 0 <= i < |log| && log[i] == (n, m)
  {
    if log == [] {
    } else {
      var k := |log| - 1;
      var init := log[..k];
      NumberedPrefix(log);
      NumbersOf(init, n, m);
      LogIndex(log, (n, m));
      assert log[k].1 == ClaimCount(init, log[k].0) + 1;
    }
  }

  lemma NumberedPrefix(log: seq<(Name, nat)>)
    requires Numbered(log) && log != []
    ensures Numbered(log[..|log| - 1])
  {
    var init := log[..|log| - 1];
    forall i | 0 <= i < |init| ensures init[i].1 == ClaimCount(init[..i], init[i].0) + 1 {
      assert init[..i] == log[..i];
    }
  }

  lemma LogIndex(log: seq<(Name, nat)>, entry: (Name, nat))
    requires log != []
    ensures var k := |log| - 1;
            (exists i :: 0 <= i < |log| && log[i] == entry)
            <==> ((exists i :: 0 <= i < k && log[..k][i] == entry) || log[k] == entry)
  {
    var k := |log| - 1;
    if i :| 0 <= i < |log| && log[i] == entry {
      if i < k {
        assert log[..k][i] == entry;
      }
    }
    if i :| 0 <= i < k && log[..k][i] == entry {
      assert log[i] == entry;
    }
  }

  // An agent is claimed at most max(retry_count, 0) + 1 times over the whole run, and
  // its attempts carry exactly the numbers 1, 2, ..., one each.
  lemma ClaimsBounded(plan: PlanSpec, states: seq<State>, steps: seq<Step>, k: nat, n: Name)
    requires Execution(plan, states, steps) && k < |states| && n in states[k].agents
    ensures var s := states[k];
            var claims := ClaimCount(ClaimLog(s.attempts), n);
            && claims <= Max0(s.agents[n].retryCount) + 1
            && (forall m: nat :: 1 <= m <= claims <==>
                  exists i :: 0 <= i < |s.attempts| && ClaimLog(s.attempts)[i] == (n, m))
            && (forall i, j :: 0 <= i < j < |s.attempts| && s.attempts[i].agent == n && s.attempts[j].agent == n ==>
                  s.attempts[i].number < s.attempts[j].number)
  {
    Reached(plan, states, steps, k);
    var s := states[k];
    assert RetriesPaid(s, n);
    var log := ClaimLog(s.attempts);
    forall m: nat
      ensures 1 <= m <= ClaimCount(log, n) <==> exists i :: 0 <= i < |s.attempts| && log[i] == (n, m)
    {
      NumbersOf(log, n, m);
    }
    forall i, j | 0 <= i < j < |s.attempts| && s.attempts[i].agent == n && s.attempts[j].agent == n
      ensures s.attempts[i].number < s.attempts[j].number
    {
      assert log[i].1 == ClaimCount(log[..i], n) + 1 && log[j].1 == ClaimCount(log[..j], n) + 1;
      CountGrows(log, n, i, j);
    }
  }

  lemma {:induction false} CountGrows(log: seq<(Name, nat)>, n: Name, i: nat, j: nat)
    requires i < j <= |log| && log[i].0 == n
    ensures ClaimCount(log[..i], n) < ClaimCount(log[..j], n)
    decreases j
  {
    assert log[..j][..j - 1] == log[..j - 1];
    if i == j - 1 {
    } else {
      CountGrows(log, n, i, j - 1);
    }
  }

  // ---------------------------------------------------------------------------
  // Termination
  // ---------------------------------------------------------------------------

  function SumFuel(agents: Agents, order: seq<Name>): nat {
    if order == [] then 0
    else
      var last := order[|order| - 1];
      SumFuel(agents, order[..|order| - 1]) + if last in agents then Fuel(agents[last]) else 0
  }

  ghost predicate StatusChanged(s: State, t: State) {
    exists n :: n in s.agents && n in t.agents && s.agents[n].status != t.agents[n].status
  }

  ghost function ChangesIn(states: seq<State>): nat {
    if |states| < 2 then 0
    else
      ChangesIn(states[..|states| - 1])
        + if StatusChanged(states[|states| - 2], states[|states| - 1]) then 1 else 0
  }

  lemma {:induction false} FuelBurns(a: Agents, b: Agents, order: seq<Name>)
    requires AllAdvance(a, b)
    ensures SumFuel(b, order) <= SumFuel(a, order)
    ensures (exists n :: n in order && n in a && a[n].status != b[n].status) ==> SumFuel(b, order) < SumFuel(a, order)
  {
    if order == [] {
    } else {
      var last := order[|order| - 1];
      var init := order[..|order| - 1];
      assert order == init + [last];
      FuelBurns(a, b, init);
      if last in a {
        assert Advances(a[last], b[last]);
      }
    }
  }

  // Without resumption and spawning, only finitely many steps change a status: at
  // most as many as the plan grants retries and life.
  lemma {:induction false} FinitelyManyChanges(plan: PlanSpec, states: seq<State>, steps: seq<Step>, k: nat)
    requires Execution(plan, states, steps) && k < |states| && NoResume(steps) && NoSpawn(steps)
    ensures states[k].order == states[0].order
    ensures ChangesIn(states[..k + 1]) + SumFuel(states[k].agents, states[0].order)
            <= SumFuel(states[0].agents, states[0].order)
  {
    if k == 0 {
    } else {
      FinitelyManyChanges(plan, states, steps, k - 1);
      assert states[..k + 1][..k] == states[..k];
      NextBurnsFuel(plan, states, steps, k - 1);
    }
  }

  lemma NextBurnsFuel(plan: PlanSpec, states: seq<State>, steps: seq<Step>, k: nat)
    requires Execution(plan, states, steps) && k < |steps| && !steps[k].ResumeStep? && !steps[k].SpawnStep?
    ensures var s, t := states[k], states[k + 1];
            && t.order == s.order
            && SumFuel(t.agents, s.order) + (if StatusChanged(s, t) then 1 else 0) <= SumFuel(s.agents, s.order)
  {
    Reached(plan, states, steps, k);
    assert Taken(states, steps, k);
    var s, t := states[k], states[k + 1];
    StepKeepsCore(s, steps[k]);
    StepKeepsOrder(s, steps[k]);
    FuelBurns(s.agents, t.agents, s.order);
    if StatusChanged(s, t) {
      var n :| n in s.agents && n in t.agents && s.agents[n].status != t.agents[n].status;
      assert n in Members(s.order);
    }
  }

  lemma StepKeepsOrder(s: State, step: Step)
    requires Core(s) && Enabled(s, step) && !step.SpawnStep?
    ensures Apply(s, step).order == s.order && Apply(s, step).config == s.config
  {
    if Minor(step) {
      MinorStepKeeps(s, step);
    } else {
      match step
      case ClaimStep(n, worker, until) => ClaimSameRun(s, n, worker, until);
      case CompleteStep(n, cost, id) => CompleteExtends(s, n, cost, id);
      case ResumeStep => ResumeKeeps(s);
    }
  }

  // ---------------------------------------------------------------------------
  // Concurrency limit
  // ---------------------------------------------------------------------------

  lemma LimitHolds(plan: PlanSpec, states: seq<State>, steps: seq<Step>, k: nat)
    requires Execution(plan, states, steps) && k < |states|
    ensures plan.concurrencyLimit.Some? && plan.concurrencyLimit.value > 0 ==>
              |WithStatus(states[k].agents, Running)| <= plan.concurrencyLimit.value
  {
    Reached(plan, states, steps, k);
    ConfigFixed(plan, states, steps, k);
  }

  lemma {:induction false} ConfigFixed(plan: PlanSpec, states: seq<State>, steps: seq<Step>, k: nat)
    requires Execution(plan, states, steps) && k < |states|
    ensures states[k].config == ConfigOf(plan)
  {
    if k == 0 {
    } else {
      ConfigFixed(plan, states, steps, k - 1);
      Reached(plan, states, steps, k - 1);
      assert Taken(states, steps, k - 1);
      if !steps[k - 1].SpawnStep? {
        StepKeepsOrder(states[k - 1], steps[k - 1]);
      }
    }
  }

  // ---------------------------------------------------------------------------
  // Waiting work and deadlock freedom
  // ---------------------------------------------------------------------------

  // Without resumption nobody waits behind a failure, whatever handled it.
  lemma NoWorkBehindFailure(plan: PlanSpec, states: seq<State>, steps: seq<Step>, k: nat, n: Name, d: Name)
    requires Execution(plan, states, steps) && k < |states| && NoResume(steps)
    requires n in states[k].agents && states[k].agents[n].status.Waiting() && d in states[k].agents[n].dependsOn
    ensures d in states[k].agents && !states[k].agents[d].status.Failure()
  {
    Reached(plan, states, steps, k);
    var s := states[k];
    assert Unblamed(s.agents, n);
    DependencyKnown(s.agents, n, d);
    assert d !in FailureSet(s.agents);
  }

  // Pending agents all waiting for each other would form a cycle.
  lemma SomebodyCanMove(s: State)
    requires Good(s) && NoneBlamed(s.agents) && NoneStranded(s.agents)
    requires NonTerminal(s.agents) != {}
    ensures WithStatus(s.agents, Queued) + WithStatus(s.agents, Running) + WithStatus(s.agents, Paused) != {}
  {
    if WithStatus(s.agents, Queued) + WithStatus(s.agents, Running) + WithStatus(s.agents, Paused) == {} {
      var stuck := WithStatus(s.agents, Pending);
      var deps := Graphed(s.agents);
      forall n | n in s.agents ensures s.agents[n].status == Pending || s.agents[n].status.Terminal() {
        assert n !in WithStatus(s.agents, Queued) && n !in WithStatus(s.agents, Running);
        assert n !in WithStatus(s.agents, Paused);
      }
      assert stuck == NonTerminal(s.agents);
      forall n | n in stuck ensures n in deps && deps[n] * stuck != {} {
        assert Waits(s.agents, n) && Unblamed(s.agents, n) && Unstranded(s.agents, n);
        var d :| d in s.agents[n].dependsOn && !(d in s.agents && s.agents[d].status == Completed);
        assert d in deps[n];
        DependencyKnown(s.agents, n, d);
        assert d !in FailureSet(s.agents) && d !in WithStatus(s.agents, Cancelled);
        assert d in deps[n] * stuck;
      }
      StuckMeansCycle(deps, stuck);
    }
  }

  lemma ClaimableWhenIdle(s: State)
    requires Listed(s) && WithStatus(s.agents, Queued) != {} && WithStatus(s.agents, Running) == {}
    ensures exists n :: MayClaim(s, n)
  {
    var queued := WithStatus(s.agents, Queued);
    SelectAll(s, queued);
    var names := Select(s.order, queued);
    assert names != [];
    assert names[0] in Members(names);
    assert names[0] in Claimable(s);
    assert MayClaim(s, names[0]);
  }

  // As long as an agent is not terminal, one is queued, running or paused; when none
  // is running or paused, one can be claimed.
  lemma DeadlockFree(plan: PlanSpec, states: seq<State>, steps: seq<Step>, k: nat)
    requires Execution(plan, states, steps) && k < |states| && NoResume(steps) && NoAgentCancel(steps)
    requires !AllTerminal(states[k].agents)
    ensures var s := states[k];
            && (exists n :: n in s.agents
                  && (s.agents[n].status == Queued || s.agents[n].status == Running || s.agents[n].status == Paused))
            && ((forall n :: n in s.agents ==> s.agents[n].status != Running && s.agents[n].status != Paused) ==>
                  exists n :: MayClaim(s, n))
  {
    Reached(plan, states, steps, k);
    var s := states[k];
    var live :| live in s.agents && !s.agents[live].status.Terminal();
    assert live in NonTerminal(s.agents);
    SomebodyCanMove(s);
    var n :| n in WithStatus(s.agents, Queued) + WithStatus(s.agents, Running) + WithStatus(s.agents, Paused);
    assert n in s.agents;
    if forall n :: n in s.agents ==> s.agents[n].status != Running && s.agents[n].status != Paused {
      assert n in WithStatus(s.agents, Queued);
      assert WithStatus(s.agents, Running) == {};
      ClaimableWhenIdle(s);
    }
  }

  // Over without success: nothing that depends on it can start.
  ghost function DeadSet(agents: Agents): set<Name> {
    FailureSet(agents) + WithStatus(agents, Cancelled)
  }

  // A dependency chain leads from a dead agent to `n`.
  ghost predicate BehindDead(agents: Agents, n: Name) {
    exists p :: |p| >= 2 && Chain(Graphed(agents), p) && p[|p| - 1] == n && p[0] in DeadSet(agents)
  }

  lemma BehindNext(agents: Agents, d: Name, n: Name)
    requires n in agents && d in agents[n].dependsOn && (d in DeadSet(agents) || BehindDead(agents, d))
    ensures BehindDead(agents, n)
  {
    var p := [d];
    if d !in DeadSet(agents) {
      p :| |p| >= 2 && Chain(Graphed(agents), p) && p[|p| - 1] == d && p[0] in DeadSet(agents);
    }
    var q := p + [n];
    forall i | 0 < i < |q| ensures q[i] in Graphed(agents) && q[i - 1] in Graphed(agents)[q[i]] {
      if i < |p| {
        assert q[i] == p[i] && q[i - 1] == p[i - 1];
      }
    }
    assert q[|q| - 1] == n && q[0] == p[0];
  }

  ghost predicate NobodyMoves(agents: Agents) {
    forall n :: n in agents ==>
      agents[n].status != Queued && agents[n].status != Running && agents[n].status != Paused
  }

  // A pending agent with nobody dead behind it waits for another such agent.
  lemma WaitsForAnother(s: State, n: Name) returns (d: Name)
    requires Good(s) && NobodyMoves(s.agents) && n in s.agents && s.agents[n].status == Pending
    requires !BehindDead(s.agents, n)
    ensures d in s.agents[n].dependsOn && d in s.agents && s.agents[d].status == Pending && !BehindDead(s.agents, d)
  {
    assert Waits(s.agents, n);
    d :| d in s.agents[n].dependsOn && !(d in s.agents && s.agents[d].status == Completed);
    DependencyKnown(s.agents, n, d);
    if d in DeadSet(s.agents) || BehindDead(s.agents, d) {
      BehindNext(s.agents, d, n);
    }
  }

  lemma StuckBehindDead(s: State, n: Name)
    requires Good(s) && NobodyMoves(s.agents) && n in s.agents && !s.agents[n].status.Terminal()
    ensures BehindDead(s.agents, n)
  {
    var stuck := set m | m in s.agents && s.agents[m].status == Pending && !BehindDead(s.agents, m);
    if n in stuck {
      forall m | m in stuck ensures m in Graphed(s.agents) && Graphed(s.agents)[m] * stuck != {} {
        var d := WaitsForAnother(s, m);
        assert d in Graphed(s.agents)[m] * stuck;
      }
      StuckMeansCycle(Graphed(s.agents), stuck);
    }
  }

  // In every execution, resumption and cancellation of agents included: when nobody is
  // queued, running or paused, whoever is still alive is behind a failed or cancelled agent.
  lemma StuckOnlyBehindDead(plan: PlanSpec, states: seq<State>, steps: seq<Step>, k: nat, n: Name)
    requires Execution(plan, states, steps) && k < |states| && NobodyMoves(states[k].agents)
    requires n in states[k].agents && !states[k].agents[n].status.Terminal()
    ensures states[k].agents[n].status == Pending && BehindDead(states[k].agents, n)
  {
    Reached(plan, states, steps, k);
    StuckBehindDead(states[k], n);
  }

  // ---------------------------------------------------------------------------
  // A run without agents
  // ---------------------------------------------------------------------------

  ghost predicate Empty(s: State) {
    s.agents == map[] && s.order == [] && (s.status == Queued || s.status == Cancelled)
  }

  lemma EmptyPass(s: State, now: int, names: seq<Name>)
    requires Empty(s) && StaleListing(s, now, names)
    ensures names == [] && ExpirePass(s, names) == s
  {
    assert Stale(s, now) == {};
    DistinctSize(names);
    assert ReadRows(s, []) == [];
  }

  lemma EmptyStays(s: State)
    requires Empty(s)
    ensures Empty(CancelRun(s)) && Empty(Refresh(s)) && Empty(MarkReady(s)) && Empty(Resume(s))
  {
    assert ResumableSet(s.agents) == {};
  }

  lemma StepKeepsEmpty(s: State, step: Step)
    requires Empty(s) && Enabled(s, step) && !step.SpawnStep?
    ensures Empty(Apply(s, step))
  {
    EmptyStays(s);
    if step.ExpireStep? {
      EmptyPass(s, step.now, step.names);
    }
  }

  // It is queued until it is cancelled: the roll-up never completes it.
  lemma {:induction false} EmptyRunNeverCompletes(plan: PlanSpec, states: seq<State>, steps: seq<Step>, k: nat)
    requires Execution(plan, states, steps) && k < |states| && NoSpawn(steps) && plan.agents == []
    ensures Empty(states[k])
  {
    if k == 0 {
      assert states[0].agents == InsertAll([]);
    } else {
      EmptyRunNeverCompletes(plan, states, steps, k - 1);
      assert Taken(states, steps, k - 1);
      StepKeepsEmpty(states[k - 1], steps[k - 1]);
    }
  }

  // ---------------------------------------------------------------------------
  // Terminal stability
  // ---------------------------------------------------------------------------

  // Only resumption changes the status of a terminal agent.
  lemma TerminalStays(plan: PlanSpec, states: seq<State>, steps: seq<Step>, k: nat, n: Name)
    requires Execution(plan, states, steps) && k < |steps| && !steps[k].ResumeStep?
    requires n in states[k].agents && states[k].agents[n].status.Terminal()
    ensures n in states[k + 1].agents && states[k + 1].agents[n].status == states[k].agents[n].status
  {
    Reached(plan, states, steps, k);
    assert Taken(states, steps, k);
    StepKeepsCore(states[k], steps[k]);
    if !steps[k].SpawnStep? {
      assert Advances(states[k].agents[n], states[k + 1].agents[n]);
    }
  }

  // Without spawning, a run closed as cancelled or over budget has only terminal agents.
  lemma ClosedMeansTerminal(plan: PlanSpec, states: seq<State>, steps: seq<Step>, k: nat)
    requires Execution(plan, states, steps) && k < |states| && NoSpawn(steps)
    requires states[k].status == Cancelled || states[k].status == CostExceeded
    ensures AllTerminal(states[k].agents)
  {
    Reached(plan, states, steps, k);
  }

  // ---------------------------------------------------------------------------
  // The spec of the run
  // ---------------------------------------------------------------------------

  function FindAgent(spec: seq<AgentSpec>, n: Name): Option<AgentSpec> {
    if spec == [] then None
    else if spec[0].name == n then Some(spec[0])
    else FindAgent(spec[1..], n)
  }

  lemma {:induction false} FindAgentAt(spec: seq<AgentSpec>, n: Name)
    requires n in NamesOf(spec)
    ensures FindAgent(spec, n).Some?
    ensures exists i :: 0 <= i < |spec| && spec[i] == FindAgent(spec, n).value && spec[i].name == n
  {
    if spec[0].name == n {
    } else {
      assert NamesOf(spec) == [spec[0].name] + NamesOf(spec[1..]);
      FindAgentAt(spec[1..], n);
      var i :| 0 <= i < |spec[1..]| && spec[1..][i] == FindAgent(spec[1..], n).value && spec[1..][i].name == n;
      assert spec[i + 1] == spec[1..][i];
    }
  }

  // The policy, the retries and the cap of every row are those of its entry in the spec.
  ghost predicate PolicyAgrees(s: State) {
    forall i :: 0 <= i < |s.spec| ==>
      && s.spec[i].name in s.agents
      && s.agents[s.spec[i].name].onFailure == s.spec[i].onFailure
      && s.agents[s.spec[i].name].retryCount == s.spec[i].retryCount
      && s.agents[s.spec[i].name].maxSubagents == s.spec[i].managerCap
  }

  lemma AdvanceKeepsPolicy(s: State, t: State)
    requires PolicyAgrees(s) && t.spec == s.spec && AllAdvance(s.agents, t.agents)
    ensures PolicyAgrees(t)
  {
    forall i | 0 <= i < |s.spec|
      ensures t.agents[s.spec[i].name].onFailure == s.spec[i].onFailure
           && t.agents[s.spec[i].name].retryCount == s.spec[i].retryCount
           && t.agents[s.spec[i].name].maxSubagents == s.spec[i].managerCap
    {
      assert Advances(s.agents[s.spec[i].name], t.agents[s.spec[i].name]);
    }
  }

  lemma ResumeKeepsPolicy(s: State)
    requires PolicyAgrees(s)
    ensures PolicyAgrees(Resume(s))
  {
  }

  lemma SpawnKeepsPolicy(s: State, manager: Name, worker: AgentSpec)
    requires PolicyAgrees(s)
    ensures PolicyAgrees(Spawn(s, manager, worker))
  {
  }

  lemma StepKeepsSpec(s: State, step: Step)
    requires Core(s) && Enabled(s, step) && !step.SpawnStep?
    ensures Apply(s, step).spec == s.spec
  {
    if Minor(step) {
      MinorStepKeeps(s, step);
    } else {
      match step
      case ClaimStep(n, worker, until) => ClaimSameRun(s, n, worker, until);
      case CompleteStep(n, cost, id) => CompleteExtends(s, n, cost, id);
      case ResumeStep => ResumeKeeps(s);
    }
  }

  lemma StepKeepsPolicy(s: State, step: Step)
    requires Core(s) && Enabled(s, step) && PolicyAgrees(s)
    ensures PolicyAgrees(Apply(s, step))
  {
    if step.SpawnStep? {
      SpawnKeepsPolicy(s, step.manager, step.spawned);
    } else if step.ResumeStep? {
      ResumeKeepsPolicy(s);
    } else {
      StepKeepsSpec(s, step);
      StepKeepsCore(s, step);
      AdvanceKeepsPolicy(s, Apply(s, step));
    }
  }

  lemma {:induction false} PolicyFollowsSpec(plan: PlanSpec, states: seq<State>, steps: seq<Step>, k: nat)
    requires Execution(plan, states, steps) && k < |states|
    ensures PolicyAgrees(states[k])
  {
    if k == 0 {
      Inserted(plan.agents);
    } else {
      PolicyFollowsSpec(plan, states, steps, k - 1);
      Reached(plan, states, steps, k - 1);
      assert Taken(states, steps, k - 1);
      StepKeepsPolicy(states[k - 1], steps[k - 1]);
    }
  }

  // Across creation and any spawns, spec and rows list the same agents with the same
  // dependencies, so a claimed agent is found in the spec and each branch it merges
  // belongs to a completed agent.
  lemma ClaimedAgentInSpec(plan: PlanSpec, states: seq<State>, steps: seq<Step>, k: nat, n: Name)
    requires Execution(plan, states, steps) && k < |states|
    requires n in states[k].agents && states[k].agents[n].status == Running
    ensures var found := FindAgent(states[k].spec, n);
            && found.Some? && found.value.name == n
            && Members(found.value.dependsOn) == states[k].agents[n].dependsOn
            && forall d :: d in found.value.dependsOn ==>
                 d in states[k].agents && states[k].agents[d].status == Completed
  {
    Reached(plan, states, steps, k);
    var s := states[k];
    assert n in Members(s.order);
    FindAgentAt(s.spec, n);
    assert DepsHeld(s.agents, n);
    var found := FindAgent(s.spec, n).value;
    forall d | d in found.dependsOn ensures d in s.agents && s.agents[d].status == Completed {
      assert d in Members(found.dependsOn);
    }
  }
}
