/**
 The event-driven scheduler and the layers of the dependency graph: running every
 queued agent to completion, round after round, visits the layers in order.
 */
module Layered {
  import opened Graph
  import opened Plan
  import opened RunState
  import opened Transitions
  import opened Invariants
  import opened Outcomes
  import opened Validation

  // The statuses follow from what is completed and what is running.
  function ExpectedStatus(deps: set<Name>, n: Name, done: set<Name>, active: set<Name>): Status {
    if n in done then Completed
    else if n in active then Running
    else if deps <= done then Queued
    else Pending
  }

  ghost predicate StatusAsExpected(agents: Agents, n: Name, done: set<Name>, active: set<Name>)
    requires n in agents
  {
    agents[n].status == ExpectedStatus(agents[n].dependsOn, n, done, active)
  }

  ghost predicate Expected(agents: Agents, done: set<Name>, active: set<Name>) {
    && done + active <= agents.Keys && done !! active
    && forall n {:trigger StatusAsExpected(agents, n, done, active)} :: n in agents ==>
         StatusAsExpected(agents, n, done, active)
  }

  ghost predicate OnCourse(s: State, done: set<Name>, active: set<Name>) {
    && Core(s)
    && Expected(s.agents, done, active)
    && (s.status == Queued || s.status == Running || s.status == Completed)
  }

  // The limit admits everything that may start once `done` is completed.
  ghost predicate Roomy(s: State, done: set<Name>) {
    EffectiveLimit(s.config).Some? ==> |Unblocked(Graphed(s.agents), done)| <= EffectiveLimit(s.config).value
  }

  // The limit admits the widest layer.
  ghost predicate Wide(s: State) {
    forall k: nat :: EffectiveLimit(s.config).Some? ==> |Layer(Graphed(s.agents), k)| <= EffectiveLimit(s.config).value
  }

  function PlannedCost(order: seq<Name>, cost: Name -> real): real {
    if order == [] then 0.0 else PlannedCost(order[..|order| - 1], cost) + cost(order[|order| - 1])
  }

  // The budget covers the planned costs, or is switched off.
  ghost predicate Funded(s: State, cost: Name -> real) {
    && (s.config.maxCost <= 0.0 || s.config.onExceed == WarnOnExceed || PlannedCost(s.order, cost) <= s.config.maxCost)
    && (forall n :: cost(n) >= 0.0)
  }

  // Completed agents cost what was planned, the others nothing so far.
  ghost predicate SpentAsPlanned(agents: Agents, cost: Name -> real) {
    forall n :: n in agents ==> agents[n].cost == if agents[n].status == Completed then cost(n) else 0.0
  }

  lemma {:induction false} SpentWithinPlan(agents: Agents, order: seq<Name>, cost: Name -> real)
    requires SpentAsPlanned(agents, cost) && forall n :: cost(n) >= 0.0
    ensures SumCost(agents, order) <= PlannedCost(order, cost)
  {
    if order == [] {
    } else {
      SpentWithinPlan(agents, order[..|order| - 1], cost);
      assert cost(order[|order| - 1]) >= 0.0;
    }
  }

  // ---------------------------------------------------------------------------
  // One claim, one completion
  // ---------------------------------------------------------------------------

  lemma RoomyClaimable(s: State, done: set<Name>, active: set<Name>, n: Name)
    requires OnCourse(s, done, active) && Roomy(s, done) && n in s.agents && s.agents[n].status == Queued
    ensures MayClaim(s, n)
  {
    var queued, running := WithStatus(s.agents, Queued), WithStatus(s.agents, Running);
    SelectAll(s, queued);
    assert n in Members(Select(s.order, queued));
    assert |queued + running| == |queued| + |running|;
    LiveUnblocked(s, done, active);
    SubsetSize(queued + running, Unblocked(Graphed(s.agents), done));
  }

  lemma LiveUnblocked(s: State, done: set<Name>, active: set<Name>)
    requires OnCourse(s, done, active)
    ensures WithStatus(s.agents, Queued) + WithStatus(s.agents, Running) <= Unblocked(Graphed(s.agents), done)
  {
    forall m | m in s.agents && (s.agents[m].status == Queued || s.agents[m].status == Running)
      ensures m !in done && s.agents[m].dependsOn <= done
    {
      assert StatusAsExpected(s.agents, m, done, active) && DepsHeld(s.agents, m);
      forall d | d in s.agents[m].dependsOn ensures d in done {
        assert StatusAsExpected(s.agents, d, done, active);
      }
    }
  }

  lemma ClaimOnCourse(s: State, done: set<Name>, active: set<Name>, n: Name, worker: string, until: int)
    requires OnCourse(s, done, active) && Roomy(s, done)
    requires n in s.agents && n !in done + active && s.agents[n].dependsOn <= done
    ensures OnCourse(Claim(s, n, worker, until), done, active + {n}) && SameRun(s, Claim(s, n, worker, until))
    ensures forall cost :: SpentAsPlanned(s.agents, cost) ==> SpentAsPlanned(Claim(s, n, worker, until).agents, cost)
  {
    var t := Claim(s, n, worker, until);
    assert StatusAsExpected(s.agents, n, done, active);
    RoomyClaimable(s, done, active, n);
    ClaimKeepsCore(s, n, worker, until);
    ClaimExpected(s, done, active, n, worker, until);
    assert Graphed(t.agents) == Graphed(s.agents);
  }

  lemma ClaimExpected(s: State, done: set<Name>, active: set<Name>, n: Name, worker: string, until: int)
    requires Expected(s.agents, done, active) && MayClaim(s, n) && n !in done + active
    ensures Expected(Claim(s, n, worker, until).agents, done, active + {n})
  {
    var t := Claim(s, n, worker, until);
    assert t.agents.Keys == s.agents.Keys;
    forall m | m in t.agents ensures StatusAsExpected(t.agents, m, done, active + {n}) {
      assert StatusAsExpected(s.agents, m, done, active);
    }
  }

  // The roll-up after a completion leaves the course alone.
  lemma RefreshOnCourse(s: State, done: set<Name>, active: set<Name>)
    requires OnCourse(s, done, active)
    ensures OnCourse(Refresh(s), done, active) && SameRun(s, Refresh(s)) && Refresh(s).agents == s.agents
  {
    RefreshKeeps(s);
    QuietKeepsCore(s, Refresh(s));
    CourseStatus(s, done, active);
    forall m | m in s.agents ensures StatusAsExpected(Refresh(s).agents, m, done, active) {
      assert StatusAsExpected(s.agents, m, done, active);
    }
  }

  lemma CourseStatus(s: State, done: set<Name>, active: set<Name>)
    requires OnCourse(s, done, active)
    ensures RolledUp(s) == Completed || RolledUp(s) == Running || RolledUp(s) == Queued
  {
    forall m | m in s.agents
      ensures s.agents[m].status != Paused && (s.agents[m].status.Terminal() ==> s.agents[m].status == Completed)
    {
      assert StatusAsExpected(s.agents, m, done, active);
    }
  }

  // The attempt that currently runs the agent.
  function CurrentAttempt(s: State, n: Name): nat {
    if n in s.agents && s.agents[n].lease.Some? then s.agents[n].lease.value.token else 0
  }

  // The completion, and the roll-up that ends the call if nothing comes between.
  function CompleteCurrent(s: State, n: Name, cost: Name -> real, rolled: bool): State {
    var t := Complete(s, n, cost(n), Some(CurrentAttempt(s, n)));
    if rolled then Refresh(t) else t
  }

  lemma CompletedSetDecides(agents: Agents, done: set<Name>, deps: set<Name>)
    requires forall m :: m in done <==> m in agents && agents[m].status == Completed
    ensures DepsDone(agents, deps) <==> deps <= done
  {
  }

  lemma FinishExpected(a: Agents, b: Agents, done: set<Name>, active: set<Name>, n: Name)
    requires Expected(a, done, active) && n in active && b.Keys == a.Keys
    requires forall m :: m in a && m != n ==> b[m] == a[m]
    requires b[n].status == Completed && b[n].dependsOn == a[n].dependsOn
    ensures Expected(Mark(b, ReadySet(b), Queued), done + {n}, active - {n})
  {
    forall m ensures m in done + {n} <==> m in b && b[m].status == Completed {
      if m in a {
        assert StatusAsExpected(a, m, done, active);
      }
    }
    var c := Mark(b, ReadySet(b), Queued);
    forall m | m in c ensures StatusAsExpected(c, m, done + {n}, active - {n}) {
      assert StatusAsExpected(a, m, done, active);
      CompletedSetDecides(b, done + {n}, b[m].dependsOn);
    }
  }

  lemma FinishedOnCourse(s: State, done: set<Name>, active: set<Name>, n: Name, cost: real, id: nat)
    requires OnCourse(s, done, active) && n in active && MayFinish(s, n, Some(id))
    ensures OnCourse(MarkReady(Finished(s, n, cost, Some(id))), done + {n}, active - {n})
  {
    var f := Finished(s, n, cost, Some(id));
    FinishedKeepsCore(s, n, cost, id);
    MarkReadyKeeps(f);
    QuietKeepsCore(f, MarkReady(f));
    FinishExpected(s.agents, f.agents, done, active, n);
  }

  lemma FinishedShape(s: State, n: Name, cost: Name -> real, id: nat)
    requires n in s.agents && SpentAsPlanned(s.agents, cost) && s.agents[n].status == Running
    ensures var t := MarkReady(Finished(s, n, cost(n), Some(id)));
            SpentAsPlanned(t.agents, cost) && SameRun(s, t) && t.agents.Keys == s.agents.Keys
  {
  }

  lemma CompleteOnCourse(s: State, done: set<Name>, active: set<Name>, n: Name, cost: Name -> real, rolled: bool)
    requires Ready(s, done, active, cost) && n in active
    ensures var t := CompleteCurrent(s, n, cost, rolled);
            Ready(t, done + {n}, active - {n}, cost) && SameRun(s, t)
  {
    var id := CurrentAttempt(s, n);
    assert StatusAsExpected(s.agents, n, done, active);
    assert AgentOwned(s, n);
    assert MayFinish(s, n, Some(id));
    var t := MarkReady(Finished(s, n, cost(n), Some(id)));
    FinishedOnCourse(s, done, active, n, cost(n), id);
    FinishedShape(s, n, cost, id);
    WithinBudget(t, cost);
    assert Complete(s, n, cost(n), Some(id)) == t;
    RefreshOnCourse(t, done + {n}, active - {n});
  }

  lemma WithinBudget(s: State, cost: Name -> real)
    requires Funded(s, cost) && SpentAsPlanned(s.agents, cost)
    ensures EnforceBudget(s) == s
  {
    SpentWithinPlan(s.agents, s.order, cost);
  }

  // ---------------------------------------------------------------------------
  // Rounds
  // ---------------------------------------------------------------------------

  function ClaimAll(s: State, names: seq<Name>, worker: string, until: int): State {
    if names == [] then s
    else Claim(ClaimAll(s, names[..|names| - 1], worker, until), names[|names| - 1], worker, until)
  }

  function CompleteAll(s: State, names: seq<Name>, cost: Name -> real, rolled: set<Name>): State {
    if names == [] then s
    else
      var n := names[|names| - 1];
      CompleteCurrent(CompleteAll(s, names[..|names| - 1], cost, rolled), n, cost, n in rolled)
  }

  ghost predicate Ready(s: State, done: set<Name>, active: set<Name>, cost: Name -> real) {
    OnCourse(s, done, active) && Funded(s, cost) && SpentAsPlanned(s.agents, cost)
  }

  ghost predicate SameRun(s: State, t: State) {
    Graphed(t.agents) == Graphed(s.agents) && t.order == s.order && t.config == s.config
  }

  lemma {:induction false} ClaimAllOnCourse(s: State, done: set<Name>, names: seq<Name>,
                                             worker: string, until: int, cost: Name -> real)
    requires Ready(s, done, {}, cost) && Roomy(s, done) && Distinct(names)
    requires Members(names) <= Unblocked(Graphed(s.agents), done)
    ensures var t := ClaimAll(s, names, worker, until); Ready(t, done, Members(names), cost) && SameRun(s, t)
  {
    if names != [] {
      var init := names[..|names| - 1];
      var n := names[|names| - 1];
      assert names == init + [n];
      MembersLast(init, n);
      ClaimAllOnCourse(s, done, init, worker, until, cost);
      var t := ClaimAll(s, init, worker, until);
      assert n in Unblocked(Graphed(t.agents), done);
      ClaimOnCourse(t, done, Members(init), n, worker, until);
    } else {
      assert Members(names) == {};
    }
  }

  lemma {:induction false} CompleteAllOnCourse(s: State, done: set<Name>, active: set<Name>, names: seq<Name>,
                                                cost: Name -> real, rolled: set<Name>)
    requires Ready(s, done, active, cost) && Distinct(names) && Members(names) <= active
    ensures var t := CompleteAll(s, names, cost, rolled);
            Ready(t, done + Members(names), active - Members(names), cost) && SameRun(s, t)
  {
    if names != [] {
      var init := names[..|names| - 1];
      var n := names[|names| - 1];
      assert names == init + [n];
      MembersLast(init, n);
      CompleteAllOnCourse(s, done, active, init, cost, rolled);
      var t := CompleteAll(s, init, cost, rolled);
      CompleteOnCourse(t, done + Members(init), active - Members(init), n, cost, n in rolled);
      assert done + Members(names) == done + Members(init) + {n};
      assert active - Members(names) == active - Members(init) - {n};
    } else {
      assert done + Members(names) == done && active - Members(names) == active;
    }
  }

  // One round: the claims and the completions each come in any order, and some of the
  // completions are followed by a roll-up.
  datatype Round = Round(claims: seq<Name>, completions: seq<Name>, rolled: set<Name>, worker: string, until: int)

  function PlayRound(s: State, r: Round, cost: Name -> real): State {
    CompleteAll(ClaimAll(s, r.claims, r.worker, r.until), r.completions, cost, r.rolled)
  }

  // The round claims everything that is queued and completes everything it claimed.
  ghost predicate Covers(r: Round, s: State) {
    && Distinct(r.claims) && Members(r.claims) == WithStatus(s.agents, Queued)
    && Distinct(r.completions) && Members(r.completions) == Members(r.claims)
  }

  lemma QueuedIsUnblocked(s: State, done: set<Name>)
    requires OnCourse(s, done, {})
    ensures WithStatus(s.agents, Queued) == Unblocked(Graphed(s.agents), done)
  {
    forall n | n in s.agents ensures s.agents[n].status == Queued <==> n !in done && s.agents[n].dependsOn <= done {
      assert StatusAsExpected(s.agents, n, done, {});
    }
  }

  lemma RoundOnCourse(s: State, done: set<Name>, r: Round, cost: Name -> real)
    requires Ready(s, done, {}, cost) && Roomy(s, done) && Covers(r, s)
    ensures var t := PlayRound(s, r, cost);
            Ready(t, done + Unblocked(Graphed(s.agents), done), {}, cost) && SameRun(s, t)
  {
    QueuedIsUnblocked(s, done);
    ClaimAllOnCourse(s, done, r.claims, r.worker, r.until, cost);
    var t := ClaimAll(s, r.claims, r.worker, r.until);
    CompleteAllOnCourse(t, done, Members(r.claims), r.completions, cost, r.rolled);
    assert Members(r.claims) - Members(r.completions) == {};
  }

  // The states before each round and after the last one.
  ghost predicate Played(plan: PlanSpec, states: seq<State>, rounds: seq<Round>, cost: Name -> real) {
    && ValidPlan(plan.agents)
    && |states| == |rounds| + 1
    && CreateRun(plan) == Some(states[0])
    && forall i :: 0 <= i < |rounds| ==>
         Covers(rounds[i], states[i]) && states[i + 1] == PlayRound(states[i], rounds[i], cost)
  }

  lemma StartsOnCourse(plan: PlanSpec, s: State, cost: Name -> real)
    requires ValidPlan(plan.agents) && CreateRun(plan) == Some(s)
    ensures OnCourse(s, {}, {}) && SpentAsPlanned(s.agents, cost) && Graphed(s.agents) == DepsOf(plan.agents)
  {
    CreatedCore(plan);
    InsertedGraph(plan.agents);
    forall n | n in s.agents
      ensures StatusAsExpected(s.agents, n, {}, {})
      ensures s.agents[n].cost == 0.0 && s.agents[n].status != Completed
    {
      FreshRow(plan.agents, n);
      var i :| 0 <= i < |plan.agents| && s.agents[n] == NewAgent(plan.agents[i]);
      NewAgentWaits(plan.agents[i]);
    }
  }

  lemma NewAgentWaits(spec: AgentSpec)
    ensures NewAgent(spec).status == if NewAgent(spec).dependsOn <= {} then Queued else Pending
  {
    if spec.dependsOn != [] {
      assert spec.dependsOn[0] in Members(spec.dependsOn);
    }
  }

  lemma {:induction false} RoundsFollowLayers(plan: PlanSpec, states: seq<State>, rounds: seq<Round>,
                                              cost: Name -> real, k: nat)
    requires Played(plan, states, rounds, cost) && k < |states|
    requires Wide(states[0]) && Funded(states[0], cost)
    ensures Graphed(states[k].agents) == DepsOf(plan.agents)
    ensures Ready(states[k], DoneBefore(DepsOf(plan.agents), k), {}, cost) && states[k].config == states[0].config
  {
    if k == 0 {
      StartsOnCourse(plan, states[0], cost);
    } else {
      RoundsFollowLayers(plan, states, rounds, cost, k - 1);
      StartsOnCourse(plan, states[0], cost);
      assert |Layer(DepsOf(plan.agents), k - 1)| == |Layer(Graphed(states[0].agents), k - 1)|;
      RoundOnCourse(states[k - 1], DoneBefore(DepsOf(plan.agents), k - 1), rounds[k - 1], cost);
    }
  }

  // Round k finds exactly layer k of the graph queued, and exactly the layers before
  // it completed.
  lemma SchedulerRefinesLayers(plan: PlanSpec, states: seq<State>, rounds: seq<Round>, cost: Name -> real, k: nat)
    requires Played(plan, states, rounds, cost) && k < |states|
    requires Wide(states[0]) && Funded(states[0], cost)
    ensures WithStatus(states[k].agents, Queued) == Layer(DepsOf(plan.agents), k)
    ensures WithStatus(states[k].agents, Completed) == DoneBefore(DepsOf(plan.agents), k)
    ensures WithStatus(states[k].agents, Running) == {}
  {
    RoundsFollowLayers(plan, states, rounds, cost, k);
    QueuedIsUnblocked(states[k], DoneBefore(DepsOf(plan.agents), k));
    CompletedIsDone(states[k], DoneBefore(DepsOf(plan.agents), k));
  }

  // When the layers are used up every agent is completed, and the next roll-up
  // completes the run.
  lemma LayersCompleteTheRun(plan: PlanSpec, states: seq<State>, rounds: seq<Round>, cost: Name -> real, k: nat)
    requires Played(plan, states, rounds, cost) && k < |states|
    requires Wide(states[0]) && Funded(states[0], cost)
    requires Exhausted(DepsOf(plan.agents), k)
    ensures forall n :: n in states[k].agents ==> states[k].agents[n].status == Completed
    ensures plan.agents != [] ==> Refresh(states[k]).status == Completed
  {
    RoundsFollowLayers(plan, states, rounds, cost, k);
    SchedulerRefinesLayers(plan, states, rounds, cost, k);
    SameKeys(states[k], DepsOf(plan.agents));
    AllCompleted(states[k]);
    if plan.agents != [] {
      DepsOfKeys(plan.agents);
      assert plan.agents[0].name in states[k].agents;
    }
  }

  // As many rounds as agents always complete the run.
  lemma RoundsSuffice(plan: PlanSpec, states: seq<State>, rounds: seq<Round>, cost: Name -> real, k: nat)
    requires Played(plan, states, rounds, cost) && |plan.agents| <= k < |states|
    requires Wide(states[0]) && Funded(states[0], cost)
    ensures forall n :: n in states[k].agents ==> states[k].agents[n].status == Completed
    ensures plan.agents != [] ==> Refresh(states[k]).status == Completed
  {
    var deps := DepsOf(plan.agents);
    DepsOfKeys(plan.agents);
    forall n | n in deps ensures n in Members(NamesOf(plan.agents)) {
      var i :| 0 <= i < |plan.agents| && plan.agents[i].name == n;
      assert NamesOf(plan.agents)[i] == n;
    }
    SubsetSize(deps.Keys, Members(NamesOf(plan.agents)));
    DistinctSize(NamesOf(plan.agents));
    WellNamedMeansClosed(plan.agents);
    LayersSuffice(deps, k);
    LayersCompleteTheRun(plan, states, rounds, cost, k);
  }

  lemma SameKeys(s: State, deps: Deps)
    requires Graphed(s.agents) == deps
    ensures s.agents.Keys == deps.Keys
  {
    assert Graphed(s.agents).Keys == s.agents.Keys;
  }

  lemma CompletedIsDone(s: State, done: set<Name>)
    requires OnCourse(s, done, {})
    ensures WithStatus(s.agents, Completed) == done && WithStatus(s.agents, Running) == {}
  {
    forall n | n in s.agents ensures (s.agents[n].status == Completed <==> n in done) && s.agents[n].status != Running {
      assert StatusAsExpected(s.agents, n, done, {});
    }
  }

  lemma AllCompleted(s: State)
    requires WithStatus(s.agents, Completed) == s.agents.Keys
    requires s.status != Cancelled && s.status != CostExceeded
    ensures forall n :: n in s.agents ==> s.agents[n].status == Completed
    ensures s.agents != map[] ==> Refresh(s).status == Completed
  {
    forall n | n in s.agents ensures s.agents[n].status == Completed {
      assert n in WithStatus(s.agents, Completed);
    }
  }
}
