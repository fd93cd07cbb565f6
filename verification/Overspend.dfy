/**
 How far a run can overshoot its cost budget.
 */
module Overspend {
  import opened Graph
  import opened Plan
  import opened RunState
  import opened Transitions
  import opened Invariants
  import opened Outcomes
  import opened Steps
  import opened Runs
  import opened Validation

  // Costs are charged on completion only.
  ghost predicate Charged(a: Agent) {
    a.cost >= 0.0 && (a.status != Completed ==> a.cost == 0.0)
  }

  ghost predicate AllCharged(agents: Agents) {
    forall n {:trigger Charged(agents[n])} :: n in agents ==> Charged(agents[n])
  }

  function LiveSet(agents: Agents): set<Name> {
    WithStatus(agents, Queued) + WithStatus(agents, Running)
  }

  // Every completion reports a cost between 0 and `c`.
  ghost predicate CostsWithin(steps: seq<Step>, c: real) {
    forall i :: 0 <= i < |steps| && steps[i].CompleteStep? ==> 0.0 <= steps[i].cost <= c
  }

  // ---------------------------------------------------------------------------
  // Sums
  // ---------------------------------------------------------------------------

  lemma {:induction false} SameSum(a: Agents, b: Agents, order: seq<Name>)
    requires a.Keys == b.Keys && forall n :: n in a ==> a[n].cost == b[n].cost
    ensures SumCost(a, order) == SumCost(b, order)
  {
    if order == [] {
    } else {
      SameSum(a, b, order[..|order| - 1]);
    }
  }

  lemma {:induction false} SumOfOneCharge(a: Agents, order: seq<Name>, n: Name, row: Agent)
    requires n in a && Distinct(order)
    ensures SumCost(a[n := row], order) == SumCost(a, order) + if n in order then row.cost - a[n].cost else 0.0
  {
    if order == [] {
    } else {
      var init := order[..|order| - 1];
      assert order == init + [order[|order| - 1]];
      SumOfOneCharge(a, init, n, row);
    }
  }

  lemma {:induction false} NothingSpent(a: Agents, order: seq<Name>)
    requires forall n :: n in a ==> a[n].cost == 0.0
    ensures SumCost(a, order) == 0.0
  {
    if order == [] {
    } else {
      NothingSpent(a, order[..|order| - 1]);
    }
  }

  // ---------------------------------------------------------------------------
  // One step
  // ---------------------------------------------------------------------------

  lemma QuietSpendsNothing(s: State, t: State)
    requires Quiet(s, t) && AllCharged(s.agents)
    ensures TotalCost(t) == TotalCost(s) && AllCharged(t.agents)
  {
    forall n | n in s.agents ensures t.agents[n].cost == s.agents[n].cost && Charged(t.agents[n]) {
      assert QuietRow(s, t, n) && Charged(s.agents[n]);
    }
    SameSum(s.agents, t.agents, s.order);
  }

  // Every step but a completion spends nothing.
  lemma StepSpendsNothing(s: State, step: Step)
    requires Core(s) && Enabled(s, step) && AllCharged(s.agents)
    requires !step.CompleteStep? && !step.SpawnStep? && !step.ResumeStep?
    ensures TotalCost(Apply(s, step)) == TotalCost(s) && AllCharged(Apply(s, step).agents)
  {
    if Minor(step) {
      MinorStepKeeps(s, step);
      QuietSpendsNothing(s, Apply(s, step));
    } else {
      ClaimSpendsNothing(s, step.n, step.worker, step.until);
    }
  }

  lemma ClaimSpendsNothing(s: State, n: Name, worker: string, until: int)
    requires AllCharged(s.agents)
    ensures var t := Claim(s, n, worker, until);
            TotalCost(t) == TotalCost(s) && AllCharged(t.agents)
  {
    var t := Claim(s, n, worker, until);
    forall m | m in s.agents ensures t.agents[m].cost == s.agents[m].cost && Charged(t.agents[m]) {
      assert Charged(s.agents[m]);
    }
    SameSum(s.agents, t.agents, s.order);
  }

  lemma FinishedSpends(s: State, n: Name, cost: real, id: nat)
    requires Core(s) && MayFinish(s, n, Some(id)) && AllCharged(s.agents) && cost >= 0.0
    ensures var u := MarkReady(Finished(s, n, cost, Some(id)));
            TotalCost(u) == TotalCost(s) + cost && AllCharged(u.agents)
  {
    var f := Finished(s, n, cost, Some(id));
    assert Charged(s.agents[n]);
    assert n in Members(s.order);
    SumOfOneCharge(s.agents, s.order, n, f.agents[n]);
    forall m | m in f.agents ensures Charged(f.agents[m]) {
      assert Charged(s.agents[m]);
    }
    FinishedOwned(s, n, cost, id);
    MarkReadyKeeps(f);
    QuietSpendsNothing(f, MarkReady(f));
  }

  // ---------------------------------------------------------------------------
  // `on_exceed` = cancel
  // ---------------------------------------------------------------------------

  ghost predicate CancelBound(s: State, c: real) {
    || TotalCost(s) <= s.config.maxCost
    || (AllTerminal(s.agents) && TotalCost(s) <= s.config.maxCost + c)
  }

  lemma CompleteCancelBound(s: State, n: Name, cost: real, id: nat, c: real)
    requires Core(s) && AllCharged(s.agents) && 0.0 <= cost <= c
    requires s.config.maxCost > 0.0 && s.config.onExceed == CancelOnExceed && CancelBound(s, c)
    ensures var t := Complete(s, n, cost, Some(id)); CancelBound(t, c) && AllCharged(t.agents)
  {
    if MayFinish(s, n, Some(id)) {
      var u := MarkReady(Finished(s, n, cost, Some(id)));
      FinishedSpends(s, n, cost, id);
      FinishedOwned(s, n, cost, id);
      MarkReadyKeeps(Finished(s, n, cost, Some(id)));
      EnforceBudgetKeeps(u);
      QuietSpendsNothing(u, EnforceBudget(u));
      CancelAllEnds(u);
      assert s.agents[n].status == Running;
    }
  }

  // ---------------------------------------------------------------------------
  // `on_exceed` = pause
  // ---------------------------------------------------------------------------

  // How many agents may run at once.
  function Width(s: State): nat {
    if EffectiveLimit(s.config).Some? then EffectiveLimit(s.config).value else |s.agents|
  }

  ghost predicate PauseBound(s: State, c: real) {
    || TotalCost(s) <= s.config.maxCost
    || (WithStatus(s.agents, Pending) == {}
        && TotalCost(s) + Times(|LiveSet(s.agents)|, c) <= s.config.maxCost + Times(Width(s), c))
  }

  // k times c, by repeated addition.
  function Times(k: nat, c: real): real {
    if k == 0 then 0.0 else Times(k - 1, c) + c
  }

  lemma {:induction false} TimesIsProduct(k: nat, c: real)
    ensures Times(k, c) == k as real * c
  {
    if k == 0 {
    } else {
      TimesIsProduct(k - 1, c);
      var r := (k - 1) as real;
      assert k as real == r + 1.0;
      assert (r + 1.0) * c == r * c + c;
    }
  }

  lemma {:induction false} FewerTimes(a: nat, b: nat, c: real)
    requires a <= b && c >= 0.0
    ensures 0.0 <= Times(a, c) <= Times(b, c)
    decreases b
  {
    if b == 0 {
    } else {
      if a < b {
        FewerTimes(a, b - 1, c);
      } else {
        FewerTimes(b - 1, b - 1, c);
      }
    }
  }

  lemma RunningFits(s: State)
    requires Core(s)
    ensures |WithStatus(s.agents, Running)| <= Width(s)
  {
    SubsetSize(WithStatus(s.agents, Running), s.agents.Keys);
  }

  // Once nothing is pending, no step but resumption and spawning adds live agents.
  lemma LiveShrinks(a: Agents, b: Agents)
    requires AllAdvance(a, b) && WithStatus(a, Pending) == {}
    ensures WithStatus(b, Pending) == {} && LiveSet(b) <= LiveSet(a)
  {
    forall n | n in b ensures b[n].status != Pending && (n in LiveSet(b) ==> n in LiveSet(a)) {
      assert Advances(a[n], b[n]);
      assert n !in WithStatus(a, Pending);
    }
  }

  lemma PausedAfterFinish(s: State, n: Name, cost: real, id: nat)
    requires Core(s) && MayFinish(s, n, Some(id))
    ensures var t := PauseWaiting(MarkReady(Finished(s, n, cost, Some(id))));
            WithStatus(t.agents, Pending) == {} && LiveSet(t.agents) == WithStatus(s.agents, Running) - {n}
  {
    FinishedRunning(s, n, cost, id);
    PausedLive(MarkReady(Finished(s, n, cost, Some(id))));
  }

  lemma FinishedRunning(s: State, n: Name, cost: real, id: nat)
    requires MayFinish(s, n, Some(id))
    ensures WithStatus(MarkReady(Finished(s, n, cost, Some(id))).agents, Running) == WithStatus(s.agents, Running) - {n}
  {
  }

  lemma PausedLive(s: State)
    ensures WithStatus(PauseWaiting(s).agents, Pending) == {}
    ensures LiveSet(PauseWaiting(s).agents) == WithStatus(s.agents, Running)
  {
  }

  lemma CompletePauseBound(s: State, n: Name, cost: real, id: nat, c: real)
    requires Core(s) && AllCharged(s.agents) && 0.0 <= cost <= c
    requires s.config.maxCost > 0.0 && s.config.onExceed == PauseOnExceed && PauseBound(s, c)
    ensures var t := Complete(s, n, cost, Some(id)); PauseBound(t, c) && AllCharged(t.agents)
  {
    if MayFinish(s, n, Some(id)) {
      var u := MarkReady(Finished(s, n, cost, Some(id)));
      var t := EnforceBudget(u);
      FinishedSpends(s, n, cost, id);
      FinishedOwned(s, n, cost, id);
      MarkReadyKeeps(Finished(s, n, cost, Some(id)));
      EnforceBudgetKeeps(u);
      QuietSpendsNothing(u, t);
      if TotalCost(t) > t.config.maxCost {
        PausedAfterFinish(s, n, cost, id);
        OneLiveLess(s, n, LiveSet(t.agents), c);
        assert Width(t) == Width(s);
      }
    }
  }

  // The agent that finished pays for its own share of the allowance.
  lemma OneLiveLess(s: State, n: Name, live: set<Name>, c: real)
    requires Core(s) && c >= 0.0 && PauseBound(s, c)
    requires n in WithStatus(s.agents, Running) && live == WithStatus(s.agents, Running) - {n}
    ensures TotalCost(s) + c + Times(|live|, c) <= s.config.maxCost + Times(Width(s), c)
  {
    var running := WithStatus(s.agents, Running);
    assert running == live + {n};
    assert |running| == |live| + 1;
    if TotalCost(s) <= s.config.maxCost {
      RunningFits(s);
      FewerTimes(|running|, Width(s), c);
    } else {
      SubsetSize(running, LiveSet(s.agents));
      FewerTimes(|running|, |LiveSet(s.agents)|, c);
    }
  }

  lemma OtherStepPauseBound(s: State, step: Step, c: real)
    requires Core(s) && Enabled(s, step) && AllCharged(s.agents) && c >= 0.0 && PauseBound(s, c)
    requires !step.CompleteStep? && !step.SpawnStep? && !step.ResumeStep?
    ensures PauseBound(Apply(s, step), c)
  {
    var t := Apply(s, step);
    StepSpendsNothing(s, step);
    StepKeepsOrder(s, step);
    StepKeepsCore(s, step);
    if TotalCost(s) > s.config.maxCost {
      LiveShrinks(s.agents, t.agents);
      SubsetSize(LiveSet(t.agents), LiveSet(s.agents));
      FewerTimes(|LiveSet(t.agents)|, |LiveSet(s.agents)|, c);
      assert Width(t) == Width(s);
    }
  }

  lemma OtherStepCancelBound(s: State, step: Step, c: real)
    requires Core(s) && Enabled(s, step) && AllCharged(s.agents) && CancelBound(s, c)
    requires !step.CompleteStep? && !step.SpawnStep? && !step.ResumeStep?
    ensures CancelBound(Apply(s, step), c)
  {
    StepSpendsNothing(s, step);
    StepKeepsOrder(s, step);
    StepKeepsCore(s, step);
    if AllTerminal(s.agents) {
      AdvanceKeepsTerminal(s.agents, Apply(s, step).agents);
    }
  }

  // ---------------------------------------------------------------------------
  // Whole runs
  // ---------------------------------------------------------------------------

  lemma CompleteCharges(s: State, n: Name, cost: real, id: nat, c: real)
    requires Core(s) && AllCharged(s.agents) && 0.0 <= cost <= c
    ensures AllCharged(Complete(s, n, cost, Some(id)).agents)
  {
    if MayFinish(s, n, Some(id)) {
      var u := MarkReady(Finished(s, n, cost, Some(id)));
      FinishedSpends(s, n, cost, id);
      FinishedOwned(s, n, cost, id);
      MarkReadyKeeps(Finished(s, n, cost, Some(id)));
      EnforceBudgetKeeps(u);
      QuietSpendsNothing(u, EnforceBudget(u));
    }
  }

  lemma StepCancelBound(s: State, step: Step, c: real)
    requires Core(s) && Enabled(s, step) && AllCharged(s.agents) && CancelBound(s, c)
    requires s.config.maxCost > 0.0 && s.config.onExceed == CancelOnExceed
    requires !step.SpawnStep? && !step.ResumeStep? && (step.CompleteStep? ==> 0.0 <= step.cost <= c)
    ensures CancelBound(Apply(s, step), c)
  {
    if step.CompleteStep? {
      CompleteCancelBound(s, step.n, step.cost, step.id, c);
    } else {
      OtherStepCancelBound(s, step, c);
    }
  }

  lemma StepPauseBound(s: State, step: Step, c: real)
    requires Core(s) && Enabled(s, step) && AllCharged(s.agents) && c >= 0.0 && PauseBound(s, c)
    requires s.config.maxCost > 0.0 && s.config.onExceed == PauseOnExceed
    requires !step.SpawnStep? && !step.ResumeStep? && (step.CompleteStep? ==> 0.0 <= step.cost <= c)
    ensures PauseBound(Apply(s, step), c)
  {
    if step.CompleteStep? {
      CompletePauseBound(s, step.n, step.cost, step.id, c);
    } else {
      OtherStepPauseBound(s, step, c);
    }
  }

  lemma PauseBoundMeans(s: State, c: real, width: nat)
    requires PauseBound(s, c) && c >= 0.0 && width == Width(s)
    ensures TotalCost(s) <= s.config.maxCost + Times(width, c)
  {
    FewerTimes(0, |LiveSet(s.agents)|, c);
    FewerTimes(0, Width(s), c);
  }

  ghost predicate Thrifty(plan: PlanSpec, states: seq<State>, steps: seq<Step>, c: real) {
    && Execution(plan, states, steps) && NoResume(steps) && NoSpawn(steps)
    && CostsWithin(steps, c) && c >= 0.0 && ConfigOf(plan).maxCost > 0.0
  }

  lemma StartsFree(plan: PlanSpec, s: State)
    requires ValidPlan(plan.agents) && CreateRun(plan) == Some(s)
    ensures AllCharged(s.agents) && TotalCost(s) == 0.0
  {
    forall n | n in s.agents ensures Charged(s.agents[n]) {
      FreshRow(plan.agents, n);
    }
    forall n | n in s.agents ensures s.agents[n].cost == 0.0 {
      FreshRow(plan.agents, n);
    }
    NothingSpent(s.agents, s.order);
  }

  lemma {:induction false} AlwaysCharged(plan: PlanSpec, states: seq<State>, steps: seq<Step>, k: nat, c: real)
    requires Thrifty(plan, states, steps, c) && k < |states|
    ensures AllCharged(states[k].agents) && states[k].agents.Keys == states[0].agents.Keys
    ensures Core(states[k]) && states[k].config == ConfigOf(plan)
  {
    ConfigFixed(plan, states, steps, k);
    Reached(plan, states, steps, k);
    if k == 0 {
      StartsFree(plan, states[0]);
    } else {
      AlwaysCharged(plan, states, steps, k - 1, c);
      assert Taken(states, steps, k - 1);
      var s, step := states[k - 1], steps[k - 1];
      StepKeepsCore(s, step);
      if step.CompleteStep? {
        CompleteCharges(s, step.n, step.cost, step.id, c);
      } else {
        StepSpendsNothing(s, step);
      }
    }
  }

  lemma {:induction false} CancelBoundHolds(plan: PlanSpec, states: seq<State>, steps: seq<Step>, k: nat, c: real)
    requires Thrifty(plan, states, steps, c) && k < |states| && ConfigOf(plan).onExceed == CancelOnExceed
    ensures CancelBound(states[k], c)
  {
    if k == 0 {
      AlwaysCharged(plan, states, steps, 0, c);
      StartsFree(plan, states[0]);
    } else {
      CancelBoundHolds(plan, states, steps, k - 1, c);
      NextCancelBound(plan, states, steps, k - 1, c);
    }
  }

  lemma NextCancelBound(plan: PlanSpec, states: seq<State>, steps: seq<Step>, k: nat, c: real)
    requires Thrifty(plan, states, steps, c) && k < |steps| && ConfigOf(plan).onExceed == CancelOnExceed
    requires CancelBound(states[k], c)
    ensures CancelBound(states[k + 1], c)
  {
    AlwaysCharged(plan, states, steps, k, c);
    assert Taken(states, steps, k);
    StepCancelBound(states[k], steps[k], c);
  }

  lemma {:induction false} PauseBoundHolds(plan: PlanSpec, states: seq<State>, steps: seq<Step>, k: nat, c: real)
    requires Thrifty(plan, states, steps, c) && k < |states| && ConfigOf(plan).onExceed == PauseOnExceed
    ensures PauseBound(states[k], c)
  {
    if k == 0 {
      AlwaysCharged(plan, states, steps, 0, c);
      StartsFree(plan, states[0]);
    } else {
      PauseBoundHolds(plan, states, steps, k - 1, c);
      NextPauseBound(plan, states, steps, k - 1, c);
    }
  }

  lemma NextPauseBound(plan: PlanSpec, states: seq<State>, steps: seq<Step>, k: nat, c: real)
    requires Thrifty(plan, states, steps, c) && k < |steps| && ConfigOf(plan).onExceed == PauseOnExceed
    requires PauseBound(states[k], c)
    ensures PauseBound(states[k + 1], c)
  {
    AlwaysCharged(plan, states, steps, k, c);
    assert Taken(states, steps, k);
    StepPauseBound(states[k], steps[k], c);
  }

  lemma SameWidth(plan: PlanSpec, states: seq<State>, steps: seq<Step>, k: nat, c: real)
    requires Thrifty(plan, states, steps, c) && k < |states|
    ensures Width(states[k]) == Width(states[0]) && states[k].config == ConfigOf(plan)
  {
    AlwaysCharged(plan, states, steps, k, c);
    AlwaysCharged(plan, states, steps, 0, c);
  }

  // A positive budget B with `cancel`: completions of at most c each never take the
  // run beyond B + c.
  lemma CancelOvershoot(plan: PlanSpec, states: seq<State>, steps: seq<Step>, k: nat, c: real)
    requires Thrifty(plan, states, steps, c) && k < |states| && ConfigOf(plan).onExceed == CancelOnExceed
    ensures TotalCost(states[k]) <= ConfigOf(plan).maxCost + c
  {
    AlwaysCharged(plan, states, steps, k, c);
    CancelBoundHolds(plan, states, steps, k, c);
  }

  // With `pause`: never beyond B + L * c, where L agents may run at once.
  lemma PauseOvershoot(plan: PlanSpec, states: seq<State>, steps: seq<Step>, k: nat, c: real)
    requires Thrifty(plan, states, steps, c) && k < |states| && ConfigOf(plan).onExceed == PauseOnExceed
    ensures TotalCost(states[k]) <= ConfigOf(plan).maxCost + Width(states[0]) as real * c
  {
    PauseTotal(plan, states, steps, k, c);
    TimesIsProduct(Width(states[0]), c);
  }

  lemma PauseTotal(plan: PlanSpec, states: seq<State>, steps: seq<Step>, k: nat, c: real)
    requires Thrifty(plan, states, steps, c) && k < |states| && ConfigOf(plan).onExceed == PauseOnExceed
    ensures TotalCost(states[k]) <= ConfigOf(plan).maxCost + Times(Width(states[0]), c)
  {
    SameWidth(plan, states, steps, k, c);
    PauseBoundHolds(plan, states, steps, k, c);
    PauseBoundMeans(states[k], c, Width(states[0]));
  }

  // ---------------------------------------------------------------------------
  // In terms of the plan
  // ---------------------------------------------------------------------------

  // How many agents of the plan may run at once.
  function PlanWidth(plan: PlanSpec): nat {
    match plan.concurrencyLimit
    case None => |plan.agents|
    case Some(limit) => if limit > 0 then limit else |plan.agents|
  }

  lemma StartWidth(plan: PlanSpec, s: State)
    requires ValidPlan(plan.agents) && CreateRun(plan) == Some(s)
    ensures Width(s) == PlanWidth(plan)
  {
    Inserted(plan.agents);
    DistinctSize(NamesOf(plan.agents));
    assert |s.agents| == |s.agents.Keys|;
  }

  ghost predicate CheapRun(plan: PlanSpec, states: seq<State>, steps: seq<Step>, c: real) {
    Execution(plan, states, steps) && NoResume(steps) && NoSpawn(steps) && CostsWithin(steps, c) && c >= 0.0
  }

  // A plan that names no budget gets 25 dollars and a pause.
  lemma DefaultBudgetHolds(plan: PlanSpec, states: seq<State>, steps: seq<Step>, k: nat, c: real)
    requires CheapRun(plan, states, steps, c) && k < |states| && plan.costBudget == None
    ensures SumCost(states[k].agents, states[k].order) <= 25.0 + PlanWidth(plan) as real * c
  {
    StartWidth(plan, states[0]);
    PauseOvershoot(plan, states, steps, k, c);
  }

  // A plan with a positive budget overshoots it by one completion if it cancels, and by one
  // for each agent that may run at once if it pauses.
  lemma PlanBudgetHolds(plan: PlanSpec, states: seq<State>, steps: seq<Step>, k: nat, c: real)
    requires CheapRun(plan, states, steps, c) && k < |states|
    requires plan.costBudget.Some? && plan.costBudget.value.totalUsd > 0.0
    ensures plan.costBudget.value.onExceed == CancelOnExceed ==>
              SumCost(states[k].agents, states[k].order) <= plan.costBudget.value.totalUsd + c
    ensures plan.costBudget.value.onExceed == PauseOnExceed ==>
              SumCost(states[k].agents, states[k].order)
              <= plan.costBudget.value.totalUsd + PlanWidth(plan) as real * c
  {
    if plan.costBudget.value.onExceed == CancelOnExceed {
      CancelOvershoot(plan, states, steps, k, c);
    } else if plan.costBudget.value.onExceed == PauseOnExceed {
      StartWidth(plan, states[0]);
      PauseOvershoot(plan, states, steps, k, c);
    }
  }
}
