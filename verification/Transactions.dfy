/**
 The helpers that run inside a transaction, in the form the source gives them:
 read the rows, then update one row after the other.  Each is proved against the
 function that says what the whole helper does.
 */
module Transactions {
  import opened Graph
  import opened Plan
  import opened RunState
  import opened Transitions

  lemma MarkNext(agents: Agents, names: set<Name>, n: Name, status: Status)
    requires n in agents
    ensures var before := Mark(agents, names, status);
            n in before && before[n := before[n].(status := status)] == Mark(agents, names + {n}, status)
  {
  }

  lemma ReleaseNext(agents: Agents, names: set<Name>, n: Name, status: Status)
    requires n in agents
    ensures var before := Release(agents, names, status);
            && n in before
            && before[n := before[n].(status := status, lease := None)] == Release(agents, names + {n}, status)
  {
  }

  lemma NextMember(names: seq<Name>, i: nat)
    requires i < |names|
    ensures Members(names[..i + 1]) == Members(names[..i]) + {names[i]}
  {
    assert names[..i + 1] == names[..i] + [names[i]];
  }

  /** Rows that pass a test, in row order; the test is the membership of `keep`. */
  method ListRows(s: State, keep: set<Name>) returns (names: seq<Name>)
    requires Listed(s) && keep <= s.agents.Keys
    ensures names == Select(s.order, keep)
    ensures Members(names) == keep && Distinct(names)
  {
    names := [];
    for i := 0 to |s.order|
      invariant names == Select(s.order[..i], keep)
    {
      SelectNext(s.order, keep, i);
      if s.order[i] in keep {
        names := names + [s.order[i]];
      }
    }
    assert s.order[..|s.order|] == s.order;
    SelectAll(s, keep);
  }

  method SetStatuses(agents: Agents, names: seq<Name>, status: Status) returns (updated: Agents)
    requires Members(names) <= agents.Keys
    ensures updated == Mark(agents, Members(names), status)
  {
    updated := agents;
    assert agents == Mark(agents, Members(names[..0]), status);
    for i := 0 to |names|
      invariant updated == Mark(agents, Members(names[..i]), status)
    {
      var name := names[i];
      assert name in Members(names);
      NextMember(names, i);
      MarkNext(agents, Members(names[..i]), name, status);
      updated := updated[name := updated[name].(status := status)];
    }
    assert names[..|names|] == names;
  }

  method ReleaseAgents(agents: Agents, names: seq<Name>, status: Status) returns (updated: Agents)
    requires Members(names) <= agents.Keys
    ensures updated == Release(agents, Members(names), status)
  {
    updated := agents;
    assert agents == Release(agents, Members(names[..0]), status);
    for i := 0 to |names|
      invariant updated == Release(agents, Members(names[..i]), status)
    {
      var name := names[i];
      assert name in Members(names);
      NextMember(names, i);
      ReleaseNext(agents, Members(names[..i]), name, status);
      updated := updated[name := updated[name].(status := status, lease := None)];
    }
    assert names[..|names|] == names;
  }

  /** `_mark_newly_ready_agents_in_transaction` */
  method MarkNewlyReady(s: State) returns (t: State, ready: seq<Name>)
    requires Listed(s)
    ensures t == MarkReady(s) && ready == ReadyNames(s)
  {
    var completed := WithStatus(s.agents, Completed);
    var keep := set n | n in s.agents && s.agents[n].status == Pending && s.agents[n].dependsOn <= completed;
    assert keep == ReadySet(s.agents) by {
      forall n | n in s.agents
        ensures s.agents[n].dependsOn <= completed <==> DepsDone(s.agents, s.agents[n].dependsOn)
      {
      }
    }
    ready := ListRows(s, keep);
    var agents := SetStatuses(s.agents, ready, Queued);
    t := s.(agents := agents);
  }

  /** `_claimable_ready_agents_in_connection` */
  method ClaimableReady(s: State) returns (names: seq<Name>)
    requires Listed(s)
    ensures names == Claimable(s)
  {
    names := ListRows(s, WithStatus(s.agents, Queued));
    var limit := EffectiveLimit(s.config);
    if limit.Some? {
      var running := |WithStatus(s.agents, Running)|;
      var available := if limit.value - running > 0 then limit.value - running else 0;
      if available < |names| {
        names := names[..available];
      }
    }
  }

  /** `_fail_dependency_blocked_agents_in_transaction`: rounds until no waiting agent is hit. */
  method FailDependencyBlocked(s: State, root: Name) returns (t: State)
    requires Listed(s)
    requires root in s.agents ==> !s.agents[root].status.Waiting()
    ensures t == Cascade(s, root)
  {
    var failed := {root};
    t := s;
    CascadeStarts(s, root);
    while true
      invariant Cascading(s, t, root, failed)
      decreases |s.agents.Keys - failed|
    {
      var hit := BlockedRows(t.agents, failed);
      RereadRows(s.agents, root, failed);
      if hit == {} {
        CascadeEnds(s, t, root, failed);
        return;
      }
      CascadeGoesOn(s, t, root, failed);
      HitShrinks(s.agents, failed);
      t := FailRows(t, hit);
      failed := failed + hit;
    }
  }

  function BlockedRows(agents: Agents, failed: set<Name>): set<Name> {
    set n | n in agents && agents[n].status.Waiting() && agents[n].dependsOn * failed != {}
  }

  method FailRows(s: State, hit: set<Name>) returns (t: State)
    requires Listed(s) && hit <= s.agents.Keys
    ensures t == s.(agents := Release(s.agents, hit, Failed)) && Listed(t)
  {
    var names := ListRows(s, hit);
    var agents := ReleaseAgents(s.agents, names, Failed);
    t := s.(agents := agents);
  }

  // The rounds so far failed the agents of `failed` other than the root, and the rounds
  // to come complete the cascade.
  ghost predicate Cascading(s: State, t: State, root: Name, failed: set<Name>) {
    && root in failed && Listed(t)
    && t == s.(agents := Release(s.agents, failed - {root}, Failed))
    && Doomed(s.agents, {root}) == (failed - {root}) + Doomed(s.agents, failed)
  }

  lemma CascadeStarts(s: State, root: Name)
    requires Listed(s)
    ensures Cascading(s, s, root, {root})
  {
    assert {root} - {root} == {};
    assert s.agents == Release(s.agents, {}, Failed);
  }

  // Rereading the rows drops exactly the agents that earlier rounds failed.
  lemma RereadRows(agents: Agents, root: Name, failed: set<Name>)
    requires root in failed && (root in agents ==> !agents[root].status.Waiting())
    ensures BlockedRows(Release(agents, failed - {root}, Failed), failed) == Hit(agents, failed)
    ensures var hit := Hit(agents, failed);
            Release(Release(agents, failed - {root}, Failed), hit, Failed)
            == Release(agents, (failed + hit) - {root}, Failed)
  {
  }

  lemma CascadeEnds(s: State, t: State, root: Name, failed: set<Name>)
    requires Cascading(s, t, root, failed) && Hit(s.agents, failed) == {}
    ensures t == Cascade(s, root)
  {
    assert Doomed(s.agents, failed) == {};
  }

  lemma CascadeGoesOn(s: State, t: State, root: Name, failed: set<Name>)
    requires Cascading(s, t, root, failed) && (root in s.agents ==> !s.agents[root].status.Waiting())
    requires Hit(s.agents, failed) != {}
    ensures var hit := Hit(s.agents, failed);
            Cascading(s, t.(agents := Release(t.agents, hit, Failed)), root, failed + hit)
  {
    var hit := Hit(s.agents, failed);
    RereadRows(s.agents, root, failed);
    assert Doomed(s.agents, failed) == hit + Doomed(s.agents, failed + hit);
    assert (failed + hit) - {root} == (failed - {root}) + hit;
  }

  method CancelAgents(s: State, names: seq<Name>) returns (t: State)
    requires Members(names) <= s.agents.Keys
    ensures t == CancelSet(s, Members(names))
  {
    var agents := ReleaseAgents(s.agents, names, Cancelled);
    t := s.(agents := agents);
    if names != [] {
      t := t.(attempts := CancelAttempts(s.attempts, Members(names)));
    } else {
      assert CancelAttempts(s.attempts, {}) == s.attempts;
    }
  }

  /** `_stop_run_after_agent_failure_in_transaction` */
  method StopRunAfterFailure(s: State, failed: Name) returns (t: State)
    requires Listed(s)
    ensures t == StopOthers(s, failed)
  {
    var stopped := ListRows(s, set n | n in s.agents && n != failed && !s.agents[n].status.Terminal());
    assert Members(stopped) == NonTerminal(s.agents) - {failed};
    t := CancelAgents(s, stopped);
    t := t.(status := Failed);
  }

  /** `_pause_pending_work_in_transaction` */
  method PausePendingWork(s: State) returns (t: State)
    requires Listed(s)
    ensures t == PauseWaiting(s)
  {
    var paused := ListRows(s, WaitingSet(s.agents));
    var agents := SetStatuses(s.agents, paused, Paused);
    t := s.(agents := agents);
    if paused != [] {
      assert paused[0] in Members(paused);
      t := t.(status := Paused);
    }
  }

  /** `_cancel_non_terminal_work_in_transaction` */
  method CancelNonTerminalWork(s: State) returns (t: State)
    requires Listed(s)
    ensures t == CancelSet(s, NonTerminal(s.agents))
  {
    var cancelled := ListRows(s, NonTerminal(s.agents));
    t := CancelAgents(s, cancelled);
  }

  /** `_enforce_run_budget_in_transaction` */
  method EnforceRunBudget(s: State) returns (t: State, action: Option<OnExceed>)
    requires Listed(s)
    ensures t == EnforceBudget(s)
    ensures action == if BudgetExceeded(s) then Some(s.config.onExceed) else None
  {
    var total := TotalCost(s);
    if s.config.maxCost <= 0.0 || total <= s.config.maxCost {
      return s, None;
    }
    match s.config.onExceed {
      case WarnOnExceed =>
        t := s;
      case CancelOnExceed =>
        t := CancelNonTerminalWork(s);
        t := t.(status := CostExceeded, totalCost := total);
      case PauseOnExceed =>
        t := PausePendingWork(s);
        t := t.(status := Paused, totalCost := total);
    }
    action := Some(s.config.onExceed);
  }

  /** `_enforce_circuit_breaker_in_transaction` */
  method EnforceCircuitBreaker(s: State) returns (t: State, action: Option<BreakerAction>)
    requires Listed(s)
    ensures action == if BreakerTripped(s) then Some(s.config.circuitBreaker.value.action) else None
    ensures action == Some(PauseWork) ==> t == PauseWaiting(s)
    ensures action == Some(CancelAll) ==> t == CancelSet(s, NonTerminal(s.agents)).(status := Failed)
    ensures action == Some(NotifyOnly) || action == None ==> t == s
  {
    t := s;
    if s.config.circuitBreaker.None? {
      return s, None;
    }
    var breaker := s.config.circuitBreaker.value;
    if breaker.threshold <= 0 {
      return s, None;
    }
    var failures := |FailureSet(s.agents)|;
    if failures < breaker.threshold {
      return s, None;
    }
    action := Some(breaker.action);
    if breaker.action == PauseWork {
      t := PausePendingWork(s);
    } else if breaker.action == CancelAll {
      t := CancelNonTerminalWork(s);
      t := t.(status := Failed);
    }
  }

  /** The branches of `fail_agent` after a final failure was recorded. */
  method SettleFailure(s: State, n: Name, policy: OnFailure) returns (t: State, queued: seq<Name>)
    requires Listed(s) && n in s.agents && s.agents[n].status.Terminal()
    ensures t == HandleFailure(s, n, policy)
    ensures queued == if Cascades(s, policy) then ReadyNames(Cascade(s, n)) else []
    ensures t.order == s.order && t.agents.Keys == s.agents.Keys
  {
    queued := [];
    var action;
    t, action := EnforceCircuitBreaker(s);
    if action == Some(CancelAll) || action == Some(PauseWork) {
    } else if policy == Stop {
      t := StopRunAfterFailure(s, n);
    } else {
      t := FailDependencyBlocked(s, n);
      t, queued := MarkNewlyReady(t);
    }
  }

  method NextAttemptNumber(attempts: seq<Attempt>, n: Name) returns (number: nat)
    ensures number == MaxNumber(attempts, n) + 1
  {
    var highest: nat := 0;
    for i := 0 to |attempts|
      invariant highest == MaxNumber(attempts[..i], n)
    {
      assert attempts[..i + 1][..i] == attempts[..i];
      if attempts[i].agent == n && attempts[i].number > highest {
        highest := attempts[i].number;
      }
    }
    assert attempts[..|attempts|] == attempts;
    number := highest + 1;
  }

  /** One row in the loop of `expire_stale_leases`. */
  method ExpireOneRow(s: State, n: Name, row: Agent) returns (t: State, requeued: seq<Name>)
    requires Listed(s)
    ensures t == ExpireRow(s, n, row) && requeued == ExpireHint(s, n, row)
    ensures Listed(t)
  {
    if n !in s.agents {
      return s, [];
    }
    var agent := s.agents[n];
    var updated := if CanRetry(row)
                   then agent.(status := Queued, lease := None, retryAttempt := row.retryAttempt + 1)
                   else agent.(status := Failed, lease := None);
    var latest := LatestRunning(s.attempts, n);
    t := s.(agents := s.agents[n := updated]);
    if latest >= 0 {
      t := t.(attempts := s.attempts[latest := s.attempts[latest].(status := AttemptExpired)]);
    }
    requeued := [];
    if CanRetry(row) {
      requeued := [n];
    } else if row.onFailure == Stop {
      t := StopRunAfterFailure(t, n);
    } else {
      t := FailDependencyBlocked(t, n);
      t, requeued := MarkNewlyReady(t);
    }
  }

  /** The loop of `resume_run`. */
  method ResumeRows(s: State) returns (t: State, resumed: seq<Name>)
    requires Listed(s)
    ensures t == Resume(s) && Listed(t)
    ensures Distinct(resumed) && Members(resumed) == ResumableSet(s.agents)
    ensures resumed == [] <==> ResumableSet(s.agents) == {}
  {
    resumed := ListRows(s, ResumableSet(s.agents));
    var agents := ResumeAgents(s.agents, resumed);
    t := s.(agents := agents);
    if resumed != [] {
      assert resumed[0] in Members(resumed);
      t := t.(status := Queued);
    }
  }

  function ResumeSome(agents: Agents, names: set<Name>): Agents {
    map n | n in agents :: if n in names then ResumedRow(agents, agents[n]) else agents[n]
  }

  lemma ResumeNext(agents: Agents, names: set<Name>, n: Name)
    requires n in agents
    ensures ResumeSome(agents, names)[n := ResumedRow(agents, agents[n])] == ResumeSome(agents, names + {n})
  {
  }

  method ResumeAgents(agents: Agents, names: seq<Name>) returns (updated: Agents)
    requires Members(names) <= agents.Keys
    ensures updated == ResumeSome(agents, Members(names))
  {
    updated := agents;
    assert agents == ResumeSome(agents, Members(names[..0]));
    for i := 0 to |names|
      invariant updated == ResumeSome(agents, Members(names[..i]))
    {
      var name := names[i];
      assert name in Members(names);
      NextMember(names, i);
      ResumeNext(agents, Members(names[..i]), name);
      updated := updated[name := ResumedRow(agents, agents[name])];
    }
    assert names[..|names|] == names;
  }

  lemma NamesOfNext(agents: seq<AgentSpec>, i: nat)
    requires i < |agents|
    ensures NamesOf(agents[..i + 1]) == NamesOf(agents[..i]) + [agents[i].name]
    ensures InsertAll(agents[..i + 1]) == InsertAll(agents[..i])[agents[i].name := NewAgent(agents[i])]
  {
    assert agents[..i + 1][..i] == agents[..i];
  }

  lemma RepeatedName(agents: seq<AgentSpec>, i: nat)
    requires i < |agents| && agents[i].name in NamesOf(agents[..i])
    ensures !Distinct(NamesOf(agents))
  {
    var j :| 0 <= j < i && NamesOf(agents[..i])[j] == agents[i].name;
    assert NamesOf(agents)[j] == NamesOf(agents)[i];
    DistinctPositions(NamesOf(agents));
  }

  ghost predicate InsertedSoFar(agents: seq<AgentSpec>, i: nat, rows: Agents, order: seq<Name>)
    requires i <= |agents|
  {
    && rows == InsertAll(agents[..i]) && order == NamesOf(agents[..i])
    && Distinct(order) && Members(order) == rows.Keys
  }

  lemma InsertNext(agents: seq<AgentSpec>, i: nat, rows: Agents, order: seq<Name>)
    requires i < |agents| && InsertedSoFar(agents, i, rows, order) && agents[i].name !in rows
    ensures InsertedSoFar(agents, i + 1, rows[agents[i].name := NewAgent(agents[i])], order + [agents[i].name])
  {
    NamesOfNext(agents, i);
    assert agents[i].name !in Members(order);
    AppendNew(order, agents[i].name);
  }

  /** The loop of `create_run`; a repeated name violates the primary key. */
  method InsertAgents(agents: seq<AgentSpec>) returns (ok: bool, rows: Agents, order: seq<Name>)
    ensures ok <==> Distinct(NamesOf(agents))
    ensures ok ==> rows == InsertAll(agents) && order == NamesOf(agents) && Members(order) == rows.Keys
  {
    rows, order := map[], [];
    for i := 0 to |agents|
      invariant InsertedSoFar(agents, i, rows, order)
    {
      var name := agents[i].name;
      if name in rows {
        assert name in Members(order);
        RepeatedName(agents, i);
        return false, rows, order;
      }
      InsertNext(agents, i, rows, order);
      rows := rows[name := NewAgent(agents[i])];
      order := order + [name];
    }
    assert agents[..|agents|] == agents;
    ok := true;
  }

  // The set of agent statuses decides the next status of the run.
  lemma StatusSet(s: State, statuses: set<Status>)
    requires statuses == set n | n in s.agents :: s.agents[n].status
    ensures statuses == {} <==> s.agents == map[]
    ensures statuses <= {Completed} <==> forall n :: n in s.agents ==> s.agents[n].status == Completed
    ensures statuses <= {Completed, Failed, TimedOut, Cancelled, CostExceeded} <==> AllTerminal(s.agents)
    ensures forall status :: status in statuses <==> Any(s.agents, status)
  {
    forall n | n in s.agents ensures s.agents[n].status in statuses {
    }
    if statuses == {} {
      assert forall n :: n !in s.agents;
      assert s.agents == map[];
    }
  }

  /** What `refresh_run_status` derives from the set of agent statuses. */
  method NextStatus(s: State) returns (next: Status)
    ensures next == RolledUp(s)
  {
    var statuses := set n | n in s.agents :: s.agents[n].status;
    StatusSet(s, statuses);
    if statuses == {} {
      next := s.status;
    } else if statuses <= {Completed} {
      next := Completed;
    } else if statuses <= {Completed, Failed, TimedOut, Cancelled, CostExceeded} {
      next := if CostExceeded in statuses then CostExceeded
              else if Failed in statuses || TimedOut in statuses then Failed
              else Cancelled;
    } else if Running in statuses {
      next := Running;
    } else if Paused in statuses {
      next := Paused;
    } else {
      next := Queued;
    }
  }

  /** The rest of `complete_agent`, once the agent and its attempt are finished. */
  method CompleteRest(s: State) returns (t: State, ready: seq<Name>)
    requires Listed(s)
    ensures t == EnforceBudget(MarkReady(s)) && Listed(t)
    ensures ready == if BudgetExceeded(MarkReady(s)) && s.config.onExceed != WarnOnExceed then []
                     else Claimable(MarkReady(s))
  {
    var marked, _ := MarkNewlyReady(s);
    ready := ClaimableReady(marked);
    var action;
    t, action := EnforceRunBudget(marked);
    if action == Some(PauseOnExceed) || action == Some(CancelOnExceed) {
      ready := [];
    }
  }

  /** The transaction of `complete_agent`; the attempt named must be the one that runs the agent. */
  method CompleteOnce(s: State, n: Name, cost: real, id: Option<nat>)
    returns (t: State, updated: bool, ready: seq<Name>)
    requires Listed(s)
    ensures updated <==> MayFinish(s, n, id)
    ensures t == Complete(s, n, cost, id) && ready == CompleteReady(s, n, cost, id)
    ensures Listed(t)
  {
    if !MayFinish(s, n, id) {
      return s, false, [];
    }
    t := s.(agents := s.agents[n := s.agents[n].(status := Completed, cost := cost, lease := None)],
            attempts := FinishAttempt(s.attempts, id, AttemptCompleted),
            done := s.done + [n]);
    assert t == Finished(s, n, cost, id);
    t, ready := CompleteRest(t);
    updated := true;
  }

  /** The transaction of `fail_agent`. */
  method FailOnce(s: State, n: Name, id: Option<nat>, retryable: Option<bool>, requested: Status)
    returns (t: State, updated: bool, queued: seq<Name>)
    requires Listed(s)
    ensures updated <==> MayFinish(s, n, id)
    ensures t == Fail(s, n, id, retryable, requested) && queued == FailQueued(s, n, id, retryable, requested)
    ensures Listed(t)
  {
    updated := MayFinish(s, n, id);
    if !updated {
      return s, false, [];
    }
    var final := if requested == TimedOut || requested == CostExceeded then requested else Failed;
    var row := s.agents[n];
    var canRetry := final != CostExceeded && row.onFailure == Retry && retryable != Some(false)
                    && row.retryAttempt < row.retryCount;
    if canRetry {
      t, queued := Retried(s, n, id), [n];
    } else {
      t, queued := BreakForGood(s, n, id, final);
    }
  }

  method BreakForGood(s: State, n: Name, id: Option<nat>, final: Status) returns (t: State, queued: seq<Name>)
    requires Listed(s) && n in s.agents && final.Failure()
    ensures t == HandleFailure(Broken(s, n, id, final), n, s.agents[n].onFailure)
    ensures queued == if Cascades(Broken(s, n, id, final), s.agents[n].onFailure)
                      then ReadyNames(Cascade(Broken(s, n, id, final), n)) else []
    ensures Listed(t)
  {
    t, queued := SettleFailure(Broken(s, n, id, final), n, s.agents[n].onFailure);
  }

  /** The transaction of `cancel_agent`. */
  method CancelOnce(s: State, n: Name) returns (t: State, cancelled: bool)
    requires Listed(s)
    ensures t == CancelAgent(s, n) && Listed(t)
    ensures cancelled <==> n in s.agents && !s.agents[n].status.Terminal()
  {
    if n !in s.agents || s.agents[n].status.Terminal() {
      return s, false;
    }
    assert Members([n]) == {n};
    t := CancelAgents(s, [n]);
    cancelled := true;
  }

  /** The transaction of `claim_agent`. */
  method ClaimOnce(s: State, n: Name, worker: string, until: int) returns (t: State, updated: bool, number: nat)
    requires Listed(s)
    ensures updated <==> MayClaim(s, n)
    ensures t == Claim(s, n, worker, until) && Listed(t)
    ensures updated ==> number == MaxNumber(s.attempts, n) + 1
  {
    t, updated, number := s, false, 0;
    if n !in s.agents || s.agents[n].status != Queued {
      return;
    }
    var claimable := ClaimableReady(s);
    if n !in claimable {
      return;
    }
    number := NextAttemptNumber(s.attempts, n);
    var lease := Lease(worker, |s.attempts|, until);
    t := s.(agents := s.agents[n := s.agents[n].(status := Running, lease := Some(lease))],
            attempts := s.attempts + [Attempt(n, number, AttemptRunning, lease)],
            status := Running);
    updated := true;
  }

  /** The transaction of `cancel_run`. */
  method CancelRunOnce(s: State) returns (t: State, affected: nat)
    requires Listed(s)
    ensures t == CancelRun(s) && Listed(t)
    ensures affected == if s.status.Terminal() then 0 else |NonTerminal(s.agents)|
  {
    if s.status.Terminal() {
      return s, 0;
    }
    var names := ListRows(s, NonTerminal(s.agents));
    DistinctSize(names);
    t := CancelAgents(s, names);
    t := t.(status := Cancelled);
    affected := |names|;
  }

  /** The transaction of `spawn_worker_agent`. */
  method SpawnOnce(s: State, manager: Name, worker: AgentSpec) returns (t: State, created: bool)
    requires Listed(s)
    ensures t == Spawn(s, manager, worker) && Listed(t)
    ensures created <==> worker.name !in s.agents && manager in s.agents && !CapReached(s, manager)
  {
    t, created := s, false;
    if worker.name in s.agents || manager !in s.agents {
      return;
    }
    var cap := s.agents[manager].maxSubagents;
    if cap.Some? {
      var spawned := ListRows(s, set n | n in s.agents && Like(n, manager + ".%"));
      DistinctSize(spawned);
      if |spawned| >= cap.value {
        return;
      }
    }
    var spec := Spawned(worker);
    assert worker.name !in Members(s.order);
    AppendNew(s.order, worker.name);
    t := s.(spec := s.spec + [spec],
            agents := s.agents[worker.name := NewAgent(spec)],
            order := s.order + [worker.name]);
    created := true;
  }
}
