/**
 Operations that do not keep every invariant, with the exact condition under which
 they do.
 */
module Exceptions {
  import opened Graph
  import opened Plan
  import opened RunState
  import opened Transitions
  import opened Invariants
  import opened Outcomes
  import opened Blame
  import opened Steps
  import opened Runs

  // ---------------------------------------------------------------------------
  // A completion that names no attempt
  // ---------------------------------------------------------------------------

  lemma UnfencedFinishOwned(s: State, n: Name, cost: real)
    requires Owned(s) && n in s.agents && !s.agents[n].status.Terminal() && s.agents[n].status != Running
    ensures Owned(Finished(s, n, cost, None))
  {
    var t := Finished(s, n, cost, None);
    assert AgentOwned(s, n);
    forall m | m in t.agents ensures AgentOwned(t, m) {
      assert AgentOwned(s, m);
    }
    forall j: nat | j < |t.attempts| ensures AttemptOwned(t, j) {
      assert AttemptOwned(s, j);
    }
  }

  lemma OrphanStays(s: State, names: set<Name>, i: nat)
    requires i < |s.attempts| && s.attempts[i].agent !in names
    ensures CancelAttempts(s.attempts, names)[i] == s.attempts[i]
  {
  }

  // It keeps single ownership exactly when the agent is not running: a running
  // attempt would be left behind without an owner.
  lemma UnfencedCompleteOwnedIff(s: State, n: Name, cost: real)
    requires Owned(s)
    ensures Owned(Complete(s, n, cost, None)) <==> !(n in s.agents && s.agents[n].status == Running)
  {
    if MayFinish(s, n, None) {
      var f := Finished(s, n, cost, None);
      var u := MarkReady(f);
      var t := Complete(s, n, cost, None);
      if s.agents[n].status == Running {
        assert AgentOwned(s, n);
        var i := s.agents[n].lease.value.token;
        assert n !in NonTerminal(u.agents);
        OrphanStays(u, NonTerminal(u.agents), i);
        assert t.attempts[i] == s.attempts[i] && t.agents[n].lease == None;
        assert !AttemptOwned(t, i);
      } else {
        UnfencedFinishOwned(s, n, cost);
        MarkReadyKeeps(f);
        EnforceBudgetKeeps(u);
      }
    }
  }

  lemma HandleFailureLeavesAttempt(s: State, n: Name, policy: OnFailure, i: nat)
    requires i < |s.attempts| && s.attempts[i].agent == n && n in s.agents && s.agents[n].status.Terminal()
    ensures var t := HandleFailure(s, n, policy); i < |t.attempts| && t.attempts[i] == s.attempts[i]
    ensures n in HandleFailure(s, n, policy).agents
    ensures HandleFailure(s, n, policy).agents[n].status == s.agents[n].status
  {
    DoomedWaits(s.agents, {n});
  }

  lemma UnfencedOutcomeOwned(s: State, t: State, n: Name)
    requires Owned(s) && n in s.agents && s.agents[n].status != Running && !s.agents[n].status.Terminal()
    requires t.agents.Keys == s.agents.Keys && t.attempts == s.attempts
    requires t.agents[n].lease == None && t.agents[n].status != Running
    requires forall m :: m in s.agents && m != n ==> t.agents[m] == s.agents[m]
    ensures Owned(t)
  {
    assert AgentOwned(s, n);
    forall m | m in t.agents ensures AgentOwned(t, m) {
      assert AgentOwned(s, m);
    }
    forall j: nat | j < |t.attempts| ensures AttemptOwned(t, j) {
      assert AttemptOwned(s, j);
    }
  }

  // A failure that names no attempt: the same condition, retried or not.
  lemma UnfencedFailOwnedIff(s: State, n: Name, retryable: Option<bool>, requested: Status)
    requires Owned(s)
    ensures Owned(Fail(s, n, None, retryable, requested)) <==> !(n in s.agents && s.agents[n].status == Running)
  {
    if MayFinish(s, n, None) {
      var final, policy := FinalStatus(requested), s.agents[n].onFailure;
      var retried := WillRetry(s.agents[n], retryable, final);
      var u := if retried then Retried(s, n, None) else Broken(s, n, None, final);
      var t := if retried then u else HandleFailure(u, n, policy);
      assert t == Fail(s, n, None, retryable, requested);
      if s.agents[n].status == Running {
        assert AgentOwned(s, n);
        var i := s.agents[n].lease.value.token;
        if !retried {
          HandleFailureLeavesAttempt(u, n, policy, i);
        }
        assert t.attempts[i] == s.attempts[i] && t.agents[n].status != Running;
        assert !(AttemptOwned(t, i) && AgentOwned(t, n));
      } else {
        UnfencedOutcomeOwned(s, u, n);
        if !retried {
          HandleFailureKeeps(u, n, policy);
        }
      }
    }
  }

  // ---------------------------------------------------------------------------
  // Resumption
  // ---------------------------------------------------------------------------

  // Resuming puts no work behind a failure iff every failed dependency of a resumed
  // agent is resumed as well.
  lemma ResumeBlamesNobodyIff(s: State)
    requires NoneBlamed(s.agents)
    ensures NoneBlamed(Resume(s).agents) <==>
            forall n, d :: n in ResumableSet(s.agents) && d in s.agents[n].dependsOn && d in FailureSet(s.agents) ==>
                             d in ResumableSet(s.agents)
  {
    var t := Resume(s);
    var resumed := ResumableSet(s.agents);
    assert FailureSet(t.agents) == FailureSet(s.agents) - resumed;
    if forall n, d :: n in resumed && d in s.agents[n].dependsOn && d in FailureSet(s.agents) ==> d in resumed {
      forall n | n in t.agents ensures Unblamed(t.agents, n) {
        assert Unblamed(s.agents, n);
      }
    } else {
      var n, d :| n in resumed && d in s.agents[n].dependsOn && d in FailureSet(s.agents) && d !in resumed;
      assert t.agents[n].status.Waiting() && d in FailureSet(t.agents);
      assert !Unblamed(t.agents, n);
    }
  }

  // Resuming strands no pending work iff no resumed agent depends on a cancelled one:
  // a cancelled agent is not resumed.
  lemma ResumeStrandsNobodyIff(s: State)
    requires NoneStranded(s.agents)
    ensures NoneStranded(Resume(s).agents) <==>
            forall n :: n in ResumableSet(s.agents) ==> s.agents[n].dependsOn !! WithStatus(s.agents, Cancelled)
  {
    var t := Resume(s);
    var resumed, cancelled := ResumableSet(s.agents), WithStatus(s.agents, Cancelled);
    assert WithStatus(t.agents, Cancelled) == cancelled;
    if forall n :: n in resumed ==> s.agents[n].dependsOn !! cancelled {
      forall n | n in t.agents ensures Unstranded(t.agents, n) {
        assert Unstranded(s.agents, n);
      }
    } else {
      var n :| n in resumed && !(s.agents[n].dependsOn !! cancelled);
      var d :| d in s.agents[n].dependsOn && d in cancelled;
      assert !DepsDone(s.agents, s.agents[n].dependsOn);
      assert t.agents[n].status == Pending && !Unstranded(t.agents, n);
    }
  }

  // ---------------------------------------------------------------------------
  // Cancelling one agent
  // ---------------------------------------------------------------------------

  // Cancelling an agent strands no pending work iff nothing pending depends on it.
  lemma CancelAgentStrandsNobodyIff(s: State, n: Name)
    requires NoneStranded(s.agents)
    ensures NoneStranded(CancelAgent(s, n).agents) <==>
            n !in s.agents || s.agents[n].status.Terminal()
            || forall m :: m in s.agents && m != n && s.agents[m].status == Pending ==> n !in s.agents[m].dependsOn
  {
    if n in s.agents && !s.agents[n].status.Terminal() {
      var t := CancelAgent(s, n);
      assert WithStatus(t.agents, Cancelled) == WithStatus(s.agents, Cancelled) + {n};
      if m :| m in s.agents && m != n && s.agents[m].status == Pending && n in s.agents[m].dependsOn {
        assert n in t.agents[m].dependsOn * WithStatus(t.agents, Cancelled);
        assert !Unstranded(t.agents, m);
      } else {
        forall m | m in t.agents ensures Unstranded(t.agents, m) {
          assert Unstranded(s.agents, m);
        }
      }
    }
  }

  // Dependencies of a row never change.
  lemma StepKeepsDeps(s: State, step: Step, n: Name)
    requires Core(s) && Enabled(s, step) && n in s.agents
    ensures n in Apply(s, step).agents && Apply(s, step).agents[n].dependsOn == s.agents[n].dependsOn
    ensures s.agents[n].status == Cancelled ==> Apply(s, step).agents[n].status == Cancelled
  {
    match step
    case SpawnStep(manager, spawned) => SpawnKeepsRow(s, manager, spawned, n);
    case ResumeStep => ResumeKeepsRow(s, n);
    case _ =>
      StepKeepsCore(s, step);
      assert Advances(s.agents[n], Apply(s, step).agents[n]);
  }

  lemma SpawnKeepsRow(s: State, manager: Name, worker: AgentSpec, n: Name)
    requires n in s.agents
    ensures n in Spawn(s, manager, worker).agents && Spawn(s, manager, worker).agents[n] == s.agents[n]
  {
  }

  lemma ResumeKeepsRow(s: State, n: Name)
    requires n in s.agents
    ensures n in Resume(s).agents && Resume(s).agents[n].dependsOn == s.agents[n].dependsOn
    ensures s.agents[n].status == Cancelled ==> Resume(s).agents[n] == s.agents[n]
  {
  }

  lemma NextKeepsDeps(plan: PlanSpec, states: seq<State>, steps: seq<Step>, k: nat, n: Name)
    requires Execution(plan, states, steps) && k < |steps| && n in states[k].agents
    ensures var a, b := states[k].agents, states[k + 1].agents;
            && n in b && b[n].dependsOn == a[n].dependsOn
            && (a[n].status == Cancelled ==> b[n].status == Cancelled)
  {
    Reached(plan, states, steps, k);
    assert Taken(states, steps, k);
    StepKeepsDeps(states[k], steps[k], n);
  }

  lemma {:induction false} LaterKeepsDeps(plan: PlanSpec, states: seq<State>, steps: seq<Step>, j: nat, k: nat, n: Name)
    requires Execution(plan, states, steps) && j <= k < |states| && n in states[j].agents
    ensures var a, b := states[j].agents, states[k].agents;
            && n in b && b[n].dependsOn == a[n].dependsOn
            && (a[n].status == Cancelled ==> b[n].status == Cancelled)
    decreases k
  {
    if j == k {
    } else {
      LaterKeepsDeps(plan, states, steps, j, k - 1, n);
      NextKeepsDeps(plan, states, steps, k - 1, n);
    }
  }

  // An agent behind a cancelled one never gets anywhere again, resumption included.
  lemma BlockedForever(plan: PlanSpec, states: seq<State>, steps: seq<Step>, j: nat, k: nat, n: Name, d: Name)
    requires Execution(plan, states, steps) && j <= k < |states|
    requires n in states[j].agents && d in states[j].agents[n].dependsOn
    requires d in states[j].agents && states[j].agents[d].status == Cancelled
    ensures d in states[k].agents && states[k].agents[d].status == Cancelled
    ensures n in states[k].agents && !Released(states[k].agents[n].status)
  {
    LaterKeepsDeps(plan, states, steps, j, k, n);
    LaterKeepsDeps(plan, states, steps, j, k, d);
    Reached(plan, states, steps, k);
    assert DepsHeld(states[k].agents, n);
  }

  // ---------------------------------------------------------------------------
  // A stop policy inside an expiry pass
  // ---------------------------------------------------------------------------

  // Outside an expiry pass a stop leaves nothing alive.
  lemma StopEndsEverything(s: State, n: Name)
    requires n in s.agents && s.agents[n].status.Terminal()
    ensures AllTerminal(StopOthers(s, n).agents)
  {
  }

  ghost predicate Stops(row: Agent) {
    row.onFailure == Stop && !CanRetry(row)
  }

  // The names at positions from..m whose rows were granted a retry.
  ghost function Regranted(s: State, names: seq<Name>, from: nat, m: nat): set<Name>
    requires m <= |names| && forall i :: 0 <= i < |names| ==> names[i] in s.agents
  {
    set j | from <= j < m && CanRetry(s.agents[names[j]]) :: names[j]
  }

  lemma RegrantedEmptyIff(s: State, names: seq<Name>, from: nat, m: nat)
    requires m <= |names| && forall i :: 0 <= i < |names| ==> names[i] in s.agents
    ensures Regranted(s, names, from, m) == {} <==> forall j :: from <= j < m ==> !CanRetry(s.agents[names[j]])
  {
    if j :| from <= j < m && CanRetry(s.agents[names[j]]) {
      assert names[j] in Regranted(s, names, from, m);
    }
  }

  lemma RegrantedNext(s: State, names: seq<Name>, from: nat, m: nat)
    requires from <= m < |names| && forall i :: 0 <= i < |names| ==> names[i] in s.agents
    ensures Regranted(s, names, from, m + 1)
         == Regranted(s, names, from, m) + if CanRetry(s.agents[names[m]]) then {names[m]} else {}
  {
  }

  // What lives after `m` rows are handled: the regranted rows since `from`, all queued.
  ghost predicate OnlyRegranted(s: State, alive: set<Name>) {
    NonTerminal(s.agents) == alive && alive <= WithStatus(s.agents, Queued)
  }

  // A pass over running agents, each listed once.
  ghost predicate PassOver(s0: State, names: seq<Name>) {
    && Core(s0) && Distinct(names)
    && forall i :: 0 <= i < |names| ==> names[i] in s0.agents && s0.agents[names[i]].status == Running
  }

  // The state once `m` rows are handled.
  ghost function Handled(s0: State, names: seq<Name>, m: nat): State
    requires PassOver(s0, names) && m <= |names|
  {
    ExpireRows(s0, ReadRows(s0, names)[..m])
  }

  lemma PassNext(s0: State, names: seq<Name>, m: nat)
    requires PassOver(s0, names) && m < |names|
    ensures Handled(s0, names, m + 1) == ExpireRow(Handled(s0, names, m), names[m], s0.agents[names[m]])
  {
    var rows := ReadRows(s0, names);
    assert rows[..m + 1][..m] == rows[..m];
  }

  lemma StillDueAt(s0: State, names: seq<Name>, m: nat)
    requires PassOver(s0, names) && m < |names|
    ensures Core(Handled(s0, names, m)) && StillDue(s0, Handled(s0, names, m), names[m])
  {
    ExpireRowsContinue(s0, names, m);
    var s := Handled(s0, names, m);
    QuietKeepsCore(s0, s);
    RestOf(names, m);
    assert StillDue(s0, s, names[m]);
  }

  lemma StopsHere(s0: State, s: State, n: Name)
    requires StillDue(s0, s, n) && Stops(s0.agents[n])
    ensures OnlyRegranted(ExpireRow(s, n, s0.agents[n]), {})
  {
    StopEndsEverything(Lapsed(s, n, s0.agents[n]), n);
  }

  // Row `k` is the last that stops the run.
  ghost predicate StopsLast(s0: State, names: seq<Name>, k: nat)
    requires PassOver(s0, names)
  {
    k < |names| && Stops(s0.agents[names[k]]) && forall j :: k < j < |names| ==> !Stops(s0.agents[names[j]])
  }

  // After `m` rows, exactly the rows after the last stopping one that may retry live on.
  ghost predicate RegrantedAt(s0: State, names: seq<Name>, k: nat, m: nat)
    requires PassOver(s0, names)
  {
    k < m <= |names| && OnlyRegranted(Handled(s0, names, m), Regranted(s0, names, k + 1, m))
  }

  lemma AtLastStop(s0: State, names: seq<Name>, k: nat)
    requires PassOver(s0, names) && k < |names| && Stops(s0.agents[names[k]])
    ensures RegrantedAt(s0, names, k, k + 1)
  {
    PassNext(s0, names, k);
    StillDueAt(s0, names, k);
    StopsHere(s0, Handled(s0, names, k), names[k]);
  }

  lemma NextLateRow(s0: State, names: seq<Name>, m: nat, alive: set<Name>)
    requires PassOver(s0, names) && m < |names| && !Stops(s0.agents[names[m]])
    requires OnlyRegranted(Handled(s0, names, m), alive)
    ensures OnlyRegranted(Handled(s0, names, m + 1), alive + if CanRetry(s0.agents[names[m]]) then {names[m]} else {})
  {
    PassNext(s0, names, m);
    StillDueAt(s0, names, m);
    LateRow(s0, Handled(s0, names, m), names[m], alive);
  }

  lemma PastLastStop(s0: State, names: seq<Name>, k: nat, m: nat)
    requires PassOver(s0, names) && StopsLast(s0, names, k) && m < |names|
    requires RegrantedAt(s0, names, k, m)
    ensures RegrantedAt(s0, names, k, m + 1)
  {
    NextLateRow(s0, names, m, Regranted(s0, names, k + 1, m));
    RegrantedNext(s0, names, k + 1, m);
  }

  // Once the last stopping row is handled, exactly the later rows that may retry live on.
  lemma {:induction false} AfterLastStop(s0: State, names: seq<Name>, k: nat, m: nat)
    requires PassOver(s0, names) && StopsLast(s0, names, k) && k < m <= |names|
    ensures RegrantedAt(s0, names, k, m)
    decreases m
  {
    if m == k + 1 {
      AtLastStop(s0, names, k);
    } else {
      AfterLastStop(s0, names, k, m - 1);
      PastLastStop(s0, names, k, m - 1);
    }
  }

  // A row that fails for good after the stop hits nobody: whoever is queued has its
  // dependencies completed.
  lemma LateFailure(s: State, n: Name, row: Agent, alive: set<Name>)
    requires DepSafe(s.agents) && n in s.agents && s.agents[n].status != Completed && n !in alive
    requires OnlyRegranted(s, alive)
    requires !CanRetry(row) && row.onFailure != Stop
    ensures OnlyRegranted(ExpireRow(s, n, row), alive)
  {
    var t := Lapsed(s, n, row);
    assert NonTerminal(t.agents) == alive && WithStatus(t.agents, Queued) == WithStatus(s.agents, Queued);
    forall m | m in t.agents && t.agents[m].status.Waiting() ensures n !in t.agents[m].dependsOn {
      assert m in NonTerminal(s.agents) && m in alive && DepsHeld(s.agents, m);
    }
    assert forall m :: m in alive ==> m in WithStatus(t.agents, Queued);
    NobodyHit(t, n);
  }

  lemma NobodyHit(s: State, n: Name)
    requires forall m :: m in s.agents && s.agents[m].status.Waiting() ==> n !in s.agents[m].dependsOn
    requires NonTerminal(s.agents) <= WithStatus(s.agents, Queued)
    ensures MarkReady(Cascade(s, n)).agents == s.agents
  {
    assert Hit(s.agents, {n}) == {};
    assert Doomed(s.agents, {n}) == {};
    var u := Cascade(s, n);
    assert u.agents == s.agents;
    forall m | m in s.agents ensures s.agents[m].status != Pending {
      assert s.agents[m].status == Queued <==> m in WithStatus(s.agents, Queued);
      assert m in NonTerminal(s.agents) <==> !s.agents[m].status.Terminal();
    }
    assert ReadySet(u.agents) == {};
  }

  lemma LateRow(s0: State, s: State, n: Name, alive: set<Name>)
    requires Core(s) && StillDue(s0, s, n) && !Stops(s0.agents[n])
    requires OnlyRegranted(s, alive)
    ensures var row := s0.agents[n];
            OnlyRegranted(ExpireRow(s, n, row), alive + if CanRetry(row) then {n} else {})
  {
    var row := s0.agents[n];
    if !CanRetry(row) {
      assert n !in alive && s.agents[n].status != Completed;
      LateFailure(s, n, row, alive);
      assert alive + {} == alive;
    }
  }

  // A stop inside an expiry pass ends every agent iff no row after the last stopping
  // row may retry: the pass rewrites rows it read before the stop.
  lemma StopInExpiryPassIff(s: State, now: int, names: seq<Name>, k: nat)
    requires Core(s) && StaleListing(s, now, names) && k < |names|
    requires forall i :: 0 <= i < |names| ==> names[i] in s.agents
    requires Stops(s.agents[names[k]]) && forall j :: k < j < |names| ==> !Stops(s.agents[names[j]])
    ensures AllTerminal(ExpirePass(s, names).agents) <==>
            forall j :: k < j < |names| ==> !CanRetry(s.agents[names[j]])
  {
    ListedRows(s, now, names);
    AfterLastStop(s, names, k, |names|);
    assert ReadRows(s, names)[..|names|] == ReadRows(s, names);
    RegrantedEmptyIff(s, names, k + 1, |names|);
    EndedIff(ExpirePass(s, names).agents);
  }

  lemma EndedIff(agents: Agents)
    ensures AllTerminal(agents) <==> NonTerminal(agents) == {}
  {
    if !AllTerminal(agents) {
      var n :| n in agents && !agents[n].status.Terminal();
      assert n in NonTerminal(agents);
    }
  }

  ghost predicate PassEndsAll(s: State, names: seq<Name>) {
    (forall i :: 0 <= i < |names| ==> names[i] in s.agents) && AllTerminal(ExpirePass(s, names).agents)
  }

  lemma {:induction false} LastStop(s: State, names: seq<Name>) returns (k: nat)
    requires forall i :: 0 <= i < |names| ==> names[i] in s.agents
    requires exists i :: 0 <= i < |names| && Stops(s.agents[names[i]])
    ensures k < |names| && Stops(s.agents[names[k]])
    ensures forall j :: k < j < |names| ==> !Stops(s.agents[names[j]])
  {
    if Stops(s.agents[names[|names| - 1]]) {
      k := |names| - 1;
    } else {
      var init := names[..|names| - 1];
      var i :| 0 <= i < |names| && Stops(s.agents[names[i]]);
      assert Stops(s.agents[init[i]]);
      k := LastStop(s, init);
      forall j | k < j < |names| ensures !Stops(s.agents[names[j]]) {
        if j < |init| {
          assert !Stops(s.agents[init[j]]);
        }
      }
    }
  }

  lemma {:induction false} ListingOf(all: set<Name>) returns (names: seq<Name>)
    ensures Distinct(names) && Members(names) == all
  {
    if all == {} {
      names := [];
    } else {
      var n :| n in all;
      var rest := ListingOf(all - {n});
      assert n !in Members(rest);
      AppendNew(rest, n);
      names := rest + [n];
    }
  }

  lemma EveryListingEnds(s: State, now: int, n: Name, names: seq<Name>)
    requires Core(s) && n in Stale(s, now) && Stops(s.agents[n]) && StaleListing(s, now, names)
    requires forall m :: m in Stale(s, now) ==> !CanRetry(s.agents[m])
    ensures PassEndsAll(s, names)
  {
    ListedRows(s, now, names);
    assert n in Members(names);
    var i :| 0 <= i < |names| && names[i] == n;
    assert Stops(s.agents[names[i]]);
    var k := LastStop(s, names);
    StopInExpiryPassIff(s, now, names, k);
    forall j | k < j < |names| ensures !CanRetry(s.agents[names[j]]) {
      assert names[j] in Members(names);
    }
  }

  lemma SomeListingSpares(s: State, now: int, n: Name, m: Name) returns (names: seq<Name>)
    requires Core(s) && n in Stale(s, now) && Stops(s.agents[n]) && m in Stale(s, now) && CanRetry(s.agents[m])
    ensures StaleListing(s, now, names) && !PassEndsAll(s, names)
  {
    var rest := ListingOf(Stale(s, now) - {m});
    assert m !in Members(rest);
    AppendNew(rest, m);
    names := rest + [m];
    assert Members(names) == Stale(s, now);
    ListedRows(s, now, names);
    assert n in Members(rest);
    var i :| 0 <= i < |rest| && rest[i] == n;
    assert Stops(s.agents[names[i]]);
    var k := LastStop(s, names);
    assert names[|rest|] == m;
    StopInExpiryPassIff(s, now, names, k);
  }

  // Whatever order the database chooses: a stale agent that stops the run ends every
  // agent for certain iff no stale agent may retry.
  lemma StopInAnyOrderIff(s: State, now: int)
    requires Core(s) && exists n :: n in Stale(s, now) && Stops(s.agents[n])
    ensures (forall names :: StaleListing(s, now, names) ==> PassEndsAll(s, names)) <==>
            (forall m :: m in Stale(s, now) ==> !CanRetry(s.agents[m]))
  {
    var n :| n in Stale(s, now) && Stops(s.agents[n]);
    if m :| m in Stale(s, now) && CanRetry(s.agents[m]) {
      var names := SomeListingSpares(s, now, n, m);
    } else {
      forall names | StaleListing(s, now, names) ensures PassEndsAll(s, names) {
        EveryListingEnds(s, now, n, names);
      }
    }
  }

  // ---------------------------------------------------------------------------
  // A breaker that counts before the cascade
  // ---------------------------------------------------------------------------

  ghost predicate CancelsAll(s: State) {
    s.config.circuitBreaker.Some? && s.config.circuitBreaker.value.action == CancelAll
  }

  lemma CascadeCounts(s: State, n: Name)
    ensures NonTerminal(MarkReady(Cascade(s, n)).agents) == NonTerminal(s.agents) - Doomed(s.agents, {n})
    ensures FailureSet(MarkReady(Cascade(s, n)).agents) == FailureSet(s.agents) + Doomed(s.agents, {n})
    ensures |FailureSet(s.agents) + Doomed(s.agents, {n})| == |FailureSet(s.agents)| + |Doomed(s.agents, {n})|
  {
    var doomed := Doomed(s.agents, {n});
    DoomedWaits(s.agents, {n});
    ReleasedCounts(s.agents, doomed);
    MarkedCounts(Cascade(s, n));
    assert FailureSet(s.agents) !! doomed;
  }

  lemma ReleasedCounts(agents: Agents, names: set<Name>)
    requires names <= agents.Keys
    ensures NonTerminal(Release(agents, names, Failed)) == NonTerminal(agents) - names
    ensures FailureSet(Release(agents, names, Failed)) == FailureSet(agents) + names
  {
  }

  lemma MarkedCounts(s: State)
    ensures NonTerminal(MarkReady(s).agents) == NonTerminal(s.agents)
    ensures FailureSet(MarkReady(s).agents) == FailureSet(s.agents)
  {
  }

  // With a breaker that cancels everything, a final failure leaves nothing alive iff the
  // breaker, the policy or the cascade reaches everything.
  lemma FinalFailureEndsRunIff(s: State, n: Name, id: Option<nat>, retryable: Option<bool>, requested: Status)
    requires MayFinish(s, n, id) && CancelsAll(s) && !WillRetry(s.agents[n], retryable, FinalStatus(requested))
    ensures var b := Broken(s, n, id, FinalStatus(requested));
            AllTerminal(Fail(s, n, id, retryable, requested).agents) <==>
              BreakerTripped(b) || s.agents[n].onFailure == Stop || NonTerminal(b.agents) <= Doomed(b.agents, {n})
  {
    var b := Broken(s, n, id, FinalStatus(requested));
    var t := Fail(s, n, id, retryable, requested);
    assert t == HandleFailure(b, n, s.agents[n].onFailure);
    EndedIff(t.agents);
    if BreakerTripped(b) {
    } else if s.agents[n].onFailure == Stop {
      StopEndsEverything(b, n);
    } else {
      CascadeCounts(b, n);
      assert t.agents == MarkReady(Cascade(b, n)).agents;
    }
  }

  // Failures at the threshold with agents still alive: exactly when only the cascade of
  // this failure reaches the threshold, and spares somebody.
  lemma BreakerMissesIff(s: State, n: Name, id: Option<nat>, retryable: Option<bool>, requested: Status)
    requires MayFinish(s, n, id) && CancelsAll(s) && !WillRetry(s.agents[n], retryable, FinalStatus(requested))
    ensures var b := Broken(s, n, id, FinalStatus(requested));
            var t := Fail(s, n, id, retryable, requested);
            BreakerTripped(t) && !AllTerminal(t.agents) <==>
              && !BreakerTripped(b) && s.agents[n].onFailure != Stop
              && s.config.circuitBreaker.value.threshold > 0
              && |FailureSet(b.agents)| + |Doomed(b.agents, {n})| >= s.config.circuitBreaker.value.threshold
              && !(NonTerminal(b.agents) <= Doomed(b.agents, {n}))
  {
    var b := Broken(s, n, id, FinalStatus(requested));
    FinalFailureEndsRunIff(s, n, id, retryable, requested);
    if !BreakerTripped(b) && s.agents[n].onFailure != Stop {
      CascadeCounts(b, n);
    }
  }

  // ---------------------------------------------------------------------------
  // A lease that is kept alive
  // ---------------------------------------------------------------------------

  lemma OtherRowExpires(s: State, n: Name, row: Agent, m: Name)
    requires m != n && n in s.agents && m in s.agents
    requires s.agents[m].status == Running || s.agents[m].status == Cancelled
    ensures var t := ExpireRow(s, n, row);
            m in t.agents && if Stops(row) then t.agents[m].status == Cancelled else t.agents[m] == s.agents[m]
  {
    if !CanRetry(row) && row.onFailure != Stop {
      DoomedWaits(Lapsed(s, n, row).agents, {n});
    }
  }

  lemma ExpireRowKeys(s: State, n: Name, row: Agent)
    ensures ExpireRow(s, n, row).agents.Keys == s.agents.Keys
  {
  }

  ghost predicate StopAmong(s: State, names: seq<Name>)
    requires forall i :: 0 <= i < |names| ==> names[i] in s.agents
  {
    exists i :: 0 <= i < |names| && Stops(s.agents[names[i]])
  }

  ghost predicate LeftOrStopped(s: State, t: State, m: Name, stopped: bool) {
    && t.agents.Keys == s.agents.Keys && m in s.agents
    && if stopped then t.agents[m].status == Cancelled else t.agents[m] == s.agents[m]
  }

  lemma StopAmongNext(s: State, init: seq<Name>, n: Name)
    requires n in s.agents && forall i :: 0 <= i < |init| ==> init[i] in s.agents
    ensures forall i :: 0 <= i < |init + [n]| ==> (init + [n])[i] in s.agents
    ensures StopAmong(s, init + [n]) <==> StopAmong(s, init) || Stops(s.agents[n])
    ensures ExpirePass(s, init + [n]) == ExpireRow(ExpirePass(s, init), n, s.agents[n])
  {
    var names := init + [n];
    if StopAmong(s, init) {
      var i :| 0 <= i < |init| && Stops(s.agents[init[i]]);
      assert Stops(s.agents[names[i]]);
    } else if Stops(s.agents[n]) {
      assert Stops(s.agents[names[|init|]]);
    }
    assert ReadRows(s, names)[..|init|] == ReadRows(s, init);
  }

  lemma {:induction false} OthersExpire(s: State, names: seq<Name>, m: Name)
    requires forall i :: 0 <= i < |names| ==> names[i] in s.agents
    requires m !in names && m in s.agents && s.agents[m].status == Running
    ensures LeftOrStopped(s, ExpirePass(s, names), m, StopAmong(s, names))
  {
    if names == [] {
    } else {
      var init, n := names[..|names| - 1], names[|names| - 1];
      StopAmongNext(s, init, n);
      assert names == init + [n];
      OthersExpire(s, init, m);
      OtherRowExpires(ExpirePass(s, init), n, s.agents[n], m);
      ExpireRowKeys(ExpirePass(s, init), n, s.agents[n]);
    }
  }

  // An expiry pass leaves a worker with a valid lease alone iff no stale agent stops the run.
  lemma ValidLeaseSurvivesIff(s: State, now: int, names: seq<Name>, m: Name)
    requires Core(s) && StaleListing(s, now, names) && m in s.agents && s.agents[m].status == Running
    requires s.agents[m].lease.Some? && s.agents[m].lease.value.until >= now
    ensures forall i :: 0 <= i < |names| ==> names[i] in s.agents
    ensures m in ExpirePass(s, names).agents
    ensures ExpirePass(s, names).agents[m] == s.agents[m] <==>
            forall i :: 0 <= i < |names| ==> !Stops(s.agents[names[i]])
  {
    ListedRows(s, now, names);
    assert m !in Members(names);
    OthersExpire(s, names, m);
  }
}
