/**
 What each transaction does to the columns of the rows, told from the columns alone.
 */
module Laws {
  import opened Graph
  import opened Plan
  import opened RunState
  import opened Transitions
  import opened Invariants
  import opened Outcomes
  import opened Exceptions

  // ---------------------------------------------------------------------------
  // Vocabulary: each value by name
  // ---------------------------------------------------------------------------

  predicate Over(status: Status) {
    || status == Completed || status == Failed || status == TimedOut
    || status == Cancelled || status == CostExceeded
  }

  predicate Idle(status: Status) {
    status == Pending || status == Queued
  }

  predicate AllDone(agents: Agents, deps: set<Name>) {
    forall d :: d in deps ==> d in agents && agents[d].status == Completed
  }

  ghost predicate Somebody(agents: Agents, status: Status) {
    exists n :: n in agents && agents[n].status == status
  }

  ghost predicate Everybody(agents: Agents, status: Status) {
    forall n :: n in agents ==> agents[n].status == status
  }

  ghost predicate EverybodyOver(agents: Agents) {
    forall n :: n in agents ==> Over(agents[n].status)
  }

  // Only the columns of the agents, the attempts and the run row may differ.
  ghost predicate SamePlan(s: State, t: State) {
    t.spec == s.spec && t.order == s.order && t.config == s.config && t.agents.Keys == s.agents.Keys
  }

  // ---------------------------------------------------------------------------
  // Roll-up
  // ---------------------------------------------------------------------------

  // The status that a roll-up writes: each value exactly when its condition holds.
  lemma RollUpLaw(s: State)
    requires s.agents != map[] && s.status != Cancelled && s.status != CostExceeded
    ensures var status, agents := Refresh(s).status, s.agents;
            && (status == Completed <==> Everybody(agents, Completed))
            && (status == CostExceeded <==> EverybodyOver(agents) && Somebody(agents, CostExceeded))
            && (status == Failed <==>
                  EverybodyOver(agents) && !Somebody(agents, CostExceeded)
                  && (Somebody(agents, Failed) || Somebody(agents, TimedOut)))
            && (status == Cancelled <==>
                  EverybodyOver(agents) && !Everybody(agents, Completed) && !Somebody(agents, CostExceeded)
                  && !Somebody(agents, Failed) && !Somebody(agents, TimedOut))
            && (status == Running <==> Somebody(agents, Running))
            && (status == Paused <==>
                  !EverybodyOver(agents) && !Somebody(agents, Running) && Somebody(agents, Paused))
            && (status == Queued <==>
                  !EverybodyOver(agents) && !Somebody(agents, Running) && !Somebody(agents, Paused))
    ensures Refresh(s) == s.(status := Refresh(s).status, totalCost := SumCost(s.agents, s.order))
  {
    var n :| n in s.agents;
    if Everybody(s.agents, Completed) {
      assert s.agents[n].status == Completed;
    }
    SameEnds(s.agents);
    assert forall status :: Any(s.agents, status) <==> Somebody(s.agents, status);
  }

  lemma SameEnds(agents: Agents)
    ensures AllTerminal(agents) <==> EverybodyOver(agents)
  {
  }

  // A cancelled or cost-exceeded run, and the status of a run without agents, are left alone.
  lemma RollUpLeaves(s: State)
    ensures s.status == Cancelled || s.status == CostExceeded ==> Refresh(s) == s
    ensures s.agents == map[] ==> Refresh(s).status == s.status
  {
  }

  // ---------------------------------------------------------------------------
  // Renewal
  // ---------------------------------------------------------------------------

  ghost predicate Holds(s: State, n: Name, worker: string, token: nat) {
    n in s.agents && s.agents[n].status == Running && s.agents[n].lease.Some?
    && s.agents[n].lease.value.worker == worker && s.agents[n].lease.value.token == token
  }

  // A renewal writes the new expiry to the agent and to the attempt that runs it, and
  // nothing else; a caller that does not hold the lease changes nothing.
  lemma RenewLaw(s: State, n: Name, worker: string, token: nat, until: int)
    requires Owned(s)
    ensures !Holds(s, n, worker, token) ==> Renew(s, n, worker, token, until) == s
    ensures Holds(s, n, worker, token) ==>
              var t, lease := Renew(s, n, worker, token, until), Lease(worker, token, until);
              && token < |s.attempts|
              && t.agents == s.agents[n := s.agents[n].(lease := Some(lease))]
              && t.attempts == s.attempts[token := s.attempts[token].(lease := lease)]
              && t == s.(agents := t.agents, attempts := t.attempts)
  {
    if Holds(s, n, worker, token) {
      var t, lease := Renew(s, n, worker, token, until), Lease(worker, token, until);
      assert AgentOwned(s, n);
      forall i | 0 <= i < |s.attempts|
        ensures t.attempts[i] == if i == token then s.attempts[i].(lease := lease) else s.attempts[i]
      {
        assert AttemptOwned(s, i);
      }
      assert t.attempts == s.attempts[token := s.attempts[token].(lease := lease)];
    }
  }

  // A lease is stale once its expiry has passed, and not before.
  lemma StaleLaw(s: State, now: int, n: Name)
    ensures n in Stale(s, now) <==>
              n in s.agents && s.agents[n].status == Running
              && s.agents[n].lease.Some? && s.agents[n].lease.value.until < now
  {
  }

  // A worker that renewed is left alone by every expiry pass up to the new expiry, unless
  // a stale agent stops the run.
  lemma RenewedSurvivesIff(s: State, n: Name, worker: string, token: nat, until: int, now: int, names: seq<Name>)
    requires Core(s) && Holds(s, n, worker, token) && now <= until
    requires StaleListing(Renew(s, n, worker, token, until), now, names)
    ensures var t := Renew(s, n, worker, token, until);
            && n !in Stale(t, now)
            && (forall i :: 0 <= i < |names| ==> names[i] in t.agents)
            && n in ExpirePass(t, names).agents
            && (ExpirePass(t, names).agents[n] == s.agents[n].(lease := Some(Lease(worker, token, until))) <==>
                  forall i :: 0 <= i < |names| ==> !Stops(t.agents[names[i]]))
  {
    var t := Renew(s, n, worker, token, until);
    RenewLaw(s, n, worker, token, until);
    RenewKeeps(s, n, worker, token, until);
    QuietKeepsCore(s, t);
    ValidLeaseSurvivesIff(t, now, names, n);
  }

  // ---------------------------------------------------------------------------
  // Who may start
  // ---------------------------------------------------------------------------

  // The queued agents of the rows before `k`.
  ghost function Ahead(s: State, k: nat): set<Name>
    requires k <= |s.order|
  {
    set j | 0 <= j < k && s.order[j] in s.agents && s.agents[s.order[j]].status == Queued :: s.order[j]
  }

  ghost function RunningNow(s: State): set<Name> {
    set n | n in s.agents && s.agents[n].status == Running
  }

  lemma {:induction false} SelectedBefore(order: seq<Name>, keep: set<Name>, k: nat)
    requires k < |order| && order[k] in keep
    ensures |Select(order[..k], keep)| < |Select(order, keep)|
    ensures Select(order, keep)[|Select(order[..k], keep)|] == order[k]
  {
    var last := |order| - 1;
    if k == last {
    } else {
      var init := order[..last];
      assert init[..k] == order[..k];
      SelectedBefore(init, keep, k);
    }
  }

  lemma AheadCounts(s: State, k: nat)
    requires Listed(s) && k <= |s.order|
    ensures |Select(s.order[..k], WithStatus(s.agents, Queued))| == |Ahead(s, k)|
  {
    var names := Select(s.order[..k], WithStatus(s.agents, Queued));
    DistinctSlice(s.order, 0, k);
    assert s.order[0..k] == s.order[..k];
    SelectDistinct(s.order[..k], WithStatus(s.agents, Queued));
    SelectMembers(s.order[..k], WithStatus(s.agents, Queued));
    DistinctSize(names);
    forall n | n in names ensures n in Ahead(s, k) {
      var j :| 0 <= j < k && s.order[..k][j] == n;
      assert s.order[j] == n;
    }
    forall n | n in Ahead(s, k) ensures n in names {
      var j :| 0 <= j < k && s.order[j] == n;
      assert s.order[..k][j] == n;
    }
    assert Members(names) == Ahead(s, k);
  }

  // A row may be claimed exactly when it is queued and, if there is a limit, the queued
  // rows before it and the running agents leave room for one more.
  lemma MayClaimIff(s: State, k: nat)
    requires Listed(s) && k < |s.order|
    ensures s.order[k] in s.agents
    ensures MayClaim(s, s.order[k]) <==>
              s.agents[s.order[k]].status == Queued
              && (s.config.concurrencyLimit == None || s.config.concurrencyLimit.value <= 0
                  || |Ahead(s, k)| + |RunningNow(s)| < s.config.concurrencyLimit.value)
  {
    var n, queued := s.order[k], WithStatus(s.agents, Queued);
    assert n in Members(s.order);
    if s.agents[n].status == Queued {
      var names, j := Select(s.order, queued), |Select(s.order[..k], queued)|;
      SelectedBefore(s.order, queued, k);
      SelectDistinct(s.order, queued);
      DistinctPositions(names);
      AheadCounts(s, k);
      assert RunningNow(s) == WithStatus(s.agents, Running);
      InPrefix(names, j);
    }
  }

  lemma InPrefix(names: seq<Name>, j: nat)
    requires j < |names| && forall a, b :: 0 <= a < b < |names| ==> names[a] != names[b]
    ensures forall m :: 0 <= m <= |names| ==> (names[j] in names[..m] <==> j < m)
  {
    forall m | 0 <= m <= |names| ensures names[j] in names[..m] <==> j < m {
      if j < m {
        assert names[..m][j] == names[j];
      }
    }
  }

  ghost predicate InRowOrder(order: seq<Name>, names: seq<Name>) {
    forall i, j {:trigger Follows(order, names[i], names[j])} :: 0 <= i < j < |names| ==>
      Follows(order, names[i], names[j])
  }

  ghost predicate Follows(order: seq<Name>, m: Name, n: Name) {
    exists a, b :: 0 <= a < b < |order| && order[a] == m && order[b] == n
  }

  lemma FollowsLonger(order: seq<Name>, last: Name, m: Name, n: Name)
    requires Follows(order, m, n)
    ensures Follows(order + [last], m, n)
  {
    var a, b :| 0 <= a < b < |order| && order[a] == m && order[b] == n;
    var longer := order + [last];
    assert longer[a] == m && longer[b] == n;
  }

  lemma {:induction false} SelectInOrder(order: seq<Name>, keep: set<Name>)
    ensures InRowOrder(order, Select(order, keep))
  {
    if order == [] {
    } else {
      var init, last := order[..|order| - 1], order[|order| - 1];
      var before, names := Select(init, keep), Select(order, keep);
      SelectInOrder(init, keep);
      SelectMembers(init, keep);
      assert order == init + [last];
      forall i, j | 0 <= i < j < |names| ensures Follows(order, names[i], names[j]) {
        if j < |before| {
          assert Follows(init, before[i], before[j]);
          FollowsLonger(init, last, names[i], names[j]);
        } else {
          assert before[i] in before;
          var a :| 0 <= a < |init| && init[a] == before[i];
          assert order[a] == names[i] && order[|init|] == names[j];
        }
      }
    }
  }

  // The answer of `ready_agents`: everybody who may be claimed, in row order.
  lemma ReadyAnswer(s: State)
    requires Listed(s)
    ensures forall n :: n in Claimable(s) <==> MayClaim(s, n)
    ensures InRowOrder(s.order, Claimable(s))
  {
    var queued := WithStatus(s.agents, Queued);
    SelectMembers(s.order, queued);
    SelectInOrder(s.order, queued);
    var names, all := Claimable(s), Select(s.order, queued);
    assert names == all[..|names|];
    forall i, j | 0 <= i < j < |names| ensures Follows(s.order, names[i], names[j]) {
      assert Follows(s.order, all[i], all[j]);
    }
    forall n | n in names ensures MayClaim(s, n) {
      assert n in all;
    }
  }

  // ---------------------------------------------------------------------------
  // Resumption
  // ---------------------------------------------------------------------------

  // The failure is over, but the policy leaves a retry.
  predicate MayRetry(a: Agent) {
    (a.status == Failed || a.status == TimedOut) && a.onFailure == Retry && a.retryAttempt < a.retryCount
  }

  // Every paused agent comes back for free and every failure with a retry left for one
  // retry; nobody else changes.
  lemma ResumeLaw(s: State)
    ensures var t := Resume(s);
            && SamePlan(s, t) && t.attempts == s.attempts && t.done == s.done && t.totalCost == s.totalCost
            && (forall n :: n in s.agents ==>
                  var a, b := s.agents[n], t.agents[n];
                  if a.status == Paused || MayRetry(a) then
                    b == a.(status := if AllDone(s.agents, a.dependsOn) then Queued else Pending,
                            lease := None,
                            retryAttempt := if a.status == Paused then a.retryAttempt else a.retryAttempt + 1)
                  else b == a)
            && !Somebody(t.agents, Paused)
            && t.status == if exists n :: n in s.agents && (s.agents[n].status == Paused || MayRetry(s.agents[n]))
                           then Queued else s.status
  {
    var t := Resume(s);
    forall n | n in s.agents
      ensures n in ResumableSet(s.agents) <==> s.agents[n].status == Paused || MayRetry(s.agents[n])
      ensures AllDone(s.agents, s.agents[n].dependsOn) <==> DepsDone(s.agents, s.agents[n].dependsOn)
    {
    }
    if n :| n in s.agents && (s.agents[n].status == Paused || MayRetry(s.agents[n])) {
      assert n in ResumableSet(s.agents);
    } else {
      assert ResumableSet(s.agents) == {};
    }
  }

  // The answer of `resume_run`.
  lemma ResumeAnswer(agents: Agents, n: Name)
    ensures n in ResumableSet(agents) <==> n in agents && (agents[n].status == Paused || MayRetry(agents[n]))
  {
  }
}
