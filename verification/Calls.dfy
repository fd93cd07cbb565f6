/**
 Repository calls that consist of several transactions, when nobody interferes, and
 what every call keeps.
 */
module Calls {
  import opened Graph
  import opened Plan
  import opened RunState
  import opened Transitions
  import opened Transactions
  import opened Invariants
  import opened Outcomes
  import opened Blame
  import opened Steps
  import opened Runs
  import opened Store

  function CompleteCall(s: State, n: Name, cost: real, id: Option<nat>): State {
    if MayFinish(s, n, id) then Refresh(Complete(s, n, cost, id)) else s
  }

  function FailCall(s: State, n: Name, id: Option<nat>, retryable: Option<bool>, requested: Status): State {
    if MayFinish(s, n, id) then Refresh(Fail(s, n, id, retryable, requested)) else s
  }

  predicate MayCancel(s: State, n: Name) {
    n in s.agents && !s.agents[n].status.Terminal()
  }

  function CancelCall(s: State, n: Name): State {
    if MayCancel(s, n) then Refresh(CancelAgent(s, n)) else s
  }

  function ResumeCall(s: State): State {
    if ResumableSet(s.agents) == {} then s else Refresh(MarkReady(Resume(s)))
  }

  // ---------------------------------------------------------------------------
  // A call keeps the invariants
  // ---------------------------------------------------------------------------

  lemma KeepsGood(s: State, t: State)
    requires Good(s) && Keeps(s, t)
    ensures Good(t)
  {
    QuietKeepsCore(s, t);
    KeepsNoneOverdue(s, t);
    AdvanceSameGraph(s.agents, t.agents);
  }

  lemma RefreshKeepsGood(s: State)
    requires Good(s)
    ensures Good(Refresh(s))
  {
    RefreshKeeps(s);
    KeepsGood(s, Refresh(s));
  }

  // Callers that name their attempt cannot break an invariant.
  lemma CompleteCallKeepsGood(s: State, n: Name, cost: real, id: nat)
    requires Good(s)
    ensures Good(CompleteCall(s, n, cost, Some(id)))
  {
    CompleteKeepsGood(s, n, cost, id);
    RefreshKeepsGood(Complete(s, n, cost, Some(id)));
  }

  lemma CompleteKeepsGood(s: State, n: Name, cost: real, id: nat)
    requires Good(s)
    ensures Good(Complete(s, n, cost, Some(id)))
  {
    CompleteKeepsCore(s, n, cost, id);
    CompleteNoneOverdue(s, n, cost, id);
    AdvanceSameGraph(s.agents, Complete(s, n, cost, Some(id)).agents);
  }

  lemma FailCallKeepsGood(s: State, n: Name, id: nat, retryable: Option<bool>, requested: Status)
    requires Good(s)
    ensures Good(FailCall(s, n, Some(id), retryable, requested))
  {
    FailKeeps(s, n, id, retryable, requested);
    KeepsGood(s, Fail(s, n, Some(id), retryable, requested));
    RefreshKeepsGood(Fail(s, n, Some(id), retryable, requested));
  }

  lemma CancelCallKeepsGood(s: State, n: Name)
    requires Good(s)
    ensures Good(CancelCall(s, n))
  {
    CancelAgentKeeps(s, n);
    KeepsGood(s, CancelAgent(s, n));
    RefreshKeepsGood(CancelAgent(s, n));
  }

  lemma ResumeCallKeepsGood(s: State)
    requires Good(s)
    ensures Good(ResumeCall(s))
  {
    ResumeKeepsGood(s);
    MarkReadyKeepsGood(Resume(s));
    RefreshKeepsGood(MarkReady(Resume(s)));
  }

  lemma ResumeKeepsGood(s: State)
    requires Good(s)
    ensures Good(Resume(s))
  {
    ResumeKeepsCore(s);
    ResumeNoneOverdue(s);
    ResumeSameGraph(s);
  }

  lemma MarkReadyKeepsGood(s: State)
    requires Good(s)
    ensures Good(MarkReady(s))
  {
    MarkReadyKeeps(s);
    KeepsGood(s, MarkReady(s));
  }

  lemma PassKeepsGood(s: State, now: int, names: seq<Name>)
    requires Good(s) && StaleListing(s, now, names)
    ensures forall i :: 0 <= i < |names| ==> names[i] in s.agents
    ensures Good(ExpirePass(s, names))
  {
    ExpirePassKeeps(s, now, names);
    KeepsGood(s, ExpirePass(s, names));
  }

  lemma ClaimKeepsGood(s: State, n: Name, worker: string, until: int)
    requires Good(s)
    ensures Good(Claim(s, n, worker, until))
  {
    ClaimKeepsCore(s, n, worker, until);
    ClaimNoneOverdue(s, n, worker, until);
    AdvanceSameGraph(s.agents, Claim(s, n, worker, until).agents);
  }

  // Nothing is overdue, so there is nothing left to release.
  lemma NothingOverdue(s: State)
    requires NoneOverdue(s.agents)
    ensures MarkReady(s) == s && ReadyNames(s) == []
  {
    forall n | n in s.agents && s.agents[n].status == Pending ensures !DepsDone(s.agents, s.agents[n].dependsOn) {
      assert Waits(s.agents, n);
    }
    assert ReadySet(s.agents) == {};
    SelectNone(s.order);
  }

  // A late report changes nothing, whatever happened to the agent in the meantime.
  lemma LateReportIgnored(s: State, n: Name, cost: real, id: nat, retryable: Option<bool>, requested: Status)
    requires Good(s) && !(id < |s.attempts| && s.attempts[id].agent == n && s.attempts[id].status == AttemptRunning)
    ensures MarkReady(CompleteCall(s, n, cost, Some(id))) == s
    ensures FailCall(s, n, Some(id), retryable, requested) == s
    ensures CompleteReady(s, n, cost, Some(id)) == [] && FailQueued(s, n, Some(id), retryable, requested) == []
  {
    NothingOverdue(s);
  }

  lemma ExpiredGood(runs: RunTable, now: int, pairs: seq<Pair>, r: RunId)
    requires AllGood(runs) && StalePairs(runs, now, pairs) && Known(runs, pairs) && r in runs
    ensures Good(StoreExpire(runs, pairs)[r])
  {
    StaleOfRun(runs, now, pairs, r);
    PassSplitsByRun(runs, pairs, r);
    GoodRun(runs, r);
    PassKeepsGood(runs[r], now, OfRun(pairs, r));
  }

  // The expiry pass over all runs, with its roll-ups, keeps every run intact.
  lemma ExpiryKeepsGood(runs: RunTable, now: int, pairs: seq<Pair>)
    requires AllGood(runs) && StalePairs(runs, now, pairs) && Known(runs, pairs)
    ensures AllGood(StoreExpire(runs, pairs))
    ensures AllGood(RefreshAll(StoreExpire(runs, pairs), RunsOf(pairs)))
  {
    var t := StoreExpire(runs, pairs);
    forall r | r in runs ensures Good(t[r]) && Good(RefreshAll(t, RunsOf(pairs))[r]) {
      ExpiredGood(runs, now, pairs, r);
      RefreshKeepsGood(t[r]);
    }
  }

  lemma StaleAreRunning(runs: RunTable, now: int, pairs: seq<Pair>)
    requires StalePairs(runs, now, pairs)
    ensures Known(runs, pairs) && AllRunning(runs, pairs)
  {
    forall i | 0 <= i < |pairs|
      ensures pairs[i].0 in runs && pairs[i].1 in runs[pairs[i].0].agents
           && runs[pairs[i].0].agents[pairs[i].1].status == Running
    {
      assert (pairs[i].0, pairs[i].1) in pairs;
    }
  }

  lemma ExpireNext(runs: RunTable, read: seq<Pair>, i: nat)
    requires Known(runs, read) && i < |read|
    ensures Known(runs, read[..i]) && Known(runs, read[..i + 1])
    ensures var r, n := read[i].0, read[i].1; var before := StoreExpire(runs, read[..i]);
            && StoreExpire(runs, read[..i + 1]) == before[r := ExpireRow(before[r], n, runs[r].agents[n])]
            && StoreHints(runs, read[..i + 1])
               == StoreHints(runs, read[..i]) + OnRun(r, ExpireHint(before[r], n, runs[r].agents[n]))
  {
    assert read[..i + 1][..i] == read[..i];
  }

  ghost predicate AllListed(runs: RunTable) {
    forall r :: r in runs ==> Listed(runs[r])
  }

  /** The loop of `expire_stale_leases`. */
  method ExpireEach(runs: RunTable, read: seq<Pair>) returns (table: RunTable, requeued: seq<Pair>)
    requires AllListed(runs) && Known(runs, read)
    ensures table == StoreExpire(runs, read) && requeued == StoreHints(runs, read)
    ensures AllListed(table)
  {
    table, requeued := runs, [];
    for i := 0 to |read|
      invariant Known(runs, read[..i]) && AllListed(table)
      invariant table == StoreExpire(runs, read[..i]) && requeued == StoreHints(runs, read[..i])
    {
      var runId, name := read[i].0, read[i].1;
      ExpireNext(runs, read, i);
      var s, hints := ExpireOneRow(table[runId], name, runs[runId].agents[name]);
      table := table[runId := s];
      requeued := requeued + OnRun(runId, hints);
    }
    assert read[..|read|] == read;
  }

  // ---------------------------------------------------------------------------
  // A call that nobody interrupts is one step, or a step and the roll-up
  // ---------------------------------------------------------------------------

  lemma CompleteCallIsSteps(s: State, n: Name, cost: real, id: nat)
    ensures CompleteCall(s, n, cost, Some(id))
         == if MayFinish(s, n, Some(id)) then Apply(Apply(s, CompleteStep(n, cost, id)), RefreshStep) else s
  {
  }

  lemma FailCallIsSteps(s: State, n: Name, id: nat, retryable: Option<bool>, requested: Status)
    ensures FailCall(s, n, Some(id), retryable, requested)
         == if MayFinish(s, n, Some(id)) then Apply(Apply(s, FailStep(n, id, retryable, requested)), RefreshStep)
            else s
  {
  }

  lemma CancelCallIsSteps(s: State, n: Name)
    ensures CancelCall(s, n) == if MayCancel(s, n) then Apply(Apply(s, CancelAgentStep(n)), RefreshStep) else s
  {
  }

  lemma ResumeCallIsSteps(s: State)
    ensures ResumeCall(s) == s
            || ResumeCall(s) == Apply(Apply(Apply(s, ResumeStep), MarkReadyStep), RefreshStep)
  {
  }

  // ---------------------------------------------------------------------------
  // A resumed run moves
  // ---------------------------------------------------------------------------

  ghost predicate Quiescent(s: State) {
    && DeadSet(s.agents) == {} && WithStatus(s.agents, Running) == {}
    && exists n :: n in s.agents && !s.agents[n].status.Terminal()
  }

  lemma QuiescentClaimable(s: State)
    requires Good(s) && Quiescent(s) && WithStatus(s.agents, Paused) == {}
    ensures exists n :: MayClaim(s, n)
  {
    var n :| n in s.agents && !s.agents[n].status.Terminal();
    if WithStatus(s.agents, Queued) == {} {
      forall m | m in s.agents
        ensures s.agents[m].status != Queued && s.agents[m].status != Running && s.agents[m].status != Paused
      {
        assert m !in WithStatus(s.agents, Queued) && m !in WithStatus(s.agents, Running);
        assert m !in WithStatus(s.agents, Paused);
      }
      StuckBehindDead(s, n);
    }
    ClaimableWhenIdle(s);
  }

  // Rows that stay dead, running or live as they were, and none of which is paused.
  ghost predicate Unpaused(a: Agents, b: Agents) {
    && b.Keys == a.Keys
    && forall n :: n in a ==>
         && (b[n].status.Failure() || b[n].status == Cancelled ==> a[n].status.Failure() || a[n].status == Cancelled)
         && (b[n].status == Running ==> a[n].status == Running)
         && (b[n].status.Terminal() ==> a[n].status.Terminal())
         && b[n].status != Paused
  }

  lemma UnpausedQuiescent(s: State, t: State)
    requires Quiescent(s) && Unpaused(s.agents, t.agents)
    ensures Quiescent(t) && WithStatus(t.agents, Paused) == {}
  {
    var n :| n in s.agents && !s.agents[n].status.Terminal();
    assert n in t.agents && !t.agents[n].status.Terminal();
    forall m | m in t.agents ensures m !in DeadSet(t.agents) && m !in WithStatus(t.agents, Running) {
      assert m !in DeadSet(s.agents) && m !in WithStatus(s.agents, Running);
    }
  }

  lemma ResumeUnpauses(s: State)
    ensures Unpaused(s.agents, Resume(s).agents)
    ensures ResumableSet(s.agents) == {} ==> Unpaused(s.agents, s.agents)
  {
    forall n | n in s.agents && s.agents[n].status == Paused ensures n in ResumableSet(s.agents) {
    }
  }

  lemma ReleaseUnpauses(a: Agents, s: State)
    requires Unpaused(a, s.agents)
    ensures Unpaused(a, MarkReady(s).agents)
  {
  }

  lemma ResumeCallQuiescent(s: State)
    requires Quiescent(s)
    ensures Quiescent(ResumeCall(s)) && WithStatus(ResumeCall(s).agents, Paused) == {}
  {
    ResumeUnpauses(s);
    if ResumableSet(s.agents) != {} {
      ReleaseUnpauses(s.agents, Resume(s));
    }
    UnpausedQuiescent(s, ResumeCall(s));
  }

  // Whatever was paused: a live run without failed or cancelled agents in which nobody runs
  // has an agent that can be claimed once it is resumed.
  lemma ResumedRunMoves(plan: PlanSpec, states: seq<State>, steps: seq<Step>, k: nat)
    requires Execution(plan, states, steps) && k < |states| && Quiescent(states[k])
    ensures exists n :: MayClaim(ResumeCall(states[k]), n)
  {
    Reached(plan, states, steps, k);
    ResumeCallKeepsGood(states[k]);
    ResumeCallQuiescent(states[k]);
    QuiescentClaimable(ResumeCall(states[k]));
  }
}
