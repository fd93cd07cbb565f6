/**
 Short executions in which the exceptional cases occur.
 */
module Witnesses {
  import opened Graph
  import opened Plan
  import opened RunState
  import opened Transitions
  import opened Invariants
  import opened Outcomes
  import opened Blame
  import opened Steps
  import opened Validation
  import opened Runs
  import opened Exceptions
  import opened ExpiryBreaker
  import opened Spawning

  // The steps lead from the creation of the plan to the state.
  ghost predicate Arrives(plan: PlanSpec, steps: seq<Step>, s: State) {
    exists states :: Execution(plan, states, steps) && states[|steps|] == s
  }

  lemma Starts(plan: PlanSpec, s: State)
    requires ValidPlan(plan.agents) && CreateRun(plan) == Some(s)
    ensures Arrives(plan, [], s)
  {
    assert Execution(plan, [s], []);
  }

  lemma GoesOn(plan: PlanSpec, steps: seq<Step>, s: State, step: Step)
    requires Arrives(plan, steps, s) && Enabled(s, step)
    ensures Arrives(plan, steps + [step], Apply(s, step))
  {
    var states :| Execution(plan, states, steps) && states[|steps|] == s;
    var longer, more := states + [Apply(s, step)], steps + [step];
    forall i: nat | i < |more| ensures Taken(longer, more, i) {
      if i < |steps| {
        assert Taken(states, steps, i);
      }
    }
    assert Execution(plan, longer, more);
  }

  // ---------------------------------------------------------------------------
  // Plans in which only the last agent has dependencies
  // ---------------------------------------------------------------------------

  ghost predicate Star(agents: seq<AgentSpec>) {
    && agents != [] && Distinct(NamesOf(agents))
    && (forall i :: 0 <= i < |agents| - 1 ==> agents[i].dependsOn == [])
    && Members(agents[|agents| - 1].dependsOn) <= Members(NamesOf(agents[..|agents| - 1]))
  }

  lemma StarDependency(agents: seq<AgentSpec>, n: Name, d: Name)
    requires Star(agents) && n in DepsOf(agents) && d in DepsOf(agents)[n]
    ensures n == agents[|agents| - 1].name && d != n && d in NamesOf(agents)
  {
    DepsOfKeys(agents);
    NamesOfLast(agents);
    var i :| 0 <= i < |agents| && agents[i].name == n;
    DepsOfEntry(agents, i);
    assert d in Members(agents[i].dependsOn);
    assert i == |agents| - 1;
  }

  lemma StarValid(agents: seq<AgentSpec>)
    requires Star(agents)
    ensures ValidPlan(agents)
  {
    NamesOfLast(agents);
    forall i, d | 0 <= i < |agents| && d in agents[i].dependsOn ensures d in NamesOf(agents) {
      assert i == |agents| - 1;
      assert d in Members(agents[i].dependsOn);
    }
    var last := agents[|agents| - 1].name;
    var rank := (n: Name) => if n == last then 1 else 0;
    forall n, d | n in DepsOf(agents) && d in DepsOf(agents)[n] ensures rank(d) < rank(n) {
      StarDependency(agents, n, d);
    }
    RanksExcludeCycles(DepsOf(agents), rank);
  }

  lemma DistinctTwo(a: Name, b: Name)
    requires a != b
    ensures Distinct([a, b]) && Members([a, b]) == {a, b} && Members([a]) == {a} && Members([]) == {}
  {
    DistinctPositions([a, b]);
  }

  lemma DistinctThree(a: Name, b: Name, c: Name)
    requires a != b && a != c && b != c
    ensures Distinct([a, b, c]) && Members([a, b, c]) == {a, b, c} && Members([a, b]) == {a, b} && Members([]) == {}
  {
    DistinctPositions([a, b, c]);
  }

  lemma FreeClaim(s: State, n: Name)
    requires Listed(s) && EffectiveLimit(s.config) == None && n in s.agents && s.agents[n].status == Queued
    ensures MayClaim(s, n)
  {
    SelectAll(s, WithStatus(s.agents, Queued));
    assert n in Members(Select(s.order, WithStatus(s.agents, Queued)));
  }

  // A queued agent of a run without limit is claimed.
  lemma Claims(plan: PlanSpec, steps: seq<Step>, s: State, n: Name, worker: string, until: int) returns (t: State)
    requires Arrives(plan, steps, s) && Listed(s) && EffectiveLimit(s.config) == None
    requires n in s.agents && s.agents[n].status == Queued
    ensures Arrives(plan, steps + [ClaimStep(n, worker, until)], t) && Listed(t)
    ensures t.config == s.config && t.status == Running
    ensures var lease := Lease(worker, |s.attempts|, until);
            && t.agents == s.agents[n := s.agents[n].(status := Running, lease := Some(lease))]
            && t.attempts == s.attempts + [Attempt(n, MaxNumber(s.attempts, n) + 1, AttemptRunning, lease)]
  {
    FreeClaim(s, n);
    GoesOn(plan, steps, s, ClaimStep(n, worker, until));
    t := Claim(s, n, worker, until);
  }

  // ---------------------------------------------------------------------------
  // Two agents without dependencies
  // ---------------------------------------------------------------------------

  function Pair(stopper: Name, retrier: Name): PlanSpec {
    PlanSpec([AgentSpec(stopper, [], Stop, 0, None), AgentSpec(retrier, [], Retry, 1, None)], None, None, None)
  }

  lemma PairStarts(p: Name, q: Name) returns (s: State)
    requires p != q
    ensures Arrives(Pair(p, q), [], s) && Listed(s) && s.config == ConfigOf(Pair(p, q)) && s.attempts == []
    ensures s.agents.Keys == {p, q}
    ensures s.agents[p] == Agent(Queued, {}, Stop, 0, 0, 0.0, None, None)
    ensures s.agents[q] == Agent(Queued, {}, Retry, 1, 0, 0.0, None, None)
  {
    var agents := Pair(p, q).agents;
    assert NamesOf(agents) == [p, q];
    DistinctTwo(p, q);
    StarValid(agents);
    CreatedCore(Pair(p, q));
    s := CreateRun(Pair(p, q)).value;
    Starts(Pair(p, q), s);
    Inserted(agents);
    assert agents[0].name in s.agents && agents[1].name in s.agents;
  }

  lemma PairClaims(p: Name, q: Name) returns (s: State)
    requires p != q
    ensures Arrives(Pair(p, q), [ClaimStep(p, "w", 0), ClaimStep(q, "w", 0)], s) && Core(s)
    ensures s.agents.Keys == {p, q}
    ensures s.agents[p] == Agent(Running, {}, Stop, 0, 0, 0.0, Some(Lease("w", 0, 0)), None)
    ensures s.agents[q] == Agent(Running, {}, Retry, 1, 0, 0.0, Some(Lease("w", 1, 0)), None)
  {
    var s0 := PairStarts(p, q);
    var plan := Pair(p, q);
    var s1 := Claims(plan, [], s0, p, "w", 0);
    assert [] + [ClaimStep(p, "w", 0)] == [ClaimStep(p, "w", 0)];
    s := Claims(plan, [ClaimStep(p, "w", 0)], s1, q, "w", 0);
    assert [ClaimStep(p, "w", 0)] + [ClaimStep(q, "w", 0)] == [ClaimStep(p, "w", 0), ClaimStep(q, "w", 0)];
    ArrivedCore(plan, [ClaimStep(p, "w", 0), ClaimStep(q, "w", 0)], s);
  }

  lemma ArrivedCore(plan: PlanSpec, steps: seq<Step>, s: State)
    requires Arrives(plan, steps, s)
    ensures Core(s)
  {
    var states :| Execution(plan, states, steps) && states[|steps|] == s;
    Reached(plan, states, steps, |steps|);
  }

  lemma PassOfTwo(s: State, p: Name, q: Name)
    requires p in s.agents && q in s.agents
    ensures ExpirePass(s, [p, q]) == ExpireRow(ExpireRow(s, p, s.agents[p]), q, s.agents[q])
  {
    StopAmongNext(s, [], p);
    StopAmongNext(s, [p], q);
    assert [] + [p] == [p] && [p] + [q] == [p, q];
    assert ReadRows(s, []) == [];
  }

  lemma StopsThenRetries(s: State, p: Name, q: Name)
    requires p != q && s.agents.Keys == {p, q} && s.agents[p].status == Running && s.agents[q].status == Running
    requires Stops(s.agents[p]) && CanRetry(s.agents[q])
    ensures var t := ExpirePass(s, [p, q]);
            && t.agents.Keys == {p, q} && t.status == Failed
            && t.agents[p].status == Failed && t.agents[q].status == Queued
  {
    PassOfTwo(s, p, q);
    var u := ExpireRow(s, p, s.agents[p]);
    assert u.agents[p].status == Failed && u.status == Failed && u.agents.Keys == {p, q};
  }

  lemma RetriesThenStops(s: State, p: Name, q: Name)
    requires p != q && s.agents.Keys == {p, q} && s.agents[p].status == Running && s.agents[q].status == Running
    requires Stops(s.agents[p]) && CanRetry(s.agents[q])
    ensures var t := ExpirePass(s, [q, p]);
            && t.agents.Keys == {p, q} && t.status == Failed
            && t.agents[p].status == Failed && t.agents[q].status == Cancelled
  {
    PassOfTwo(s, q, p);
    var u := ExpireRow(s, q, s.agents[q]);
    assert u.agents[q].status == Queued && u.agents[p] == s.agents[p] && u.agents.Keys == {p, q};
  }

  lemma PairLapses(p: Name, q: Name, names: seq<Name>) returns (before: State, steps: seq<Step>, s: State)
    requires p != q && (names == [p, q] || names == [q, p])
    ensures before.agents.Keys == {p, q}
    ensures before.agents[p].status == Running && before.agents[q].status == Running
    ensures Stops(before.agents[p]) && CanRetry(before.agents[q])
    ensures Arrives(Pair(p, q), steps, s) && s == ExpirePass(before, names)
    ensures |steps| == 3 && steps[2] == ExpireStep(1, names)
  {
    before := PairClaims(p, q);
    steps := [ClaimStep(p, "w", 0), ClaimStep(q, "w", 0)];
    DistinctTwo(p, q);
    DistinctTwo(q, p);
    assert Stale(before, 1) == {p, q};
    GoesOn(Pair(p, q), steps, before, ExpireStep(1, names));
    s := ExpirePass(before, names);
    steps := steps + [ExpireStep(1, names)];
  }

  // Both leases lapse and the row of the stopping agent comes first: the run is stopped,
  // and then the other agent is queued again.
  lemma QueuedAfterStop(p: Name, q: Name) returns (steps: seq<Step>, s: State)
    requires p != q
    ensures Arrives(Pair(p, q), steps, s)
    ensures s.agents.Keys == {p, q} && s.agents[p].status == Failed && s.agents[q].status == Queued
    ensures s.status == Failed && |steps| == 3 && steps[2] == ExpireStep(1, [p, q])
  {
    var before;
    before, steps, s := PairLapses(p, q, [p, q]);
    StopsThenRetries(before, p, q);
  }

  // In the other order the stop has the last word.
  lemma CancelledByStop(p: Name, q: Name) returns (steps: seq<Step>, s: State)
    requires p != q
    ensures Arrives(Pair(p, q), steps, s)
    ensures s.agents.Keys == {p, q} && s.agents[p].status == Failed && s.agents[q].status == Cancelled
    ensures s.status == Failed && |steps| == 3 && steps[2] == ExpireStep(1, [q, p])
  {
    var before;
    before, steps, s := PairLapses(p, q, [q, p]);
    RetriesThenStops(before, p, q);
  }

  // A completion that names no attempt leaves the running attempt without owner.
  lemma OrphanedAttempt(p: Name, q: Name) returns (steps: seq<Step>, s: State)
    requires p != q
    ensures Arrives(Pair(p, q), steps, s) && !Owned(Complete(s, p, 0.0, None)) && !Owned(Fail(s, q, None, None, Failed))
  {
    s := PairClaims(p, q);
    steps := [ClaimStep(p, "w", 0), ClaimStep(q, "w", 0)];
    UnfencedCompleteOwnedIff(s, p, 0.0);
    UnfencedFailOwnedIff(s, q, None, Failed);
  }

  lemma ClaimsOne(p: Name, q: Name) returns (s: State)
    requires p != q
    ensures Arrives(Pair(p, q), [ClaimStep(q, "w", 0)], s) && Listed(s) && s.config == ConfigOf(Pair(p, q))
    ensures q in s.agents && CanRetry(s.agents[q]) && Stale(s, 1) == {q}
    ensures |s.attempts| == 1 && s.attempts[0].agent == q && s.attempts[0].status == AttemptRunning
  {
    var t := PairStarts(p, q);
    s := Claims(Pair(p, q), [], t, q, "w", 0);
    assert [] + [ClaimStep(q, "w", 0)] == [ClaimStep(q, "w", 0)];
  }

  lemma LapsesOne(p: Name, q: Name) returns (s: State)
    requires p != q
    ensures Arrives(Pair(p, q), [ClaimStep(q, "w", 0), ExpireStep(1, [q])], s)
    ensures Listed(s) && s.config == ConfigOf(Pair(p, q)) && q in s.agents && s.agents[q].status == Queued
    ensures |s.attempts| == 1 && s.attempts[0].agent == q && s.attempts[0].status == AttemptExpired
  {
    var t := ClaimsOne(p, q);
    DistinctPositions([q]);
    assert Members([q]) == {q};
    GoesOn(Pair(p, q), [ClaimStep(q, "w", 0)], t, ExpireStep(1, [q]));
    assert [ClaimStep(q, "w", 0)] + [ExpireStep(1, [q])] == [ClaimStep(q, "w", 0), ExpireStep(1, [q])];
    s := ExpirePass(t, [q]);
    OneLapses(t, q);
  }

  lemma LapseAndReclaim(p: Name, q: Name) returns (steps: seq<Step>, s: State)
    requires p != q
    ensures |steps| == 3 && steps[0] == ClaimStep(q, "w", 0) && steps[2] == ClaimStep(q, "v", 9)
    ensures Arrives(Pair(p, q), steps, s) && q in s.agents && s.agents[q].status == Running
    ensures |s.attempts| == 2 && s.attempts[0].agent == q && s.attempts[0].status == AttemptExpired
    ensures s.attempts[1].agent == q && s.attempts[1].status == AttemptRunning && s.attempts[1].lease.worker == "v"
  {
    var t := LapsesOne(p, q);
    steps := [ClaimStep(q, "w", 0), ExpireStep(1, [q])];
    s := Claims(Pair(p, q), steps, t, q, "v", 9);
    steps := steps + [ClaimStep(q, "v", 9)];
  }

  lemma OneLapses(s: State, q: Name)
    requires Listed(s) && q in s.agents && CanRetry(s.agents[q])
    requires |s.attempts| == 1 && s.attempts[0].agent == q && s.attempts[0].status == AttemptRunning
    ensures var t := ExpirePass(s, [q]);
            && Listed(t) && t.config == s.config && q in t.agents && t.agents[q].status == Queued
            && |t.attempts| == 1 && t.attempts[0].agent == q && t.attempts[0].status == AttemptExpired
  {
    StopAmongNext(s, [], q);
    assert [] + [q] == [q] && ReadRows(s, []) == [];
    assert ExpirePass(s, [q]) == Lapsed(s, q, s.agents[q]);
  }

  // The worker that lost its lease gives up and ends the attempt of its successor.
  lemma SuccessorCancelled(p: Name, q: Name) returns (steps: seq<Step>, s: State)
    requires p != q
    ensures Arrives(Pair(p, q), steps, s) && |steps| == 4 && steps[3] == CancelAgentStep(q)
    ensures |s.attempts| == 2 && s.attempts[0].status == AttemptExpired
    ensures s.attempts[1].lease.worker == "v" && s.attempts[1].status == AttemptCancelled
  {
    var t;
    steps, t := LapseAndReclaim(p, q);
    GoesOn(Pair(p, q), steps, t, CancelAgentStep(q));
    steps, s := steps + [CancelAgentStep(q)], CancelAgent(t, q);
  }

  // ---------------------------------------------------------------------------
  // Three agents: `f` may retry and depends on `r` and `d`
  // ---------------------------------------------------------------------------

  function Trio(r: Name, d: Name, f: Name, breaker: Option<CircuitBreaker>): PlanSpec {
    PlanSpec([AgentSpec(r, [], Continue, 0, None), AgentSpec(d, [], Continue, 0, None),
              AgentSpec(f, [r, d], Retry, 1, None)], None, None, breaker)
  }

  lemma TrioStarts(r: Name, d: Name, f: Name, breaker: Option<CircuitBreaker>) returns (s: State)
    requires r != d && r != f && d != f
    ensures Arrives(Trio(r, d, f, breaker), [], s) && Listed(s)
    ensures s.config == ConfigOf(Trio(r, d, f, breaker)) && s.attempts == []
    ensures s.agents.Keys == {r, d, f}
    ensures s.agents[r] == Agent(Queued, {}, Continue, 0, 0, 0.0, None, None)
    ensures s.agents[d] == Agent(Queued, {}, Continue, 0, 0, 0.0, None, None)
    ensures s.agents[f] == Agent(Pending, {r, d}, Retry, 1, 0, 0.0, None, None)
  {
    var plan := Trio(r, d, f, breaker);
    var agents := plan.agents;
    assert NamesOf(agents) == [r, d, f] && NamesOf(agents[..2]) == [r, d];
    DistinctThree(r, d, f);
    StarValid(agents);
    CreatedCore(plan);
    s := CreateRun(plan).value;
    Starts(plan, s);
    Inserted(agents);
    assert agents[0].name in s.agents && agents[1].name in s.agents && agents[2].name in s.agents;
  }

  function TrioSteps(r: Name): seq<Step> {
    [ClaimStep(r, "w", 0), FailStep(r, 0, None, Failed)]
  }

  lemma TrioClaims(r: Name, d: Name, f: Name, breaker: Option<CircuitBreaker>) returns (s: State)
    requires r != d && r != f && d != f
    ensures Arrives(Trio(r, d, f, breaker), [ClaimStep(r, "w", 0)], s)
    ensures s.config == ConfigOf(Trio(r, d, f, breaker)) && s.status == Running
    ensures |s.attempts| == 1 && s.attempts[0].agent == r && s.attempts[0].status == AttemptRunning
    ensures s.attempts[0].lease == Lease("w", 0, 0)
    ensures s.agents.Keys == {r, d, f}
    ensures s.agents[r] == Agent(Running, {}, Continue, 0, 0, 0.0, Some(Lease("w", 0, 0)), None)
    ensures s.agents[d] == Agent(Queued, {}, Continue, 0, 0, 0.0, None, None)
    ensures s.agents[f] == Agent(Pending, {r, d}, Retry, 1, 0, 0.0, None, None)
  {
    var s0 := TrioStarts(r, d, f, breaker);
    s := Claims(Trio(r, d, f, breaker), [], s0, r, "w", 0);
    assert [] + [ClaimStep(r, "w", 0)] == [ClaimStep(r, "w", 0)];
  }

  lemma TrioCascade(agents: Agents, r: Name, d: Name, f: Name)
    requires r != d && r != f && d != f && agents.Keys == {r, d, f}
    requires agents[r].status == Failed && agents[d].status == Queued && agents[d].dependsOn == {}
    requires agents[f].status == Pending && agents[f].dependsOn == {r, d}
    ensures Doomed(agents, {r}) == {f}
  {
    assert r in agents[f].dependsOn * {r};
    assert Hit(agents, {r}) == {f};
    assert Hit(agents, {r} + {f}) == {};
    assert Doomed(agents, {r} + {f}) == {};
  }

  // The failure of `r` fails `f` too and leaves `d` queued, whatever the breaker, as long
  // as one failure does not trip it.
  lemma TrioFails(r: Name, d: Name, f: Name, breaker: Option<CircuitBreaker>) returns (s: State)
    requires r != d && r != f && d != f
    requires breaker.Some? ==> breaker.value.threshold != 1
    ensures Arrives(Trio(r, d, f, breaker), TrioSteps(r), s)
    ensures s.config == ConfigOf(Trio(r, d, f, breaker)) && s.status == Running
    ensures s.agents.Keys == {r, d, f}
    ensures s.agents[r] == Agent(Failed, {}, Continue, 0, 0, 0.0, None, None)
    ensures s.agents[d] == Agent(Queued, {}, Continue, 0, 0, 0.0, None, None)
    ensures s.agents[f] == Agent(Failed, {r, d}, Retry, 1, 0, 0.0, None, None)
  {
    var t := TrioClaims(r, d, f, breaker);
    GoesOn(Trio(r, d, f, breaker), [ClaimStep(r, "w", 0)], t, FailStep(r, 0, None, Failed));
    assert [ClaimStep(r, "w", 0)] + [FailStep(r, 0, None, Failed)] == TrioSteps(r);
    s := Fail(t, r, Some(0), None, Failed);
    assert MayFinish(t, r, Some(0));
    var b := Broken(t, r, Some(0), Failed);
    OneFailureSpares(b, r);
    TrioCascade(b.agents, r, d, f);
    TrioSettles(b, r, d, f);
  }

  lemma OneFailureSpares(s: State, r: Name)
    requires FailureSet(s.agents) == {r}
    requires s.config.circuitBreaker.Some? ==> s.config.circuitBreaker.value.threshold != 1
    ensures !BreakerTripped(s)
  {
  }

  lemma TrioSettles(b: State, r: Name, d: Name, f: Name)
    requires r != d && r != f && d != f && !BreakerTripped(b) && Doomed(b.agents, {r}) == {f}
    requires b.agents.Keys == {r, d, f} && b.agents[r].status == Failed && b.agents[d].status == Queued
    requires b.agents[f].lease == None
    ensures HandleFailure(b, r, Continue) == b.(agents := b.agents[f := b.agents[f].(status := Failed)])
  {
    var c := Cascade(b, r);
    assert ReadySet(c.agents) == {};
    assert c.agents == b.agents[f := b.agents[f].(status := Failed)];
  }

  // Resumption puts `f` back behind `r`, which stays failed.
  lemma ResumedBehindFailure(r: Name, d: Name, f: Name) returns (steps: seq<Step>, s: State)
    requires r != d && r != f && d != f
    ensures Arrives(Trio(r, d, f, None), steps, s) && f in s.agents && r in s.agents && r in s.agents[f].dependsOn
    ensures s.agents[f].status == Pending && s.agents[r].status == Failed
  {
    var t := TrioFails(r, d, f, None);
    GoesOn(Trio(r, d, f, None), TrioSteps(r), t, ResumeStep);
    steps, s := TrioSteps(r) + [ResumeStep], Resume(t);
    assert !DepsDone(t.agents, t.agents[f].dependsOn);
  }

  // A cancelled run can be resumed: `f` then waits for `d`, which stays cancelled.
  lemma ResumedBehindCancelled(r: Name, d: Name, f: Name) returns (steps: seq<Step>, before: State)
    requires r != d && r != f && d != f
    ensures Arrives(Trio(r, d, f, None), steps, before) && NoneStranded(before.agents)
    ensures Arrives(Trio(r, d, f, None), steps + [ResumeStep], Resume(before))
    ensures !NoneStranded(Resume(before).agents)
  {
    steps := TrioSteps(r) + [CancelRunStep];
    before := TrioCancelled(r, d, f);
    GoesOn(Trio(r, d, f, None), steps, before, ResumeStep);
    StrandedByResume(before, f, d);
  }

  lemma StrandedByResume(s: State, f: Name, d: Name)
    requires WithStatus(s.agents, Pending) == {} && f in s.agents && RetryableFailure(s.agents[f])
    requires d in s.agents && d in s.agents[f].dependsOn && s.agents[d].status == Cancelled
    ensures NoneStranded(s.agents) && !NoneStranded(Resume(s).agents)
  {
    forall n | n in s.agents ensures Unstranded(s.agents, n) {
      assert n !in WithStatus(s.agents, Pending);
    }
    assert f in ResumableSet(s.agents) && d in s.agents[f].dependsOn * WithStatus(s.agents, Cancelled);
    ResumeStrandsNobodyIff(s);
  }

  lemma TrioCancelled(r: Name, d: Name, f: Name) returns (s: State)
    requires r != d && r != f && d != f
    ensures Arrives(Trio(r, d, f, None), TrioSteps(r) + [CancelRunStep], s) && s.agents.Keys == {r, d, f}
    ensures s.agents[r].status == Failed && s.agents[d].status == Cancelled && s.agents[f].status == Failed
    ensures s.agents[f].dependsOn == {r, d} && RetryableFailure(s.agents[f])
  {
    var t := TrioFails(r, d, f, None);
    GoesOn(Trio(r, d, f, None), TrioSteps(r), t, CancelRunStep);
    s := CancelRun(t);
  }

  // The cascade takes the run past the threshold after the breaker was consulted.
  lemma BreakerMissed(r: Name, d: Name, f: Name) returns (s: State)
    requires r != d && r != f && d != f
    ensures var breaker := Some(CircuitBreaker(2, CancelAll));
            Arrives(Trio(r, d, f, breaker), TrioSteps(r), s) && BreakerTripped(s) && !AllTerminal(s.agents)
  {
    s := TrioFails(r, d, f, Some(CircuitBreaker(2, CancelAll)));
    assert FailureSet(s.agents) == {r, f};
    assert |{r, f}| == 2;
    assert d in s.agents && !s.agents[d].status.Terminal();
  }

  // An expiry pass takes the run to the threshold without consulting the breaker.
  lemma BreakerMissedByExpiry(r: Name, d: Name, f: Name) returns (s: State)
    requires r != d && r != f && d != f
    ensures var breaker := Some(CircuitBreaker(1, CancelAll));
            Arrives(Trio(r, d, f, breaker), [ClaimStep(r, "w", 0), ExpireStep(1, [r])], s)
    ensures BreakerTripped(s) && !AllTerminal(s.agents)
  {
    var plan := Trio(r, d, f, Some(CircuitBreaker(1, CancelAll)));
    var t := TrioClaims(r, d, f, Some(CircuitBreaker(1, CancelAll)));
    ArrivedCore(plan, [ClaimStep(r, "w", 0)], t);
    OnlyStale(t, r);
    GoesOn(plan, [ClaimStep(r, "w", 0)], t, ExpireStep(1, [r]));
    assert [ClaimStep(r, "w", 0)] + [ExpireStep(1, [r])] == [ClaimStep(r, "w", 0), ExpireStep(1, [r])];
    s := ExpirePass(t, [r]);
    TrioLapses(t, r, d, f);
  }

  lemma OnlyStale(s: State, r: Name)
    requires r in s.agents && s.agents[r].status == Running && s.agents[r].lease.Some?
    requires s.agents[r].lease.value.until == 0 && forall n :: n in s.agents && n != r ==> s.agents[n].status != Running
    ensures Stale(s, 1) == {r} && StaleListing(s, 1, [r])
  {
    DistinctPositions([r]);
    assert Members([r]) == {r};
  }

  lemma TrioLapses(s: State, r: Name, d: Name, f: Name)
    requires Core(s) && StaleListing(s, 1, [r]) && CancelsAll(s) && s.config.circuitBreaker.value.threshold == 1
    requires d in s.agents && s.agents[d].status == Queued && s.agents[d].dependsOn == {} && d != r
    requires r in s.agents && s.agents[r].onFailure == Continue && Stale(s, 1) == {r}
    ensures r in s.agents && BreakerTripped(ExpirePass(s, [r])) && !AllTerminal(ExpirePass(s, [r]).agents)
  {
    PassMissesBreakerIff(s, 1, [r]);
    assert LostSet(s, 1) == {r};
    DoomedHasDependency(s.agents, {r}, d);
    assert d in NonTerminal(s.agents);
  }

  lemma {:induction false} DoomedHasDependency(agents: Agents, failed: set<Name>, n: Name)
    requires n in agents && agents[n].dependsOn == {}
    ensures n !in Doomed(agents, failed)
    decreases |agents.Keys - failed|
  {
    var hit := Hit(agents, failed);
    if hit == {} {
    } else {
      HitShrinks(agents, failed);
      DoomedHasDependency(agents, failed + hit, n);
    }
  }

  // ---------------------------------------------------------------------------
  // A chain whose first agent is cancelled
  // ---------------------------------------------------------------------------

  function ChainOfTwo(a: Name, b: Name): PlanSpec {
    PlanSpec([AgentSpec(a, [], Continue, 0, None), AgentSpec(b, [a], Continue, 0, None)], None, None, None)
  }

  lemma ChainStarts(a: Name, b: Name) returns (s: State)
    requires a != b
    ensures Arrives(ChainOfTwo(a, b), [], s) && CreateRun(ChainOfTwo(a, b)) == Some(s)
    ensures s.agents.Keys == {a, b}
    ensures s.agents[a] == Agent(Queued, {}, Continue, 0, 0, 0.0, None, None)
    ensures s.agents[b] == Agent(Pending, {a}, Continue, 0, 0, 0.0, None, None)
  {
    var agents := ChainOfTwo(a, b).agents;
    assert NamesOf(agents) == [a, b] && NamesOf(agents[..1]) == [a];
    DistinctTwo(a, b);
    StarValid(agents);
    CreatedCore(ChainOfTwo(a, b));
    s := CreateRun(ChainOfTwo(a, b)).value;
    Starts(ChainOfTwo(a, b), s);
    Inserted(agents);
    assert agents[0].name in s.agents && agents[1].name in s.agents;
  }

  // Once `a` is cancelled, `b` is never queued, never runs and never completes, whatever
  // happens afterwards.
  lemma CancelAgentStrandsForGood(a: Name, b: Name, states: seq<State>, steps: seq<Step>, k: nat)
    requires a != b && Execution(ChainOfTwo(a, b), states, steps)
    requires |steps| > 0 && steps[0] == CancelAgentStep(a) && 1 <= k < |states|
    ensures b in states[k].agents && !Released(states[k].agents[b].status)
    ensures a in states[k].agents && states[k].agents[a].status == Cancelled
  {
    var s := ChainStarts(a, b);
    assert states[0] == s;
    assert Taken(states, steps, 0);
    assert states[1] == CancelAgent(s, a);
    BlockedForever(ChainOfTwo(a, b), states, steps, 1, k, b, a);
  }

  lemma CancelAgentCanStrand(a: Name, b: Name) returns (s: State)
    requires a != b
    ensures Arrives(ChainOfTwo(a, b), [CancelAgentStep(a)], s)
    ensures s.agents.Keys == {a, b} && s.agents[a].status == Cancelled && s.agents[b].status == Pending
  {
    var t := ChainStarts(a, b);
    GoesOn(ChainOfTwo(a, b), [], t, CancelAgentStep(a));
    assert [] + [CancelAgentStep(a)] == [CancelAgentStep(a)];
    s := CancelAgent(t, a);
  }

  // ---------------------------------------------------------------------------
  // A manager that may have no worker
  // ---------------------------------------------------------------------------

  function Managed(): PlanSpec {
    PlanSpec([AgentSpec("m", [], Continue, 0, Some(0)), AgentSpec("x", [], Continue, 0, None)], None, None, None)
  }

  lemma ManagedStarts() returns (s: State)
    ensures Arrives(Managed(), [], s) && s.agents.Keys == {"m", "x"}
    ensures s.agents["m"].maxSubagents == Some(0) && s.agents["x"].maxSubagents == None
  {
    var agents := Managed().agents;
    assert NamesOf(agents) == ["m", "x"];
    DistinctTwo("m", "x");
    StarValid(agents);
    CreatedCore(Managed());
    s := CreateRun(Managed()).value;
    Starts(Managed(), s);
    Inserted(agents);
    assert agents[0].name in s.agents && agents[1].name in s.agents;
  }

  // Another agent spawns a worker under the name of the manager.
  lemma CapExceeded(worker: AgentSpec) returns (s: State)
    requires worker.name == "m.w"
    ensures Arrives(Managed(), [SpawnStep("x", worker)], s)
    ensures "m" in s.agents && s.agents["m"].maxSubagents == Some(0) && "m.w" in CountedWorkers(s.agents, "m")
  {
    var t := ManagedStarts();
    GoesOn(Managed(), [], t, SpawnStep("x", worker));
    assert [] + [SpawnStep("x", worker)] == [SpawnStep("x", worker)];
    s := Spawn(t, "x", worker);
    LikeMeansDotted("m.w", "m");
    assert "m.w"[..1] == "m";
  }
}
