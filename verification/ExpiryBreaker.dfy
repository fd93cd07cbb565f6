/**
 What an expiry pass leaves of a run, and when that is more than the circuit breaker
 would have left: the pass never consults it.
 */
module ExpiryBreaker {
  import opened Graph
  import opened Plan
  import opened RunState
  import opened Transitions
  import opened Invariants
  import opened Outcomes
  import opened Blame
  import opened Steps
  import opened Exceptions

  // ---------------------------------------------------------------------------
  // The cascade as a least fixpoint
  // ---------------------------------------------------------------------------

  // No waiting agent outside the two sets depends on one of them.
  ghost predicate ClosedUnder(agents: Agents, failed: set<Name>, doomed: set<Name>) {
    forall m :: m in agents && agents[m].status.Waiting() && m !in failed && m !in doomed ==>
                  agents[m].dependsOn !! failed + doomed
  }

  lemma DoomedCloses(agents: Agents, failed: set<Name>)
    ensures ClosedUnder(agents, failed, Doomed(agents, failed))
  {
    forall m | m in agents && agents[m].status.Waiting() && m !in failed && m !in Doomed(agents, failed)
      ensures agents[m].dependsOn !! failed + Doomed(agents, failed)
    {
      DoomedIsClosed(agents, failed, m);
    }
  }

  lemma {:induction false} DoomedIsLeast(agents: Agents, failed: set<Name>, doomed: set<Name>)
    requires ClosedUnder(agents, failed, doomed)
    ensures Doomed(agents, failed) <= doomed
    decreases |agents.Keys - failed|
  {
    var hit := Hit(agents, failed);
    if hit == {} {
    } else {
      HitShrinks(agents, failed);
      assert hit <= doomed;
      assert (failed + hit) + doomed == failed + doomed;
      DoomedIsLeast(agents, failed + hit, doomed);
    }
  }

  // `b` waits like `a` once the agents doomed by `failed` are gone; whoever waits only in
  // `b` has nothing left to wait for.
  ghost predicate WaitsAfter(a: Agents, b: Agents, failed: set<Name>) {
    && b.Keys == a.Keys
    && forall m {:trigger WaitsAfterAt(a, b, failed, m)} :: m in a ==> WaitsAfterAt(a, b, failed, m)
  }

  ghost predicate WaitsAfterAt(a: Agents, b: Agents, failed: set<Name>, m: Name)
    requires m in a && m in b
  {
    && b[m].dependsOn == a[m].dependsOn
    && (a[m].status.Waiting() ==> (b[m].status.Waiting() <==> m !in Doomed(a, failed)))
    && (!a[m].status.Waiting() && b[m].status.Waiting() ==> DepsDone(a, a[m].dependsOn))
  }

  ghost predicate NotWaiting(agents: Agents, names: set<Name>) {
    forall m :: m in names && m in agents ==> !agents[m].status.Waiting() && agents[m].status != Completed
  }

  lemma SplitWithin(a: Agents, b: Agents, failed: set<Name>, n: Name)
    requires WaitsAfter(a, b, failed) && NotWaiting(a, failed + {n})
    ensures Doomed(a, failed + {n}) <= Doomed(a, failed) + Doomed(b, {n})
  {
    var first, second := Doomed(a, failed), Doomed(b, {n});
    DoomedCloses(a, failed);
    DoomedCloses(b, {n});
    forall m | m in a && a[m].status.Waiting() && m !in failed + {n} && m !in first + second
      ensures a[m].dependsOn !! (failed + {n}) + (first + second)
    {
      assert WaitsAfterAt(a, b, failed, m);
      assert a[m].dependsOn !! failed + first && b[m].dependsOn !! {n} + second;
    }
    DoomedIsLeast(a, failed + {n}, first + second);
  }

  lemma SplitCovers(a: Agents, b: Agents, failed: set<Name>, n: Name)
    requires WaitsAfter(a, b, failed) && NotWaiting(a, failed + {n})
    ensures Doomed(a, failed) + Doomed(b, {n}) <= Doomed(a, failed + {n})
  {
    var all := Doomed(a, failed + {n});
    DoomedCloses(a, failed + {n});
    DoomedWaits(a, failed + {n});
    forall m | m in a && a[m].status.Waiting() && m !in failed && m !in all ensures a[m].dependsOn !! failed + all {
      assert m !in failed + {n};
    }
    DoomedIsLeast(a, failed, all);
    forall m | m in b && b[m].status.Waiting() && m !in {n} && m !in all ensures b[m].dependsOn !! {n} + all {
      assert WaitsAfterAt(a, b, failed, m);
      if a[m].status.Waiting() {
        assert m !in failed + {n};
      } else {
        assert forall d :: d in b[m].dependsOn ==> d in a && a[d].status == Completed;
      }
    }
    DoomedIsLeast(b, {n}, all);
  }

  // Failing one more agent dooms what was doomed before and what the state after that adds.
  lemma DoomedSplits(a: Agents, b: Agents, failed: set<Name>, n: Name)
    requires WaitsAfter(a, b, failed) && NotWaiting(a, failed + {n})
    ensures Doomed(a, failed + {n}) == Doomed(a, failed) + Doomed(b, {n})
  {
    SplitWithin(a, b, failed, n);
    SplitCovers(a, b, failed, n);
  }

  // ---------------------------------------------------------------------------
  // The rows of a pass in which nobody stops the run
  // ---------------------------------------------------------------------------

  // The agents among the first `m` rows that may not retry.
  ghost function Lost(s: State, names: seq<Name>, m: nat): set<Name>
    requires m <= |names| && forall i :: 0 <= i < |names| ==> names[i] in s.agents
  {
    set j | 0 <= j < m && !CanRetry(s.agents[names[j]]) :: names[j]
  }

  // What became of one row, when `lost` failed and `back` was queued again.
  ghost predicate Settled(a: Agents, b: Agents, lost: set<Name>, back: set<Name>, m: Name)
    requires m in a && m in b
  {
    && b[m].dependsOn == a[m].dependsOn
    && (b[m].status.Failure() <==> a[m].status.Failure() || m in lost + Doomed(a, lost))
    && (b[m].status.Terminal() <==> a[m].status.Terminal() || m in lost + Doomed(a, lost))
    && (b[m].status.Waiting() <==> (a[m].status.Waiting() && m !in Doomed(a, lost)) || m in back)
  }

  ghost predicate AllSettled(a: Agents, b: Agents, lost: set<Name>, back: set<Name>) {
    && b.Keys == a.Keys
    && (lost + back <= WithStatus(a, Running) && lost !! back)
    && (forall m {:trigger Settled(a, b, lost, back, m)} :: m in a ==> Settled(a, b, lost, back, m))
  }

  lemma SettledWaits(s0: State, b: Agents, lost: set<Name>, back: set<Name>, n: Name)
    requires DepSafe(s0.agents) && AllSettled(s0.agents, b, lost, back)
    requires n in s0.agents && s0.agents[n].status == Running && n !in lost + back
    ensures WaitsAfter(s0.agents, b, lost) && NotWaiting(s0.agents, lost + {n})
    ensures !b[n].status.Terminal()
  {
    var a := s0.agents;
    forall m | m in a ensures WaitsAfterAt(a, b, lost, m) {
      assert Settled(a, b, lost, back, m) && DepsHeld(a, m);
    }
    forall m | m in lost + {n} ensures a[m].status == Running {
      assert m in lost ==> m in WithStatus(a, Running);
    }
    DoomedWaits(a, lost);
    assert Settled(a, b, lost, back, n);
  }

  lemma RetrySettles(s0: State, s: State, n: Name, lost: set<Name>, back: set<Name>)
    requires DepSafe(s0.agents) && AllSettled(s0.agents, s.agents, lost, back)
    requires n in s0.agents && s0.agents[n].status == Running && n !in lost + back && CanRetry(s0.agents[n])
    ensures AllSettled(s0.agents, ExpireRow(s, n, s0.agents[n]).agents, lost, back + {n})
  {
    var a, t := s0.agents, ExpireRow(s, n, s0.agents[n]);
    DoomedWaits(a, lost);
    assert t.agents.Keys == a.Keys;
    assert n in WithStatus(a, Running);
    forall m | m in a ensures Settled(a, t.agents, lost, back + {n}, m) {
      assert Settled(a, s.agents, lost, back, m);
    }
  }

  // One row through the failure of `n` in `t` and its cascade.
  lemma CascadeSettles(a: Agents, b: Agents, t: State, n: Name, lost: set<Name>, back: set<Name>, m: Name)
    requires m in a && m in b && m in t.agents && Settled(a, b, lost, back, m)
    requires if m == n then t.agents[m] == b[m].(status := Failed, lease := None) else t.agents[m] == b[m]
    requires m == n ==> !a[m].status.Waiting() && m !in back
    requires Doomed(a, lost + {n}) == Doomed(a, lost) + Doomed(t.agents, {n})
    requires m in Doomed(t.agents, {n}) ==> m !in back
    ensures Settled(a, MarkReady(Cascade(t, n)).agents, lost + {n}, back, m)
  {
    CascadedRow(t, n, m);
    DoomedWaits(t.agents, {n});
  }

  // Whoever is back has its dependencies completed, so no cascade reaches it.
  lemma BackIsSpared(s0: State, b: Agents, lost: set<Name>, back: set<Name>, n: Name)
    requires DepSafe(s0.agents) && back <= WithStatus(s0.agents, Running) && NotWaiting(s0.agents, lost + {n})
    requires Doomed(s0.agents, lost + {n}) == Doomed(s0.agents, lost) + Doomed(b, {n})
    ensures back !! Doomed(b, {n})
  {
    DoomedWaits(s0.agents, lost + {n});
  }

  // The failing row and its cascade.
  lemma FailureSettles(s0: State, s: State, n: Name, lost: set<Name>, back: set<Name>)
    requires DepSafe(s0.agents) && AllSettled(s0.agents, s.agents, lost, back)
    requires n in s0.agents && s0.agents[n].status == Running && n !in lost + back
    requires !CanRetry(s0.agents[n]) && s0.agents[n].onFailure != Stop
    ensures AllSettled(s0.agents, ExpireRow(s, n, s0.agents[n]).agents, lost + {n}, back)
  {
    var a := s0.agents;
    var t := Lapsed(s, n, a[n]);
    SettledWaits(s0, s.agents, lost, back, n);
    LapsedWaits(a, s, n, lost);
    DoomedSplits(a, t.agents, lost, n);
    BackIsSpared(s0, t.agents, lost, back, n);
    assert n in WithStatus(a, Running);
    var u := MarkReady(Cascade(t, n));
    forall m | m in a ensures m in u.agents && Settled(a, u.agents, lost + {n}, back, m) {
      CascadeSettles(a, s.agents, t, n, lost, back, m);
    }
    assert u.agents.Keys == a.Keys;
  }

  lemma LapsedWaits(a: Agents, s: State, n: Name, lost: set<Name>)
    requires WaitsAfter(a, s.agents, lost) && n in a && !a[n].status.Waiting() && !CanRetry(a[n])
    ensures WaitsAfter(a, Lapsed(s, n, a[n]).agents, lost)
  {
    forall m | m in a ensures WaitsAfterAt(a, Lapsed(s, n, a[n]).agents, lost, m) {
      assert WaitsAfterAt(a, s.agents, lost, m);
    }
  }

  lemma CascadedRow(s: State, n: Name, m: Name)
    requires m in s.agents
    ensures var u := MarkReady(Cascade(s, n)).agents;
            && m in u && u[m].dependsOn == s.agents[m].dependsOn
            && (m in Doomed(s.agents, {n}) ==> u[m].status == Failed)
            && (m !in Doomed(s.agents, {n}) ==>
                  u[m].status == s.agents[m].status || (s.agents[m].status == Pending && u[m].status == Queued))
  {
  }

  ghost predicate SettledAt(s0: State, names: seq<Name>, m: nat)
    requires PassOver(s0, names)
  {
    && m <= |names|
    && AllSettled(s0.agents, Handled(s0, names, m).agents, Lost(s0, names, m), Regranted(s0, names, 0, m))
  }

  lemma LostNext(s: State, names: seq<Name>, m: nat)
    requires m < |names| && forall i :: 0 <= i < |names| ==> names[i] in s.agents
    ensures Lost(s, names, m + 1) == Lost(s, names, m) + if CanRetry(s.agents[names[m]]) then {} else {names[m]}
  {
  }

  lemma NotHandledYet(s: State, names: seq<Name>, m: nat)
    requires PassOver(s, names) && m < |names|
    ensures names[m] !in Lost(s, names, m) + Regranted(s, names, 0, m)
  {
    DistinctPositions(names);
  }

  lemma NothingHandled(s0: State, names: seq<Name>)
    requires PassOver(s0, names)
    ensures Handled(s0, names, 0) == s0 && SettledAt(s0, names, 0)
  {
    assert ReadRows(s0, names)[..0] == [];
    assert Lost(s0, names, 0) == {} && Regranted(s0, names, 0, 0) == {};
    assert Hit(s0.agents, {}) == {};
    assert Doomed(s0.agents, {}) == {};
    forall m | m in s0.agents ensures Settled(s0.agents, s0.agents, {}, {}, m) {
    }
  }

  lemma SettledNext(s0: State, names: seq<Name>, m: nat)
    requires PassOver(s0, names) && m < |names| && !Stops(s0.agents[names[m]]) && SettledAt(s0, names, m)
    ensures SettledAt(s0, names, m + 1)
  {
    var s, n := Handled(s0, names, m), names[m];
    var lost, back := Lost(s0, names, m), Regranted(s0, names, 0, m);
    PassNext(s0, names, m);
    NotHandledYet(s0, names, m);
    LostNext(s0, names, m);
    RegrantedNext(s0, names, 0, m);
    if CanRetry(s0.agents[n]) {
      RetrySettles(s0, s, n, lost, back);
      assert lost + {} == lost;
    } else {
      FailureSettles(s0, s, n, lost, back);
      assert back + {} == back;
    }
  }

  // None of the first `m` rows stops the run.
  ghost predicate NoStopBefore(s0: State, names: seq<Name>, m: nat)
    requires PassOver(s0, names)
  {
    m <= |names| && forall i :: 0 <= i < m ==> !Stops(s0.agents[names[i]])
  }

  lemma {:induction false} SettledWithoutStop(s0: State, names: seq<Name>, m: nat)
    requires PassOver(s0, names) && NoStopBefore(s0, names, m)
    ensures SettledAt(s0, names, m)
    decreases m
  {
    if m == 0 {
      NothingHandled(s0, names);
    } else {
      SettledWithoutStop(s0, names, m - 1);
      SettledNext(s0, names, m - 1);
    }
  }

  lemma SettledSets(a: Agents, b: Agents, lost: set<Name>, back: set<Name>)
    requires AllSettled(a, b, lost, back)
    ensures FailureSet(b) == FailureSet(a) + lost + Doomed(a, lost)
    ensures NonTerminal(b) == NonTerminal(a) - lost - Doomed(a, lost)
  {
    DoomedWaits(a, lost);
    forall m | m in a
      ensures b[m].status.Failure() <==> m in FailureSet(a) + lost + Doomed(a, lost)
      ensures !b[m].status.Terminal() <==> m in NonTerminal(a) - lost - Doomed(a, lost)
    {
      assert Settled(a, b, lost, back, m);
    }
    assert lost <= a.Keys && Doomed(a, lost) <= a.Keys;
  }

  // ---------------------------------------------------------------------------
  // After a row that stops the run
  // ---------------------------------------------------------------------------

  // Whoever is alive is queued, and the failures are those before the stop and the rows since.
  ghost predicate LateAt(s0: State, names: seq<Name>, k: nat, m: nat)
    requires PassOver(s0, names)
  {
    && k < m <= |names|
    && NonTerminal(Handled(s0, names, m).agents) <= WithStatus(Handled(s0, names, m).agents, Queued)
    && FailureSet(Handled(s0, names, m).agents)
       == FailureSet(s0.agents) + Lost(s0, names, m) + Doomed(s0.agents, Lost(s0, names, k))
  }

  // A stop cancels; only its own agent fails.
  lemma StopFails(s: State, n: Name, row: Agent)
    requires n in s.agents && Stops(row)
    ensures FailureSet(ExpireRow(s, n, row).agents) == FailureSet(s.agents) + {n}
    ensures NonTerminal(ExpireRow(s, n, row).agents) == {}
  {
    var t := Lapsed(s, n, row);
    assert FailureSet(t.agents) == FailureSet(s.agents) + {n};
    StopEndsEverything(t, n);
  }

  lemma LateAtStop(s0: State, names: seq<Name>, k: nat)
    requires PassOver(s0, names) && k < |names| && NoStopBefore(s0, names, k) && Stops(s0.agents[names[k]])
    ensures LateAt(s0, names, k, k + 1)
  {
    SettledWithoutStop(s0, names, k);
    SettledSets(s0.agents, Handled(s0, names, k).agents, Lost(s0, names, k), Regranted(s0, names, 0, k));
    PassNext(s0, names, k);
    LostNext(s0, names, k);
    StopFails(Handled(s0, names, k), names[k], s0.agents[names[k]]);
  }

  // A later row fails on its own or is queued, and hits nobody.
  lemma LateRowFails(s0: State, s: State, n: Name)
    requires Core(s) && StillDue(s0, s, n) && NonTerminal(s.agents) <= WithStatus(s.agents, Queued)
    ensures var t := ExpireRow(s, n, s0.agents[n]);
            && NonTerminal(t.agents) <= WithStatus(t.agents, Queued)
            && FailureSet(t.agents) == FailureSet(s.agents) + if CanRetry(s0.agents[n]) then {} else {n}
  {
    var row := s0.agents[n];
    assert s.agents[n].status == Cancelled by {
      assert s.agents[n].status == Running ==> n in NonTerminal(s.agents);
    }
    var t := Lapsed(s, n, row);
    if CanRetry(row) {
      assert NonTerminal(t.agents) == NonTerminal(s.agents) + {n};
      assert WithStatus(t.agents, Queued) == WithStatus(s.agents, Queued) + {n};
      assert FailureSet(t.agents) == FailureSet(s.agents);
    } else if row.onFailure == Stop {
      StopFails(s, n, row);
    } else {
      LateAlone(s, n, row);
    }
  }

  lemma LateAlone(s: State, n: Name, row: Agent)
    requires DepSafe(s.agents) && n in s.agents && s.agents[n].status == Cancelled
    requires NonTerminal(s.agents) <= WithStatus(s.agents, Queued) && !CanRetry(row) && row.onFailure != Stop
    ensures var t := ExpireRow(s, n, row);
            && NonTerminal(t.agents) <= WithStatus(t.agents, Queued)
            && FailureSet(t.agents) == FailureSet(s.agents) + {n}
  {
    var t := Lapsed(s, n, row);
    assert NonTerminal(t.agents) == NonTerminal(s.agents);
    assert WithStatus(t.agents, Queued) == WithStatus(s.agents, Queued);
    assert FailureSet(t.agents) == FailureSet(s.agents) + {n};
    forall m | m in t.agents && t.agents[m].status.Waiting() ensures n !in t.agents[m].dependsOn {
      assert m in NonTerminal(s.agents) && DepsHeld(s.agents, m);
    }
    NobodyHit(t, n);
  }

  lemma LateNext(s0: State, names: seq<Name>, k: nat, m: nat)
    requires PassOver(s0, names) && m < |names| && LateAt(s0, names, k, m)
    ensures LateAt(s0, names, k, m + 1)
  {
    PassNext(s0, names, m);
    StillDueAt(s0, names, m);
    LostNext(s0, names, m);
    LateRowFails(s0, Handled(s0, names, m), names[m]);
  }

  lemma {:induction false} LateAfterStop(s0: State, names: seq<Name>, k: nat, m: nat)
    requires PassOver(s0, names) && k < m <= |names|
    requires NoStopBefore(s0, names, k) && Stops(s0.agents[names[k]])
    ensures LateAt(s0, names, k, m)
    decreases m
  {
    if m == k + 1 {
      LateAtStop(s0, names, k);
    } else {
      LateAfterStop(s0, names, k, m - 1);
      LateNext(s0, names, k, m - 1);
    }
  }

  // ---------------------------------------------------------------------------
  // The whole pass
  // ---------------------------------------------------------------------------

  // The stale agents that may not retry.
  ghost function LostSet(s: State, now: int): set<Name> {
    set n | n in Stale(s, now) && !CanRetry(s.agents[n])
  }

  lemma PassStarts(s: State, now: int, names: seq<Name>)
    requires Core(s) && StaleListing(s, now, names)
    ensures PassOver(s, names) && Handled(s, names, |names|) == ExpirePass(s, names)
    ensures Lost(s, names, |names|) == LostSet(s, now)
    ensures ExpirePass(s, names).config == s.config
  {
    ListedRows(s, now, names);
    assert ReadRows(s, names)[..|names|] == ReadRows(s, names);
    ExpirePassKeeps(s, now, names);
    forall n | n in LostSet(s, now) ensures n in Lost(s, names, |names|) {
      assert n in Members(names);
    }
    forall n | n in Lost(s, names, |names|) ensures n in LostSet(s, now) {
      assert n in Members(names);
    }
  }

  lemma LostCounts(s: State, now: int, first: set<Name>)
    requires first <= LostSet(s, now)
    ensures |FailureSet(s.agents) + LostSet(s, now) + Doomed(s.agents, first)|
         == |FailureSet(s.agents)| + |LostSet(s, now)| + |Doomed(s.agents, first)|
  {
    DoomedWaits(s.agents, first);
    ApartByStatus(s.agents, LostSet(s, now), Doomed(s.agents, first));
    DisjointSizes(FailureSet(s.agents), LostSet(s, now), Doomed(s.agents, first));
  }

  lemma ApartByStatus(agents: Agents, running: set<Name>, waiting: set<Name>)
    requires running <= WithStatus(agents, Running) && waiting <= WaitingSet(agents)
    ensures FailureSet(agents) !! running && FailureSet(agents) !! waiting && running !! waiting
  {
  }

  lemma DisjointSizes(a: set<Name>, b: set<Name>, c: set<Name>)
    requires a !! b && a !! c && b !! c
    ensures |a + b + c| == |a| + |b| + |c|
  {
    assert |a + b| == |a| + |b| && (a + b) !! c;
  }

  // Without a stopping row, in any order: the stale agents that may not retry fail with
  // everybody behind them, and nobody else's life ends.
  lemma PassWithoutStop(s: State, now: int, names: seq<Name>)
    requires Core(s) && StaleListing(s, now, names)
    requires forall n :: n in Stale(s, now) ==> !Stops(s.agents[n])
    ensures forall i :: 0 <= i < |names| ==> names[i] in s.agents
    ensures var t, lost := ExpirePass(s, names), LostSet(s, now);
            && FailureSet(t.agents) == FailureSet(s.agents) + lost + Doomed(s.agents, lost)
            && NonTerminal(t.agents) == NonTerminal(s.agents) - lost - Doomed(s.agents, lost)
  {
    PassStarts(s, now, names);
    forall i | 0 <= i < |names| ensures !Stops(s.agents[names[i]]) {
      assert names[i] in Members(names);
    }
    SettledWithoutStop(s, names, |names|);
    SettledSets(s.agents, ExpirePass(s, names).agents, LostSet(s, now), Regranted(s, names, 0, |names|));
  }

  // Such a pass leaves a run at the threshold of a breaker that cancels everything, with
  // agents alive, exactly when it reaches the threshold and spares somebody.
  lemma PassMissesBreakerIff(s: State, now: int, names: seq<Name>)
    requires Core(s) && StaleListing(s, now, names) && CancelsAll(s)
    requires forall n :: n in Stale(s, now) ==> !Stops(s.agents[n])
    ensures forall i :: 0 <= i < |names| ==> names[i] in s.agents
    ensures var t, lost := ExpirePass(s, names), LostSet(s, now);
            var threshold := s.config.circuitBreaker.value.threshold;
            BreakerTripped(t) && !AllTerminal(t.agents) <==>
              && threshold > 0
              && |FailureSet(s.agents)| + |lost| + |Doomed(s.agents, lost)| >= threshold
              && !(NonTerminal(s.agents) <= lost + Doomed(s.agents, lost))
  {
    PassStarts(s, now, names);
    PassWithoutStop(s, now, names);
    LostCounts(s, now, LostSet(s, now));
    EndedIff(ExpirePass(s, names).agents);
  }

  // With stopping rows at `first`, ..., `last`: only failures before the first of them
  // cascade, and exactly the rows after the last one may live on.
  lemma StoppedPassMissesBreakerIff(s: State, now: int, names: seq<Name>, first: nat, last: nat)
    requires Core(s) && StaleListing(s, now, names) && CancelsAll(s) && PassOver(s, names)
    requires first <= last < |names| && NoStopBefore(s, names, first) && Stops(s.agents[names[first]])
    requires StopsLast(s, names, last)
    ensures var t, lost, early := ExpirePass(s, names), LostSet(s, now), Lost(s, names, first);
            var threshold := s.config.circuitBreaker.value.threshold;
            BreakerTripped(t) && !AllTerminal(t.agents) <==>
              && threshold > 0
              && |FailureSet(s.agents)| + |lost| + |Doomed(s.agents, early)| >= threshold
              && exists j :: last < j < |names| && CanRetry(s.agents[names[j]])
  {
    PassStarts(s, now, names);
    LateAfterStop(s, names, first, |names|);
    LostCounts(s, now, Lost(s, names, first));
    StopInExpiryPassIff(s, now, names, last);
  }
}
