/**
 All runs together, and the expiry pass over them.
 */
module Store {
  import opened Graph
  import opened Plan
  import opened RunState
  import opened Transitions
  import opened Invariants
  import opened Outcomes
  import opened Blame
  import opened Runs

  type RunId = string

  type RunTable = map<RunId, State>

  // An agent of a run.
  type Pair = (RunId, Name)

  predicate Known(runs: RunTable, pairs: seq<Pair>) {
    forall i :: 0 <= i < |pairs| ==> pairs[i].0 in runs && pairs[i].1 in runs[pairs[i].0].agents
  }

  ghost predicate DistinctPairs(pairs: seq<Pair>) {
    pairs == [] || (pairs[|pairs| - 1] !in pairs[..|pairs| - 1] && DistinctPairs(pairs[..|pairs| - 1]))
  }

  // The answer of the query for stale leases, in the order the database chose.
  ghost predicate StalePairs(runs: RunTable, now: int, pairs: seq<Pair>) {
    && DistinctPairs(pairs)
    && forall r, n :: (r, n) in pairs <==> r in runs && n in Stale(runs[r], now)
  }

  // The pass handles one row after the other, with the rows read at its start.
  function StoreExpire(runs: RunTable, pairs: seq<Pair>): (after: RunTable)
    requires Known(runs, pairs)
    ensures after.Keys == runs.Keys
  {
    if pairs == [] then runs
    else
      var (r, n) := pairs[|pairs| - 1];
      assert pairs[|pairs| - 1].0 in runs;
      var before := StoreExpire(runs, pairs[..|pairs| - 1]);
      before[r := ExpireRow(before[r], n, runs[r].agents[n])]
  }

  function OnRun(r: RunId, names: seq<Name>): seq<Pair> {
    seq(|names|, i requires 0 <= i < |names| => (r, names[i]))
  }

  function StoreHints(runs: RunTable, pairs: seq<Pair>): seq<Pair>
    requires Known(runs, pairs)
  {
    if pairs == [] then []
    else
      var (r, n) := pairs[|pairs| - 1];
      assert pairs[|pairs| - 1].0 in runs;
      var init := pairs[..|pairs| - 1];
      StoreHints(runs, init) + OnRun(r, ExpireHint(StoreExpire(runs, init)[r], n, runs[r].agents[n]))
  }

  function RunsOf(pairs: seq<Pair>): set<RunId> {
    set i | 0 <= i < |pairs| :: pairs[i].0
  }

  function RefreshAll(runs: RunTable, affected: set<RunId>): (after: RunTable)
    ensures after.Keys == runs.Keys
  {
    map r | r in runs :: if r in affected then Refresh(runs[r]) else runs[r]
  }

  // ---------------------------------------------------------------------------
  // Runs do not interfere
  // ---------------------------------------------------------------------------

  // The names of one run, in their order.
  function OfRun(pairs: seq<Pair>, r: RunId): seq<Name> {
    if pairs == [] then []
    else
      var last := pairs[|pairs| - 1];
      OfRun(pairs[..|pairs| - 1], r) + if last.0 == r then [last.1] else []
  }

  lemma {:induction false} OfRunMembers(pairs: seq<Pair>, r: RunId)
    ensures forall n :: n in OfRun(pairs, r) <==> (r, n) in pairs
  {
    if pairs == [] {
    } else {
      var init, last := pairs[..|pairs| - 1], pairs[|pairs| - 1];
      OfRunMembers(init, r);
      assert pairs == init + [last];
    }
  }

  lemma {:induction false} OfRunDistinct(pairs: seq<Pair>, r: RunId)
    requires DistinctPairs(pairs)
    ensures Distinct(OfRun(pairs, r))
  {
    if pairs == [] {
    } else {
      var init, last := pairs[..|pairs| - 1], pairs[|pairs| - 1];
      OfRunDistinct(init, r);
      OfRunMembers(init, r);
      if last.0 == r {
        AppendNew(OfRun(init, r), last.1);
      } else {
        assert OfRun(pairs, r) == OfRun(init, r);
      }
    }
  }

  lemma OfRunListed(runs: RunTable, pairs: seq<Pair>, r: RunId)
    requires Known(runs, pairs) && r in runs
    ensures forall i :: 0 <= i < |OfRun(pairs, r)| ==> OfRun(pairs, r)[i] in runs[r].agents
  {
    OfRunMembers(pairs, r);
    forall i | 0 <= i < |OfRun(pairs, r)| ensures OfRun(pairs, r)[i] in runs[r].agents {
      assert (r, OfRun(pairs, r)[i]) in pairs;
    }
  }

  lemma ReadOneMore(s: State, names: seq<Name>, n: Name)
    requires n in s.agents && forall i :: 0 <= i < |names| ==> names[i] in s.agents
    ensures forall i :: 0 <= i < |names + [n]| ==> (names + [n])[i] in s.agents
    ensures ReadRows(s, names + [n]) == ReadRows(s, names) + [(n, s.agents[n])]
    ensures ExpirePass(s, names + [n]) == ExpireRow(ExpirePass(s, names), n, s.agents[n])
  {
    assert ReadRows(s, names + [n])[..|names|] == ReadRows(s, names);
  }

  // For each run the pass over all runs is the pass over its own rows.
  lemma {:induction false} PassSplitsByRun(runs: RunTable, pairs: seq<Pair>, r: RunId)
    requires Known(runs, pairs) && r in runs
    ensures forall i :: 0 <= i < |OfRun(pairs, r)| ==> OfRun(pairs, r)[i] in runs[r].agents
    ensures StoreExpire(runs, pairs)[r] == ExpirePass(runs[r], OfRun(pairs, r))
  {
    OfRunListed(runs, pairs, r);
    if pairs == [] {
    } else {
      var init, last := pairs[..|pairs| - 1], pairs[|pairs| - 1];
      PassSplitsByRun(runs, init, r);
      if last.0 == r {
        ReadOneMore(runs[r], OfRun(init, r), last.1);
      } else {
        assert OfRun(pairs, r) == OfRun(init, r);
      }
    }
  }

  lemma StaleOfRun(runs: RunTable, now: int, pairs: seq<Pair>, r: RunId)
    requires StalePairs(runs, now, pairs) && r in runs
    ensures Known(runs, pairs)
    ensures StaleListing(runs[r], now, OfRun(pairs, r))
  {
    OfRunMembers(pairs, r);
    OfRunDistinct(pairs, r);
    forall i | 0 <= i < |pairs| ensures pairs[i].0 in runs && pairs[i].1 in runs[pairs[i].0].agents {
      assert (pairs[i].0, pairs[i].1) in pairs;
    }
  }

  // ---------------------------------------------------------------------------
  // What the pass reports
  // ---------------------------------------------------------------------------

  // Within a pass nothing becomes ready: completions are the only cause of readiness.
  lemma NothingBecomesReady(s0: State, s: State, n: Name, due: set<Name>)
    requires DepSafe(s0.agents) && Expiring(s0, s, due) && StillDue(s0, s, n) && n in due && NoneOverdue(s.agents)
    ensures ExpireHint(s, n, s0.agents[n]) == if CanRetry(s0.agents[n]) then [n] else []
  {
    var row := s0.agents[n];
    if !CanRetry(row) && row.onFailure != Stop {
      var t := Lapsed(s, n, row);
      var u := Cascade(t, n);
      DoomedWaits(t.agents, {n});
      forall m | m in u.agents && u.agents[m].status == Pending ensures !DepsDone(u.agents, u.agents[m].dependsOn) {
        assert Waits(s.agents, m);
        assert forall d :: d in s.agents && u.agents[d].status == Completed ==> s.agents[d].status == Completed;
      }
      assert ReadySet(u.agents) == {};
      SelectNone(u.order);
    }
  }

  lemma {:induction false} SelectNone(order: seq<Name>)
    ensures Select(order, {}) == []
  {
    if order == [] {
    } else {
      SelectNone(order[..|order| - 1]);
    }
  }

  lemma HintOfNext(s0: State, names: seq<Name>, n: Name, now: int)
    requires Good(s0) && Distinct(names + [n])
    requires forall i :: 0 <= i < |names + [n]| ==>
               (names + [n])[i] in s0.agents && s0.agents[(names + [n])[i]].status == Running
    ensures forall i :: 0 <= i < |names| ==> names[i] in s0.agents
    ensures ExpireHint(ExpirePass(s0, names), n, s0.agents[n]) == if CanRetry(s0.agents[n]) then [n] else []
  {
    var all := names + [n];
    forall i | 0 <= i < |names| ensures names[i] in s0.agents {
      assert all[i] == names[i];
    }
    assert ReadRows(s0, all)[..|names|] == ReadRows(s0, names);
    ExpireRowsContinue(s0, all, |names|);
    ExpireRowsClearBlame(s0, all, |names|);
    var due := Members(all[|names|..]);
    assert all[|names|..] == [n];
    assert StillDue(s0, ExpirePass(s0, names), n);
    NothingBecomesReady(s0, ExpirePass(s0, names), n, due);
  }

  function Retryable(runs: RunTable, pairs: seq<Pair>): seq<Pair>
    requires Known(runs, pairs)
  {
    if pairs == [] then []
    else
      var last := pairs[|pairs| - 1];
      Retryable(runs, pairs[..|pairs| - 1]) + if CanRetry(runs[last.0].agents[last.1]) then [last] else []
  }

  ghost predicate AllRunning(runs: RunTable, pairs: seq<Pair>)
    requires Known(runs, pairs)
  {
    forall i :: 0 <= i < |pairs| ==> runs[pairs[i].0].agents[pairs[i].1].status == Running
  }

  lemma OfRunRunning(runs: RunTable, pairs: seq<Pair>, r: RunId)
    requires Known(runs, pairs) && AllRunning(runs, pairs) && r in runs
    ensures forall i :: 0 <= i < |OfRun(pairs, r)| ==>
              OfRun(pairs, r)[i] in runs[r].agents && runs[r].agents[OfRun(pairs, r)[i]].status == Running
  {
    OfRunMembers(pairs, r);
    forall i | 0 <= i < |OfRun(pairs, r)|
      ensures OfRun(pairs, r)[i] in runs[r].agents && runs[r].agents[OfRun(pairs, r)[i]].status == Running
    {
      assert (r, OfRun(pairs, r)[i]) in pairs;
      var j :| 0 <= j < |pairs| && pairs[j] == (r, OfRun(pairs, r)[i]);
    }
  }

  lemma LastHint(runs: RunTable, init: seq<Pair>, r: RunId, n: Name)
    requires Known(runs, init + [(r, n)]) && AllRunning(runs, init + [(r, n)]) && DistinctPairs(init + [(r, n)])
    requires r in runs && n in runs[r].agents && Known(runs, init) && Good(runs[r])
    ensures ExpireHint(StoreExpire(runs, init)[r], n, runs[r].agents[n])
         == if CanRetry(runs[r].agents[n]) then [n] else []
  {
    var pairs := init + [(r, n)];
    assert pairs[..|pairs| - 1] == init;
    OfRunRunning(runs, pairs, r);
    OfRunDistinct(pairs, r);
    assert OfRun(pairs, r) == OfRun(init, r) + [n];
    PassSplitsByRun(runs, init, r);
    HintOfNext(runs[r], OfRun(init, r), n, 0);
  }

  lemma LastHintUnfolds(runs: RunTable, init: seq<Pair>, r: RunId, n: Name)
    requires Known(runs, init) && r in runs && n in runs[r].agents
    ensures Known(runs, init + [(r, n)])
    ensures StoreHints(runs, init + [(r, n)])
         == StoreHints(runs, init) + OnRun(r, ExpireHint(StoreExpire(runs, init)[r], n, runs[r].agents[n]))
    ensures Retryable(runs, init + [(r, n)])
         == Retryable(runs, init) + if CanRetry(runs[r].agents[n]) then [(r, n)] else []
  {
    var pairs := init + [(r, n)];
    assert pairs[..|pairs| - 1] == init && pairs[|pairs| - 1] == (r, n);
  }

  lemma OnRunOne(r: RunId, n: Name)
    ensures OnRun(r, [n]) == [(r, n)] && OnRun(r, []) == []
  {
  }

  lemma InitKnown(runs: RunTable, init: seq<Pair>, r: RunId, n: Name)
    requires Known(runs, init + [(r, n)]) && AllRunning(runs, init + [(r, n)]) && DistinctPairs(init + [(r, n)])
    ensures Known(runs, init) && AllRunning(runs, init) && DistinctPairs(init)
    ensures r in runs && n in runs[r].agents
  {
    var pairs := init + [(r, n)];
    assert pairs[..|pairs| - 1] == init && pairs[|pairs| - 1] == (r, n);
    forall i | 0 <= i < |init| ensures init[i] == pairs[i] {
    }
  }

  ghost predicate AllGood(runs: RunTable) {
    forall r :: r in runs ==> Good(runs[r])
  }

  lemma GoodRun(runs: RunTable, r: RunId)
    requires AllGood(runs) && r in runs
    ensures Good(runs[r])
  {
  }

  lemma LastPair(pairs: seq<Pair>)
    requires pairs != []
    ensures var last := pairs[|pairs| - 1]; pairs == pairs[..|pairs| - 1] + [(last.0, last.1)]
  {
  }

  // The pass requeues exactly the stale agents that have a retry left, once each.
  lemma {:induction false} HintsAreRetries(runs: RunTable, pairs: seq<Pair>)
    requires Known(runs, pairs) && AllRunning(runs, pairs) && DistinctPairs(pairs)
    requires AllGood(runs)
    ensures StoreHints(runs, pairs) == Retryable(runs, pairs)
    decreases |pairs|, 1
  {
    if pairs == [] {
    } else {
      var init, last := pairs[..|pairs| - 1], pairs[|pairs| - 1];
      LastPair(pairs);
      HintsAreRetriesNext(runs, init, last.0, last.1, pairs);
    }
  }

  lemma {:induction false} HintsAreRetriesNext(runs: RunTable, init: seq<Pair>, r: RunId, n: Name, pairs: seq<Pair>)
    requires Known(runs, pairs) && AllRunning(runs, pairs) && DistinctPairs(pairs)
    requires AllGood(runs) && |pairs| == |init| + 1 && pairs == init + [(r, n)]
    ensures StoreHints(runs, pairs) == Retryable(runs, pairs)
    decreases |pairs|, 0
  {
    InitKnown(runs, init, r, n);
    HintsAreRetries(runs, init);
    GoodRun(runs, r);
    LastHint(runs, init, r, n);
    LastHintUnfolds(runs, init, r, n);
    OnRunOne(r, n);
  }

  lemma {:induction false} RetryableDistinct(runs: RunTable, pairs: seq<Pair>)
    requires Known(runs, pairs) && DistinctPairs(pairs)
    ensures DistinctPairs(Retryable(runs, pairs))
    ensures forall p :: p in Retryable(runs, pairs) ==> p in pairs
  {
    if pairs == [] {
    } else {
      var init, last := pairs[..|pairs| - 1], pairs[|pairs| - 1];
      assert pairs == init + [last];
      RetryableDistinct(runs, init);
      var before := Retryable(runs, init);
      if CanRetry(runs[last.0].agents[last.1]) {
        assert (before + [last])[..|before|] == before;
      } else {
        assert Retryable(runs, pairs) == before;
      }
    }
  }

  // The agents reported are those whose policy still grants a retry.
  lemma {:induction false} RetryableMeans(runs: RunTable, pairs: seq<Pair>, p: Pair)
    requires Known(runs, pairs)
    ensures p in Retryable(runs, pairs) <==>
              p in pairs
              && var a := runs[p.0].agents[p.1]; a.onFailure == Retry && a.retryAttempt < a.retryCount
  {
    if pairs == [] {
    } else {
      var init, last := pairs[..|pairs| - 1], pairs[|pairs| - 1];
      RetryableMeans(runs, init, p);
      assert pairs == init + [last];
    }
  }

  // The runs that are rolled up after the pass are those with a stale row.
  lemma RunsOfMembers(pairs: seq<Pair>, r: RunId)
    ensures r in RunsOf(pairs) <==> exists n :: (r, n) in pairs
  {
    if n :| (r, n) in pairs {
      var i :| 0 <= i < |pairs| && pairs[i] == (r, n);
      assert pairs[i].0 == r;
    }
    if r in RunsOf(pairs) {
      var i :| 0 <= i < |pairs| && pairs[i].0 == r;
      assert (r, pairs[i].1) == pairs[i];
    }
  }

  lemma {:induction false} OfRunNone(pairs: seq<Pair>, r: RunId)
    requires forall n :: (r, n) !in pairs
    ensures OfRun(pairs, r) == []
  {
    if pairs == [] {
    } else {
      var init, last := pairs[..|pairs| - 1], pairs[|pairs| - 1];
      assert pairs == init + [last] && last == (last.0, last.1);
      OfRunNone(init, r);
    }
  }

  // Every run with a stale row is rolled up after the pass, and no other run changes.
  lemma AffectedRunsRollUp(runs: RunTable, pairs: seq<Pair>, r: RunId)
    requires Known(runs, pairs) && r in runs
    ensures var after := RefreshAll(StoreExpire(runs, pairs), RunsOf(pairs));
            && ((exists n :: (r, n) in pairs) ==> after[r] == Refresh(StoreExpire(runs, pairs)[r]))
            && ((forall n :: (r, n) !in pairs) ==> after[r] == runs[r])
  {
    RunsOfMembers(pairs, r);
    if forall n :: (r, n) !in pairs {
      PassSplitsByRun(runs, pairs, r);
      OfRunNone(pairs, r);
      assert ReadRows(runs[r], []) == [];
    }
  }
}
