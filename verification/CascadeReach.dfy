/**
 The failure cascade fails exactly the agents it should: those that a chain of
 waiting dependents connects to the failed agent.
 */
module CascadeReach {
  import opened Graph
  import opened Plan
  import opened RunState
  import opened Transitions
  import opened Invariants
  import opened Blame

  // After its first entry the chain runs through pending and queued agents only.
  ghost predicate WaitingChain(agents: Agents, p: seq<Name>, n: Name) {
    && |p| >= 2 && Chain(Graphed(agents), p) && p[|p| - 1] == n
    && forall i :: 0 < i < |p| ==> p[i] in agents && agents[p[i]].status.Waiting()
  }

  lemma {:induction false} DoomedHasChain(agents: Agents, failed: set<Name>, n: Name) returns (p: seq<Name>)
    requires n in Doomed(agents, failed)
    ensures WaitingChain(agents, p, n) && p[0] in failed
    decreases |agents.Keys - failed|
  {
    var hit := Hit(agents, failed);
    HitShrinks(agents, failed);
    if n in hit {
      p := HitHasChain(agents, failed, n);
    } else {
      p := DoomedHasChain(agents, failed + hit, n);
      if p[0] in hit {
        p := PrependHit(agents, failed, p, n);
      }
    }
  }

  lemma HitHasChain(agents: Agents, failed: set<Name>, n: Name) returns (p: seq<Name>)
    requires n in Hit(agents, failed)
    ensures WaitingChain(agents, p, n) && p[0] in failed
  {
    var d :| d in agents[n].dependsOn * failed;
    p := [d, n];
  }

  lemma PrependHit(agents: Agents, failed: set<Name>, p: seq<Name>, n: Name) returns (q: seq<Name>)
    requires WaitingChain(agents, p, n) && p[0] in Hit(agents, failed)
    ensures WaitingChain(agents, q, n) && q[0] in failed
  {
    var d :| d in agents[p[0]].dependsOn * failed;
    q := [d] + p;
    forall i | 0 < i < |q| ensures q[i] in Graphed(agents) && q[i - 1] in Graphed(agents)[q[i]] {
      assert q[i] == p[i - 1];
      if i > 1 {
        assert q[i - 1] == p[i - 2];
      }
    }
  }

  lemma {:induction false} ChainIsDoomed(agents: Agents, root: Name, p: seq<Name>, n: Name)
    requires WaitingChain(agents, p, n) && p[0] == root
    requires root in agents ==> !agents[root].status.Waiting()
    ensures n in Doomed(agents, {root})
    decreases |p|
  {
    var previous := p[|p| - 2];
    assert previous in Graphed(agents)[n];
    if |p| > 2 {
      var q := p[..|p| - 1];
      ChainIsDoomed(agents, root, q, previous);
    }
    if n !in {root} + Doomed(agents, {root}) {
      DoomedIsClosed(agents, {root}, n);
    }
  }

  // The cascade loop computes the agents that waiting dependents connect to the root.
  lemma DoomedIffChained(agents: Agents, root: Name, n: Name)
    requires root in agents ==> !agents[root].status.Waiting()
    ensures n in Doomed(agents, {root}) <==> exists p :: WaitingChain(agents, p, n) && p[0] == root
  {
    if n in Doomed(agents, {root}) {
      var p := DoomedHasChain(agents, {root}, n);
    }
    if p :| WaitingChain(agents, p, n) && p[0] == root {
      ChainIsDoomed(agents, root, p, n);
    }
  }

  lemma {:induction false} ReachedIsDoomed(agents: Agents, root: Name, p: seq<Name>)
    requires |p| >= 1 && Chain(Graphed(agents), p) && p[0] == root
    requires forall n :: n in agents && n != root && Reaches(Graphed(agents), root, n) ==> agents[n].status.Waiting()
    ensures p[|p| - 1] in {root} + Doomed(agents, {root})
  {
    if |p| == 1 {
    } else {
      var n := p[|p| - 1];
      ReachedIsDoomed(agents, root, p[..|p| - 1]);
      assert p[|p| - 2] in Graphed(agents)[n];
      assert ChainBetween(Graphed(agents), p, root, n);
      if n !in {root} + Doomed(agents, {root}) {
        DoomedIsClosed(agents, {root}, n);
      }
    }
  }

  // When all the transitive dependents still wait, root and cascade are the subtree
  // that `get_subtree` returns.
  lemma CascadeIsSubtree(agents: Agents, root: Name, n: Name)
    requires root in agents && !agents[root].status.Waiting()
    requires forall m :: m in agents && m != root && Reaches(Graphed(agents), root, m) ==> agents[m].status.Waiting()
    ensures n in {root} + Doomed(agents, {root}) <==> Reaches(Graphed(agents), root, n)
  {
    if n in Doomed(agents, {root}) {
      var p := DoomedHasChain(agents, {root}, n);
      assert ChainBetween(Graphed(agents), p, root, n);
    } else if n == root {
      assert ChainBetween(Graphed(agents), [root], root, root);
    }
    if Reaches(Graphed(agents), root, n) {
      var p :| ChainBetween(Graphed(agents), p, root, n);
      ReachedIsDoomed(agents, root, p);
    }
  }

  // A final failure that neither the breaker nor a stop policy takes over: apart from
  // the agent itself, exactly the agents behind it fail, and the others keep their
  // failure state.
  lemma FinalFailureReaches(s: State, n: Name, id: nat, retryable: Option<bool>, requested: Status, m: Name)
    requires MayFinish(s, n, Some(id)) && !WillRetry(s.agents[n], retryable, FinalStatus(requested))
    requires Cascades(Broken(s, n, Some(id), FinalStatus(requested)), s.agents[n].onFailure)
    requires m in s.agents && m != n
    ensures var t := Fail(s, n, Some(id), retryable, requested);
            && t.agents.Keys == s.agents.Keys
            && t.agents[n].status == FinalStatus(requested)
            && ((exists p :: WaitingChain(s.agents, p, m) && p[0] == n) ==> t.agents[m].status == Failed)
            && (!(exists p :: WaitingChain(s.agents, p, m) && p[0] == n) ==>
                  t.agents[m].status == s.agents[m].status
                  || (s.agents[m].status == Pending && t.agents[m].status == Queued))
  {
    var b := Broken(s, n, Some(id), FinalStatus(requested));
    var t := Fail(s, n, Some(id), retryable, requested);
    assert t == MarkReady(Cascade(b, n));
    DoomedWaits(b.agents, {n});
    DoomedIffChained(b.agents, n, m);
    BrokenSameChains(s, n, id, FinalStatus(requested), m);
  }

  lemma BrokenSameChains(s: State, n: Name, id: nat, final: Status, m: Name)
    requires n in s.agents && s.agents[n].status == Running && final.Failure()
    ensures forall p :: WaitingChain(Broken(s, n, Some(id), final).agents, p, m) <==> WaitingChain(s.agents, p, m)
  {
    var b := Broken(s, n, Some(id), final);
    assert Graphed(b.agents) == Graphed(s.agents);
    assert forall k :: k in s.agents ==> (b.agents[k].status.Waiting() <==> s.agents[k].status.Waiting());
  }
}
