/**
 The graph algorithms of `spawnd/core/deps.py`: Kahn's order, dependency layers
 and the subtree below an agent.
 */
module DependencyGraphs {
  import opened Graph
  import opened Plan

  // No agent appears twice, and none before one of its dependencies.
  ghost predicate DependenciesFirst(deps: Deps, order: seq<Name>) {
    && Distinct(order)
    && forall i :: 0 <= i < |order| ==> order[i] in deps && deps[order[i]] <= Members(order[..i])
  }

  // Moreover every agent appears.
  ghost predicate DependencyOrder(deps: Deps, order: seq<Name>) {
    DependenciesFirst(deps, order) && Members(order) == deps.Keys
  }

  /**
   A loop over the dictionary visits its keys in an order that the model leaves
   open; what is proved holds for every order.
   */
  class DependencyGraph {
    const deps: Deps

    constructor (agents: seq<AgentSpec>)
      ensures deps == DepsOf(agents)
    {
      deps := DepsOf(agents);
    }

    /**
     Kahn's algorithm.  `None` stands for the circular-dependency error.  A
     dependency that the plan does not have is never dequeued, so it is reported
     in the same way.
     */
    method TopologicalOrder() returns (result: Option<seq<Name>>)
      ensures result.Some? <==> Closed(deps) && Acyclic(deps)
      ensures result.Some? ==> DependencyOrder(deps, result.value)
    {
      var inDegree: map<Name, int> := map n | n in deps :: |deps[n]|;
      var queue := Roots(inDegree);
      var order: seq<Name> := [];
      StartCounting(deps, inDegree);
      while queue != []
        invariant KahnState(deps, inDegree, order, queue)
        decreases |deps| - |order|
      {
        var node := queue[0];
        KahnHead(deps, inDegree, order, queue);
        var before, rest := inDegree, queue[1..];
        inDegree, queue := Dequeue(node, inDegree, rest);
        KahnStep(deps, before, inDegree, order, node, rest, queue);
        order := order + [node];
      }
      if |order| != |deps| {
        IncompleteOrder(deps, inDegree, order);
        return None;
      }
      DistinctSize(order);
      SubsetSize(Members(order), deps.Keys);
      OrderMeansAcyclic(deps, order);
      return Some(order);
    }

    /** The agents without dependencies start the queue. */
    method Roots(inDegree: map<Name, int>) returns (queue: seq<Name>)
      ensures Distinct(queue) && Members(queue) == Zeros(inDegree)
    {
      queue := [];
      var todo := inDegree.Keys;
      while todo != {}
        invariant todo <= inDegree.Keys
        invariant Distinct(queue) && Members(queue) == Zeros(inDegree) - todo
      {
        var n :| n in todo;
        todo := todo - {n};
        if inDegree[n] == 0 {
          AppendNew(queue, n);
          queue := queue + [n];
        }
      }
    }

    /** The inner loop: `node` leaves the in-degree of each of its dependents. */
    method Dequeue(node: Name, degree: map<Name, int>, waiting: seq<Name>)
      returns (inDegree: map<Name, int>, queue: seq<Name>)
      requires degree.Keys == deps.Keys && Distinct(waiting) && Members(waiting) <= Zeros(degree)
      requires forall n :: n in deps && node in deps[n] ==> degree[n] > 0
      ensures LessOne(deps, degree, inDegree, node)
      ensures Distinct(queue) && Members(queue) == Members(waiting) + (Zeros(inDegree) - Zeros(degree))
    {
      DegreesBefore(deps, degree, node);
      inDegree, queue := degree, waiting;
      var todo := deps.Keys;
      while todo != {}
        invariant todo <= deps.Keys && LessSome(deps, degree, inDegree, node, todo)
        invariant Distinct(queue) && Members(queue) == Members(waiting) + (Zeros(inDegree) - Zeros(degree))
      {
        var name :| name in todo;
        todo := todo - {name};
        if node in deps[name] {
          ZerosAfter(inDegree, name);
          assert name !in Zeros(degree) && name !in Members(queue);
          inDegree := inDegree[name := inDegree[name] - 1];
          if inDegree[name] == 0 {
            AppendNew(queue, name);
            queue := queue + [name];
          }
        }
      }
    }

    method GetDependents(name: Name) returns (dependents: seq<Name>)
      ensures forall n :: n in dependents <==> n in deps && name in deps[n]
    {
      dependents := [];
      var todo := deps.Keys;
      while todo != {}
        invariant todo <= deps.Keys
        invariant forall n :: n in dependents <==> n in deps && n !in todo && name in deps[n]
      {
        var n :| n in todo;
        todo := todo - {n};
        if name in deps[n] {
          dependents := dependents + [n];
        }
      }
    }

    /** The agent and everything that depends on it, directly or not. */
    method GetSubtree(name: Name) returns (subtree: set<Name>)
      ensures forall n :: n in subtree <==> Reaches(deps, name, n)
    {
      subtree := {name};
      var queue := [name];
      assert ChainBetween(deps, [name], name, name);
      while queue != []
        invariant name in subtree && subtree <= {name} + deps.Keys
        invariant forall n :: n in queue ==> n in subtree
        invariant forall n :: n in subtree ==> Reaches(deps, name, n)
        invariant forall n, m :: n in subtree && n !in queue && m in deps && n in deps[m] ==> m in subtree
        decreases ({name} + deps.Keys) - subtree, |queue|
      {
        var current := queue[0];
        ghost var queue0, subtree0 := queue, subtree;
        queue := queue[1..];
        var dependents := GetDependents(current);
        for i := 0 to |dependents|
          invariant subtree0 <= subtree <= {name} + deps.Keys
          invariant forall n :: n in queue ==> n in subtree
          invariant forall n :: n in queue0[1..] ==> n in queue
          invariant forall n :: n in subtree ==> Reaches(deps, name, n)
          invariant forall n :: n in dependents[..i] ==> n in subtree
          invariant forall n :: n in subtree && n !in subtree0 ==> n in queue
          invariant subtree == subtree0 ==> queue == queue0[1..]
        {
          if dependents[i] !in subtree {
            ReachesNext(deps, name, current, dependents[i]);
            subtree := subtree + {dependents[i]};
            queue := queue + [dependents[i]];
          }
        }
        assert dependents[..|dependents|] == dependents;
        assert queue0 == [current] + queue0[1..];
      }
      forall n | Reaches(deps, name, n) ensures n in subtree {
        var p :| ChainBetween(deps, p, name, n);
        ClosedUnderChains(deps, subtree, p);
      }
    }

    /** The layers in the order they are yielded; `raised` is the error that ends a cyclic graph. */
    method IterLayers() returns (layers: seq<set<Name>>, raised: bool)
      ensures forall i :: 0 <= i < |layers| ==> layers[i] == Layer(deps, i) && layers[i] != {}
      ensures !raised <==> Exhausted(deps, |layers|)
      ensures !raised <==> Closed(deps) && Acyclic(deps)
    {
      layers, raised := [], false;
      var remaining := deps.Keys;
      var completed: set<Name> := {};
      while remaining != {}
        invariant completed == DoneBefore(deps, |layers|) && completed <= deps.Keys
        invariant remaining == deps.Keys - completed
        invariant forall i :: 0 <= i < |layers| ==> layers[i] == Layer(deps, i) && layers[i] != {}
      {
        var layer := set n | n in remaining && deps[n] <= completed;
        assert layer == Layer(deps, |layers|);
        if layer == {} {
          EmptyLayerMeansStuck(deps, completed);
          return layers, true;
        }
        layers := layers + [layer];
        completed := completed + layer;
        remaining := remaining - layer;
      }
      assert completed == deps.Keys;
      ExhaustedMeansAcyclic(deps, |layers|);
    }

    /** Unknown dependencies and cycles; the graph is usable iff nothing is reported. */
    method Validate() returns (unknown: seq<(Name, set<Name>)>, circular: bool)
      ensures unknown == [] <==> Closed(deps)
      ensures forall u :: u in unknown <==> u.0 in deps && u.1 == deps[u.0] - deps.Keys && u.1 != {}
      ensures circular <==> !(Closed(deps) && Acyclic(deps))
    {
      unknown := [];
      var todo := deps.Keys;
      while todo != {}
        invariant todo <= deps.Keys
        invariant forall u :: u in unknown <==> u.0 in deps && u.0 !in todo && u.1 == deps[u.0] - deps.Keys && u.1 != {}
        invariant unknown == [] <==> forall n :: n in deps && n !in todo ==> deps[n] <= deps.Keys
      {
        var n :| n in todo;
        todo := todo - {n};
        var missing := deps[n] - deps.Keys;
        if missing == {} {
          NoneMissing(deps[n], deps.Keys);
        } else {
          unknown := unknown + [(n, missing)];
        }
      }
      var order := TopologicalOrder();
      circular := order.None?;
    }
  }

  lemma ExtendOrder(deps: Deps, order: seq<Name>, node: Name)
    requires DependenciesFirst(deps, order)
    requires node in deps && node !in order && deps[node] <= Members(order)
    ensures DependenciesFirst(deps, order + [node])
    ensures Members(order + [node]) == Members(order) + {node}
  {
    var longer := order + [node];
    AppendNew(order, node);
    forall i | 0 <= i < |longer| ensures longer[i] in deps && deps[longer[i]] <= Members(longer[..i]) {
      assert longer[..i] == order[..i];
      assert order[..|order|] == order;
    }
  }

  // Every in-degree is the number of dependencies that were not dequeued yet.
  ghost predicate Counted(deps: Deps, inDegree: map<Name, int>, seen: set<Name>) {
    && inDegree.Keys == deps.Keys
    && forall n {:trigger CountedAt(deps, inDegree, seen, n)} :: n in deps ==> CountedAt(deps, inDegree, seen, n)
  }

  ghost predicate CountedAt(deps: Deps, inDegree: map<Name, int>, seen: set<Name>, n: Name)
    requires n in deps && n in inDegree
  {
    inDegree[n] == |deps[n] - seen|
  }

  ghost predicate LessOne(deps: Deps, before: map<Name, int>, after: map<Name, int>, node: Name) {
    && before.Keys == after.Keys == deps.Keys
    && forall n :: n in deps ==> after[n] == before[n] - if node in deps[n] then 1 else 0
  }

  // As far as the agents outside `todo` are concerned.
  ghost predicate LessSome(deps: Deps, before: map<Name, int>, after: map<Name, int>, node: Name, todo: set<Name>) {
    && before.Keys == after.Keys == deps.Keys
    && forall n :: n in deps ==> after[n] == before[n] - if n !in todo && node in deps[n] then 1 else 0
  }

  lemma DegreesBefore(deps: Deps, degree: map<Name, int>, node: Name)
    requires degree.Keys == deps.Keys
    ensures LessSome(deps, degree, degree, node, deps.Keys)
  {
  }

  lemma ZerosAfter(inDegree: map<Name, int>, name: Name)
    requires name in inDegree && inDegree[name] > 0
    ensures name !in Zeros(inDegree)
    ensures Zeros(inDegree[name := inDegree[name] - 1]) == Zeros(inDegree) + if inDegree[name] == 1 then {name} else {}
  {
  }

  lemma CountedZero(deps: Deps, inDegree: map<Name, int>, seen: set<Name>, node: Name)
    requires Counted(deps, inDegree, seen) && node in deps && inDegree[node] == 0 && node !in seen
    ensures deps[node] <= seen
    ensures forall n :: n in deps && node in deps[n] ==> inDegree[n] > 0
  {
    assert CountedAt(deps, inDegree, seen, node);
    NoneMissing(deps[node], seen);
    forall n | n in deps && node in deps[n] ensures inDegree[n] > 0 {
      assert CountedAt(deps, inDegree, seen, n) && node in deps[n] - seen;
    }
  }

  lemma CountDown(deps: Deps, before: map<Name, int>, after: map<Name, int>, seen: set<Name>, node: Name)
    requires Counted(deps, before, seen) && LessOne(deps, before, after, node) && node !in seen
    ensures Counted(deps, after, seen + {node})
  {
    forall n | n in deps ensures CountedAt(deps, after, seen + {node}, n) {
      assert CountedAt(deps, before, seen, n);
      if node in deps[n] {
        assert deps[n] - seen == (deps[n] - (seen + {node})) + {node};
      } else {
        assert deps[n] - seen == deps[n] - (seen + {node});
      }
    }
  }

  // The queue holds the agents whose dependencies are all in the order.
  ghost predicate KahnState(deps: Deps, inDegree: map<Name, int>, order: seq<Name>, queue: seq<Name>) {
    && Counted(deps, inDegree, Members(order))
    && DependenciesFirst(deps, order) && Distinct(queue)
    && Members(order) !! Members(queue)
    && Zeros(inDegree) == Members(order) + Members(queue)
  }

  lemma KahnHead(deps: Deps, inDegree: map<Name, int>, order: seq<Name>, queue: seq<Name>)
    requires KahnState(deps, inDegree, order, queue) && queue != []
    ensures queue[0] in deps && queue[0] !in order && deps[queue[0]] <= Members(order)
    ensures Distinct(queue[1..]) && queue[0] !in queue[1..]
    ensures Zeros(inDegree) == Members(order) + {queue[0]} + Members(queue[1..])
    ensures Members(order) !! Members(queue[1..])
    ensures inDegree.Keys == deps.Keys
    ensures forall n :: n in deps && queue[0] in deps[n] ==> inDegree[n] > 0
  {
    DistinctHead(queue);
    assert queue[0] in Members(queue);
    CountedZero(deps, inDegree, Members(order), queue[0]);
  }

  lemma KahnStep(deps: Deps, before: map<Name, int>, after: map<Name, int>,
                 order: seq<Name>, node: Name, rest: seq<Name>, queue: seq<Name>)
    requires Counted(deps, before, Members(order)) && LessOne(deps, before, after, node)
    requires DependenciesFirst(deps, order) && node in deps && node !in order && deps[node] <= Members(order)
    requires forall n :: n in deps && node in deps[n] ==> before[n] > 0
    requires Members(order) !! Members(rest) && node !in rest
    requires Zeros(before) == Members(order) + {node} + Members(rest)
    requires Distinct(queue) && Members(queue) == Members(rest) + (Zeros(after) - Zeros(before))
    ensures KahnState(deps, after, order + [node], queue)
    ensures |order| < |deps|
  {
    CountDown(deps, before, after, Members(order), node);
    ExtendOrder(deps, order, node);
    OrderFits(order + [node], deps.Keys);
    assert Zeros(before) <= Zeros(after);
  }

  lemma IncompleteOrder(deps: Deps, inDegree: map<Name, int>, order: seq<Name>)
    requires Counted(deps, inDegree, Members(order)) && Zeros(inDegree) == Members(order)
    requires Distinct(order) && |order| != |deps|
    ensures !(Closed(deps) && Acyclic(deps))
  {
    DistinctSize(order);
    if Closed(deps) {
      var rest := deps.Keys - Members(order);
      if rest == {} {
        NoneMissing(deps.Keys, Members(order));
        SubsetSize(Members(order), deps.Keys);
      }
      forall n | n in rest ensures n in deps && deps[n] * rest != {} {
        assert CountedAt(deps, inDegree, Members(order), n) && n !in Zeros(inDegree);
        assert deps[n] - Members(order) != {};
        var d :| d in deps[n] - Members(order);
        assert d in deps[n] * rest;
      }
      StuckMeansCycle(deps, rest);
    }
  }

  lemma NoneMissing(a: set<Name>, b: set<Name>)
    requires |a - b| == 0
    ensures a <= b
  {
    assert forall x :: x in a && x !in b ==> x in a - b;
  }

  ghost function Zeros(inDegree: map<Name, int>): set<Name> {
    set n | n in inDegree && inDegree[n] == 0
  }

  lemma StartCounting(deps: Deps, inDegree: map<Name, int>)
    requires inDegree == map n | n in deps :: |deps[n]|
    ensures Counted(deps, inDegree, Members([]))
  {
    forall n | n in deps ensures CountedAt(deps, inDegree, Members([]), n) {
      assert deps[n] - Members([]) == deps[n];
    }
  }

  lemma DistinctHead(queue: seq<Name>)
    requires Distinct(queue) && queue != []
    ensures queue[0] !in queue[1..] && Distinct(queue[1..])
    ensures Members(queue) == {queue[0]} + Members(queue[1..])
  {
    assert queue == [queue[0]] + queue[1..];
    DistinctPositions(queue);
    DistinctSlice(queue, 1, |queue|);
    assert queue[1..] == queue[1..|queue|];
  }

  lemma OrderFits(order: seq<Name>, names: set<Name>)
    requires Distinct(order) && Members(order) <= names
    ensures |order| <= |names|
  {
    DistinctSize(order);
    SubsetSize(Members(order), names);
  }

  function Position(order: seq<Name>, n: Name): (r: nat)
    ensures r <= |order|
    ensures r < |order| ==> order[r] == n
    ensures n !in order[..r]
    ensures r == |order| ==> n !in order
  {
    if order == [] then 0
    else if order[0] == n then 0
    else
      var r := Position(order[1..], n);
      assert order[..r + 1] == [order[0]] + order[1..][..r];
      assert order == [order[0]] + order[1..];
      r + 1
  }

  lemma OrderMeansAcyclic(deps: Deps, order: seq<Name>)
    requires DependencyOrder(deps, order)
    ensures Closed(deps) && Acyclic(deps)
  {
    var rank := (n: Name) => Position(order, n) as int;
    forall n, d | n in deps && d in deps[n] ensures d in deps && rank(d) < rank(n) {
      assert n in Members(order);
      var i := Position(order, n);
      assert d in Members(order[..i]);
      var j :| 0 <= j < i && order[j] == d;
      assert d in Members(order);
    }
    assert Ranks(deps, rank);
    RanksExcludeCycles(deps, rank);
  }

  lemma ReachesNext(deps: Deps, a: Name, b: Name, c: Name)
    requires Reaches(deps, a, b) && c in deps && b in deps[c]
    ensures Reaches(deps, a, c)
  {
    var p :| ChainBetween(deps, p, a, b);
    var q := p + [c];
    assert forall i :: 0 <= i < |p| ==> q[i] == p[i];
    assert ChainBetween(deps, q, a, c);
  }

  lemma {:induction false} ClosedUnderChains(deps: Deps, within: set<Name>, p: seq<Name>)
    requires |p| >= 1 && Chain(deps, p) && p[0] in within
    requires forall n, m :: n in within && m in deps && n in deps[m] ==> m in within
    ensures p[|p| - 1] in within
  {
    if |p| == 1 {
    } else {
      ClosedUnderChains(deps, within, p[..|p| - 1]);
    }
  }
}
