/**
 Dependency graphs of a plan: chains, cycles and dependency layers.

 A graph maps every agent to the set of agents it depends on.  A dependency may
 name an agent that the plan does not have; `Closed` says that none does.
 */
module Graph {

  type Name = string

  type Deps = map<Name, set<Name>>

  // Every entry of the sequence is a dependency of the entry after it.
  ghost predicate Chain(deps: Deps, p: seq<Name>) {
    forall i :: 0 < i < |p| ==> p[i] in deps && p[i - 1] in deps[p[i]]
  }

  ghost predicate Cycle(deps: Deps, p: seq<Name>) {
    |p| >= 2 && Chain(deps, p) && p[0] == p[|p| - 1]
  }

  ghost predicate Acyclic(deps: Deps) {
    forall p :: !Cycle(deps, p)
  }

  ghost predicate Closed(deps: Deps) {
    forall n, d :: n in deps && d in deps[n] ==> d in deps
  }

  ghost predicate ChainBetween(deps: Deps, p: seq<Name>, a: Name, b: Name) {
    |p| >= 1 && Chain(deps, p) && p[0] == a && p[|p| - 1] == b
  }

  // `b` is `a` itself or one of its transitive dependents.
  ghost predicate Reaches(deps: Deps, a: Name, b: Name) {
    exists p :: ChainBetween(deps, p, a, b)
  }

  // Levels that grow from every dependency to its dependents.
  ghost predicate Ranks(deps: Deps, rank: Name -> int) {
    forall n, d :: n in deps && d in deps[n] ==> rank(d) < rank(n)
  }

  // The members of `stuck` all wait for one another.
  ghost predicate Stuck(deps: Deps, stuck: set<Name>) {
    stuck != {} && forall n :: n in stuck ==> n in deps && deps[n] * stuck != {}
  }

  // ---------------------------------------------------------------------------
  // Cycles
  // ---------------------------------------------------------------------------

  lemma {:induction false} ChainClimbs(deps: Deps, rank: Name -> int, p: seq<Name>)
    requires Ranks(deps, rank) && Chain(deps, p) && |p| >= 1
    ensures rank(p[0]) + |p| - 1 <= rank(p[|p| - 1])
  {
    if |p| == 1 {
    } else {
      ChainClimbs(deps, rank, p[..|p| - 1]);
    }
  }

  lemma RanksExcludeCycles(deps: Deps, rank: Name -> int)
    requires Ranks(deps, rank)
    ensures Acyclic(deps)
  {
    forall p | Cycle(deps, p) ensures false {
      ChainClimbs(deps, rank, p);
    }
  }

  lemma {:induction false} Elements(p: seq<Name>, all: set<Name>)
    requires forall i :: 0 <= i < |p| ==> p[i] in all
    requires forall i, j :: 0 <= i < j < |p| ==> p[i] != p[j]
    ensures |p| <= |all|
  {
    if p == [] {
    } else {
      var last := p[|p| - 1];
      Elements(p[..|p| - 1], all - {last});
    }
  }

  // A walk that goes from dependent to dependency inside `stuck` never has to end.
  lemma {:induction false} StuckWalk(deps: Deps, stuck: set<Name>, k: nat) returns (p: seq<Name>)
    requires Stuck(deps, stuck)
    ensures |p| == k + 1 && Chain(deps, p) && forall i :: 0 <= i < |p| ==> p[i] in stuck
  {
    if k == 0 {
      var n :| n in stuck;
      p := [n];
    } else {
      var q := StuckWalk(deps, stuck, k - 1);
      var d :| d in deps[q[0]] * stuck;
      p := [d] + q;
      assert forall i :: 0 < i < |p| ==> p[i] == q[i - 1];
    }
  }

  lemma StuckMeansCycle(deps: Deps, stuck: set<Name>)
    requires Stuck(deps, stuck)
    ensures !Acyclic(deps)
  {
    var p := StuckWalk(deps, stuck, |stuck|);
    if forall i, j :: 0 <= i < j < |p| ==> p[i] != p[j] {
      Elements(p, stuck);
      assert false;
    }
    var i, j :| 0 <= i < j < |p| && p[i] == p[j];
    var c := p[i..j + 1];
    assert forall k :: 0 <= k < |c| ==> c[k] == p[i + k];
    assert Cycle(deps, c);
  }

  // ---------------------------------------------------------------------------
  // Layers
  // ---------------------------------------------------------------------------

  // The agents outside `done` whose dependencies are all inside it.
  function Unblocked(deps: Deps, done: set<Name>): set<Name> {
    set n | n in deps && n !in done && deps[n] <= done
  }

  function DoneBefore(deps: Deps, k: nat): set<Name> {
    if k == 0 then {} else DoneBefore(deps, k - 1) + Unblocked(deps, DoneBefore(deps, k - 1))
  }

  function Layer(deps: Deps, k: nat): set<Name> {
    Unblocked(deps, DoneBefore(deps, k))
  }

  // The layers use up the whole graph.
  ghost predicate Exhausted(deps: Deps, k: nat) {
    DoneBefore(deps, k) == deps.Keys
  }

  lemma {:induction false} DoneBeforeIsLayers(deps: Deps, k: nat)
    ensures DoneBefore(deps, k) <= deps.Keys
    ensures forall n :: n in DoneBefore(deps, k) <==> exists j: nat :: j < k && n in Layer(deps, j)
    ensures forall n :: n in DoneBefore(deps, k) ==> deps[n] <= DoneBefore(deps, k)
  {
    if k == 0 {
    } else {
      DoneBeforeIsLayers(deps, k - 1);
      assert DoneBefore(deps, k) == DoneBefore(deps, k - 1) + Layer(deps, k - 1);
      forall n | n in DoneBefore(deps, k) ensures exists j: nat :: j < k && n in Layer(deps, j) {
        if n in Layer(deps, k - 1) {
        } else {
          var j: nat :| j < k - 1 && n in Layer(deps, j);
        }
      }
      forall n, j: nat | j < k && n in Layer(deps, j) ensures n in DoneBefore(deps, k) {
        if j < k - 1 {
          assert n in DoneBefore(deps, k - 1);
        }
      }
    }
  }

  lemma {:induction false} DoneBeforeGrows(deps: Deps, j: nat, k: nat)
    requires j <= k
    ensures DoneBefore(deps, j) <= DoneBefore(deps, k)
    decreases k
  {
    if j == k {
    } else {
      DoneBeforeGrows(deps, j, k - 1);
    }
  }

  lemma LayersDisjoint(deps: Deps, j: nat, k: nat)
    requires j < k
    ensures Layer(deps, j) !! Layer(deps, k)
  {
    DoneBeforeGrows(deps, j + 1, k);
    assert DoneBefore(deps, j + 1) == DoneBefore(deps, j) + Layer(deps, j);
  }

  // Some dependency path of k + 1 agents ends in every agent of layer k ...
  lemma {:induction false} LayerHasChain(deps: Deps, k: nat, n: Name) returns (p: seq<Name>)
    requires n in Layer(deps, k)
    ensures |p| == k + 1 && Chain(deps, p) && p[k] == n
  {
    if k == 0 {
      p := [n];
    } else {
      assert DoneBefore(deps, k) == DoneBefore(deps, k - 1) + Layer(deps, k - 1);
      assert !(deps[n] <= DoneBefore(deps, k - 1));
      var d :| d in deps[n] && d !in DoneBefore(deps, k - 1);
      var q := LayerHasChain(deps, k - 1, d);
      p := q + [n];
      assert forall i :: 0 <= i < |q| ==> p[i] == q[i];
    }
  }

  // ... and no longer one does.
  lemma {:induction false} LayerBoundsChains(deps: Deps, k: nat, p: seq<Name>)
    requires |p| >= 1 && Chain(deps, p) && p[|p| - 1] in Layer(deps, k)
    ensures |p| <= k + 1
    decreases |p|
  {
    if |p| == 1 {
    } else {
      var q := p[..|p| - 1];
      assert q[|q| - 1] in deps[p[|p| - 1]];
      DoneBeforeIsLayers(deps, k);
      var j: nat :| j < k && q[|q| - 1] in Layer(deps, j);
      LayerBoundsChains(deps, j, q);
    }
  }

  // The layer of an agent is the length of its longest dependency path, and no
  // other assignment that puts dependencies strictly below dependents is lower.
  lemma LayerIsLongestPath(deps: Deps, k: nat, n: Name)
    requires n in Layer(deps, k)
    ensures exists p :: |p| == k + 1 && Chain(deps, p) && p[k] == n
    ensures forall p :: |p| >= 1 && Chain(deps, p) && p[|p| - 1] == n ==> |p| <= k + 1
    ensures forall level: Name -> nat ::
              (forall m, d :: m in deps && d in deps[m] ==> level(d) < level(m)) ==> k <= level(n)
  {
    var p := LayerHasChain(deps, k, n);
    forall q | |q| >= 1 && Chain(deps, q) && q[|q| - 1] == n ensures |q| <= k + 1 {
      LayerBoundsChains(deps, k, q);
    }
    forall level: Name -> nat | forall m, d :: m in deps && d in deps[m] ==> level(d) < level(m)
      ensures k <= level(n)
    {
      ChainClimbs(deps, (x: Name) => level(x) as int, p);
    }
  }

  // The number of the layer that holds `n`, or `k` when none below `k` does.
  function LayerIndex(deps: Deps, k: nat, n: Name): (r: int)
    ensures 0 <= r <= k
    ensures r < k ==> n in Layer(deps, r)
    ensures forall j: nat :: j < r ==> n !in Layer(deps, j)
  {
    if k == 0 then 0
    else
      var r := LayerIndex(deps, k - 1, n);
      if r < k - 1 then r else if n in Layer(deps, k - 1) then k - 1 else k
  }

  lemma ExhaustedMeansAcyclic(deps: Deps, k: nat)
    requires Exhausted(deps, k)
    ensures Closed(deps) && Acyclic(deps)
  {
    var rank := (n: Name) => LayerIndex(deps, k, n);
    forall n, d | n in deps && d in deps[n] ensures d in deps && rank(d) < rank(n) {
      DependencyLower(deps, k, n, d);
    }
    assert Ranks(deps, rank);
    RanksExcludeCycles(deps, rank);
  }

  lemma DependencyLower(deps: Deps, k: nat, n: Name, d: Name)
    requires Exhausted(deps, k) && n in deps && d in deps[n]
    ensures d in deps && LayerIndex(deps, k, d) < LayerIndex(deps, k, n)
  {
    DoneBeforeIsLayers(deps, k);
    var i := LayerIndex(deps, k, n);
    assert i < k;
    DoneBeforeIsLayers(deps, i);
    assert d in DoneBefore(deps, i);
    var j: nat :| j < i && d in Layer(deps, j);
    assert LayerIndex(deps, k, d) <= j;
  }

  // An empty layer with work left over exposes an unknown dependency or a cycle.
  lemma EmptyLayerMeansStuck(deps: Deps, done: set<Name>)
    requires done <= deps.Keys && done != deps.Keys && Unblocked(deps, done) == {}
    ensures !Closed(deps) || !Acyclic(deps)
  {
    if Closed(deps) {
      var rest := deps.Keys - done;
      forall n | n in rest ensures n in deps && deps[n] * rest != {} {
        assert n !in Unblocked(deps, done);
        var d :| d in deps[n] && d !in done;
        assert d in deps[n] * rest;
      }
      StuckMeansCycle(deps, rest);
    }
  }

  lemma {:induction false} DoneBeforeProgress(deps: Deps, k: nat)
    requires Closed(deps) && Acyclic(deps)
    ensures Exhausted(deps, k) || |DoneBefore(deps, k)| >= k
  {
    if k == 0 {
    } else {
      DoneBeforeProgress(deps, k - 1);
      DoneBeforeIsLayers(deps, k - 1);
      OneMoreLayer(deps, DoneBefore(deps, k - 1));
    }
  }

  lemma OneMoreLayer(deps: Deps, done: set<Name>)
    requires Closed(deps) && Acyclic(deps) && done <= deps.Keys
    ensures var next := done + Unblocked(deps, done);
            next == deps.Keys || (|next| > |done| && done != deps.Keys)
    ensures done == deps.Keys ==> Unblocked(deps, done) == {}
  {
    var layer := Unblocked(deps, done);
    if done != deps.Keys {
      if layer == {} {
        EmptyLayerMeansStuck(deps, done);
      }
      var n :| n in layer;
      SubsetSize(done + {n}, done + layer);
      assert |done + {n}| == |done| + 1;
    }
  }

  lemma {:induction false} SubsetSize<T>(a: set<T>, b: set<T>)
    requires a <= b
    ensures |a| <= |b|
    ensures |a| == |b| ==> a == b
  {
    if a == {} {
    } else {
      var x :| x in a;
      SubsetSize(a - {x}, b - {x});
    }
  }

  // A layer is never empty before the graph is used up, so it takes at most one layer an agent.
  lemma LayersSuffice(deps: Deps, k: nat)
    requires Closed(deps) && Acyclic(deps) && k >= |deps.Keys|
    ensures Exhausted(deps, k)
  {
    DoneBeforeProgress(deps, k);
    DoneBeforeIsLayers(deps, k);
    SubsetSize(DoneBefore(deps, k), deps.Keys);
  }

  lemma LayersExhaustIffAcyclic(deps: Deps)
    ensures (exists k: nat :: Exhausted(deps, k)) <==> Closed(deps) && Acyclic(deps)
  {
    if Closed(deps) && Acyclic(deps) {
      LayersSuffice(deps, |deps.Keys|);
    }
    if k: nat :| Exhausted(deps, k) {
      ExhaustedMeansAcyclic(deps, k);
    }
  }
}
