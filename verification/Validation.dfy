/**
 Plan validation, `spawnd/io/validation.py`: the depth-first cycle search and the
 checks on agent names and dependencies.
 */
module Validation {
  import opened Graph
  import opened Plan

  // Every walk from `n` to dependencies of dependencies ends within `k` agents.
  ghost predicate Grounded(deps: Deps, n: Name, k: nat)
    decreases k
  {
    k > 0 && (n in deps ==> forall d :: d in deps[n] ==> Grounded(deps, d, k - 1))
  }

  lemma {:induction false} GroundedLonger(deps: Deps, n: Name, j: nat, k: nat)
    requires Grounded(deps, n, j) && j <= k
    ensures Grounded(deps, n, k)
    decreases k
  {
    if n !in deps {
    } else {
      forall d | d in deps[n] ensures Grounded(deps, d, k - 1) {
        GroundedLonger(deps, d, j - 1, k - 1);
      }
    }
  }

  lemma {:induction false} GroundedBoundsChains(deps: Deps, p: seq<Name>, k: nat)
    requires |p| >= 1 && Chain(deps, p) && Grounded(deps, p[|p| - 1], k)
    ensures |p| <= k
    decreases |p|
  {
    if |p| == 1 {
    } else {
      GroundedBoundsChains(deps, p[..|p| - 1], k - 1);
    }
  }

  // Going round a cycle yields chains of every length.
  lemma {:induction false} CycleUnrolls(deps: Deps, c: seq<Name>, k: nat) returns (p: seq<Name>)
    requires Cycle(deps, c)
    ensures |p| > k && Chain(deps, p) && p[|p| - 1] == c[0]
  {
    if k == 0 {
      p := [c[0]];
    } else {
      var q := CycleUnrolls(deps, c, k - 1);
      p := q + c[1..];
      forall i | 0 < i < |p| ensures p[i] in deps && p[i - 1] in deps[p[i]] {
        if i < |q| {
          assert p[i] == q[i] && p[i - 1] == q[i - 1];
        } else {
          assert p[i] == c[i - |q| + 1] && p[i - 1] == c[i - |q|];
        }
      }
    }
  }

  lemma GroundedMeansAcyclic(deps: Deps, k: nat)
    requires forall n :: n in deps ==> Grounded(deps, n, k)
    ensures Acyclic(deps)
  {
    forall c | Cycle(deps, c) ensures false {
      var p := CycleUnrolls(deps, c, k);
      assert c[0] == c[|c| - 1];
      GroundedBoundsChains(deps, p, k);
    }
  }

  ghost function Mentioned(deps: Deps): set<Name> {
    deps.Keys + set n, d | n in deps && d in deps[n] :: d
  }

  // The search shares one `path` between all the calls, as the source does.
  class CycleSearch {
    const deps: Deps
    var path: set<Name>

    constructor (deps: Deps)
      ensures this.deps == deps && path == {}
    {
      this.deps := deps;
      path := {};
    }

    /**
     `stack` lists the agents on the path, latest first.  A hit closes a cycle; a
     miss restores the path and rules out every cycle below `name`.
     */
    method Visit(name: Name, ghost stack: seq<Name>) returns (found: bool)
      requires name in Mentioned(deps)
      requires path == Members(stack) && Chain(deps, [name] + stack)
      modifies this
      ensures found ==> !Acyclic(deps)
      ensures !found ==> path == old(path) && Grounded(deps, name, |Mentioned(deps) - path| + 1)
      decreases Mentioned(deps) - path, 0
    {
      if name in path {
        PathCloses(deps, name, stack);
        return true;
      }
      path := path + {name};
      OneLess(Mentioned(deps), old(path), name);
      assert Members([name] + stack) == path;
      found := VisitAll(name, if name in deps then deps[name] else {}, [name] + stack);
      path := path - {name};
    }

    /** The loop over the dependencies of `name`, which is on the path already. */
    method VisitAll(name: Name, names: set<Name>, ghost stack: seq<Name>) returns (found: bool)
      requires name in path && path == Members(stack) && stack != [] && stack[0] == name && Chain(deps, stack)
      requires names == if name in deps then deps[name] else {}
      modifies this
      ensures found ==> !Acyclic(deps)
      ensures !found ==> path == old(path) && forall d :: d in names ==> Grounded(deps, d, |Mentioned(deps) - path| + 1)
      decreases Mentioned(deps) - path, 1
    {
      var todo := names;
      while todo != {}
        invariant todo <= names && path == old(path)
        invariant forall d :: d in names && d !in todo ==> Grounded(deps, d, |Mentioned(deps) - path| + 1)
      {
        var dep :| dep in todo;
        todo := todo - {dep};
        assert dep in deps[name];
        ChainGrows(deps, dep, stack);
        found := Visit(dep, stack);
        if found {
          return;
        }
      }
      found := false;
    }
  }

  lemma PathCloses(deps: Deps, name: Name, stack: seq<Name>)
    requires Chain(deps, [name] + stack) && name in stack
    ensures !Acyclic(deps)
  {
    var i :| 0 <= i < |stack| && stack[i] == name;
    assert Cycle(deps, ([name] + stack)[..i + 2]);
  }

  lemma ChainGrows(deps: Deps, dep: Name, stack: seq<Name>)
    requires stack != [] && stack[0] in deps && dep in deps[stack[0]] && Chain(deps, stack)
    ensures Chain(deps, [dep] + stack) && dep in Mentioned(deps)
  {
    assert forall i :: 0 < i < |[dep] + stack| ==> ([dep] + stack)[i] == stack[i - 1];
  }

  lemma OneLess(all: set<Name>, path: set<Name>, name: Name)
    requires name in all && name !in path
    ensures all - (path + {name}) < all - path
    ensures |all - path| == |all - (path + {name})| + 1
  {
    assert all - path == (all - (path + {name})) + {name};
  }

  /** The depth-first search finds a cycle iff there is one, unknown dependencies or not. */
  method HasCircularDeps(agents: seq<AgentSpec>) returns (circular: bool)
    ensures circular <==> !Acyclic(DepsOf(agents))
  {
    var deps := DepsOf(agents);
    DepsOfKeys(agents);
    ghost var k := |Mentioned(deps)| + 1;
    for i := 0 to |agents|
      invariant forall j :: 0 <= j < i ==> Grounded(deps, agents[j].name, k)
    {
      var search := new CycleSearch(deps);
      var hit := search.Visit(agents[i].name, []);
      if hit {
        return true;
      }
      assert Mentioned(deps) - {} == Mentioned(deps);
    }
    GroundedMeansAcyclic(deps, k);
    return false;
  }

  datatype PlanError =
    | DuplicateNames
    | UnknownDependency(agent: Name, dependency: Name)
    | CircularDependency

  ghost predicate ValidPlan(agents: seq<AgentSpec>) {
    WellNamed(agents) && Acyclic(DepsOf(agents))
  }

  /** `validate_plan` up to its role and server checks; nothing is reported iff the plan is valid. */
  method ValidatePlan(agents: seq<AgentSpec>) returns (errors: seq<PlanError>)
    ensures errors == [] <==> ValidPlan(agents)
    ensures DuplicateNames in errors <==> !Distinct(NamesOf(agents))
    ensures forall a, d :: UnknownDependency(a, d) in errors <==>
              exists i :: 0 <= i < |agents| && agents[i].name == a && d in agents[i].dependsOn && d !in NamesOf(agents)
    ensures CircularDependency in errors <==> !Acyclic(DepsOf(agents))
  {
    errors := [];
    var names := NamesOf(agents);
    var distinct := CountDistinct(names);
    if |names| != distinct {
      errors := errors + [DuplicateNames];
    }
    for i := 0 to |agents|
      invariant DuplicateNames in errors <==> !Distinct(names)
      invariant CircularDependency !in errors
      invariant forall a, d :: UnknownDependency(a, d) in errors <==>
                  exists j :: 0 <= j < i && agents[j].name == a && d in agents[j].dependsOn && d !in names
    {
      var unknown := UnknownOf(agents[i], names);
      errors := errors + unknown;
    }
    var circular := HasCircularDeps(agents);
    ghost var named := errors;
    if circular {
      errors := errors + [CircularDependency];
    }
    ErrorsExplained(agents, named);
  }

  method UnknownOf(agent: AgentSpec, names: seq<Name>) returns (errors: seq<PlanError>)
    ensures forall e :: e in errors <==>
              e.UnknownDependency? && e.agent == agent.name && e.dependency in agent.dependsOn && e.dependency !in names
  {
    errors := [];
    for j := 0 to |agent.dependsOn|
      invariant forall e :: e in errors <==>
                  && e.UnknownDependency? && e.agent == agent.name
                  && e.dependency in agent.dependsOn[..j] && e.dependency !in names
    {
      var dep := agent.dependsOn[j];
      if dep !in names {
        errors := errors + [UnknownDependency(agent.name, dep)];
      }
    }
    assert agent.dependsOn[..|agent.dependsOn|] == agent.dependsOn;
  }

  /** The size of the set of names. */
  method CountDistinct(names: seq<Name>) returns (n: nat)
    ensures n == |names| <==> Distinct(names)
  {
    n := |Members(names)|;
    DistinctSize(names);
  }

  lemma ErrorsExplained(agents: seq<AgentSpec>, errors: seq<PlanError>)
    requires DuplicateNames in errors <==> !Distinct(NamesOf(agents))
    requires CircularDependency !in errors
    requires forall a, d :: UnknownDependency(a, d) in errors <==>
               exists i :: 0 <= i < |agents| && agents[i].name == a && d in agents[i].dependsOn && d !in NamesOf(agents)
    ensures errors == [] <==> WellNamed(agents)
  {
    if errors == [] {
      forall i, d | 0 <= i < |agents| && d in agents[i].dependsOn ensures d in NamesOf(agents) {
        assert UnknownDependency(agents[i].name, d) !in errors;
      }
    } else {
      var e := errors[0];
      assert e in errors;
      if e.UnknownDependency? {
        assert e == UnknownDependency(e.agent, e.dependency);
        var i :| 0 <= i < |agents| && e.dependency in agents[i].dependsOn && e.dependency !in NamesOf(agents);
      }
    }
  }
}
