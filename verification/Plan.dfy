/**
 Plans as they are submitted: the agents, their dependencies and the settings
 that the orchestrator reads.
 */
module Plan {
  import opened Graph

  datatype Option<+T> = None | Some(value: T)

  datatype OnFailure = Continue | Stop | Retry

  datatype AgentSpec = AgentSpec(
    name: Name,
    dependsOn: seq<Name>,
    onFailure: OnFailure,
    retryCount: int,
    managerCap: Option<int>)

  datatype OnExceed = PauseOnExceed | CancelOnExceed | WarnOnExceed

  datatype CostBudget = CostBudget(totalUsd: real, onExceed: OnExceed)

  datatype BreakerAction = CancelAll | PauseWork | NotifyOnly

  datatype CircuitBreaker = CircuitBreaker(threshold: int, action: BreakerAction)

  datatype PlanSpec = PlanSpec(
    agents: seq<AgentSpec>,
    costBudget: Option<CostBudget>,
    concurrencyLimit: Option<int>,
    circuitBreaker: Option<CircuitBreaker>)

  // The members of a dependency list.
  function Members(names: seq<Name>): set<Name> {
    set n | n in names
  }

  // The dictionary built over a list of agents: a later entry replaces an earlier one.
  function DepsOf(agents: seq<AgentSpec>): Deps {
    if agents == [] then map[]
    else
      var last := agents[|agents| - 1];
      DepsOf(agents[..|agents| - 1])[last.name := Members(last.dependsOn)]
  }

  predicate Distinct(names: seq<Name>) {
    names == [] || (names[|names| - 1] !in names[..|names| - 1] && Distinct(names[..|names| - 1]))
  }

  lemma {:induction false} DistinctPositions(names: seq<Name>)
    ensures Distinct(names) <==> forall i, j :: 0 <= i < j < |names| ==> names[i] != names[j]
  {
    if names == [] {
    } else {
      var init := names[..|names| - 1];
      DistinctPositions(init);
      if forall i, j :: 0 <= i < j < |names| ==> names[i] != names[j] {
        forall i, j | 0 <= i < j < |init| ensures init[i] != init[j] {
          assert names[i] != names[j];
        }
      }
    }
  }

  // Names repeat iff their set is smaller than their list.
  lemma {:induction false} DistinctSize(names: seq<Name>)
    ensures |Members(names)| <= |names|
    ensures |Members(names)| == |names| <==> Distinct(names)
  {
    if names == [] {
    } else {
      var init := names[..|names| - 1];
      DistinctSize(init);
      assert names == init + [names[|names| - 1]];
      assert Members(names) == Members(init) + {names[|names| - 1]};
    }
  }

  lemma AppendNew(names: seq<Name>, n: Name)
    requires Distinct(names) && n !in names
    ensures Distinct(names + [n])
    ensures Members(names + [n]) == Members(names) + {n}
  {
    assert (names + [n])[..|names|] == names;
  }

  lemma {:induction false} DistinctSlice(names: seq<Name>, lo: nat, hi: nat)
    requires Distinct(names) && lo <= hi <= |names|
    ensures Distinct(names[lo..hi])
  {
    DistinctPositions(names);
    DistinctPositions(names[lo..hi]);
  }

  function NamesOf(agents: seq<AgentSpec>): seq<Name> {
    seq(|agents|, i requires 0 <= i < |agents| => agents[i].name)
  }

  lemma NamesOfLast(agents: seq<AgentSpec>)
    requires agents != []
    ensures NamesOf(agents)[..|agents| - 1] == NamesOf(agents[..|agents| - 1])
    ensures NamesOf(agents) == NamesOf(agents[..|agents| - 1]) + [agents[|agents| - 1].name]
  {
  }

  lemma MembersLast(names: seq<Name>, n: Name)
    ensures Members(names + [n]) == Members(names) + {n}
  {
  }

  lemma {:induction false} DepsOfKeys(agents: seq<AgentSpec>)
    ensures forall n :: n in DepsOf(agents) <==> exists i :: 0 <= i < |agents| && agents[i].name == n
  {
    if agents == [] {
    } else {
      var init := agents[..|agents| - 1];
      DepsOfKeys(init);
      forall i | 0 <= i < |agents| ensures agents[i].name in DepsOf(agents) {
        if i < |init| {
          assert init[i].name in DepsOf(init);
        }
      }
    }
  }

  lemma {:induction false} DepsOfEntry(agents: seq<AgentSpec>, i: nat)
    requires Distinct(NamesOf(agents)) && i < |agents|
    ensures agents[i].name in DepsOf(agents)
    ensures DepsOf(agents)[agents[i].name] == Members(agents[i].dependsOn)
  {
    var init := agents[..|agents| - 1];
    assert NamesOf(init) == NamesOf(agents)[..|agents| - 1];
    DistinctPositions(NamesOf(agents));
    if i < |init| {
      DepsOfEntry(init, i);
      assert NamesOf(agents)[i] != NamesOf(agents)[|init|];
    }
  }

  // Distinct names and no unknown dependency.
  ghost predicate WellNamed(agents: seq<AgentSpec>) {
    && Distinct(NamesOf(agents))
    && forall i, d :: 0 <= i < |agents| && d in agents[i].dependsOn ==> d in NamesOf(agents)
  }

  lemma WellNamedMeansClosed(agents: seq<AgentSpec>)
    requires WellNamed(agents)
    ensures Closed(DepsOf(agents))
  {
    DepsOfKeys(agents);
    forall n, d | n in DepsOf(agents) && d in DepsOf(agents)[n] ensures d in DepsOf(agents) {
      var i :| 0 <= i < |agents| && agents[i].name == n;
      DepsOfEntry(agents, i);
      assert d in agents[i].dependsOn;
      assert d in NamesOf(agents);
      var j :| 0 <= j < |NamesOf(agents)| && NamesOf(agents)[j] == d;
      assert agents[j].name == d;
    }
  }
}
