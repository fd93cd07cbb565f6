/**
 What the cap of a manager counts, and when it bounds what it counts.
 */
module Spawning {
  import opened Graph
  import opened Plan
  import opened RunState
  import opened Transitions

  // `name` is `manager` up to the characters that a `_` stands for.
  predicate Resembles(name: string, manager: string) {
    |name| == |manager| && forall i :: 0 <= i < |manager| ==> manager[i] == '_' || manager[i] == name[i]
  }

  lemma {:induction false} LikeAnything(text: string)
    ensures Like(text, "%")
  {
    assert "%"[1..] == "";
    if text == "" {
      assert Like(text, "");
    } else {
      LikeAnything(text[1..]);
    }
  }

  // The count takes every name that resembles the manager's up to a dot: an underscore
  // matches any character there.
  lemma {:induction false} LikeMeansDotted(name: string, manager: string)
    requires '%' !in manager
    ensures Like(name, manager + ".%") <==>
            |name| > |manager| && Resembles(name[..|manager|], manager) && name[|manager|] == '.'
  {
    var pattern := manager + ".%";
    if manager == "" {
      assert pattern == ".%" && ".%"[1..] == "%";
      if name != "" {
        LikeAnything(name[1..]);
      }
    } else {
      assert pattern[0] == manager[0] && pattern[1..] == manager[1..] + ".%";
      if name != "" {
        LikeMeansDotted(name[1..], manager[1..]);
        ResemblesNext(name, manager);
      }
    }
  }

  lemma ResemblesNext(name: string, manager: string)
    requires name != "" && manager != ""
    ensures |name| > |manager| ==> name[1..][|manager| - 1] == name[|manager|]
    ensures |name| >= |manager| ==>
              (Resembles(name[..|manager|], manager) <==>
                 (manager[0] == '_' || manager[0] == name[0]) && Resembles(name[1..][..|manager| - 1], manager[1..]))
  {
    if |name| >= |manager| {
      var rest := name[1..][..|manager| - 1];
      assert forall i :: 0 <= i < |manager| - 1 ==> rest[i] == name[i + 1] && manager[1..][i] == manager[i + 1];
      if (manager[0] == '_' || manager[0] == name[0]) && Resembles(rest, manager[1..]) {
        forall i | 0 <= i < |manager| ensures manager[i] == '_' || manager[i] == name[i] {
          if i > 0 {
            assert manager[1..][i - 1] == '_' || manager[1..][i - 1] == rest[i - 1];
          }
        }
      }
    }
  }

  // A spawn counts against a manager iff the worker is named after it, whoever spawned it.
  lemma SpawnCounts(s: State, spawner: Name, worker: AgentSpec, manager: Name)
    requires Spawn(s, spawner, worker) != s
    ensures |CountedWorkers(Spawn(s, spawner, worker).agents, manager)|
         == |CountedWorkers(s.agents, manager)| + if Like(worker.name, manager + ".%") then 1 else 0
  {
    var before, after := CountedWorkers(s.agents, manager), CountedWorkers(Spawn(s, spawner, worker).agents, manager);
    assert worker.name !in s.agents && worker.name !in before;
    assert after == before + if Like(worker.name, manager + ".%") then {worker.name} else {};
  }

  // The spawn is not refused.
  predicate MaySpawn(s: State, spawner: Name, worker: AgentSpec) {
    worker.name !in s.agents && spawner in s.agents && !CapReached(s, spawner)
  }

  lemma SpawnTakesEffectIff(s: State, spawner: Name, worker: AgentSpec)
    ensures Spawn(s, spawner, worker) != s <==> MaySpawn(s, spawner, worker)
  {
    if MaySpawn(s, spawner, worker) {
      assert worker.name in Spawn(s, spawner, worker).agents;
    }
  }

  // A cap holds through a spawn unless the manager is full, the worker is named after it,
  // and the spawner may spawn.
  lemma CapKeptIff(s: State, spawner: Name, worker: AgentSpec, manager: Name)
    requires manager in s.agents && s.agents[manager].maxSubagents.Some?
    requires |CountedWorkers(s.agents, manager)| <= s.agents[manager].maxSubagents.value
    ensures |CountedWorkers(Spawn(s, spawner, worker).agents, manager)| <= s.agents[manager].maxSubagents.value
            <==> !(CapReached(s, manager) && Like(worker.name, manager + ".%") && MaySpawn(s, spawner, worker))
  {
    SpawnTakesEffectIff(s, spawner, worker);
    if Spawn(s, spawner, worker) != s {
      SpawnCounts(s, spawner, worker, manager);
    }
  }

  // The manager's own spawns keep its cap.
  lemma OwnSpawnsKeepCap(s: State, worker: AgentSpec, manager: Name)
    requires manager in s.agents && s.agents[manager].maxSubagents.Some?
    requires |CountedWorkers(s.agents, manager)| <= s.agents[manager].maxSubagents.value
    ensures |CountedWorkers(Spawn(s, manager, worker).agents, manager)| <= s.agents[manager].maxSubagents.value
  {
    CapKeptIff(s, manager, worker, manager);
  }
}
