/**
 The rows of one run: `runs`, `agents` and `agent_attempts`, with the helpers that
 read them.  Every table update of the repository is a function on these rows.
 */
module RunState {
  import opened Graph
  import opened Plan

  datatype Status =
    Pending | Queued | Running | Paused | Completed | Failed | TimedOut | Cancelled | CostExceeded
  {
    predicate Terminal() {
      Completed? || Failed? || TimedOut? || Cancelled? || CostExceeded?
    }

    predicate Failure() {
      Failed? || TimedOut? || CostExceeded?
    }

    // Not started: what a pause or a failed dependency can still reach.
    predicate Waiting() {
      Pending? || Queued?
    }
  }

  // `worker_id`, `lease_token` and `leased_until`, which are set and cleared together.
  datatype Lease = Lease(worker: string, token: nat, until: int)

  datatype Agent = Agent(
    status: Status,
    dependsOn: set<Name>,
    onFailure: OnFailure,
    retryCount: int,
    retryAttempt: int,
    cost: real,
    lease: Option<Lease>,
    maxSubagents: Option<int>)

  datatype AttemptStatus =
    AttemptRunning | AttemptCompleted | AttemptFailed | AttemptCancelled | AttemptExpired

  // The id of an attempt is its position; the claim that opens it uses the same
  // fresh number as lease token.
  datatype Attempt = Attempt(agent: Name, number: nat, status: AttemptStatus, lease: Lease)

  datatype Config = Config(
    concurrencyLimit: Option<int>,
    maxCost: real,
    onExceed: OnExceed,
    circuitBreaker: Option<CircuitBreaker>)

  datatype State = State(
    spec: seq<AgentSpec>,
    agents: map<Name, Agent>,
    order: seq<Name>,          // the agent rows by creation time
    attempts: seq<Attempt>,
    status: Status,
    totalCost: real,
    config: Config,
    done: seq<Name>)           // the `done` events, oldest first

  type Agents = map<Name, Agent>

  // ---------------------------------------------------------------------------
  // Queries
  // ---------------------------------------------------------------------------

  // The order lists every agent row once.
  ghost predicate Listed(s: State) {
    Distinct(s.order) && Members(s.order) == s.agents.Keys
  }

  // The members of `keep`, in row order.
  function Select(order: seq<Name>, keep: set<Name>): seq<Name> {
    if order == [] then []
    else
      var last := order[|order| - 1];
      Select(order[..|order| - 1], keep) + if last in keep then [last] else []
  }

  function WithStatus(agents: Agents, status: Status): set<Name> {
    set n | n in agents && agents[n].status == status
  }

  function NonTerminal(agents: Agents): set<Name> {
    set n | n in agents && !agents[n].status.Terminal()
  }

  function WaitingSet(agents: Agents): set<Name> {
    set n | n in agents && agents[n].status.Waiting()
  }

  function FailureSet(agents: Agents): set<Name> {
    set n | n in agents && agents[n].status.Failure()
  }

  predicate DepsDone(agents: Agents, deps: set<Name>) {
    forall d :: d in deps ==> d in agents && agents[d].status == Completed
  }

  // Pending agents whose dependencies all completed.
  function ReadySet(agents: Agents): set<Name> {
    set n | n in agents && agents[n].status == Pending && DepsDone(agents, agents[n].dependsOn)
  }

  predicate CanRetry(row: Agent) {
    row.onFailure == Retry && row.retryAttempt < row.retryCount
  }

  function MaxNumber(attempts: seq<Attempt>, n: Name): nat {
    if attempts == [] then 0
    else
      var before := MaxNumber(attempts[..|attempts| - 1], n);
      var last := attempts[|attempts| - 1];
      if last.agent == n && last.number > before then last.number else before
  }

  // The running attempt of `n` with the highest number, -1 if there is none.
  function LatestRunning(attempts: seq<Attempt>, n: Name): (i: int)
    ensures -1 <= i < |attempts|
    ensures i >= 0 ==> attempts[i].agent == n && attempts[i].status == AttemptRunning
    ensures i >= 0 ==> forall j :: 0 <= j < |attempts| && attempts[j].agent == n && attempts[j].status == AttemptRunning
                         ==> attempts[j].number <= attempts[i].number
    ensures i < 0 ==>
              forall j :: 0 <= j < |attempts| ==>
                !(attempts[j].agent == n && attempts[j].status == AttemptRunning)
  {
    if attempts == [] then -1
    else
      var best := LatestRunning(attempts[..|attempts| - 1], n);
      var k := |attempts| - 1;
      if attempts[k].agent == n && attempts[k].status == AttemptRunning
         && (best < 0 || attempts[best].number < attempts[k].number)
      then k
      else best
  }

  function SumCost(agents: Agents, order: seq<Name>): real {
    if order == [] then 0.0
    else
      var last := order[|order| - 1];
      SumCost(agents, order[..|order| - 1]) + if last in agents then agents[last].cost else 0.0
  }

  function TotalCost(s: State): real {
    SumCost(s.agents, s.order)
  }

  function Graphed(agents: Agents): Deps {
    map n | n in agents :: agents[n].dependsOn
  }

  // ---------------------------------------------------------------------------
  // Updates of several rows
  // ---------------------------------------------------------------------------

  // A new status; the lease columns are left alone.
  function Mark(agents: Agents, names: set<Name>, status: Status): Agents {
    map n | n in agents :: if n in names then agents[n].(status := status) else agents[n]
  }

  // A new status, and the lease is given up.
  function Release(agents: Agents, names: set<Name>, status: Status): Agents {
    map n | n in agents :: if n in names then agents[n].(status := status, lease := None) else agents[n]
  }

  // The running attempts of the named agents become cancelled.
  function CancelAttempts(attempts: seq<Attempt>, names: set<Name>): seq<Attempt> {
    seq(|attempts|, i requires 0 <= i < |attempts| =>
      if attempts[i].agent in names && attempts[i].status == AttemptRunning
      then attempts[i].(status := AttemptCancelled)
      else attempts[i])
  }

  // A fenced update of one attempt row.
  function FinishAttempt(attempts: seq<Attempt>, id: Option<nat>, status: AttemptStatus): seq<Attempt> {
    match id
    case None => attempts
    case Some(i) =>
      if i < |attempts| && attempts[i].status == AttemptRunning
      then attempts[i := attempts[i].(status := status)]
      else attempts
  }

  // ---------------------------------------------------------------------------
  // Row listings
  // ---------------------------------------------------------------------------

  lemma {:induction false} SelectMembers(order: seq<Name>, keep: set<Name>)
    ensures forall n :: n in Select(order, keep) <==> n in order && n in keep
  {
    if order == [] {
    } else {
      var init := order[..|order| - 1];
      SelectMembers(init, keep);
      assert order == init + [order[|order| - 1]];
    }
  }

  lemma {:induction false} SelectDistinct(order: seq<Name>, keep: set<Name>)
    requires Distinct(order)
    ensures Distinct(Select(order, keep))
  {
    if order == [] {
    } else {
      var init := order[..|order| - 1];
      SelectDistinct(init, keep);
      SelectMembers(init, keep);
      if order[|order| - 1] in keep {
        AppendNew(Select(init, keep), order[|order| - 1]);
      } else {
        assert Select(order, keep) == Select(init, keep);
      }
    }
  }

  lemma SelectNext(order: seq<Name>, keep: set<Name>, i: nat)
    requires i < |order|
    ensures Select(order[..i + 1], keep) == Select(order[..i], keep) + if order[i] in keep then [order[i]] else []
  {
    assert order[..i + 1][..i] == order[..i];
  }

  lemma SelectAll(s: State, keep: set<Name>)
    requires Listed(s) && keep <= s.agents.Keys
    ensures Members(Select(s.order, keep)) == keep
    ensures Distinct(Select(s.order, keep))
    ensures |Select(s.order, keep)| == |keep|
  {
    SelectMembers(s.order, keep);
    SelectDistinct(s.order, keep);
    forall n | n in keep ensures n in Select(s.order, keep) {
      assert n in Members(s.order);
    }
    DistinctSize(Select(s.order, keep));
  }
}
