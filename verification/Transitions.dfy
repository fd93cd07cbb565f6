/**
 What each transaction of `spawnd/state/repository.py` does to the rows of a run,
 as functions from the old rows to the new ones.
 */
module Transitions {
  import opened Graph
  import opened Plan
  import opened RunState

  // ---------------------------------------------------------------------------
  // Creation
  // ---------------------------------------------------------------------------

  function NewAgent(spec: AgentSpec): Agent {
    Agent(if spec.dependsOn == [] then Queued else Pending,
          Members(spec.dependsOn), spec.onFailure, spec.retryCount, 0, 0.0, None, spec.managerCap)
  }

  function InsertAll(agents: seq<AgentSpec>): Agents {
    if agents == [] then map[]
    else
      var last := agents[|agents| - 1];
      InsertAll(agents[..|agents| - 1])[last.name := NewAgent(last)]
  }

  function ConfigOf(plan: PlanSpec): Config {
    Config(plan.concurrencyLimit,
           if plan.costBudget.Some? then plan.costBudget.value.totalUsd else 25.0,
           if plan.costBudget.Some? then plan.costBudget.value.onExceed else PauseOnExceed,
           plan.circuitBreaker)
  }

  // Two agents with one name violate the primary key and abort the transaction.
  function CreateRun(plan: PlanSpec): Option<State> {
    if Distinct(NamesOf(plan.agents)) then
      Some(State(plan.agents, InsertAll(plan.agents), NamesOf(plan.agents), [], Queued, 0.0, ConfigOf(plan), []))
    else
      None
  }

  // SQL `LIKE` without its escape character, which no agent name contains.
  predicate Like(text: string, pattern: string)
    decreases |text| + |pattern|
  {
    if pattern == "" then text == ""
    else if pattern[0] == '%' then Like(text, pattern[1..]) || (text != "" && Like(text[1..], pattern))
    else text != "" && (pattern[0] == '_' || pattern[0] == text[0]) && Like(text[1..], pattern[1..])
  }

  // The agents that count against the cap of a manager.
  function CountedWorkers(agents: Agents, manager: Name): set<Name> {
    set n | n in agents && Like(n, manager + ".%")
  }

  predicate CapReached(s: State, manager: Name)
    requires manager in s.agents
  {
    s.agents[manager].maxSubagents.Some?
    && |CountedWorkers(s.agents, manager)| >= s.agents[manager].maxSubagents.value
  }

  // A spawned worker depends on nobody and is no manager.
  function Spawned(worker: AgentSpec): AgentSpec {
    worker.(dependsOn := [], managerCap := None)
  }

  function Spawn(s: State, manager: Name, worker: AgentSpec): State {
    if worker.name in s.agents || manager !in s.agents || CapReached(s, manager) then s
    else
      var spec := Spawned(worker);
      s.(spec := s.spec + [spec],
         agents := s.agents[worker.name := NewAgent(spec)],
         order := s.order + [worker.name])
  }

  // ---------------------------------------------------------------------------
  // Readiness and claims
  // ---------------------------------------------------------------------------

  function EffectiveLimit(config: Config): Option<int> {
    if config.concurrencyLimit.Some? && config.concurrencyLimit.value > 0 then config.concurrencyLimit else None
  }

  function Available(s: State): Option<nat> {
    match EffectiveLimit(s.config)
    case None => None
    case Some(limit) =>
      var running := |WithStatus(s.agents, Running)|;
      Some(if limit > running then limit - running else 0)
  }

  // Queued agents that may start, oldest row first.
  function Claimable(s: State): seq<Name> {
    var names := Select(s.order, WithStatus(s.agents, Queued));
    match Available(s)
    case None => names
    case Some(available) => if available < |names| then names[..available] else names
  }

  function MarkReady(s: State): State {
    s.(agents := Mark(s.agents, ReadySet(s.agents), Queued))
  }

  function ReadyNames(s: State): seq<Name> {
    Select(s.order, ReadySet(s.agents))
  }

  predicate MayClaim(s: State, n: Name) {
    n in s.agents && s.agents[n].status == Queued && n in Claimable(s)
  }

  function Claim(s: State, n: Name, worker: string, until: int): State {
    if MayClaim(s, n) then
      var lease := Lease(worker, |s.attempts|, until);
      s.(agents := s.agents[n := s.agents[n].(status := Running, lease := Some(lease))],
         attempts := s.attempts + [Attempt(n, MaxNumber(s.attempts, n) + 1, AttemptRunning, lease)],
         status := Running)
    else s
  }

  predicate HoldsLease(s: State, n: Name, worker: string, token: nat) {
    && n in s.agents && s.agents[n].status == Running && s.agents[n].lease.Some?
    && s.agents[n].lease.value.worker == worker && s.agents[n].lease.value.token == token
  }

  function RenewAttempts(attempts: seq<Attempt>, n: Name, worker: string, token: nat, until: int): seq<Attempt> {
    seq(|attempts|, i requires 0 <= i < |attempts| =>
      var a := attempts[i];
      if a.agent == n && a.lease.worker == worker && a.lease.token == token && a.status == AttemptRunning
      then a.(lease := a.lease.(until := until))
      else a)
  }

  function Renew(s: State, n: Name, worker: string, token: nat, until: int): State {
    if HoldsLease(s, n, worker, token) then
      s.(agents := s.agents[n := s.agents[n].(lease := Some(s.agents[n].lease.value.(until := until)))],
         attempts := RenewAttempts(s.attempts, n, worker, token, until))
    else s
  }

  // ---------------------------------------------------------------------------
  // Failure handling
  // ---------------------------------------------------------------------------

  // One round of the cascade: waiting agents with a failed dependency.
  function Hit(agents: Agents, failed: set<Name>): set<Name> {
    set n | n in agents && n !in failed && agents[n].status.Waiting() && agents[n].dependsOn * failed != {}
  }

  // All rounds.
  function Doomed(agents: Agents, failed: set<Name>): set<Name>
    decreases |agents.Keys - failed|
  {
    var hit := Hit(agents, failed);
    if hit == {} then {}
    else
      HitShrinks(agents, failed);
      hit + Doomed(agents, failed + hit)
  }

  lemma HitShrinks(agents: Agents, failed: set<Name>)
    requires Hit(agents, failed) != {}
    ensures |agents.Keys - (failed + Hit(agents, failed))| < |agents.Keys - failed|
  {
    var hit := Hit(agents, failed);
    var rest := agents.Keys - (failed + hit);
    assert agents.Keys - failed == rest + hit;
    assert |rest + hit| == |rest| + |hit|;
  }

  function Cascade(s: State, root: Name): State {
    s.(agents := Release(s.agents, Doomed(s.agents, {root}), Failed))
  }

  function CancelSet(s: State, names: set<Name>): State {
    s.(agents := Release(s.agents, names, Cancelled), attempts := CancelAttempts(s.attempts, names))
  }

  function StopOthers(s: State, failed: Name): State {
    CancelSet(s, NonTerminal(s.agents) - {failed}).(status := Failed)
  }

  function PauseWaiting(s: State): State {
    var waiting := WaitingSet(s.agents);
    s.(agents := Mark(s.agents, waiting, Paused), status := if waiting == {} then s.status else Paused)
  }

  predicate BudgetExceeded(s: State) {
    s.config.maxCost > 0.0 && TotalCost(s) > s.config.maxCost
  }

  function EnforceBudget(s: State): State {
    if !BudgetExceeded(s) then s
    else
      match s.config.onExceed
      case WarnOnExceed => s
      case CancelOnExceed => CancelSet(s, NonTerminal(s.agents)).(status := CostExceeded, totalCost := TotalCost(s))
      case PauseOnExceed => PauseWaiting(s).(status := Paused, totalCost := TotalCost(s))
  }

  predicate BreakerTripped(s: State) {
    && s.config.circuitBreaker.Some?
    && s.config.circuitBreaker.value.threshold > 0
    && |FailureSet(s.agents)| >= s.config.circuitBreaker.value.threshold
  }

  // The rest of a final failure of `n`: the breaker first, then the agent's own policy.
  function HandleFailure(s: State, n: Name, policy: OnFailure): State {
    if BreakerTripped(s) && s.config.circuitBreaker.value.action == PauseWork then
      PauseWaiting(s)
    else if BreakerTripped(s) && s.config.circuitBreaker.value.action == CancelAll then
      CancelSet(s, NonTerminal(s.agents)).(status := Failed)
    else if policy == Stop then
      StopOthers(s, n)
    else
      MarkReady(Cascade(s, n))
  }

  // ---------------------------------------------------------------------------
  // Outcomes of an attempt
  // ---------------------------------------------------------------------------

  // The attempt named by the caller is the one that runs the agent.  Callers that
  // name no attempt are only stopped by a terminal status.
  predicate MayFinish(s: State, n: Name, id: Option<nat>) {
    && n in s.agents
    && match id
       case None => !s.agents[n].status.Terminal()
       case Some(i) =>
         && i < |s.attempts| && s.attempts[i].agent == n && s.attempts[i].status == AttemptRunning
         && HoldsLease(s, n, s.attempts[i].lease.worker, s.attempts[i].lease.token)
  }

  function Finished(s: State, n: Name, cost: real, id: Option<nat>): State
    requires n in s.agents
  {
    s.(agents := s.agents[n := s.agents[n].(status := Completed, cost := cost, lease := None)],
       attempts := FinishAttempt(s.attempts, id, AttemptCompleted),
       done := s.done + [n])
  }

  function Complete(s: State, n: Name, cost: real, id: Option<nat>): State {
    if MayFinish(s, n, id) then EnforceBudget(MarkReady(Finished(s, n, cost, id))) else s
  }

  // The agents reported to the caller, who publishes hints for them.
  function CompleteReady(s: State, n: Name, cost: real, id: Option<nat>): seq<Name> {
    if MayFinish(s, n, id) then
      var t := MarkReady(Finished(s, n, cost, id));
      if BudgetExceeded(t) && t.config.onExceed != WarnOnExceed then [] else Claimable(t)
    else []
  }

  // `failed`, `timeout` or `cost_exceeded`; anything else counts as `failed`.
  function FinalStatus(requested: Status): Status {
    if requested == TimedOut || requested == CostExceeded then requested else Failed
  }

  predicate WillRetry(row: Agent, retryable: Option<bool>, final: Status) {
    final != CostExceeded && retryable != Some(false) && CanRetry(row)
  }

  function Retried(s: State, n: Name, id: Option<nat>): State
    requires n in s.agents
  {
    var row := s.agents[n];
    s.(agents := s.agents[n := row.(status := Queued, lease := None, retryAttempt := row.retryAttempt + 1)],
       attempts := FinishAttempt(s.attempts, id, AttemptFailed))
  }

  function Broken(s: State, n: Name, id: Option<nat>, final: Status): State
    requires n in s.agents
  {
    s.(agents := s.agents[n := s.agents[n].(status := final, lease := None)],
       attempts := FinishAttempt(s.attempts, id, AttemptFailed))
  }

  function Fail(s: State, n: Name, id: Option<nat>, retryable: Option<bool>, requested: Status): State {
    if !MayFinish(s, n, id) then s
    else if WillRetry(s.agents[n], retryable, FinalStatus(requested)) then Retried(s, n, id)
    else HandleFailure(Broken(s, n, id, FinalStatus(requested)), n, s.agents[n].onFailure)
  }

  predicate Cascades(s: State, policy: OnFailure) {
    !(BreakerTripped(s) && s.config.circuitBreaker.value.action != NotifyOnly) && policy != Stop
  }

  function FailQueued(s: State, n: Name, id: Option<nat>, retryable: Option<bool>, requested: Status): seq<Name> {
    if !MayFinish(s, n, id) then []
    else if WillRetry(s.agents[n], retryable, FinalStatus(requested)) then [n]
    else
      var t := Broken(s, n, id, FinalStatus(requested));
      if Cascades(t, s.agents[n].onFailure) then ReadyNames(Cascade(t, n)) else []
  }

  // ---------------------------------------------------------------------------
  // Lease expiry
  // ---------------------------------------------------------------------------

  function Stale(s: State, now: int): set<Name> {
    set n | n in s.agents && s.agents[n].status == Running
            && s.agents[n].lease.Some? && s.agents[n].lease.value.until < now
  }

  // The row is the one read before the pass started; the update has no status guard.
  function Lapsed(s: State, n: Name, row: Agent): State
    requires n in s.agents
  {
    var now := s.agents[n];
    var i := LatestRunning(s.attempts, n);
    s.(agents := s.agents[n := if CanRetry(row)
                               then now.(status := Queued, lease := None, retryAttempt := row.retryAttempt + 1)
                               else now.(status := Failed, lease := None)],
       attempts := if i >= 0 then s.attempts[i := s.attempts[i].(status := AttemptExpired)] else s.attempts)
  }

  function ExpireRow(s: State, n: Name, row: Agent): State {
    if n !in s.agents then s
    else
      var t := Lapsed(s, n, row);
      if CanRetry(row) then t
      else if row.onFailure == Stop then StopOthers(t, n)
      else MarkReady(Cascade(t, n))
  }

  function ExpireRows(s: State, rows: seq<(Name, Agent)>): State {
    if rows == [] then s
    else
      var last := rows[|rows| - 1];
      ExpireRow(ExpireRows(s, rows[..|rows| - 1]), last.0, last.1)
  }

  // What one row adds to the list of requeued agents.
  function ExpireHint(s: State, n: Name, row: Agent): seq<Name> {
    if n !in s.agents then []
    else if CanRetry(row) then [n]
    else if row.onFailure == Stop then []
    else ReadyNames(Cascade(Lapsed(s, n, row), n))
  }

  // The rows of the agents named, as they are when the pass starts.
  function ReadRows(s: State, names: seq<Name>): seq<(Name, Agent)>
    requires forall i :: 0 <= i < |names| ==> names[i] in s.agents
  {
    seq(|names|, i requires 0 <= i < |names| => (names[i], s.agents[names[i]]))
  }

  // The query has no order clause: `names` is the order the database chose.
  ghost predicate StaleListing(s: State, now: int, names: seq<Name>) {
    Distinct(names) && Members(names) == Stale(s, now)
  }

  // ---------------------------------------------------------------------------
  // Cancellation, resumption and roll-up
  // ---------------------------------------------------------------------------

  function CancelAgent(s: State, n: Name): State {
    if n in s.agents && !s.agents[n].status.Terminal() then CancelSet(s, {n}) else s
  }

  function CancelRun(s: State): State {
    if s.status.Terminal() then s
    else CancelSet(s, NonTerminal(s.agents)).(status := Cancelled)
  }

  predicate RetryableFailure(row: Agent) {
    (row.status == Failed || row.status == TimedOut) && CanRetry(row)
  }

  predicate Resumable(row: Agent) {
    RetryableFailure(row) || row.status == Paused
  }

  function ResumedRow(agents: Agents, row: Agent): Agent {
    row.(status := if DepsDone(agents, row.dependsOn) then Queued else Pending,
         lease := None,
         retryAttempt := if RetryableFailure(row) then row.retryAttempt + 1 else row.retryAttempt)
  }

  function ResumableSet(agents: Agents): set<Name> {
    set n | n in agents && Resumable(agents[n])
  }

  function Resume(s: State): State {
    var resumed := ResumableSet(s.agents);
    s.(agents := map n | n in s.agents :: if n in resumed then ResumedRow(s.agents, s.agents[n]) else s.agents[n],
       status := if resumed == {} then s.status else Queued)
  }

  predicate AllTerminal(agents: Agents) {
    forall n :: n in agents ==> agents[n].status.Terminal()
  }

  predicate Any(agents: Agents, status: Status) {
    exists n :: n in agents && agents[n].status == status
  }

  function RolledUp(s: State): Status {
    if s.agents == map[] then s.status
    else if forall n :: n in s.agents ==> s.agents[n].status == Completed then Completed
    else if AllTerminal(s.agents) then
      if Any(s.agents, CostExceeded) then CostExceeded
      else if Any(s.agents, Failed) || Any(s.agents, TimedOut) then Failed
      else Cancelled
    else if Any(s.agents, Running) then Running
    else if Any(s.agents, Paused) then Paused
    else Queued
  }

  function Refresh(s: State): State {
    if s.status == Cancelled || s.status == CostExceeded then s
    else s.(status := RolledUp(s), totalCost := TotalCost(s))
  }
}
