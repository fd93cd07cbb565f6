/**
 Between the tables and the hint queue: every hint is announced in the outbox first.
 */
module Submission {
  import opened Graph
  import opened Plan
  import opened Transitions
  import opened Validation
  import opened Store
  import opened Calls
  import opened Repository
  import opened Coordination

  // What a hint passes through.
  datatype Channels = Channels(outbox: seq<OutboxRow>, jobs: seq<AgentJob>, history: seq<Pair>)

  ghost function ChannelsOf(repository: DeployedRepository, coordinator: InMemoryCoordinator): Channels
    reads repository, coordinator
  {
    Channels(repository.outbox, coordinator.jobs, coordinator.history)
  }

  function DeliveredRow(p: Pair): OutboxRow {
    OutboxRow(p.0, Some(p.1), AgentReady, true, 0, None)
  }

  // The hint is announced, sent and marked as sent.
  function Announce(c: Channels, p: Pair): Channels {
    Channels(c.outbox + [DeliveredRow(p)], c.jobs + [AgentJob(p.0, p.1, |c.jobs| + 1)], c.history + [p])
  }

  function AnnounceAll(c: Channels, hints: seq<Pair>): Channels {
    if hints == [] then c else Announce(AnnounceAll(c, hints[..|hints| - 1]), hints[|hints| - 1])
  }

  lemma AnnounceNext(c: Channels, hints: seq<Pair>, p: Pair)
    ensures AnnounceAll(c, hints + [p]) == Announce(AnnounceAll(c, hints), p)
  {
    assert (hints + [p])[..|hints|] == hints;
  }

  lemma {:induction false} AnnounceThen(c: Channels, a: seq<Pair>, b: seq<Pair>)
    ensures AnnounceAll(c, a + b) == AnnounceAll(AnnounceAll(c, a), b)
  {
    if b == [] {
      assert a + b == a;
    } else {
      var init, last := b[..|b| - 1], b[|b| - 1];
      AnnounceThen(c, a, init);
      assert a + b == (a + init) + [last];
      AnnounceNext(c, a + init, last);
    }
  }

  // Every hint is in the stream behind what was there, and its row is never left pending.
  lemma {:induction false} AnnounceDelivers(c: Channels, hints: seq<Pair>)
    ensures var t := AnnounceAll(c, hints);
            && t.history == c.history + hints
            && |t.jobs| == |c.jobs| + |hints| && |t.outbox| == |c.outbox| + |hints|
            && t.jobs[..|c.jobs|] == c.jobs && t.outbox[..|c.outbox|] == c.outbox
            && (forall i :: 0 <= i < |hints| ==>
                  && t.jobs[|c.jobs| + i] == AgentJob(hints[i].0, hints[i].1, |c.jobs| + i + 1)
                  && t.outbox[|c.outbox| + i] == DeliveredRow(hints[i]))
  {
    if hints == [] {
    } else {
      AnnounceDelivers(c, hints[..|hints| - 1]);
    }
  }

  /** Announce, send, mark: the three writes that a crash may separate. */
  method PublishReadyAgent(repository: DeployedRepository, coordinator: InMemoryCoordinator, runId: RunId, agent: Name)
    modifies repository`outbox, coordinator`jobs, coordinator`history
    ensures ChannelsOf(repository, coordinator) == Announce(old(ChannelsOf(repository, coordinator)), (runId, agent))
  {
    var id := repository.RecordQueueOutbox(runId, Some(agent), AgentReady);
    coordinator.EnqueueAgent(runId, agent);
    repository.MarkOutboxPublished(id);
  }

  /** One hint for each of the agents. */
  method PublishAll(repository: DeployedRepository, coordinator: InMemoryCoordinator, runId: RunId, names: seq<Name>)
    modifies repository`outbox, coordinator`jobs, coordinator`history
    ensures ChannelsOf(repository, coordinator)
         == AnnounceAll(old(ChannelsOf(repository, coordinator)), OnRun(runId, names))
  {
    ghost var before := ChannelsOf(repository, coordinator);
    for i := 0 to |names|
      invariant ChannelsOf(repository, coordinator) == AnnounceAll(before, OnRun(runId, names[..i]))
    {
      assert OnRun(runId, names[..i + 1]) == OnRun(runId, names[..i]) + [(runId, names[i])];
      AnnounceNext(before, OnRun(runId, names[..i]), (runId, names[i]));
      PublishReadyAgent(repository, coordinator, runId, names[i]);
    }
    assert names[..|names|] == names;
  }

  datatype SubmitResult = Submitted(ready: seq<Name>) | Invalid(errors: seq<PlanError>) | Rejected

  /** A valid plan under a fresh id becomes a run whose startable agents are all announced. */
  method SubmitPlan(plan: PlanSpec, runId: RunId, repository: DeployedRepository, coordinator: InMemoryCoordinator)
    returns (result: SubmitResult)
    requires repository.Valid()
    modifies repository, coordinator`jobs, coordinator`history
    ensures repository.Valid()
    ensures result.Invalid? <==> !ValidPlan(plan.agents)
    ensures result.Rejected? <==> ValidPlan(plan.agents) && runId in old(repository.runs)
    ensures !result.Submitted? ==> repository.runs == old(repository.runs)
    ensures !result.Submitted? ==> ChannelsOf(repository, coordinator) == old(ChannelsOf(repository, coordinator))
    ensures result.Submitted? ==> CreateRun(plan).Some?
    ensures result.Submitted? ==> repository.runs == old(repository.runs)[runId := CreateRun(plan).value]
    ensures result.Submitted? ==> result.ready == Claimable(repository.runs[runId])
    ensures result.Submitted? ==>
              ChannelsOf(repository, coordinator)
              == AnnounceAll(old(ChannelsOf(repository, coordinator)), OnRun(runId, result.ready))
    ensures old(AllGood(repository.runs)) ==> AllGood(repository.runs)
  {
    var errors := ValidatePlan(plan.agents);
    if errors != [] {
      return Invalid(errors);
    }
    var created := repository.CreateRun(plan, runId);
    if !created {
      return Rejected;
    }
    var ready := repository.ReadyAgents(runId);
    PublishAll(repository, coordinator, runId, ready);
    result := Submitted(ready);
  }

  method EnqueueNewlyReadyAgents(runId: RunId, repository: DeployedRepository, coordinator: InMemoryCoordinator)
    returns (ready: seq<Name>)
    requires repository.Valid()
    modifies repository`runs, repository`outbox, coordinator`jobs, coordinator`history
    ensures repository.Valid()
    ensures runId !in old(repository.runs) ==> repository.runs == old(repository.runs) && ready == []
    ensures runId in old(repository.runs) ==>
              OnlyRun(old(repository.runs), repository.runs, runId, MarkReady(old(repository.runs)[runId]))
    ensures runId in old(repository.runs) ==> ready == Claimable(repository.runs[runId])
    ensures ChannelsOf(repository, coordinator)
         == AnnounceAll(old(ChannelsOf(repository, coordinator)), OnRun(runId, ready))
  {
    ready := repository.MarkNewlyReadyAgents(runId);
    PublishAll(repository, coordinator, runId, ready);
  }

  /**
   Whatever the queue contains, a claim does what the tables allow; the hint is
   consumed and acknowledged even when the claim is refused.
   */
  method ClaimNextAgent(repository: DeployedRepository, coordinator: InMemoryCoordinator, worker: string, until: int)
    returns (claimed: Option<(AgentJob, ClaimedAgent)>)
    requires repository.Valid()
    modifies repository`runs, coordinator`jobs, coordinator`acks, coordinator`leases
    ensures repository.Valid()
    ensures old(coordinator.jobs) == [] ==>
              claimed == None && repository.runs == old(repository.runs)
              && coordinator.jobs == [] && coordinator.acks == old(coordinator.acks)
    ensures old(coordinator.jobs) != [] ==>
              && coordinator.jobs == old(coordinator.jobs)[1..]
              && coordinator.acks == old(coordinator.acks) + [old(coordinator.jobs)[0]]
    ensures old(coordinator.jobs) != [] ==>
              var job := old(coordinator.jobs)[0];
              claimed.Some? <==> job.run in old(repository.runs) && MayClaim(old(repository.runs)[job.run], job.agent)
    ensures claimed == None ==> repository.runs == old(repository.runs) && coordinator.leases == old(coordinator.leases)
    ensures claimed.Some? ==>
              var job := old(coordinator.jobs)[0];
              && claimed.value.0 == job && claimed.value.1.run == job.run && claimed.value.1.name == job.agent
              && claimed.value.1.worker == worker
              && OnlyRun(old(repository.runs), repository.runs, job.run,
                         Claim(old(repository.runs)[job.run], job.agent, worker, until))
              && ClaimDescribes(repository.runs[job.run], claimed.value.1)
              && coordinator.leases == old(coordinator.leases)[(job.run, job.agent) := claimed.value.1.token]
    ensures old(AllGood(repository.runs)) ==> AllGood(repository.runs)
  {
    var job := coordinator.ReadAgent();
    if job == None {
      return None;
    }
    var agent := repository.ClaimAgent(job.value.run, job.value.agent, worker, until);
    coordinator.AckAgent(job.value);
    if agent == None {
      return None;
    }
    coordinator.SetLease(agent.value.run, agent.value.name, agent.value.token);
    if old(AllGood(repository.runs)) {
      ClaimGood(old(repository.runs), job.value.run, job.value.agent, worker, until);
    }
    claimed := Some((job.value, agent.value));
  }

  lemma ClaimGood(runs: RunTable, runId: RunId, n: Name, worker: string, until: int)
    requires AllGood(runs) && runId in runs
    ensures AllGood(runs[runId := Claim(runs[runId], n, worker, until)])
  {
    GoodRun(runs, runId);
    ClaimKeepsGood(runs[runId], n, worker, until);
    OnlyRunGood(runs, runs[runId := Claim(runs[runId], n, worker, until)], runId, Claim(runs[runId], n, worker, until));
  }

  /** Cancels in the tables first; the mark then ends the next round of every lease renewal. */
  method Cancel(runId: RunId, repository: DeployedRepository, coordinator: InMemoryCoordinator) returns (affected: nat)
    requires repository.Valid()
    modifies repository`runs, coordinator`cancellations
    ensures repository.Valid() && runId in coordinator.cancellations
    ensures runId !in old(repository.runs) ==> repository.runs == old(repository.runs) && affected == 0
    ensures runId in old(repository.runs) ==>
              && OnlyRun(old(repository.runs), repository.runs, runId, CancelRun(old(repository.runs)[runId]))
              && (old(repository.runs)[runId].status.Terminal() || AllTerminal(repository.runs[runId].agents))
  {
    affected := repository.CancelRun(runId);
    coordinator.PublishCancel(runId);
  }
}
