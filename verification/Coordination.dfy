/**
 The in-memory coordination plane: hints that agents are ready, lease keys and
 cancellation marks.  None of it is trusted by the repository.
 */
module Coordination {
  import opened Graph
  import opened Plan
  import opened Store

  // `id` numbers the message by the length of the queue, so numbers are used again.
  datatype AgentJob = AgentJob(run: RunId, agent: Name, id: nat)

  class InMemoryCoordinator {
    var jobs: seq<AgentJob>
    var acks: seq<AgentJob>
    var leases: map<Pair, nat>
    var cancellations: seq<RunId>
    ghost var history: seq<Pair>      // every hint that ever entered the stream

    constructor ()
      ensures jobs == [] && acks == [] && leases == map[] && cancellations == [] && history == []
    {
      jobs, acks, leases, cancellations, history := [], [], map[], [], [];
    }

    method EnqueueAgent(run: RunId, agent: Name)
      modifies this`jobs, this`history
      ensures jobs == old(jobs) + [AgentJob(run, agent, |old(jobs)| + 1)]
      ensures history == old(history) + [(run, agent)]
    {
      jobs := jobs + [AgentJob(run, agent, |jobs| + 1)];
      history := history + [(run, agent)];
    }

    method ReadAgent() returns (job: Option<AgentJob>)
      modifies this`jobs
      ensures old(jobs) == [] ==> job == None && jobs == []
      ensures old(jobs) != [] ==> job.Some? && [job.value] + jobs == old(jobs)
    {
      if jobs == [] {
        return None;
      }
      job := Some(jobs[0]);
      jobs := jobs[1..];
    }

    method AckAgent(job: AgentJob)
      modifies this`acks
      ensures acks == old(acks) + [job]
    {
      acks := acks + [job];
    }

    method SetLease(run: RunId, agent: Name, token: nat)
      modifies this`leases
      ensures leases == old(leases)[(run, agent) := token]
    {
      leases := leases[(run, agent) := token];
    }

    method RenewLease(run: RunId, agent: Name, token: nat) returns (ok: bool)
      ensures ok <==> (run, agent) in leases && leases[(run, agent)] == token
    {
      ok := (run, agent) in leases && leases[(run, agent)] == token;
    }

    method PublishCancel(run: RunId)
      modifies this`cancellations
      ensures cancellations == old(cancellations) + [run]
    {
      cancellations := cancellations + [run];
    }

    method IsCancelled(run: RunId) returns (cancelled: bool)
      ensures cancelled <==> run in cancellations
    {
      cancelled := run in cancellations;
    }
  }
}
