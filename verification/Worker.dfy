/**
 Deployed workers: recovery of lost hints, delivery of the outbox, and the report
 that ends a claim.
 */
module Worker {
  import opened Graph
  import opened Plan
  import opened RunState
  import opened Transitions
  import opened Blame
  import opened Steps
  import opened Runs
  import opened Store
  import opened Calls
  import opened Repository
  import opened Coordination
  import opened Submission
  import opened Retries
  import opened Effects
  import Outbox

  // ---------------------------------------------------------------------------
  // Reconciliation
  // ---------------------------------------------------------------------------

  predicate InTable(runs: RunTable, ids: seq<RunId>) {
    forall i :: 0 <= i < |ids| ==> ids[i] in runs
  }

  // Every claimable agent of the listed runs.
  function AllReady(runs: RunTable, ids: seq<RunId>): seq<Pair>
    requires InTable(runs, ids)
  {
    if ids == [] then []
    else
      var last := |ids| - 1;
      AllReady(runs, ids[..last]) + OnRun(ids[last], Claimable(runs[ids[last]]))
  }

  // The pairs are added in order, unless they are there already.
  function Merge(known: seq<Pair>, pairs: seq<Pair>): seq<Pair> {
    if pairs == [] then known
    else
      var merged := Merge(known, pairs[..|pairs| - 1]);
      var last := pairs[|pairs| - 1];
      if last in merged then merged else merged + [last]
  }

  lemma {:induction false} MergeMembers(known: seq<Pair>, pairs: seq<Pair>)
    ensures forall p :: p in Merge(known, pairs) <==> p in known || p in pairs
    ensures DistinctPairs(known) ==> DistinctPairs(Merge(known, pairs))
  {
    if pairs == [] {
    } else {
      var init, last := pairs[..|pairs| - 1], pairs[|pairs| - 1];
      MergeMembers(known, init);
      assert pairs == init + [last];
      var merged := Merge(known, init);
      assert (merged + [last])[..|merged|] == merged;
    }
  }

  lemma {:induction false} MergeAppend(known: seq<Pair>, a: seq<Pair>, b: seq<Pair>)
    ensures Merge(known, a + b) == Merge(Merge(known, a), b)
  {
    if b == [] {
      assert a + b == a;
    } else {
      var init, last := b[..|b| - 1], b[|b| - 1];
      MergeAppend(known, a, init);
      assert (a + b)[..|a + b| - 1] == a + init;
    }
  }

  lemma {:induction false} AllReadyMembers(runs: RunTable, ids: seq<RunId>, r: RunId, n: Name)
    requires InTable(runs, ids)
    ensures (r, n) in AllReady(runs, ids) <==> r in ids && r in runs && n in Claimable(runs[r])
  {
    if ids == [] {
    } else {
      var init, last := ids[..|ids| - 1], ids[|ids| - 1];
      AllReadyMembers(runs, init, r, n);
      OnRunMembers(last, Claimable(runs[last]), r, n);
      assert ids == init + [last];
    }
  }

  lemma OnRunMembers(runId: RunId, names: seq<Name>, r: RunId, n: Name)
    ensures (r, n) in OnRun(runId, names) <==> r == runId && n in names
  {
    if r == runId && n in names {
      var i :| 0 <= i < |names| && names[i] == n;
      assert OnRun(runId, names)[i] == (r, n);
    }
  }

  /** The agents of one run that were not published in this pass. */
  method PublishMissing(repository: DeployedRepository, coordinator: InMemoryCoordinator,
                        runId: RunId, names: seq<Name>, done: seq<Pair>) returns (requeued: seq<Pair>, added: seq<Pair>)
    modifies repository`outbox, coordinator`jobs, coordinator`history
    ensures requeued == Merge(done, OnRun(runId, names)) == done + added
    ensures ChannelsOf(repository, coordinator) == AnnounceAll(old(ChannelsOf(repository, coordinator)), added)
  {
    ghost var before := ChannelsOf(repository, coordinator);
    requeued, added := done, [];
    for i := 0 to |names|
      invariant requeued == Merge(done, OnRun(runId, names[..i])) == done + added
      invariant ChannelsOf(repository, coordinator) == AnnounceAll(before, added)
    {
      var p := (runId, names[i]);
      assert OnRun(runId, names[..i + 1])[..i] == OnRun(runId, names[..i]);
      if p !in requeued {
        PublishReadyAgent(repository, coordinator, runId, names[i]);
        AnnounceNext(before, added, p);
        requeued, added := requeued + [p], added + [p];
      }
    }
    assert names[..|names|] == names;
  }

  /** The requeued agents of the expiry pass, as they are reported. */
  method PublishPairs(repository: DeployedRepository, coordinator: InMemoryCoordinator, pairs: seq<Pair>)
    modifies repository`outbox, coordinator`jobs, coordinator`history
    ensures ChannelsOf(repository, coordinator) == AnnounceAll(old(ChannelsOf(repository, coordinator)), pairs)
  {
    ghost var before := ChannelsOf(repository, coordinator);
    for i := 0 to |pairs|
      invariant ChannelsOf(repository, coordinator) == AnnounceAll(before, pairs[..i])
    {
      assert pairs[..i + 1] == pairs[..i] + [pairs[i]];
      AnnounceNext(before, pairs[..i], pairs[i]);
      PublishReadyAgent(repository, coordinator, pairs[i].0, pairs[i].1);
    }
    assert pairs[..|pairs|] == pairs;
  }

  lemma ReadyNext(runs: RunTable, ids: seq<RunId>, i: nat, done: seq<Pair>)
    requires i < |ids| && InTable(runs, ids)
    ensures InTable(runs, ids[..i]) && InTable(runs, ids[..i + 1])
    ensures Merge(done, AllReady(runs, ids[..i + 1]))
         == Merge(Merge(done, AllReady(runs, ids[..i])), OnRun(ids[i], Claimable(runs[ids[i]])))
  {
    assert ids[..i + 1][..i] == ids[..i];
    MergeAppend(done, AllReady(runs, ids[..i]), OnRun(ids[i], Claimable(runs[ids[i]])));
  }

  lemma Regroup(a: seq<Pair>, b: seq<Pair>, c: seq<Pair>)
    ensures (a + b) + c == a + (b + c)
  {
  }

  method PublishRun(repository: DeployedRepository, coordinator: InMemoryCoordinator, runId: RunId, done: seq<Pair>)
    returns (requeued: seq<Pair>, added: seq<Pair>)
    requires repository.Valid() && runId in repository.runs
    modifies repository`outbox, coordinator`jobs, coordinator`history
    ensures requeued == Merge(done, OnRun(runId, Claimable(repository.runs[runId]))) == done + added
    ensures ChannelsOf(repository, coordinator) == AnnounceAll(old(ChannelsOf(repository, coordinator)), added)
  {
    var names := repository.ReadyAgents(runId);
    requeued, added := PublishMissing(repository, coordinator, runId, names, done);
  }

  method PublishReadyOf(repository: DeployedRepository, coordinator: InMemoryCoordinator,
                        ids: seq<RunId>, done: seq<Pair>)
    returns (requeued: seq<Pair>, added: seq<Pair>)
    requires repository.Valid() && InTable(repository.runs, ids)
    modifies repository`outbox, coordinator`jobs, coordinator`history
    ensures requeued == Merge(done, AllReady(repository.runs, ids)) == done + added
    ensures ChannelsOf(repository, coordinator) == AnnounceAll(old(ChannelsOf(repository, coordinator)), added)
  {
    ghost var before := ChannelsOf(repository, coordinator);
    requeued, added := done, [];
    for i := 0 to |ids|
      invariant InTable(repository.runs, ids[..i])
      invariant requeued == Merge(done, AllReady(repository.runs, ids[..i])) == done + added
      invariant ChannelsOf(repository, coordinator) == AnnounceAll(before, added)
    {
      ReadyNext(repository.runs, ids, i, done);
      var more;
      requeued, more := PublishRun(repository, coordinator, ids[i], requeued);
      AnnounceThen(before, added, more);
      Regroup(done, added, more);
      added := added + more;
    }
    assert ids[..|ids|] == ids;
  }

  // Every claimable agent of the runs is among the pairs.
  ghost predicate Covered(runs: RunTable, ids: seq<RunId>, pairs: seq<Pair>) {
    forall r, n :: r in ids && r in runs && n in Claimable(runs[r]) ==> (r, n) in pairs
  }

  // Every pair was reported by the expiry pass or is claimable.
  ghost predicate Justified(runs: RunTable, ids: seq<RunId>, expired: seq<Pair>, pairs: seq<Pair>) {
    forall r, n :: (r, n) in pairs ==> (r, n) in expired || (r in ids && r in runs && n in Claimable(runs[r]))
  }

  lemma MergeCovers(runs: RunTable, ids: seq<RunId>, expired: seq<Pair>)
    requires InTable(runs, ids)
    ensures var merged := Merge(expired, AllReady(runs, ids));
            Covered(runs, ids, merged) && Justified(runs, ids, expired, merged)
    ensures DistinctPairs(expired) ==> DistinctPairs(Merge(expired, AllReady(runs, ids)))
  {
    MergeMembers(expired, AllReady(runs, ids));
    var merged := Merge(expired, AllReady(runs, ids));
    forall r, n | r in ids && r in runs && n in Claimable(runs[r]) ensures (r, n) in merged {
      AllReadyMembers(runs, ids, r, n);
    }
    forall r, n | (r, n) in merged
      ensures (r, n) in expired || (r in ids && r in runs && n in Claimable(runs[r]))
    {
      if (r, n) !in expired {
        AllReadyMembers(runs, ids, r, n);
      }
    }
  }

  /**
   One undisturbed pass: stale leases expire, and every agent that may then start in a
   listed run has its hint in the stream, once.
   */
  method ReconcileReadyAgents(repository: DeployedRepository, coordinator: InMemoryCoordinator,
                              now: int, read: seq<Pair>)
    returns (requeued: seq<Pair>)
    requires repository.Valid() && StalePairs(repository.runs, now, read)
    modifies repository`runs, repository`outbox, coordinator`jobs, coordinator`history
    ensures repository.Valid() && Known(old(repository.runs), read)
    ensures repository.runs == AfterPass(old(repository.runs), read)
    ensures ChannelsOf(repository, coordinator) == AnnounceAll(old(ChannelsOf(repository, coordinator)), requeued)
    ensures Covered(repository.runs, Newest(repository.listing, 1000), requeued)
    ensures Justified(repository.runs, Newest(repository.listing, 1000),
                      StoreHints(old(repository.runs), read), requeued)
    ensures |repository.listing| <= 1000 ==>
              forall r :: r in repository.runs ==> r in Newest(repository.listing, 1000)
    ensures old(AllGood(repository.runs)) ==> AllGood(repository.runs) && DistinctPairs(requeued)
  {
    ghost var before, channels := repository.runs, ChannelsOf(repository, coordinator);
    var expired := repository.ExpireStaleLeases(now, read);
    PublishPairs(repository, coordinator, expired);
    var ids := repository.ListRuns(1000);
    var added;
    requeued, added := PublishReadyOf(repository, coordinator, ids, expired);
    AnnounceThen(channels, expired, added);
    MergeCovers(repository.runs, ids, expired);
    if AllGood(before) {
      PassReport(before, now, read);
    }
  }

  // The state of a run after the pass, with its roll-up.
  function AfterPass(runs: RunTable, read: seq<Pair>): RunTable
    requires Known(runs, read)
  {
    RefreshAll(StoreExpire(runs, read), RunsOf(read))
  }

  lemma PassKeepsWaiting(runs: RunTable, now: int, read: seq<Pair>, r: RunId)
    requires AllGood(runs) && StalePairs(runs, now, read) && r in runs
    requires NoneBlamed(runs[r].agents) && NoneStranded(runs[r].agents)
    ensures Known(runs, read)
    ensures Good(AfterPass(runs, read)[r])
    ensures NoneBlamed(AfterPass(runs, read)[r].agents) && NoneStranded(AfterPass(runs, read)[r].agents)
  {
    StaleOfRun(runs, now, read, r);
    GoodRun(runs, r);
    PassSplitsByRun(runs, read, r);
    ExpireWaiting(runs[r], now, OfRun(read, r));
    ExpiryKeepsGood(runs, now, read);
    GoodRun(AfterPass(runs, read), r);
    assert AfterPass(runs, read)[r].agents == StoreExpire(runs, read)[r].agents;
  }

  lemma IdleRunClaimable(s: State)
    requires Good(s) && NoneBlamed(s.agents) && NoneStranded(s.agents) && !AllTerminal(s.agents)
    requires WithStatus(s.agents, Running) == {} && WithStatus(s.agents, Paused) == {}
    ensures exists n :: MayClaim(s, n)
  {
    var live :| live in s.agents && !s.agents[live].status.Terminal();
    assert live in NonTerminal(s.agents);
    SomebodyCanMove(s);
    ClaimableWhenIdle(s);
  }

  // Recovery after any loss of hints: when a run that nobody resumed is idle but not over
  // after the pass, the pass has put a hint in the stream that a worker can claim.
  lemma ReconcileWakes(plan: PlanSpec, states: seq<State>, steps: seq<Step>,
                       runs: RunTable, now: int, read: seq<Pair>, ids: seq<RunId>, requeued: seq<Pair>, r: RunId)
    requires Execution(plan, states, steps) && NoResume(steps) && NoAgentCancel(steps)
    requires AllGood(runs) && StalePairs(runs, now, read) && r in runs && runs[r] == states[|steps|]
    ensures Known(runs, read)
    ensures var t := AfterPass(runs, read)[r];
            && Covered(AfterPass(runs, read), ids, requeued) && r in ids && !AllTerminal(t.agents)
            && WithStatus(t.agents, Running) == {} && WithStatus(t.agents, Paused) == {}
            ==> exists n :: (r, n) in requeued && MayClaim(t, n)
  {
    Reached(plan, states, steps, |steps|);
    PassKeepsWaiting(runs, now, read, r);
    var after := AfterPass(runs, read);
    var t := after[r];
    if Covered(after, ids, requeued) && r in ids && !AllTerminal(t.agents)
       && WithStatus(t.agents, Running) == {} && WithStatus(t.agents, Paused) == {} {
      IdleRunClaimable(t);
      var n :| MayClaim(t, n);
      assert (r, n) in requeued;
    }
  }

  // The pass over all runs keeps them intact and reports each agent at most once.
  lemma PassReport(runs: RunTable, now: int, read: seq<Pair>)
    requires AllGood(runs) && StalePairs(runs, now, read)
    ensures Known(runs, read)
    ensures StoreHints(runs, read) == Retryable(runs, read) && DistinctPairs(StoreHints(runs, read))
    ensures AllGood(RefreshAll(StoreExpire(runs, read), RunsOf(read)))
  {
    StaleAreRunning(runs, now, read);
    HintsAreRetries(runs, read);
    RetryableDistinct(runs, read);
    ExpiryKeepsGood(runs, now, read);
  }

  // ---------------------------------------------------------------------------
  // Delivery of the outbox
  // ---------------------------------------------------------------------------

  // Where handling a row may raise.
  datatype Fault = NoFault | SendFault | MarkFault

  function DrainedRows(outbox: seq<OutboxRow>, ids: seq<nat>, faults: nat -> Fault, until: int): seq<OutboxRow> {
    if ids == [] then outbox
    else
      var last := ids[|ids| - 1];
      var before := DrainedRows(outbox, ids[..|ids| - 1], faults, until);
      DrainOne(before, last, faults(last), until)
  }

  function DrainOne(outbox: seq<OutboxRow>, id: nat, fault: Fault, until: int): seq<OutboxRow> {
    if fault == NoFault then Published(outbox, id) else Postponed(outbox, id, until)
  }

  function HintSent(row: OutboxRow, fault: Fault): seq<Pair> {
    if fault != SendFault && Outbox.IsHint(row) then [Outbox.HintOf(row)] else []
  }

  function DrainedHints(outbox: seq<OutboxRow>, ids: seq<nat>, faults: nat -> Fault): seq<Pair> {
    if ids == [] then []
    else
      var last := ids[|ids| - 1];
      DrainedHints(outbox, ids[..|ids| - 1], faults)
      + if last < |outbox| then HintSent(outbox[last], faults(last)) else []
  }

  ghost predicate SameAnnouncement(a: OutboxRow, b: OutboxRow) {
    a.run == b.run && a.agent == b.agent && a.event == b.event
  }

  // Of the rows handled exactly those without a fault become published, and the hint of
  // every one of these is sent.
  lemma {:induction false} DrainDelivers(outbox: seq<OutboxRow>, ids: seq<nat>, faults: nat -> Fault,
                                         until: int, id: nat)
    requires id < |outbox|
    ensures |DrainedRows(outbox, ids, faults, until)| == |outbox|
    ensures SameAnnouncement(outbox[id], DrainedRows(outbox, ids, faults, until)[id])
    ensures DrainedRows(outbox, ids, faults, until)[id].published
            <==> (outbox[id].published || (id in ids && faults(id) == NoFault))
    ensures id in ids && faults(id) != SendFault && Outbox.IsHint(outbox[id]) ==>
              Outbox.HintOf(outbox[id]) in DrainedHints(outbox, ids, faults)
  {
    if ids == [] {
    } else {
      var init, last := ids[..|ids| - 1], ids[|ids| - 1];
      DrainDelivers(outbox, init, faults, until, id);
      assert ids == init + [last];
    }
  }

  // Every published hint has been sent.
  ghost predicate Delivered(outbox: seq<OutboxRow>, history: seq<Pair>) {
    forall id :: 0 <= id < |outbox| && outbox[id].published && Outbox.IsHint(outbox[id]) ==>
      Outbox.HintOf(outbox[id]) in history
  }

  // A drain pass loses no hint, whatever fails and whichever rows it reads.
  lemma DrainKeepsDelivered(c: Channels, ids: seq<nat>, faults: nat -> Fault, until: int)
    requires Delivered(c.outbox, c.history)
    ensures Delivered(Drained(c, ids, faults, until).outbox, Drained(c, ids, faults, until).history)
  {
    var after := DrainedRows(c.outbox, ids, faults, until);
    if c.outbox != [] {
      DrainDelivers(c.outbox, ids, faults, until, 0);
    } else {
      DrainNothing(ids, faults, until);
    }
    forall id | 0 <= id < |after| && after[id].published && Outbox.IsHint(after[id])
      ensures Outbox.HintOf(after[id]) in c.history + DrainedHints(c.outbox, ids, faults)
    {
      DrainDelivers(c.outbox, ids, faults, until, id);
    }
  }

  // And so does a publisher.
  lemma AnnounceKeepsDelivered(c: Channels, hints: seq<Pair>)
    requires Delivered(c.outbox, c.history)
    ensures Delivered(AnnounceAll(c, hints).outbox, AnnounceAll(c, hints).history)
  {
    AnnounceDelivers(c, hints);
    var t := AnnounceAll(c, hints);
    forall id | 0 <= id < |t.outbox| && t.outbox[id].published && Outbox.IsHint(t.outbox[id])
      ensures Outbox.HintOf(t.outbox[id]) in t.history
    {
      if id < |c.outbox| {
        assert t.outbox[..|c.outbox|][id] == c.outbox[id];
      } else {
        assert t.outbox[id] == DeliveredRow(hints[id - |c.outbox|]);
      }
    }
  }

  lemma {:induction false} DrainNothing(ids: seq<nat>, faults: nat -> Fault, until: int)
    ensures DrainedRows([], ids, faults, until) == []
  {
    if ids == [] {
    } else {
      DrainNothing(ids[..|ids| - 1], faults, until);
    }
  }

  function Enqueued(jobs: seq<AgentJob>, hints: seq<Pair>): seq<AgentJob> {
    if hints == [] then jobs
    else
      var before := Enqueued(jobs, hints[..|hints| - 1]);
      before + [AgentJob(hints[|hints| - 1].0, hints[|hints| - 1].1, |before| + 1)]
  }

  lemma EnqueuedNext(jobs: seq<AgentJob>, hints: seq<Pair>, sent: seq<Pair>)
    requires |sent| <= 1
    ensures Enqueued(jobs, hints + sent) == Enqueued(Enqueued(jobs, hints), sent)
  {
    if sent == [] {
      assert hints + sent == hints;
    } else {
      assert (hints + sent)[..|hints|] == hints && sent[..0] == [];
    }
  }

  lemma EnqueuedOne(jobs: seq<AgentJob>, p: Pair)
    ensures Enqueued(jobs, [p]) == jobs + [AgentJob(p.0, p.1, |jobs| + 1)]
  {
    assert [p][..0] == [];
  }

  // One row of the pass, and the first rows of the pass.
  function DrainStep(c: Channels, id: nat, fault: Fault, until: int): Channels
    requires id < |c.outbox|
  {
    var sent := HintSent(c.outbox[id], fault);
    Channels(DrainOne(c.outbox, id, fault, until), Enqueued(c.jobs, sent), c.history + sent)
  }

  function Drained(c: Channels, ids: seq<nat>, faults: nat -> Fault, until: int): Channels {
    var hints := DrainedHints(c.outbox, ids, faults);
    Channels(DrainedRows(c.outbox, ids, faults, until), Enqueued(c.jobs, hints), c.history + hints)
  }

  lemma DrainNextRows(outbox: seq<OutboxRow>, ids: seq<nat>, faults: nat -> Fault, until: int, i: nat)
    requires i < |ids| && ids[i] < |outbox|
    ensures var before := DrainedRows(outbox, ids[..i], faults, until);
            && |before| == |outbox| && SameAnnouncement(outbox[ids[i]], before[ids[i]])
            && DrainedRows(outbox, ids[..i + 1], faults, until) == DrainOne(before, ids[i], faults(ids[i]), until)
  {
    assert ids[..i + 1][..i] == ids[..i];
    DrainDelivers(outbox, ids[..i], faults, until, ids[i]);
  }

  lemma DrainNextHints(outbox: seq<OutboxRow>, ids: seq<nat>, faults: nat -> Fault, i: nat)
    requires i < |ids| && ids[i] < |outbox|
    ensures DrainedHints(outbox, ids[..i + 1], faults)
         == DrainedHints(outbox, ids[..i], faults) + HintSent(outbox[ids[i]], faults(ids[i]))
  {
    assert ids[..i + 1][..i] == ids[..i];
  }

  lemma DrainNext(c: Channels, ids: seq<nat>, faults: nat -> Fault, until: int, i: nat)
    requires i < |ids| && ids[i] < |c.outbox|
    ensures var before := Drained(c, ids[..i], faults, until);
            && ids[i] < |before.outbox|
            && Drained(c, ids[..i + 1], faults, until) == DrainStep(before, ids[i], faults(ids[i]), until)
            && DrainedHints(c.outbox, ids[..i + 1], faults)
               == DrainedHints(c.outbox, ids[..i], faults) + HintSent(before.outbox[ids[i]], faults(ids[i]))
  {
    DrainNextRows(c.outbox, ids, faults, until, i);
    DrainNextHints(c.outbox, ids, faults, i);
    EnqueuedNext(c.jobs, DrainedHints(c.outbox, ids[..i], faults), HintSent(c.outbox[ids[i]], faults(ids[i])));
  }

  /** One row: its hint, then the mark; an exception at either place postpones the row. */
  method DrainRow(repository: DeployedRepository, coordinator: InMemoryCoordinator, id: nat, fault: Fault, until: int)
    returns (sent: seq<Pair>)
    requires id < |repository.outbox|
    modifies repository`outbox, coordinator`jobs, coordinator`history
    ensures sent == HintSent(old(repository.outbox)[id], fault)
    ensures ChannelsOf(repository, coordinator) == DrainStep(old(ChannelsOf(repository, coordinator)), id, fault, until)
  {
    var row := repository.outbox[id];
    sent := [];
    if fault != SendFault && row.event == AgentReady && row.agent.Some? && row.agent.value != "" {
      EnqueuedOne(coordinator.jobs, (row.run, row.agent.value));
      coordinator.EnqueueAgent(row.run, row.agent.value);
      sent := [(row.run, row.agent.value)];
    }
    if fault == NoFault {
      repository.MarkOutboxPublished(id);
    } else {
      repository.MarkOutboxRetry(id, until);
    }
  }

  // The ids that one pass reads.
  function FirstDue(outbox: seq<OutboxRow>, limit: nat, now: int): (ids: seq<nat>)
    ensures forall i :: 0 <= i < |ids| ==> ids[i] < |outbox|
  {
    DueIdsExact(outbox, now);
    var due := DueIds(outbox, now);
    var ids := if |due| < limit then due else due[..limit];
    assert forall i :: 0 <= i < |ids| ==> ids[i] in due;
    ids
  }

  /** A failing row is postponed, and the loop goes on. */
  method DrainQueueOutbox(repository: DeployedRepository, coordinator: InMemoryCoordinator,
                          limit: nat, now: int, until: int, faults: nat -> Fault) returns (published: seq<Pair>)
    modifies repository`outbox, coordinator`jobs, coordinator`history
    ensures var ids := FirstDue(old(repository.outbox), limit, now);
            && ChannelsOf(repository, coordinator)
               == Drained(old(ChannelsOf(repository, coordinator)), ids, faults, until)
            && published == DrainedHints(old(repository.outbox), ids, faults)
  {
    ghost var before := ChannelsOf(repository, coordinator);
    var ids := repository.PendingQueueOutbox(limit, now);
    assert ids == FirstDue(before.outbox, limit, now);
    published := [];
    for i := 0 to |ids|
      invariant ChannelsOf(repository, coordinator) == Drained(before, ids[..i], faults, until)
      invariant published == DrainedHints(before.outbox, ids[..i], faults)
    {
      DrainNext(before, ids, faults, until, i);
      var sent := DrainRow(repository, coordinator, ids[i], faults(ids[i]), until);
      published := published + sent;
    }
    assert ids[..|ids|] == ids;
  }

  ghost predicate DistinctIds(ids: seq<nat>) {
    forall i, j :: 0 <= i < j < |ids| ==> ids[i] != ids[j]
  }

  // A row that raised is postponed and counts the attempt; a row that was not read stays.
  lemma {:induction false} DrainPostpones(outbox: seq<OutboxRow>, ids: seq<nat>, faults: nat -> Fault,
                                          until: int, id: nat)
    requires id < |outbox| && DistinctIds(ids)
    ensures |DrainedRows(outbox, ids, faults, until)| == |outbox|
    ensures DrainedRows(outbox, ids, faults, until)[id]
         == if id !in ids then outbox[id]
            else if faults(id) == NoFault then outbox[id].(published := true)
            else outbox[id].(attempts := outbox[id].attempts + 1, nextAttempt := Some(until))
  {
    if ids == [] {
    } else {
      var init, last := ids[..|ids| - 1], ids[|ids| - 1];
      DrainPostpones(outbox, init, faults, until, id);
      assert ids == init + [last];
    }
  }

  // A pass without faults that reads all due rows leaves none of them pending.
  lemma QuietDrainFinishes(outbox: seq<OutboxRow>, now: int, until: int, faults: nat -> Fault, id: nat)
    requires id < |outbox| && Due(outbox[id], now) && forall j: nat :: faults(j) == NoFault
    ensures id < |DrainedRows(outbox, DueIds(outbox, now), faults, until)|
    ensures DrainedRows(outbox, DueIds(outbox, now), faults, until)[id].published
    ensures Outbox.IsHint(outbox[id]) ==> Outbox.HintOf(outbox[id]) in DrainedHints(outbox, DueIds(outbox, now), faults)
  {
    DueIdsExact(outbox, now);
    DrainDelivers(outbox, DueIds(outbox, now), faults, until, id);
  }

  // ---------------------------------------------------------------------------
  // The writes of these loops are the moves of the outbox protocol
  // ---------------------------------------------------------------------------

  function Play(w: Outbox.World, who: nat, moves: seq<Outbox.Move>): Outbox.World
    decreases |moves|
  {
    if moves == [] then w else Play(Outbox.Next(w, who, moves[0]), who, moves[1..])
  }

  lemma PublishIsMoves(w: Outbox.World, who: nat, p: Pair)
    requires Outbox.At(w, who) == Outbox.Idle
    ensures var t := Play(w, who, [Outbox.Announce(p.0, Some(p.1), AgentReady), Outbox.Send, Outbox.Mark]);
            && Outbox.At(t, who) == Outbox.Idle
            && t.outbox == w.outbox + [DeliveredRow(p)] && t.stream == w.stream + [p]
  {
    var moves := [Outbox.Announce(p.0, Some(p.1), AgentReady), Outbox.Send, Outbox.Mark];
    assert moves[1..] == [Outbox.Send, Outbox.Mark] && moves[1..][1..] == [Outbox.Mark] && moves[1..][1..][1..] == [];
    var a := Outbox.Next(w, who, moves[0]);
    assert a.outbox == w.outbox + [OutboxRow(p.0, Some(p.1), AgentReady, false, 0, None)];
    var b := Outbox.Next(a, who, Outbox.Send);
    assert b.stream == w.stream + [p] && b.outbox == a.outbox;
    var c := Outbox.Next(b, who, Outbox.Mark);
    assert c.outbox == w.outbox + [DeliveredRow(p)];
    PlayThree(w, who, moves);
  }

  lemma PlayThree(w: Outbox.World, who: nat, moves: seq<Outbox.Move>)
    requires |moves| == 3
    ensures Play(w, who, moves) == Outbox.Next(Outbox.Next(Outbox.Next(w, who, moves[0]), who, moves[1]), who, moves[2])
  {
    PlayTwo(Outbox.Next(w, who, moves[0]), who, moves[1..]);
  }

  lemma PlayTwo(w: Outbox.World, who: nat, moves: seq<Outbox.Move>)
    requires |moves| == 2
    ensures Play(w, who, moves) == Outbox.Next(Outbox.Next(w, who, moves[0]), who, moves[1])
  {
    var next, rest := Outbox.Next(w, who, moves[0]), moves[1..];
    assert Play(w, who, moves) == Play(next, who, rest);
    assert rest[1..] == [];
    assert Play(next, who, rest) == Play(Outbox.Next(next, who, rest[0]), who, []);
  }

  function DrainMoves(fault: Fault, until: int): seq<Outbox.Move> {
    match fault
    case NoFault => [Outbox.Send, Outbox.Mark]
    case SendFault => [Outbox.Raise, Outbox.Postpone(until)]
    case MarkFault => [Outbox.Send, Outbox.Raise, Outbox.Postpone(until)]
  }

  lemma DrainIsMoves(w: Outbox.World, who: nat, fault: Fault, until: int)
    requires Outbox.At(w, who).Draining? && Outbox.At(w, who).todo != [] && Outbox.At(w, who).todo[0] < |w.outbox|
    ensures var todo := Outbox.At(w, who).todo;
            var t := Play(w, who, DrainMoves(fault, until));
            && Outbox.At(t, who) == Outbox.Draining(todo[1..])
            && t.outbox == DrainOne(w.outbox, todo[0], fault, until)
            && t.stream == w.stream + HintSent(w.outbox[todo[0]], fault)
  {
    match fault
    case NoFault => PlayTwo(w, who, DrainMoves(fault, until));
    case SendFault => PlayTwo(w, who, DrainMoves(fault, until));
    case MarkFault => PlayThree(w, who, DrainMoves(fault, until));
  }

  // ---------------------------------------------------------------------------
  // The end of a claim
  // ---------------------------------------------------------------------------

  // What came of the setup, the runtime, the check and the delivery of a claimed agent.
  datatype Outcome =
    | Succeeded(cost: real)
    | Broke(retryable: Option<bool>, terminal: Status)
    | Interrupted                       // the run was cancelled or the lease was lost

  /** `_fail_claimed_agent`; the answer is the status that the worker reports. */
  method FailClaimedAgent(repository: DeployedRepository, coordinator: InMemoryCoordinator,
                          claimed: ClaimedAgent, retryable: Option<bool>, terminal: Status) returns (status: Status)
    requires repository.Valid()
    modifies repository`runs, repository`outbox, coordinator`jobs, coordinator`history
    ensures repository.Valid()
    ensures var runs := old(repository.runs); var r := claimed.run;
            if r in runs then
              var queued := FailQueued(runs[r], claimed.name, Some(claimed.attemptId), retryable, terminal);
              && OnlyRun(runs, repository.runs, r,
                         FailCall(runs[r], claimed.name, Some(claimed.attemptId), retryable, terminal))
              && ChannelsOf(repository, coordinator)
                 == AnnounceAll(old(ChannelsOf(repository, coordinator)), OnRun(r, queued))
              && status == (if claimed.name in queued then Queued else terminal)
            else
              repository.runs == runs && status == terminal
              && ChannelsOf(repository, coordinator) == old(ChannelsOf(repository, coordinator))
  {
    var queued := repository.FailAgent(claimed.run, claimed.name, Some(claimed.attemptId), retryable, terminal);
    PublishAll(repository, coordinator, claimed.run, queued);
    status := if claimed.name in queued then Queued else terminal;
  }

  // What the report of a worker makes of the run.
  function Reported(s: State, c: ClaimedAgent, outcome: Outcome): State {
    match outcome
    case Succeeded(cost) => MarkReady(CompleteCall(s, c.name, cost, Some(c.attemptId)))
    case Broke(retryable, terminal) => FailCall(s, c.name, Some(c.attemptId), retryable, terminal)
    case Interrupted => CancelCall(s, c.name)
  }

  // The status that the worker reports, and the hints it publishes.
  function ReportedStatus(s: State, c: ClaimedAgent, outcome: Outcome): Status {
    match outcome
    case Succeeded(_) => Completed
    case Broke(retryable, terminal) =>
      if c.name in FailQueued(s, c.name, Some(c.attemptId), retryable, terminal) then Queued else terminal
    case Interrupted => Cancelled
  }

  function ReportedHints(s: State, c: ClaimedAgent, outcome: Outcome): seq<Pair> {
    match outcome
    case Succeeded(cost) =>
      OnRun(c.run, CompleteReady(s, c.name, cost, Some(c.attemptId))) + OnRun(c.run, Claimable(Reported(s, c, outcome)))
    case Broke(retryable, terminal) => OnRun(c.run, FailQueued(s, c.name, Some(c.attemptId), retryable, terminal))
    case Interrupted => []
  }

  /** The end of `_execute_claimed`: dependents are announced, and released once more. */
  method CompleteClaimedAgent(repository: DeployedRepository, coordinator: InMemoryCoordinator,
                              claimed: ClaimedAgent, cost: real)
    returns (ready: seq<Name>, more: seq<Name>)
    requires repository.Valid()
    modifies repository`runs, repository`outbox, coordinator`jobs, coordinator`history
    ensures repository.Valid()
    ensures claimed.run !in old(repository.runs) ==>
              repository.runs == old(repository.runs) && ready == more == []
    ensures claimed.run in old(repository.runs) ==>
              && OnlyRun(old(repository.runs), repository.runs, claimed.run,
                         MarkReady(CompleteCall(old(repository.runs)[claimed.run], claimed.name, cost,
                                                Some(claimed.attemptId))))
              && ready == CompleteReady(old(repository.runs)[claimed.run], claimed.name, cost, Some(claimed.attemptId))
              && more == Claimable(repository.runs[claimed.run])
    ensures ChannelsOf(repository, coordinator)
         == AnnounceAll(old(ChannelsOf(repository, coordinator)), OnRun(claimed.run, ready) + OnRun(claimed.run, more))
  {
    ghost var before := ChannelsOf(repository, coordinator);
    ghost var runs := repository.runs;
    ready := repository.CompleteAgent(claimed.run, claimed.name, cost, Some(claimed.attemptId));
    PublishAll(repository, coordinator, claimed.run, ready);
    ghost var table := repository.runs;
    more := EnqueueNewlyReadyAgents(claimed.run, repository, coordinator);
    if claimed.run in runs {
      OnlyRunTwice(runs, table, repository.runs, claimed.run, table[claimed.run], MarkReady(table[claimed.run]));
    }
    AnnounceThen(before, OnRun(claimed.run, ready), OnRun(claimed.run, more));
  }

  // What the worker finds when it starts on a claim.
  datatype Lookup = Missing | NotInSpec | Found

  method LookUpClaimed(repository: DeployedRepository, claimed: ClaimedAgent) returns (found: Lookup)
    ensures found == Missing <==>
              claimed.run !in repository.runs || claimed.name !in repository.runs[claimed.run].agents
    ensures found == Found ==> exists i :: 0 <= i < |repository.runs[claimed.run].spec|
                                 && repository.runs[claimed.run].spec[i].name == claimed.name
    ensures found != Missing && Good(repository.runs[claimed.run]) ==> found == Found
  {
    if claimed.run !in repository.runs || claimed.name !in repository.runs[claimed.run].agents {
      return Missing;
    }
    var s := repository.runs[claimed.run];
    var agent := FindAgent(s.spec, claimed.name);
    if Good(s) {
      SpecHoldsAgent(s, claimed.name);
    }
    if agent == None {
      return NotInSpec;
    }
    FindAgentIn(s.spec, claimed.name);
    found := Found;
  }

  lemma {:induction false} FindAgentIn(spec: seq<AgentSpec>, n: Name)
    requires FindAgent(spec, n).Some?
    ensures exists i :: 0 <= i < |spec| && spec[i].name == n
  {
    if spec[0].name == n {
    } else {
      FindAgentIn(spec[1..], n);
      var i :| 0 <= i < |spec[1..]| && spec[1..][i].name == n;
      assert spec[i + 1].name == n;
    }
  }

  /**
   The rest of `_execute_claimed`, once the foreign calls came to an outcome.  Any steps
   may have been taken since the claim was looked up.
   */
  method FinishClaimed(repository: DeployedRepository, coordinator: InMemoryCoordinator,
                       claimed: ClaimedAgent, found: Lookup, outcome: Outcome) returns (status: Option<Status>)
    requires repository.Valid()
    modifies repository`runs, repository`outbox, coordinator`jobs, coordinator`history
    ensures repository.Valid()
    ensures status == None <==> found == Missing
    ensures var runs := old(repository.runs); var r := claimed.run;
            var actual := if found == NotInSpec then Broke(Some(false), Failed) else outcome;
            if found == Missing || r !in runs then
              repository.runs == runs && ChannelsOf(repository, coordinator) == old(ChannelsOf(repository, coordinator))
            else
              && OnlyRun(runs, repository.runs, r, Reported(runs[r], claimed, actual))
              && status == Some(ReportedStatus(runs[r], claimed, actual))
              && ChannelsOf(repository, coordinator)
                 == AnnounceAll(old(ChannelsOf(repository, coordinator)), ReportedHints(runs[r], claimed, actual))
  {
    if found == Missing {
      return None;
    }
    if found == NotInSpec {
      var failed := FailClaimedAgent(repository, coordinator, claimed, Some(false), Failed);
      return Some(failed);
    }
    match outcome {
      case Broke(retryable, terminal) =>
        var failed := FailClaimedAgent(repository, coordinator, claimed, retryable, terminal);
        status := Some(failed);
      case Interrupted =>
        var _ := repository.CancelAgent(claimed.run, claimed.name);
        status := Some(Cancelled);
      case Succeeded(cost) =>
        var _, _ := CompleteClaimedAgent(repository, coordinator, claimed, cost);
        status := Some(Completed);
    }
  }

  // A worker whose attempt is over changes nothing, unless it was interrupted.
  lemma LateOutcomeIgnored(s: State, c: ClaimedAgent, outcome: Outcome)
    requires Good(s) && !outcome.Interrupted?
    requires !(c.attemptId < |s.attempts| && s.attempts[c.attemptId].agent == c.name
               && s.attempts[c.attemptId].status == AttemptRunning)
    ensures Reported(s, c, outcome) == s
  {
    match outcome
    case Succeeded(cost) => LateReportIgnored(s, c.name, cost, c.attemptId, None, Failed);
    case Broke(retryable, terminal) => LateReportIgnored(s, c.name, 0.0, c.attemptId, retryable, terminal);
  }

  // An interrupted worker is not fenced: its cancellation leaves the agent rows alone iff
  // the agent is over, and otherwise it ends whichever attempt runs the agent by then.
  lemma LateCancelIgnoredIff(s: State, c: ClaimedAgent)
    requires Good(s) && c.name in s.agents
    ensures Reported(s, c, Interrupted).agents == s.agents <==> s.agents[c.name].status.Terminal()
    ensures !s.agents[c.name].status.Terminal() ==>
              && Reported(s, c, Interrupted).agents[c.name].status == Cancelled
              && forall i :: 0 <= i < |s.attempts| && s.attempts[i].agent == c.name
                             && s.attempts[i].status == AttemptRunning ==>
                   Reported(s, c, Interrupted).attempts[i].status == AttemptCancelled
  {
    if !s.agents[c.name].status.Terminal() {
      assert CancelAgent(s, c.name).agents[c.name].status == Cancelled;
    }
  }

  lemma FailureReport(s: State, c: ClaimedAgent, retryable: Option<bool>, terminal: Status)
    requires Good(s) && RunsUnder(s, c.name, c.attemptId)
    requires terminal == Failed || terminal == TimedOut || terminal == CostExceeded
    ensures var t := Fail(s, c.name, Some(c.attemptId), retryable, terminal);
            && c.name in t.agents
            && t.agents[c.name].status
               == if c.name in FailQueued(s, c.name, Some(c.attemptId), retryable, terminal) then Queued else terminal
  {
    RunningMayFinish(s, c.name, c.attemptId);
    FailAnswer(s, c.name, c.attemptId, retryable, terminal);
    if !WillRetry(s.agents[c.name], retryable, FinalStatus(terminal)) {
      FinalStays(s, c.name, c.attemptId, retryable, terminal);
    }
  }

  lemma CompletionReport(s: State, n: Name, cost: real, i: nat)
    requires Good(s) && RunsUnder(s, n, i)
    ensures var t := MarkReady(CompleteCall(s, n, cost, Some(i)));
            n in t.agents && t.agents[n].status == Completed
  {
    RunningMayFinish(s, n, i);
    CompleteLaw(s, n, cost, i);
    CompleteCallKeepsGood(s, n, cost, i);
    NothingOverdue(CompleteCall(s, n, cost, Some(i)));
  }

  lemma InterruptionReport(s: State, n: Name, i: nat)
    requires Good(s) && RunsUnder(s, n, i)
    ensures n in CancelCall(s, n).agents && CancelCall(s, n).agents[n].status == Cancelled
  {
    RunningMayFinish(s, n, i);
    CancelAgentLaw(s, n);
  }

  // While its attempt runs, what a worker reports is what became of the agent.
  lemma ReportIsTrue(s: State, c: ClaimedAgent, outcome: Outcome)
    requires Good(s) && RunsUnder(s, c.name, c.attemptId)
    requires outcome.Broke? ==>
               outcome.terminal == Failed || outcome.terminal == TimedOut || outcome.terminal == CostExceeded
    ensures c.name in Reported(s, c, outcome).agents
    ensures Reported(s, c, outcome).agents[c.name].status == ReportedStatus(s, c, outcome)
  {
    RunningMayFinish(s, c.name, c.attemptId);
    match outcome
    case Succeeded(cost) => CompletionReport(s, c.name, cost, c.attemptId);
    case Interrupted => InterruptionReport(s, c.name, c.attemptId);
    case Broke(retryable, terminal) => FailureReport(s, c, retryable, terminal);
  }

  // And the hints it publishes name exactly who may start now, or the agent that is
  // queued again.
  lemma ReportedHintsAreTrue(s: State, c: ClaimedAgent, outcome: Outcome)
    requires Good(s) && RunsUnder(s, c.name, c.attemptId)
    ensures var t := Reported(s, c, outcome);
            match outcome
            case Succeeded(_) =>
              ReportedHints(s, c, outcome) == OnRun(c.run, Claimable(t)) + OnRun(c.run, Claimable(t))
            case Broke(_, _) =>
              c.name in t.agents
              && ReportedHints(s, c, outcome) == if t.agents[c.name].status == Queued then [(c.run, c.name)] else []
            case Interrupted => ReportedHints(s, c, outcome) == []
  {
    RunningMayFinish(s, c.name, c.attemptId);
    match outcome
    case Succeeded(cost) =>
      var u := Complete(s, c.name, cost, Some(c.attemptId));
      CompleteAnswer(s, c.name, cost, c.attemptId);
      CompleteCallKeepsGood(s, c.name, cost, c.attemptId);
      NothingOverdue(CompleteCall(s, c.name, cost, Some(c.attemptId)));
      assert Claimable(Refresh(u)) == Claimable(u);
    case Broke(retryable, terminal) =>
      FailAnswer(s, c.name, c.attemptId, retryable, terminal);
      OnRunOne(c.run, c.name);
    case Interrupted =>
  }

  // The spec always holds the claimed agent, so the report follows the outcome.
  lemma SpecHoldsAgent(s: State, n: Name)
    requires Good(s) && n in s.agents
    ensures FindAgent(s.spec, n).Some?
  {
    assert n in NamesOf(s.spec);
    var i :| 0 <= i < |s.spec| && NamesOf(s.spec)[i] == n;
    FindAgentAt(s.spec, n);
  }

  // Reports keep every invariant, whatever the worker did and however late it is.
  lemma ReportKeepsGood(s: State, c: ClaimedAgent, outcome: Outcome)
    requires Good(s)
    ensures Good(Reported(s, c, outcome))
  {
    match outcome
    case Succeeded(cost) =>
      CompleteCallKeepsGood(s, c.name, cost, c.attemptId);
      MarkReadyKeepsGood(CompleteCall(s, c.name, cost, Some(c.attemptId)));
    case Broke(retryable, terminal) => FailCallKeepsGood(s, c.name, c.attemptId, retryable, terminal);
    case Interrupted => CancelCallKeepsGood(s, c.name);
  }

  /** One round of `_renew_lease_until_done`; the task is cancelled when it cannot go on. */
  method RenewOnce(repository: DeployedRepository, coordinator: InMemoryCoordinator, claimed: ClaimedAgent, until: int)
    returns (goOn: bool)
    requires repository.Valid()
    modifies repository`runs
    ensures repository.Valid()
    ensures var r := claimed.run; var runs := old(repository.runs);
            if r !in coordinator.cancellations && r in runs
               && HoldsLease(runs[r], claimed.name, claimed.worker, claimed.token) then
              && OnlyRun(runs, repository.runs, r, Renew(runs[r], claimed.name, claimed.worker, claimed.token, until))
              && (goOn <==>
                    (r, claimed.name) in coordinator.leases
                    && coordinator.leases[(r, claimed.name)] == claimed.token)
            else repository.runs == runs && !goOn
  {
    var cancelled := coordinator.IsCancelled(claimed.run);
    if cancelled {
      return false;
    }
    var postgresOk := repository.RenewLease(claimed.run, claimed.name, claimed.worker, claimed.token, until);
    var redisOk := coordinator.RenewLease(claimed.run, claimed.name, claimed.token);
    goOn := postgresOk && redisOk;
  }
}
