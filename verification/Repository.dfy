/**
 `DeployedRepository`: the tables, and the calls that change them.  A call works on
 the rows it read and commits when its transaction ends.
 */
module Repository {
  import opened Graph
  import opened Plan
  import opened RunState
  import opened Transitions
  import opened Transactions
  import opened Validation
  import opened Runs
  import opened Store
  import opened Calls

  datatype Event = AgentReady | OtherEvent

  // A row of `queue_outbox`; its id is its position.
  datatype OutboxRow = OutboxRow(
    run: RunId, agent: Option<Name>, event: Event, published: bool, attempts: nat, nextAttempt: Option<int>)

  datatype ClaimedAgent = ClaimedAgent(run: RunId, name: Name, attemptId: nat, number: nat, token: nat, worker: string)

  predicate Due(row: OutboxRow, now: int) {
    !row.published && (row.nextAttempt.None? || row.nextAttempt.value <= now)
  }

  // The ids of the due rows, oldest first.
  function DueIds(outbox: seq<OutboxRow>, now: int): seq<nat> {
    if outbox == [] then []
    else
      var last := |outbox| - 1;
      DueIds(outbox[..last], now) + if Due(outbox[last], now) then [last] else []
  }

  function Published(outbox: seq<OutboxRow>, id: nat): seq<OutboxRow> {
    if id < |outbox| then outbox[id := outbox[id].(published := true)] else outbox
  }

  function Postponed(outbox: seq<OutboxRow>, id: nat, until: int): seq<OutboxRow> {
    if id < |outbox| then
      outbox[id := outbox[id].(attempts := outbox[id].attempts + 1, nextAttempt := Some(until))]
    else outbox
  }

  lemma {:induction false} DueIdsExact(outbox: seq<OutboxRow>, now: int)
    ensures forall id: nat :: id in DueIds(outbox, now) <==> id < |outbox| && Due(outbox[id], now)
    ensures forall i, j :: 0 <= i < j < |DueIds(outbox, now)| ==> DueIds(outbox, now)[i] < DueIds(outbox, now)[j]
  {
    if outbox == [] {
    } else {
      var init := outbox[..|outbox| - 1];
      DueIdsExact(init, now);
      forall i, j | 0 <= i < j < |DueIds(outbox, now)| ensures DueIds(outbox, now)[i] < DueIds(outbox, now)[j] {
        assert DueIds(init, now)[i] in DueIds(init, now);
      }
    }
  }

  // A recorded row is read by the next pass, with whatever was read before.
  lemma RecordedIsDue(outbox: seq<OutboxRow>, row: OutboxRow, now: int)
    ensures DueIds(outbox + [row], now) == DueIds(outbox, now) + if Due(row, now) then [|outbox|] else []
  {
    assert (outbox + [row])[..|outbox|] == outbox;
  }

  // As announced, a row is due at any time.
  lemma AnnouncedIsDue(outbox: seq<OutboxRow>, run: RunId, agent: Option<Name>, event: Event, now: int)
    ensures DueIds(outbox + [OutboxRow(run, agent, event, false, 0, None)], now) == DueIds(outbox, now) + [|outbox|]
  {
    RecordedIsDue(outbox, OutboxRow(run, agent, event, false, 0, None), now);
  }

  // A published row is never read again, and no other row is affected.
  lemma PublishedNeverDue(outbox: seq<OutboxRow>, id: nat, now: int, other: nat)
    requires id < |outbox|
    ensures other in DueIds(Published(outbox, id), now) <==> other != id && other in DueIds(outbox, now)
  {
    DueIdsExact(outbox, now);
    DueIdsExact(Published(outbox, id), now);
  }

  // A postponed row is read again from the time given on, unless it was published, and
  // no other row is affected.
  lemma PostponedUntil(outbox: seq<OutboxRow>, id: nat, until: int, now: int, other: nat)
    requires id < |outbox|
    ensures other in DueIds(Postponed(outbox, id, until), now) <==>
              if other == id then !outbox[id].published && until <= now else other in DueIds(outbox, now)
  {
    DueIdsExact(outbox, now);
    DueIdsExact(Postponed(outbox, id, until), now);
  }

  // The answer of `list_runs`, newest first.
  function Newest(listing: seq<RunId>, limit: nat): seq<RunId> {
    if listing == [] || limit == 0 then []
    else [listing[|listing| - 1]] + Newest(listing[..|listing| - 1], limit - 1)
  }

  lemma {:induction false} NewestListed(listing: seq<RunId>, limit: nat)
    ensures |Newest(listing, limit)| == if |listing| < limit then |listing| else limit
    ensures forall i :: 0 <= i < |Newest(listing, limit)| ==> Newest(listing, limit)[i] == listing[|listing| - 1 - i]
  {
    if listing == [] || limit == 0 {
    } else {
      var init := listing[..|listing| - 1];
      NewestListed(init, limit - 1);
      var rest := Newest(init, limit - 1);
      forall i | 0 <= i < |rest| + 1 ensures Newest(listing, limit)[i] == listing[|listing| - 1 - i] {
        if i > 0 {
          assert Newest(listing, limit)[i] == rest[i - 1] && rest[i - 1] == init[|init| - i];
        }
      }
    }
  }

  // A run is updated in place; nothing happens for an unknown id.
  ghost predicate OnlyRun(before: RunTable, after: RunTable, runId: RunId, s: State) {
    runId in before && after == before[runId := s]
  }

  lemma OnlyRunGood(before: RunTable, after: RunTable, runId: RunId, s: State)
    requires AllGood(before) && Good(s) && OnlyRun(before, after, runId, s)
    ensures AllGood(after)
  {
  }

  lemma OnlyRunTwice(a: RunTable, b: RunTable, c: RunTable, runId: RunId, s: State, t: State)
    requires OnlyRun(a, b, runId, s) && OnlyRun(b, c, runId, t)
    ensures OnlyRun(a, c, runId, t)
  {
  }

  class DeployedRepository {
    var runs: RunTable
    var listing: seq<RunId>       // the run ids by creation time
    var outbox: seq<OutboxRow>

    ghost predicate Valid()
      reads this
    {
      && Members(listing) == runs.Keys
      && forall r :: r in runs ==> Listed(runs[r])
    }

    constructor ()
      ensures Valid() && runs == map[] && listing == [] && outbox == []
    {
      runs, listing, outbox := map[], [], [];
    }

    /** Fails, like the insert, when the id is taken or two agents share a name. */
    method CreateRun(plan: PlanSpec, runId: RunId) returns (created: bool)
      requires Valid()
      modifies this`runs, this`listing
      ensures Valid()
      ensures created <==> runId !in old(runs) && Distinct(NamesOf(plan.agents))
      ensures !created ==> runs == old(runs) && listing == old(listing)
      ensures created ==> Transitions.CreateRun(plan).Some? && listing == old(listing) + [runId]
      ensures created ==> runs == old(runs)[runId := Transitions.CreateRun(plan).value]
      ensures old(AllGood(runs)) && ValidPlan(plan.agents) ==> AllGood(runs)
    {
      if runId in runs {
        return false;
      }
      var ok, agents, order := InsertAgents(plan.agents);
      if !ok {
        return false;
      }
      runs := runs[runId := State(plan.agents, agents, order, [], Queued, 0.0, ConfigOf(plan), [])];
      listing := listing + [runId];
      created := true;
      if ValidPlan(plan.agents) {
        Created(plan, runs[runId]);
      }
    }

    method SpawnWorkerAgent(runId: RunId, manager: Name, worker: AgentSpec) returns (created: bool)
      requires Valid()
      modifies this`runs
      ensures Valid()
      ensures runId !in old(runs) ==> !created && runs == old(runs)
      ensures runId in old(runs) ==> OnlyRun(old(runs), runs, runId, Spawn(old(runs)[runId], manager, worker))
      ensures created <==> runId in old(runs) && worker.name !in old(runs)[runId].agents
                           && manager in old(runs)[runId].agents && !CapReached(old(runs)[runId], manager)
    {
      if runId !in runs {
        return false;
      }
      var s;
      s, created := SpawnOnce(runs[runId], manager, worker);
      runs := runs[runId := s];
    }

    method ReadyAgents(runId: RunId) returns (names: seq<Name>)
      requires Valid()
      ensures names == if runId in runs then Claimable(runs[runId]) else []
    {
      if runId !in runs {
        return [];
      }
      names := ClaimableReady(runs[runId]);
    }

    method MarkNewlyReadyAgents(runId: RunId) returns (names: seq<Name>)
      requires Valid()
      modifies this`runs
      ensures Valid()
      ensures runId !in old(runs) ==> runs == old(runs) && names == []
      ensures runId in old(runs) ==> OnlyRun(old(runs), runs, runId, MarkReady(old(runs)[runId]))
      ensures runId in old(runs) ==> names == Claimable(runs[runId])
    {
      if runId !in runs {
        return [];
      }
      var s, _ := MarkNewlyReady(runs[runId]);
      names := ClaimableReady(s);
      runs := runs[runId := s];
    }

    method ClaimAgent(runId: RunId, name: Name, worker: string, until: int) returns (claimed: Option<ClaimedAgent>)
      requires Valid()
      modifies this`runs
      ensures Valid()
      ensures claimed.Some? <==> runId in old(runs) && MayClaim(old(runs)[runId], name)
      ensures claimed == None ==> runs == old(runs)
      ensures claimed.Some? ==> OnlyRun(old(runs), runs, runId, Claim(old(runs)[runId], name, worker, until))
      ensures claimed.Some? ==> ClaimDescribes(runs[runId], claimed.value)
      ensures claimed.Some? ==> claimed.value.run == runId && claimed.value.name == name
      ensures claimed.Some? ==> claimed.value.worker == worker
    {
      if runId !in runs {
        return None;
      }
      var s := runs[runId];
      var t, updated, number := ClaimOnce(s, name, worker, until);
      if !updated {
        return None;
      }
      claimed := Some(ClaimedAgent(runId, name, |s.attempts|, number, |s.attempts|, worker));
      ClaimIsDescribed(s, claimed.value, until);
      runs := runs[runId := t];
    }

    method RenewLease(runId: RunId, name: Name, worker: string, token: nat, until: int) returns (renewed: bool)
      requires Valid()
      modifies this`runs
      ensures Valid()
      ensures renewed <==> runId in old(runs) && HoldsLease(old(runs)[runId], name, worker, token)
      ensures !renewed ==> runs == old(runs)
      ensures renewed ==> OnlyRun(old(runs), runs, runId, Renew(old(runs)[runId], name, worker, token, until))
    {
      if runId !in runs || !HoldsLease(runs[runId], name, worker, token) {
        return false;
      }
      var s := runs[runId];
      var row := s.agents[name];
      s := s.(agents := s.agents[name := row.(lease := Some(row.lease.value.(until := until)))],
              attempts := RenewAttempts(s.attempts, name, worker, token, until));
      runs := runs[runId := s];
      renewed := true;
    }

    /** `refresh_run_status`, a transaction of its own. */
    method RefreshRunStatus(runId: RunId)
      requires Valid()
      modifies this`runs
      ensures Valid()
      ensures runId !in old(runs) ==> runs == old(runs)
      ensures runId in old(runs) ==> OnlyRun(old(runs), runs, runId, Refresh(old(runs)[runId]))
    {
      if runId !in runs {
        return;
      }
      var s := runs[runId];
      if s.status == Cancelled || s.status == CostExceeded {
        SameRun(runs, runId);
        return;
      }
      var next := NextStatus(s);
      runs := runs[runId := s.(status := next, totalCost := TotalCost(s))];
    }

    /** The end of a transaction, and the roll-up that follows in a transaction of its own. */
    method CommitAndRefresh(runId: RunId, s: State)
      requires Valid() && runId in runs && Listed(s)
      modifies this`runs
      ensures Valid()
      ensures OnlyRun(old(runs), runs, runId, Refresh(s))
    {
      ghost var before := runs;
      runs := runs[runId := s];
      ghost var committed := runs;
      RefreshRunStatus(runId);
      OnlyRunTwice(before, committed, runs, runId, s, Refresh(s));
    }

    /** The worker passes the id of its attempt; other callers may leave it out. */
    method CompleteAgent(runId: RunId, name: Name, cost: real, attemptId: Option<nat>) returns (ready: seq<Name>)
      requires Valid()
      modifies this`runs
      ensures Valid()
      ensures runId !in old(runs) ==> runs == old(runs) && ready == []
      ensures runId in old(runs) ==>
                OnlyRun(old(runs), runs, runId, CompleteCall(old(runs)[runId], name, cost, attemptId))
      ensures runId in old(runs) ==> ready == CompleteReady(old(runs)[runId], name, cost, attemptId)
    {
      if runId !in runs {
        return [];
      }
      var s := runs[runId];
      var t, updated;
      t, updated, ready := CompleteOnce(s, name, cost, attemptId);
      if updated {
        CommitAndRefresh(runId, t);
      } else {
        SameRun(runs, runId);
      }
    }

    method FailAgent(runId: RunId, name: Name, attemptId: Option<nat>, retryable: Option<bool>, requested: Status)
      returns (queued: seq<Name>)
      requires Valid()
      modifies this`runs
      ensures Valid()
      ensures runId !in old(runs) ==> runs == old(runs) && queued == []
      ensures runId in old(runs) ==>
                OnlyRun(old(runs), runs, runId, FailCall(old(runs)[runId], name, attemptId, retryable, requested))
      ensures runId in old(runs) ==> queued == FailQueued(old(runs)[runId], name, attemptId, retryable, requested)
    {
      if runId !in runs {
        return [];
      }
      var s := runs[runId];
      var t, updated;
      t, updated, queued := FailOnce(s, name, attemptId, retryable, requested);
      if updated {
        CommitAndRefresh(runId, t);
      } else {
        SameRun(runs, runId);
      }
    }

    /** Not fenced: any caller ends the agent, whoever runs it. */
    method CancelAgent(runId: RunId, name: Name) returns (cancelled: bool)
      requires Valid()
      modifies this`runs
      ensures Valid()
      ensures runId !in old(runs) ==> runs == old(runs)
      ensures runId in old(runs) ==> OnlyRun(old(runs), runs, runId, CancelCall(old(runs)[runId], name))
      ensures cancelled <==> runId in old(runs) && MayCancel(old(runs)[runId], name)
    {
      if runId !in runs {
        return false;
      }
      var s;
      s, cancelled := CancelOnce(runs[runId], name);
      if cancelled {
        CommitAndRefresh(runId, s);
      } else {
        SameRun(runs, runId);
      }
    }

    method CancelRun(runId: RunId) returns (affected: nat)
      requires Valid()
      modifies this`runs
      ensures Valid()
      ensures runId !in old(runs) ==> runs == old(runs) && affected == 0
      ensures runId in old(runs) ==> OnlyRun(old(runs), runs, runId, Transitions.CancelRun(old(runs)[runId]))
      ensures runId in old(runs) ==> affected == if old(runs)[runId].status.Terminal() then 0
                                                 else |NonTerminal(old(runs)[runId].agents)|
    {
      if runId !in runs {
        return 0;
      }
      var s;
      s, affected := CancelRunOnce(runs[runId]);
      runs := runs[runId := s];
    }

    method CommitAndRelease(runId: RunId, s: State)
      requires Valid() && runId in runs && Listed(s)
      modifies this`runs
      ensures Valid()
      ensures OnlyRun(old(runs), runs, runId, Refresh(MarkReady(s)))
    {
      ghost var before := runs;
      runs := runs[runId := s];
      ghost var committed := runs;
      var _ := MarkNewlyReadyAgents(runId);
      ghost var released := runs;
      OnlyRunTwice(before, committed, released, runId, s, MarkReady(s));
      RefreshRunStatus(runId);
      OnlyRunTwice(before, released, runs, runId, MarkReady(s), Refresh(MarkReady(s)));
    }

    method ResumeRun(runId: RunId) returns (resumed: seq<Name>)
      requires Valid()
      modifies this`runs
      ensures Valid()
      ensures runId !in old(runs) ==> runs == old(runs) && resumed == []
      ensures runId in old(runs) ==> OnlyRun(old(runs), runs, runId, ResumeCall(old(runs)[runId]))
      ensures runId in old(runs) ==> Distinct(resumed) && Members(resumed) == ResumableSet(old(runs)[runId].agents)
    {
      if runId !in runs {
        return [];
      }
      var s;
      s, resumed := ResumeRows(runs[runId]);
      if resumed != [] {
        CommitAndRelease(runId, s);
      } else {
        SameRun(runs, runId);
      }
    }

    /** `read` is what the query for stale leases answered, in the order the database chose. */
    method ExpireStaleLeases(now: int, read: seq<Pair>) returns (requeued: seq<Pair>)
      requires Valid() && StalePairs(runs, now, read)
      modifies this`runs
      ensures Valid()
      ensures Known(old(runs), read)
      ensures runs == RefreshAll(StoreExpire(old(runs), read), RunsOf(read))
      ensures requeued == StoreHints(old(runs), read)
    {
      StaleAreRunning(runs, now, read);
      var table;
      table, requeued := ExpireEach(runs, read);
      runs := table;
      RefreshRuns(RunsOf(read));
    }

    method RefreshRuns(runIds: set<RunId>)
      requires Valid()
      modifies this`runs
      ensures Valid()
      ensures runs == RefreshAll(old(runs), runIds)
    {
      var affected := runIds;
      RefreshNone(runs);
      ghost var refreshed: set<RunId> := {};
      while affected != {}
        invariant Valid() && runs == RefreshAll(old(runs), refreshed)
        invariant affected + refreshed == runIds && affected !! refreshed
        decreases affected
      {
        var r :| r in affected;
        RefreshOneMore(old(runs), refreshed, r);
        RefreshRunStatus(r);
        affected := affected - {r};
        refreshed := refreshed + {r};
      }
    }

    method ListRuns(limit: nat) returns (ids: seq<RunId>)
      requires Valid()
      ensures ids == Newest(listing, limit)
      ensures forall i :: 0 <= i < |ids| ==> ids[i] in runs
      ensures |listing| <= limit ==> forall r :: r in runs ==> r in ids
    {
      NewestListed(listing, limit);
      ids := Newest(listing, limit);
      forall i | 0 <= i < |ids| ensures ids[i] in runs {
        assert ids[i] in Members(listing);
      }
      if |listing| <= limit {
        forall r | r in runs ensures r in ids {
          assert r in Members(listing);
          var i :| 0 <= i < |listing| && listing[i] == r;
          assert ids[|listing| - 1 - i] == r;
        }
      }
    }

    method RecordQueueOutbox(runId: RunId, agent: Option<Name>, event: Event) returns (id: nat)
      modifies this`outbox
      ensures outbox == old(outbox) + [OutboxRow(runId, agent, event, false, 0, None)] && id == |old(outbox)|
    {
      id := |outbox|;
      outbox := outbox + [OutboxRow(runId, agent, event, false, 0, None)];
    }

    method MarkOutboxPublished(id: nat)
      modifies this`outbox
      ensures outbox == Published(old(outbox), id)
    {
      if id < |outbox| {
        outbox := outbox[id := outbox[id].(published := true)];
      }
    }

    method MarkOutboxRetry(id: nat, until: int)
      modifies this`outbox
      ensures outbox == Postponed(old(outbox), id, until)
    {
      if id < |outbox| {
        var row := outbox[id];
        outbox := outbox[id := row.(attempts := row.attempts + 1, nextAttempt := Some(until))];
      }
    }

    method PendingQueueOutbox(limit: nat, now: int) returns (ids: seq<nat>)
      ensures ids == if |DueIds(outbox, now)| < limit then DueIds(outbox, now) else DueIds(outbox, now)[..limit]
    {
      ids := [];
      for id := 0 to |outbox|
        invariant ids == DueIds(outbox[..id], now)
      {
        assert outbox[..id + 1][..id] == outbox[..id];
        if Due(outbox[id], now) {
          ids := ids + [id];
        }
      }
      assert outbox[..|outbox|] == outbox;
      if limit < |ids| {
        ids := ids[..limit];
      }
    }
  }

  // What a caller knows about the claim it got.
  ghost predicate ClaimDescribes(s: State, c: ClaimedAgent) {
    && c.attemptId < |s.attempts|
    && s.attempts[c.attemptId].agent == c.name && s.attempts[c.attemptId].status == AttemptRunning
    && s.attempts[c.attemptId].number == c.number
    && HoldsLease(s, c.name, c.worker, c.token)
  }

  lemma ClaimIsDescribed(s: State, c: ClaimedAgent, until: int)
    requires MayClaim(s, c.name) && c.number == MaxNumber(s.attempts, c.name) + 1
    requires c.attemptId == c.token == |s.attempts|
    ensures ClaimDescribes(Claim(s, c.name, c.worker, until), c)
  {
  }

  lemma SameRun(runs: RunTable, runId: RunId)
    requires runId in runs
    ensures OnlyRun(runs, runs, runId, runs[runId])
  {
  }

  lemma RefreshNone(runs: RunTable)
    ensures RefreshAll(runs, {}) == runs
  {
  }

  lemma RefreshOneMore(runs: RunTable, refreshed: set<RunId>, r: RunId)
    requires r !in refreshed
    ensures r in runs ==> RefreshAll(runs, refreshed + {r}) == RefreshAll(runs, refreshed)[r := Refresh(runs[r])]
    ensures r in runs ==> RefreshAll(runs, refreshed)[r] == runs[r]
    ensures r !in runs ==> RefreshAll(runs, refreshed + {r}) == RefreshAll(runs, refreshed)
  {
  }
}
