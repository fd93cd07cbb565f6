/**
 Waiting work: no agent waits behind a failure, and none waits for nothing.
 */
module Blame {
  import opened Graph
  import opened Plan
  import opened RunState
  import opened Transitions
  import opened Invariants
  import opened Outcomes

  // A pending agent still has something to wait for.
  ghost predicate Waits(agents: Agents, n: Name)
    requires n in agents
  {
    agents[n].status == Pending ==> !DepsDone(agents, agents[n].dependsOn)
  }

  ghost predicate NoneOverdue(agents: Agents) {
    forall n {:trigger Waits(agents, n)} :: n in agents ==> Waits(agents, n)
  }

  // No dependency of a pending or queued agent failed.
  ghost predicate Unblamed(agents: Agents, n: Name)
    requires n in agents
  {
    agents[n].status.Waiting() ==> agents[n].dependsOn !! FailureSet(agents)
  }

  ghost predicate NoneBlamed(agents: Agents) {
    forall n {:trigger Unblamed(agents, n)} :: n in agents ==> Unblamed(agents, n)
  }

  // No dependency of a pending agent was cancelled.
  ghost predicate Unstranded(agents: Agents, n: Name)
    requires n in agents
  {
    agents[n].status == Pending ==> agents[n].dependsOn !! WithStatus(agents, Cancelled)
  }

  ghost predicate NoneStranded(agents: Agents) {
    forall n {:trigger Unstranded(agents, n)} :: n in agents ==> Unstranded(agents, n)
  }

  // ---------------------------------------------------------------------------
  // Nothing is overdue
  // ---------------------------------------------------------------------------

  lemma MarkReadyClearsOverdue(s: State)
    ensures NoneOverdue(MarkReady(s).agents)
  {
    var t := MarkReady(s);
    forall n | n in t.agents ensures Waits(t.agents, n) {
      assert forall d :: d in t.agents ==> (t.agents[d].status == Completed <==> s.agents[d].status == Completed);
    }
  }

  lemma QuietKeepsNoneOverdue(s: State, t: State)
    requires Quiet(s, t) && NoneOverdue(s.agents)
    requires forall n :: n in s.agents && t.agents[n].status == Pending ==>
               s.agents[n].status == Pending || !DepsDone(s.agents, s.agents[n].dependsOn)
    ensures NoneOverdue(t.agents)
  {
    forall n | n in t.agents ensures Waits(t.agents, n) {
      assert QuietRow(s, t, n) && Waits(s.agents, n);
      SameDepsDone(s, t, s.agents[n].dependsOn);
    }
  }

  // ---------------------------------------------------------------------------
  // Nobody waits behind a failure
  // ---------------------------------------------------------------------------

  // No new failure, and whoever starts to wait has its dependencies completed.
  ghost predicate Blameless(a: Agents, b: Agents) {
    && b.Keys == a.Keys
    && forall n {:trigger a[n]} {:trigger b[n]} :: n in a ==>
         && b[n].dependsOn == a[n].dependsOn
         && (b[n].status.Failure() ==> a[n].status.Failure())
         && (b[n].status.Waiting() ==> a[n].status.Waiting() || DepsDone(b, b[n].dependsOn))
  }

  lemma BlamelessKeeps(a: Agents, b: Agents)
    requires NoneBlamed(a) && Blameless(a, b)
    ensures NoneBlamed(b)
  {
    forall n | n in b ensures Unblamed(b, n) {
      assert Unblamed(a, n);
    }
  }

  lemma {:induction false} DoomedIsClosed(agents: Agents, failed: set<Name>, n: Name)
    requires n in agents && agents[n].status.Waiting()
    requires n !in failed + Doomed(agents, failed)
    ensures agents[n].dependsOn !! failed + Doomed(agents, failed)
    decreases |agents.Keys - failed|
  {
    var hit := Hit(agents, failed);
    if hit != {} {
      HitShrinks(agents, failed);
      assert failed + Doomed(agents, failed) == (failed + hit) + Doomed(agents, failed + hit);
      DoomedIsClosed(agents, failed + hit, n);
    } else {
      assert n !in hit;
    }
  }

  // Apart from `root` nobody is to blame.
  ghost predicate OnlyBlames(agents: Agents, root: Name) {
    forall n :: n in agents && agents[n].status.Waiting() ==> agents[n].dependsOn * FailureSet(agents) <= {root}
  }

  lemma CascadeClearsBlame(s: State, root: Name)
    requires OnlyBlames(s.agents, root) && root in s.agents && !s.agents[root].status.Waiting()
    ensures NoneBlamed(Cascade(s, root).agents)
  {
    var t := Cascade(s, root);
    var doomed := Doomed(s.agents, {root});
    DoomedWaits(s.agents, {root});
    forall n | n in t.agents ensures Unblamed(t.agents, n) {
      if t.agents[n].status.Waiting() {
        DoomedIsClosed(s.agents, {root}, n);
        assert FailureSet(t.agents) <= FailureSet(s.agents) + doomed;
      }
    }
  }

  lemma NothingWaits(agents: Agents)
    requires WaitingSet(agents) == {}
    ensures NoneBlamed(agents) && NoneStranded(agents) && NoneOverdue(agents)
  {
    forall n | n in agents ensures Unblamed(agents, n) && Unstranded(agents, n) && Waits(agents, n) {
      assert n !in WaitingSet(agents);
    }
  }

  lemma BrokenBlames(s: State, n: Name, id: Option<nat>, final: Status)
    requires NoneBlamed(s.agents) && n in s.agents && final.Failure()
    ensures OnlyBlames(Broken(s, n, id, final).agents, n)
  {
    var t := Broken(s, n, id, final);
    assert FailureSet(t.agents) <= FailureSet(s.agents) + {n};
    forall m | m in t.agents && t.agents[m].status.Waiting()
      ensures t.agents[m].dependsOn * FailureSet(t.agents) <= {n}
    {
      assert Unblamed(s.agents, m);
    }
  }

  lemma MarkReadyBlameless(s: State)
    ensures Blameless(s.agents, MarkReady(s).agents)
  {
    var t := MarkReady(s);
    forall n | n in s.agents ensures n in t.agents && t.agents[n].dependsOn == s.agents[n].dependsOn {
    }
  }

  lemma CancelBlameless(s: State, names: set<Name>)
    ensures Blameless(s.agents, CancelSet(s, names).agents)
  {
  }

  lemma NoneWaitAfter(s: State, n: Name)
    ensures WaitingSet(PauseWaiting(s).agents) == {}
    ensures WaitingSet(CancelSet(s, NonTerminal(s.agents)).agents) == {}
    ensures n in s.agents && !s.agents[n].status.Waiting() ==>
              WaitingSet(CancelSet(s, NonTerminal(s.agents) - {n}).agents) == {}
  {
  }

  lemma HandleFailureClearsBlame(s: State, n: Name, policy: OnFailure)
    requires n in s.agents && !s.agents[n].status.Waiting() && OnlyBlames(s.agents, n)
    ensures NoneBlamed(HandleFailure(s, n, policy).agents)
  {
    var t := HandleFailure(s, n, policy);
    NoneWaitAfter(s, n);
    if WaitingSet(t.agents) == {} {
      NothingWaits(t.agents);
    } else {
      CascadeClearsBlame(s, n);
      MarkReadyBlameless(Cascade(s, n));
      BlamelessKeeps(Cascade(s, n).agents, t.agents);
    }
  }

  // ---------------------------------------------------------------------------
  // Nobody waits behind a cancellation
  // ---------------------------------------------------------------------------

  // New cancellations only when no pending agent is left.
  ghost predicate Unstranding(a: Agents, b: Agents) {
    && b.Keys == a.Keys
    && (forall n {:trigger a[n]} {:trigger b[n]} :: n in a ==>
          b[n].dependsOn == a[n].dependsOn && (b[n].status == Pending ==> a[n].status == Pending))
    && (WithStatus(b, Pending) == {} || WithStatus(b, Cancelled) <= WithStatus(a, Cancelled))
  }

  lemma UnstrandingKeeps(a: Agents, b: Agents)
    requires NoneStranded(a) && Unstranding(a, b)
    ensures NoneStranded(b)
  {
    forall n | n in b ensures Unstranded(b, n) {
      assert Unstranded(a, n);
      if b[n].status == Pending {
        assert n in WithStatus(b, Pending);
      }
    }
  }

  lemma UnstrandingTransitive(a: Agents, b: Agents, c: Agents)
    requires Unstranding(a, b) && Unstranding(b, c)
    ensures Unstranding(a, c)
  {
    forall n | n in a ensures c[n].dependsOn == a[n].dependsOn && (c[n].status == Pending ==> a[n].status == Pending) {
      assert n in b;
    }
    if WithStatus(b, Pending) == {} {
      forall n | n in c ensures c[n].status != Pending {
        assert n !in WithStatus(b, Pending);
      }
    }
  }

  lemma CancelUnstranding(s: State, names: set<Name>)
    requires WithStatus(s.agents, Pending) <= names
    ensures Unstranding(s.agents, CancelSet(s, names).agents)
  {
    assert WithStatus(CancelSet(s, names).agents, Pending) == {};
  }

  lemma PauseUnstranding(s: State)
    ensures Unstranding(s.agents, PauseWaiting(s).agents)
  {
  }

  lemma ReleaseUnstranding(s: State, root: Name)
    ensures Unstranding(s.agents, MarkReady(Cascade(s, root)).agents)
  {
    var t := Cascade(s, root);
    DoomedWaits(s.agents, {root});
    assert Unstranding(s.agents, t.agents);
    assert Unstranding(t.agents, MarkReady(t).agents);
    UnstrandingTransitive(s.agents, t.agents, MarkReady(t).agents);
  }

  lemma HandleFailureUnstranding(s: State, n: Name, policy: OnFailure)
    requires n in s.agents && s.agents[n].status != Pending
    ensures Unstranding(s.agents, HandleFailure(s, n, policy).agents)
  {
    if BreakerTripped(s) && s.config.circuitBreaker.value.action == PauseWork {
      PauseUnstranding(s);
    } else if BreakerTripped(s) && s.config.circuitBreaker.value.action == CancelAll {
      CancelUnstranding(s, NonTerminal(s.agents));
    } else if policy == Stop {
      CancelUnstranding(s, NonTerminal(s.agents) - {n});
    } else {
      ReleaseUnstranding(s, n);
    }
  }

  // ---------------------------------------------------------------------------
  // The expiry pass
  // ---------------------------------------------------------------------------

  lemma LapsedBlames(s: State, n: Name, row: Agent)
    requires NoneBlamed(s.agents) && n in s.agents
    requires DepsDone(s.agents, s.agents[n].dependsOn)
    ensures CanRetry(row) ==> NoneBlamed(Lapsed(s, n, row).agents)
    ensures !CanRetry(row) ==> OnlyBlames(Lapsed(s, n, row).agents, n)
  {
    var t := Lapsed(s, n, row);
    assert FailureSet(t.agents) <= FailureSet(s.agents) + if CanRetry(row) then {} else {n};
    forall m | m in t.agents && t.agents[m].status.Waiting()
      ensures t.agents[m].dependsOn * FailureSet(t.agents) <= if CanRetry(row) then {} else {n}
    {
      assert Unblamed(s.agents, m);
    }
    if CanRetry(row) {
      forall m | m in t.agents ensures Unblamed(t.agents, m) {
      }
    }
  }

  lemma ExpireRowClearsBlame(s: State, n: Name, row: Agent)
    requires NoneBlamed(s.agents) && n in s.agents && DepsDone(s.agents, s.agents[n].dependsOn)
    ensures NoneBlamed(ExpireRow(s, n, row).agents)
  {
    LapsedBlames(s, n, row);
    var t := Lapsed(s, n, row);
    if !CanRetry(row) {
      if row.onFailure == Stop {
        NoneWaitAfter(t, n);
        NothingWaits(ExpireRow(s, n, row).agents);
      } else {
        CascadeClearsBlame(t, n);
        MarkReadyBlameless(Cascade(t, n));
        BlamelessKeeps(Cascade(t, n).agents, MarkReady(Cascade(t, n)).agents);
      }
    }
  }

  lemma ExpireRowUnstranding(s: State, n: Name, row: Agent)
    requires n in s.agents
    ensures Unstranding(s.agents, ExpireRow(s, n, row).agents)
  {
    var t := Lapsed(s, n, row);
    assert Unstranding(s.agents, t.agents);
    if !CanRetry(row) {
      CancelUnstranding(t, NonTerminal(t.agents) - {n});
      ReleaseUnstranding(t, n);
      UnstrandingTransitive(s.agents, t.agents, ExpireRow(s, n, row).agents);
    }
  }

  // None of the three is lost between two states.
  ghost predicate Unspoiled(a: Agents, b: Agents) {
    && (NoneBlamed(a) ==> NoneBlamed(b)) && (NoneStranded(a) ==> NoneStranded(b)) && (NoneOverdue(a) ==> NoneOverdue(b))
  }

  lemma PassWaits(s0: State, s: State, t: State)
    requires Quiet(s0, s) && Quiet(s0, t) && NoneOverdue(s.agents) && Unstranding(s.agents, t.agents)
    ensures NoneOverdue(t.agents)
  {
    forall m | m in t.agents ensures Waits(t.agents, m) {
      assert Waits(s.agents, m) && QuietRow(s0, s, m) && QuietRow(s0, t, m);
      SameDepsDone(s0, s, s0.agents[m].dependsOn);
      SameDepsDone(s0, t, s0.agents[m].dependsOn);
    }
  }

  lemma OneRowUnspoiled(s0: State, s: State, n: Name)
    requires DepSafe(s0.agents) && StillDue(s0, s, n) && Quiet(s0, s) && Quiet(s0, ExpireRow(s, n, s0.agents[n]))
    ensures Unspoiled(s.agents, ExpireRow(s, n, s0.agents[n]).agents)
  {
    var t := ExpireRow(s, n, s0.agents[n]);
    assert QuietRow(s0, s, n) && DepsHeld(s0.agents, n);
    SameDepsDone(s0, s, s0.agents[n].dependsOn);
    if NoneBlamed(s.agents) {
      ExpireRowClearsBlame(s, n, s0.agents[n]);
    }
    ExpireRowUnstranding(s, n, s0.agents[n]);
    if NoneStranded(s.agents) {
      UnstrandingKeeps(s.agents, t.agents);
    }
    if NoneOverdue(s.agents) {
      PassWaits(s0, s, t);
    }
  }

  lemma {:induction false} ExpireRowsClearBlame(s0: State, names: seq<Name>, k: nat)
    requires DepSafe(s0.agents) && Owned(s0) && k <= |names| && Distinct(names)
    requires forall i :: 0 <= i < |names| ==> names[i] in s0.agents && s0.agents[names[i]].status == Running
    ensures Unspoiled(s0.agents, ExpireRows(s0, ReadRows(s0, names)[..k]).agents)
  {
    if k == 0 {
      assert ExpireRows(s0, ReadRows(s0, names)[..0]) == s0;
    } else {
      ExpireRowsClearBlame(s0, names, k - 1);
      NextRowUnspoiled(s0, names, k - 1);
    }
  }

  lemma NextRowUnspoiled(s0: State, names: seq<Name>, k: nat)
    requires DepSafe(s0.agents) && Owned(s0) && k < |names| && Distinct(names)
    requires forall i :: 0 <= i < |names| ==> names[i] in s0.agents && s0.agents[names[i]].status == Running
    ensures var rows := ReadRows(s0, names);
            Unspoiled(ExpireRows(s0, rows[..k]).agents, ExpireRows(s0, rows[..k + 1]).agents)
  {
    NextRowQuiet(s0, names, k);
    OneRowUnspoiled(s0, ExpireRows(s0, ReadRows(s0, names)[..k]), names[k]);
  }

  lemma NextRowQuiet(s0: State, names: seq<Name>, k: nat)
    requires DepSafe(s0.agents) && Owned(s0) && k < |names| && Distinct(names)
    requires forall i :: 0 <= i < |names| ==> names[i] in s0.agents && s0.agents[names[i]].status == Running
    ensures var rows := ReadRows(s0, names);
            var s, t := ExpireRows(s0, rows[..k]), ExpireRows(s0, rows[..k + 1]);
            && t == ExpireRow(s, names[k], s0.agents[names[k]])
            && StillDue(s0, s, names[k]) && Quiet(s0, s) && Quiet(s0, t)
  {
    var rows := ReadRows(s0, names);
    assert rows[..k + 1][..k] == rows[..k];
    ExpireRowsContinue(s0, names, k);
    ExpireRowsContinue(s0, names, k + 1);
    RestOf(names, k);
    assert StillDue(s0, ExpireRows(s0, rows[..k]), names[k]);
  }
}
