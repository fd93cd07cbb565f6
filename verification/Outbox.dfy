/**
 The outbox protocol: any number of publishers and drainers, interleaved write by
 write, each of which may crash between any two writes.
 */
module Outbox {
  import opened Graph
  import opened Plan
  import opened Store
  import opened Repository

  // Where a process stands between two of its writes.
  datatype Process =
    | Idle
    | Announced(id: nat)                       // the row is written, the hint is not sent
    | Sent(id: nat)                            // the hint is sent, the row is not marked
    | Draining(todo: seq<nat>)                 // rows read, none of these handled
    | Drained(id: nat, rest: seq<nat>)         // the hint of `id` is sent, the row is not marked
    | Raised(id: nat, rest: seq<nat>)          // handling `id` raised, the retry is not noted

  datatype World = World(outbox: seq<OutboxRow>, stream: seq<Pair>, processes: map<nat, Process>)

  datatype Move =
    | Announce(run: RunId, agent: Option<Name>, event: Event)
    | Send
    | Mark
    | Read(limit: nat, now: int)
    | Raise
    | Postpone(until: int)
    | Crash

  function At(w: World, who: nat): Process {
    if who in w.processes then w.processes[who] else Idle
  }

  function Goto(w: World, who: nat, at: Process): World {
    w.(processes := w.processes[who := at])
  }

  predicate Addressed(row: OutboxRow) {
    row.event == AgentReady && row.agent.Some?
  }

  // A drainer takes an empty agent name for no agent.
  predicate IsHint(row: OutboxRow) {
    Addressed(row) && row.agent.value != ""
  }

  function HintOf(row: OutboxRow): Pair
    requires Addressed(row)
  {
    (row.run, row.agent.value)
  }

  function WithHint(w: World, row: OutboxRow, send: bool): World
    requires send ==> Addressed(row)
  {
    if send then w.(stream := w.stream + [HintOf(row)]) else w
  }

  // The next write of process `who`; a move that does not fit its place does nothing.
  function Next(w: World, who: nat, move: Move): World {
    var at := At(w, who);
    match move
    case Announce(run, agent, event) =>
      if at.Idle? then
        Goto(w.(outbox := w.outbox + [OutboxRow(run, agent, event, false, 0, None)]), who, Announced(|w.outbox|))
      else w
    case Send =>
      if at.Announced? && at.id < |w.outbox| then
        Goto(WithHint(w, w.outbox[at.id], Addressed(w.outbox[at.id])), who, Sent(at.id))
      else if at.Draining? && at.todo != [] && at.todo[0] < |w.outbox| then
        Goto(WithHint(w, w.outbox[at.todo[0]], IsHint(w.outbox[at.todo[0]])), who, Drained(at.todo[0], at.todo[1..]))
      else w
    case Mark =>
      if at.Sent? then Goto(w.(outbox := Published(w.outbox, at.id)), who, Idle)
      else if at.Drained? then Goto(w.(outbox := Published(w.outbox, at.id)), who, Draining(at.rest))
      else w
    case Read(limit, now) =>
      var due := DueIds(w.outbox, now);
      if at.Idle? then Goto(w, who, Draining(if |due| < limit then due else due[..limit])) else w
    case Raise =>
      if at.Draining? && at.todo != [] then Goto(w, who, Raised(at.todo[0], at.todo[1..]))
      else if at.Drained? then Goto(w, who, Raised(at.id, at.rest))
      else w
    case Postpone(until) =>
      if at.Raised? then Goto(w.(outbox := Postponed(w.outbox, at.id, until)), who, Draining(at.rest)) else w
    case Crash => Goto(w, who, Idle)
  }

  ghost predicate Trace(worlds: seq<World>, moves: seq<(nat, Move)>) {
    && |worlds| == |moves| + 1
    && worlds[0] == World([], [], map[])
    && forall i: nat {:trigger Moved(worlds, moves, i)} :: i < |moves| ==> Moved(worlds, moves, i)
  }

  ghost predicate Moved(worlds: seq<World>, moves: seq<(nat, Move)>, i: nat)
    requires i < |moves| < |worlds|
  {
    worlds[i + 1] == Next(worlds[i], moves[i].0, moves[i].1)
  }

  // ---------------------------------------------------------------------------
  // Nothing announced is lost
  // ---------------------------------------------------------------------------

  ghost predicate InStream(w: World, id: nat)
    requires id < |w.outbox|
  {
    IsHint(w.outbox[id]) ==> HintOf(w.outbox[id]) in w.stream
  }

  // A process that is about to mark a row has sent its hint.
  ghost predicate Placed(w: World, who: nat) {
    match At(w, who)
    case Sent(id) => id < |w.outbox| && InStream(w, id)
    case Drained(id, _) => id < |w.outbox| && InStream(w, id)
    case _ => true
  }

  ghost predicate Accounted(w: World, id: nat)
    requires id < |w.outbox|
  {
    w.outbox[id].published ==> InStream(w, id)
  }

  ghost predicate Known(w: World, p: Pair) {
    exists id: nat :: id < |w.outbox| && Addressed(w.outbox[id]) && HintOf(w.outbox[id]) == p
  }

  ghost predicate Sound(w: World) {
    && (forall who: nat {:trigger Placed(w, who)} :: Placed(w, who))
    && (forall id: nat {:trigger Accounted(w, id)} :: id < |w.outbox| ==> Accounted(w, id))
    && (forall p {:trigger Known(w, p)} :: p in w.stream ==> Known(w, p))
  }

  // Rows keep what they announce, marks stay, and the stream only grows.
  ghost predicate Later(v: World, w: World) {
    && |v.outbox| <= |w.outbox|
    && v.stream <= w.stream
    && forall id: nat {:trigger SameRow(v, w, id)} :: id < |v.outbox| ==> SameRow(v, w, id)
  }

  ghost predicate SameRow(v: World, w: World, id: nat)
    requires id < |v.outbox| <= |w.outbox|
  {
    && w.outbox[id].run == v.outbox[id].run && w.outbox[id].agent == v.outbox[id].agent
    && w.outbox[id].event == v.outbox[id].event
    && (v.outbox[id].published ==> w.outbox[id].published)
  }

  lemma LaterTransitive(u: World, v: World, w: World)
    requires Later(u, v) && Later(v, w)
    ensures Later(u, w)
  {
    forall id: nat | id < |u.outbox| ensures SameRow(u, w, id) {
      assert SameRow(u, v, id) && SameRow(v, w, id);
    }
  }

  lemma MoveIsLater(w: World, who: nat, move: Move)
    ensures Later(w, Next(w, who, move))
  {
    var t := Next(w, who, move);
    forall id: nat | id < |w.outbox| ensures SameRow(w, t, id) {
    }
  }

  lemma LaterKeepsInStream(v: World, w: World, id: nat)
    requires Later(v, w) && id < |v.outbox| && InStream(v, id)
    ensures InStream(w, id)
  {
    assert SameRow(v, w, id);
  }

  lemma OthersPlaced(w: World, who: nat, move: Move, other: nat)
    requires Sound(w) && other != who
    ensures Placed(Next(w, who, move), other)
  {
    MoveIsLater(w, who, move);
    assert Placed(w, other);
    var at := At(w, other);
    assert At(Next(w, who, move), other) == at;
    if at.Sent? || at.Drained? {
      LaterKeepsInStream(w, Next(w, who, move), at.id);
    }
  }

  lemma OwnPlaced(w: World, who: nat, move: Move)
    requires Sound(w)
    ensures Placed(Next(w, who, move), who)
  {
    assert Placed(w, who);
  }

  lemma MoveKeepsAccounted(w: World, who: nat, move: Move, id: nat)
    requires Sound(w) && id < |Next(w, who, move).outbox|
    ensures Accounted(Next(w, who, move), id)
  {
    var t := Next(w, who, move);
    MoveIsLater(w, who, move);
    if id < |w.outbox| {
      assert Accounted(w, id) && SameRow(w, t, id);
      if InStream(w, id) {
        LaterKeepsInStream(w, t, id);
      } else {
        assert Placed(w, who);
      }
    }
  }

  lemma LaterKeepsKnown(v: World, w: World, p: Pair)
    requires Later(v, w) && Known(v, p)
    ensures Known(w, p)
  {
    var id: nat :| id < |v.outbox| && Addressed(v.outbox[id]) && HintOf(v.outbox[id]) == p;
    assert SameRow(v, w, id);
    assert Addressed(w.outbox[id]) && HintOf(w.outbox[id]) == p;
  }

  lemma MoveKeepsKnown(w: World, who: nat, move: Move, p: Pair)
    requires Sound(w) && p in Next(w, who, move).stream
    ensures Known(Next(w, who, move), p)
  {
    MoveIsLater(w, who, move);
    if p in w.stream {
      assert Known(w, p);
    } else {
      var at := At(w, who);
      var id := if at.Announced? then at.id else at.todo[0];
      assert Addressed(w.outbox[id]) && HintOf(w.outbox[id]) == p;
      assert Known(w, p);
    }
    LaterKeepsKnown(w, Next(w, who, move), p);
  }

  lemma MoveKeepsSound(w: World, who: nat, move: Move)
    requires Sound(w)
    ensures Sound(Next(w, who, move))
  {
    var t := Next(w, who, move);
    forall other: nat ensures Placed(t, other) {
      if other == who {
        OwnPlaced(w, who, move);
      } else {
        OthersPlaced(w, who, move, other);
      }
    }
    forall id: nat | id < |t.outbox| ensures Accounted(t, id) {
      MoveKeepsAccounted(w, who, move, id);
    }
    forall p | p in t.stream ensures Known(t, p) {
      MoveKeepsKnown(w, who, move, p);
    }
  }

  lemma {:induction false} TraceSound(worlds: seq<World>, moves: seq<(nat, Move)>, k: nat)
    requires Trace(worlds, moves) && k < |worlds|
    ensures Sound(worlds[k])
  {
    if k == 0 {
      forall who: nat ensures Placed(worlds[0], who) {
      }
    } else {
      TraceSound(worlds, moves, k - 1);
      assert Moved(worlds, moves, k - 1);
      MoveKeepsSound(worlds[k - 1], moves[k - 1].0, moves[k - 1].1);
    }
  }

  lemma {:induction false} TraceLater(worlds: seq<World>, moves: seq<(nat, Move)>, j: nat, k: nat)
    requires Trace(worlds, moves) && j <= k < |worlds|
    ensures Later(worlds[j], worlds[k])
  {
    if j == k {
      forall id: nat | id < |worlds[j].outbox| ensures SameRow(worlds[j], worlds[k], id) {
      }
    } else {
      TraceLater(worlds, moves, j, k - 1);
      assert Moved(worlds, moves, k - 1);
      MoveIsLater(worlds[k - 1], moves[k - 1].0, moves[k - 1].1);
      LaterTransitive(worlds[j], worlds[k - 1], worlds[k]);
    }
  }

  // Whatever is announced at `j` is, at every later `k`, still pending or in the stream;
  // and a row once marked stays marked.
  lemma AtLeastOnce(worlds: seq<World>, moves: seq<(nat, Move)>, j: nat, k: nat, id: nat)
    requires Trace(worlds, moves) && j <= k < |worlds| && id < |worlds[j].outbox| && IsHint(worlds[j].outbox[id])
    ensures id < |worlds[k].outbox|
    ensures worlds[k].outbox[id].published ==> HintOf(worlds[j].outbox[id]) in worlds[k].stream
    ensures worlds[j].outbox[id].published ==> worlds[k].outbox[id].published
    ensures worlds[j].stream <= worlds[k].stream
  {
    TraceLater(worlds, moves, j, k);
    TraceSound(worlds, moves, k);
    assert SameRow(worlds[j], worlds[k], id);
    assert Accounted(worlds[k], id);
  }

  // The stream holds nothing that was not announced.
  lemma NothingInvented(worlds: seq<World>, moves: seq<(nat, Move)>, k: nat, p: Pair)
    requires Trace(worlds, moves) && k < |worlds| && p in worlds[k].stream
    ensures Known(worlds[k], p)
  {
    TraceSound(worlds, moves, k);
  }

  // Once is not exactly once: a publisher that crashes after sending leaves its row to
  // a drainer, who sends the hint again.
  lemma CrashSendsTwice(run: RunId, agent: Name) returns (worlds: seq<World>, moves: seq<(nat, Move)>)
    requires agent != ""
    ensures Trace(worlds, moves) && |worlds| == 6
    ensures |worlds[5].outbox| == 1 && worlds[5].stream == [(run, agent), (run, agent)]
  {
    var row := OutboxRow(run, Some(agent), AgentReady, false, 0, None);
    moves := [(0, Announce(run, Some(agent), AgentReady)), (0, Send), (0, Crash), (1, Read(100, 0)), (1, Send)];
    var w0 := World([], [], map[]);
    var w1 := Next(w0, 0, moves[0].1);
    assert w1 == World([row], [], map[0 := Announced(0)]);
    var w2 := SentByPublisher(w1, 0);
    var w3 := Next(w2, 0, Crash);
    var w4 := ReadByDrainer(w3, 1, row);
    var w5 := SentByDrainer(w4, 1);
    worlds := [w0, w1, w2, w3, w4, w5];
    forall i: nat | i < |moves| ensures Moved(worlds, moves, i) {
      assert i == 0 || i == 1 || i == 2 || i == 3 || i == 4;
    }
  }

  lemma SentByPublisher(w: World, who: nat) returns (t: World)
    requires |w.outbox| == 1 && Addressed(w.outbox[0]) && At(w, who) == Announced(0)
    ensures t == Next(w, who, Send) && t.outbox == w.outbox && t.stream == w.stream + [HintOf(w.outbox[0])]
    ensures forall other :: other != who ==> At(t, other) == At(w, other)
  {
    t := Next(w, who, Send);
  }

  lemma ReadByDrainer(w: World, who: nat, row: OutboxRow) returns (t: World)
    requires w.outbox == [row] && Due(row, 0) && At(w, who) == Idle
    ensures t == Next(w, who, Read(100, 0)) && t.outbox == w.outbox && t.stream == w.stream
    ensures At(t, who) == Draining([0])
  {
    assert w.outbox[..0] == [] && DueIds([], 0) == [];
    t := Next(w, who, Read(100, 0));
  }

  lemma SentByDrainer(w: World, who: nat) returns (t: World)
    requires |w.outbox| == 1 && IsHint(w.outbox[0]) && At(w, who) == Draining([0])
    ensures t == Next(w, who, Send) && t.outbox == w.outbox && t.stream == w.stream + [HintOf(w.outbox[0])]
  {
    t := Next(w, who, Send);
  }
}
