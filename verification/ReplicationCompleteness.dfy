/** What acks=all is worth when every `await` may switch tasks. */
module ReplicationCompleteness {
  import opened Wrappers
  import opened Json
  import opened LogSpec
  import opened Keys
  import opened ReplicationSpec
  import opened ReplicationProtocol
  import opened ReplicationInterleaved

  // ----- a follower's log is the replay of what it took from its connections -----

  function Taken(w: World, e: Event, id: BrokerId): seq<Replicate> {
    if e.Plain? && e.a.Apply? && e.a.id == id && id in w.sys.nodes && w.sys.nodes[id].conn.Some?
       && Down(w.sys, w.sys.nodes[id].conn.value) != []
    then [Down(w.sys, w.sys.nodes[id].conn.value)[0]] else []
  }

  /** Every message a follower applied during a run, in order, over all its connections. */
  ghost function Received(w: World, events: seq<Event>, id: BrokerId): seq<Replicate>
    decreases |events|
  {
    if events == [] || !Occurs(w, events[0]) then []
    else Taken(w, events[0], id) + Received(After(w, events[0]), events[1..], id)
  }

  lemma ApplyReplays(logs: Logs, m: Replicate, tp: TopicPartition)
    ensures LogAt(Applied(logs, m), tp) == PutAll(LogAt(logs, tp), Pending([m], tp))
  {
    PendingOne(m, tp);
    assert [m.rec][1..] == [];
    assert PutAll(LogAt(logs, tp), [m.rec]) == PutAll(Put(LogAt(logs, tp), Some(m.rec.offset), m.rec.payload), []);
  }

  lemma StepNodes(s: System, a: Step, id: BrokerId)
    requires Enabled(s, a) && id in s.nodes
    ensures Do(s, a).nodes.Keys == s.nodes.Keys
    ensures Do(s, a).nodes[id].logs ==
      if a.Apply? && a.id == id then Applied(s.nodes[id].logs, Down(s, s.nodes[id].conn.value)[0]) else s.nodes[id].logs
  {
    hide Key, NextOffsets, IsFull, IsLastHeld, Registered, Acknowledged, Dropped, Closed, Published, Applied, Broadcast,
      CatchUp, PartialCatchUp, Losing, Up, IsRegistered;
  }

  /** Only applying a message changes a follower's logs. */
  lemma EventNodes(w: World, e: Event, id: BrokerId)
    requires Occurs(w, e) && id in w.sys.nodes
    ensures After(w, e).sys.nodes.Keys == w.sys.nodes.Keys
    ensures var (logs, taken) := (w.sys.nodes[id].logs, Taken(w, e, id));
      After(w, e).sys.nodes[id].logs == if taken == [] then logs else Applied(logs, taken[0])
  {
    hide Do, Key, IsFull, IsLastHeld, Registered, Dropped, AfterWrite, Settle, NextRead, Published, Applied, Up,
      IsRegistered, NextOffsets, Broadcast, CatchUp, PartialCatchUp;
    if e.Plain? { StepNodes(w.sys, e.a, id); }
  }

  lemma EventReplays(w: World, e: Event, id: BrokerId, tp: TopicPartition)
    requires Occurs(w, e) && id in w.sys.nodes
    ensures After(w, e).sys.nodes.Keys == w.sys.nodes.Keys
    ensures LogAt(After(w, e).sys.nodes[id].logs, tp)
      == PutAll(LogAt(w.sys.nodes[id].logs, tp), Pending(Taken(w, e, id), tp))
  {
    hide Occurs, After, LogAt, Applied;
    EventNodes(w, e, id);
    var taken := Taken(w, e, id);
    if taken == [] {
      NothingPending(tp);
    } else {
      ApplyReplays(w.sys.nodes[id].logs, taken[0], tp);
      assert taken == [taken[0]];
    }
  }

  lemma {:induction false} LogIsReplay(w: World, events: seq<Event>, w': World, id: BrokerId, tp: TopicPartition)
    requires Unfolds(w, events, w') && id in w.sys.nodes
    ensures w'.sys.nodes.Keys == w.sys.nodes.Keys
    ensures LogAt(w'.sys.nodes[id].logs, tp)
      == PutAll(LogAt(w.sys.nodes[id].logs, tp), Pending(Received(w, events, id), tp))
    decreases |events|
  {
    hide Occurs, After, Pending, Taken, LogAt;
    var log := LogAt(w.sys.nodes[id].logs, tp);
    if events == [] {
      NothingPending(tp);
    } else {
      var (first, rest) := (Taken(w, events[0], id), Received(After(w, events[0]), events[1..], id));
      EventReplays(w, events[0], id, tp);
      LogIsReplay(After(w, events[0]), events[1..], w', id, tp);
      PendingConcat(first, rest, tp);
      PutAllConcat(log, Pending(first, tp), Pending(rest, tp));
    }
  }

  lemma NothingPending(tp: TopicPartition)
    ensures Pending([], tp) == []
  {
  }

  // ----- exactly when acks=all holds -----

  lemma AgreesIsPrefix(log: Log<Json>, leader: Log<Json>, n: nat)
    requires Agrees(log, leader) && Dense(leader)
    ensures (|log| >= n && Dense(log[..n])) <==> (|log| >= n && n <= |leader| && log[..n] == leader[..n])
  {
    if |log| >= n && Dense(log[..n]) {
      forall i | 0 <= i < n ensures i < |leader| && log[i] == leader[i] { assert log[..n][i].offset == i; }
      if n > 0 { assert log[..n][n - 1].offset == n - 1; }
    }
    if |log| >= n && n <= |leader| && log[..n] == leader[..n] {
      forall i | 0 <= i < n ensures log[..n][i].offset == i { assert log[..n][i] == leader[..n][i]; }
    }
  }

  /** When the poll of acks=all succeeds, a follower whose log had no gap holds every record up to the offset if and
      only if no message reached it ahead of its next offset before it got there. */
  lemma AcksAllExactly(w0: World, events: seq<Event>, w: World, id: BrokerId, tp: TopicPartition, offset: nat)
    requires Fresh(w0) && Unfolds(w0, events, w) && id in w0.sys.nodes && Dense(LogAt(w0.sys.nodes[id].logs, tp))
    requires AllAcked(w.sys.tables, tp, offset) && id in w.sys.tables.followers
    ensures id in w.sys.nodes
    ensures
      var (log, lead) := (LogAt(w.sys.nodes[id].logs, tp), LogAt(w.sys.logs, tp));
      (offset < |log| && offset < |lead| && log[..offset + 1] == lead[..offset + 1]) <==>
        NoJumpUpTo(|LogAt(w0.sys.nodes[id].logs, tp)|, Pending(Received(w0, events, id), tp), offset + 1)
  {
    hide Fresh, Unfolds, Occurs, After, Received, Pending, Agrees, LogAt, Dense, Next, Recorded, NoJumpUpTo, PutAll;
    LogIsReplay(w0, events, w, id, tp);
    AgreementTheorem(w0, events, w, id, tp);
    assert Recorded(w.sys.tables, id, tp) >= offset;
    LeaderDense(w0, events, w, tp);
    CompleteExactly(LogAt(w0.sys.nodes[id].logs, tp), Pending(Received(w0, events, id), tp), offset + 1);
    AgreesIsPrefix(LogAt(w.sys.nodes[id].logs, tp), LogAt(w.sys.logs, tp), offset + 1);
  }

  lemma LeaderDense(w0: World, events: seq<Event>, w: World, tp: TopicPartition)
    requires Fresh(w0) && Unfolds(w0, events, w)
    ensures Dense(LogAt(w.sys.logs, tp))
  {
    hide Unfolds, Dense, LogAt, Wired, Fits, AllDrawn, TaskDrawn, RequestsBelow, Fresh;
    FreshSound(w0);
    UnfoldsSound(w0, events, w);
  }

  // ----- a run where a live message overtakes the catch-up -----

  /** One follower, one partition, three payloads. */
  datatype Scene = Scene(f: BrokerId, c: Conn, tp: TopicPartition, p0: Json, p1: Json, p2: Json) {
    function R(i: nat): Rec<Json> { Rec(i, if i == 0 then p0 else if i == 1 then p1 else p2) }
    function M(i: nat): Replicate { Replicate(tp, R(i)) }
    function K(): string { Key(tp) }
    function Leader(three: bool): Logs { map[tp := if three then [R(0), R(1), R(2)] else [R(0), R(1)]] }
    function Listed(acked: int): Tables { Tables(map[f := c], map[f := map[K() := acked]]) }
    function CatchUpTask(todo: seq<string>, queue: seq<Replicate>): Task {
      CatchingUp(f, c, map[K() := 0], todo, queue)
    }

    function At(
      three: bool, t: Tables, held: Logs, down: seq<Replicate>, up: seq<Request>, tasks: map<nat, Task>): World
    {
      World(System(Leader(three), t, map[f := Node(held, Some(c))], map[c := f], map[c := down], map[c := up]), tasks)
    }

    /** The leader holds two records, the follower none. */
    function Start(): World {
      World(System(Leader(false), Tables(map[], map[]), map[f := Node(map[], None)], map[], map[], map[]), map[])
    }

    /** The third record has been applied and acknowledged before the second arrives. */
    function End(): World { At(true, Listed(2), map[tp := [R(0), R(2)]], [M(1)], [], map[]) }
  }

  ghost predicate Leads(w: World, w': World) { exists events :: Unfolds(w, events, w') }

  lemma LeadsOn(w: World, e: Event, w1: World, w': World)
    requires Occurs(w, e) && After(w, e) == w1 && Leads(w1, w')
    ensures Leads(w, w')
  {
    hide Occurs, After;
    var events :| Unfolds(w1, events, w');
    assert ([e] + events)[1..] == events;
    assert Unfolds(w, [e] + events, w');
  }

  lemma Connects(s: Scene)
    ensures Occurs(s.Start(), Plain(Connect(s.f, s.c, map[])))
    ensures After(s.Start(), Plain(Connect(s.f, s.c, map[]))) ==
      s.At(false, Tables(map[], map[]), map[], [], [Register(map[])], map[])
  {
    hide Key;
  }

  lemma Admits(s: Scene)
    ensures var (w, e) := (s.At(false, Tables(map[], map[]), map[], [], [Register(map[])], map[]),
                           Admit(0, s.c, map[s.K() := 0], map[s.K() := -1], [s.K()]));
      Occurs(w, e) && After(w, e) == s.At(false, s.Listed(-1), map[], [], [], map[0 := s.CatchUpTask([s.K()], [])])
  {
    hide Key;
    var (w, e) := (s.At(false, Tables(map[], map[]), map[], [], [Register(map[])], map[]),
                   Admit(0, s.c, map[s.K() := 0], map[s.K() := -1], [s.K()]));
    assert IsFull(map[s.K() := 0], map[], w.sys.logs.Keys) by { assert s.tp in w.sys.logs.Keys; }
    assert Occurs(w, e);
  }

  lemma Reads(s: Scene)
    ensures var w := s.At(false, s.Listed(-1), map[], [], [], map[0 := s.CatchUpTask([s.K()], [])]);
      Occurs(w, Read(0)) &&
      After(w, Read(0)) == s.At(false, s.Listed(-1), map[], [], [], map[0 := s.CatchUpTask([], [s.M(0), s.M(1)])])
  {
    hide Key, SplitKey, From;
    var w := s.At(false, s.Listed(-1), map[], [], [], map[0 := s.CatchUpTask([s.K()], [])]);
    KeyRoundTrip(s.tp);
    FromDense([s.R(0), s.R(1)], 0);
    assert LogAt(w.sys.logs, s.tp) == [s.R(0), s.R(1)];
    assert NextRead(w.tasks[0], w.sys.logs) == s.CatchUpTask([], [s.M(0), s.M(1)]);
    assert Messages(s.tp, [s.R(0), s.R(1)]) == [s.M(0), s.M(1)];
    assert Occurs(w, Read(0));
    assert After(w, Read(0)).tasks == map[0 := s.CatchUpTask([], [s.M(0), s.M(1)])];
  }

  lemma WritesFirst(s: Scene)
    ensures var w := s.At(false, s.Listed(-1), map[], [], [], map[0 := s.CatchUpTask([], [s.M(0), s.M(1)])]);
      Occurs(w, Write(0, true, true)) &&
      After(w, Write(0, true, true))
        == s.At(false, s.Listed(-1), map[], [s.M(0)], [], map[0 := s.CatchUpTask([], [s.M(1)])])
  {
    hide Key;
    var w := s.At(false, s.Listed(-1), map[], [], [], map[0 := s.CatchUpTask([], [s.M(0), s.M(1)])]);
    assert [s.M(0), s.M(1)][1..] == [s.M(1)] && [] + [s.M(0)] == [s.M(0)];
    assert Occurs(w, Write(0, true, true));
    assert After(w, Write(0, true, true)).sys.down == map[s.c := [s.M(0)]];
    assert After(w, Write(0, true, true)).tasks == map[0 := s.CatchUpTask([], [s.M(1)])];
  }

  /** The publish that overtakes. */
  lemma Produces(s: Scene)
    ensures var (w, e) := (s.At(false, s.Listed(-1), map[], [s.M(0)], [], map[0 := s.CatchUpTask([], [s.M(1)])]),
                           Produce(1, s.tp, s.p2, [(s.f, s.c)]));
      Occurs(w, e) && After(w, e) == s.At(true, s.Listed(-1), map[], [s.M(0)], [],
        map[0 := s.CatchUpTask([], [s.M(1)]), 1 := Broadcasting(s.M(2), [(s.f, s.c)])])
  {
    hide Key;
    var (w, e) := (s.At(false, s.Listed(-1), map[], [s.M(0)], [], map[0 := s.CatchUpTask([], [s.M(1)])]),
                   Produce(1, s.tp, s.p2, [(s.f, s.c)]));
    assert Occurs(w, e);
    assert [s.R(0), s.R(1)] + [s.R(2)] == [s.R(0), s.R(1), s.R(2)];
    assert After(w, e).sys.logs == s.Leader(true);
    assert After(w, e).tasks == map[0 := s.CatchUpTask([], [s.M(1)]), 1 := Broadcasting(s.M(2), [(s.f, s.c)])];
  }

  lemma Broadcasts(s: Scene)
    ensures var w := s.At(true, s.Listed(-1), map[], [s.M(0)], [],
        map[0 := s.CatchUpTask([], [s.M(1)]), 1 := Broadcasting(s.M(2), [(s.f, s.c)])]);
      Occurs(w, Write(1, true, true)) && After(w, Write(1, true, true)) ==
        s.At(true, s.Listed(-1), map[], [s.M(0), s.M(2)], [], map[0 := s.CatchUpTask([], [s.M(1)])])
  {
    hide Key;
    var w := s.At(true, s.Listed(-1), map[], [s.M(0)], [],
      map[0 := s.CatchUpTask([], [s.M(1)]), 1 := Broadcasting(s.M(2), [(s.f, s.c)])]);
    assert Occurs(w, Write(1, true, true));
    assert [s.M(0)] + [s.M(2)] == [s.M(0), s.M(2)];
    assert After(w, Write(1, true, true)).tasks == map[0 := s.CatchUpTask([], [s.M(1)])];
    assert After(w, Write(1, true, true)).sys.down == map[s.c := [s.M(0), s.M(2)]];
  }

  lemma WritesSecond(s: Scene)
    ensures var w := s.At(true, s.Listed(-1), map[], [s.M(0), s.M(2)], [], map[0 := s.CatchUpTask([], [s.M(1)])]);
      Occurs(w, Write(0, true, true)) &&
      After(w, Write(0, true, true)) == s.At(true, s.Listed(-1), map[], [s.M(0), s.M(2), s.M(1)], [], map[])
  {
    hide Key;
    var w := s.At(true, s.Listed(-1), map[], [s.M(0), s.M(2)], [], map[0 := s.CatchUpTask([], [s.M(1)])]);
    assert Occurs(w, Write(0, true, true));
    assert [s.M(0), s.M(2)] + [s.M(1)] == [s.M(0), s.M(2), s.M(1)];
    assert After(w, Write(0, true, true)).tasks == map[];
    assert After(w, Write(0, true, true)).sys.down == map[s.c := [s.M(0), s.M(2), s.M(1)]];
  }

  /** The follower takes a message that is ahead of, or at, its next offset. */
  lemma Applies(s: Scene, i: nat, held: Logs, log: Log<Json>, rest: seq<Replicate>, up: seq<Request>)
    requires LogAt(held, s.tp) == log && held == (if log == [] then map[] else map[s.tp := log]) && i >= Next(log)
    ensures var w := s.At(true, s.Listed(-1), held, [s.M(i)] + rest, up, map[]);
      Occurs(w, Plain(Apply(s.f, true))) && After(w, Plain(Apply(s.f, true))) ==
        s.At(true, s.Listed(-1), map[s.tp := log + [s.R(i)]], rest, up + [Ack(s.tp, i)], map[])
  {
    hide Key;
    var w := s.At(true, s.Listed(-1), held, [s.M(i)] + rest, up, map[]);
    assert Occurs(w, Plain(Apply(s.f, true)));
    assert ([s.M(i)] + rest)[1..] == rest;
    assert Applied(held, s.M(i)) == map[s.tp := log + [s.R(i)]];
    assert After(w, Plain(Apply(s.f, true))).sys.up == map[s.c := up + [Ack(s.tp, i)]];
    assert After(w, Plain(Apply(s.f, true))).sys.nodes == map[s.f := Node(map[s.tp := log + [s.R(i)]], Some(s.c))];
  }

  lemma TakesAck(s: Scene, was: int, i: nat, held: Logs, down: seq<Replicate>, rest: seq<Request>)
    ensures var w := s.At(true, s.Listed(was), held, down, [Ack(s.tp, i)] + rest, map[]);
      Occurs(w, Plain(HandleAck(s.c))) &&
      After(w, Plain(HandleAck(s.c))) == s.At(true, s.Listed(i), held, down, rest, map[])
  {
    hide Key;
    var w := s.At(true, s.Listed(was), held, down, [Ack(s.tp, i)] + rest, map[]);
    assert Occurs(w, Plain(HandleAck(s.c)));
    assert ([Ack(s.tp, i)] + rest)[1..] == rest;
    assert After(w, Plain(HandleAck(s.c))).sys.up == map[s.c := rest];
    assert map[s.K() := was][s.K() := i] == map[s.K() := i];
    assert After(w, Plain(HandleAck(s.c))).sys.tables == s.Listed(i);
  }

  /** The second half of the run: the follower takes the third record before the second, and acknowledges it. */
  lemma AppliesAhead(s: Scene)
    ensures Leads(s.At(true, s.Listed(-1), map[], [s.M(0), s.M(2), s.M(1)], [], map[]), s.End())
  {
    hide Occurs, After;
    var l1: Logs, l2: Logs := map[s.tp := [s.R(0)]], map[s.tp := [s.R(0), s.R(2)]];
    var (a0, a2) := (Ack(s.tp, 0), Ack(s.tp, 2));
    var w7 := s.At(true, s.Listed(-1), map[], [s.M(0), s.M(2), s.M(1)], [], map[]);
    var w8 := s.At(true, s.Listed(-1), l1, [s.M(2), s.M(1)], [a0], map[]);
    var w9 := s.At(true, s.Listed(-1), l2, [s.M(1)], [a0, a2], map[]);
    var w10 := s.At(true, s.Listed(0), l2, [s.M(1)], [a2], map[]);
    assert [s.M(0)] + [s.M(2), s.M(1)] == [s.M(0), s.M(2), s.M(1)] && [s.M(2)] + [s.M(1)] == [s.M(2), s.M(1)];
    assert [s.R(0)] + [s.R(2)] == [s.R(0), s.R(2)] && [] + [s.R(0)] == [s.R(0)];
    assert [a0] + [a2] == [a0, a2] && [] + [a0] == [a0] && [a2] + [] == [a2];
    Applies(s, 0, map[], [], [s.M(2), s.M(1)], []);
    Applies(s, 2, l1, [s.R(0)], [s.M(1)], [a0]);
    TakesAck(s, -1, 0, l2, [s.M(1)], [a2]);
    TakesAck(s, 0, 2, l2, [s.M(1)], []);
    assert Unfolds(s.End(), [], s.End());
    LeadsOn(w10, Plain(HandleAck(s.c)), s.End(), s.End());
    LeadsOn(w9, Plain(HandleAck(s.c)), w10, s.End());
    LeadsOn(w8, Plain(Apply(s.f, true)), w9, s.End());
    LeadsOn(w7, Plain(Apply(s.f, true)), w8, s.End());
  }

  lemma Overtakes(s: Scene)
    ensures Leads(s.Start(), s.End())
  {
    hide Occurs, After;
    var (first, rest) := (s.CatchUpTask([], [s.M(0), s.M(1)]), s.CatchUpTask([], [s.M(1)]));
    AppliesAhead(s);
    WritesSecond(s);
    LeadsOn(s.At(true, s.Listed(-1), map[], [s.M(0), s.M(2)], [], map[0 := rest]), Write(0, true, true),
      s.At(true, s.Listed(-1), map[], [s.M(0), s.M(2), s.M(1)], [], map[]), s.End());
    Broadcasts(s);
    LeadsOn(s.At(true, s.Listed(-1), map[], [s.M(0)], [], map[0 := rest, 1 := Broadcasting(s.M(2), [(s.f, s.c)])]),
      Write(1, true, true), s.At(true, s.Listed(-1), map[], [s.M(0), s.M(2)], [], map[0 := rest]), s.End());
    Produces(s);
    LeadsOn(s.At(false, s.Listed(-1), map[], [s.M(0)], [], map[0 := rest]), Produce(1, s.tp, s.p2, [(s.f, s.c)]),
      s.At(true, s.Listed(-1), map[], [s.M(0)], [], map[0 := rest, 1 := Broadcasting(s.M(2), [(s.f, s.c)])]), s.End());
    WritesFirst(s);
    LeadsOn(s.At(false, s.Listed(-1), map[], [], [], map[0 := first]), Write(0, true, true),
      s.At(false, s.Listed(-1), map[], [s.M(0)], [], map[0 := rest]), s.End());
    Reads(s);
    LeadsOn(s.At(false, s.Listed(-1), map[], [], [], map[0 := s.CatchUpTask([s.K()], [])]), Read(0),
      s.At(false, s.Listed(-1), map[], [], [], map[0 := first]), s.End());
    Admits(s);
    LeadsOn(s.At(false, Tables(map[], map[]), map[], [], [Register(map[])], map[]),
      Admit(0, s.c, map[s.K() := 0], map[s.K() := -1], [s.K()]),
      s.At(false, s.Listed(-1), map[], [], [], map[0 := s.CatchUpTask([s.K()], [])]), s.End());
    Connects(s);
    LeadsOn(s.Start(), Plain(Connect(s.f, s.c, map[])),
      s.At(false, Tables(map[], map[]), map[], [], [Register(map[])], map[]), s.End());
  }

  /** acks=all does not mean replicated here: the poll for the third record succeeds, the follower lacks the second,
      and the message that carries it, still on its way, will be dropped. */
  lemma AcksAllFailsWhenOvertaken(s: Scene)
    ensures Fresh(s.Start()) && Leads(s.Start(), s.End())
    ensures var sys := s.End().sys;
      && AllAcked(sys.tables, s.tp, 2) && s.f in sys.tables.followers
      && LogAt(sys.logs, s.tp) == [s.R(0), s.R(1), s.R(2)]
      && LogAt(sys.nodes[s.f].logs, s.tp) == [s.R(0), s.R(2)]
      && PutAll([s.R(0), s.R(2)], Pending(Down(sys, s.c), s.tp)) == [s.R(0), s.R(2)]
  {
    hide Key, Leads;
    Overtakes(s);
    PendingOne(s.M(1), s.tp);
    assert [s.R(1)][1..] == [];
    assert PutAll([s.R(0), s.R(2)], [s.R(1)]) == PutAll([s.R(0), s.R(2)], []);
  }
}
