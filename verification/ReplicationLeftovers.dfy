/** What unread requests of a follower's earlier connections do to acks=all: exactly those can keep the poll failing. */
module ReplicationLeftovers {
  import opened Wrappers
  import opened Json
  import opened LogSpec
  import opened Keys
  import opened ReplicationSpec
  import opened ReplicationProtocol
  import opened ReplicationProgress

  /** A registered follower on a live connection, its acknowledgements on the way bringing the table level. */
  ghost predicate Live(s: System, id: BrokerId, c: Conn) {
    && id in s.nodes && s.nodes[id].conn == Some(c) && IsRegistered(s.tables, id, c)
    && Level(s.tables, id, Up(s, c), s.nodes[id].logs)
  }

  predicate Drained(s: System, c: Conn) { Down(s, c) == [] && Up(s, c) == [] }

  /** Whatever happens short of losing the connection: once its channels are drained, the table records every record
      of the leader as acknowledged. */
  ghost predicate AlwaysAcks(s: System, id: BrokerId, c: Conn) {
    forall steps, s' :: ReachesSparing(s, steps, s', id, c) && Drained(s', c) ==>
      forall tp :: Recorded(s'.tables, id, tp) == |LogAt(s'.logs, tp)| - 1
  }

  /** The earlier connections' requests are as they were. */
  ghost predicate SameLeftovers(s: System, s': System, id: BrokerId, c: Conn) {
    && s'.owner == s.owner
    && forall c' :: c' in s.owner && s.owner[c'] == id && c' != c ==> Up(s', c') == Up(s, c')
  }

  lemma {:induction false} SparingOn(
    s: System, a: seq<Step>, s1: System, b: seq<Step>, s2: System, id: BrokerId, c: Conn)
    requires ReachesSparing(s, a, s1, id, c) && ReachesSparing(s1, b, s2, id, c)
    ensures ReachesSparing(s, a + b, s2, id, c)
    decreases |a|
  {
    hide Enabled, Do, Spares;
    if a == [] {
      assert a + b == b;
    } else {
      assert (a + b)[1..] == a[1..] + b;
      SparingOn(Do(s, a[0]), a[1..], s1, b, s2, id, c);
    }
  }

  lemma OneStep(s: System, a: Step, id: BrokerId, c: Conn)
    requires Enabled(s, a) && Spares(a, id, c)
    ensures ReachesSparing(s, [a], Do(s, a), id, c)
  {
    hide Enabled, Do, Spares;
    assert [a][1..] == [] && ReachesSparing(Do(s, a), [], Do(s, a), id, c);
  }

  // ----- draining the live connection -----

  lemma ApplyOne(s: System, id: BrokerId, c: Conn)
    requires Inv(s) && Live(s, id, c) && Down(s, c) != []
    ensures var a := Apply(id, true);
      Enabled(s, a) && var s' := Do(s, a);
      && Live(s', id, c) && SameLeftovers(s, s', id, c) && s'.logs == s.logs
      && |Down(s', c)| == |Down(s, c)| - 1 && |Up(s', c)| == |Up(s, c)| + 1
  {
    hide Level, AllDense, Applied, Continues, Inv;
    OwnApply(s, id, c);
    ApplyLevel(s.tables, id, Up(s, c), s.nodes[id].logs, Down(s, c), s.logs);
  }

  lemma HandleOne(s: System, id: BrokerId, c: Conn)
    requires Inv(s) && Live(s, id, c) && Up(s, c) != []
    ensures var a := HandleAck(c);
      Enabled(s, a) && var s' := Do(s, a);
      && Live(s', id, c) && SameLeftovers(s, s', id, c) && s'.logs == s.logs
      && Down(s', c) == Down(s, c) && |Up(s', c)| == |Up(s, c)| - 1
  {
    hide Level, AllDense, Applied, Continues, Acknowledged;
    OnlyAcks(s, id, c);
    assert Enabled(s, HandleAck(c));
    hide Inv;
    OwnAck(s, id, c);
    AckLevel(s.tables, id, Up(s, c), s.nodes[id].logs);
    AckKeepsFollowers(s.tables, id, Up(s, c)[0]);
  }

  lemma AckKeepsFollowers(t: Tables, id: BrokerId, r: Request)
    requires r.Ack?
    ensures Acknowledged(t, id, r.tp, r.offset).followers == t.followers
  {
  }

  /** A registered follower's live connection carries nothing but acknowledgements. */
  lemma OnlyAcks(s: System, id: BrokerId, c: Conn)
    requires Inv(s) && Live(s, id, c) && Up(s, c) != []
    ensures c in s.owner && s.owner[c] == id && Up(s, c)[0].Ack?
  {
    hide AllDense, AcksTrue, RequestsTrue, Continues, Completes, Announces, Level, Prefix;
    assert NodeOk(s, id);
    assert Up(s, c)[0] in Up(s, c);
  }

  lemma SameLeftoversOn(s: System, s1: System, s2: System, id: BrokerId, c: Conn)
    requires SameLeftovers(s, s1, id, c) && SameLeftovers(s1, s2, id, c)
    ensures SameLeftovers(s, s2, id, c)
  {
    hide Up;
  }

  lemma {:induction false} Drains(s: System, id: BrokerId, c: Conn) returns (steps: seq<Step>, s': System)
    requires Inv(s) && Live(s, id, c)
    ensures ReachesSparing(s, steps, s', id, c) && Inv(s') && Live(s', id, c) && Drained(s', c)
    ensures SameLeftovers(s, s', id, c) && s'.logs == s.logs
    decreases 2 * |Down(s, c)| + |Up(s, c)|
  {
    hide Inv, Enabled, Do, Live, Down, Up, SameLeftovers;
    if Down(s, c) == [] && Up(s, c) == [] {
      steps, s' := [], s;
      NothingChanged(s, id, c);
    } else {
      var a := if Down(s, c) != [] then Apply(id, true) else HandleAck(c);
      if Down(s, c) != [] { ApplyOne(s, id, c); } else { HandleOne(s, id, c); }
      StepKeeps(s, a);
      steps, s' := Drains(Do(s, a), id, c);
      OneStep(s, a, id, c);
      SparingOn(s, [a], Do(s, a), steps, s', id, c);
      SameLeftoversOn(s, Do(s, a), s', id, c);
      steps := [a] + steps;
    }
  }

  lemma NothingChanged(s: System, id: BrokerId, c: Conn)
    ensures SameLeftovers(s, s, id, c)
  {
  }

  // ----- a publish that reaches only this follower -----

  function Lonely(s: System, id: BrokerId, c: Conn, tp: TopicPartition, p: Json): Step {
    var m := Replicate(tp, Rec(Next(LogAt(s.logs, tp)), p));
    Publish(tp, p, s.tables.followers.Keys - {id}, {},
      if IsRegistered(s.tables, id, c) then s.down[c := Down(s, c) + [m]] else s.down)
  }

  lemma LonelyEnabled(s: System, id: BrokerId, c: Conn, tp: TopicPartition, p: Json)
    requires IsRegistered(s.tables, id, c) || id !in s.tables.followers
    ensures Enabled(s, Lonely(s, id, c, tp, p)) && Spares(Lonely(s, id, c, tp, p), id, c)
  {
    hide Next;
    var t := s.tables;
    assert Reached(t, t.followers.Keys - {id}, {}) == if IsRegistered(t, id, c) then {c} else {};
  }

  lemma LonelyLeaves(s: System, id: BrokerId, c: Conn, tp: TopicPartition, p: Json)
    requires Inv(s) && Live(s, id, c)
    ensures Enabled(s, Lonely(s, id, c, tp, p)) && Spares(Lonely(s, id, c, tp, p), id, c)
    ensures var s' := Do(s, Lonely(s, id, c, tp, p));
      && Live(s', id, c) && SameLeftovers(s, s', id, c)
      && |LogAt(s'.logs, tp)| == |LogAt(s.logs, tp)| + 1
  {
    hide Inv, Level, Broadcast, Next, Reached, Losing;
    LonelyEnabled(s, id, c, tp, p);
    var a := Lonely(s, id, c, tp, p);
    LosingTables(s.tables, id, s.tables.followers.Keys - {id});
    SameRecords(s.tables, Do(s, a).tables, id, Up(s, c), s.nodes[id].logs);
  }

  // ----- what a leftover does -----

  /** A stale acknowledgement lowers the record and makes the poll fail, at once and with nothing in flight. */
  lemma StaleAckFailsPoll(s: System, id: BrokerId, c: Conn, c': Conn)
    requires IsRegistered(s.tables, id, c) && c' != c && c' in s.owner && s.owner[c'] == id
    requires Up(s, c') != [] && Up(s, c')[0].Ack? && Up(s, c')[0].offset < |LogAt(s.logs, Up(s, c')[0].tp)| - 1
    ensures Enabled(s, HandleAck(c'))
    ensures var (s', r) := (Do(s, HandleAck(c')), Up(s, c')[0]);
      && Recorded(s'.tables, id, r.tp) == r.offset && !AllAcked(s'.tables, r.tp, |LogAt(s'.logs, r.tp)| - 1)
      && Down(s', c) == Down(s, c) && Up(s', c) == Up(s, c) && s'.logs == s.logs
  {
    hide Key, Recorded, Acknowledged, LogAt;
    var r := Up(s, c')[0];
    assert Enabled(s, HandleAck(c'));
    RecordedAfterAck(s.tables, id, r.tp, r.offset, id, r.tp);
    AckKeepsFollowers(s.tables, id, r);
  }

  /** From a drained state with a stale acknowledgement at the head of an earlier connection. */
  lemma AckBreaks(s: System, id: BrokerId, c: Conn, c': Conn) returns (steps: seq<Step>, s': System, tp: TopicPartition)
    requires Inv(s) && Live(s, id, c) && Drained(s, c)
    requires c' != c && c' in s.owner && s.owner[c'] == id && Up(s, c') != [] && Up(s, c')[0].Ack?
    ensures ReachesSparing(s, steps, s', id, c) && Drained(s', c)
      && Recorded(s'.tables, id, tp) != |LogAt(s'.logs, tp)| - 1
  {
    hide Inv, Enabled, Do, Level, AllAcked;
    var r := Up(s, c')[0];
    tp := r.tp;
    StaleIsHeld(s, id, c');
    if r.offset < |LogAt(s.logs, tp)| - 1 {
      StaleAckFailsPoll(s, id, c, c');
      OneStep(s, HandleAck(c'), id, c);
      steps, s' := [HandleAck(c')], Do(s, HandleAck(c'));
    } else {
      var a := Lonely(s, id, c, tp, Null);
      LonelyLeaves(s, id, c, tp, Null);
      StepKeeps(s, a);
      OneStep(s, a, id, c);
      var more, s2 := Drains(Do(s, a), id, c);
      SparingOn(s, [a], Do(s, a), more, s2, id, c);
      assert Up(s2, c') == Up(s, c') && s2.owner == s.owner;
      StaleAckFailsPoll(s2, id, c, c');
      OneStep(s2, HandleAck(c'), id, c);
      SparingOn(s, [a] + more, s2, [HandleAck(c')], Do(s2, HandleAck(c')), id, c);
      steps, s' := [a] + more + [HandleAck(c')], Do(s2, HandleAck(c'));
    }
  }

  /** No acknowledgement, however old, is of a record the leader lacks. */
  lemma StaleIsHeld(s: System, id: BrokerId, c': Conn)
    requires Inv(s) && id in s.nodes && c' in s.owner && s.owner[c'] == id && Up(s, c') != [] && Up(s, c')[0].Ack?
    ensures Up(s, c')[0].offset < |LogAt(s.logs, Up(s, c')[0].tp)|
  {
    hide AllDense, AcksTrue, Session, LogAt;
    var r := Up(s, c')[0];
    assert NodeOk(s, id);
    assert r in Up(s, c') && RequestTrue(r, s.nodes[id].logs);
    assert LogAt(s.nodes[id].logs, r.tp) <= LogAt(s.logs, r.tp);
  }

  lemma {:induction false} FullExists(offsets: map<string, int>, tps: set<TopicPartition>)
    returns (full: map<string, int>)
    ensures IsFull(full, offsets, tps)
    decreases |tps|
  {
    hide Key;
    if tps == {} {
      full := offsets;
    } else {
      var tp :| tp in tps;
      full := FullExists(offsets, tps - {tp});
      if Key(tp) !in full { full := full[Key(tp) := 0]; }
    }
  }

  lemma {:induction false} LastHeldExists(next: map<string, int>) returns (held: map<string, int>)
    ensures IsLastHeld(held, next)
    decreases |next|
  {
    if next == map[] {
      held := map[];
    } else {
      var k :| k in next;
      held := LastHeldExists(next - {k});
      held := held[k := next[k] - 1];
    }
  }

  lemma NothingSentYet(full: map<string, int>, logs: Logs)
    ensures PartialCatchUp([], full, logs)
  {
  }

  /** A stale registration whose catch-up fails, as it does on a dead connection, drops the live follower. */
  lemma StaleRegisterDrops(s: System, id: BrokerId, c: Conn, c': Conn) returns (a: Step)
    requires c' != c && c' in s.owner && s.owner[c'] == id && Up(s, c') != [] && Up(s, c')[0].Register?
    ensures Enabled(s, a) && Spares(a, id, c)
    ensures var s' := Do(s, a);
      id !in s'.tables.followers && id !in s'.tables.acked && Down(s', c) == Down(s, c) && Up(s', c) == Up(s, c)
  {
    hide Key, IsFull, IsLastHeld, PartialCatchUp, CatchUp;
    var full := FullExists(Up(s, c')[0].offsets, s.logs.Keys);
    var held := LastHeldExists(full);
    NothingSentYet(full, s.logs);
    a := HandleRegister(c', full, held, [], false);
  }

  lemma RegisterBreaks(s: System, id: BrokerId, c: Conn, c': Conn)
    returns (steps: seq<Step>, s': System, tp: TopicPartition)
    requires Drained(s, c)
    requires c' != c && c' in s.owner && s.owner[c'] == id && Up(s, c') != [] && Up(s, c')[0].Register?
    ensures ReachesSparing(s, steps, s', id, c) && Drained(s', c)
      && Recorded(s'.tables, id, tp) != |LogAt(s'.logs, tp)| - 1
  {
    hide Enabled, Do, Key;
    var a := StaleRegisterDrops(s, id, c, c');
    var s1 := Do(s, a);
    tp := TopicPartition("", 0);
    var b := Lonely(s1, id, c, tp, Null);
    LonelyEnabled(s1, id, c, tp, Null);
    OneStep(s, a, id, c);
    OneStep(s1, b, id, c);
    SparingOn(s, [a], s1, [b], Do(s1, b), id, c);
    steps, s' := [a] + [b], Do(s1, b);
    LonelyUnheard(s1, id, c, tp);
  }

  lemma LonelyUnheard(s: System, id: BrokerId, c: Conn, tp: TopicPartition)
    requires id !in s.tables.followers && id !in s.tables.acked && Drained(s, c)
      && Enabled(s, Lonely(s, id, c, tp, Null))
    ensures var s' := Do(s, Lonely(s, id, c, tp, Null));
      Drained(s', c) && Recorded(s'.tables, id, tp) == -1 && |LogAt(s'.logs, tp)| > 0
  {
    hide Key, Next, Broadcast;
  }

  lemma LeftoverBreaks(s: System, id: BrokerId, c: Conn)
    requires Inv(s) && Live(s, id, c) && !NoStale(s, id, c)
    ensures !AlwaysAcks(s, id, c)
  {
    hide Inv, Enabled, Do, Live, Down, Drained, Recorded, LogAt, ReachesSparing;
    var c' :| c' in s.owner && s.owner[c'] == id && c' != c && Up(s, c') != [];
    var steps, s1 := Drains(s, id, c);
    assert Up(s1, c') == Up(s, c') && s1.owner == s.owner;
    hide Up, SameLeftovers;
    var (more, s', tp) := ([], s1, TopicPartition("", 0));
    if Up(s1, c')[0].Ack? {
      more, s', tp := AckBreaks(s1, id, c, c');
    } else {
      more, s', tp := RegisterBreaks(s1, id, c, c');
    }
    SparingOn(s, steps, s1, more, s', id, c);
  }

  /** Exactly: a registered follower whose connection holds is recorded as having everything whenever its channels are
      drained, over every run, if and only if no request of its earlier connections is left unread. */
  lemma AcksExactlyWithoutLeftovers(s: System, id: BrokerId, c: Conn)
    requires Inv(s) && Live(s, id, c)
    ensures AlwaysAcks(s, id, c) <==> NoStale(s, id, c)
  {
    hide Inv, ReachesSparing, Recorded, LogAt;
    if NoStale(s, id, c) {
      forall steps, s' | ReachesSparing(s, steps, s', id, c) && Drained(s', c)
        ensures forall tp :: Recorded(s'.tables, id, tp) == |LogAt(s'.logs, tp)| - 1
      {
        SteadyFollowerAcks(s, steps, s', id, c);
      }
    } else {
      LeftoverBreaks(s, id, c);
    }
  }
}
