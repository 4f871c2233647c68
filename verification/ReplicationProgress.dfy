/** The other half of acks=all: when `wait_for_acks` does succeed, and the stale acknowledgement that can stop it. */
module ReplicationProgress {
  import opened Wrappers
  import opened Json
  import opened LogSpec
  import opened Keys
  import opened ReplicationSpec
  import opened ReplicationProtocol

  /** The offset recorded for a partition once the given requests have been handled. */
  function FinalAck(reqs: seq<Request>, tp: TopicPartition, recorded: int): int {
    if reqs == [] then recorded
    else if reqs[|reqs| - 1].Ack? && reqs[|reqs| - 1].tp == tp then reqs[|reqs| - 1].offset
    else FinalAck(reqs[..|reqs| - 1], tp, recorded)
  }

  lemma {:induction false} FinalAckHead(reqs: seq<Request>, tp: TopicPartition, recorded: int)
    requires reqs != []
    ensures FinalAck(reqs, tp, recorded) ==
      FinalAck(reqs[1..], tp, if reqs[0].Ack? && reqs[0].tp == tp then reqs[0].offset else recorded)
  {
    var (last, front) := (|reqs| - 1, reqs[..|reqs| - 1]);
    if last > 0 {
      assert reqs[1..][..last - 1] == front[1..];
      FinalAckHead(front, tp, recorded);
    }
  }

  /** The acknowledgements on their way bring the leader's table level with the follower's logs. */
  ghost predicate Level(t: Tables, id: BrokerId, reqs: seq<Request>, logs: Logs) {
    forall tp :: FinalAck(reqs, tp, Recorded(t, id, tp)) == |LogAt(logs, tp)| - 1
  }

  /** No request of an earlier connection of this follower is still to be handled. */
  predicate NoStale(s: System, id: BrokerId, c: Conn) {
    forall c' :: c' in s.owner && s.owner[c'] == id && c' != c ==> Up(s, c') == []
  }

  ghost predicate Steady(s: System, id: BrokerId, c: Conn) {
    && id in s.nodes && s.nodes[id].conn == Some(c) && IsRegistered(s.tables, id, c)
    && NoStale(s, id, c) && Level(s.tables, id, Up(s, c), s.nodes[id].logs)
  }

  /** A step that does not break this follower's connection. */
  predicate Spares(a: Step, id: BrokerId, c: Conn) {
    match a
    case Publish(_, _, lost, _, _) => id !in lost
    case Disconnect(id') => id' != id
    case Apply(id', acked) => id' != id || acked
    case CloseByLeader(c') => c' != c
    case _ => true
  }

  /** A run in which nothing breaks this follower's connection. */
  ghost predicate ReachesSparing(s: System, steps: seq<Step>, s': System, id: BrokerId, c: Conn)
    decreases |steps|
  {
    if steps == [] then s' == s
    else Enabled(s, steps[0]) && Spares(steps[0], id, c) && ReachesSparing(Do(s, steps[0]), steps[1..], s', id, c)
  }

  lemma RegistrationIsLevel(
    t: Tables, id: BrokerId, c: Conn, offsets: map<string, int>, full: map<string, int>, held: map<string, int>,
    leader: Logs, logs: Logs)
    requires IsFull(full, offsets, leader.Keys) && IsLastHeld(held, full)
    requires Announces(offsets, logs) && Prefix(logs, leader)
    ensures Level(Registered(t, id, c, held), id, [], logs)
  {
    hide Key, Registered, IsLastHeld;
    forall tp ensures Recorded(Registered(t, id, c, held), id, tp) == |LogAt(logs, tp)| - 1 {
      RecordedAfterRegister(t, id, c, full, held, id, tp);
      assert (if Key(tp) in offsets then offsets[Key(tp)] else 0) == |LogAt(logs, tp)|;
      assert LogAt(logs, tp) <= LogAt(leader, tp);
    }
  }

  /** A registration with nothing stale around makes the follower steady. */
  lemma RegisterSteadies(
    s: System, c: Conn, full: map<string, int>, held: map<string, int>, msgs: seq<Replicate>, id: BrokerId)
    requires Inv(s) && Enabled(s, HandleRegister(c, full, held, msgs, true))
    requires id in s.nodes && s.nodes[id].conn == Some(c) && NoStale(s, id, c)
    ensures Steady(Do(s, HandleRegister(c, full, held, msgs, true)), id, c)
  {
    hide AllDense, AcksTrue, RequestsTrue, CatchUp, IsFull, IsLastHeld, Level, Continues, Completes, Registered;
    assert NodeOk(s, id);
    RegisteredOn(s.tables, id, c, held);
    RegistrationIsLevel(s.tables, id, c, Up(s, c)[0].offsets, full, held, s.logs, s.nodes[id].logs);
  }

  lemma RegisteredOn(t: Tables, id: BrokerId, c: Conn, full: map<string, int>)
    ensures IsRegistered(Registered(t, id, c, full), id, c)
  {
  }

  lemma AckLevel(t: Tables, id: BrokerId, reqs: seq<Request>, logs: Logs)
    requires Level(t, id, reqs, logs) && reqs != [] && reqs[0].Ack?
    ensures Level(Acknowledged(t, id, reqs[0].tp, reqs[0].offset), id, reqs[1..], logs)
  {
    hide Key, Recorded, Acknowledged, FinalAck, LogAt;
    var (r, t') := (reqs[0], Acknowledged(t, id, reqs[0].tp, reqs[0].offset));
    forall tp ensures FinalAck(reqs[1..], tp, Recorded(t', id, tp)) == |LogAt(logs, tp)| - 1 {
      RecordedAfterAck(t, id, r.tp, r.offset, id, tp);
      FinalAckHead(reqs, tp, Recorded(t, id, tp));
      assert FinalAck(reqs, tp, Recorded(t, id, tp)) == |LogAt(logs, tp)| - 1;
    }
  }

  lemma SameRecords(t: Tables, t': Tables, id: BrokerId, reqs: seq<Request>, logs: Logs)
    requires Level(t, id, reqs, logs) && forall tp :: Recorded(t', id, tp) == Recorded(t, id, tp)
    ensures Level(t', id, reqs, logs)
  {
    hide Recorded, FinalAck, LogAt;
    forall tp ensures FinalAck(reqs, tp, Recorded(t', id, tp)) == |LogAt(logs, tp)| - 1 {
      assert FinalAck(reqs, tp, Recorded(t, id, tp)) == |LogAt(logs, tp)| - 1;
    }
  }

  lemma ApplyLevel(t: Tables, id: BrokerId, reqs: seq<Request>, logs: Logs, msgs: seq<Replicate>, leader: Logs)
    requires Level(t, id, reqs, logs) && msgs != [] && Continues(logs, msgs, leader) && AllDense(leader)
    ensures Level(t, id, reqs + [Ack(msgs[0].tp, msgs[0].rec.offset)], Applied(logs, msgs[0]))
  {
    hide Recorded, LogAt, Pending, Applied, AllDense, Continues;
    var m := msgs[0];
    var reqs' := reqs + [Ack(m.tp, m.rec.offset)];
    AppliedContinues(logs, msgs, leader);
    assert reqs'[..|reqs|] == reqs;
    forall tp ensures FinalAck(reqs', tp, Recorded(t, id, tp)) == |LogAt(Applied(logs, m), tp)| - 1 {
      assert FinalAck(reqs, tp, Recorded(t, id, tp)) == |LogAt(logs, tp)| - 1;
      AppliedElsewhere(logs, m, tp);
    }
  }

  lemma AppliedElsewhere(logs: Logs, m: Replicate, tp: TopicPartition)
    ensures tp != m.tp ==> LogAt(Applied(logs, m), tp) == LogAt(logs, tp)
  {
  }

  /** The tables agree on this follower. */
  ghost predicate SameFor(t: Tables, t': Tables, id: BrokerId) {
    && (id in t.followers ==> id in t'.followers && t'.followers[id] == t.followers[id])
    && forall tp :: Recorded(t', id, tp) == Recorded(t, id, tp)
  }

  lemma OthersTables(
    t: Tables, id: BrokerId, other: BrokerId, c: Conn, full: map<string, int>, tp: TopicPartition, offset: int)
    requires other != id
    ensures SameFor(t, Registered(t, other, c, full), id)
    ensures SameFor(t, Dropped(Registered(t, other, c, full), other, c), id)
    ensures SameFor(t, Acknowledged(t, other, tp, offset), id)
    ensures SameFor(t, Closed(t, other, c), id)
  {
    hide Key;
  }

  lemma LosingTables(t: Tables, id: BrokerId, lost: set<BrokerId>)
    requires id !in lost
    ensures SameFor(t, Losing(t, lost), id)
  {
    hide Key;
  }

  lemma ClosedTables(t: Tables, id: BrokerId, c: Conn)
    requires !IsRegistered(t, id, c)
    ensures SameFor(t, Closed(t, id, c), id)
  {
    hide Key;
  }

  lemma TablesSpare(s: System, a: Step, id: BrokerId, c: Conn)
    requires Inv(s) && Enabled(s, a) && Steady(s, id, c) && Spares(a, id, c)
    ensures (a.HandleAck? && a.c == c) || SameFor(s.tables, Do(s, a).tables, id)
  {
    hide Key, CatchUp, PartialCatchUp, NextOffsets, Broadcast, IsFull, IsLastHeld, Level, AllDense, AcksTrue,
      RequestsTrue, Continues, Completes, Announces, Registered, Acknowledged, Closed, Dropped, Losing, Published,
      Applied, Recorded, SameFor, Prefix;
    match a
    case Publish(_, _, lost, _, _) =>
      LosingTables(s.tables, id, lost);
    case HandleRegister(c', full, held, _, _) =>
      assert NodeOk(s, id);
      OthersTables(s.tables, id, s.owner[c'], c', held, TopicPartition("", 0), 0);
    case HandleAck(c') =>
      if c' != c { OthersTables(s.tables, id, s.owner[c'], c', map[], Up(s, c')[0].tp, Up(s, c')[0].offset); }
    case CloseByLeader(c') =>
      if s.owner[c'] == id { ClosedTables(s.tables, id, c'); }
      else { OthersTables(s.tables, id, s.owner[c'], c', map[], TopicPartition("", 0), 0); }
    case _ => SameItself(s.tables, id);
  }

  lemma SameItself(t: Tables, id: BrokerId)
    ensures SameFor(t, t, id)
  {
  }

  lemma KeepsConnection(s: System, a: Step, id: BrokerId, c: Conn)
    requires Enabled(s, a) && Spares(a, id, c) && id in s.nodes && s.nodes[id].conn == Some(c)
    ensures id in Do(s, a).nodes && Do(s, a).nodes[id].conn == Some(c)
    ensures a != Apply(id, true) ==> Do(s, a).nodes[id].logs == s.nodes[id].logs
  {
    hide CatchUp, PartialCatchUp, NextOffsets, Broadcast, IsFull, IsLastHeld, Registered, Acknowledged, Dropped, Closed,
      Losing, Published, Applied, Key, IsRegistered;
  }

  /** Nobody writes to an earlier connection of this follower. */
  lemma StaysDrained(s: System, a: Step, id: BrokerId, c: Conn, c': Conn)
    requires Inv(s) && Enabled(s, a) && id in s.nodes && s.nodes[id].conn == Some(c) && NoStale(s, id, c)
    requires c' in Do(s, a).owner && Do(s, a).owner[c'] == id && c' != c
    ensures Up(Do(s, a), c') == []
  {
    hide CatchUp, PartialCatchUp, NextOffsets, Broadcast, IsFull, IsLastHeld, AllDense, AcksTrue, RequestsTrue, Session,
      Registered, Acknowledged, Dropped, Closed, Losing, Published, Applied, Prefix, Key, IsRegistered, Down;
    assert NodeOk(s, id);
    if a.Apply? { assert NodeOk(s, a.id); }
  }

  lemma NoStaleSpare(s: System, a: Step, id: BrokerId, c: Conn)
    requires Inv(s) && Enabled(s, a) && Steady(s, id, c) && Spares(a, id, c)
    ensures NoStale(Do(s, a), id, c) && id in Do(s, a).nodes && Do(s, a).nodes[id].conn == Some(c)
  {
    hide Inv, Enabled, Do, Level, IsRegistered, Up;
    KeepsConnection(s, a, id, c);
    var s' := Do(s, a);
    forall c' | c' in s'.owner && s'.owner[c'] == id && c' != c ensures Up(s', c') == [] {
      StaysDrained(s, a, id, c, c');
    }
  }

  lemma OwnAck(s: System, id: BrokerId, c: Conn)
    requires Inv(s) && Enabled(s, HandleAck(c)) && id in s.nodes && s.nodes[id].conn == Some(c)
    ensures var (s', up) := (Do(s, HandleAck(c)), Up(s, c));
      && id in s'.nodes && s'.nodes[id].logs == s.nodes[id].logs
      && up != [] && up[0].Ack? && Up(s', c) == up[1..]
      && s'.tables == Acknowledged(s.tables, id, up[0].tp, up[0].offset)
  {
    hide AllDense, AcksTrue, RequestsTrue, Session, Acknowledged, Prefix, Key;
    assert NodeOk(s, id);
  }

  lemma OwnApply(s: System, id: BrokerId, c: Conn)
    requires Inv(s) && Enabled(s, Apply(id, true)) && s.nodes[id].conn == Some(c)
    ensures var (s', msgs, logs) := (Do(s, Apply(id, true)), Down(s, c), s.nodes[id].logs);
      && id in s'.nodes && msgs != [] && s'.nodes[id].logs == Applied(logs, msgs[0])
      && Up(s', c) == Up(s, c) + [Ack(msgs[0].tp, msgs[0].rec.offset)]
      && s'.tables == s.tables && Continues(logs, msgs, s.logs) && AllDense(s.logs)
  {
    hide AllDense, AcksTrue, RequestsTrue, Announces, Continues, Completes, Applied, Prefix, Key;
    assert NodeOk(s, id);
  }

  /** No other step touches a registered follower's requests. */
  lemma OthersLeaveChannel(s: System, a: Step, id: BrokerId, c: Conn)
    requires Inv(s) && Enabled(s, a) && id in s.nodes && s.nodes[id].conn == Some(c) && IsRegistered(s.tables, id, c)
    requires Spares(a, id, c) && a != HandleAck(c) && a != Apply(id, true)
    ensures Up(Do(s, a), c) == Up(s, c)
  {
    hide CatchUp, PartialCatchUp, NextOffsets, Broadcast, IsFull, IsLastHeld, AllDense, AcksTrue, RequestsTrue,
      Announces, Continues, Completes, Registered, Acknowledged, Dropped, Closed, Losing, Published, Applied, Prefix,
      Key, Down;
    assert NodeOk(s, id);
    if a.Apply? { assert NodeOk(s, a.id); }
  }

  lemma LevelSpare(s: System, a: Step, id: BrokerId, c: Conn)
    requires Inv(s) && Enabled(s, a) && Steady(s, id, c) && Spares(a, id, c)
    ensures Level(Do(s, a).tables, id, Up(Do(s, a), c), Do(s, a).nodes[id].logs)
  {
    hide Enabled, Do, Level, Recorded, Up, Down, NoStale, Wired, NodeOk, AllDense, RequestsTrue, Continues,
      Acknowledged, Applied;
    TablesSpare(s, a, id, c);
    var logs := s.nodes[id].logs;
    if a == HandleAck(c) {
      OwnAck(s, id, c);
      AckLevel(s.tables, id, Up(s, c), logs);
    } else if a == Apply(id, true) {
      OwnApply(s, id, c);
      ApplyLevel(s.tables, id, Up(s, c), logs, Down(s, c), s.logs);
    } else {
      KeepsConnection(s, a, id, c);
      OthersLeaveChannel(s, a, id, c);
      SameRecords(s.tables, Do(s, a).tables, id, Up(s, c), logs);
    }
  }

  lemma SteadyStep(s: System, a: Step, id: BrokerId, c: Conn)
    requires Inv(s) && Enabled(s, a) && Steady(s, id, c) && Spares(a, id, c)
    ensures Steady(Do(s, a), id, c)
  {
    hide Inv, Enabled, NoStale, Level;
    TablesSpare(s, a, id, c);
    NoStaleSpare(s, a, id, c);
    LevelSpare(s, a, id, c);
    AckFollowers(s, a, id);
  }

  lemma AckFollowers(s: System, a: Step, id: BrokerId)
    requires Enabled(s, a)
    ensures a.HandleAck? ==> Do(s, a).tables.followers == s.tables.followers
  {
    hide CatchUp, PartialCatchUp, NextOffsets, Broadcast, IsFull, IsLastHeld, Key;
  }

  /** Once registered with nothing stale around, a follower whose connection holds stays in step: when both
      channels have drained, every poll of `wait_for_acks` accepts it. */
  lemma {:induction false} SteadyFollowerAcks(s: System, steps: seq<Step>, s': System, id: BrokerId, c: Conn)
    requires Inv(s) && Steady(s, id, c) && ReachesSparing(s, steps, s', id, c)
    ensures Inv(s') && Steady(s', id, c)
    ensures Down(s', c) == [] && Up(s', c) == [] ==>
      forall tp :: Recorded(s'.tables, id, tp) == |LogAt(s'.logs, tp)| - 1
    decreases |steps|
  {
    hide Inv, Enabled, Steady, Spares, Do;
    if steps == [] {
      DrainedIsAcked(s, id, c);
    } else {
      SteadyStep(s, steps[0], id, c);
      StepKeeps(s, steps[0]);
      SteadyFollowerAcks(Do(s, steps[0]), steps[1..], s', id, c);
    }
  }

  lemma DrainedIsAcked(s: System, id: BrokerId, c: Conn)
    requires Inv(s) && Steady(s, id, c)
    ensures Down(s, c) == [] && Up(s, c) == [] ==>
      forall tp :: Recorded(s.tables, id, tp) == |LogAt(s.logs, tp)| - 1
  {
    hide AllDense, AcksTrue, RequestsTrue, Recorded, Wired;
    assert NodeOk(s, id);
    if Down(s, c) == [] && Up(s, c) == [] {
      forall tp ensures Recorded(s.tables, id, tp) == |LogAt(s.logs, tp)| - 1 {
        assert LogAt(s.nodes[id].logs, tp) + Pending([], tp) == LogAt(s.logs, tp);
        assert FinalAck([], tp, Recorded(s.tables, id, tp)) == |LogAt(s.nodes[id].logs, tp)| - 1;
      }
    }
  }
}
