/**
 A run in which a stale acknowledgement leaves acks=all waiting although the only follower holds everything: the
 follower crashes while an acknowledgement of its is unread, registers again on a new connection, and only then the
 leader reads the old acknowledgement, which lowers what it has recorded.
 */
module ReplicationStale {
  import opened Wrappers
  import opened Json
  import opened LogSpec
  import opened Keys
  import opened ReplicationSpec
  import opened ReplicationProtocol
  import opened ReplicationLeftovers

  /** One follower with two connections in turn, one partition, two payloads. */
  datatype Scene = Scene(f: BrokerId, c: Conn, d: Conn, tp: TopicPartition, p0: Json, p1: Json) {
    function R(i: nat): Rec<Json> { Rec(i, if i == 0 then p0 else p1) }
    function M(i: nat): Replicate { Replicate(tp, R(i)) }
    function Log(n: nat): Logs { if n == 0 then map[] else map[tp := if n == 1 then [R(0)] else [R(0), R(1)]] }
    function At(offset: int): map<string, int> { map[Key(tp) := offset] }
    function Listed(conn: Conn, acked: int): Tables { Tables(map[f := conn], map[f := At(acked)]) }

    /** On the first connection: what the leader and the follower hold, and what is in flight. */
    function First(
      lead: nat, t: Tables, held: nat, conn: Option<Conn>, down: seq<Replicate>, up: seq<Request>): System
    {
      System(Log(lead), t, map[f := Node(Log(held), conn)], map[c := f], map[c := down], map[c := up])
    }

    /** On the second one, with the old connection's requests still unread. */
    function Second(t: Tables, stale: seq<Request>, up: seq<Request>): System {
      System(Log(2), t, map[f := Node(Log(2), Some(d))], map[c := f, d := f], map[c := [], d := []],
        map[c := stale, d := up])
    }

    function Start(): System { System(Log(1), Tables(map[], map[]), map[f := Node(Log(0), None)], map[], map[], map[]) }
    function End(): System { Second(Listed(d, 0), [], []) }
  }

  ghost predicate Leads(s: System, s': System) { exists steps :: Reaches(s, steps, s') }

  lemma LeadsOn(s: System, a: Step, s1: System, s': System)
    requires Enabled(s, a) && Do(s, a) == s1 && Leads(s1, s')
    ensures Leads(s, s')
  {
    hide Enabled, Do;
    var steps :| Reaches(s1, steps, s');
    assert ([a] + steps)[1..] == steps;
    assert Reaches(s, [a] + steps, s');
  }

  lemma Connects(w: Scene)
    ensures var a := Connect(w.f, w.c, map[]);
      Enabled(w.Start(), a) && Do(w.Start(), a) == w.First(1, Tables(map[], map[]), 0, Some(w.c), [], [Register(map[])])
  {
    hide Key;
    assert Enabled(w.Start(), Connect(w.f, w.c, map[]));
  }

  lemma OneMessage(w: Scene)
    ensures CatchUp([w.M(0)], w.At(0), w.Log(1))
  {
    hide Key;
    forall tp ensures Pending([w.M(0)], tp) == Wanted(w.At(0), w.Log(1), tp) {
      PendingOne(w.M(0), tp);
      KeyInjective(tp, w.tp);
      if tp == w.tp { FromDense([w.R(0)], 0); }
    }
  }

  lemma Registers(w: Scene)
    ensures var (s, a) := (w.First(1, Tables(map[], map[]), 0, Some(w.c), [], [Register(map[])]),
                           HandleRegister(w.c, w.At(0), w.At(-1), [w.M(0)], true));
      Enabled(s, a) && Do(s, a) == w.First(1, w.Listed(w.c, -1), 0, Some(w.c), [w.M(0)], [])
  {
    hide Key, CatchUp;
    OneMessage(w);
    var (s, a) := (w.First(1, Tables(map[], map[]), 0, Some(w.c), [], [Register(map[])]),
                   HandleRegister(w.c, w.At(0), w.At(-1), [w.M(0)], true));
    assert w.tp in s.logs.Keys;
    assert IsFull(w.At(0), map[], s.logs.Keys);
    assert Enabled(s, a);
    assert Do(s, a).down == map[w.c := [w.M(0)]]
      && Do(s, a).up == map[w.c := []] by { assert [] + [w.M(0)] == [w.M(0)]; }
    assert Do(s, a).tables == w.Listed(w.c, -1);
  }

  lemma Publishes(w: Scene)
    ensures var (s, a) := (w.First(1, w.Listed(w.c, -1), 0, Some(w.c), [w.M(0)], []),
                           Publish(w.tp, w.p1, {}, {}, map[w.c := [w.M(0), w.M(1)]]));
      Enabled(s, a) && Do(s, a) == w.First(2, w.Listed(w.c, -1), 0, Some(w.c), [w.M(0), w.M(1)], [])
  {
    hide Key;
    var s := w.First(1, w.Listed(w.c, -1), 0, Some(w.c), [w.M(0)], []);
    var a := Publish(w.tp, w.p1, {}, {}, map[w.c := [w.M(0), w.M(1)]]);
    assert [w.M(0)] + [w.M(1)] == [w.M(0), w.M(1)] && [w.R(0)] + [w.R(1)] == [w.R(0), w.R(1)];
    assert s.tables.followers[w.f] == w.c;
    assert Reached(s.tables, {}, {}) == {w.c};
    assert Enabled(s, a);
    hide Enabled, Reached, Broadcast;
    assert Do(s, a).logs == w.Log(2);
    assert Do(s, a).tables == w.Listed(w.c, -1);
    assert Do(s, a).down == map[w.c := [w.M(0), w.M(1)]] && Do(s, a).up == s.up;
  }

  lemma AppliesFirst(w: Scene)
    ensures var (s, a) := (w.First(2, w.Listed(w.c, -1), 0, Some(w.c), [w.M(0), w.M(1)], []), Apply(w.f, true));
      Enabled(s, a) && Do(s, a) == w.First(2, w.Listed(w.c, -1), 1, Some(w.c), [w.M(1)], [Ack(w.tp, 0)])
  {
    hide Key;
    var (s, a) := (w.First(2, w.Listed(w.c, -1), 0, Some(w.c), [w.M(0), w.M(1)], []), Apply(w.f, true));
    assert [w.M(0), w.M(1)][1..] == [w.M(1)] && [] + [w.R(0)] == [w.R(0)] && [] + [Ack(w.tp, 0)] == [Ack(w.tp, 0)];
    assert Applied(w.Log(0), w.M(0)) == w.Log(1);
    assert Enabled(s, a);
    assert Do(s, a).nodes == map[w.f := Node(w.Log(1), Some(w.c))];
    assert Do(s, a).up == map[w.c := [Ack(w.tp, 0)]];
  }

  /** The follower crashes between storing the second record and acknowledging it. */
  lemma CrashesAfterSecond(w: Scene)
    ensures var (s, a) := (w.First(2, w.Listed(w.c, -1), 1, Some(w.c), [w.M(1)], [Ack(w.tp, 0)]), Apply(w.f, false));
      Enabled(s, a) && Do(s, a) == w.First(2, w.Listed(w.c, -1), 2, None, [], [Ack(w.tp, 0)])
  {
    hide Key;
    var (s, a) := (w.First(2, w.Listed(w.c, -1), 1, Some(w.c), [w.M(1)], [Ack(w.tp, 0)]), Apply(w.f, false));
    assert [w.M(1)][1..] == [] && [w.R(0)] + [w.R(1)] == [w.R(0), w.R(1)];
    assert Applied(w.Log(1), w.M(1)) == w.Log(2);
    assert Enabled(s, a);
    hide Enabled, Applied;
    assert Do(s, a).nodes == map[w.f := Node(w.Log(2), None)];
    assert Do(s, a).down == map[w.c := []] && Do(s, a).up == s.up;
  }

  lemma Reconnects(w: Scene)
    requires w.c != w.d
    ensures var (s, a) := (w.First(2, w.Listed(w.c, -1), 2, None, [], [Ack(w.tp, 0)]), Connect(w.f, w.d, w.At(2)));
      Enabled(s, a) && Do(s, a) == w.Second(w.Listed(w.c, -1), [Ack(w.tp, 0)], [Register(w.At(2))])
  {
    hide Key;
    var (s, a) := (w.First(2, w.Listed(w.c, -1), 2, None, [], [Ack(w.tp, 0)]), Connect(w.f, w.d, w.At(2)));
    forall tp ensures Key(tp) == Key(w.tp) <==> tp == w.tp { KeyInjective(tp, w.tp); }
    assert NextOffsets(w.At(2), w.Log(2));
    assert Enabled(s, a);
    assert Do(s, a).nodes == map[w.f := Node(w.Log(2), Some(w.d))];
  }

  lemma NothingMissing(w: Scene)
    ensures CatchUp([], w.At(2), w.Log(2))
  {
    hide Key;
    forall tp ensures Pending([], tp) == Wanted(w.At(2), w.Log(2), tp) {
      KeyInjective(tp, w.tp);
      if tp == w.tp { FromDense([w.R(0), w.R(1)], 2); }
    }
  }

  lemma Overwrites<K, V>(k: K, a: V, b: V)
    ensures map[k := a][k := b] == map[k := b]
  {
  }

  lemma RegistersAgain(w: Scene)
    requires w.c != w.d
    ensures var (s, a) := (w.Second(w.Listed(w.c, -1), [Ack(w.tp, 0)], [Register(w.At(2))]),
                           HandleRegister(w.d, w.At(2), w.At(1), [], true));
      Enabled(s, a) && Do(s, a) == w.Second(w.Listed(w.d, 1), [Ack(w.tp, 0)], [])
  {
    hide Key, CatchUp;
    NothingMissing(w);
    var (s, a) := (w.Second(w.Listed(w.c, -1), [Ack(w.tp, 0)], [Register(w.At(2))]),
                   HandleRegister(w.d, w.At(2), w.At(1), [], true));
    assert IsFull(w.At(2), w.At(2), s.logs.Keys) by { assert w.tp in s.logs.Keys; }
    assert Enabled(s, a);
    Overwrites(w.f, w.c, w.d);
    Overwrites(w.f, w.At(-1), w.At(1));
    assert Do(s, a).tables == w.Listed(w.d, 1);
    assert Do(s, a).up == map[w.c := [Ack(w.tp, 0)], w.d := []];
  }

  lemma TakesStaleAck(w: Scene)
    requires w.c != w.d
    ensures var s := w.Second(w.Listed(w.d, 1), [Ack(w.tp, 0)], []);
      Enabled(s, HandleAck(w.c)) && Do(s, HandleAck(w.c)) == w.End()
  {
    hide Key;
    var s := w.Second(w.Listed(w.d, 1), [Ack(w.tp, 0)], []);
    assert Enabled(s, HandleAck(w.c));
    Overwrites(Key(w.tp), 1, 0);
    Overwrites(w.f, w.At(1), w.At(0));
    assert Do(s, HandleAck(w.c)).tables == w.Listed(w.d, 0);
    assert Do(s, HandleAck(w.c)).up == map[w.c := [], w.d := []];
  }

  lemma SecondHalf(w: Scene)
    requires w.c != w.d
    ensures Leads(w.First(2, w.Listed(w.c, -1), 1, Some(w.c), [w.M(1)], [Ack(w.tp, 0)]), w.End())
  {
    hide Enabled, Do;
    var ack := [Ack(w.tp, 0)];
    assert Reaches(w.End(), [], w.End());
    TakesStaleAck(w);
    LeadsOn(w.Second(w.Listed(w.d, 1), ack, []), HandleAck(w.c), w.End(), w.End());
    RegistersAgain(w);
    LeadsOn(w.Second(w.Listed(w.c, -1), ack, [Register(w.At(2))]), HandleRegister(w.d, w.At(2), w.At(1), [], true),
      w.Second(w.Listed(w.d, 1), ack, []), w.End());
    Reconnects(w);
    LeadsOn(w.First(2, w.Listed(w.c, -1), 2, None, [], ack), Connect(w.f, w.d, w.At(2)),
      w.Second(w.Listed(w.c, -1), ack, [Register(w.At(2))]), w.End());
    CrashesAfterSecond(w);
    LeadsOn(w.First(2, w.Listed(w.c, -1), 1, Some(w.c), [w.M(1)], ack), Apply(w.f, false),
      w.First(2, w.Listed(w.c, -1), 2, None, [], ack), w.End());
  }

  lemma StaleRun(w: Scene)
    requires w.c != w.d
    ensures Leads(w.Start(), w.End())
  {
    hide Enabled, Do;
    var none := Tables(map[], map[]);
    SecondHalf(w);
    AppliesFirst(w);
    LeadsOn(w.First(2, w.Listed(w.c, -1), 0, Some(w.c), [w.M(0), w.M(1)], []), Apply(w.f, true),
      w.First(2, w.Listed(w.c, -1), 1, Some(w.c), [w.M(1)], [Ack(w.tp, 0)]), w.End());
    Publishes(w);
    LeadsOn(w.First(1, w.Listed(w.c, -1), 0, Some(w.c), [w.M(0)], []),
      Publish(w.tp, w.p1, {}, {}, map[w.c := [w.M(0), w.M(1)]]),
      w.First(2, w.Listed(w.c, -1), 0, Some(w.c), [w.M(0), w.M(1)], []), w.End());
    Registers(w);
    LeadsOn(w.First(1, none, 0, Some(w.c), [], [Register(map[])]),
      HandleRegister(w.c, w.At(0), w.At(-1), [w.M(0)], true),
      w.First(1, w.Listed(w.c, -1), 0, Some(w.c), [w.M(0)], []), w.End());
    Connects(w);
    LeadsOn(w.Start(), Connect(w.f, w.c, map[]), w.First(1, none, 0, Some(w.c), [], [Register(map[])]), w.End());
  }

  /** Leftovers do arise: in this run the late acknowledgement of an old connection lowers what the new registration
      recorded. The follower holds all the leader's records, nothing is in flight in either direction, and the poll for
      the last record still fails. */
  lemma StaleAckBlocks(w: Scene)
    requires w.c != w.d
    ensures Init(w.Start()) && Leads(w.Start(), w.End())
    ensures var s := w.End();
      && s.nodes[w.f].logs == s.logs && LogAt(s.logs, w.tp) == [w.R(0), w.R(1)]
      && (forall k :: k in s.owner ==> Down(s, k) == [] && Up(s, k) == [])
      && s.nodes[w.f].conn.Some? && IsRegistered(s.tables, w.f, s.nodes[w.f].conn.value)
      && !AllAcked(s.tables, w.tp, 1)
  {
    hide Key, Leads, AllAcked;
    StaleRun(w);
    TakesStaleAck(w);
    StaleAckFailsPoll(w.Second(w.Listed(w.d, 1), [Ack(w.tp, 0)], []), w.f, w.d, w.c);
  }
}
