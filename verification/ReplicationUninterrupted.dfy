/**
 The protocol of single steps inside the interleaved one: a publish and a registration that nothing interrupts are runs
 of the interleaved system, event by event, and end in the state that the single step gives.
 */
module ReplicationUninterrupted {
  import opened Wrappers
  import opened Json
  import opened LogSpec
  import opened Keys
  import opened ReplicationSpec
  import opened ReplicationProtocol
  import opened ReplicationInterleaved

  type Target = (BrokerId, Conn)

  lemma OneEvent(w: World, e: Event, w': World)
    requires Occurs(w, e) && After(w, e) == w'
    ensures Unfolds(w, [e], w')
  {
    hide Occurs, After;
    assert [e][1..] == [] && Unfolds(w', [], w');
  }

  lemma NoEvent(w: World)
    ensures Unfolds(w, [], w)
  {
  }

  lemma {:induction false} UnfoldsOn(w: World, a: seq<Event>, w1: World, b: seq<Event>, w2: World)
    requires Unfolds(w, a, w1) && Unfolds(w1, b, w2)
    ensures Unfolds(w, a + b, w2)
    decreases |a|
  {
    hide Occurs, After;
    if a == [] {
      assert a + b == b;
    } else {
      assert (a + b)[1..] == a[1..] + b;
      UnfoldsOn(After(w, a[0]), a[1..], w1, b, w2);
    }
  }

  // ----- a broadcast -----

  /** Different followers, each registered where the list says. */
  ghost predicate Listed(t: Tables, targets: seq<Target>) {
    && (forall i :: 0 <= i < |targets| ==> IsRegistered(t, targets[i].0, targets[i].1))
    && (forall i, j :: 0 <= i < j < |targets| ==> targets[i].0 != targets[j].0 && targets[i].1 != targets[j].1)
  }

  /** The write to a follower arrives. */
  predicate Arrives(f: Target, lost: set<BrokerId>, written: set<BrokerId>) { f.0 !in lost || f.0 in written }

  ghost predicate ReachedBy(targets: seq<Target>, lost: set<BrokerId>, written: set<BrokerId>, c: Conn) {
    exists i :: 0 <= i < |targets| && targets[i].1 == c && Arrives(targets[i], lost, written)
  }

  /** The listed followers whose write fails. */
  function Failed(targets: seq<Target>, lost: set<BrokerId>): set<BrokerId> {
    set i | 0 <= i < |targets| && targets[i].0 in lost :: targets[i].0
  }

  function Without(t: Tables, ids: set<BrokerId>): Tables { Tables(t.followers - ids, t.acked - ids) }

  /** The system after the listed followers had their turn. */
  ghost predicate Carried(
    s: System, s': System, m: Replicate, targets: seq<Target>, lost: set<BrokerId>, written: set<BrokerId>)
  {
    && s' == s.(down := s'.down, tables := Without(s.tables, Failed(targets, lost)))
    && forall c :: Down(s', c) == Down(s, c) + if ReachedBy(targets, lost, written, c) then [m] else []
  }

  /** The system after the write to one follower. */
  function OneWritten(s: System, m: Replicate, f: Target, lost: set<BrokerId>, written: set<BrokerId>): System {
    var s0 := Deliver(s, f.1, m, Arrives(f, lost, written));
    if f.0 !in lost then s0 else Lose(s0, f)
  }

  lemma FirstWrite(
    s: System, t: nat, m: Replicate, targets: seq<Target>, lost: set<BrokerId>, written: set<BrokerId>)
    requires targets != []
    ensures var f := targets[0];
      Unfolds(World(s, Settle(map[], t, Broadcasting(m, targets))),
        [Write(t, Arrives(f, lost, written), f.0 !in lost)],
        World(OneWritten(s, m, f, lost, written), Settle(map[], t, Broadcasting(m, targets[1..]))))
  {
    hide Dropped, Down;
    var f := targets[0];
    var w := World(s, Settle(map[], t, Broadcasting(m, targets)));
    var e := Write(t, Arrives(f, lost, written), f.0 !in lost);
    assert w.tasks == map[t := Broadcasting(m, targets)] && w.tasks - {t} == map[];
    var next := Broadcasting(m, targets[1..]);
    assert w.tasks[t := next] == map[t := next];
    assert AfterWrite(w.tasks, t, w.tasks[t], e.ok) == Settle(map[], t, next);
    OneEvent(w, e, World(OneWritten(s, m, f, lost, written), Settle(map[], t, next)));
  }

  lemma FirstListed(t: Tables, targets: seq<Target>, lost: set<BrokerId>)
    requires targets != [] && Listed(t, targets)
    ensures var f := targets[0];
      IsRegistered(t, f.0, f.1) && Listed(t, targets[1..]) && Listed(Dropped(t, f.0, f.1), targets[1..])
  {
  }

  lemma FirstCarried(s: System, m: Replicate, targets: seq<Target>, lost: set<BrokerId>, written: set<BrokerId>)
    requires targets != [] && Listed(s.tables, targets)
    ensures var s1 := OneWritten(s, m, targets[0], lost, written);
      Carried(s, s1, m, [targets[0]], lost, written) && Listed(s1.tables, targets[1..])
  {
    var f := targets[0];
    var s1 := OneWritten(s, m, f, lost, written);
    FirstListed(s.tables, targets, lost);
    assert [f][0] == f;
    hide Listed;
    assert f.0 in lost ==> f.0 in Failed([f], lost);
    assert Failed([f], lost) == if f.0 in lost then {f.0} else {};
    assert s.tables.followers - {} == s.tables.followers && s.tables.acked - {} == s.tables.acked;
    forall c ensures Down(s1, c) == Down(s, c) + if ReachedBy([f], lost, written, c) then [m] else [] {
      assert Down(s, c) + [] == Down(s, c);
    }
  }

  lemma CarriedOn(
    s: System, s1: System, s2: System, m: Replicate, targets: seq<Target>, lost: set<BrokerId>, written: set<BrokerId>)
    requires targets != [] && Listed(s.tables, targets)
    requires Carried(s, s1, m, [targets[0]], lost, written) && Carried(s1, s2, m, targets[1..], lost, written)
    ensures Carried(s, s2, m, targets, lost, written)
  {
    var (f, rest) := (targets[0], targets[1..]);
    assert targets == [f] + rest;
    assert Failed(targets, lost) == Failed([f], lost) + Failed(rest, lost) by {
      forall id ensures id in Failed(targets, lost) <==> id in Failed([f], lost) || id in Failed(rest, lost) {
        if id in Failed(rest, lost) {
          var i :| 0 <= i < |rest| && rest[i].0 in lost && rest[i].0 == id;
          assert targets[i + 1] == rest[i];
        }
        if id in Failed([f], lost) { assert targets[0].0 == id; }
        if id in Failed(targets, lost) {
          var i :| 0 <= i < |targets| && targets[i].0 in lost && targets[i].0 == id;
          if i > 0 { assert rest[i - 1] == targets[i]; } else { assert [f][0] == targets[0]; }
        }
      }
    }
    WithoutTwice(s.tables, Failed([f], lost), Failed(rest, lost));
    hide Failed, Without;
    forall c ensures Down(s2, c) == Down(s, c) + if ReachedBy(targets, lost, written, c) then [m] else [] {
      ReachedHead(s.tables, targets, lost, written, c);
      assert Down(s, c) + [] == Down(s, c) && Down(s1, c) + [] == Down(s1, c);
    }
  }

  lemma WithoutTwice(t: Tables, a: set<BrokerId>, b: set<BrokerId>)
    ensures Without(Without(t, a), b) == Without(t, a + b)
  {
    assert t.followers - a - b == t.followers - (a + b) && t.acked - a - b == t.acked - (a + b);
  }

  lemma ReachedHead(t: Tables, targets: seq<Target>, lost: set<BrokerId>, written: set<BrokerId>, c: Conn)
    requires targets != [] && Listed(t, targets)
    ensures ReachedBy(targets, lost, written, c) <==>
      ReachedBy([targets[0]], lost, written, c) || ReachedBy(targets[1..], lost, written, c)
    ensures !(ReachedBy([targets[0]], lost, written, c) && ReachedBy(targets[1..], lost, written, c))
  {
    var (f, rest) := (targets[0], targets[1..]);
    assert [f][0] == f;
    if ReachedBy(rest, lost, written, c) {
      var i :| 0 <= i < |rest| && rest[i].1 == c && Arrives(rest[i], lost, written);
      assert targets[i + 1] == rest[i];
    }
    if ReachedBy(targets, lost, written, c) {
      var i :| 0 <= i < |targets| && targets[i].1 == c && Arrives(targets[i], lost, written);
      assert i > 0 ==> rest[i - 1] == targets[i];
    }
  }

  lemma {:induction false} WritesAll(
    s: System, t: nat, m: Replicate, targets: seq<Target>, lost: set<BrokerId>, written: set<BrokerId>)
    returns (events: seq<Event>, s': System)
    requires Listed(s.tables, targets)
    ensures Unfolds(World(s, Settle(map[], t, Broadcasting(m, targets))), events, World(s', map[]))
    ensures Carried(s, s', m, targets, lost, written)
    decreases |targets|
  {
    hide Unfolds, Carried, Listed;
    if targets == [] {
      events, s' := [], s;
      assert Settle(map[], t, Broadcasting(m, targets)) == map[];
      NoEvent(World(s, map[]));
      NobodyCarried(s, m, lost, written);
    } else {
      var s1 := OneWritten(s, m, targets[0], lost, written);
      FirstWrite(s, t, m, targets, lost, written);
      FirstCarried(s, m, targets, lost, written);
      hide OneWritten;
      var rest;
      rest, s' := WritesAll(s1, t, m, targets[1..], lost, written);
      CarriedOn(s, s1, s', m, targets, lost, written);
      var first := [Write(t, Arrives(targets[0], lost, written), targets[0].0 !in lost)];
      UnfoldsOn(World(s, Settle(map[], t, Broadcasting(m, targets))), first,
        World(s1, Settle(map[], t, Broadcasting(m, targets[1..]))), rest, World(s', map[]));
      events := first + rest;
    }
  }

  lemma NobodyCarried(s: System, m: Replicate, lost: set<BrokerId>, written: set<BrokerId>)
    ensures Carried(s, s, m, [], lost, written)
  {
    assert Failed([], lost) == {};
    assert s.tables.followers - {} == s.tables.followers && s.tables.acked - {} == s.tables.acked;
    forall c ensures Down(s, c) == Down(s, c) + if ReachedBy([], lost, written, c) then [m] else [] {
      assert Down(s, c) + [] == Down(s, c);
    }
  }

  /** The followers in the table, in some order. */
  lemma Enumerated(followers: map<BrokerId, Conn>) returns (targets: seq<Target>)
    ensures forall f: Target :: f in targets <==> f.0 in followers && followers[f.0] == f.1
    ensures forall i, j :: 0 <= i < j < |targets| ==> targets[i].0 != targets[j].0
  {
    var pending := followers.Keys;
    targets := [];
    while pending != {}
      invariant pending <= followers.Keys
      invariant forall f: Target :: f in targets <==> f.0 in followers && f.0 !in pending && followers[f.0] == f.1
      invariant forall i, j :: 0 <= i < j < |targets| ==> targets[i].0 != targets[j].0
      decreases |pending|
    {
      var id :| id in pending;
      pending := pending - {id};
      assert forall i :: 0 <= i < |targets| ==> targets[i] in targets;
      targets := targets + [(id, followers[id])];
    }
  }

  lemma ListedHere(s: System, targets: seq<Target>)
    requires Wired(s)
    requires forall f: Target :: f in targets <==> f.0 in s.tables.followers && s.tables.followers[f.0] == f.1
    requires forall i, j :: 0 <= i < j < |targets| ==> targets[i].0 != targets[j].0
    ensures Listed(s.tables, targets)
  {
    assert forall i :: 0 <= i < |targets| ==> targets[i] in targets;
  }

  lemma CarriedIsBroadcast(
    s: System, s': System, m: Replicate, targets: seq<Target>, lost: set<BrokerId>, written: set<BrokerId>)
    requires Carried(s, s', m, targets, lost, written)
    requires forall f: Target :: f in targets <==> f.0 in s.tables.followers && s.tables.followers[f.0] == f.1
    ensures s'.tables == Losing(s.tables, lost) && Broadcast(s, m, lost, written, s'.down)
  {
    assert Failed(targets, lost) == lost * s.tables.followers.Keys by {
      forall id ensures id in Failed(targets, lost) <==> id in lost && id in s.tables.followers {
        if id in Failed(targets, lost) {
          var i :| 0 <= i < |targets| && targets[i].0 in lost && targets[i].0 == id;
          assert targets[i] in targets;
        }
        if id in lost && id in s.tables.followers {
          assert (id, s.tables.followers[id]) in targets;
        }
      }
    }
    forall c ensures ReachedBy(targets, lost, written, c) <==> c in Reached(s.tables, lost, written) {
      if ReachedBy(targets, lost, written, c) {
        var i :| 0 <= i < |targets| && targets[i].1 == c && Arrives(targets[i], lost, written);
        assert targets[i] in targets;
      }
      if c in Reached(s.tables, lost, written) {
        var id :| id in s.tables.followers && (id !in lost || id in written) && s.tables.followers[id] == c;
        assert (id, c) in targets;
      }
    }
    hide ReachedBy, Reached;
    forall c ensures (if c in s'.down then s'.down[c] else []) ==
      if c in Reached(s.tables, lost, written) then Down(s, c) + [m] else Down(s, c)
    {
      assert Down(s', c) == Down(s, c) + if ReachedBy(targets, lost, written, c) then [m] else [];
      assert Down(s, c) + [] == Down(s, c);
    }
  }

  /** Whatever writes of a publish fail, before or after the message got through: the append and the writes one
      after the other, with nothing between them, end where the protocol's step does. */
  lemma PublishUninterrupted(
    s: System, t: nat, tp: TopicPartition, payload: Json, lost: set<BrokerId>, written: set<BrokerId>)
    returns (events: seq<Event>, down: map<Conn, seq<Replicate>>)
    requires Wired(s)
    ensures Enabled(s, Publish(tp, payload, lost, written, down))
    ensures Unfolds(World(s, map[]), events, World(Do(s, Publish(tp, payload, lost, written, down)), map[]))
  {
    hide Unfolds, Losing, Reached;
    var m := Replicate(tp, Rec(Next(LogAt(s.logs, tp)), payload));
    var targets := Enumerated(s.tables.followers);
    ListedHere(s, targets);
    var s1 := s.(logs := Published(s.logs, tp, payload));
    var e := Produce(t, tp, payload, targets);
    OneEvent(World(s, map[]), e, World(s1, Settle(map[], t, Broadcasting(m, targets))));
    hide Listed;
    var rest, s2 := WritesAll(s1, t, m, targets, lost, written);
    CarriedIsBroadcast(s1, s2, m, targets, lost, written);
    down := s2.down;
    assert Broadcast(s, m, lost, written, down);
    UnfoldsOn(World(s, map[]), [e], World(s1, Settle(map[], t, Broadcasting(m, targets))), rest, World(s2, map[]));
    events := [e] + rest;
  }

  // ----- a registration -----

  /** Channels with the same messages, whether or not an empty one has an entry. */
  ghost predicate SameDown(a: System, b: System) { a == b.(down := a.down) && forall c :: Down(a, c) == Down(b, c) }

  /** The system with more messages on one connection. */
  ghost predicate Sent(s: System, s': System, c: Conn, msgs: seq<Replicate>) {
    && s' == s.(down := s'.down)
    && forall c' :: Down(s', c') == if c' == c then Down(s, c) + msgs else Down(s, c')
  }

  lemma SentNothing(s: System, c: Conn)
    ensures Sent(s, s, c, [])
  {
    assert Down(s, c) + [] == Down(s, c);
  }

  lemma SentOn(s: System, s1: System, s2: System, c: Conn, a: seq<Replicate>, b: seq<Replicate>)
    requires Sent(s, s1, c, a) && Sent(s1, s2, c, b)
    ensures Sent(s, s2, c, a + b)
  {
    assert Down(s, c) + a + b == Down(s, c) + (a + b);
  }

  /** One record is written. */
  lemma OneSent(
    s: System, t: nat, id: BrokerId, c: Conn, full: map<string, int>, todo: seq<string>, queue: seq<Replicate>)
    returns (s1: System)
    requires queue != []
    ensures Unfolds(World(s, Settle(map[], t, CatchingUp(id, c, full, todo, queue))), [Write(t, true, true)],
      World(s1, Settle(map[], t, CatchingUp(id, c, full, todo, queue[1..]))))
    ensures Sent(s, s1, c, [queue[0]])
  {
    var w := World(s, Settle(map[], t, CatchingUp(id, c, full, todo, queue)));
    s1 := Deliver(s, c, queue[0], true);
    assert w.tasks == map[t := CatchingUp(id, c, full, todo, queue)] && w.tasks - {t} == map[];
    OneEvent(w, Write(t, true, true), World(s1, Settle(map[], t, CatchingUp(id, c, full, todo, queue[1..]))));
  }

  /** The records read from one partition are written one by one. */
  lemma {:induction false} WritesQueue(
    s: System, t: nat, id: BrokerId, c: Conn, full: map<string, int>, todo: seq<string>, queue: seq<Replicate>)
    returns (events: seq<Event>, s': System)
    ensures Unfolds(World(s, Settle(map[], t, CatchingUp(id, c, full, todo, queue))), events,
      World(s', Settle(map[], t, CatchingUp(id, c, full, todo, []))))
    ensures Sent(s, s', c, queue)
    decreases |queue|
  {
    hide Unfolds, Sent, Settle;
    var w := World(s, Settle(map[], t, CatchingUp(id, c, full, todo, queue)));
    if queue == [] {
      events, s' := [], s;
      NoEvent(w);
      SentNothing(s, c);
    } else {
      var s1 := OneSent(s, t, id, c, full, todo, queue);
      var rest;
      rest, s' := WritesQueue(s1, t, id, c, full, todo, queue[1..]);
      SentOn(s, s1, s', c, [queue[0]], queue[1..]);
      assert [queue[0]] + queue[1..] == queue;
      UnfoldsOn(w, [Write(t, true, true)], World(s1, Settle(map[], t, CatchingUp(id, c, full, todo, queue[1..]))),
        rest, World(s', Settle(map[], t, CatchingUp(id, c, full, todo, []))));
      events := [Write(t, true, true)] + rest;
    }
  }

  /** How a catch-up ends early: a write fails, before or after the message got through, or its task is cancelled. */
  datatype Break = Fails(sent: bool) | Cancelled

  /** More messages on the follower's connection, and the follower out of the tables. */
  ghost predicate SentThenLost(s: System, s': System, id: BrokerId, c: Conn, msgs: seq<Replicate>) {
    && s' == s.(down := s'.down, tables := Dropped(s.tables, id, c))
    && forall c' :: Down(s', c') == if c' == c then Down(s, c) + msgs else Down(s, c')
  }

  lemma SentOnThenLost(
    s: System, s1: System, s2: System, id: BrokerId, c: Conn, a: seq<Replicate>, b: seq<Replicate>)
    requires Sent(s, s1, c, a) && SentThenLost(s1, s2, id, c, b)
    ensures SentThenLost(s, s2, id, c, a + b)
  {
    assert Down(s, c) + a + b == Down(s, c) + (a + b);
  }

  /** What is on its way when the n-th write of a partition breaks off. */
  function Reaching(queue: seq<Replicate>, n: nat, how: Break): seq<Replicate>
    requires n < |queue|
  {
    if how == Fails(true) then queue[..n + 1] else queue[..n]
  }

  lemma BreaksNow(
    s: System, t: nat, id: BrokerId, c: Conn, full: map<string, int>, todo: seq<string>, queue: seq<Replicate>,
    how: Break)
    returns (e: Event, s': System)
    requires queue != []
    ensures Unfolds(World(s, Settle(map[], t, CatchingUp(id, c, full, todo, queue))), [e], World(s', map[]))
    ensures SentThenLost(s, s', id, c, Reaching(queue, 0, how))
  {
    hide Dropped;
    var w := World(s, Settle(map[], t, CatchingUp(id, c, full, todo, queue)));
    assert w.tasks == map[t := CatchingUp(id, c, full, todo, queue)] && w.tasks - {t} == map[];
    assert Reaching(queue, 0, how) == if how == Fails(true) then [queue[0]] else [];
    assert Down(s, c) + [] == Down(s, c);
    match how
    case Fails(sent) =>
      e, s' := Write(t, sent, false), Lose(Deliver(s, c, queue[0], sent), (id, c));
      OneEvent(w, e, World(s', map[]));
    case Cancelled =>
      e, s' := Cancel(t), Lose(s, (id, c));
      OneEvent(w, e, World(s', map[]));
  }

  /** Some records of a partition are written, and then it breaks off. */
  lemma WritesSome(
    s: System, t: nat, id: BrokerId, c: Conn, full: map<string, int>, todo: seq<string>, queue: seq<Replicate>, n: nat,
    how: Break)
    returns (events: seq<Event>, s': System)
    requires n < |queue|
    ensures Unfolds(World(s, Settle(map[], t, CatchingUp(id, c, full, todo, queue))), events, World(s', map[]))
    ensures SentThenLost(s, s', id, c, Reaching(queue, n, how))
    decreases n
  {
    hide Unfolds;
    if n == 0 {
      var e;
      e, s' := BreaksNow(s, t, id, c, full, todo, queue, how);
      events := [e];
    } else {
      var s1 := OneSent(s, t, id, c, full, todo, queue);
      var rest;
      rest, s' := WritesSome(s1, t, id, c, full, todo, queue[1..], n - 1, how);
      assert [queue[0]] + Reaching(queue[1..], n - 1, how) == Reaching(queue, n, how);
      hide Sent, SentThenLost, Settle, Reaching;
      SentOnThenLost(s, s1, s', id, c, [queue[0]], Reaching(queue[1..], n - 1, how));
      UnfoldsOn(World(s, Settle(map[], t, CatchingUp(id, c, full, todo, queue))), [Write(t, true, true)],
        World(s1, Settle(map[], t, CatchingUp(id, c, full, todo, queue[1..]))), rest, World(s', map[]));
      events := [Write(t, true, true)] + rest;
    }
  }

  /** The keys still to come are different ones of the table, each that of a partition. */
  ghost predicate Coming(todo: seq<string>, full: map<string, int>, done: set<string>) {
    && (forall k :: k in todo ==> k in full && k !in done && exists tp :: k == Key(tp))
    && (forall i, j :: 0 <= i < j < |todo| ==> todo[i] != todo[j])
    && (forall k :: k in full ==> k in done || k in todo)
  }

  lemma ComingNext(todo: seq<string>, full: map<string, int>, done: set<string>) returns (tp: TopicPartition)
    requires todo != [] && Coming(todo, full, done)
    ensures todo[0] == Key(tp) && SplitKey(todo[0]) == Some(tp) && todo[0] in full && todo[0] !in done
    ensures Coming(todo[1..], full, done + {todo[0]})
  {
    hide Key, SplitKey;
    var k := todo[0];
    assert k in todo;
    tp :| k == Key(tp);
    KeyRoundTrip(tp);
    assert forall k' :: k' in todo[1..] ==> k' in todo;
    forall k' | k' in full ensures k' in done + {k} || k' in todo[1..] {
      if k' !in done && k' != k {
        var i :| 0 <= i < |todo| && todo[i] == k';
        assert todo[1..][i - 1] == k';
      }
    }
  }

  /** One partition is read. */
  lemma ReadsNext(
    s: System, t: nat, id: BrokerId, c: Conn, full: map<string, int>, todo: seq<string>, tp: TopicPartition)
    requires todo != [] && SplitKey(todo[0]) == Some(tp) && Key(tp) == todo[0] && todo[0] in full
    ensures Unfolds(World(s, Settle(map[], t, CatchingUp(id, c, full, todo, []))), [Read(t)],
      World(s, Settle(map[], t, CatchingUp(id, c, full, todo[1..], Messages(tp, Wanted(full, s.logs, tp))))))
  {
    hide Key, SplitKey, From;
    var (task, task') := (CatchingUp(id, c, full, todo, []),
      CatchingUp(id, c, full, todo[1..], Messages(tp, Wanted(full, s.logs, tp))));
    var w := World(s, Settle(map[], t, task));
    assert w.tasks == map[t := task] && Settle(map[t := task], t, task') == Settle(map[], t, task') by {
      assert map[t := task] - {t} == map[] && map[t := task][t := task'] == map[t := task'];
    }
    OneEvent(w, Read(t), World(s, Settle(map[], t, task')));
  }

  /** One partition after the other is read and its records written, until n of them are and there is one more: then it
      breaks off. */
  lemma {:induction false} CatchesUp(
    s: System, t: nat, id: BrokerId, c: Conn, full: map<string, int>, todo: seq<string>, done: set<string>,
    before: seq<Replicate>, n: nat, how: Break)
    returns (ok: bool, events: seq<Event>, s': System, msgs: seq<Replicate>)
    requires Coming(todo, full, done) && done <= full.Keys && Sending(before, full, done, s.logs)
    ensures Unfolds(World(s, Settle(map[], t, CatchingUp(id, c, full, todo, []))), events, World(s', map[]))
    ensures ok ==> Sent(s, s', c, msgs) && CatchUp(before + msgs, full, s.logs) && |msgs| <= n
    ensures !ok ==> SentThenLost(s, s', id, c, msgs) && PartialCatchUp(before + msgs, full, s.logs)
    ensures !ok ==> |msgs| == if how == Fails(true) then n + 1 else n
    decreases |todo|
  {
    hide Unfolds, Sending, CatchUp, PartialCatchUp, Coming, Sent, SentThenLost, Key, SplitKey, Wanted, Messages;
    var w := World(s, Settle(map[], t, CatchingUp(id, c, full, todo, [])));
    if todo == [] {
      ok, events, s', msgs := true, [], s, [];
      assert done == full.Keys by { AllCame(full, done); }
      SendingEnds(before, full, s.logs);
      assert before + [] == before && w.tasks == map[];
      NoEvent(w);
      SentNothing(s, c);
    } else {
      hide Settle;
      var tp := ComingNext(todo, full, done);
      var queue := Messages(tp, Wanted(full, s.logs, tp));
      var w1 := World(s, Settle(map[], t, CatchingUp(id, c, full, todo[1..], queue)));
      ReadsNext(s, t, id, c, full, todo, tp);
      if n < |queue| {
        var writes;
        ok, msgs := false, Reaching(queue, n, how);
        writes, s' := WritesSome(s, t, id, c, full, todo[1..], queue, n, how);
        SendingBreaks(before, msgs, full, done, s.logs, tp);
        UnfoldsOn(w, [Read(t)], w1, writes, World(s', map[]));
        events := [Read(t)] + writes;
      } else {
        SendingStep(before, full, done, s.logs, tp);
        var writes, s2 := WritesQueue(s, t, id, c, full, todo[1..], queue);
        SentLogs(s, s2, c, queue);
        var rest, more;
        ok, rest, s', more := CatchesUp(s2, t, id, c, full, todo[1..], done + {Key(tp)}, before + queue, n - |queue|,
          how);
        msgs := queue + more;
        assert before + queue + more == before + msgs;
        if ok { SentOn(s, s2, s', c, queue, more); } else { SentOnThenLost(s, s2, s', id, c, queue, more); }
        UnfoldsOn(w1, writes, World(s2, Settle(map[], t, CatchingUp(id, c, full, todo[1..], []))), rest,
          World(s', map[]));
        UnfoldsOn(w, [Read(t)], w1, writes + rest, World(s', map[]));
        events := [Read(t)] + (writes + rest);
      }
    }
  }

  lemma AllCame(full: map<string, int>, done: set<string>)
    requires Coming([], full, done) && done <= full.Keys
    ensures done == full.Keys
  {
  }

  lemma SentLogs(s: System, s': System, c: Conn, msgs: seq<Replicate>)
    requires Sent(s, s', c, msgs)
    ensures s'.logs == s.logs
  {
  }

  lemma KeysInSomeOrder(full: map<string, int>) returns (todo: seq<string>)
    ensures forall k :: k in todo <==> k in full
    ensures forall i, j :: 0 <= i < j < |todo| ==> todo[i] != todo[j]
  {
    var pending := full.Keys;
    todo := [];
    while pending != {}
      invariant pending <= full.Keys && forall k :: k in todo <==> k in full && k !in pending
      invariant forall i, j :: 0 <= i < j < |todo| ==> todo[i] != todo[j]
      decreases |pending|
    {
      var k :| k in pending;
      pending := pending - {k};
      assert forall i :: 0 <= i < |todo| ==> todo[i] in todo;
      todo := todo + [k];
    }
  }

  lemma AllComing(todo: seq<string>, full: map<string, int>)
    requires forall k :: k in todo <==> k in full
    requires forall i, j :: 0 <= i < j < |todo| ==> todo[i] != todo[j]
    requires forall k :: k in full ==> exists tp :: k == Key(tp)
    ensures Coming(todo, full, {})
  {
  }

  /** The system once the follower is in the tables. */
  function Entered(s: System, c: Conn, held: map<string, int>): System
    requires c in s.owner && Up(s, c) != []
  {
    s.(tables := Registered(s.tables, s.owner[c], c, held), up := s.up[c := Up(s, c)[1..]])
  }

  lemma Admits(s: System, t: nat, c: Conn, full: map<string, int>, held: map<string, int>, todo: seq<string>)
    requires c in s.owner && Up(s, c) != [] && Up(s, c)[0].Register?
    requires IsFull(full, Up(s, c)[0].offsets, s.logs.Keys) && IsLastHeld(held, full)
    requires forall k :: k in todo <==> k in full
    ensures Unfolds(World(s, map[]), [Admit(t, c, full, held, todo)],
      World(Entered(s, c, held), Settle(map[], t, CatchingUp(s.owner[c], c, full, todo, []))))
  {
    hide IsFull, IsLastHeld, Registered, Settle;
    OneEvent(World(s, map[]), Admit(t, c, full, held, todo),
      World(Entered(s, c, held), Settle(map[], t, CatchingUp(s.owner[c], c, full, todo, []))));
  }

  lemma Registers(
    s: System, c: Conn, full: map<string, int>, held: map<string, int>, msgs: seq<Replicate>, ok: bool, s': System)
    requires c in s.owner && Up(s, c) != [] && Enabled(s, HandleRegister(c, full, held, msgs, ok))
    requires if ok then Sent(Entered(s, c, held), s', c, msgs)
      else SentThenLost(Entered(s, c, held), s', s.owner[c], c, msgs)
    ensures SameDown(s', Do(s, HandleRegister(c, full, held, msgs, ok)))
  {
    hide Registered, Dropped, IsFull, IsLastHeld, CatchUp, PartialCatchUp;
    var s2 := Do(s, HandleRegister(c, full, held, msgs, ok));
    forall c' ensures Down(s', c') == Down(s2, c') {
      assert Down(Entered(s, c, held), c') == Down(s, c');
    }
  }

  /** Entering the tables, and reading and writing one partition after the other, with nothing between, ends where the
      protocol's step does: with a complete catch-up, or, when it breaks off after n writes, with that part of one. */
  lemma RegisterUninterrupted(
    s: System, t: nat, c: Conn, full: map<string, int>, held: map<string, int>, n: nat, how: Break)
    returns (ok: bool, events: seq<Event>, msgs: seq<Replicate>, s': System)
    requires c in s.owner && Up(s, c) != [] && Up(s, c)[0].Register?
    requires IsFull(full, Up(s, c)[0].offsets, s.logs.Keys) && IsLastHeld(held, full)
    requires forall k :: k in Up(s, c)[0].offsets ==> exists tp :: k == Key(tp)
    ensures Enabled(s, HandleRegister(c, full, held, msgs, ok))
    ensures Unfolds(World(s, map[]), events, World(s', map[]))
    ensures SameDown(s', Do(s, HandleRegister(c, full, held, msgs, ok)))
    ensures if ok then |msgs| <= n else |msgs| == if how == Fails(true) then n + 1 else n
  {
    var todo := KeysInSomeOrder(full);
    AllComing(todo, full);
    var id := s.owner[c];
    hide Unfolds, Key, Coming, CatchUp, PartialCatchUp, Sending, Settle, IsFull, IsLastHeld, Registered, Dropped, Sent,
      SentThenLost, SameDown, Do, Down;
    var w1 := World(Entered(s, c, held), Settle(map[], t, CatchingUp(id, c, full, todo, [])));
    Admits(s, t, c, full, held, todo);
    SendingStart(full, s.logs);
    var rest;
    ok, rest, s', msgs := CatchesUp(Entered(s, c, held), t, id, c, full, todo, {}, [], n, how);
    assert [] + msgs == msgs;
    Registers(s, c, full, held, msgs, ok, s');
    UnfoldsOn(World(s, map[]), [Admit(t, c, full, held, todo)], w1, rest, World(s', map[]));
    events := [Admit(t, c, full, held, todo)] + rest;
  }
}
