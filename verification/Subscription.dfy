/** Standalone consumers of one keyless topic: history replay, then a live queue. */
module Subscription {
  // Sessions come and go and publishes interleave with them. A publish with acks 0 or 1 stores and enqueues without a
  // switch point in between; with acks=all it stores, waits, and only then enqueues, or gives up.

  import opened Wrappers
  import opened Json
  import opened LogSpec
  import opened ReplicationSpec

  type SessionId = nat

  /** A session: where it started reading, what it has written to its client, and what is queued for it. */
  datatype Session = Session(start: nat, written: Log<Json>, queue: Log<Json>)

  datatype Topic = Topic(log: Log<Json>, sessions: map<SessionId, Session>, waiting: set<nat>)

  datatype Step =
    | Publish(payload: Json)
    | Store(payload: Json)
    | Enqueue(offset: nat)
    | GiveUp(offset: nat)
    | Subscribe(id: SessionId, offset: nat)
    | Stream(id: SessionId)
    | Leave(id: SessionId)

  predicate Enabled(s: Topic, a: Step) {
    match a
    case Publish(_) => true
    case Store(_) => true
    case Enqueue(o) => o in s.waiting && o < |s.log|
    case GiveUp(o) => o in s.waiting
    case Subscribe(id, _) => id !in s.sessions
    case Stream(id) => id in s.sessions && s.sessions[id].queue != []
    case Leave(id) => id in s.sessions
  }

  /** The given record is put on every queue. */
  ghost predicate Enqueued(before: map<SessionId, Session>, r: Rec<Json>, after: map<SessionId, Session>) {
    && after.Keys == before.Keys
    && (forall id :: id in before ==> after[id] == before[id].(queue := before[id].queue + [r]))
  }

  ghost predicate Takes(s: Topic, a: Step, s': Topic) {
    Enabled(s, a) &&
    match a
    case Publish(p) =>
      s'.log == Put(s.log, None, p) && s'.waiting == s.waiting && Enqueued(s.sessions, s'.log[|s.log|], s'.sessions)
    case Store(p) => s' == s.(log := Put(s.log, None, p), waiting := s.waiting + {|s.log|})
    case Enqueue(o) => s'.log == s.log && s'.waiting == s.waiting - {o} && Enqueued(s.sessions, s.log[o], s'.sessions)
    case GiveUp(o) => s' == s.(waiting := s.waiting - {o})
    case Subscribe(id, o) =>
      s' == s.(sessions := s.sessions[id := Session(if o < |s.log| then o else |s.log|, From(s.log, o), [])])
    case Stream(id) =>
      var n := s.sessions[id];
      s' == s.(sessions := s.sessions[id := Session(n.start, n.written + [n.queue[0]], n.queue[1..])])
    case Leave(id) => s' == s.(sessions := s.sessions - {id})
  }

  ghost predicate Reaches(s: Topic, steps: seq<Step>, s': Topic)
    decreases |steps|
  {
    if steps == [] then s' == s else exists s1 :: Takes(s, steps[0], s1) && Reaches(s1, steps[1..], s')
  }

  /** What each session has written, followed by what is queued for it, is the log from where it started. */
  ghost predicate InOrder(n: Session, log: Log<Json>) {
    n.start <= |log| && n.written + n.queue == log[n.start..]
  }

  ghost predicate AllInOrder(s: Topic) {
    Dense(s.log) && s.waiting == {} && forall id :: id in s.sessions ==> InOrder(s.sessions[id], s.log)
  }

  /** A start offset beyond the end of the log reads on from the end. */
  lemma FromEnd(log: Log<Json>, o: nat)
    requires Dense(log)
    ensures From(log, o) == log[(if o < |log| then o else |log|)..]
  {
    if o <= |log| { FromDense(log, o); } else { FromNone(log, o); }
  }

  lemma PublishInOrder(s: Topic, p: Json, s': Topic)
    requires AllInOrder(s) && Takes(s, Publish(p), s')
    ensures AllInOrder(s')
  {
    hide InOrder;
    forall id | id in s'.sessions ensures InOrder(s'.sessions[id], s'.log) {
      QueueGrows(s.sessions[id], s.log, s'.log[|s.log|]);
    }
  }

  lemma SubscribeInOrder(s: Topic, id: SessionId, o: nat, s': Topic)
    requires AllInOrder(s) && Takes(s, Subscribe(id, o), s')
    ensures AllInOrder(s')
  {
    hide From;
    FromEnd(s.log, o);
    assert InOrder(s'.sessions[id], s.log) by { assert From(s.log, o) + [] == From(s.log, o); }
    hide InOrder;
  }

  lemma StreamInOrder(s: Topic, id: SessionId, s': Topic)
    requires AllInOrder(s) && Takes(s, Stream(id), s')
    ensures AllInOrder(s')
  {
    var n := s.sessions[id];
    assert InOrder(n, s.log) && n.written + [n.queue[0]] + n.queue[1..] == n.written + n.queue;
    assert InOrder(s'.sessions[id], s.log);
    hide InOrder;
  }

  lemma StepInOrder(s: Topic, a: Step, s': Topic)
    requires AllInOrder(s) && Takes(s, a, s') && !a.Store?
    ensures AllInOrder(s')
  {
    hide From, InOrder, Enqueued;
    match a
    case Publish(p) => PublishInOrder(s, p, s');
    case Subscribe(id, o) => SubscribeInOrder(s, id, o, s');
    case Stream(id) => StreamInOrder(s, id, s');
    case _ =>
  }

  lemma QueueGrows(n: Session, log: Log<Json>, r: Rec<Json>)
    requires InOrder(n, log)
    ensures InOrder(n.(queue := n.queue + [r]), log + [r])
  {
    assert n.written + (n.queue + [r]) == n.written + n.queue + [r];
    assert (log + [r])[n.start..] == log[n.start..] + [r];
  }

  /** With acks 0 and 1, for any sessions, start offsets and interleaving: every session's client gets the log from its
      start offset, in order, without gap or repetition, with nothing missing but what is queued. */
  lemma {:induction false} SubscriptionRefinesLog(s: Topic, steps: seq<Step>, s': Topic, id: SessionId)
    requires AllInOrder(s) && Reaches(s, steps, s')
    requires forall i :: 0 <= i < |steps| ==> !steps[i].Store?
    ensures AllInOrder(s')
    ensures id in s'.sessions ==>
      var (n, log) := (s'.sessions[id], s'.log);
      n.start <= |log| && n.written + n.queue == log[n.start..] && n.written <= log[n.start..]
    decreases |steps|
  {
    hide AllInOrder, Takes;
    if steps == [] {
      if id in s.sessions { WrittenIsPrefix(s, id); }
    } else {
      var s1 :| Takes(s, steps[0], s1) && Reaches(s1, steps[1..], s');
      StepInOrder(s, steps[0], s1);
      forall i | 0 <= i < |steps| - 1 ensures !steps[1..][i].Store? { assert steps[1..][i] == steps[i + 1]; }
      SubscriptionRefinesLog(s1, steps[1..], s', id);
    }
  }

  lemma WrittenIsPrefix(s: Topic, id: SessionId)
    requires AllInOrder(s) && id in s.sessions
    ensures var n := s.sessions[id];
      n.start <= |s.log| && n.written + n.queue == s.log[n.start..] && n.written <= s.log[n.start..]
  {
    var n := s.sessions[id];
    assert InOrder(n, s.log);
    assert n.written <= n.written + n.queue;
  }

  // ----- acks=all -----

  /** The records put on the queues by a run, in the order of the puts. */
  function Arrivals(log: Log<Json>, steps: seq<Step>): Log<Json>
    decreases |steps|
  {
    if steps == [] then [] else PutBy(log, steps[0]) + Arrivals(LogAfter(log, steps[0]), steps[1..])
  }

  /** The record, if any, that a step puts on the queues. */
  function PutBy(log: Log<Json>, a: Step): Log<Json> {
    match a
    case Publish(p) => [Rec(Next(log), p)]
    case Enqueue(o) => if o < |log| then [log[o]] else []
    case _ => []
  }

  function LogAfter(log: Log<Json>, a: Step): Log<Json> {
    match a
    case Publish(p) => Put(log, None, p)
    case Store(p) => Put(log, None, p)
    case _ => log
  }

  function Received(n: Session): Log<Json> { n.written + n.queue }

  lemma StepReceives(s: Topic, a: Step, s': Topic, id: SessionId)
    requires Takes(s, a, s') && id in s.sessions && a != Leave(id)
    ensures id in s'.sessions && s'.sessions[id].start == s.sessions[id].start
    ensures s'.log == LogAfter(s.log, a) && s.log <= s'.log
    ensures Received(s'.sessions[id]) == Received(s.sessions[id]) + PutBy(s.log, a)
  {
    hide From;
    var (n, n') := (s.sessions[id], s'.sessions[id]);
    match a
    case Publish(_) => assert n.written + (n.queue + [s'.log[|s.log|]]) == n.written + n.queue + [s'.log[|s.log|]];
    case Enqueue(o) => assert n.written + (n.queue + [s.log[o]]) == n.written + n.queue + [s.log[o]];
    case Stream(id') => assert id' == id ==> n.written + [n.queue[0]] + n.queue[1..] == n.written + n.queue;
    case _ =>
  }

  /** With any acks: what a session has received is what it had, then the puts since, in their order. */
  lemma {:induction false} ReceivesArrivals(s: Topic, steps: seq<Step>, s': Topic, id: SessionId)
    requires Reaches(s, steps, s') && id in s.sessions && Leave(id) !in steps
    ensures id in s'.sessions && s'.sessions[id].start == s.sessions[id].start && s.log <= s'.log
    ensures Received(s'.sessions[id]) == Received(s.sessions[id]) + Arrivals(s.log, steps)
    decreases |steps|
  {
    hide Received, Takes, PutBy, LogAfter;
    if steps == [] {
      assert Received(s.sessions[id]) + [] == Received(s.sessions[id]);
    } else {
      var s1 :| Takes(s, steps[0], s1) && Reaches(s1, steps[1..], s');
      var (before, now, later) := (Received(s.sessions[id]), PutBy(s.log, steps[0]), Arrivals(s1.log, steps[1..]));
      StepReceives(s, steps[0], s1, id);
      ReceivesArrivals(s1, steps[1..], s', id);
      assert before + now + later == before + (now + later);
    }
  }

  /** A session in order stays in order exactly when the records stored since then are put on the queues once each, in
      the order they were stored. Waiting for acknowledgements is what breaks that. */
  lemma InOrderExactly(s: Topic, steps: seq<Step>, s': Topic, id: SessionId)
    requires Reaches(s, steps, s') && id in s.sessions && Leave(id) !in steps && InOrder(s.sessions[id], s.log)
    ensures id in s'.sessions && |s.log| <= |s'.log|
    ensures InOrder(s'.sessions[id], s'.log) <==> Arrivals(s.log, steps) == s'.log[|s.log|..]
  {
    hide Reaches, Arrivals;
    ReceivesArrivals(s, steps, s', id);
    var (n, more) := (s.sessions[id], s'.log[|s.log|..]);
    assert s'.log == s.log + more;
    assert s'.log[n.start..] == s.log[n.start..] + more;
    if Received(n) + Arrivals(s.log, steps) == Received(n) + more {
      assert (Received(n) + Arrivals(s.log, steps))[|Received(n)|..] == Arrivals(s.log, steps);
      assert (Received(n) + more)[|Received(n)|..] == more;
    }
  }

  ghost predicate Leads(s: Topic, s': Topic) { exists steps :: Reaches(s, steps, s') }

  lemma LeadsOn(s: Topic, a: Step, s1: Topic, s': Topic)
    requires Takes(s, a, s1) && Leads(s1, s')
    ensures Leads(s, s')
  {
    hide Takes;
    var steps :| Reaches(s1, steps, s');
    assert ([a] + steps)[1..] == steps;
    assert Reaches(s, [a] + steps, s');
  }

  lemma Stays(s: Topic)
    ensures Leads(s, s)
  {
    assert Reaches(s, [], s);
  }

  /** One live session that started from 0 with nothing written. */
  function Live(id: SessionId, log: Log<Json>, queue: Log<Json>, waiting: set<nat>): Topic {
    Topic(log, map[id := Session(0, [], queue)], waiting)
  }

  lemma Stores(id: SessionId, log: Log<Json>, p: Json, waiting: set<nat>)
    requires Dense(log)
    ensures Takes(Live(id, log, [], waiting), Store(p), Live(id, log + [Rec(|log|, p)], [], waiting + {|log|}))
  {
  }

  lemma Enqueues(id: SessionId, log: Log<Json>, queue: Log<Json>, waiting: set<nat>, o: nat)
    requires o in waiting && o < |log|
    ensures Takes(Live(id, log, queue, waiting), Enqueue(o), Live(id, log, queue + [log[o]], waiting - {o}))
  {
  }

  /** Two publishes that wait may be enqueued in the opposite order. */
  lemma WaitingReorders(id: SessionId, p: Json, q: Json)
    ensures Leads(Live(id, [], [], {}), Live(id, [Rec(0, p), Rec(1, q)], [Rec(1, q), Rec(0, p)], {}))
  {
    hide Takes;
    var (r0, r1) := (Rec(0, p), Rec(1, q));
    assert {} + {0} == {0} && {0} + {1} == {0, 1} && {0, 1} - {1} == {0} && {0} - {0} == {};
    assert [] + [r0] == [r0] && [r0] + [r1] == [r0, r1] && [] + [r1] == [r1] && [r1] + [r0] == [r1, r0];
    Stores(id, [], p, {});
    Stores(id, [r0], q, {0});
    Enqueues(id, [r0, r1], [], {0, 1}, 1);
    Enqueues(id, [r0, r1], [r1], {0}, 0);
    Stays(Live(id, [r0, r1], [r1, r0], {}));
    LeadsOn(Live(id, [r0, r1], [r1], {0}), Enqueue(0), Live(id, [r0, r1], [r1, r0], {}),
      Live(id, [r0, r1], [r1, r0], {}));
    LeadsOn(Live(id, [r0, r1], [], {0, 1}), Enqueue(1), Live(id, [r0, r1], [r1], {0}),
      Live(id, [r0, r1], [r1, r0], {}));
    LeadsOn(Live(id, [r0], [], {0}), Store(q), Live(id, [r0, r1], [], {0, 1}), Live(id, [r0, r1], [r1, r0], {}));
    LeadsOn(Live(id, [], [], {}), Store(p), Live(id, [r0], [], {0}), Live(id, [r0, r1], [r1, r0], {}));
  }

  /** A consumer that subscribes while a publish waits gets its record twice. */
  lemma WaitingRepeats(id: SessionId, p: Json)
    ensures var r := Rec(0, p);
      Leads(Topic([], map[], {}), Topic([r], map[id := Session(0, [r], [r])], {}))
  {
    var r := Rec(0, p);
    var s1 := Topic([r], map[], {0});
    var s2 := Topic([r], map[id := Session(0, [r], [])], {0});
    var s3 := Topic([r], map[id := Session(0, [r], [r])], {});
    StoresAlone(p);
    SubscribesBehind(id, p);
    assert Takes(s2, Enqueue(0), s3);
    hide Takes;
    Stays(s3);
    LeadsOn(s2, Enqueue(0), s3, s3);
    LeadsOn(s1, Subscribe(id, 0), s2, s3);
    LeadsOn(Topic([], map[], {}), Store(p), s1, s3);
  }

  lemma StoresAlone(p: Json)
    ensures Takes(Topic([], map[], {}), Store(p), Topic([Rec(0, p)], map[], {0}))
  {
    assert {} + {0} == {0} && [] + [Rec(0, p)] == [Rec(0, p)];
  }

  lemma SubscribesBehind(id: SessionId, p: Json)
    ensures var r := Rec(0, p);
      Takes(Topic([r], map[], {0}), Subscribe(id, 0), Topic([r], map[id := Session(0, [r], [])], {0}))
  {
    FromDense([Rec(0, p)], 0);
  }
}
