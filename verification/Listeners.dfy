/** The standalone sessions of one topic whose publishes carry no key, as objects. */
module Listeners {
  // A broker with its store and queues, the clients' connections, and beside them the state of the subscription
  // model. Each method runs the broker's code for one step, and proves that the model takes that step and that the
  // objects still are as its new state says.

  import opened Wrappers
  import opened Json
  import opened Library
  import opened Keys
  import opened Compression
  import opened LogSpec
  import opened LogText
  import opened PartitionLog
  import opened StorageSpec
  import opened GroupSpec
  import opened BrokerSpec
  import opened Offsets
  import S = Storage
  import M = Replication
  import R = ReplicationSpec
  import P = ReplicationProtocol
  import B = Broker
  import Sub = Subscription

  type Sessions = map<QueueId, Sub.Session>
  type Clients = map<QueueId, B.Client>

  function DeliveryAt(topic: string, r: Rec<Json>): Delivery { Delivery(TopicPartition(topic, 0), r.offset, r.payload) }

  function Deliveries(topic: string, log: Log<Json>): seq<Delivery> {
    seq(|log|, i requires 0 <= i < |log| => DeliveryAt(topic, log[i]))
  }

  /** The sessions are the topic's registered queues, each holding what the model has queued for it. */
  ghost predicate Queued(topic: string, consumers: Consumers, queues: Queues, sessions: Sessions) {
    && (forall q :: q in sessions <==> q in Subscribed(consumers, topic))
    && (forall q :: q in sessions ==> q in queues && queues[q] == Deliveries(topic, sessions[q].queue))
  }

  /** Each session's client got what the model has written, after what it had got before. */
  ghost predicate Served(clients: Clients, before: map<QueueId, seq<Entry>>, sessions: Sessions)
    reads clients.Values
  {
    && clients.Keys == sessions.Keys == before.Keys
    && (forall q :: q in clients ==> clients[q].written == before[q] + B.Sent(sessions[q].written))
    && (forall q, q' :: q in clients && q' in clients && clients[q] == clients[q'] ==> q == q')
  }

  /** The topic's file gives this log, whose offsets are 0, 1, 2, ... */
  ghost predicate Filed(env: Env, store: S.Storage, topic: string, log: Log<Json>)
    reads store, store.disk, store.partitions.Values
  {
    && Good(env) && store.env == env && store.Valid() && '/' !in topic && Dense(log)
    && Gives(env, store.imgs, topic, log)
  }

  ghost predicate Gives(env: Env, imgs: Images, topic: string, log: Log<Json>) {
    Consistent(env, imgs) && log == Logs(env, imgs, TopicPartition(topic, 0))
  }

  /** The broker's own invariants. */
  ghost predicate Sane(broker: B.Broker)
    reads broker, broker.groups, broker.offsets, broker.offsets.cell
  {
    broker.InStep() && broker.offsets.Durable()
  }

  /** Where a session reads from: a named consumer's stored offset, or the offset a nameless one gives. */
  function Wanted(offsets: map<(string, string), int>, topic: string, offset: int, consumer: Option<string>): int {
    if consumer.Some? && consumer.value != "" then Committed(offsets, (consumer.value, topic)) else offset
  }

  function Start(offsets: map<(string, string), int>, topic: string, offset: int, consumer: Option<string>): nat {
    var wanted := Wanted(offsets, topic, offset, consumer);
    if wanted < 0 then 0 else wanted
  }

  function Publication(topic: string, payload: Json): Op { Op(topic, payload, None, None, None) }

  /** What the broker holds is as the model's state says. */
  ghost predicate Runs(env: Env, broker: B.Broker, topic: string, s: Sub.Topic)
    reads broker, broker.groups, broker.replication`followers, broker.offsets, broker.offsets.cell,
      broker.replication.store, broker.replication.store.disk, broker.replication.store.partitions.Values
  {
    && Sane(broker) && Filed(env, broker.replication.store, topic, s.log)
    && Queued(topic, broker.consumers, broker.queues, s.sessions)
    && (forall o :: o in s.waiting ==> o < |s.log|)
  }

  /** The session's next record is written. */
  function Onward(s: Sub.Topic, q: QueueId): Sub.Topic
    requires q in s.sessions && s.sessions[q].queue != []
  {
    var n := s.sessions[q];
    s.(sessions := s.sessions[q := Sub.Session(n.start, n.written + [n.queue[0]], n.queue[1..])])
  }

  /** The session is over. */
  function Ended(s: Sub.Topic, q: QueueId): Sub.Topic { s.(sessions := s.sessions - {q}) }

  /** A publish without a key, with acks 0 or 1: the topic's file gets one more record, and the queues their copies. */
  method PublishTo(env: Env, broker: B.Broker, topic: string, payload: Json, ghost log: Log<Json>)
    returns (refusal: Option<B.Refusal>)
    requires broker.InStep() && Filed(env, broker.replication.store, topic, log) && Plain(env, payload)
    modifies broker`queues, broker.replication`followers, broker.replication`followerOffsets,
      broker.replication.net, broker.replication.store, broker.replication.store.disk,
      broker.replication.store.partitions.Values
    ensures broker.InStep()
    ensures refusal.Some? ==> Filed(env, broker.replication.store, topic, log) && broker.queues == old(broker.queues)
    ensures refusal.None? ==>
      var r := Rec(Next(log), payload);
      && Filed(env, broker.replication.store, topic, log + [r]) && broker.queues.Keys == old(broker.queues).Keys
      && forall q :: q in broker.queues ==>
           broker.queues[q] == old(broker.queues)[q] + broker.Copies(DeliveryAt(topic, r), q)
  {
    hide S.Storage.Valid, Gives, Plain, Good, B.Broker.InStep, B.Broker.Copies, P.Losing, M.SentTo, M.MessageOf,
      AppendOp, Get, Route, M.Network.At, B.Broker.RecordAdded, M.Conns;
    ghost var imgs := broker.replication.store.imgs;
    var id, offset;
    ghost var lost, written;
    refusal, id, offset, lost, written := broker.Publish(Publication(topic, payload));
    if refusal.None? {
      S.HasPartitions(broker.replication.store);
      GivesAppended(env, broker.replication.store.cfg, imgs, topic, payload, log);
    }
  }

  class Listeners {
    const env: Env
    const broker: B.Broker
    const topic: string
    ghost var view: Sub.Topic
    ghost var clients: Clients
    ghost var before: map<QueueId, seq<Entry>>

    /** The objects are as the model's state says. */
    ghost predicate Valid()
      reads *
    {
      Runs(env, broker, topic, view) && Served(clients, before, view.sessions)
    }

    constructor (env: Env, broker: B.Broker, topic: string, ghost log: Log<Json>)
      requires Runs(env, broker, topic, Sub.Topic(log, map[], {}))
      ensures Valid() && this.env == env && this.broker == broker && this.topic == topic
      ensures view == Sub.Topic(log, map[], {}) && clients == map[]
    {
      hide Runs;
      this.env, this.broker, this.topic := env, broker, topic;
      view, clients, before := Sub.Topic(log, map[], {}), map[], map[];
    }

    // ----- the broker's part of a step -----

    method PublishOnBroker(payload: Json, ghost s: Sub.Topic) returns (refusal: Option<B.Refusal>, ghost s': Sub.Topic)
      requires Runs(env, broker, topic, s) && Plain(env, payload)
      modifies broker`queues, broker.replication`followers, broker.replication`followerOffsets,
        broker.replication.net, broker.replication.store, broker.replication.store.disk,
        broker.replication.store.partitions.Values
      ensures Runs(env, broker, topic, s')
      ensures if refusal.Some? then s' == s else Sub.Takes(s, Sub.Publish(payload), s')
    {
      hide Filed, Queued, Plain, B.Broker.InStep, B.Broker.Copies, Sub.Enqueued, Next;
      ghost var queues := broker.queues;
      s' := s;
      DenseHere(env, broker.replication.store, topic, s.log);
      refusal := PublishTo(env, broker, topic, payload, s.log);
      if refusal.None? {
        ghost var r := Rec(Next(s.log), payload);
        ghost var sessions := EnqueuedByBroker(broker, topic, queues, r, s.sessions);
        s' := Sub.Topic(s.log + [r], sessions, s.waiting);
      }
    }

    method SubscribeOnBroker(offset: int, client: B.Client, consumer: Option<string>, ghost s: Sub.Topic)
      returns (q: Option<QueueId>, ghost s': Sub.Topic)
      requires Runs(env, broker, topic, s)
      modifies broker`queues, broker`consumers, client, broker.offsets, broker.offsets.cell,
        broker.replication.store, broker.replication.store.disk
      ensures Runs(env, broker, topic, s') && (q.None? ==> s' == s)
      ensures q.Some? ==>
        && Sub.Takes(s, Sub.Subscribe(q.value, Start(old(broker.offsets.offsets), topic, offset, consumer)), s')
        && q.value in s'.sessions
        && client.written == old(client.written) + B.Sent(s'.sessions[q.value].written)
    {
      hide S.Storage.Valid, Consistent, Logs, LogIn, Legible, Good, Committed,
        R.From, B.Sent, Get, Tracks, Unshared, Apart, B.Broker.InStep;
      ghost var (imgs, consumers, queues) := (broker.replication.store.imgs, broker.consumers, broker.queues);
      ghost var start := Start(broker.offsets.offsets, topic, offset, consumer);
      FromClamped(s.log, Wanted(broker.offsets.offsets, topic, offset, consumer));
      ghost var done;
      s' := s;
      ConsistentLegible(env, imgs, TopicPartition(topic, 0));
      q, done := broker.Subscribe(topic, offset, client, consumer);
      GivesOpened(env, imgs, topic, s.log);
      if q.Some? {
        ghost var n := Sub.Session(if start < |s.log| then start else |s.log|, done, []);
        QueuedNew(topic, consumers, queues, s.sessions, q.value, n);
        s' := s.(sessions := s.sessions[q.value := n]);
      }
    }

    method StreamOnBroker(q: QueueId, client: B.Client, consumer: Option<string>, ghost s: Sub.Topic) returns (ok: bool)
      requires Runs(env, broker, topic, s) && q in s.sessions && q in broker.queues && broker.queues[q] != []
      modifies broker`queues, broker`consumers, client, broker.offsets, broker.offsets.cell
      ensures s.sessions[q].queue != []
      ensures var (n, r) := (s.sessions[q], s.sessions[q].queue[0]);
        if ok then
          && client.written == old(client.written) + [Entry(Num(r.offset), r.payload)]
          && Runs(env, broker, topic, Onward(s, q))
        else Runs(env, broker, topic, Ended(s, q))
    {
      hide Filed, B.Broker.InStep, Queued, Left, WithoutQueue, Deliveries;
      ghost var (consumers, queues) := (broker.consumers, broker.queues);
      QueuedHead(topic, consumers, queues, s.sessions, q);
      RegisteredOnce(broker, topic);
      ok := broker.StreamNext(q, topic, client, consumer);
      if !ok {
        broker.Unsubscribe(topic, q);
        QueuedGone(topic, consumers, queues, broker.consumers, broker.queues, s.sessions, q);
      }
    }

    /** The first part of a publish with acks=all: stored and on its way to the followers, on no queue yet. */
    method StoreOnBroker(payload: Json, ghost s: Sub.Topic) returns (offset: nat)
      requires Runs(env, broker, topic, s) && Plain(env, payload)
      modifies broker.replication`followers, broker.replication`followerOffsets, broker.replication.net,
        broker.replication.store, broker.replication.store.disk, broker.replication.store.partitions.Values
      ensures offset == |s.log|
      ensures Runs(env, broker, topic, s.(log := Put(s.log, None, payload), waiting := s.waiting + {offset}))
    {
      hide S.Storage.Valid, Gives, Queued, Plain, Good, B.Broker.InStep,
        P.Losing, M.SentTo, M.MessageOf, AppendOp, Get, Route;
      ghost var imgs := broker.replication.store.imgs;
      S.HasPartitions(broker.replication.store);
      GivesAppended(env, broker.replication.store.cfg, imgs, topic, payload, s.log);
      var id;
      ghost var lost, written;
      id, offset, lost, written := broker.replication.StoreAndReplicate(Publication(topic, payload));
    }

    /** The last part of a publish with acks=all, after its poll succeeded. */
    method EnqueueOnBroker(offset: nat, payload: Json, ghost s: Sub.Topic) returns (ghost s': Sub.Topic)
      requires Runs(env, broker, topic, s) && offset in s.waiting && s.log[offset].payload == payload
      modifies broker`queues
      ensures Runs(env, broker, topic, s') && Sub.Takes(s, Sub.Enqueue(offset), s')
    {
      hide Filed, Queued, B.Broker.InStep, B.Broker.Copies, Sub.Enqueued;
      DenseHere(env, broker.replication.store, topic, s.log);
      ghost var (queues, r) := (broker.queues, s.log[offset]);
      broker.Enqueue(Delivery(TopicPartition(topic, 0), offset, payload));
      ghost var sessions := EnqueuedByBroker(broker, topic, queues, r, s.sessions);
      s' := s.(sessions := sessions, waiting := s.waiting - {offset});
    }

    method SubscribeClient(offset: int, client: B.Client, consumer: Option<string>)
      returns (q: Option<QueueId>, ghost s': Sub.Topic)
      requires Valid() && client !in clients.Values
      modifies broker`queues, broker`consumers, client, broker.offsets, broker.offsets.cell,
        broker.replication.store, broker.replication.store.disk
      ensures Runs(env, broker, topic, s')
      ensures q.None? ==> s' == view && Served(clients, before, s'.sessions)
      ensures q.Some? ==>
        && Sub.Takes(view, Sub.Subscribe(q.value, Start(old(broker.offsets.offsets), topic, offset, consumer)), s')
        && Served(clients[q.value := client], before[q.value := old(client.written)], s'.sessions)
    {
      hide Runs, Served, B.Sent, Start, Sub.Takes;
      q, s' := SubscribeOnBroker(offset, client, consumer, view);
      assert Served(clients, before, view.sessions);
      if q.Some? {
        SubscribeChanges(view, q.value, Start(old(broker.offsets.offsets), topic, offset, consumer), s');
        ServedNew(clients, before, view.sessions, s'.sessions, q.value, client, old(client.written));
      }
    }

    method StreamToClient(q: QueueId, client: B.Client, consumer: Option<string>) returns (ok: bool)
      requires Valid() && q in clients && clients[q] == client
      requires q in view.sessions && q in broker.queues && broker.queues[q] != []
      modifies broker`queues, broker`consumers, client, broker.offsets, broker.offsets.cell
      ensures view.sessions[q].queue != []
      ensures if ok then Runs(env, broker, topic, Onward(view, q)) && Served(clients, before, Onward(view, q).sessions)
        else Runs(env, broker, topic, Ended(view, q)) && Served(clients - {q}, before - {q}, Ended(view, q).sessions)
    {
      hide Runs, B.Sent;
      ok := StreamOnBroker(q, client, consumer, view);
      SentOneMore(view.sessions[q].written, view.sessions[q].queue[0]);
      forall q' | q' in clients && q' != q
        ensures clients[q'].written == before[q'] + B.Sent(view.sessions[q'].written)
      {
        assert clients[q'] != client;
      }
    }

    // ----- the steps -----

    /** A publish with acks 0 or 1. */
    method Publish(payload: Json) returns (refusal: Option<B.Refusal>)
      requires Valid() && Plain(env, payload)
      modifies this`view, broker`queues, broker.replication`followers, broker.replication`followerOffsets,
        broker.replication.net, broker.replication.store, broker.replication.store.disk,
        broker.replication.store.partitions.Values
      ensures Valid()
      ensures if refusal.Some? then view == old(view) else Sub.Takes(old(view), Sub.Publish(payload), view)
    {
      hide Runs, Plain, Served;
      ghost var (s, s') := (view, view);
      refusal, s' := PublishOnBroker(payload, s);
      if refusal.None? { WrittenTheSame(s, Sub.Publish(payload), s', clients, before); }
      view := s';
    }

    /** A session up to its first wait: history is written to the client, then the queue is registered. */
    method Subscribe(offset: int, client: B.Client, consumer: Option<string>) returns (q: Option<QueueId>)
      requires Valid() && client !in clients.Values
      modifies this`view, this`clients, this`before, broker`queues, broker`consumers, client, broker.offsets,
        broker.offsets.cell,
        broker.replication.store, broker.replication.store.disk
      ensures Valid()
      ensures q.None? ==> view == old(view) && clients == old(clients) && before == old(before)
      ensures q.Some? ==>
        && Sub.Takes(old(view), Sub.Subscribe(q.value, Start(old(broker.offsets.offsets), topic, offset, consumer)),
          view)
        && clients == old(clients)[q.value := client] && before == old(before)[q.value := old(client.written)]
    {
      hide Runs, Served, Start, Sub.Takes;
      ghost var (s', got) := (view, client.written);
      q, s' := SubscribeClient(offset, client, consumer);
      if q.Some? {
        clients, before := clients[q.value := client], before[q.value := got];
      }
      view := s';
    }

    /** One turn of a session's live loop; when the write fails the session ends. */
    method Stream(q: QueueId, client: B.Client, consumer: Option<string>) returns (ok: bool)
      requires Valid() && q in clients && clients[q] == client && q in broker.queues && broker.queues[q] != []
      modifies this`view, this`clients, this`before, broker`queues, broker`consumers, client, broker.offsets,
        broker.offsets.cell
      ensures Valid()
      ensures Sub.Takes(old(view), if ok then Sub.Stream(q) else Sub.Leave(q), view)
      ensures if ok then clients == old(clients) && before == old(before)
              else clients == old(clients) - {q} && before == old(before) - {q}
    {
      hide Runs, Served, Onward, Ended;
      ghost var s := view;
      InSessions(clients, before, s, q);
      ok := StreamToClient(q, client, consumer);
      StreamTaken(s, q);
      if ok {
        view := Onward(s, q);
      } else {
        clients, before := clients - {q}, before - {q};
        view := Ended(s, q);
      }
    }

    /** The first part of a publish with acks=all, for a broker that does not refuse it. */
    method Store(payload: Json) returns (offset: nat)
      requires Valid() && Plain(env, payload)
      modifies this`view, broker.replication`followers, broker.replication`followerOffsets, broker.replication.net,
        broker.replication.store, broker.replication.store.disk, broker.replication.store.partitions.Values
      ensures Valid() && Sub.Takes(old(view), Sub.Store(payload), view)
      ensures offset in view.waiting && offset < |view.log| && view.log[offset].payload == payload
    {
      hide Runs, Plain, Served;
      ghost var s := view;
      offset := StoreOnBroker(payload, s);
      view := s.(log := Put(s.log, None, payload), waiting := s.waiting + {offset});
      WrittenTheSame(s, Sub.Store(payload), view, clients, before);
    }

    /** The last part of a publish with acks=all: the message is put on the queues. */
    method Enqueue(offset: nat, payload: Json)
      requires Valid() && offset in view.waiting && offset < |view.log| && view.log[offset].payload == payload
      modifies this`view, broker`queues
      ensures Valid() && Sub.Takes(old(view), Sub.Enqueue(offset), view)
    {
      hide Runs, Served;
      ghost var (s, s') := (view, view);
      s' := EnqueueOnBroker(offset, payload, s);
      WrittenTheSame(s, Sub.Enqueue(offset), s', clients, before);
      view := s';
    }

    /** A publish with acks=all times out: its record stays stored and goes on no queue. */
    method GiveUp(ghost offset: nat)
      requires Valid() && offset in view.waiting
      modifies this`view
      ensures Valid() && Sub.Takes(old(view), Sub.GiveUp(offset), view)
    {
      hide Queued;
      view := view.(waiting := view.waiting - {offset});
    }
  }

  /** On the real objects: whatever sessions and publishes with acks 0 and 1 came before, in any interleaving, a
      session's client has been written the records of the topic's file from the session's start, in order, without
      gap or repetition. */
  lemma ClientsReadTheFile(l: Listeners, s0: Sub.Topic, steps: seq<Sub.Step>, q: QueueId)
    requires l.Valid() && Sub.AllInOrder(s0) && Sub.Reaches(s0, steps, l.view) && q in l.clients
    requires forall i :: 0 <= i < |steps| ==> !steps[i].Store?
    ensures var imgs := l.broker.replication.store.imgs;
      && Consistent(l.env, imgs) && q in l.view.sessions && q in l.before
      && var (log, n) := (Logs(l.env, imgs, TopicPartition(l.topic, 0)), l.view.sessions[q]);
         && n.start + |n.written| <= |log|
         && l.clients[q].written == l.before[q] + B.Sent(log[n.start..n.start + |n.written|])
  {
    hide Sane, Queued, Consistent, Logs, B.Sent, Sub.AllInOrder, Sub.Reaches, S.Storage.Valid;
    Sub.SubscriptionRefinesLog(s0, steps, l.view, q);
    var n := l.view.sessions[q];
    assert n.written == l.view.log[n.start..][..|n.written|] == l.view.log[n.start..n.start + |n.written|];
  }

  lemma InSessions(clients: Clients, before: map<QueueId, seq<Entry>>, s: Sub.Topic, q: QueueId)
    requires Served(clients, before, s.sessions) && q in clients
    ensures q in s.sessions
  {
  }

  lemma ServedNew(
    clients: Clients, before: map<QueueId, seq<Entry>>, sessions: Sessions, sessions': Sessions,
    q: QueueId, client: B.Client, got: seq<Entry>)
    requires Served(clients, before, sessions) && client !in clients.Values
    requires q !in sessions && sessions'.Keys == sessions.Keys + {q}
    requires forall q' :: q' in sessions ==> sessions'[q'] == sessions[q']
    requires client.written == got + B.Sent(sessions'[q].written)
    ensures Served(clients[q := client], before[q := got], sessions')
  {
    hide B.Sent;
  }

  lemma SubscribeChanges(s: Sub.Topic, q: QueueId, o: nat, s': Sub.Topic)
    requires Sub.Takes(s, Sub.Subscribe(q, o), s')
    ensures q !in s.sessions && s'.sessions.Keys == s.sessions.Keys + {q}
    ensures forall q' :: q' in s.sessions ==> s'.sessions[q'] == s.sessions[q']
  {
    hide R.From;
  }

  lemma StreamTaken(s: Sub.Topic, q: QueueId)
    requires q in s.sessions
    ensures s.sessions[q].queue != [] ==> Sub.Takes(s, Sub.Stream(q), Onward(s, q))
    ensures Sub.Takes(s, Sub.Leave(q), Ended(s, q))
  {
  }

  lemma SentOneMore(log: Log<Json>, r: Rec<Json>)
    ensures B.Sent(log + [r]) == B.Sent(log) + [Entry(Num(r.offset), r.payload)]
  {
  }

  lemma DenseHere(env: Env, store: S.Storage, topic: string, log: Log<Json>)
    requires Filed(env, store, topic, log)
    ensures Dense(log)
  {
  }

  lemma WrittenTheSame(s: Sub.Topic, a: Sub.Step, s': Sub.Topic, clients: Clients, before: map<QueueId, seq<Entry>>)
    requires Sub.Takes(s, a, s') && (a.Publish? || a.Store? || a.Enqueue? || a.GiveUp?)
    requires Served(clients, before, s.sessions)
    ensures Served(clients, before, s'.sessions)
  {
    hide B.Sent;
  }

  /** A negative offset reads from the beginning. */
  lemma {:induction false} FromClamped(log: Log<Json>, offset: int)
    ensures R.From(log, offset) == R.From(log, if offset < 0 then 0 else offset)
    decreases |log|
  {
    if log != [] { FromClamped(log[..|log| - 1], offset); }
  }

  lemma GivesOpened(env: Env, imgs: Images, topic: string, log: Log<Json>)
    requires Gives(env, imgs, topic, log)
    ensures var tp := TopicPartition(topic, 0); Gives(env, imgs[tp := Get(imgs, tp)], topic, log)
  {
    hide Synced, LogOf;
    var tp := TopicPartition(topic, 0);
    EmptySynced(env);
    ConsistentUpdate(env, imgs, tp, Get(imgs, tp));
  }

  lemma QueuedNew(topic: string, consumers: Consumers, queues: Queues, sessions: Sessions, q: QueueId, n: Sub.Session)
    requires Queued(topic, consumers, queues, sessions) && q !in queues && n.queue == []
    ensures q !in sessions
    ensures Queued(topic, consumers[topic := Subscribed(consumers, topic) + [q]], queues[q := []], sessions[q := n])
  {
  }

  lemma QueuedHead(topic: string, consumers: Consumers, queues: Queues, sessions: Sessions, q: QueueId)
    requires Queued(topic, consumers, queues, sessions) && q in sessions && queues[q] != []
    ensures q in Subscribed(consumers, topic)
    ensures var n := sessions[q];
      && n.queue != [] && queues[q][0] == DeliveryAt(topic, n.queue[0])
      && forall n': Sub.Session :: n'.queue == n.queue[1..] ==>
           Queued(topic, consumers, queues[q := queues[q][1..]], sessions[q := n'])
  {
  }

  lemma QueuedGone(
    topic: string, consumers: Consumers, queues: Queues, consumers': Consumers, queues': Queues, sessions: Sessions,
      q: QueueId)
    requires Queued(topic, consumers, queues, sessions) && q in sessions && Distinct(consumers[topic])
    requires consumers' == WithoutQueue(consumers, topic, Left(consumers[topic], q))
    requires queues'.Keys == queues.Keys && forall q' :: q' in queues && q' != q ==> queues'[q'] == queues[q']
    ensures Queued(topic, consumers', queues', sessions - {q})
  {
    LeftDistinct(consumers[topic], q);
  }

  lemma GivesAppended(env: Env, cfg: Config, imgs: Images, topic: string, payload: Json, log: Log<Json>)
    requires Good(env) && cfg.numPartitions > 0 && Gives(env, imgs, topic, log) && Plain(env, payload)
    ensures Route(cfg, Publication(topic, payload)) == TopicPartition(topic, 0)
    ensures Gives(env, AppendOp(env, cfg, imgs, Publication(topic, payload)), topic, Put(log, None, payload))
    ensures Get(imgs, TopicPartition(topic, 0)).next == Next(log)
  {
    hide Consistent, Logs, Visible, Plain, AppendOp;
    var op := Publication(topic, payload);
    AppendOpRefinesPut(env, cfg, imgs, op);
    VisiblePlain(env, payload, cfg.setting);
    NextIsLogNext(env, imgs, TopicPartition(topic, 0));
  }

  lemma RegisteredOnce(broker: B.Broker, topic: string)
    requires broker.InStep()
    ensures Distinct(Subscribed(broker.consumers, topic))
  {
    hide Tracks, Unshared, Apart;
  }

  /** A session's queue is on no group's list: one copy of the message is put on it. */
  lemma OneCopy(broker: B.Broker, d: Delivery, q: QueueId)
    requires broker.InStep() && q in Subscribed(broker.consumers, d.tp.topic)
    ensures broker.Copies(d, q) == [d]
  {
    hide Tracks, Unshared, Open;
    assert !GroupsTarget(broker.groups.members, broker.groupQueues, broker.groups.numPartitions, d, q) by {
      hide Uses;
      assert Apart(broker.groupQueues, broker.consumers);
    }
  }

  lemma DeliveriesOneMore(topic: string, log: Log<Json>, r: Rec<Json>)
    ensures Deliveries(topic, log + [r]) == Deliveries(topic, log) + [DeliveryAt(topic, r)]
  {
  }

  /** What the broker put on its queues is what the model put on the sessions'. */
  lemma EnqueuedByBroker(broker: B.Broker, topic: string, queues: Queues, r: Rec<Json>, sessions: Sessions)
    returns (sessions': Sessions)
    requires broker.InStep() && Queued(topic, broker.consumers, queues, sessions) && broker.queues.Keys == queues.Keys
    requires forall q :: q in queues ==> broker.queues[q] == queues[q] + broker.Copies(DeliveryAt(topic, r), q)
    ensures Sub.Enqueued(sessions, r, sessions') && Queued(topic, broker.consumers, broker.queues, sessions')
  {
    hide B.Broker.InStep, B.Broker.Copies, Deliveries;
    sessions' := PutOnAll(sessions, r);
    forall q | q in sessions' ensures broker.queues[q] == Deliveries(topic, sessions'[q].queue) {
      OneCopy(broker, DeliveryAt(topic, r), q);
      DeliveriesOneMore(topic, sessions[q].queue, r);
    }
  }

  lemma PutOnAll(sessions: Sessions, r: Rec<Json>) returns (after: Sessions)
    ensures Sub.Enqueued(sessions, r, after)
  {
    var pending := sessions.Keys;
    after := sessions;
    while pending != {}
      invariant pending <= sessions.Keys == after.Keys
      invariant forall q :: q in sessions ==>
        after[q] == if q in pending then sessions[q] else sessions[q].(queue := sessions[q].queue + [r])
      decreases |pending|
    {
      var q :| q in pending;
      after, pending := after[q := sessions[q].(queue := sessions[q].queue + [r])], pending - {q};
    }
  }
}
