/** A named consumer of one topic over its sessions, as objects. */
module Readers {
  // The broker, the consumer's connection and the session's own variables, beside the state of the resumption model.
  // A session's code is cut where it waits: after a write, while that drains, and in the wait for its queue. Each
  // method runs one such piece, and proves that the model takes that step and that the objects still are as its new
  // state says.

  import opened Wrappers
  import opened Json
  import opened Library
  import opened Keys
  import opened Compression
  import opened LogSpec
  import opened LogText
  import opened PartitionLog
  import opened StorageSpec
  import opened GroupSpec
  import opened BrokerSpec
  import opened Offsets
  import S = Storage
  import M = Replication
  import R = ReplicationSpec
  import P = ReplicationProtocol
  import B = Broker
  import L = Listeners
  import Re = Resumption

  function EntryOf(r: Rec<Json>): Entry { Entry(Num(r.offset), r.payload) }

  /** The session's queue holds what the model has queued for it. */
  ghost predicate Awaits(topic: string, queue: Option<QueueId>, consumers: Consumers, queues: Queues, log: Log<Json>) {
    queue.Some? ==>
      queue.value in Subscribed(consumers, topic) && queue.value in queues
        && queues[queue.value] == L.Deliveries(topic, log)
  }

  /** The session's variables are as the model's session says. */
  ghost predicate Runs(
    topic: string, messages: seq<Entry>, pending: Option<Entry>, queue: Option<QueueId>,
    consumers: Consumers, queues: Queues, session: Option<Re.Session>)
  {
    match session
    case None => messages == [] && pending.None? && queue.None?
    case Some(n) =>
      && messages == B.Sent(n.history) && (n.live <==> queue.Some?)
      && pending == (if n.pending.Some? then Some(EntryOf(n.pending.value)) else None)
      && (if n.live then n.history == [] else n.queue == []) && Awaits(topic, queue, consumers, queues, n.queue)
  }

  /** The consumer's stored offset. */
  ghost predicate Stored(offsets: map<(string, string), int>, name: string, topic: string, stored: nat) {
    Committed(offsets, (name, topic)) == stored
  }

  class Reader {
    const env: Env
    const broker: B.Broker
    const topic: string
    const name: string
    const client: B.Client
    var messages: seq<Entry>
    var pending: Option<Entry>
    var queue: Option<QueueId>
    ghost var view: Re.Consumer
    ghost const before: seq<Entry>

    /** The objects are as the model's state says. */
    ghost predicate Valid()
      reads *
    {
      && name != "" && L.Sane(broker) && L.Filed(env, broker.replication.store, topic, view.log)
      && Stored(broker.offsets.offsets, name, topic, view.stored)
      && Runs(topic, messages, pending, queue, broker.consumers, broker.queues, view.session)
      && client.written == before + B.Sent(view.client)
    }

    constructor (env: Env, broker: B.Broker, topic: string, name: string, client: B.Client, ghost log: Log<Json>)
      requires name != "" && L.Sane(broker) && L.Filed(env, broker.replication.store, topic, log)
      requires Stored(broker.offsets.offsets, name, topic, 0)
      ensures Valid() && this.broker == broker && this.topic == topic && this.name == name && this.client == client
      ensures view == Re.Start(log) && before == client.written
    {
      hide L.Sane, L.Filed, Stored;
      this.env, this.broker, this.topic, this.name, this.client := env, broker, topic, name, client;
      messages, pending, queue := [], None, None;
      view, before := Re.Start(log), client.written;
      new;
      assert client.written + [] == client.written;
    }

    /** A session starts: the stored offset is looked up and the history read. */
    method Connect()
      requires Valid() && view.session.None?
      modifies this`view, this`messages, broker.offsets, broker.offsets.cell, broker.replication.store,
        broker.replication.store.disk
      ensures Valid() && Re.Enabled(old(view), Re.Connect) && view == Re.Do(old(view), Re.Connect)
    {
      hide B.Broker.InStep, R.From, B.Sent, L.Filed, Runs;
      RunsFirst(topic, view, broker.consumers, broker.queues, messages, pending, queue);
      var start := broker.offsets.GetOffset((name, topic));
      messages := History(start);
      view := Re.Do(view, Re.Connect);
    }

    /** The history from an offset on. */
    method History(start: int) returns (wanted: seq<Entry>)
      requires L.Filed(env, broker.replication.store, topic, view.log)
      modifies broker.replication.store, broker.replication.store.disk
      ensures L.Filed(env, broker.replication.store, topic, view.log)
      ensures wanted == B.Sent(R.From(view.log, start))
    {
      hide Consistent, Logs, LogIn, Legible, Reading, OnDisk, R.From, Get, S.Storage.Valid, Good;
      var (store, tp) := (broker.replication.store, TopicPartition(topic, 0));
      ghost var (imgs, log) := (store.imgs, view.log);
      ConsistentLegible(env, imgs, tp);
      M.ReadingIsLog(env, imgs, tp);
      var all := store.ReadAll(tp);
      L.GivesOpened(env, imgs, topic, log);
      wanted := Since(all, start, log);
    }

    /** The next record to write is taken from the history or, once live, from the queue. */
    method TakeNext(ghost n: Re.Session) returns (e: Entry)
      requires broker.InStep() && Runs(topic, messages, pending, queue, broker.consumers, broker.queues, Some(n))
      requires n.pending.None? && Re.ToWrite(n) != []
      modifies this`messages, broker`queues
      ensures broker.InStep() && e == EntryOf(Re.ToWrite(n)[0])
      ensures Runs(topic, messages, pending, queue, broker.consumers, broker.queues,
        Some(Re.Popped(n).(pending := None)))
    {
      hide B.Broker.InStep, L.Deliveries, B.Sent;
      if messages != [] {
        SentFirst(n.history);
        e := messages[0];
        messages := messages[1..];
      } else {
        SentNothing(n.history);
        DeliveriesFirst(topic, n.queue);
        var d := broker.Dequeue(queue.value);
        e := Entry(Num(d.offset), d.payload);
      }
    }

    /** The next record is written; while that drains, other tasks run. When it fails, the session ends. */
    method Write() returns (ok: bool)
      requires Valid() && Re.Enabled(view, Re.Write)
      modifies this`view, this`messages, this`pending, this`queue, client, broker`queues, broker`consumers
      ensures Valid()
      ensures if ok then view == Re.Do(old(view), Re.Write)
              else view == Re.Do(old(view), Re.Disconnect) || view == Re.Do(Re.Do(old(view), Re.Write), Re.Disconnect)
    {
      hide L.Filed, Stored, B.Broker.InStep, B.Sent, Awaits;
      ghost var (s, n) := (view, view.session.value);
      var e := TakeNext(n);
      ok := client.Write(e);
      L.SentOneMore(s.client, Re.ToWrite(n)[0]);
      assert before + (B.Sent(s.client) + [e]) == before + B.Sent(s.client) + [e];
      if ok {
        pending := Some(e);
        view := Re.Do(s, Re.Write);
      } else {
        EndSession(Re.Popped(n).(pending := None));
        view := if client.written == old(client.written) then Re.Do(s, Re.Disconnect)
          else Re.Do(Re.Do(s, Re.Write), Re.Disconnect);
      }
    }

    /** The clean-up of a session. */
    method EndSession(ghost n: Re.Session)
      requires broker.InStep() && Runs(topic, messages, pending, queue, broker.consumers, broker.queues, Some(n))
      modifies this`messages, this`pending, this`queue, broker`consumers
      ensures broker.InStep() && Runs(topic, messages, pending, queue, broker.consumers, broker.queues, None)
    {
      hide B.Broker.InStep;
      if queue.Some? { broker.Unsubscribe(topic, queue.value); }
      messages, pending, queue := [], None, None;
    }

    /** The connection breaks, or the broker's task is cancelled. */
    method Disconnect()
      requires Valid() && view.session.Some?
      modifies this`view, this`messages, this`pending, this`queue, broker`consumers
      ensures Valid() && Re.Enabled(old(view), Re.Disconnect) && view == Re.Do(old(view), Re.Disconnect)
    {
      hide L.Filed, Stored, Runs, B.Sent, B.Broker.InStep;
      EndSession(view.session.value);
      view := Re.Do(view, Re.Disconnect);
    }

    /** The broker's part of that session; `more` if one record past the committed ones is on its way. */
    method SubscribeOnBroker() returns (q: Option<QueueId>, ghost done: Log<Json>, ghost more: bool)
      requires Valid() && view.session.None?
      modifies client, broker`queues, broker`consumers, broker.offsets, broker.offsets.cell,
        broker.replication.store, broker.replication.store.disk
      ensures L.Sane(broker) && L.Filed(env, broker.replication.store, topic, view.log)
      ensures var history := R.From(view.log, view.stored);
        && (if q.Some? then done == history && !more else |done| < |history| && done == history[..|done|])
        && client.written == before + B.Sent(view.client + done + if more then [history[|done|]] else [])
      ensures Stored(broker.offsets.offsets, name, topic,
        if done == [] then view.stored else done[|done| - 1].offset + 1)
      ensures q.Some? ==>
        q.value in Subscribed(broker.consumers, topic) && q.value in broker.queues && broker.queues[q.value] == []
      ensures client.alive == (q.Some? && old(client.alive))
    {
      hide B.Broker.InStep, R.From, B.Sent, L.Filed, Runs, Consistent, Logs, LogIn, Legible, Good, Get,
        S.Storage.Owned, OnDisk, L.Gives, Re.Enabled, Re.Do;
      ghost var history := R.From(view.log, view.stored);
      FiledReads(env, broker.replication.store, topic, view.log);
      q, done := broker.Subscribe(topic, 0, client, Some(name));
      FiledOpened(env, broker.replication.store, topic, view.log, old(broker.replication.store.imgs));
      more := client.written != old(client.written) + B.Sent(done);
      SentAfter(before, view.client, done);
      assert view.client + done + [] == view.client + done && history[..|done|] == done;
      if more { SentAfter(before, view.client + done, [history[|done|]]); }
    }

    /** The broker's whole code of a session up to its first wait, while no other task runs: in the model it connects,
        writes and commits the records of the history one by one, and goes live; or the connection breaks on the way. */
    method Subscribe() returns (ok: bool, ghost steps: seq<Re.Step>)
      requires Valid() && view.session.None?
      modifies this`view, this`queue, client, broker`queues, broker`consumers, broker.offsets, broker.offsets.cell,
        broker.replication.store, broker.replication.store.disk
      ensures Valid() && Re.Reaches(old(view), steps, view)
      ensures var n := |R.From(old(view).log, old(view).stored)|;
        if ok then steps == [Re.Connect] + Re.WriteCommits(n) + [Re.GoLive]
        else exists k: nat, more: bool :: k < n && Broken(steps, k, more)
      ensures client.alive == (ok && old(client.alive))
    {
      hide L.Sane, R.From, B.Sent, L.Filed, Runs, Re.Reaches, Re.Enabled, Re.Do, Stored, Subscribed;
      ghost var s := view;
      ghost var history := R.From(s.log, s.stored);
      RunsFirst(topic, s, broker.consumers, broker.queues, messages, pending, queue);
      ghost var done, more;
      queue, done, more := SubscribeOnBroker();
      ok := queue.Some?;
      assert history[..|history|] == history && s.client + history + [] == s.client + history;
      if ok {
        RunsLive(topic, queue.value, broker.consumers, broker.queues, |history| > 0);
        steps := [Re.Connect] + Re.WriteCommits(|history|) + [Re.GoLive];
        Re.ReplayGoesLive(s);
        view := Re.Replayed(s, |history|).(session := Some(Re.Session(None, [], true, [], |history| > 0)));
      } else {
        RunsNot(topic, broker.consumers, broker.queues);
        steps := [Re.Connect] + Re.WriteCommits(|done|) + if more then [Re.Write, Re.Disconnect] else [Re.Disconnect];
        Re.ReplayBreaks(s, |done|, more);
        view := Re.Replayed(s, |done|).(session := None);
        view := view.(client := view.client + if more then [history[|done|]] else []);
        assert Broken(steps, |done|, more);
      }
    }

    /** The write has drained: the record's offset is committed. */
    method Commit()
      requires Valid() && Re.Enabled(view, Re.Commit)
      modifies this`view, this`pending, broker.offsets, broker.offsets.cell
      ensures Valid() && view == Re.Do(old(view), Re.Commit)
    {
      hide L.Filed, B.Sent, B.Broker.InStep, Awaits;
      broker.offsets.UpdateOffset((name, topic), pending.value.offset.n + 1);
      pending := None;
      view := Re.Do(view, Re.Commit);
    }

    /** The history is done: the session's queue is registered. */
    method GoLive()
      requires Valid() && Re.Enabled(view, Re.GoLive)
      modifies this`view, this`queue, broker`queues, broker`consumers
      ensures Valid() && view == Re.Do(old(view), Re.GoLive)
    {
      hide L.Filed, Stored, B.Sent, B.Broker.InStep;
      var q := broker.AddStandalone(topic);
      queue := Some(q);
      NothingDelivered(topic);
      view := Re.Do(view, Re.GoLive);
    }

    /** A publish with acks 0 or 1, on a broker without followers, at a switch point of the session. */
    method Publish(payload: Json) returns (refusal: Option<B.Refusal>)
      requires Valid() && Plain(env, payload) && Re.Enabled(view, Re.Publish(payload))
      modifies this`view, broker`queues, broker.replication`followers, broker.replication`followerOffsets,
        broker.replication.net, broker.replication.store, broker.replication.store.disk,
        broker.replication.store.partitions.Values
      ensures Valid()
      ensures view == if refusal.Some? then old(view) else Re.Do(old(view), Re.Publish(payload))
    {
      hide L.Filed, Plain, B.Broker.InStep, B.Broker.Copies, B.Sent, Stored, Runs;
      ghost var (queues, s) := (broker.queues, view);
      refusal := L.PublishTo(env, broker, topic, payload, s.log);
      if refusal.None? {
        ghost var r := Rec(Next(s.log), payload);
        RunsOn(broker, topic, messages, pending, queue, queues, s, payload, r);
        view := Re.Do(s, Re.Publish(payload));
      }
    }
  }

  /** A session that broke off after k records, with one more written or not. */
  predicate Broken(steps: seq<Re.Step>, k: nat, more: bool) {
    steps == [Re.Connect] + Re.WriteCommits(k) + if more then [Re.Write, Re.Disconnect] else [Re.Disconnect]
  }

  /** The entries at an offset or above. */
  method Since(all: seq<Entry>, start: int, ghost log: Log<Json>) returns (wanted: seq<Entry>)
    requires |all| == |log| && forall i :: 0 <= i < |log| ==> all[i] == EntryOf(log[i])
    ensures wanted == B.Sent(R.From(log, start))
  {
    hide R.From, B.Sent;
    wanted := [];
    R.FromNone(log[..0], start);
    NothingSent();
    for i := 0 to |all|
      invariant wanted == B.Sent(R.From(log[..i], start))
    {
      R.FromOneMore(log, start, i);
      assert R.From(log[..i], start) + [] == R.From(log[..i], start);
      L.SentOneMore(R.From(log[..i], start), log[i]);
      if all[i].offset.Num? && all[i].offset.n >= start { wanted := wanted + [all[i]]; }
    }
    assert log[..|log|] == log;
  }

  lemma SentAfter(before: seq<Entry>, a: Log<Json>, b: Log<Json>)
    ensures before + B.Sent(a) + B.Sent(b) == before + B.Sent(a + b)
  {
    assert B.Sent(a + b) == B.Sent(a) + B.Sent(b);
  }

  lemma RunsLive(topic: string, q: QueueId, consumers: Consumers, queues: Queues, wrote: bool)
    requires q in Subscribed(consumers, topic) && q in queues && queues[q] == []
    ensures Runs(topic, [], None, Some(q), consumers, queues, Some(Re.Session(None, [], true, [], wrote)))
  {
  }

  lemma RunsNot(topic: string, consumers: Consumers, queues: Queues)
    ensures Runs(topic, [], None, None, consumers, queues, None)
  {
  }

  lemma FiledReads(env: Env, store: S.Storage, topic: string, log: Log<Json>)
    requires L.Filed(env, store, topic, log)
    ensures store.Valid() && store.env == env && '/' !in topic
    ensures Legible(env, store.imgs, TopicPartition(topic, 0))
      && LogIn(env, store.imgs, TopicPartition(topic, 0)) == log
    ensures Good(env) && Dense(log) && L.Gives(env, store.imgs, topic, log)
  {
    hide LogIn, Logs, Legible, Consistent, Good;
    ConsistentLegible(env, store.imgs, TopicPartition(topic, 0));
  }

  lemma FiledOpened(env: Env, store: S.Storage, topic: string, log: Log<Json>, imgs: Images)
    requires Good(env) && store.env == env && store.Valid() && '/' !in topic && Dense(log)
      && L.Gives(env, imgs, topic, log)
    requires store.imgs == imgs[TopicPartition(topic, 0) := Get(imgs, TopicPartition(topic, 0))]
    ensures L.Filed(env, store, topic, log)
  {
    hide L.Gives, Good;
    L.GivesOpened(env, imgs, topic, log);
  }

  lemma NothingSent()
    ensures B.Sent([]) == []
  {
  }

  lemma SentFirst(log: Log<Json>)
    ensures B.Sent(log) != [] ==> log != [] && B.Sent(log)[0] == EntryOf(log[0]) && B.Sent(log)[1..] == B.Sent(log[1..])
  {
  }

  lemma SentNothing(log: Log<Json>)
    ensures B.Sent(log) == [] <==> log == []
  {
  }

  lemma DeliveriesFirst(topic: string, log: Log<Json>)
    requires log != []
    ensures var ds := L.Deliveries(topic, log);
      ds != [] && ds[0] == L.DeliveryAt(topic, log[0]) && ds[1..] == L.Deliveries(topic, log[1..])
  {
  }

  lemma NothingDelivered(topic: string)
    ensures L.Deliveries(topic, []) == []
  {
  }

  lemma RunsFirst(
    topic: string, s: Re.Consumer, consumers: Consumers, queues: Queues,
    messages: seq<Entry>, pending: Option<Entry>, queue: Option<QueueId>)
    requires s.session.None? && Runs(topic, messages, pending, queue, consumers, queues, None)
    ensures messages == [] && pending == None && queue == None
    ensures Re.Enabled(s, Re.Connect)
    ensures var s' := Re.Do(s, Re.Connect);
      && s' == s.(session := s'.session)
      && Runs(topic, B.Sent(R.From(s.log, s.stored)), pending, queue, consumers, queues, s'.session)
  {
    hide B.Sent, R.From;
  }

  lemma RunsOn(
    broker: B.Broker, topic: string, messages: seq<Entry>, pending: Option<Entry>, queue: Option<QueueId>,
    queues: Queues, s: Re.Consumer, payload: Json, r: Rec<Json>)
    requires broker.InStep() && Runs(topic, messages, pending, queue, broker.consumers, queues, s.session)
    requires Re.Enabled(s, Re.Publish(payload)) && r == Rec(Next(s.log), payload) && broker.queues.Keys == queues.Keys
    requires forall q :: q in queues ==> broker.queues[q] == queues[q] + broker.Copies(L.DeliveryAt(topic, r), q)
    ensures Runs(topic, messages, pending, queue, broker.consumers, broker.queues,
      Re.Do(s, Re.Publish(payload)).session)
  {
    hide B.Broker.InStep, B.Broker.Copies, B.Sent, L.Deliveries;
    if queue.Some? {
      L.OneCopy(broker, L.DeliveryAt(topic, r), queue.value);
      L.DeliveriesOneMore(topic, s.session.value.queue, r);
    }
  }

  lemma {:induction false} SentHas(log: Log<Json>, r: Rec<Json>)
    ensures EntryOf(r) in B.Sent(log) <==> r in log
  {
    var sent := B.Sent(log);
    if r in log {
      var i :| 0 <= i < |log| && log[i] == r;
      assert sent[i] == EntryOf(r);
    }
    if EntryOf(r) in sent {
      var i :| 0 <= i < |sent| && sent[i] == EntryOf(r);
      assert log[i] == r;
    }
  }

  /** On the objects, after any run from a consumer that has committed nothing: the consumer was written every
      record of the topic's file below its stored offset, if and only if every commit of the run was of the record
      at the stored offset. */
  lemma ReadsTheFileExactly(l: Reader, log: Log<Json>, steps: seq<Re.Step>)
    requires l.Valid() && Re.Reaches(Re.Start(log), steps, l.view) && Dense(log)
    ensures var imgs := l.broker.replication.store.imgs;
      && Consistent(l.env, imgs) && l.before <= l.client.written
      && var (file, stored) :=
        (Logs(l.env, imgs, TopicPartition(l.topic, 0)), Committed(l.broker.offsets.offsets, (l.name, l.topic)));
         && 0 <= stored <= |file|
         && ((forall o :: 0 <= o < stored ==> EntryOf(file[o]) in l.client.written[|l.before|..])
             <==> Re.NeverSkips(Re.Start(log), steps))
  {
    hide L.Sane, Runs, Consistent, Logs, S.Storage.Valid, Good, Re.NeverSkips, Re.Reaches, B.Sent;
    Re.ResumesExactly(log, steps, l.view);
    var s := l.view;
    assert l.client.written[|l.before|..] == B.Sent(s.client);
    forall o | 0 <= o < s.stored
      ensures EntryOf(s.log[o]) in B.Sent(s.client) <==> s.log[o] in s.client
    {
      SentHas(s.client, s.log[o]);
    }
  }
}
