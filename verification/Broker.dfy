/** broker.py: subscriptions, queues, and publishing. */
module Broker {
  import opened Wrappers
  import opened Json
  import opened Library
  import opened Keys
  import opened LogSpec
  import opened PartitionLog
  import opened StorageSpec
  import opened GroupSpec
  import opened Groups
  import opened LogText
  import opened Offsets
  import opened BrokerSpec
  import C = Cluster
  import S = Storage
  import M = Replication
  import R = ReplicationSpec
  import P = ReplicationProtocol

  /** Why a publish is answered with an error. */
  datatype Refusal = Killed | Disconnected | NotLeader | TimedOut

  /** A consumer's connection. It may break under any write, before or after the record is on its way, and the write
      fails exactly if it has broken by then. */
  class Client {
    var written: seq<Entry>
    var alive: bool

    constructor ()
      ensures written == [] && alive
    {
      written, alive := [], true;
    }

    method Write(e: Entry) returns (ok: bool)
      modifies this
      ensures written == old(written) + [e] || (!ok && written == old(written))
      ensures ok == alive && (alive ==> old(alive))
    {
      var breaks: bool := *;
      var arrives: bool := *;
      alive := alive && !breaks;
      ok := alive;
      if ok || arrives { written := written + [e]; }
    }
  }

  /** Records as a client is sent them. */
  function Sent(log: Log<Json>): seq<Entry> {
    seq(|log|, i requires 0 <= i < |log| => Entry(Num(log[i].offset), log[i].payload))
  }

  function DeliveryOf(op: Op, id: nat, offset: nat): Delivery {
    Delivery(TopicPartition(op.topic, id), offset, op.message)
  }

  class Broker {
    const groups: GroupManager
    const cluster: C.ClusterManager
    const replication: M.ReplicationManager
    const offsets: OffsetTable<(string, string)>
    var queues: Queues
    var consumers: Consumers
    var groupEvents: GroupEvents
    var groupQueues: GroupQueues
    /** The queues as the coroutine that runs now found them when it last got the event loop. */
    ghost var woken: Queues

    /** What holds at every await: each group's members are exactly the consumers with an event and a queue. */
    ghost predicate InStep()
      reads this`queues, this`consumers, this`groupEvents, this`groupQueues, groups
    {
      && groups.Valid()
      && Tracks(groupEvents, groups.members) && Tracks(groupQueues, groups.members)
      && OwnQueues(groupQueues, consumers, queues)
    }

    constructor (
      groups: GroupManager, cluster: C.ClusterManager, replication: M.ReplicationManager,
        offsets: OffsetTable<(string, string)>)
      requires groups.Valid() && groups.members == map[]
      ensures this.groups == groups && this.cluster == cluster && this.replication == replication
        && this.offsets == offsets
      ensures InStep() && queues == map[] && consumers == map[]
    {
      this.cluster, this.replication, this.offsets := cluster, replication, offsets;
      this.groups, queues, consumers, groupEvents, groupQueues := groups, map[], map[], map[], map[];
    }

    /** `_trigger_group_rebalance`: wakes every member of the group. */
    method TriggerGroupRebalance(gt: GroupTopic)
      modifies this`groupEvents
      ensures SameKeys(old(groupEvents), groupEvents)
      ensures (gt in groupEvents <==> gt in old(groupEvents)) && WokenUp(old(groupEvents), groupEvents, gt)
    {
      if gt in groupEvents {
        var (events, pending) := (groupEvents[gt], groupEvents[gt].Keys);
        while pending != {}
          invariant pending <= events.Keys == groupEvents[gt].Keys
          invariant forall c :: c in events && c !in pending ==> events[c]
          decreases |pending|
        {
          var c :| c in pending;
          events, pending := events[c := true], pending - {c};
        }
        groupEvents := groupEvents[gt := events];
      }
    }

    /** The start of a group session, up to its first await. */
    method EnterGroup(group: string, topic: string, c: ConsumerId) returns (q: QueueId, tps: seq<TopicPartition>)
      requires InStep()
      modifies this`queues, this`groupEvents, this`groupQueues, groups`members, groups`assignments
      ensures InStep()
      ensures groups.members
        == old(groups.members)[(group, topic) := Joined(MembersOf(old(groups.members), (group, topic)), c)]
      ensures q !in old(queues) && queues == old(queues)[q := []]
      ensures groupQueues == With(old(groupQueues), (group, topic), c, q)
      ensures (group, topic) in groups.assignments && tps == Owned(groups.assignments[(group, topic)], c)
      ensures var before := MembersOf(old(groups.members), (group, topic));
        MembersOf(groups.members, (group, topic)) == if c in before then before else before + [c]
      ensures (group, topic) in groupEvents && WokenUp(old(groupEvents), groupEvents, (group, topic))
    {
      hide Distinct, Balanced, RoundRobin, Tracks, With, OwnQueues, SameKeys, Joined;
      var gt := (group, topic);
      TracksWith(groupEvents, groups.members, gt, c, false);
      WithOthers(groupEvents, gt, c, false);
      groupEvents := With(groupEvents, gt, c, false);
      ghost var entered := groupEvents;
      TriggerGroupRebalance(gt);
      TracksSame(entered, groupEvents, groups.members[gt := Joined(MembersOf(groups.members, gt), c)]);
      q := NewQueue();
      TracksWith(groupQueues, groups.members, gt, c, q);
      OwnWith(groupQueues, consumers, old(queues), gt, c, q);
      groupQueues := With(groupQueues, gt, c, q);
      tps := groups.RegisterConsumer(group, c, topic);
    }

    /** A group session woken by a rebalance or a message registers again; its consumer id is used by no other
        session. */
    method ResumeGroup(group: string, topic: string, c: ConsumerId) returns (tps: seq<TopicPartition>)
      requires InStep() && c in MembersOf(groups.members, (group, topic))
      modifies groups`members, groups`assignments
      ensures InStep() && groups.members == old(groups.members)
      ensures (group, topic) in groups.assignments && tps == Owned(groups.assignments[(group, topic)], c)
    {
      hide Distinct, Balanced, RoundRobin, Tracks, OwnQueues;
      RejoiningKeepsStep(groupQueues, groups.members, (group, topic), c);
      tps := groups.RegisterConsumer(group, c, topic);
      assert groups.members == old(groups.members);
    }

    method NewQueue() returns (q: QueueId)
      modifies this`queues
      ensures q !in old(queues) && queues == old(queues)[q := []]
    {
      var top, pending := 0, queues.Keys;
      while pending != {}
        invariant pending <= queues.Keys && forall k :: k in queues && k !in pending ==> k < top
        decreases |pending|
      {
        var k :| k in pending;
        top, pending := if k < top then top else k + 1, pending - {k};
      }
      q := top;
      queues := queues[q := []];
    }

    /** A session's clean-up: the consumer leaves. */
    method LeaveGroup(group: string, topic: string, c: ConsumerId)
      requires InStep()
      modifies this`groupEvents, this`groupQueues, groups`members, groups`assignments
      ensures InStep()
      ensures var gt := (group, topic);
        groups.members == WithMembers(old(groups.members), gt, Left(MembersOf(old(groups.members), gt), c))
      ensures groupQueues == Without(old(groupQueues), (group, topic), c)
      ensures WokenUp(old(groupEvents), groupEvents, (group, topic))
    {
      hide Distinct, Balanced, RoundRobin, Tracks, Without, OwnQueues, SameKeys, WithMembers, MembersOf, Left;
      var gt := (group, topic);
      BalancedDistinct(groups.members, groups.assignments, groups.numPartitions, gt);
      LeftDistinct(MembersOf(groups.members, gt), c);
      groups.DeregisterConsumer(group, c, topic);
      TracksWithout(groupEvents, old(groups.members), gt, c, MembersOf(groups.members, gt));
      TracksWithout(groupQueues, old(groups.members), gt, c, MembersOf(groups.members, gt));
      OwnWithout(groupQueues, consumers, queues, gt, c);
      WithoutOthers(groupEvents, gt, c);
      groupEvents := Without(groupEvents, gt, c);
      groupQueues := Without(groupQueues, gt, c);
      ghost var left := groupEvents;
      TriggerGroupRebalance(gt);
      TracksSame(left, groupEvents, groups.members);
    }

    // ----- standalone consumers -----

    /** Replays a topic's history from an offset, committing record by record for a named consumer. `done` is what was
        written and committed; a failure may leave one more record written. */
    method ReplayHistory(topic: string, start: int, client: Client, consumer: Option<string>)
      returns (ok: bool, ghost done: Log<Json>)
      requires replication.store.Valid() && '/' !in topic && offsets.Durable()
      requires Legible(replication.store.env, replication.store.imgs, TopicPartition(topic, 0))
      modifies client, offsets, offsets.cell, replication.store, replication.store.disk
      ensures replication.store.Valid() && offsets.Durable()
      ensures var wanted :=
        R.From(LogIn(replication.store.env, old(replication.store.imgs), TopicPartition(topic, 0)), start);
        && (if ok then done == wanted else done < wanted)
        && (client.written == old(client.written) + Sent(done)
            || (!ok && client.written == old(client.written) + Sent(done) + Sent([wanted[|done|]])))
      ensures client.alive == (ok && old(client.alive))
      ensures offsets.offsets ==
        if consumer.Some? && done != [] then old(offsets.offsets)[(consumer.value, topic) := Next(done)]
        else old(offsets.offsets)
      ensures var tp := TopicPartition(topic, 0);
        replication.store.imgs == old(replication.store.imgs)[tp := Get(old(replication.store.imgs), tp)]
    {
      hide Legible, Reading, OnDisk, LogIn, R.From, Get, S.Storage.Owned, Sent;
      var (store, tp) := (replication.store, TopicPartition(topic, 0));
      ghost var (log, before) := (LogIn(store.env, store.imgs, tp), client.written);
      M.ReadingIsLog(store.env, store.imgs, tp);
      var messages := store.ReadAll(tp);
      ok, done := true, [];
      R.FromNone(log[..0], start);
      SentNone(before);
      for i := 0 to |messages|
        modifies client, offsets, offsets.cell
        invariant ok && done == R.From(log[..i], start) && client.alive == old(client.alive)
          && client.written == before + Sent(done) && offsets.Durable()
        invariant offsets.offsets ==
          if consumer.Some? && done != [] then old(offsets.offsets)[(consumer.value, topic) := Next(done)]
                                     else old(offsets.offsets)
      {
        R.FromOneMore(log, start, i);
        R.FromPrefix(log, start, i + 1);
        var entry := messages[i];
        assert entry == Entry(Num(log[i].offset), log[i].payload);
        if entry.offset.Num? && entry.offset.n >= start {
          ok := client.Write(entry);
          SentOn(before, done, log[i]);
          if !ok { return; }
          if consumer.Some? { offsets.UpdateOffset((consumer.value, topic), entry.offset.n + 1); }
          done := done + [log[i]];
        }
      }
      assert log[..|log|] == log;
    }

    /** A standalone subscription up to its first wait: history is replayed from the stored offset, or from the given
        one for a nameless consumer, and only then is the consumer's queue registered. */
    method Subscribe(topic: string, offset: int, client: Client, consumer: Option<string>)
      returns (q: Option<QueueId>, ghost done: Log<Json>)
      requires InStep() && replication.store.Valid() && '/' !in topic && offsets.Durable()
      requires Legible(replication.store.env, replication.store.imgs, TopicPartition(topic, 0))
      modifies this`queues, this`consumers, client, offsets, offsets.cell, replication.store, replication.store.disk
      ensures InStep() && replication.store.Valid() && offsets.Durable()
      ensures var named := consumer.Some? && consumer.value != "";
        var start := if named then Committed(old(offsets.offsets), (consumer.value, topic)) else offset;
        var wanted :=
          R.From(LogIn(replication.store.env, old(replication.store.imgs), TopicPartition(topic, 0)), start);
        && (if q.Some? then done == wanted else done < wanted)
        && (client.written == old(client.written) + Sent(done)
            || (q.None? && client.written == old(client.written) + Sent(done) + Sent([wanted[|done|]])))
      ensures var k := (if consumer.Some? then consumer.value else "", topic);
        offsets.offsets ==
          if k.0 == "" then old(offsets.offsets)
          else if done != [] then old(offsets.offsets)[k := done[|done| - 1].offset + 1]
          else if k in old(offsets.offsets) then old(offsets.offsets) else old(offsets.offsets)[k := 0]
      ensures client.alive == (q.Some? && old(client.alive))
      ensures var tp := TopicPartition(topic, 0);
        replication.store.imgs == old(replication.store.imgs)[tp := Get(old(replication.store.imgs), tp)]
      ensures q.Some? ==> q.value !in old(queues) && queues == old(queues)[q.value := []]
      ensures q.Some? ==> consumers == old(consumers)[topic := Subscribed(old(consumers), topic) + [q.value]]
      ensures q.None? ==> queues == old(queues) && consumers == old(consumers)
    {
      hide InStep, Tracks, Balanced, OwnQueues, Legible, LogIn, R.From, OnDisk, S.Storage.Owned,
        S.Storage.Valid, Get, Sent;
      var (start, name) := (offset, None);
      if consumer.Some? && consumer.value != "" {
        start := offsets.GetOffset((consumer.value, topic));
        name := consumer;
      }
      var ok;
      ok, done := ReplayHistory(topic, start, client, name);
      if !ok { return None, done; }
      var id := AddStandalone(topic);
      q := Some(id);
    }

    method AddStandalone(topic: string) returns (id: QueueId)
      requires InStep()
      modifies this`queues, this`consumers
      ensures InStep() && id !in old(queues) && queues == old(queues)[id := []]
      ensures consumers == old(consumers)[topic := Subscribed(old(consumers), topic) + [id]]
    {
      hide Tracks, Balanced, OwnQueues;
      id := NewQueue();
      OwnStandalone(groupQueues, consumers, old(queues), topic, id);
      consumers := consumers[topic := Subscribed(consumers, topic) + [id]];
    }

    method Dequeue(q: QueueId) returns (d: Delivery)
      requires InStep() && q in queues && queues[q] != []
      modifies this`queues
      ensures InStep() && d == old(queues)[q][0] && queues == old(queues)[q := old(queues)[q][1..]]
    {
      hide Tracks, Balanced, Unshared, Apart, Distinct;
      d := queues[q][0];
      queues := queues[q := queues[q][1..]];
    }

    /** One turn of the live loop: the first queued message is written, then committed. */
    method StreamNext(q: QueueId, topic: string, client: Client, consumer: Option<string>) returns (ok: bool)
      requires InStep() && q in queues && queues[q] != [] && offsets.Durable()
      modifies this`queues, client, offsets, offsets.cell
      ensures InStep() && offsets.Durable()
      ensures queues == old(queues)[q := old(queues)[q][1..]]
      ensures var d := old(queues)[q][0];
        && (ok ==> client.written == old(client.written) + [Entry(Num(d.offset), d.payload)])
        && offsets.offsets ==
             if ok && consumer.Some? && consumer.value != ""
             then old(offsets.offsets)[(consumer.value, topic) := d.offset + 1]
             else old(offsets.offsets)
      ensures ok == client.alive
    {
      hide InStep;
      var d := Dequeue(q);
      ok := client.Write(Entry(Num(d.offset), d.payload));
      if ok && consumer.Some? && consumer.value != "" {
        offsets.UpdateOffset((consumer.value, topic), d.offset + 1);
      }
    }

    /** `_consume_group_partition`: a group member writes one partition's history from the group's committed offset on,
        and commits record by record. */
    method ConsumeGroupPartition(group: string, tp: TopicPartition, client: Client)
      returns (ok: bool, ghost done: Log<Json>)
      requires replication.store.Valid() && '/' !in tp.topic && groups.offsets.Durable()
      requires Legible(replication.store.env, replication.store.imgs, tp)
      modifies client, groups.offsets, groups.offsets.cell, replication.store, replication.store.disk
      ensures replication.store.Valid() && groups.offsets.Durable()
      ensures var start := Committed(old(groups.offsets.offsets), (group, tp));
        var wanted := R.From(LogIn(replication.store.env, old(replication.store.imgs), tp), start);
        && (if ok then done == wanted else done < wanted)
        && (client.written == old(client.written) + Sent(done)
            || (!ok && client.written == old(client.written) + Sent(done) + Sent([wanted[|done|]])))
      ensures client.alive == (ok && old(client.alive))
      ensures var (k, before) := ((group, tp), old(groups.offsets.offsets));
        groups.offsets.offsets ==
          if done != [] then before[k := done[|done| - 1].offset + 1]
          else if k in before then before else before[k := 0]
      ensures replication.store.imgs == old(replication.store.imgs)[tp := Get(old(replication.store.imgs), tp)]
    {
      hide Legible, OnDisk, LogIn, R.From, Get, S.Storage.Valid, Sent;
      var start := groups.offsets.GetOffset((group, tp));
      ok, done := WriteHistory(group, tp, start, client);
    }

    method WriteHistory(group: string, tp: TopicPartition, start: int, client: Client)
      returns (ok: bool, ghost done: Log<Json>)
      requires replication.store.Valid() && '/' !in tp.topic && groups.offsets.Durable()
      requires Legible(replication.store.env, replication.store.imgs, tp)
      modifies client, groups.offsets, groups.offsets.cell, replication.store, replication.store.disk
      ensures replication.store.Valid() && groups.offsets.Durable()
      ensures var wanted := R.From(LogIn(replication.store.env, old(replication.store.imgs), tp), start);
        && (if ok then done == wanted else done < wanted)
        && (client.written == old(client.written) + Sent(done)
            || (!ok && client.written == old(client.written) + Sent(done) + Sent([wanted[|done|]])))
      ensures client.alive == (ok && old(client.alive))
      ensures groups.offsets.offsets ==
        if done != [] then old(groups.offsets.offsets)[(group, tp) := done[|done| - 1].offset + 1]
        else old(groups.offsets.offsets)
      ensures replication.store.imgs == old(replication.store.imgs)[tp := Get(old(replication.store.imgs), tp)]
    {
      hide Legible, Reading, OnDisk, LogIn, R.From, Get, S.Storage.Owned, Sent;
      var store := replication.store;
      ghost var (log, before) := (LogIn(store.env, store.imgs, tp), client.written);
      M.ReadingIsLog(store.env, store.imgs, tp);
      var messages := store.ReadAll(tp);
      ok, done := true, [];
      R.FromNone(log[..0], start);
      SentNone(before);
      for i := 0 to |messages|
        modifies client, groups.offsets, groups.offsets.cell
        invariant ok && done == R.From(log[..i], start) && client.alive == old(client.alive)
        invariant client.written == before + Sent(done) && groups.offsets.Durable()
        invariant groups.offsets.offsets == if done != [] then old(groups.offsets.offsets)[(group, tp) := Next(done)]
          else old(groups.offsets.offsets)
      {
        R.FromOneMore(log, start, i);
        R.FromPrefix(log, start, i + 1);
        var entry := messages[i];
        assert entry == Entry(Num(log[i].offset), log[i].payload);
        if entry.offset.Num? && entry.offset.n >= start {
          ok := client.Write(entry);
          SentOn(before, done, log[i]);
          if !ok { return; }
          groups.offsets.UpdateOffset((group, tp), entry.offset.n + 1);
          done := done + [log[i]];
        }
      }
      assert log[..|log|] == log;
    }

    /** One turn of a group session's live loop: the first queued message is written and then committed for the group,
        or discarded when its partition is no longer the consumer's. */
    method StreamGroup(q: QueueId, group: string, share: set<nat>, client: Client) returns (ok: bool)
      requires InStep() && q in queues && queues[q] != [] && groups.offsets.Durable()
      modifies this`queues, client, groups.offsets, groups.offsets.cell
      ensures InStep() && groups.offsets.Durable()
      ensures queues == old(queues)[q := old(queues)[q][1..]]
      ensures var (d, before) := (old(queues)[q][0], old(groups.offsets.offsets));
        if d.tp.id in share then
          && (ok ==> client.written == old(client.written) + [Entry(Num(d.offset), d.payload)])
          && ok == client.alive
          && groups.offsets.offsets == if ok then before[(group, d.tp) := d.offset + 1] else before
        else ok && client.written == old(client.written) && groups.offsets.offsets == before
    {
      hide InStep;
      var d := Dequeue(q);
      ok := true;
      if d.tp.id in share {
        ok := client.Write(Entry(Num(d.offset), d.payload));
        if ok { groups.offsets.UpdateOffset((group, d.tp), d.offset + 1); }
      }
    }

    /** The clean-up of a standalone session. */
    method Unsubscribe(topic: string, q: QueueId)
      requires InStep()
      modifies this`consumers
      ensures InStep()
      ensures consumers ==
        if q in Subscribed(old(consumers), topic) then
          WithoutQueue(old(consumers), topic, Left(old(consumers)[topic], q))
        else old(consumers)
      ensures forall t :: t != topic ==>
        (t in consumers <==> t in old(consumers)) && (t in consumers ==> consumers[t] == old(consumers)[t])
      ensures topic in old(consumers) ==>
        var before := old(consumers)[topic];
        forall i :: 0 <= i < |before| && before[i] == q ==>
          if before == [q] then topic !in consumers
          else topic in consumers && consumers[topic] == before[..i] + before[i + 1..]
    {
      hide Tracks, Balanced, Left, WithoutQueue;
      if topic in consumers && q in consumers[topic] {
        var rest := Remove(consumers[topic], q);
        LeftDistinct(consumers[topic], q);
        TakenOut(consumers, topic, q);
        OwnFewer(groupQueues, consumers, queues, topic, rest);
        FewerQueues(consumers, topic, rest);
        consumers := WithoutQueue(consumers, topic, rest);
      }
    }

    // ----- delivering a published message -----

    method EnqueueStandalone(d: Delivery)
      requires InStep()
      modifies this`queues
      ensures InStep() && queues.Keys == old(queues).Keys
      ensures forall q :: q in queues ==>
        queues[q] == old(queues)[q] + if StandaloneTarget(consumers, d, q) then [d] else []
    {
      hide Tracks, Balanced, Unshared, Apart;
      if d.tp.topic in consumers {
        var ids := consumers[d.tp.topic];
        assert Distinct(ids);
        for i := 0 to |ids|
          invariant queues.Keys == old(queues).Keys
          invariant forall q :: q in queues ==> queues[q] == old(queues)[q] + if q in ids[..i] then [d] else []
        {
          assert ids[i] in ids && ids[i] !in ids[..i];
          assert ids[..i + 1] == ids[..i] + [ids[i]];
          queues := queues[ids[i] := queues[ids[i]] + [d]];
        }
        assert ids[..|ids|] == ids;
      }
    }

    /** The consumer, if any, whose share holds the partition. */
    method FindOwner(a: Assignment, tp: TopicPartition) returns (owner: Option<ConsumerId>)
      ensures owner.Some? ==> tp in Owned(a, owner.value)
      ensures owner.None? ==> forall c :: tp !in Owned(a, c)
    {
      var pending := a.Keys;
      while pending != {}
        invariant pending <= a.Keys && forall c :: c in a && c !in pending ==> tp !in a[c]
        decreases |pending|
      {
        var c :| c in pending;
        if tp in a[c] { return Some(c); }
        pending := pending - {c};
      }
      return None;
    }

    /** The queue of one group that the message goes to. */
    method GroupQueue(gt: GroupTopic, d: Delivery) returns (q: Option<QueueId>)
      requires InStep() && gt in groupEvents && gt.1 == d.tp.topic
      ensures q.Some? ==> GroupTarget(groups.members, groupQueues, groups.numPartitions, gt, d, q.value)
      ensures forall q': QueueId :: q != Some(q') ==>
        !GroupTarget(groups.members, groupQueues, groups.numPartitions, gt, d, q')
    {
      OwnerIsTarget(groups.members, groups.assignments, groupQueues, groups.numPartitions, gt, d);
      hide Balanced, Tracks, OwnQueues, GroupTarget;
      var owner := FindOwner(groups.assignments[gt], d.tp);
      if owner.None? { return None; }
      q := Some(groupQueues[gt][owner.value]);
    }

    method EnqueueGroup(gt: GroupTopic, d: Delivery)
      requires InStep() && gt in groupEvents
      modifies this`queues
      ensures InStep() && queues.Keys == old(queues).Keys
      ensures forall q :: q in queues ==>
        queues[q] == old(queues)[q]
          + (if GroupTarget(groups.members, groupQueues, groups.numPartitions, gt, d, q) then [d] else [])
    {
      hide Tracks, Balanced, Apart, Unshared, Open, GroupTarget;
      ghost var (m, gq, count) := (groups.members, groupQueues, groups.numPartitions);
      OtherTopic(m, gq, count, gt, d);
      if gt.1 == d.tp.topic {
        var q := GroupQueue(gt, d);
        if q.Some? {
          TargetIsOpen(m, gq, consumers, queues, count, gt, d, q.value);
          queues := queues[q.value := queues[q.value] + [d]];
        }
      }
      OpenSame(gq, consumers, old(queues), queues);
    }

    method EnqueueGroups(d: Delivery)
      requires InStep()
      modifies this`queues
      ensures InStep() && queues.Keys == old(queues).Keys
      ensures forall q :: q in queues ==>
        queues[q] == old(queues)[q]
          + if GroupsTarget(groups.members, groupQueues, groups.numPartitions, d, q) then [d] else []
    {
      hide Tracks, Balanced, Apart, Open, GroupTarget, GroupsTarget, Distinct, Handed;
      ghost var (m, gq, count, done) := (groups.members, groupQueues, groups.numPartitions, {});
      HandedNobody(queues, m, gq, count, d);
      TrackedKeys(groupEvents, m);
      assert Unshared(gq);
      hide InStep, Unshared;
      var pending := groupEvents.Keys;
      while pending != {}
        invariant InStep() && pending == groupEvents.Keys - done && done <= groupEvents.Keys
        invariant Handed(old(queues), queues, done, m, gq, count, d)
        decreases |pending|
      {
        var gt :| gt in pending;
        ghost var between := queues;
        EnqueueGroup(gt, d);
        HandedOneMore(old(queues), between, queues, done, gt, m, gq, count, d);
        pending := pending - {gt};
        done := done + {gt};
      }
      assert done == m.Keys;
      HandedAll(old(queues), queues, m, gq, count, d);
    }

    /** Whether a publish is turned away before anything is stored. */
    predicate Refuses()
      reads cluster
    {
      cluster.killed || cluster.disconnected || cluster.standing.role.Follower?
    }

    method Refuse() returns (r: Option<Refusal>)
      ensures r.Some? <==> Refuses()
      ensures r == if cluster.killed then Some(Killed) else if cluster.disconnected then Some(Disconnected)
        else if cluster.standing.role.Follower? then Some(NotLeader) else None
    {
      if cluster.killed { return Some(Killed); }
      if cluster.disconnected { return Some(Disconnected); }
      if cluster.standing.role.Follower? { return Some(NotLeader); }
      return None;
    }

    method Enqueue(d: Delivery)
      requires InStep()
      modifies this`queues
      ensures InStep() && queues.Keys == old(queues).Keys
      ensures forall q :: q in queues ==> queues[q] == old(queues)[q] + Copies(d, q)
      ensures OwnersServed(groups.members, groupQueues, groups.numPartitions, old(queues), queues, d)
      ensures OthersKept(groups.members, groupQueues, groups.numPartitions, old(queues), queues, d)
      ensures ListenersServed(consumers, old(queues), queues, d)
    {
      hide OwnersServed, OthersKept, ListenersServed, OwnQueues, Tracks, Balanced, StandaloneTarget, GroupsTarget;
      MembersHere(groups.members, groups.assignments, groups.numPartitions);
      ghost var was := queues;
      assert Tracks(groupQueues, groups.members) && OwnQueues(groupQueues, consumers, was);
      hide InStep;
      EnqueueCopies(d);
      ServedExactly(groups.members, groupQueues, consumers, groups.numPartitions, was, queues, d);
    }

    method EnqueueCopies(d: Delivery)
      requires InStep()
      modifies this`queues
      ensures InStep() && queues.Keys == old(queues).Keys
      ensures forall q :: q in queues ==> queues[q] == old(queues)[q] + Copies(d, q)
    {
      hide InStep;
      EnqueueStandalone(d);
      ghost var between := queues;
      EnqueueGroups(d);
      forall q | q in queues ensures queues[q] == old(queues)[q] + Copies(d, q) {
        assert old(queues)[q] + [] == old(queues)[q] && between[q] + [] == between[q];
      }
    }

    /** A publish with acks 0 or 1: stored, broadcast to the followers, and put on every queue concerned. */
    method Publish(op: Op)
      returns (refusal: Option<Refusal>, id: nat, offset: nat, ghost lost: set<R.BrokerId>,
        ghost written: set<R.BrokerId>)
      requires InStep() && replication.store.Valid()
      requires '/' !in op.topic && op.partition == None && op.offset == None
      modifies this`queues, replication`followers, replication`followerOffsets, replication.net,
        replication.store, replication.store.disk, replication.store.partitions.Values
      ensures InStep() && replication.store.Valid()
      ensures refusal == if cluster.killed then Some(Killed) else if cluster.disconnected then Some(Disconnected)
        else if cluster.standing.role.Follower? then Some(NotLeader) else None
      ensures refusal.Some? ==>
        queues == old(queues) && unchanged(replication) && unchanged(replication.net) && unchanged(replication.store)
      ensures refusal.None? ==> StoredAs(old(replication.store.imgs), op, id, offset)
      ensures refusal.None? ==> replication.Table() == P.Losing(old(replication.Table()), lost)
      ensures var (t, m) := (old(replication.Table()), M.MessageOf(op, id, offset));
        refusal.None? ==>
          forall c :: replication.net.At(c) == old(replication.net.At(c)) + M.SentTo(c, t, lost, written, m)
      ensures refusal.None? ==> queues.Keys == old(queues).Keys
      ensures refusal.None? ==> forall q :: q in queues ==>
        queues[q] == old(queues)[q] + Copies(DeliveryOf(op, id, offset), q)
      // In every group of the topic the member at place id mod n finds the message at the end of its queue, labelled
      // with the partition and offset that the record has in the store; no other member's queue changes.
      ensures refusal.None? ==>
        forall gt :: gt in groups.members && gt.1 == op.topic && id < groups.numPartitions ==>
          var ms := groups.members[gt];
          && ms != [] && gt in groupQueues && ms[id % |ms|] in groupQueues[gt]
          && var q := groupQueues[gt][ms[id % |ms|]];
             q in old(queues) && q in queues
             && queues[q] == old(queues)[q] + [Delivery(TopicPartition(op.topic, id), offset, op.message)]
      ensures refusal.None? ==>
        forall gt, c :: gt in groupQueues && c in groupQueues[gt] ==>
          && groupQueues[gt][c] in old(queues) && groupQueues[gt][c] in queues
          && ((gt.1 == op.topic && id < groups.numPartitions && gt in groups.members && groups.members[gt] != []
               && c == groups.members[gt][id % |groups.members[gt]|])
              || queues[groupQueues[gt][c]] == old(queues)[groupQueues[gt][c]])
      ensures refusal.None? ==>
        forall t, q :: t in consumers && q in consumers[t] ==>
          && q in old(queues) && q in queues
          && queues[q] == old(queues)[q]
               + if t == op.topic then [Delivery(TopicPartition(op.topic, id), offset, op.message)] else []
      ensures refusal.None? ==> RecordAdded(old(replication.store.imgs), op, id, offset)
    {
      lost, written, id, offset := {}, {}, 0, 0;
      refusal := Refuse();
      if refusal.Some? { return; }
      hide InStep, S.Storage.Valid, P.Losing, StoredAs, Copies, M.MessageOf, M.SentTo,
        M.Network.At, RecordAdded;
      id, offset, lost, written := StoreAndEnqueue(op);
    }

    method StoreAndEnqueue(op: Op)
      returns (id: nat, offset: nat, ghost lost: set<R.BrokerId>, ghost written: set<R.BrokerId>)
      requires InStep() && replication.store.Valid()
      requires '/' !in op.topic && op.offset == None
      modifies this`queues, replication`followers, replication`followerOffsets, replication.net,
        replication.store, replication.store.disk, replication.store.partitions.Values
      ensures InStep() && replication.store.Valid()
      ensures StoredAs(old(replication.store.imgs), op, id, offset)
      ensures replication.Table() == P.Losing(old(replication.Table()), lost)
      ensures var (t, m) := (old(replication.Table()), M.MessageOf(op, id, offset));
        forall c :: replication.net.At(c) == old(replication.net.At(c)) + M.SentTo(c, t, lost, written, m)
      ensures queues.Keys == old(queues).Keys
      ensures forall q :: q in queues ==> queues[q] == old(queues)[q] + Copies(DeliveryOf(op, id, offset), q)
      ensures var d := DeliveryOf(op, id, offset);
        && OwnersServed(groups.members, groupQueues, groups.numPartitions, old(queues), queues, d)
        && OthersKept(groups.members, groupQueues, groups.numPartitions, old(queues), queues, d)
        && ListenersServed(consumers, old(queues), queues, d)
      ensures RecordAdded(old(replication.store.imgs), op, id, offset)
    {
      hide InStep, P.Losing, AppendOp, Route, Get, Copies, M.MessageOf, M.SentTo, DeliveryOf, M.Network.At,
        S.Storage.Owned, OnDisk, OwnersServed, OthersKept, ListenersServed, M.Conns, RecordAdded;
      ghost var before := replication.store.imgs;
      id, offset, lost, written := replication.StoreAndReplicate(op);
      S.HasPartitions(replication.store);
      StoredIsAdded(before, op, id, offset);
      Enqueue(DeliveryOf(op, id, offset));
    }

    /** One more record at the end of one partition's log, at that partition's next offset, and no other partition
        changes. */
    ghost predicate RecordAdded(before: Images, op: Op, id: nat, offset: nat)
      reads replication.store
    {
      var (env, cfg, imgs, tp) :=
        (replication.store.env, replication.store.cfg, replication.store.imgs, TopicPartition(op.topic, id));
      && offset == (if tp in before then before[tp].next else 0)
      && tp in imgs && imgs == before[tp := imgs[tp]] && imgs[tp].next == offset + 1
      && (Good(env) && Consistent(env, before) ==>
            && Consistent(env, imgs)
            && Logs(env, imgs, tp) == Logs(env, before, tp) + [Rec(offset, Visible(env, op.message, cfg.setting))])
    }

    lemma StoredIsAdded(before: Images, op: Op, id: nat, offset: nat)
      requires replication.store.cfg.numPartitions > 0 && op.offset == None && StoredAs(before, op, id, offset)
      ensures RecordAdded(before, op, id, offset)
    {
      hide Consistent, Logs, Visible, Good;
      var (env, cfg, tp) := (replication.store.env, replication.store.cfg, TopicPartition(op.topic, id));
      if Good(env) && Consistent(env, before) {
        AppendOpRefinesPut(env, cfg, before, op);
        NextIsLogNext(env, before, tp);
      }
    }

    /** One append to the store, at this partition and offset. */
    ghost predicate StoredAs(before: Images, op: Op, id: nat, offset: nat)
      reads replication.store
      requires replication.store.cfg.numPartitions > 0
    {
      var tp := Route(replication.store.cfg, op);
      replication.store.imgs == AppendOp(replication.store.env, replication.store.cfg, before, op)
      && id == tp.id && offset == Get(before, tp).next
    }

    /** While a task sleeps any others may run: all that is known afterwards is what every task keeps. */
    method Sleep()
      requires InStep() && replication.store.Valid()
      modifies this, groups, cluster, replication, replication.net,
        replication.store, replication.store.disk, replication.store.partitions.Values
      ensures InStep() && replication.store.Valid()
      ensures fresh(replication.store.partitions.Values - old(replication.store.partitions.Values))
      ensures woken == queues
    {
      woken := queues;
    }

    /** A publish with acks=all: stored and broadcast like any other, then put on the queues only once a poll finds the
        record acknowledged by every follower in the table; other tasks run between the polls. */
    method PublishAndWait(op: Op, polls: nat) returns (refusal: Option<Refusal>, id: nat, offset: nat)
      requires InStep() && replication.store.Valid()
      requires '/' !in op.topic && op.partition == None && op.offset == None
      modifies this, groups, cluster, replication, replication.net,
        replication.store, replication.store.disk, replication.store.partitions.Values
      ensures InStep() && replication.store.Valid()
      ensures var refused := if old(cluster.killed) then Some(Killed) else if old(cluster.disconnected) then
          Some(Disconnected) else if old(cluster.standing).role.Follower? then Some(NotLeader) else None;
        if refused.Some? then refusal == refused else refusal.None? || refusal == Some(TimedOut)
      ensures old(Refuses()) ==> queues == old(queues) && unchanged(replication) && unchanged(replication.store)
      ensures !old(Refuses()) && polls > 0 && old(replication.followers) == map[] ==> refusal.None?
      ensures refusal.None? ==>
        id == if op.key.Some? then replication.store.cfg.crc32(op.key.value) % replication.store.cfg.numPartitions
          else 0
      ensures refusal.None? ==>
        var (tp, was) := (TopicPartition(op.topic, id), old(replication.store.imgs));
        offset == if tp in was then was[tp].next else 0
      ensures refusal.None? ==> AllHave(TopicPartition(op.topic, id), offset)
      ensures refusal.None? ==> queues.Keys == woken.Keys
      ensures refusal.None? ==> forall q :: q in queues ==>
        queues[q] == woken[q] + Copies(DeliveryOf(op, id, offset), q)
      // Since the coroutine was woken last, the queues have changed as after a publish that does not wait.
      ensures refusal.None? ==>
        forall gt :: gt in groups.members && gt.1 == op.topic && id < groups.numPartitions ==>
          var ms := groups.members[gt];
          && ms != [] && gt in groupQueues && ms[id % |ms|] in groupQueues[gt]
          && var q := groupQueues[gt][ms[id % |ms|]];
             q in woken && q in queues
             && queues[q] == woken[q] + [Delivery(TopicPartition(op.topic, id), offset, op.message)]
      ensures refusal.None? ==>
        forall gt, c :: gt in groupQueues && c in groupQueues[gt] ==>
          && groupQueues[gt][c] in woken && groupQueues[gt][c] in queues
          && ((gt.1 == op.topic && id < groups.numPartitions && gt in groups.members && groups.members[gt] != []
               && c == groups.members[gt][id % |groups.members[gt]|])
              || queues[groupQueues[gt][c]] == woken[groupQueues[gt][c]])
      ensures refusal.None? ==>
        forall t, q :: t in consumers && q in consumers[t] ==>
          && q in woken && q in queues
          && queues[q] == woken[q]
               + if t == op.topic then [Delivery(TopicPartition(op.topic, id), offset, op.message)] else []
    {
      id, offset := 0, 0;
      refusal := Refuse();
      if refusal.Some? { return; }
      hide InStep, AppendOp, Route, Copies, AllHave, S.Storage.Valid, Get;
      var acked;
      id, offset, acked := StoreWaitAndEnqueue(op, polls);
      if !acked { refusal := Some(TimedOut); }
    }

    method StoreWaitAndEnqueue(op: Op, polls: nat) returns (id: nat, offset: nat, acked: bool)
      requires InStep() && replication.store.Valid()
      requires '/' !in op.topic && op.partition == None && op.offset == None
      modifies this, groups, cluster, replication, replication.net,
        replication.store, replication.store.disk, replication.store.partitions.Values
      ensures InStep() && replication.store.Valid() && replication.store.cfg.numPartitions > 0
      ensures id ==
        if op.key.Some? then replication.store.cfg.crc32(op.key.value) % replication.store.cfg.numPartitions else 0
      ensures var (tp, was) := (TopicPartition(op.topic, id), old(replication.store.imgs));
        offset == if tp in was then was[tp].next else 0
      ensures acked ==> AllHave(TopicPartition(op.topic, id), offset)
      ensures polls > 0 && old(replication.followers) == map[] ==> acked
      ensures acked ==> queues.Keys == woken.Keys
      ensures acked ==> forall q :: q in queues ==> queues[q] == woken[q] + Copies(DeliveryOf(op, id, offset), q)
      ensures acked ==>
        var d := DeliveryOf(op, id, offset);
        && OwnersServed(groups.members, groupQueues, groups.numPartitions, woken, queues, d)
        && OthersKept(groups.members, groupQueues, groups.numPartitions, woken, queues, d)
        && ListenersServed(consumers, woken, queues, d)
    {
      hide InStep, AppendOp, Route, Copies, AllHave, S.Storage.Owned, OnDisk, Get, DeliveryOf, OwnersServed, OthersKept,
        ListenersServed;
      woken := queues;
      id, offset, acked := StoreAndWait(op, polls);
      S.HasPartitions(replication.store);
      if acked { Enqueue(DeliveryOf(op, id, offset)); }
    }

    /** Every follower in the table has acknowledged the record. */
    ghost predicate AllHave(tp: TopicPartition, offset: nat)
      reads replication
    {
      forall f :: f in replication.followers ==>
        && f in replication.followerOffsets && Key(tp) in replication.followerOffsets[f]
        && replication.followerOffsets[f][Key(tp)] >= offset
    }

    method StoreAndWait(op: Op, polls: nat) returns (id: nat, offset: nat, acked: bool)
      requires InStep() && replication.store.Valid()
      requires '/' !in op.topic && op.partition == None && op.offset == None && woken == queues
      modifies this, groups, cluster, replication, replication.net,
        replication.store, replication.store.disk, replication.store.partitions.Values
      ensures InStep() && replication.store.Valid() && woken == queues
      ensures id ==
        if op.key.Some? then replication.store.cfg.crc32(op.key.value) % replication.store.cfg.numPartitions else 0
      ensures var (tp, was) := (TopicPartition(op.topic, id), old(replication.store.imgs));
        offset == if tp in was then was[tp].next else 0
      ensures acked ==> AllHave(TopicPartition(op.topic, id), offset)
      ensures polls > 0 && old(replication.followers) == map[] ==> acked
    {
      hide AppendOp, S.Storage.Valid, M.SentTo, M.Network.At, GroupManager.Valid, Tracks, OwnQueues, M.Conns, P.Losing;
      ghost var lost, written;
      S.HasPartitions(replication.store);
      ghost var table := replication.Table();
      id, offset, lost, written := replication.StoreAndReplicate(op);
      M.NobodyLeft(table, lost);
      assert replication.followers == P.Losing(table, lost).followers;
      acked := WaitForAcks(TopicPartition(op.topic, id), offset, polls);
    }

    /** The wait for acknowledgements: at most the given number of polls, with other tasks running in between. */
    method WaitForAcks(tp: TopicPartition, offset: nat, polls: nat) returns (acked: bool)
      requires InStep() && replication.store.Valid() && woken == queues
      modifies this, groups, cluster, replication, replication.net,
        replication.store, replication.store.disk, replication.store.partitions.Values
      ensures InStep() && replication.store.Valid() && woken == queues
      ensures acked ==> AllHave(tp, offset)
      ensures polls > 0 && old(AllHave(tp, offset)) ==> acked
    {
      hide InStep, R.AllAcked, S.Storage.Valid;
      var rounds := 0;
      while rounds < polls
        invariant InStep() && replication.store.Valid() && woken == queues
        invariant rounds > 0 ==> !old(AllHave(tp, offset))
        invariant rounds == 0 ==> AllHave(tp, offset) == old(AllHave(tp, offset))
        invariant forall p :: p in replication.store.partitions.Values ==>
          p in old(replication.store.partitions.Values) || fresh(p)
      {
        acked := replication.PollAcks(tp, offset);
        if acked { return; }
        Sleep();
        rounds := rounds + 1;
      }
      return false;
    }


    /** What one publish puts on one queue. */
    ghost function Copies(d: Delivery, q: QueueId): seq<Delivery>
      reads this`consumers, this`groupQueues, groups`members
    {
      (if StandaloneTarget(consumers, d, q) then [d] else [])
      + (if GroupsTarget(groups.members, groupQueues, groups.numPartitions, d, q) then [d] else [])
    }
  }

  lemma SentNone(before: seq<Entry>)
    ensures before + Sent([]) == before
  {
  }

  lemma SentOn(before: seq<Entry>, done: Log<Json>, r: Rec<Json>)
    ensures var e := Entry(Num(r.offset), r.payload);
      Sent([r]) == [e] && before + Sent(done) + [e] == before + Sent(done + [r])
  {
    assert Sent(done + [r]) == Sent(done) + [Entry(Num(r.offset), r.payload)];
  }

  lemma TakenOut(consumers: Consumers, topic: string, q: QueueId)
    requires topic in consumers && Distinct(consumers[topic])
    ensures var before := consumers[topic];
      forall i :: 0 <= i < |before| && before[i] == q ==>
        Left(before, q) == before[..i] + before[i + 1..] && (Left(before, q) == [] <==> before == [q])
  {
    var before := consumers[topic];
    forall i | 0 <= i < |before| && before[i] == q
      ensures Left(before, q) == before[..i] + before[i + 1..]
    {
      LeftSplit(before, q, i);
    }
  }

  lemma OtherTopic(m: Membership, gq: GroupQueues, count: nat, gt: GroupTopic, d: Delivery)
    ensures gt.1 != d.tp.topic ==> forall q :: !GroupTarget(m, gq, count, gt, d, q)
  {
  }

  lemma MembersHere(m: Membership, a: Assignments, count: nat)
    requires Balanced(m, a, count)
    ensures forall gt :: gt in m ==> m[gt] != []
  {
  }

  lemma OpenSame(gq: GroupQueues, consumers: Consumers, queues: Queues, queues': Queues)
    requires Open(gq, consumers, queues) && queues'.Keys == queues.Keys
    ensures Open(gq, consumers, queues')
  {
  }

  lemma TrackedKeys(events: GroupEvents, m: Membership)
    requires Tracks(events, m)
    ensures events.Keys == m.Keys
  {
  }

  /** The owner the assignment gives is the one at place p mod n, and it has a queue. */
  lemma OwnerIsTarget(m: Membership, a: Assignments, gq: GroupQueues, count: nat, gt: GroupTopic, d: Delivery)
    requires Balanced(m, a, count) && Tracks(gq, m) && gt in m && gt.1 == d.tp.topic
    ensures gt in a && gt in gq
    ensures forall c :: d.tp in Owned(a[gt], c) ==> c in gq[gt]
    ensures forall c, q :: d.tp in Owned(a[gt], c) ==> (GroupTarget(m, gq, count, gt, d, q) <==> gq[gt][c] == q)
    ensures (forall c :: d.tp !in Owned(a[gt], c)) ==> forall q :: !GroupTarget(m, gq, count, gt, d, q)
  {
    hide RoundRobin, Distinct, Owned;
    BalancedCover(a[gt], m[gt], gt.1, count);
    assert d.tp == TopicPartition(d.tp.topic, d.tp.id);
  }
}
