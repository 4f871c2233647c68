/**
 A leader and its followers as objects, for one tenure: replication managers on their own stores, the connections
 between them, and beside them the state of the protocol. Each method runs the brokers' code for one step, and proves
 that the protocol takes that step and that the objects still are as its new state says.
 */
module Tenure {
  import opened Wrappers
  import opened Json
  import opened Library
  import opened LogSpec
  import opened Keys
  import opened Compression
  import opened PartitionLog
  import opened StorageSpec
  import S = Storage
  import M = Replication
  import R = ReplicationSpec
  import P = ReplicationProtocol

  type BrokerId = R.BrokerId
  type Conn = R.Conn

  /** Payloads as producers send them: objects that are not themselves compression envelopes. */
  predicate Sendable(env: Env, payload: Json) { payload.Obj? && Plain(env, payload) }

  predicate Nameable(topic: string) { topic != "" && '/' !in topic }

  ghost predicate AllSendable(env: Env, logs: R.Logs) {
    forall tp, r :: r in R.LogAt(logs, tp) ==> Sendable(env, r.payload) && Nameable(tp.topic)
  }

  ghost predicate AllOpenable(s: P.System) {
    forall c, r :: r in P.Up(s, c) && r.Register? ==> M.Openable(r.offsets)
  }

  type Brokers = map<BrokerId, M.ReplicationManager>

  /** No two brokers share a store or a directory. */
  ghost predicate Apart(env: Env, leader: M.ReplicationManager, brokers: Brokers) {
    && leader.store.env == env
    && (forall id :: id in brokers ==> brokers[id].store.env == env && Foreign(brokers[id].store, leader.store))
    && (forall a, b :: a in brokers && b in brokers && a != b ==> Foreign(brokers[a].store, brokers[b].store))
  }

  ghost predicate Foreign(a: S.Storage, b: S.Storage) { a != b && a.disk != b.disk }

  /** Nothing that belongs to one store belongs to the other. */
  ghost predicate Separate(a: S.Storage, b: S.Storage)
    reads a, b
  {
    Foreign(a, b) && a.partitions.Values !! b.partitions.Values
  }

  /** The logs of a store. */
  ghost predicate Keeps(env: Env, store: S.Storage, logs: R.Logs)
    reads store, store.disk, store.partitions.Values
  {
    store.Valid() && M.Represents(env, store.imgs, logs)
  }

  ghost predicate Followers(env: Env, brokers: Brokers, nodes: map<BrokerId, P.Node>)
    reads *
  {
    nodes.Keys == brokers.Keys && forall id :: id in brokers ==> Keeps(env, brokers[id].store, nodes[id].logs)
  }

  ghost predicate Channels(net: M.Network, up: M.Uplink, s: P.System)
    reads net, up
  {
    && (forall c :: net.At(c) == P.Down(s, c))
    && (forall c :: up.At(c) == P.Up(s, c))
  }

  /** What the leader holds is as the protocol's state says. */
  ghost predicate Leads(env: Env, leader: M.ReplicationManager, up: M.Uplink, s: P.System)
    reads leader, leader.net, up, leader.store, leader.store.disk, leader.store.partitions.Values
  {
    Keeps(env, leader.store, s.logs) && leader.Table() == s.tables && Channels(leader.net, up, s)
  }

  /** A state the protocol reaches, with payloads and topics as producers send them. */
  ghost predicate Sound(env: Env, s: P.System) {
    Good(env) && P.Inv(s) && AllSendable(env, s.logs) && AllOpenable(s)
  }

  class Tenure {
    const env: Env
    const leader: M.ReplicationManager
    const up: M.Uplink
    const brokers: Brokers
    ghost var sys: P.System

    /** The objects are as the protocol's state says. */
    ghost predicate Valid()
      reads *
    {
      Apart(env, leader, brokers) && Sound(env, sys) && Leads(env, leader, up, sys)
        && Followers(env, brokers, sys.nodes)
    }

    /** The start of a tenure: no connections, and follower logs that are prefixes of the leader's. */
    constructor (env: Env, leader: M.ReplicationManager, up: M.Uplink, brokers: Brokers, ghost s: P.System)
      requires Good(env) && P.Init(s) && AllSendable(env, s.logs) && Apart(env, leader, brokers)
      requires Leads(env, leader, up, s) && Followers(env, brokers, s.nodes)
      ensures Valid() && sys == s
    {
      hide Apart, Leads, Followers, AllSendable, P.Init, Good;
      StartSound(env, s);
      this.env, this.leader, this.up, this.brokers, sys := env, leader, up, brokers, s;
    }

    // ----- what one broker does -----

    method PublishOnLeader(op: Op, ghost s: P.System) returns (ghost a: P.Step)
      requires leader.store.env == env && Sound(env, s) && Leads(env, leader, up, s)
      requires op.partition == None && op.offset == None && Nameable(op.topic) && Sendable(env, op.message)
      modifies leader`followers, leader`followerOffsets, leader.net,
        leader.store, leader.store.disk, leader.store.partitions.Values
      ensures P.Enabled(s, a) && Leads(env, leader, up, P.Do(s, a))
      ensures a.Publish? && a.tp == Route(leader.store.cfg, op) && a.tp.topic == op.topic && a.payload == op.message
    {
      hide P.Inv, M.Represents, AppendOp, Plain, P.Losing, P.Reached, Good, S.Storage.Valid, AllSendable, AllOpenable,
        P.Broadcast, M.SentTo, Get, Next;
      S.HasPartitions(leader.store);
      ghost var (imgs, tp) := (leader.store.imgs, Route(leader.store.cfg, op));
      ghost var lost, written;
      var id, o;
      id, o, lost, written := leader.StoreAndReplicate(op);
      a := P.Publish(tp, op.message, lost, written, leader.net.inFlight);
      M.NextInLog(env, imgs, s.logs, tp);
      BroadcastIs(s, M.MessageOf(op, id, o), lost, written, leader.net.inFlight);
      M.PublishStep(env, leader.store.cfg, imgs, op, s.logs);
    }

    method RegisterOnLeader(id: BrokerId, c: Conn, ghost s: P.System) returns (ghost a: P.Step)
      requires leader.store.env == env && Sound(env, s) && Leads(env, leader, up, s)
      requires c in s.owner && s.owner[c] == id && up.At(c) != [] && up.At(c)[0].Register?
      modifies up, leader`followers, leader`followerOffsets, leader.net, leader.store, leader.store.disk
      ensures P.Enabled(s, a) && Leads(env, leader, up, P.Do(s, a))
      ensures a.HandleRegister? && a.c == c
    {
      hide P.Inv, M.Represents, S.Storage.Valid, R.Registered, R.Dropped, R.CatchUp, R.PartialCatchUp, R.IsFull,
        R.IsLastHeld, M.Openable, M.CanonicalKeys, Key, Good, AllSendable;
      assert P.Up(s, c) == up.At(c) && up.At(c)[0] in P.Up(s, c);
      CanonicalRequest(s, c);
      LogsInStore(env, leader.store.imgs, s.logs);
      ghost var imgs := leader.store.imgs;
      M.RepresentsShows(env, imgs, s.logs);
      var r := up.Read(c);
      ghost var full, held, msgs;
      var ok;
      ok, full, held, msgs := leader.RegisterFollower(id, r.offsets, c, s.logs);
      M.FullOverLogs(full, r.offsets, imgs, s.logs);
      M.RepresentsOpened(env, imgs, leader.store.imgs, s.logs);
      a := P.HandleRegister(c, full, held, msgs, ok);
      assert P.Enabled(s, a);
      forall k ensures leader.net.At(k) == P.Down(P.Do(s, a), k) && up.At(k) == P.Up(P.Do(s, a), k) {
        assert old(leader.net.At(k)) == P.Down(s, k) && old(up.At(k)) == P.Up(s, k);
      }
    }

    method HandleAckOnLeader(id: BrokerId, c: Conn, ghost s: P.System)
      requires Leads(env, leader, up, s) && c in s.owner && s.owner[c] == id && up.At(c) != [] && up.At(c)[0].Ack?
      modifies up, leader`followerOffsets
      ensures P.Enabled(s, P.HandleAck(c)) && Leads(env, leader, up, P.Do(s, P.HandleAck(c)))
    {
      hide Keeps, R.Acknowledged;
      assert P.Up(s, c) == up.At(c);
      var r := up.Read(c);
      leader.HandleReplicateAck(id, r.tp, r.offset);
      forall k
        ensures leader.net.At(k) == P.Down(P.Do(s, P.HandleAck(c)), k) && up.At(k) == P.Up(P.Do(s, P.HandleAck(c)), k)
      {
        assert old(leader.net.At(k)) == P.Down(s, k) && old(up.At(k)) == P.Up(s, k);
      }
    }

    method ConnectFollower(broker: M.ReplicationManager, id: BrokerId, c: Conn, ghost s: P.System)
      returns (ghost a: P.Step)
      requires id in s.nodes && s.nodes[id].conn == None && c !in s.owner
      requires Keeps(env, broker.store, s.nodes[id].logs) && Channels(leader.net, up, s)
      modifies up, leader.net
      ensures P.Enabled(s, a) && Channels(leader.net, up, P.Do(s, a))
      ensures a.Connect? && a.id == id && a.c == c && M.Openable(a.offsets)
    {
      hide M.Represents, M.Openable, Key, S.Storage.Owned, P.NextOffsets;
      var offsets := broker.GatherOffsets();
      ghost var imgs := broker.store.imgs;
      M.GatheredIsAnnounced(env, imgs, s.nodes[id].logs, offsets);
      M.OpenTopics(broker.store.disk.files, imgs);
      OpenableKeys(offsets, imgs);
      up.Open(c, P.Register(offsets));
      leader.net.Open(c);
      a := P.Connect(id, c, offsets);
      assert P.Enabled(s, a);
      forall k ensures leader.net.At(k) == P.Down(P.Do(s, a), k) && up.At(k) == P.Up(P.Do(s, a), k) {
        assert old(leader.net.At(k)) == P.Down(s, k) && old(up.At(k)) == P.Up(s, k);
      }
    }

    /** One message stored and, unless the follower crashes in between, acknowledged. */
    method ApplyOnFollower(broker: M.ReplicationManager, id: BrokerId, c: Conn, acked: bool, ghost s: P.System)
      requires broker.store.env == env && Sound(env, s)
      requires id in s.nodes && s.nodes[id].conn == Some(c) && leader.net.At(c) != []
      requires Keeps(env, broker.store, s.nodes[id].logs) && Channels(leader.net, up, s)
      modifies up, leader.net, broker.store, broker.store.disk, broker.store.partitions.Values
      ensures P.Enabled(s, P.Apply(id, acked))
      ensures var s' := P.Do(s, P.Apply(id, acked)); id in s'.nodes && Keeps(env, broker.store, s'.nodes[id].logs)
      ensures Channels(leader.net, up, P.Do(s, P.Apply(id, acked)))
    {
      hide P.Applied, P.Inv, Keeps, AllSendable, AllOpenable, Good;
      assert P.Down(s, c) == leader.net.At(c) && P.Up(s, c) == up.At(c);
      var m := leader.net.Read(c);
      HeadIsSendable(env, s, id, c);
      StoreOnFollower(broker, m, s.nodes[id].logs);
      if acked { up.Write(c, P.Ack(m.tp, m.rec.offset)); }
      ghost var s' := P.Do(s, P.Apply(id, acked));
      forall k ensures leader.net.At(k) == P.Down(s', k) && up.At(k) == P.Up(s', k) {
        assert old(leader.net.At(k)) == P.Down(s, k) && old(up.At(k)) == P.Up(s, k);
      }
    }

    method StoreOnFollower(broker: M.ReplicationManager, m: R.Replicate, ghost logs: R.Logs)
      requires broker.store.env == env && Good(env) && Keeps(env, broker.store, logs)
      requires Sendable(env, m.rec.payload) && Nameable(m.tp.topic)
      modifies broker.store, broker.store.disk, broker.store.partitions.Values
      ensures Keeps(env, broker.store, P.Applied(logs, m))
    {
      hide Good, M.Represents, AppendOp, P.Applied, S.Storage.Valid;
      S.HasPartitions(broker.store);
      ghost var imgs := broker.store.imgs;
      var line := M.Incoming(Some(m.tp.topic), Some(m.tp.id), Some(m.rec.offset), Some(m.rec.payload));
      M.ApplyStep(env, broker.store.cfg, imgs, line, m, logs);
      var ack := broker.Apply(line);
      assert ack == Some((m.tp, m.rec.offset as int));
    }

    // ----- the steps -----

    method PublishApart(op: Op, ghost s: P.System) returns (ghost a: P.Step)
      requires Apart(env, leader, brokers) && Sound(env, s) && Leads(env, leader, up, s)
        && Followers(env, brokers, s.nodes)
      requires op.partition == None && op.offset == None && Nameable(op.topic) && Sendable(env, op.message)
      modifies leader`followers, leader`followerOffsets, leader.net,
        leader.store, leader.store.disk, leader.store.partitions.Values
      ensures P.Enabled(s, a) && Leads(env, leader, up, P.Do(s, a)) && Followers(env, brokers, s.nodes)
      ensures a.Publish? && a.tp == Route(leader.store.cfg, op) && a.tp.topic == op.topic && a.payload == op.message
    {
      hide Sound, Leads, Keeps, Sendable, Nameable, Route, P.Enabled, P.Do, Apart;
      LeaderSeparate(env, leader, up, brokers, s);
      a := PublishOnLeader(op, s);
      forall id | id in brokers ensures Keeps(env, brokers[id].store, s.nodes[id].logs) {
        assert old(Keeps(env, brokers[id].store, s.nodes[id].logs)) && old(Separate(brokers[id].store, leader.store));
      }
    }

    /** A publish on the leader: stored and written to the followers in its table. */
    method Publish(op: Op) returns (ghost a: P.Step)
      requires Valid() && op.partition == None && op.offset == None && Nameable(op.topic) && Sendable(env, op.message)
      modifies this`sys, leader`followers, leader`followerOffsets, leader.net,
        leader.store, leader.store.disk, leader.store.partitions.Values
      ensures Valid() && P.Enabled(old(sys), a) && sys == P.Do(old(sys), a)
      ensures a.Publish? && a.tp == Route(leader.store.cfg, op) && a.payload == op.message
    {
      hide Sound, Leads, Keeps, Sendable, Nameable, Route, P.Enabled, P.Do, Apart;
      ghost var s := sys;
      a := PublishApart(op, s);
      SoundAfter(env, s, a);
      LeaderLeavesNodes(s, a);
      sys := P.Do(s, a);
    }

    method RegisterApart(id: BrokerId, c: Conn, ghost s: P.System) returns (ghost a: P.Step)
      requires Apart(env, leader, brokers) && Sound(env, s) && Leads(env, leader, up, s)
        && Followers(env, brokers, s.nodes)
      requires c in s.owner && s.owner[c] == id && up.At(c) != [] && up.At(c)[0].Register?
      modifies up, leader`followers, leader`followerOffsets, leader.net, leader.store, leader.store.disk
      ensures P.Enabled(s, a) && Leads(env, leader, up, P.Do(s, a)) && Followers(env, brokers, s.nodes)
      ensures a.HandleRegister? && a.c == c
    {
      hide Sound, Leads, Keeps, P.Enabled, P.Do, Apart;
      LeaderSeparate(env, leader, up, brokers, s);
      a := RegisterOnLeader(id, c, s);
      forall id' | id' in brokers ensures Keeps(env, brokers[id'].store, s.nodes[id'].logs) {
        assert old(Keeps(env, brokers[id'].store, s.nodes[id'].logs))
          && old(Separate(brokers[id'].store, leader.store));
      }
    }

    /** The leader takes a registration from a connection. */
    method HandleRegister(id: BrokerId, c: Conn) returns (ghost a: P.Step)
      requires Valid() && c in sys.owner && sys.owner[c] == id && up.At(c) != [] && up.At(c)[0].Register?
      modifies this`sys, up, leader`followers, leader`followerOffsets, leader.net, leader.store, leader.store.disk
      ensures Valid() && P.Enabled(old(sys), a) && sys == P.Do(old(sys), a)
      ensures a.HandleRegister? && a.c == c
    {
      hide Sound, Leads, Keeps, P.Enabled, P.Do, Apart;
      ghost var s := sys;
      a := RegisterApart(id, c, s);
      SoundAfter(env, s, a);
      LeaderLeavesNodes(s, a);
      sys := P.Do(s, a);
    }

    /** The leader takes an acknowledgement from a connection, be it the follower's current one or an earlier one. */
    method HandleAck(id: BrokerId, c: Conn)
      requires Valid() && c in sys.owner && sys.owner[c] == id && up.At(c) != [] && up.At(c)[0].Ack?
      modifies this`sys, up, leader`followerOffsets
      ensures Valid() && P.Enabled(old(sys), P.HandleAck(c)) && sys == P.Do(old(sys), P.HandleAck(c))
    {
      hide Sound, Leads, Keeps, P.Enabled, P.Do, Apart;
      ghost var (s, a) := (sys, P.HandleAck(c));
      HandleAckOnLeader(id, c, s);
      SoundAfter(env, s, a);
      LeaderLeavesNodes(s, a);
      sys := P.Do(s, a);
    }

    /** The server closes a connection. */
    method Close(id: BrokerId, c: Conn)
      requires Valid() && c in sys.owner && sys.owner[c] == id
      modifies this`sys, leader`followers
      ensures Valid() && P.Enabled(old(sys), P.CloseByLeader(c)) && sys == P.Do(old(sys), P.CloseByLeader(c))
    {
      hide Sound, Keeps, R.Closed, Apart;
      ghost var (s, a) := (sys, P.CloseByLeader(c));
      leader.Forget(id, c);
      assert P.Enabled(s, a);
      SoundAfter(env, s, a);
      sys := P.Do(s, a);
    }

    /** A follower connects and announces its next offsets. */
    method Connect(id: BrokerId, c: Conn) returns (ghost a: P.Step)
      requires Valid() && id in brokers && sys.nodes[id].conn == None && c !in sys.owner
      modifies this`sys, up, leader.net
      ensures Valid() && P.Enabled(old(sys), a) && sys == P.Do(old(sys), a)
      ensures a.Connect? && a.id == id && a.c == c
    {
      hide Sound, Keeps, Channels, P.Enabled, P.Do, M.Openable, Apart;
      ghost var s := sys;
      a := ConnectFollower(brokers[id], id, c, s);
      SoundAfter(env, s, a);
      ConnectChanges(s, a);
      sys := P.Do(s, a);
    }

    /** The message applied, the leader and the other followers left alone. */
    method ApplyApart(broker: M.ReplicationManager, id: BrokerId, c: Conn, acked: bool, ghost s: P.System)
      requires Apart(env, leader, brokers) && Sound(env, s) && Leads(env, leader, up, s)
        && Followers(env, brokers, s.nodes)
      requires id in brokers && broker == brokers[id] && s.nodes[id].conn == Some(c) && leader.net.At(c) != []
      modifies up, leader.net, broker.store, broker.store.disk, broker.store.partitions.Values
      ensures P.Enabled(s, P.Apply(id, acked))
      ensures var s' := P.Do(s, P.Apply(id, acked)); Leads(env, leader, up, s') && Followers(env, brokers, s'.nodes)
    {
      hide Sound, Keeps, Channels, P.Enabled, P.Do, Apart;
      FollowerSeparate(env, leader, up, brokers, s, id);
      ghost var s' := s;
      ApplyOnFollower(broker, id, c, acked, s);
      ApplyChanges(s, id, acked);
      s' := P.Do(s, P.Apply(id, acked));
      assert Keeps(env, leader.store, s.logs) by { assert old(Keeps(env, leader.store, s.logs)); }
      forall id' | id' in brokers ensures Keeps(env, brokers[id'].store, s'.nodes[id'].logs) {
        if id' != id {
          assert old(Keeps(env, brokers[id'].store, s.nodes[id'].logs))
            && old(Separate(brokers[id'].store, broker.store));
        }
      }
    }

    /** A follower takes the next message from its connection. */
    method Apply(id: BrokerId, c: Conn, acked: bool)
      requires Valid() && id in brokers && sys.nodes[id].conn == Some(c) && leader.net.At(c) != []
      modifies this`sys, up, leader.net, brokers[id].store, brokers[id].store.disk, brokers[id].store.partitions.Values
      ensures Valid() && P.Enabled(old(sys), P.Apply(id, acked)) && sys == P.Do(old(sys), P.Apply(id, acked))
    {
      hide Sound, Leads, Keeps, P.Enabled, P.Do, Apart;
      ghost var s := sys;
      ApplyApart(brokers[id], id, c, acked, s);
      SoundAfter(env, s, P.Apply(id, acked));
      sys := P.Do(s, P.Apply(id, acked));
    }

    /** One round of the wait of acks=all on the real stores: when it succeeds, the file of every follower in the
        leader's table gives every record of the leader's file up to the offset. */
    method PollAcks(tp: TopicPartition, offset: nat) returns (done: bool)
      requires Valid()
      ensures done <==> R.AllAcked(leader.Table(), tp, offset)
      ensures done ==> forall id :: id in leader.followers ==>
        && id in brokers && Consistent(env, brokers[id].store.imgs) && Consistent(env, leader.store.imgs)
        && var (held, log) := (Logs(env, brokers[id].store.imgs, tp), Logs(env, leader.store.imgs, tp));
           offset < |held| && offset < |log| && held[..offset + 1] == log[..offset + 1]
    {
      hide P.Inv, M.Represents, S.Storage.Valid, Consistent, Logs, R.AllAcked, Apart, Good, R.LogAt;
      done := leader.PollAcks(tp, offset);
      if done {
        M.RepresentsLog(env, leader.store.imgs, sys.logs, tp);
        forall id | id in leader.followers
          ensures id in brokers && Consistent(env, brokers[id].store.imgs)
          ensures var (held, log) := (Logs(env, brokers[id].store.imgs, tp), Logs(env, leader.store.imgs, tp));
            offset < |held| && offset < |log| && held[..offset + 1] == log[..offset + 1]
        {
          P.AckedIsHeld(sys, tp, offset, id);
          M.RepresentsLog(env, brokers[id].store.imgs, sys.nodes[id].logs, tp);
        }
      }
    }

    /** A follower loses its connection, or crashes; its store stays. */
    method Disconnect(id: BrokerId)
      requires Valid() && id in brokers
      modifies this`sys
      ensures Valid() && P.Enabled(old(sys), P.Disconnect(id)) && sys == P.Do(old(sys), P.Disconnect(id))
    {
      hide Sound, Keeps, Apart;
      ghost var (s, a) := (sys, P.Disconnect(id));
      assert P.Enabled(s, a);
      SoundAfter(env, s, a);
      sys := P.Do(s, a);
    }
  }

  // ----- stores -----

  lemma PartitionsHere(a: S.Storage)
    requires a.Valid()
    ensures forall p :: p in a.partitions.Values ==> p.disk == a.disk
  {
    hide OnDisk;
    forall p | p in a.partitions.Values ensures p.disk == a.disk {
      var tp :| tp in a.partitions && a.partitions[tp] == p;
      assert a.Shows(p, tp, a.imgs[tp]);
    }
  }

  lemma PartitionsApart(a: S.Storage, b: S.Storage)
    requires a.Valid() && b.Valid() && a.disk != b.disk
    ensures a.partitions.Values !! b.partitions.Values
  {
    PartitionsHere(a);
    PartitionsHere(b);
  }

  lemma LeaderSeparate(env: Env, leader: M.ReplicationManager, up: M.Uplink, brokers: Brokers, s: P.System)
    requires Apart(env, leader, brokers) && Leads(env, leader, up, s) && Followers(env, brokers, s.nodes)
    ensures leader.store.env == env
    ensures forall id :: id in brokers ==> Separate(brokers[id].store, leader.store)
  {
    hide M.Represents, S.Storage.Valid, Channels;
    forall id | id in brokers ensures Separate(brokers[id].store, leader.store) {
      assert Keeps(env, brokers[id].store, s.nodes[id].logs);
      PartitionsApart(brokers[id].store, leader.store);
    }
  }

  lemma FollowerSeparate(
    env: Env, leader: M.ReplicationManager, up: M.Uplink, brokers: Brokers, s: P.System, id: BrokerId)
    requires Apart(env, leader, brokers) && Leads(env, leader, up, s) && Followers(env, brokers, s.nodes)
      && id in brokers
    ensures brokers[id].store.env == env && Separate(leader.store, brokers[id].store)
    ensures forall id' :: id' in brokers && id' != id ==> Separate(brokers[id'].store, brokers[id].store)
  {
    hide M.Represents, S.Storage.Valid, Channels;
    assert Keeps(env, brokers[id].store, s.nodes[id].logs);
    PartitionsApart(leader.store, brokers[id].store);
    forall id' | id' in brokers && id' != id ensures Separate(brokers[id'].store, brokers[id].store) {
      assert Keeps(env, brokers[id'].store, s.nodes[id'].logs);
      PartitionsApart(brokers[id'].store, brokers[id].store);
    }
  }

  /** In a state of the protocol no two followers are registered on one connection. */
  lemma OneEach(s: P.System)
    requires P.Inv(s)
    ensures var f := s.tables.followers;
      forall a, b :: a in f && b in f && f[a] == f[b] ==> a == b
  {
    hide P.NodeOk, P.AllDense, P.RequestsTrue;
  }

  lemma SendableMore(env: Env, logs: R.Logs, tp: TopicPartition, payload: Json)
    requires AllSendable(env, logs) && Sendable(env, payload) && Nameable(tp.topic)
    ensures AllSendable(env, P.Published(logs, tp, payload))
  {
    hide Sendable;
    var logs' := P.Published(logs, tp, payload);
    forall tp', r | r in R.LogAt(logs', tp') ensures Sendable(env, r.payload) && Nameable(tp'.topic) {
      if r !in R.LogAt(logs, tp') { assert tp' == tp; }
    }
  }

  lemma SameRequests(s: P.System, s': P.System)
    requires AllOpenable(s) && s'.up == s.up
    ensures AllOpenable(s')
  {
    hide M.Openable;
    assert forall c :: P.Up(s', c) == P.Up(s, c);
  }

  lemma FewerRequests(s: P.System, s': P.System, c: Conn)
    requires AllOpenable(s) && P.Up(s, c) != [] && s'.up == s.up[c := P.Up(s, c)[1..]]
    ensures AllOpenable(s')
  {
    hide M.Openable;
    forall c', r | r in P.Up(s', c') && r.Register? ensures M.Openable(r.offsets) {
      assert r in P.Up(s, c');
    }
  }

  // ----- what the protocol's steps keep -----

  lemma StartSound(env: Env, s: P.System)
    requires Good(env) && P.Init(s) && AllSendable(env, s.logs)
    ensures Sound(env, s)
  {
    hide P.Inv, AllSendable, Good;
    P.InitInv(s);
  }

  /** Whatever is published is sendable, and whatever is announced can be opened. */
  predicate Fair(env: Env, a: P.Step) {
    && (a.Publish? ==> Sendable(env, a.payload) && Nameable(a.tp.topic))
    && (a.Connect? ==> M.Openable(a.offsets))
  }

  lemma SoundAfter(env: Env, s: P.System, a: P.Step)
    requires Sound(env, s) && P.Enabled(s, a) && Fair(env, a)
    ensures Sound(env, P.Do(s, a))
  {
    hide P.Inv, Good, AllSendable, AllOpenable, P.Enabled, P.Do;
    P.StepKeeps(s, a);
    LogsAfter(env, s, a);
    RequestsAfter(env, s, a);
  }

  lemma LogsAfter(env: Env, s: P.System, a: P.Step)
    requires AllSendable(env, s.logs) && P.Enabled(s, a) && Fair(env, a)
    ensures AllSendable(env, P.Do(s, a).logs)
  {
    hide AllSendable, Sendable, P.Published, P.Broadcast, P.NextOffsets, R.CatchUp, R.PartialCatchUp, R.IsFull,
      R.IsLastHeld;
    if a.Publish? { SendableMore(env, s.logs, a.tp, a.payload); }
  }

  lemma RequestsAfter(env: Env, s: P.System, a: P.Step)
    requires AllOpenable(s) && P.Enabled(s, a) && Fair(env, a)
    ensures AllOpenable(P.Do(s, a))
  {
    hide AllOpenable, M.Openable, P.Broadcast, P.NextOffsets, R.CatchUp, R.PartialCatchUp, R.IsFull, R.IsLastHeld,
      P.Applied, P.Published, R.Registered, R.Dropped, R.Closed, R.Acknowledged, P.Losing;
    var s' := P.Do(s, a);
    match a
    case HandleRegister(c, _, _, _, _) => FewerRequests(s, s', c);
    case HandleAck(c) => FewerRequests(s, s', c);
    case Connect(_, c, offsets) => OneRequest(s, s', c, P.Register(offsets));
    case Apply(id, acked) =>
      if acked {
        MoreRequests(s, s', s.nodes[id].conn.value, s'.up[s.nodes[id].conn.value]);
      } else {
        SameRequests(s, s');
      }
    case _ => SameRequests(s, s');
  }

  lemma OneRequest(s: P.System, s': P.System, c: Conn, r: P.Request)
    requires AllOpenable(s) && r.Register? && M.Openable(r.offsets) && s'.up == s.up[c := [r]]
    ensures AllOpenable(s')
  {
    hide M.Openable;
    forall c', r' | r' in P.Up(s', c') && r'.Register? ensures M.Openable(r'.offsets) {
      assert c' != c ==> P.Up(s', c') == P.Up(s, c');
    }
  }

  lemma MoreRequests(s: P.System, s': P.System, c: Conn, reqs: seq<P.Request>)
    requires AllOpenable(s) && s'.up == s.up[c := reqs] && forall r :: r in reqs ==> r in P.Up(s, c) || r.Ack?
    ensures AllOpenable(s')
  {
    hide M.Openable;
    forall c', r' | r' in P.Up(s', c') && r'.Register? ensures M.Openable(r'.offsets) {
      assert r' in P.Up(s, c');
    }
  }

  lemma BroadcastIs(
    s: P.System, m: R.Replicate, lost: set<BrokerId>, written: set<BrokerId>, down: map<Conn, seq<R.Replicate>>)
    requires P.Inv(s)
    requires forall c ::
      (if c in down then down[c] else []) == P.Down(s, c) + M.SentTo(c, s.tables, lost, written, m)
    ensures P.Broadcast(s, m, lost, written, down)
  {
    hide P.Reached, P.Down, P.Inv, M.SentTo;
    OneEach(s);
    forall c ensures (if c in down then down[c] else []) ==
      if c in P.Reached(s.tables, lost, written) then P.Down(s, c) + [m] else P.Down(s, c)
    {
      M.SentOnce(s.tables, lost, written, m, c);
      assert P.Down(s, c) + [] == P.Down(s, c);
    }
  }

  lemma LeaderLeavesNodes(s: P.System, a: P.Step)
    requires P.Enabled(s, a) && (a.Publish? || a.HandleRegister? || a.HandleAck? || a.CloseByLeader?)
    ensures P.Do(s, a).nodes == s.nodes
  {
  }

  lemma ConnectChanges(s: P.System, a: P.Step)
    requires a.Connect? && P.Enabled(s, a)
    ensures var s' := P.Do(s, a);
      && s'.logs == s.logs && s'.tables == s.tables && s'.nodes.Keys == s.nodes.Keys
      && forall id :: id in s.nodes ==> s'.nodes[id].logs == s.nodes[id].logs
  {
    hide P.NextOffsets;
  }

  lemma ApplyChanges(s: P.System, id: BrokerId, acked: bool)
    requires P.Enabled(s, P.Apply(id, acked))
    ensures var s' := P.Do(s, P.Apply(id, acked));
      && s'.logs == s.logs && s'.tables == s.tables && s'.nodes.Keys == s.nodes.Keys
      && forall other :: other in s.nodes && other != id ==> s'.nodes[other].logs == s.nodes[other].logs
  {
    hide P.Applied;
  }

  /** Followers announce keys in the form `Key` gives them. */
  lemma CanonicalRequest(s: P.System, c: Conn)
    requires P.Inv(s) && c in s.owner && P.Up(s, c) != [] && P.Up(s, c)[0].Register?
    ensures M.CanonicalKeys(P.Up(s, c)[0].offsets)
  {
    hide P.NodeOk, P.AllDense, P.Wired, Key, SplitKey;
    var r := P.Up(s, c)[0];
    assert r in P.Up(s, c);
    forall k | k in r.offsets && SplitKey(k).Some? ensures Key(SplitKey(k).value) == k {
      var tp :| k == Key(tp);
      KeyRoundTrip(tp);
    }
  }

  lemma LogsInStore(env: Env, imgs: Images, logs: R.Logs)
    requires M.Represents(env, imgs, logs)
    ensures logs.Keys <= imgs.Keys
  {
  }

  lemma OpenableKeys(offsets: map<string, int>, imgs: Images)
    requires forall k :: k in offsets ==> exists tp :: tp in imgs && k == Key(tp)
    requires forall tp :: tp in imgs ==> '/' !in tp.topic
    ensures M.Openable(offsets)
  {
    hide Key, SplitKey;
    forall k | k in offsets && SplitKey(k).Some? ensures '/' !in SplitKey(k).value.topic {
      var tp :| tp in imgs && k == Key(tp);
      KeyRoundTrip(tp);
    }
  }

  /** The next message on a live connection carries a record of the leader's log. */
  lemma HeadIsSendable(env: Env, s: P.System, id: BrokerId, c: Conn)
    requires P.Inv(s) && AllSendable(env, s.logs) && id in s.nodes && s.nodes[id].conn == Some(c) && P.Down(s, c) != []
    ensures var m := P.Down(s, c)[0]; Sendable(env, m.rec.payload) && Nameable(m.tp.topic)
  {
    hide P.AllDense, P.RequestsTrue, P.AcksTrue, P.Announces, Sendable, R.LogAt, R.Pending;
    var m := P.Down(s, c)[0];
    assert P.NodeOk(s, id);
    R.PendingHead(P.Down(s, c), m.tp);
    var (log, lead, rest) :=
      (R.LogAt(s.nodes[id].logs, m.tp), R.LogAt(s.logs, m.tp), R.Pending(P.Down(s, c)[1..], m.tp));
    assert log + ([m.rec] + rest) <= lead;
    assert (log + ([m.rec] + rest))[|log|] == m.rec;
    assert lead[|log|] == m.rec;
  }
}
