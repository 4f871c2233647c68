/** replication.py: the replication manager of a broker, on its own store and connections. */
module Replication {
  import opened Wrappers
  import opened Json
  import opened Library
  import opened LogText
  import opened LogSpec
  import opened Keys
  import opened Compression
  import opened PartitionLog
  import opened StorageSpec
  import S = Storage
  import R = ReplicationSpec
  import P = ReplicationProtocol

  type BrokerId = R.BrokerId
  type Conn = R.Conn
  type Replicate = R.Replicate

  function OnWay(inFlight: map<Conn, seq<Replicate>>, c: Conn): seq<Replicate> {
    if c in inFlight then inFlight[c] else []
  }

  /** The leader's connections to its followers. A connection may break under any write, before or after the message is
      on its way, and the write fails exactly if it has broken by then. */
  class Network {
    var inFlight: map<Conn, seq<Replicate>>
    var live: set<Conn>

    constructor ()
      ensures inFlight == map[] && live == {}
    {
      inFlight, live := map[], {};
    }

    /** What is on its way on a connection, oldest first. */
    function At(c: Conn): seq<Replicate>
      reads this`inFlight
    {
      OnWay(inFlight, c)
    }

    method Open(c: Conn)
      modifies this
      ensures inFlight == old(inFlight)[c := []] && live == old(live) + {c}
    {
      inFlight, live := inFlight[c := []], live + {c};
    }

    method Write(c: Conn, m: Replicate) returns (ok: bool, ghost written: bool)
      modifies this
      ensures ok ==> written && c in live
      ensures live == if ok then old(live) else old(live) - {c}
      ensures At(c) == old(At(c)) + if written then [m] else []
      ensures forall c' :: c' != c ==> At(c') == old(At(c'))
    {
      var breaks: bool := *;
      var arrives: bool := *;
      ok := c in live && !breaks;
      written := ok || arrives;
      if !ok { live := live - {c}; }
      if ok || arrives { inFlight := inFlight[c := At(c) + [m]]; }
    }

    method Read(c: Conn) returns (m: Replicate)
      requires At(c) != []
      modifies this`inFlight
      ensures m == old(At(c))[0] && inFlight == old(inFlight)[c := old(At(c))[1..]]
    {
      m := At(c)[0];
      inFlight := inFlight[c := At(c)[1..]];
    }
  }

  /** The followers' requests to the leader, on the same connections. */
  class Uplink {
    var requests: map<Conn, seq<P.Request>>

    constructor ()
      ensures requests == map[]
    {
      requests := map[];
    }

    function At(c: Conn): seq<P.Request>
      reads this
    {
      if c in requests then requests[c] else []
    }

    method Open(c: Conn, r: P.Request)
      modifies this
      ensures requests == old(requests)[c := [r]]
    {
      requests := requests[c := [r]];
    }

    method Write(c: Conn, r: P.Request)
      modifies this
      ensures requests == old(requests)[c := old(At(c)) + [r]]
    {
      requests := requests[c := At(c) + [r]];
    }

    method Read(c: Conn) returns (r: P.Request)
      requires At(c) != []
      modifies this
      ensures r == old(At(c))[0] && requests == old(requests)[c := old(At(c))[1..]]
    {
      r := At(c)[0];
      requests := requests[c := At(c)[1..]];
    }
  }

  /** The store's logs, as the protocol sees them. */
  ghost predicate Represents(env: Env, imgs: Images, logs: R.Logs) {
    Consistent(env, imgs) && logs.Keys <= imgs.Keys && forall tp :: R.LogAt(logs, tp) == Logs(env, imgs, tp)
  }

  /** The same of a store whose files may be torn or out of order. */
  ghost predicate Shows(env: Env, imgs: Images, logs: R.Logs) {
    logs.Keys <= imgs.Keys && forall tp :: Legible(env, imgs, tp) && R.LogAt(logs, tp) == LogIn(env, imgs, tp)
  }

  /** Offset keys as followers write them. */
  ghost predicate CanonicalKeys(offsets: map<string, int>) {
    forall k :: k in offsets && SplitKey(k).Some? ==> Key(SplitKey(k).value) == k
  }

  /** Every partition named by the keys can be a file of the log directory. */
  predicate Openable(offsets: map<string, int>) {
    forall k :: k in offsets && SplitKey(k).Some? ==> '/' !in SplitKey(k).value.topic
  }

  /** A line of the leader's stream as the follower decodes it: every field may be missing or null. */
  datatype Incoming = Incoming(topic: Option<string>, partition: Option<nat>, offset: Option<int>,
    payload: Option<Json>)

  predicate Complete(m: Incoming) {
    m.topic.Some? && m.topic.value != "" && m.partition.Some? && m.offset.Some? && m.payload.Some?
      && !m.payload.value.Null?
  }

  function OpOf(m: Incoming): Op
    requires Complete(m)
  {
    Op(m.topic.value, m.payload.value, None, m.partition, m.offset)
  }

  /** The message that carries a stored publish to the followers. */
  function MessageOf(op: Op, id: nat, o: nat): Replicate {
    R.Replicate(TopicPartition(op.topic, id), Rec(o, op.message))
  }

  ghost function Times(m: Replicate, n: nat): seq<Replicate> { if n == 0 then [] else Times(m, n - 1) + [m] }

  /** Of these followers, the ones on a connection to which the write got through. */
  ghost function WritersAmong(
    ids: set<BrokerId>, followers: map<BrokerId, Conn>, lost: set<BrokerId>, written: set<BrokerId>, c: Conn)
    : set<BrokerId>
  {
    set id | id in ids && id in followers && followers[id] == c && (id !in lost || id in written)
  }

  /** What a broadcast leaves on a connection: the message once for each follower registered on it that was written. */
  ghost function SentTo(
    c: Conn, t: R.Tables, lost: set<BrokerId>, written: set<BrokerId>, m: Replicate): seq<Replicate>
  {
    Times(m, |WritersAmong(t.followers.Keys, t.followers, lost, written, c)|)
  }

  /** The connections these followers are registered on. */
  function Conns(followers: map<BrokerId, Conn>, ids: set<BrokerId>): set<Conn> {
    set id | id in ids && id in followers :: followers[id]
  }

  class ReplicationManager {
    const store: S.Storage
    const net: Network
    var followers: map<BrokerId, Conn>
    var followerOffsets: map<BrokerId, map<string, int>>

    constructor (store: S.Storage, net: Network)
      ensures this.store == store && this.net == net && Table() == R.Tables(map[], map[])
    {
      this.store, this.net, followers, followerOffsets := store, net, map[], map[];
    }

    ghost function Table(): R.Tables
      reads this
    {
      R.Tables(followers, followerOffsets)
    }

    // ----- acknowledgements -----

    method HandleReplicateAck(id: BrokerId, tp: TopicPartition, offset: int)
      modifies this`followerOffsets
      ensures Table() == R.Acknowledged(old(Table()), id, tp, offset)
    {
      if id !in followerOffsets {
        followerOffsets := followerOffsets[id := map[]];
      }
      followerOffsets := followerOffsets[id := followerOffsets[id][Key(tp) := offset]];
    }

    /** One round of `wait_for_acks`. */
    method PollAcks(tp: TopicPartition, offset: int) returns (done: bool)
      ensures done <==> R.AllAcked(Table(), tp, offset)
      ensures offset >= 0 ==>
        (done <==> forall id :: id in followers ==>
          id in followerOffsets && Key(tp) in followerOffsets[id] && followerOffsets[id][Key(tp)] >= offset)
      ensures followers == map[] ==> done
    {
      hide Key;
      var pending := followers.Keys;
      while pending != {}
        invariant pending <= followers.Keys
        invariant forall id :: id in followers && id !in pending ==> R.Recorded(Table(), id, tp) >= offset
        decreases |pending|
      {
        var id :| id in pending;
        var held :=
          if id in followerOffsets && Key(tp) in followerOffsets[id] then followerOffsets[id][Key(tp)] else -1;
        if held < offset {
          assert R.Recorded(Table(), id, tp) < offset;
          return false;
        }
        pending := pending - {id};
      }
      return true;
    }

    // ----- broadcasting -----

    /** What a failed write on a follower's connection does to the tables. */
    method Drop(id: BrokerId, c: Conn)
      modifies this`followers, this`followerOffsets
      ensures Table() == R.Dropped(old(Table()), id, c)
      ensures var here := id in old(followers) && old(followers)[id] == c;
        && followers == (if here then old(followers) - {id} else old(followers))
        && followerOffsets == (if here then old(followerOffsets) - {id} else old(followerOffsets))
    {
      if id in followers && followers[id] == c {
        followers := followers - {id};
        followerOffsets := followerOffsets - {id};
      }
    }

    /** Writes the message to one follower, dropping it when the write fails. */
    method WriteOrDrop(id: BrokerId, c: Conn, m: Replicate) returns (ok: bool, ghost w: bool)
      modifies this`followers, this`followerOffsets, net
      ensures (ok ==> w) && Table() == if ok then old(Table()) else R.Dropped(old(Table()), id, c)
      ensures net.live == if ok then old(net.live) else old(net.live) - {c}
      ensures OnWay(net.inFlight, c) == OnWay(old(net.inFlight), c) + if w then [m] else []
      ensures forall c' :: c' != c ==> OnWay(net.inFlight, c') == OnWay(old(net.inFlight), c')
    {
      ok, w := net.Write(c, m);
      assert forall k :: net.At(k) == OnWay(net.inFlight, k) && old(net.At(k)) == OnWay(old(net.inFlight), k);
      hide OnWay, R.Dropped;
      if !ok { Drop(id, c); }
    }

    /** Writes the message to every follower in the table, dropping those whose write fails. */
    method BroadcastReplication(m: Replicate) returns (ghost lost: set<BrokerId>, ghost written: set<BrokerId>)
      modifies this`followers, this`followerOffsets, net
      ensures Table() == P.Losing(old(Table()), lost)
      ensures lost <= old(followers).Keys && net.live == old(net.live) - Conns(old(followers), lost)
      ensures forall c :: net.At(c) == old(net.At(c)) + SentTo(c, old(Table()), lost, written, m)
    {
      hide P.Losing, R.Dropped, OnWay, Times, WritersAmong, SentSoFar, Conns;
      var (snapshot, pending) := (followers, followers.Keys);
      ghost var done := {};
      lost, written := {}, {};
      LosingNone(Table());
      NoConns(snapshot);
      NobodyWrote(net.inFlight, snapshot, m);
      while pending != {}
        invariant pending == snapshot.Keys - done && done <= snapshot.Keys && lost <= done && written <= done
        invariant Table() == P.Losing(old(Table()), lost)
        invariant net.live == old(net.live) - Conns(snapshot, lost)
        invariant SentSoFar(old(net.inFlight), net.inFlight, done, snapshot, lost, written, m)
        decreases |pending|
      {
        var id :| id in pending;
        pending := pending - {id};
        ghost var (lost0, written0, between) := (lost, written, net.inFlight);
        ghost var w;
        var ok;
        LosingOne(old(Table()), lost, id);
        ConnsOneMore(snapshot, lost, id);
        ok, w := WriteOrDrop(id, snapshot[id], m);
        if w { written := written + {id}; }
        if !ok { lost := lost + {id}; }
        OneWrote(old(net.inFlight), between, net.inFlight, done, snapshot, lost0, written0, lost, written, id, w, m);
        done := done + {id};
      }
      assert done == snapshot.Keys;
      CarriedAll(old(net.inFlight), net.inFlight, snapshot, lost, written, m);
    }

    /** A publish on the leader: the new record in the store and on its way to the followers. */
    method StoreAndReplicate(op: Op)
      returns (id: nat, o: nat, ghost lost: set<BrokerId>, ghost written: set<BrokerId>)
      requires store.Valid() && '/' !in op.topic && op.offset == None
      modifies this`followers, this`followerOffsets, net, store, store.disk, store.partitions.Values
      ensures store.Valid() && store.imgs == AppendOp(store.env, store.cfg, old(store.imgs), op)
      ensures var tp := Route(store.cfg, op); id == tp.id && o == Get(old(store.imgs), tp).next
      ensures Table() == P.Losing(old(Table()), lost)
      ensures lost <= old(followers).Keys && net.live == old(net.live) - Conns(old(followers), lost)
      ensures var t := old(Table());
        forall c :: net.At(c) == old(net.At(c)) + SentTo(c, t, lost, written, MessageOf(op, id, o))
      ensures fresh(store.partitions.Values - old(store.partitions.Values))
    {
      hide OnDisk, AppendOp, P.Losing, SentTo, Network.At, Conns;
      var offset;
      id, offset := store.Append(op);
      o := offset;
      lost, written := BroadcastReplication(MessageOf(op, id, o));
    }

    /** The server closed a connection that a follower had registered on. */
    method Forget(id: BrokerId, c: Conn)
      modifies this`followers
      ensures Table() == R.Closed(old(Table()), id, c)
      ensures followers ==
        if id in old(followers) && old(followers)[id] == c then old(followers) - {id} else old(followers)
    {
      if id in followers && followers[id] == c { followers := followers - {id}; }
    }

    // ----- registering -----

    /** The follower's offsets, and 0 for each partition it does not know. */
    method FullOffsets(offsets: map<string, int>) returns (full: map<string, int>)
      ensures R.IsFull(full, offsets, store.partitions.Keys)
      ensures forall k :: k in full <==> k in offsets || exists tp :: tp in store.partitions && k == Key(tp)
    {
      hide Key;
      full := offsets;
      var pending := store.partitions.Keys;
      while pending != {}
        invariant pending <= store.partitions.Keys
        invariant forall k :: k in full <==>
          k in offsets || exists tp :: tp in store.partitions && tp !in pending && k == Key(tp)
        invariant forall k :: k in full ==> full[k] == if k in offsets then offsets[k] else 0
        decreases |pending|
      {
        var tp :| tp in pending;
        pending := pending - {tp};
        ghost var before := full;
        if Key(tp) !in full { full := full[Key(tp) := 0]; }
        assert forall k :: k in full <==> k in before || k == Key(tp);
      }
    }

    method LastHeld(full: map<string, int>) returns (held: map<string, int>)
      ensures R.IsLastHeld(held, full)
    {
      held := map[];
      var pending := full.Keys;
      while pending != {}
        invariant pending <= full.Keys && held.Keys == full.Keys - pending
        invariant forall k :: k in held ==> held[k] == full[k] - 1
        decreases |pending|
      {
        var k :| k in pending;
        pending := pending - {k};
        held := held[k := full[k] - 1];
      }
    }

    /** Sends a follower the records of one partition from an offset on. */
    method CatchUpPartition(c: Conn, tp: TopicPartition, from: int) returns (ok: bool, ghost msgs: seq<Replicate>)
      requires store.Valid() && Legible(store.env, store.imgs, tp) && '/' !in tp.topic
      modifies net, store, store.disk
      ensures store.Valid() && store.imgs == old(store.imgs)[tp := Get(old(store.imgs), tp)]
      ensures net.live == if ok then old(net.live) else old(net.live) - {c}
      ensures net.At(c) == old(net.At(c)) + msgs
      ensures forall c' :: c' != c ==> net.At(c') == old(net.At(c'))
      ensures ok ==> msgs == R.Messages(tp, R.From(LogIn(store.env, old(store.imgs), tp), from))
      ensures !ok ==> msgs <= R.Messages(tp, R.From(LogIn(store.env, old(store.imgs), tp), from))
    {
      hide Legible, Reading, LogIn, OnDisk, R.From, R.Messages, Network.At, Get;
      ghost var log := LogIn(store.env, store.imgs, tp);
      ReadingIsLog(store.env, store.imgs, tp);
      var messages := store.ReadAll(tp);
      msgs, ok := [], true;
      NothingSent(tp, log[..0], from);
      for i := 0 to |messages|
        modifies net
        invariant ok && msgs == R.Messages(tp, R.From(log[..i], from)) && net.live == old(net.live)
        invariant net.At(c) == old(net.At(c)) + msgs
        invariant forall c' :: c' != c ==> net.At(c') == old(net.At(c'))
      {
        R.FromOneMore(log, from, i);
        R.FromPrefix(log, from, i + 1);
        assert R.From(log[..i], from) + [] == R.From(log[..i], from);
        var entry := messages[i];
        assert entry == Entry(Num(log[i].offset), log[i].payload);
        if entry.offset.Num? && entry.offset.n >= from {
          var m := R.Replicate(tp, Rec(entry.offset.n, entry.message));
          ghost var w;
          ok, w := net.Write(c, m);
          MessagesPrefix(tp, R.From(log[..i], from), log[i], R.From(log, from));
          assert old(net.At(c)) + msgs + [m] == old(net.At(c)) + (msgs + [m]);
          if w { msgs := msgs + [m]; }
          if !ok { return; }
        }
      }
      assert log[..|log|] == log;
    }

    /** Catches up one key of the offset table, after `before` was sent for the keys in `done`. */
    method CatchUpKey(
      c: Conn, k: string, from: int,
      ghost full: map<string, int>, ghost done: set<string>, ghost before: seq<Replicate>, ghost logs: R.Logs)
      returns (ok: bool, ghost msgs: seq<Replicate>)
      requires store.Valid() && Shows(store.env, store.imgs, logs)
      requires k in full && from == full[k] && k !in done && (SplitKey(k).Some? ==> '/' !in SplitKey(k).value.topic)
      modifies net, store, store.disk
      ensures store.Valid() && SameFiles(old(store.imgs), store.imgs)
      ensures net.live == if ok then old(net.live) else old(net.live) - {c}
      ensures net.At(c) == old(net.At(c)) + msgs
      ensures forall c' :: c' != c ==> net.At(c') == old(net.At(c'))
      ensures CanonicalKeys(full) && R.Sending(before, full, done, logs) ==>
        if ok then R.Sending(before + msgs, full, done + {k}, logs) else R.PartialCatchUp(before + msgs, full, logs)
    {
      hide Key, SplitKey, R.From, R.Pending, OnDisk, Shows, R.Messages, R.Sending, R.PartialCatchUp, LogIn, Legible;
      var named := SplitKey(k);
      if named.None? {
        ok, msgs := true, [];
        assert before + [] == before;
        if R.Sending(before, full, done, logs) { R.SendingSkip(before, full, done, logs, k); }
      } else {
        var tp := named.value;
        ShowsLog(store.env, store.imgs, logs, tp);
        ok, msgs := CatchUpPartition(c, tp, from);
        if CanonicalKeys(full) && R.Sending(before, full, done, logs) {
          if ok {
            R.SendingStep(before, full, done, logs, tp);
          } else {
            R.SendingBreaks(before, msgs, full, done, logs, tp);
          }
        }
      }
    }

    /** Sends a follower everything its offset table asks for, key by key, until a write fails. */
    method CatchUp(c: Conn, full: map<string, int>, ghost logs: R.Logs) returns (ok: bool, ghost msgs: seq<Replicate>)
      requires store.Valid() && Shows(store.env, store.imgs, logs) && Openable(full)
      modifies net, store, store.disk
      ensures store.Valid() && SameFiles(old(store.imgs), store.imgs)
      ensures net.live == if ok then old(net.live) else old(net.live) - {c}
      ensures net.At(c) == old(net.At(c)) + msgs
      ensures forall c' :: c' != c ==> net.At(c') == old(net.At(c'))
      ensures CanonicalKeys(full) ==> if ok then R.CatchUp(msgs, full, logs) else R.PartialCatchUp(msgs, full, logs)
    {
      hide Key, SplitKey, OnDisk, Shows, R.Sending, R.CatchUp, R.PartialCatchUp, CanonicalKeys, Network.At, SameFiles;
      msgs, ok := [], true;
      var pending := full.Keys;
      ghost var (start, done) := (net.At(c), {});
      R.SendingStart(full, logs);
      assert SameFiles(store.imgs, store.imgs) by { SameFilesHere(store.imgs); }
      while pending != {}
        invariant pending == full.Keys - done && done <= full.Keys && ok
        invariant store.Valid() && Shows(store.env, store.imgs, logs) && SameFiles(old(store.imgs), store.imgs)
        invariant net.At(c) == start + msgs && net.live == old(net.live)
        invariant forall c' :: c' != c ==> net.At(c') == old(net.At(c'))
        invariant CanonicalKeys(full) ==> R.Sending(msgs, full, done, logs)
        decreases |pending|
      {
        var k :| k in pending;
        pending := pending - {k};
        ghost var more;
        ghost var between := store.imgs;
        ok, more := CatchUpKey(c, k, full[k], full, done, msgs, logs);
        ShowsOpened(store.env, between, store.imgs, logs);
        SameFilesOnward(old(store.imgs), between, store.imgs);
        assert start + msgs + more == start + (msgs + more);
        msgs := msgs + more;
        if !ok { return; }
        done := done + {k};
      }
      assert done == full.Keys;
      if CanonicalKeys(full) { R.SendingEnds(msgs, full, logs); }
    }

    /** Enters a follower in the tables. */
    method Enter(id: BrokerId, offsets: map<string, int>, c: Conn) returns (full: map<string, int>)
      requires store.Valid() && Openable(offsets)
      modifies this`followers, this`followerOffsets
      ensures R.IsFull(full, offsets, store.imgs.Keys) && id in followerOffsets
        && R.IsLastHeld(followerOffsets[id], full)
      ensures followers == old(followers)[id := c] && followerOffsets == old(followerOffsets)[id := followerOffsets[id]]
      ensures Openable(full) && (CanonicalKeys(offsets) ==> CanonicalKeys(full))
    {
      hide Key, SplitKey, OnDisk, R.IsFull, R.IsLastHeld, Openable, CanonicalKeys, S.Storage.Shows;
      OpenTopics(store.disk.files, store.imgs);
      followers := followers[id := c];
      full := FullOffsets(offsets);
      FullNames(full, offsets, store.imgs);
      var held := LastHeld(full);
      followerOffsets := followerOffsets[id := held];
    }

    /** Enters a follower in the tables and streams the records it lacks. */
    method RegisterFollower(id: BrokerId, offsets: map<string, int>, c: Conn, ghost logs: R.Logs)
      returns (ok: bool, ghost full: map<string, int>, ghost held: map<string, int>, ghost msgs: seq<Replicate>)
      requires store.Valid() && Shows(store.env, store.imgs, logs) && Openable(offsets)
      modifies this`followers, this`followerOffsets, net, store, store.disk
      ensures store.Valid() && SameFiles(old(store.imgs), store.imgs)
      ensures R.IsFull(full, offsets, old(store.imgs).Keys) && R.IsLastHeld(held, full)
      ensures Table() ==
        var t := R.Registered(old(Table()), id, c, held); if ok then t else R.Dropped(t, id, c)
      ensures followers == if ok then old(followers)[id := c] else old(followers) - {id}
      ensures followerOffsets == if ok then old(followerOffsets)[id := held] else old(followerOffsets) - {id}
      ensures net.live == if ok then old(net.live) else old(net.live) - {c}
      ensures net.At(c) == old(net.At(c)) + msgs
      ensures forall c' :: c' != c ==> net.At(c') == old(net.At(c'))
      ensures CanonicalKeys(offsets) ==> if ok then R.CatchUp(msgs, full, logs) else R.PartialCatchUp(msgs, full, logs)
    {
      hide Key, SplitKey, OnDisk, Shows, SameFiles, R.CatchUp, R.PartialCatchUp, R.IsFull, R.IsLastHeld, R.Dropped,
        Network.At, Openable, CanonicalKeys, S.Storage.Shows;
      var fullOffsets := Enter(id, offsets, c);
      full, held := fullOffsets, followerOffsets[id];
      ok, msgs := CatchUp(c, fullOffsets, logs);
      assert followers == old(followers)[id := c] && followerOffsets == old(followerOffsets)[id := held];
      assert old(followers)[id := c] - {id} == old(followers) - {id};
      assert old(followerOffsets)[id := held] - {id} == old(followerOffsets) - {id};
      if !ok { Drop(id, c); }
    }

    // ----- the follower's side -----

    /** What the follower announces when it connects. */
    method GatherOffsets() returns (offsets: map<string, int>)
      requires store.Valid()
      ensures forall tp :: tp in store.imgs ==> Key(tp) in offsets && offsets[Key(tp)] == store.imgs[tp].next
      ensures forall k :: k in offsets ==> exists tp :: tp in store.imgs && k == Key(tp)
    {
      hide Key, OnDisk;
      offsets := map[];
      var pending := store.partitions.Keys;
      while pending != {}
        invariant pending <= store.partitions.Keys
        invariant forall tp :: tp in store.imgs && tp !in pending ==>
          Key(tp) in offsets && offsets[Key(tp)] == store.imgs[tp].next
        invariant forall k :: k in offsets ==> exists tp :: tp in store.imgs && k == Key(tp)
        decreases |pending|
      {
        var tp :| tp in pending;
        pending := pending - {tp};
        assert store.Shows(store.partitions[tp], tp, store.imgs[tp]);
        forall tp' | tp' in store.imgs && Key(tp') == Key(tp) ensures tp' == tp { KeyInjective(tp', tp); }
        offsets := offsets[Key(tp) := store.partitions[tp].nextOffset];
      }
    }

    /** Applies one line of the leader's stream; the acknowledgement to send, if any. */
    method Apply(m: Incoming) returns (ack: Option<(TopicPartition, int)>)
      requires store.Valid() && (m.topic.Some? ==> '/' !in m.topic.value)
      modifies store, store.disk, store.partitions.Values
      ensures store.Valid()
      ensures store.imgs == if Complete(m) then AppendOp(store.env, store.cfg, old(store.imgs), OpOf(m))
        else old(store.imgs)
      ensures ack == if Complete(m) then Some((TopicPartition(m.topic.value, m.partition.value), m.offset.value))
        else None
      ensures ack.Some? <==>
        m.topic.Some? && m.topic.value != "" && m.partition.Some? && m.offset.Some?
        && m.payload.Some? && m.payload.value != Null
      ensures ack.None? ==> store.imgs == old(store.imgs)
    {
      if !Complete(m) { return None; }
      var id, o := store.Append(OpOf(m));
      return Some((TopicPartition(m.topic.value, m.partition.value), m.offset.value));
    }
  }

  // ----- lemmas for the methods -----

  lemma NoConns(followers: map<BrokerId, Conn>)
    ensures Conns(followers, {}) == {}
  {
  }

  lemma ConnsOneMore(followers: map<BrokerId, Conn>, ids: set<BrokerId>, id: BrokerId)
    requires id in followers
    ensures Conns(followers, ids + {id}) == Conns(followers, ids) + {followers[id]}
  {
  }

  lemma NobodyLeft(t: R.Tables, lost: set<BrokerId>)
    ensures t.followers == map[] ==> P.Losing(t, lost).followers == map[]
  {
  }

  lemma LosingNone(t: R.Tables)
    ensures P.Losing(t, {}) == t
  {
    assert t.followers - {} == t.followers && t.acked - {} == t.acked;
  }

  /** The connections after some of the followers had their turn. */
  ghost predicate SentSoFar(
    start: map<Conn, seq<Replicate>>, now: map<Conn, seq<Replicate>>, done: set<BrokerId>,
    followers: map<BrokerId, Conn>, lost: set<BrokerId>, written: set<BrokerId>, m: Replicate)
  {
    forall c :: OnWay(now, c) == OnWay(start, c) + Times(m, |WritersAmong(done, followers, lost, written, c)|)
  }

  lemma NobodyWrote(start: map<Conn, seq<Replicate>>, followers: map<BrokerId, Conn>, m: Replicate)
    ensures SentSoFar(start, start, {}, followers, {}, {}, m)
  {
    forall c ensures OnWay(start, c) == OnWay(start, c) + Times(m, |WritersAmong({}, followers, {}, {}, c)|) {
      assert WritersAmong({}, followers, {}, {}, c) == {};
      assert OnWay(start, c) + [] == OnWay(start, c);
    }
  }

  lemma CarriedAll(
    start: map<Conn, seq<Replicate>>, now: map<Conn, seq<Replicate>>, followers: map<BrokerId, Conn>,
    lost: set<BrokerId>, written: set<BrokerId>, m: Replicate)
    requires SentSoFar(start, now, followers.Keys, followers, lost, written, m)
    ensures forall c, acked ::
      OnWay(now, c) == OnWay(start, c) + SentTo(c, R.Tables(followers, acked), lost, written, m)
  {
    hide WritersAmong, OnWay, Times;
  }

  /** One more follower has had its turn. */
  lemma OneWrote(
    start: map<Conn, seq<Replicate>>, before: map<Conn, seq<Replicate>>, after: map<Conn, seq<Replicate>>,
    done: set<BrokerId>, followers: map<BrokerId, Conn>, lost: set<BrokerId>, written: set<BrokerId>,
    lost': set<BrokerId>, written': set<BrokerId>, id: BrokerId, w: bool, m: Replicate)
    requires SentSoFar(start, before, done, followers, lost, written, m)
    requires id in followers && id !in done && lost <= done && written <= done
    requires written' == (if w then written + {id} else written) && (lost' == lost + {id} || (w && lost' == lost))
    requires OnWay(after, followers[id]) == OnWay(before, followers[id]) + if w then [m] else []
    requires forall c :: c != followers[id] ==> OnWay(after, c) == OnWay(before, c)
    ensures SentSoFar(start, after, done + {id}, followers, lost', written', m)
  {
    hide OnWay;
    forall c
      ensures OnWay(after, c) == OnWay(start, c) + Times(m, |WritersAmong(done + {id}, followers, lost', written', c)|)
    {
      OneWroteTo(done, followers, lost, written, lost', written', id, w, c);
      hide WritersAmong;
      var n := |WritersAmong(done, followers, lost, written, c)|;
      assert OnWay(start, c) + Times(m, n) + [m] == OnWay(start, c) + (Times(m, n) + [m]);
      assert OnWay(before, c) + [] == OnWay(before, c);
    }
  }

  lemma OneWroteTo(
    done: set<BrokerId>, followers: map<BrokerId, Conn>, lost: set<BrokerId>, written: set<BrokerId>,
    lost': set<BrokerId>, written': set<BrokerId>, id: BrokerId, w: bool, c: Conn)
    requires id in followers && id !in done && lost <= done && written <= done
    requires written' == (if w then written + {id} else written) && (lost' == lost + {id} || (w && lost' == lost))
    ensures var (now, before) :=
        (WritersAmong(done + {id}, followers, lost', written', c), WritersAmong(done, followers, lost, written, c));
      |now| == |before| + if w && followers[id] == c then 1 else 0
  {
    var (now, before) :=
      (WritersAmong(done + {id}, followers, lost', written', c), WritersAmong(done, followers, lost, written, c));
    assert id !in before;
    forall x ensures x in now <==> x in before || (x == id && w && followers[id] == c) {
      assert x != id ==> (x in lost' <==> x in lost) && (x in written' <==> x in written);
      assert x == id ==> (x in written' <==> w) && (w || x in lost');
    }
    hide WritersAmong;
    if w && followers[id] == c {
      assert now == before + {id};
    } else {
      assert now == before;
    }
  }

  /** With one follower to a connection, the message is there once or not at all. */
  lemma SentOnce(t: R.Tables, lost: set<BrokerId>, written: set<BrokerId>, m: Replicate, c: Conn)
    requires forall a, b :: a in t.followers && b in t.followers && t.followers[a] == t.followers[b] ==> a == b
    ensures SentTo(c, t, lost, written, m) == if c in P.Reached(t, lost, written) then [m] else []
  {
    var writers := WritersAmong(t.followers.Keys, t.followers, lost, written, c);
    if c in P.Reached(t, lost, written) {
      var id :| id in t.followers && (id !in lost || id in written) && t.followers[id] == c;
      assert writers == {id};
      assert Times(m, 1) == Times(m, 0) + [m];
    } else {
      assert writers == {};
    }
  }

  lemma LosingOne(t: R.Tables, lost: set<BrokerId>, id: BrokerId)
    requires id in t.followers && id !in lost
    ensures R.Dropped(P.Losing(t, lost), id, t.followers[id]) == P.Losing(t, lost + {id})
  {
    var (a, b) := (P.Losing(t, lost), P.Losing(t, lost + {id}));
    assert a.followers - {id} == b.followers;
    assert a.acked - {id} == b.acked;
  }

  lemma ReadingIsLog(env: Env, imgs: Images, tp: TopicPartition)
    requires Legible(env, imgs, tp)
    ensures
      var (read, log) := (Reading(env, Get(imgs, tp).text), LogIn(env, imgs, tp));
      |read| == |log| && forall i :: 0 <= i < |log| ==> read[i] == Entry(Num(log[i].offset), log[i].payload)
  {
    hide FileEntries, Decompress;
  }

  lemma NothingSent(tp: TopicPartition, log: Log<Json>, from: int)
    requires log == []
    ensures R.Messages(tp, R.From(log, from)) == []
  {
  }

  lemma MessagesPrefix(tp: TopicPartition, log: Log<Json>, r: Rec<Json>, whole: Log<Json>)
    requires log + [r] <= whole
    ensures R.Messages(tp, log) + [R.Replicate(tp, r)] == R.Messages(tp, log + [r])
    ensures R.Messages(tp, log) <= R.Messages(tp, log + [r]) <= R.Messages(tp, whole)
  {
  }

  lemma OpenTopics(files: map<string, string>, imgs: Images)
    requires OnDisk(files, imgs)
    ensures forall tp :: tp in imgs ==> '/' !in tp.topic
  {
    hide FileName, Names;
  }

  lemma FullNames(full: map<string, int>, offsets: map<string, int>, imgs: Images)
    requires forall k :: k in full <==> k in offsets || exists tp :: tp in imgs && k == Key(tp)
    requires Openable(offsets) && forall tp :: tp in imgs ==> '/' !in tp.topic
    ensures Openable(full) && (CanonicalKeys(offsets) ==> CanonicalKeys(full))
  {
    hide Key, SplitKey;
    forall tp ensures SplitKey(Key(tp)) == Some(tp) { KeyRoundTrip(tp); }
  }

  lemma RepresentsLog(env: Env, imgs: Images, logs: R.Logs, tp: TopicPartition)
    requires Represents(env, imgs, logs)
    ensures Consistent(env, imgs) && R.LogAt(logs, tp) == Logs(env, imgs, tp)
  {
    hide Consistent, StorageSpec.Logs;
  }

  lemma ShowsLog(env: Env, imgs: Images, logs: R.Logs, tp: TopicPartition)
    requires Shows(env, imgs, logs)
    ensures Legible(env, imgs, tp) && R.LogAt(logs, tp) == LogIn(env, imgs, tp)
  {
    hide Legible, LogIn;
  }

  lemma ShowsOpened(env: Env, imgs: Images, imgs': Images, logs: R.Logs)
    requires Shows(env, imgs, logs) && SameFiles(imgs, imgs')
    ensures Shows(env, imgs', logs)
  {
    hide Natural, LogOf;
    forall tp ensures Legible(env, imgs', tp) && R.LogAt(logs, tp) == LogIn(env, imgs', tp) {
      assert R.LogAt(logs, tp) == LogIn(env, imgs, tp) && Get(imgs', tp) == Get(imgs, tp);
    }
  }

  lemma RepresentsShows(env: Env, imgs: Images, logs: R.Logs)
    requires Represents(env, imgs, logs)
    ensures Shows(env, imgs, logs)
  {
    hide Consistent, StorageSpec.Logs, Legible, LogIn;
    forall tp ensures Legible(env, imgs, tp) && R.LogAt(logs, tp) == LogIn(env, imgs, tp) {
      ConsistentLegible(env, imgs, tp);
      assert R.LogAt(logs, tp) == Logs(env, imgs, tp);
    }
  }

  /** Opening empty partitions leaves the logs as they are. */
  lemma RepresentsOpened(env: Env, imgs: Images, imgs': Images, logs: R.Logs)
    requires Represents(env, imgs, logs) && SameFiles(imgs, imgs')
    ensures Represents(env, imgs', logs)
  {
    hide Synced, LogOf;
    EmptySynced(env);
    forall tp | tp in imgs' ensures Synced(env, imgs'[tp]) {
      assert Get(imgs', tp) == Get(imgs, tp);
    }
    forall tp ensures R.LogAt(logs, tp) == Logs(env, imgs', tp) {
      assert R.LogAt(logs, tp) == Logs(env, imgs, tp) && Get(imgs', tp) == Get(imgs, tp);
    }
  }

  // ----- the methods take the steps of the protocol -----

  lemma RepresentsAppend(env: Env, cfg: Config, imgs: Images, op: Op, logs: R.Logs, logs': R.Logs)
    requires Good(env) && cfg.numPartitions > 0 && Represents(env, imgs, logs) && Plain(env, op.message)
    requires var tp := Route(cfg, op); logs' == logs[tp := Put(R.LogAt(logs, tp), op.offset, op.message)]
    ensures Represents(env, AppendOp(env, cfg, imgs, op), logs')
  {
    hide Consistent, StorageSpec.Logs, Appended, Put, Visible, Plain;
    var (imgs', tp) := (AppendOp(env, cfg, imgs, op), Route(cfg, op));
    AppendOpRefinesPut(env, cfg, imgs, op);
    VisiblePlain(env, op.message, cfg.setting);
    forall tp' ensures R.LogAt(logs', tp') == Logs(env, imgs', tp') {
      assert R.LogAt(logs, tp') == Logs(env, imgs, tp');
    }
  }

  /** The leader's append of a publish is the protocol's, whatever its codec and threshold. */
  lemma PublishStep(env: Env, cfg: Config, imgs: Images, op: Op, logs: R.Logs)
    requires Good(env) && cfg.numPartitions > 0 && Represents(env, imgs, logs) && Plain(env, op.message)
      && op.offset == None
    ensures Represents(env, AppendOp(env, cfg, imgs, op), P.Published(logs, Route(cfg, op), op.message))
  {
    RepresentsAppend(env, cfg, imgs, op, logs, P.Published(logs, Route(cfg, op), op.message));
  }

  /** The follower's append of the leader's message is the protocol's, whatever either side's codec and threshold. */
  lemma ApplyStep(env: Env, cfg: Config, imgs: Images, m: Incoming, r: Replicate, logs: R.Logs)
    requires Good(env) && cfg.numPartitions > 0 && Represents(env, imgs, logs) && Complete(m)
      && Plain(env, r.rec.payload)
    requires m == Incoming(Some(r.tp.topic), Some(r.tp.id), Some(r.rec.offset), Some(r.rec.payload))
    ensures Represents(env, AppendOp(env, cfg, imgs, OpOf(m)), P.Applied(logs, r))
  {
    RepresentsAppend(env, cfg, imgs, OpOf(m), logs, P.Applied(logs, r));
  }

  lemma NextInLog(env: Env, imgs: Images, logs: R.Logs, tp: TopicPartition)
    requires Represents(env, imgs, logs)
    ensures Get(imgs, tp).next == Next(R.LogAt(logs, tp))
  {
    hide Consistent, StorageSpec.Logs;
    RepresentsLog(env, imgs, logs, tp);
    NextIsLogNext(env, imgs, tp);
  }

  /** What the follower gathers is what the protocol announces. */
  lemma GatheredIsAnnounced(env: Env, imgs: Images, logs: R.Logs, offsets: map<string, int>)
    requires Represents(env, imgs, logs)
    requires forall tp :: tp in imgs ==> Key(tp) in offsets && offsets[Key(tp)] == imgs[tp].next
    requires forall k :: k in offsets ==> exists tp :: tp in imgs && k == Key(tp)
    ensures P.NextOffsets(offsets, logs)
  {
    hide Key, Consistent, StorageSpec.Logs;
    forall tp | Key(tp) in offsets ensures offsets[Key(tp)] == Next(R.LogAt(logs, tp)) {
      var tp' :| tp' in imgs && Key(tp) == Key(tp');
      KeyInjective(tp, tp');
      NextIsLogNext(env, imgs, tp);
      assert R.LogAt(logs, tp) == Logs(env, imgs, tp);
    }
  }

  /** A store that represents the leader's logs has read from its partitions what the protocol says: the table of next
      offsets covers the logs'. */
  lemma FullOverLogs(full: map<string, int>, offsets: map<string, int>, imgs: Images, logs: R.Logs)
    requires R.IsFull(full, offsets, imgs.Keys) && logs.Keys <= imgs.Keys
    ensures R.IsFull(full, offsets, logs.Keys)
  {
    hide Key;
  }
}
