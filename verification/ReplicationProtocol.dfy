/** One leader tenure, when no `drain` suspends: a publish and a registration are single steps. */
module ReplicationProtocol {
  // A publish is the append and the broadcast, a registration the tables and the catch-up. Connections are FIFO
  // channels in both directions. Followers may lose their connection at any moment and crash between appends, between
  // an append and its acknowledgement too; their logs are on disk. A crash in the middle of an append is the subject
  // of `FollowerCrash`. A closed connection's unread requests may still be handled by the leader later.

  import opened Wrappers
  import opened Json
  import opened LogSpec
  import opened Keys
  import opened ReplicationSpec

  datatype Request = Register(offsets: map<string, int>) | Ack(tp: TopicPartition, offset: nat)

  datatype Node = Node(logs: Logs, conn: Option<Conn>)

  datatype System = System(
    logs: Logs,
    tables: Tables,
    nodes: map<BrokerId, Node>,
    owner: map<Conn, BrokerId>,
    down: map<Conn, seq<Replicate>>,
    up: map<Conn, seq<Request>>)

  function Down(s: System, c: Conn): seq<Replicate> { if c in s.down then s.down[c] else [] }
  function Up(s: System, c: Conn): seq<Request> { if c in s.up then s.up[c] else [] }

  // ----- steps -----

  datatype Step =
    | Publish(tp: TopicPartition, payload: Json, lost: set<BrokerId>, written: set<BrokerId>,
      down: map<Conn, seq<Replicate>>)
    | Connect(id: BrokerId, c: Conn, offsets: map<string, int>)
    | HandleRegister(c: Conn, full: map<string, int>, held: map<string, int>, msgs: seq<Replicate>, ok: bool)
    | HandleAck(c: Conn)
    | Apply(id: BrokerId, acked: bool)
    | Disconnect(id: BrokerId)
    | CloseByLeader(c: Conn)

  ghost predicate Enabled(s: System, a: Step) {
    match a
    case Publish(tp, payload, lost, written, down) =>
      Broadcast(s, Replicate(tp, Rec(Next(LogAt(s.logs, tp)), payload)), lost, written, down)
    case Connect(id, c, offsets) =>
      id in s.nodes && s.nodes[id].conn == None && c !in s.owner && NextOffsets(offsets, s.nodes[id].logs)
    case HandleRegister(c, full, held, msgs, ok) =>
      && c in s.owner && Up(s, c) != [] && Up(s, c)[0].Register?
      && IsFull(full, Up(s, c)[0].offsets, s.logs.Keys) && IsLastHeld(held, full)
      && (if ok then CatchUp(msgs, full, s.logs) else PartialCatchUp(msgs, full, s.logs))
    case HandleAck(c) => c in s.owner && Up(s, c) != [] && Up(s, c)[0].Ack?
    case Apply(id, _) => id in s.nodes && s.nodes[id].conn.Some? && Down(s, s.nodes[id].conn.value) != []
    case Disconnect(id) => id in s.nodes
    case CloseByLeader(c) => c in s.owner
  }

  /** A follower's own next offsets, as it sends them: of every partition with records, and any others it has open. */
  ghost predicate NextOffsets(offsets: map<string, int>, logs: Logs) {
    && (forall tp :: tp in logs ==> Key(tp) in offsets)
    && (forall k :: k in offsets ==> exists tp :: k == Key(tp))
    && (forall tp :: Key(tp) in offsets ==> offsets[Key(tp)] == Next(LogAt(logs, tp)))
  }

  /** The message reaches every follower's connection except where the write failed before it got there. */
  ghost predicate Broadcast(
    s: System, m: Replicate, lost: set<BrokerId>, written: set<BrokerId>, down: map<Conn, seq<Replicate>>)
  {
    forall c :: (if c in down then down[c] else []) ==
      if c in Reached(s.tables, lost, written) then Down(s, c) + [m] else Down(s, c)
  }

  function Reached(t: Tables, lost: set<BrokerId>, written: set<BrokerId>): set<Conn> {
    set id | id in t.followers && (id !in lost || id in written) :: t.followers[id]
  }

  /** After a broadcast whose writes to some followers failed. */
  function Losing(t: Tables, lost: set<BrokerId>): Tables {
    Tables(t.followers - (lost * t.followers.Keys), t.acked - (lost * t.followers.Keys))
  }

  function SetNode(s: System, id: BrokerId, n: Node): System { s.(nodes := s.nodes[id := n]) }

  /** `storage.append` of a new payload on the leader. */
  function Published(logs: Logs, tp: TopicPartition, payload: Json): Logs {
    logs[tp := Put(LogAt(logs, tp), None, payload)]
  }

  /** `storage.append` with the leader's offset, for one replicate message. */
  function Applied(logs: Logs, m: Replicate): Logs {
    logs[m.tp := Put(LogAt(logs, m.tp), Some(m.rec.offset), m.rec.payload)]
  }

  ghost function Do(s: System, a: Step): System
    requires Enabled(s, a)
  {
    match a
    case Publish(tp, payload, lost, written, down) =>
      s.(logs := Published(s.logs, tp, payload), down := down, tables := Losing(s.tables, lost))
    case Connect(id, c, offsets) =>
      SetNode(s, id, s.nodes[id].(conn := Some(c))).(
        owner := s.owner[c := id], down := s.down[c := []], up := s.up[c := [Register(offsets)]])
    case HandleRegister(c, full, held, msgs, ok) =>
      var id := s.owner[c];
      var t := Registered(s.tables, id, c, held);
      s.(tables := if ok then t else Dropped(t, id, c),
         down := s.down[c := Down(s, c) + msgs],
         up := s.up[c := Up(s, c)[1..]])
    case HandleAck(c) =>
      s.(tables := Acknowledged(s.tables, s.owner[c], Up(s, c)[0].tp, Up(s, c)[0].offset),
         up := s.up[c := Up(s, c)[1..]])
    case Apply(id, acked) =>
      var n := s.nodes[id];
      var c := n.conn.value;
      var m := Down(s, c)[0];
      var s' := SetNode(s, id, Node(Applied(n.logs, m), if acked then n.conn else None)).(
        down := s.down[c := Down(s, c)[1..]]);
      if acked then s'.(up := s.up[c := Up(s, c) + [Ack(m.tp, m.rec.offset)]]) else s'
    case Disconnect(id) => SetNode(s, id, s.nodes[id].(conn := None))
    case CloseByLeader(c) => s.(tables := Closed(s.tables, s.owner[c], c))
  }

  // ----- the invariant -----

  ghost predicate AllDense(logs: Logs) { forall tp :: Dense(LogAt(logs, tp)) }

  /** A follower's logs are prefixes of the leader's. */
  ghost predicate Prefix(logs: Logs, leader: Logs) { forall tp :: LogAt(logs, tp) <= LogAt(leader, tp) }

  /** Recorded acknowledgements are below what the follower holds. */
  ghost predicate AcksTrue(t: Tables, id: BrokerId, logs: Logs) {
    forall tp :: Recorded(t, id, tp) < |LogAt(logs, tp)|
  }

  ghost predicate RequestTrue(r: Request, logs: Logs) {
    match r
    case Ack(tp, offset) => offset < |LogAt(logs, tp)|
    case Register(offsets) =>
      && (forall k :: k in offsets ==> exists tp :: k == Key(tp))
      && (forall tp :: Key(tp) in offsets ==> offsets[Key(tp)] <= |LogAt(logs, tp)|)
  }

  ghost predicate RequestsTrue(reqs: seq<Request>, logs: Logs) { forall r :: r in reqs ==> RequestTrue(r, logs) }

  /** What is on the way to a follower continues its logs. */
  ghost predicate Continues(logs: Logs, msgs: seq<Replicate>, leader: Logs) {
    forall tp :: LogAt(logs, tp) + Pending(msgs, tp) <= LogAt(leader, tp)
  }

  /** What is on the way to a follower brings its logs level with the leader's. */
  ghost predicate Completes(logs: Logs, msgs: seq<Replicate>, leader: Logs) {
    forall tp :: LogAt(logs, tp) + Pending(msgs, tp) == LogAt(leader, tp)
  }

  ghost predicate Announces(offsets: map<string, int>, logs: Logs) {
    forall tp :: (if Key(tp) in offsets then offsets[Key(tp)] else 0) == |LogAt(logs, tp)|
  }

  predicate IsRegistered(t: Tables, id: BrokerId, c: Conn) { id in t.followers && t.followers[id] == c }

  predicate Waiting(reqs: seq<Request>) { reqs != [] && reqs[0].Register? }

  /** The live connection of a follower: waiting to be registered with its own offsets, or past that. */
  ghost predicate Session(logs: Logs, msgs: seq<Replicate>, reqs: seq<Request>, registered: bool, leader: Logs) {
    && Continues(logs, msgs, leader)
    && (registered ==> Completes(logs, msgs, leader))
    && (if Waiting(reqs) then Announces(reqs[0].offsets, logs) && msgs == [] && |reqs| == 1 && !registered
        else forall r :: r in reqs ==> r.Ack?)
  }

  ghost predicate NodeOk(s: System, id: BrokerId)
    requires id in s.nodes
  {
    var n := s.nodes[id];
    && Prefix(n.logs, s.logs)
    && AcksTrue(s.tables, id, n.logs)
    && (n.conn.Some? ==>
          var c := n.conn.value;
          c in s.owner && s.owner[c] == id
          && Session(n.logs, Down(s, c), Up(s, c), IsRegistered(s.tables, id, c), s.logs))
  }

  ghost predicate Wired(s: System) {
    && (forall c :: c in s.owner ==> s.owner[c] in s.nodes)
    && (forall id :: id in s.tables.followers ==>
          id in s.nodes && s.tables.followers[id] in s.owner && s.owner[s.tables.followers[id]] == id)
  }

  ghost predicate Inv(s: System) {
    && AllDense(s.logs)
    && Wired(s)
    && (forall id :: id in s.nodes ==> NodeOk(s, id))
    && (forall c :: c in s.owner ==> RequestsTrue(Up(s, c), s.nodes[s.owner[c]].logs))
  }

  /** The start of a tenure: no connections yet, follower logs are prefixes of the leader's. */
  ghost predicate Init(s: System) {
    && AllDense(s.logs)
    && s.tables == Tables(map[], map[]) && s.owner == map[] && s.down == map[] && s.up == map[]
    && (forall id :: id in s.nodes ==> s.nodes[id].conn == None && Prefix(s.nodes[id].logs, s.logs))
  }

  // ----- every step keeps the invariant -----

  lemma InitInv(s: System)
    requires Init(s)
    ensures Inv(s)
  {
    hide Key, Dense;
  }

  /** A follower log that is a prefix of a dense leader log is dense, and its next offset is its length. */
  lemma PrefixDense(log: Log<Json>, leader: Log<Json>)
    requires log <= leader && Dense(leader)
    ensures Dense(log) && Next(log) == |log|
  {
  }

  lemma DisconnectKeeps(s: System, id: BrokerId)
    requires Inv(s) && id in s.nodes
    ensures Inv(SetNode(s, id, s.nodes[id].(conn := None)))
  {
    hide AllDense, Prefix, AcksTrue, RequestsTrue, Session;
    var s' := SetNode(s, id, s.nodes[id].(conn := None));
    forall id' | id' in s'.nodes ensures NodeOk(s', id') {
      assert NodeOk(s, id');
    }
  }

  lemma FewerFollowers(t: Tables, id: BrokerId, c: Conn, id': BrokerId, logs: Logs)
    requires AcksTrue(t, id', logs)
    ensures AcksTrue(Closed(t, id, c), id', logs) && AcksTrue(Dropped(t, id, c), id', logs)
  {
    hide Key, LogAt;
    forall tp ensures Recorded(Closed(t, id, c), id', tp) < |LogAt(logs, tp)| {
      assert Recorded(t, id', tp) < |LogAt(logs, tp)|;
    }
    forall tp ensures Recorded(Dropped(t, id, c), id', tp) < |LogAt(logs, tp)| {
      assert Recorded(t, id', tp) < |LogAt(logs, tp)|;
    }
  }

  lemma SessionDropped(logs: Logs, msgs: seq<Replicate>, reqs: seq<Request>, registered: bool, leader: Logs)
    requires Session(logs, msgs, reqs, registered, leader)
    ensures Session(logs, msgs, reqs, false, leader)
  {
    hide Continues, Completes, Announces;
  }

  lemma CloseKeeps(s: System, c: Conn)
    requires Inv(s) && c in s.owner
    ensures Inv(s.(tables := Closed(s.tables, s.owner[c], c)))
  {
    hide AllDense, Prefix, AcksTrue, RequestsTrue, Session;
    var s' := s.(tables := Closed(s.tables, s.owner[c], c));
    forall id' | id' in s'.nodes ensures NodeOk(s', id') {
      var n := s.nodes[id'];
      assert NodeOk(s, id');
      FewerFollowers(s.tables, s.owner[c], c, id', n.logs);
      if n.conn.Some? {
        SessionDropped(n.logs, Down(s, n.conn.value), Up(s, n.conn.value), IsRegistered(s.tables, id', n.conn.value),
          s.logs);
      }
    }
  }

  lemma AckTaken(t: Tables, id: BrokerId, r: Request, logs: Logs, id': BrokerId, logs': Logs)
    requires r.Ack? && RequestTrue(r, logs) && AcksTrue(t, id', logs') && (id' == id ==> logs' == logs)
    ensures AcksTrue(Acknowledged(t, id, r.tp, r.offset), id', logs')
  {
    hide Key, LogAt, Recorded, Acknowledged;
    forall tp ensures Recorded(Acknowledged(t, id, r.tp, r.offset), id', tp) < |LogAt(logs', tp)| {
      RecordedAfterAck(t, id, r.tp, r.offset, id', tp);
      assert Recorded(t, id', tp) < |LogAt(logs', tp)|;
    }
  }

  lemma SessionPops(logs: Logs, msgs: seq<Replicate>, reqs: seq<Request>, registered: bool, leader: Logs)
    requires Session(logs, msgs, reqs, registered, leader) && reqs != [] && reqs[0].Ack?
    ensures Session(logs, msgs, reqs[1..], registered, leader)
  {
    hide Continues, Completes, Announces;
    if reqs[1..] != [] { assert reqs[1] in reqs; }
  }

  lemma RequestsTail(reqs: seq<Request>, logs: Logs)
    requires RequestsTrue(reqs, logs) && reqs != []
    ensures RequestsTrue(reqs[1..], logs) && RequestTrue(reqs[0], logs)
  {
    hide RequestTrue;
  }

  lemma AckKeeps(s: System, c: Conn)
    requires Inv(s) && Enabled(s, HandleAck(c))
    ensures Inv(Do(s, HandleAck(c)))
  {
    hide AllDense, Prefix, AcksTrue, RequestsTrue, RequestTrue, Session;
    var s' := Do(s, HandleAck(c));
    var (id, r) := (s.owner[c], Up(s, c)[0]);
    RequestsTail(Up(s, c), s.nodes[id].logs);
    forall id' | id' in s'.nodes ensures NodeOk(s', id') {
      var n := s.nodes[id'];
      assert NodeOk(s, id');
      AckTaken(s.tables, id, r, s.nodes[id].logs, id', n.logs);
      if n.conn == Some(c) { SessionPops(n.logs, Down(s, c), Up(s, c), IsRegistered(s.tables, id', c), s.logs); }
    }
  }

  lemma NextOffsetsAnnounce(offsets: map<string, int>, logs: Logs, leader: Logs)
    requires NextOffsets(offsets, logs) && Prefix(logs, leader) && AllDense(leader)
    ensures Announces(offsets, logs) && RequestTrue(Register(offsets), logs)
  {
    hide Key, Dense, Next;
    forall tp ensures (if Key(tp) in offsets then offsets[Key(tp)] else 0) == |LogAt(logs, tp)| {
      PrefixDense(LogAt(logs, tp), LogAt(leader, tp));
    }
  }

  lemma SessionStarts(offsets: map<string, int>, logs: Logs, leader: Logs)
    requires Announces(offsets, logs) && Prefix(logs, leader)
    ensures Session(logs, [], [Register(offsets)], false, leader)
  {
    hide Announces, Completes;
    forall tp ensures LogAt(logs, tp) + Pending([], tp) <= LogAt(leader, tp) {
      assert LogAt(logs, tp) + [] == LogAt(logs, tp);
    }
  }

  lemma ConnectKeeps(s: System, id: BrokerId, c: Conn, offsets: map<string, int>)
    requires Inv(s) && Enabled(s, Connect(id, c, offsets))
    ensures Inv(Do(s, Connect(id, c, offsets)))
  {
    hide AllDense, Prefix, AcksTrue, RequestTrue, Session, NextOffsets, Announces;
    var s' := Do(s, Connect(id, c, offsets));
    assert NodeOk(s, id);
    NextOffsetsAnnounce(offsets, s.nodes[id].logs, s.logs);
    SessionStarts(offsets, s.nodes[id].logs, s.logs);
    forall id' | id' in s'.nodes ensures NodeOk(s', id') {
      assert NodeOk(s, id');
    }
    forall c' | c' in s'.owner ensures RequestsTrue(Up(s', c'), s'.nodes[s'.owner[c']].logs) {
      assert c' != c ==> Up(s', c') == Up(s, c');
    }
  }

  // ----- registration -----

  lemma RegistrationAcksTrue(
    t: Tables, id: BrokerId, c: Conn, offsets: map<string, int>, tps: set<TopicPartition>,
    full: map<string, int>, held: map<string, int>, logs: Logs, id': BrokerId, logs': Logs)
    requires IsFull(full, offsets, tps) && IsLastHeld(held, full)
    requires RequestTrue(Register(offsets), logs) && AcksTrue(t, id', logs') && (id' == id ==> logs' == logs)
    ensures AcksTrue(Registered(t, id, c, held), id', logs')
  {
    hide Key, LogAt, Recorded, Registered, IsLastHeld;
    forall tp ensures Recorded(Registered(t, id, c, held), id', tp) < |LogAt(logs', tp)| {
      RecordedAfterRegister(t, id, c, full, held, id', tp);
      assert Recorded(t, id', tp) < |LogAt(logs', tp)|;
    }
  }

  /** What a live follower's registration asks for is exactly what its logs lack. */
  lemma WantedIsMissing(
    offsets: map<string, int>, full: map<string, int>, logs: Logs, leader: Logs, tp: TopicPartition)
    requires IsFull(full, offsets, leader.Keys)
    requires Announces(offsets, logs) && Prefix(logs, leader) && AllDense(leader)
    ensures Wanted(full, leader, tp) == LogAt(leader, tp)[|LogAt(logs, tp)|..]
  {
    hide Key, Dense, From;
    assert LogAt(logs, tp) <= LogAt(leader, tp) && Dense(LogAt(leader, tp));
    assert (if Key(tp) in offsets then offsets[Key(tp)] else 0) == |LogAt(logs, tp)|;
    FromDense(LogAt(leader, tp), |LogAt(logs, tp)|);
    assert tp in leader ==> Key(tp) in full;
  }

  lemma SessionRegistered(
    logs: Logs, msgs: seq<Replicate>, reqs: seq<Request>, leader: Logs, full: map<string, int>, more: seq<Replicate>,
      ok: bool)
    requires Session(logs, msgs, reqs, false, leader) && Waiting(reqs) && Prefix(logs, leader) && AllDense(leader)
    requires IsFull(full, reqs[0].offsets, leader.Keys)
    requires if ok then CatchUp(more, full, leader) else PartialCatchUp(more, full, leader)
    ensures Session(logs, msgs + more, reqs[1..], ok, leader)
  {
    hide Key, Dense, Pending, LogAt, Announces, IsFull, Wanted;
    assert msgs + more == more;
    forall tp ensures LogAt(logs, tp) + Pending(more, tp) <= LogAt(leader, tp) {
      WantedIsMissing(reqs[0].offsets, full, logs, leader, tp);
      assert LogAt(logs, tp) <= LogAt(leader, tp);
      assert LogAt(leader, tp) == LogAt(logs, tp) + LogAt(leader, tp)[|LogAt(logs, tp)|..];
      assert ok ==> Pending(more, tp) == Wanted(full, leader, tp);
      assert !ok ==> Pending(more, tp) <= Wanted(full, leader, tp);
    }
    if ok {
      forall tp ensures LogAt(logs, tp) + Pending(more, tp) == LogAt(leader, tp) {
        WantedIsMissing(reqs[0].offsets, full, logs, leader, tp);
        assert LogAt(logs, tp) <= LogAt(leader, tp);
        assert LogAt(leader, tp) == LogAt(logs, tp) + LogAt(leader, tp)[|LogAt(logs, tp)|..];
      }
    }
  }

  lemma RegisterKeeps(
    s: System, c: Conn, full: map<string, int>, held: map<string, int>, msgs: seq<Replicate>, ok: bool)
    requires Inv(s) && Enabled(s, HandleRegister(c, full, held, msgs, ok))
    ensures Inv(Do(s, HandleRegister(c, full, held, msgs, ok)))
  {
    hide AllDense, Prefix, AcksTrue, RequestTrue, RequestsTrue, Session, CatchUp, PartialCatchUp, IsFull, IsLastHeld;
    var s' := Do(s, HandleRegister(c, full, held, msgs, ok));
    var (id, reqs) := (s.owner[c], Up(s, c));
    var t := Registered(s.tables, id, c, held);
    RequestsTail(reqs, s.nodes[id].logs);
    forall id' | id' in s'.nodes ensures NodeOk(s', id') {
      var n := s.nodes[id'];
      assert NodeOk(s, id');
      RegistrationAcksTrue(s.tables, id, c, reqs[0].offsets, s.logs.Keys, full, held, s.nodes[id].logs, id', n.logs);
      FewerFollowers(t, id, c, id', n.logs);
      if n.conn == Some(c) {
        SessionWaits(n.logs, Down(s, c), reqs, IsRegistered(s.tables, id', c), s.logs);
        SessionRegistered(n.logs, Down(s, c), reqs, s.logs, full, msgs, ok);
      } else if n.conn.Some? {
        SessionDropped(n.logs, Down(s, n.conn.value), Up(s, n.conn.value), IsRegistered(s.tables, id', n.conn.value),
          s.logs);
      }
    }
  }

  lemma SessionWaits(logs: Logs, msgs: seq<Replicate>, reqs: seq<Request>, registered: bool, leader: Logs)
    requires Session(logs, msgs, reqs, registered, leader) && Waiting(reqs)
    ensures !registered
  {
    hide Continues, Completes, Announces;
  }

  // ----- applying one message -----

  lemma NextInLine(log: Log<Json>, r: Rec<Json>, rest: seq<Rec<Json>>, lead: Log<Json>)
    requires Dense(lead) && log + ([r] + rest) <= lead
    ensures r.offset == |log| && Put(log, Some(r.offset), r.payload) == log + [r]
    ensures log + [r] + rest == log + ([r] + rest)
  {
    assert (log + ([r] + rest))[|log|] == r;
    PrefixDense(log, lead);
  }

  /** The next message continues the follower's log by exactly its record. */
  lemma AppliedContinues(logs: Logs, msgs: seq<Replicate>, leader: Logs)
    requires msgs != [] && Continues(logs, msgs, leader) && AllDense(leader)
    ensures var (logs', m) := (Applied(logs, msgs[0]), msgs[0]);
      && LogAt(logs', m.tp) == LogAt(logs, m.tp) + [m.rec]
      && m.rec.offset == |LogAt(logs, m.tp)|
      && forall tp :: LogAt(logs', tp) + Pending(msgs[1..], tp) == LogAt(logs, tp) + Pending(msgs, tp)
  {
    hide Pending, Dense, Put, Next;
    var m := msgs[0];
    PendingHead(msgs, m.tp);
    assert LogAt(logs, m.tp) + Pending(msgs, m.tp) <= LogAt(leader, m.tp) && Dense(LogAt(leader, m.tp));
    NextInLine(LogAt(logs, m.tp), m.rec, Pending(msgs[1..], m.tp), LogAt(leader, m.tp));
    forall tp | tp != m.tp ensures Pending(msgs[1..], tp) == Pending(msgs, tp) { PendingHead(msgs, tp); }
  }

  ghost predicate Grows(logs: Logs, logs': Logs) { forall tp :: LogAt(logs, tp) <= LogAt(logs', tp) }

  lemma GrowsKeeps(t: Tables, id: BrokerId, reqs: seq<Request>, logs: Logs, logs': Logs)
    requires Grows(logs, logs')
    ensures AcksTrue(t, id, logs) ==> AcksTrue(t, id, logs')
    ensures RequestsTrue(reqs, logs) ==> RequestsTrue(reqs, logs')
  {
    hide Key, LogAt, Recorded;
    forall tp ensures |LogAt(logs, tp)| <= |LogAt(logs', tp)| { assert LogAt(logs, tp) <= LogAt(logs', tp); }
  }

  lemma SessionApplies(logs: Logs, msgs: seq<Replicate>, reqs: seq<Request>, registered: bool, leader: Logs)
    requires msgs != [] && Session(logs, msgs, reqs, registered, leader) && AllDense(leader)
    ensures var (logs', m) := (Applied(logs, msgs[0]), msgs[0]);
      && Grows(logs, logs') && Prefix(logs', leader)
      && RequestTrue(Ack(m.tp, m.rec.offset), logs')
      && Session(logs', msgs[1..], reqs + [Ack(m.tp, m.rec.offset)], registered, leader)
  {
    hide Pending, LogAt, Applied, Announces;
    var (logs', m) := (Applied(logs, msgs[0]), msgs[0]);
    AppliedContinues(logs, msgs, leader);
    forall tp ensures LogAt(logs, tp) <= LogAt(logs', tp) && LogAt(logs', tp) <= LogAt(leader, tp) {
      AppliedGrows(logs, m, tp);
      assert LogAt(logs, tp) + Pending(msgs, tp) <= LogAt(leader, tp);
      assert LogAt(logs', tp) <= LogAt(logs', tp) + Pending(msgs[1..], tp);
    }
  }

  lemma AppliedGrows(logs: Logs, m: Replicate, tp: TopicPartition)
    ensures LogAt(logs, tp) <= LogAt(Applied(logs, m), tp)
  {
  }

  lemma ApplyKeeps(s: System, id: BrokerId, acked: bool)
    requires Inv(s) && Enabled(s, Apply(id, acked))
    ensures Inv(Do(s, Apply(id, acked)))
  {
    hide AllDense, Prefix, AcksTrue, RequestTrue, RequestsTrue, Session, Grows, Applied;
    var s' := Do(s, Apply(id, acked));
    var n := s.nodes[id];
    var c := n.conn.value;
    assert NodeOk(s, id);
    var m := Down(s, c)[0];
    var logs' := Applied(n.logs, m);
    SessionApplies(n.logs, Down(s, c), Up(s, c), IsRegistered(s.tables, id, c), s.logs);
    forall id' | id' in s'.nodes ensures NodeOk(s', id') {
      assert NodeOk(s, id');
      GrowsKeeps(s.tables, id, [], n.logs, logs');
    }
    forall c' | c' in s'.owner ensures RequestsTrue(Up(s', c'), s'.nodes[s'.owner[c']].logs) {
      GrowsKeeps(s.tables, id, Up(s, c'), n.logs, logs');
      if c' == c && acked { RequestsOneMore(Up(s, c), Ack(m.tp, m.rec.offset), logs'); }
    }
  }

  lemma RequestsOneMore(reqs: seq<Request>, r: Request, logs: Logs)
    requires RequestsTrue(reqs, logs) && RequestTrue(r, logs)
    ensures RequestsTrue(reqs + [r], logs)
  {
    hide RequestTrue;
  }

  // ----- publishing -----

  lemma PublishedDense(leader: Logs, tp: TopicPartition, payload: Json)
    requires AllDense(leader)
    ensures AllDense(Published(leader, tp, payload)) && Grows(leader, Published(leader, tp, payload))
  {
    forall tp' ensures Dense(LogAt(Published(leader, tp, payload), tp')) { assert Dense(LogAt(leader, tp')); }
  }

  lemma PrefixGrows(logs: Logs, leader: Logs, leader': Logs)
    requires Prefix(logs, leader) && Grows(leader, leader')
    ensures Prefix(logs, leader')
  {
    hide LogAt;
    forall tp ensures LogAt(logs, tp) <= LogAt(leader', tp) {
      assert LogAt(logs, tp) <= LogAt(leader, tp) && LogAt(leader, tp) <= LogAt(leader', tp);
    }
  }

  lemma ContinuesGrows(logs: Logs, msgs: seq<Replicate>, leader: Logs, leader': Logs)
    requires Continues(logs, msgs, leader) && Grows(leader, leader')
    ensures Continues(logs, msgs, leader')
  {
    hide LogAt, Pending;
    forall tp ensures LogAt(logs, tp) + Pending(msgs, tp) <= LogAt(leader', tp) {
      assert LogAt(logs, tp) + Pending(msgs, tp) <= LogAt(leader, tp) && LogAt(leader, tp) <= LogAt(leader', tp);
    }
  }

  /** A published record sent to a follower that was level keeps it level. */
  lemma CompletesGrows(logs: Logs, msgs: seq<Replicate>, leader: Logs, tp: TopicPartition, payload: Json)
    requires Completes(logs, msgs, leader)
    ensures Completes(logs, msgs + [Replicate(tp, Rec(Next(LogAt(leader, tp)), payload))],
      Published(leader, tp, payload))
  {
    hide Pending, Next;
    var m := Replicate(tp, Rec(Next(LogAt(leader, tp)), payload));
    forall tp' ensures LogAt(logs, tp') + Pending(msgs + [m], tp') == LogAt(Published(leader, tp, payload), tp') {
      PendingAppend(msgs, m, tp');
      assert LogAt(logs, tp') + Pending(msgs, tp') == LogAt(leader, tp');
      assert LogAt(logs, tp') + (Pending(msgs, tp') + [m.rec]) == LogAt(logs, tp') + Pending(msgs, tp') + [m.rec];
    }
  }

  lemma CompletesContinues(logs: Logs, msgs: seq<Replicate>, leader: Logs)
    requires Completes(logs, msgs, leader)
    ensures Continues(logs, msgs, leader)
  {
    hide LogAt, Pending;
  }

  lemma SessionPublishes(
    logs: Logs, msgs: seq<Replicate>, reqs: seq<Request>, registered: bool, leader: Logs,
    tp: TopicPartition, payload: Json, sent: bool, still: bool)
    requires Session(logs, msgs, reqs, registered, leader) && AllDense(leader)
    requires (sent ==> registered) && (still ==> sent)
    ensures var m := Replicate(tp, Rec(Next(LogAt(leader, tp)), payload));
      Session(logs, if sent then msgs + [m] else msgs, reqs, still, Published(leader, tp, payload))
  {
    hide Announces, Completes, Continues, Published, Next, LogAt;
    PublishedDense(leader, tp, payload);
    if sent {
      CompletesGrows(logs, msgs, leader, tp, payload);
      CompletesContinues(logs, msgs + [Replicate(tp, Rec(Next(LogAt(leader, tp)), payload))],
        Published(leader, tp, payload));
    } else {
      ContinuesGrows(logs, msgs, leader, Published(leader, tp, payload));
    }
  }

  lemma TablesShrink(t: Tables, lost: set<BrokerId>, id: BrokerId, logs: Logs)
    requires AcksTrue(t, id, logs)
    ensures AcksTrue(Losing(t, lost), id, logs)
  {
    hide Key, LogAt;
    forall tp ensures Recorded(Losing(t, lost), id, tp) < |LogAt(logs, tp)| {
      assert Recorded(t, id, tp) < |LogAt(logs, tp)|;
    }
  }

  /** A broadcast reaches a live connection exactly when its follower is registered on it and the write got through. */
  lemma BroadcastReaches(s: System, lost: set<BrokerId>, written: set<BrokerId>, id: BrokerId, c: Conn)
    requires Wired(s) && c in s.owner && s.owner[c] == id
    ensures c in Reached(s.tables, lost, written) <==> IsRegistered(s.tables, id, c) && (id !in lost || id in written)
  {
  }

  lemma PublishKeeps(
    s: System, tp: TopicPartition, payload: Json, lost: set<BrokerId>, written: set<BrokerId>,
      down: map<Conn, seq<Replicate>>)
    requires Inv(s) && Enabled(s, Publish(tp, payload, lost, written, down))
    ensures Inv(Do(s, Publish(tp, payload, lost, written, down)))
  {
    hide AllDense, Prefix, AcksTrue, RequestsTrue, Session, Grows, Put, Next, Reached;
    var s' := Do(s, Publish(tp, payload, lost, written, down));
    var m := Replicate(tp, Rec(Next(LogAt(s.logs, tp)), payload));
    PublishedDense(s.logs, tp, payload);
    forall id | id in s'.nodes ensures NodeOk(s', id) {
      var n := s.nodes[id];
      assert NodeOk(s, id);
      PrefixGrows(n.logs, s.logs, s'.logs);
      TablesShrink(s.tables, lost, id, n.logs);
      if n.conn.Some? {
        var c := n.conn.value;
        var registered := IsRegistered(s.tables, id, c);
        BroadcastReaches(s, lost, written, id, c);
        assert Down(s', c) == if c in Reached(s.tables, lost, written) then Down(s, c) + [m] else Down(s, c);
        SessionPublishes(n.logs, Down(s, c), Up(s, c), registered, s.logs, tp, payload,
          registered && (id !in lost || id in written), registered && id !in lost);
      }
    }
  }

  // ----- the theorems, over every run -----

  lemma StepKeeps(s: System, a: Step)
    requires Inv(s) && Enabled(s, a)
    ensures Inv(Do(s, a))
  {
    hide Inv, Enabled, Do;
    match a
    case Publish(tp, payload, lost, written, down) => PublishKeeps(s, tp, payload, lost, written, down);
    case Connect(id, c, offsets) => ConnectKeeps(s, id, c, offsets);
    case HandleRegister(c, full, held, msgs, ok) => RegisterKeeps(s, c, full, held, msgs, ok);
    case HandleAck(c) => AckKeeps(s, c);
    case Apply(id, acked) => ApplyKeeps(s, id, acked);
    case Disconnect(id) => DisconnectStep(s, id);
    case CloseByLeader(c) => CloseStep(s, c);
  }

  lemma DisconnectStep(s: System, id: BrokerId)
    requires Inv(s) && Enabled(s, Disconnect(id))
    ensures Inv(Do(s, Disconnect(id)))
  {
    hide Inv;
    DisconnectKeeps(s, id);
  }

  lemma CloseStep(s: System, c: Conn)
    requires Inv(s) && Enabled(s, CloseByLeader(c))
    ensures Inv(Do(s, CloseByLeader(c)))
  {
    hide Inv;
    CloseKeeps(s, c);
  }

  /** s' is reached from s by the given steps. */
  ghost predicate Reaches(s: System, steps: seq<Step>, s': System)
    decreases |steps|
  {
    if steps == [] then s' == s
    else Enabled(s, steps[0]) && Reaches(Do(s, steps[0]), steps[1..], s')
  }

  lemma {:induction false} ReachesInv(s: System, steps: seq<Step>, s': System)
    requires Inv(s) && Reaches(s, steps, s')
    ensures Inv(s')
    decreases |steps|
  {
    hide Inv, Enabled, Do;
    if steps != [] {
      StepKeeps(s, steps[0]);
      ReachesInv(Do(s, steps[0]), steps[1..], s');
    }
  }

  /** Replication prefix: for a registered follower, its log followed by what is on the way, duplicates dropped,
      is the leader's log, in every partition and every reachable state. */
  lemma PrefixTheorem(s0: System, steps: seq<Step>, s: System, id: BrokerId, tp: TopicPartition)
    requires Init(s0) && Reaches(s0, steps, s)
    requires id in s.nodes && s.nodes[id].conn.Some? && IsRegistered(s.tables, id, s.nodes[id].conn.value)
    ensures var (log, pending) := (LogAt(s.nodes[id].logs, tp), Pending(Down(s, s.nodes[id].conn.value), tp));
      log + pending == LogAt(s.logs, tp) && PutAll(log, pending) == LogAt(s.logs, tp)
  {
    hide Enabled, Do, Reaches, Pending, Wired, AllDense, AcksTrue, RequestsTrue;
    InitInv(s0);
    ReachesInv(s0, steps, s);
    assert NodeOk(s, id);
    var (log, lead) := (LogAt(s.nodes[id].logs, tp), LogAt(s.logs, tp));
    LeaderIsDense(s, tp);
    PutAllInOrder(log, Pending(Down(s, s.nodes[id].conn.value), tp), lead);
  }

  lemma LeaderIsDense(s: System, tp: TopicPartition)
    requires AllDense(s.logs)
    ensures Dense(LogAt(s.logs, tp))
  {
  }

  lemma {:induction false} PutAllInOrder(log: Log<Json>, stream: seq<Rec<Json>>, lead: Log<Json>)
    requires Dense(lead) && log + stream <= lead
    ensures PutAll(log, stream) == log + stream
    decreases |stream|
  {
    if stream != [] {
      assert stream == [stream[0]] + stream[1..];
      NextInLine(log, stream[0], stream[1..], lead);
      PutAllInOrder(log + [stream[0]], stream[1..], lead);
    }
  }

  lemma AckedIsHeld(s: System, tp: TopicPartition, offset: nat, id: BrokerId)
    requires Inv(s) && AllAcked(s.tables, tp, offset) && id in s.tables.followers
    ensures id in s.nodes && offset < |LogAt(s.nodes[id].logs, tp)| <= |LogAt(s.logs, tp)|
    ensures LogAt(s.nodes[id].logs, tp)[..offset + 1] == LogAt(s.logs, tp)[..offset + 1]
  {
    hide AllDense, RequestsTrue, Session, Key;
    assert NodeOk(s, id);
    assert Recorded(s.tables, id, tp) >= offset;
    assert LogAt(s.nodes[id].logs, tp) <= LogAt(s.logs, tp);
  }

  /** acks=all: when the poll succeeds, every follower in the table holds every leader record up to the offset,
      whether it registered, reconnected or sent stale acknowledgements in the meantime. */
  lemma AcksAllTheorem(s0: System, steps: seq<Step>, s: System, tp: TopicPartition, offset: nat, id: BrokerId)
    requires Init(s0) && Reaches(s0, steps, s)
    requires AllAcked(s.tables, tp, offset) && id in s.tables.followers
    ensures id in s.nodes && offset < |LogAt(s.nodes[id].logs, tp)| <= |LogAt(s.logs, tp)|
    ensures LogAt(s.nodes[id].logs, tp)[..offset + 1] == LogAt(s.logs, tp)[..offset + 1]
  {
    hide Inv, Reaches, AllAcked, LogAt;
    InitInv(s0);
    ReachesInv(s0, steps, s);
    AckedIsHeld(s, tp, offset, id);
  }

  /** What a follower holds it keeps, across disconnects, crashes and reconnects. */
  lemma {:induction false} LogsOnlyGrow(s: System, steps: seq<Step>, s': System, id: BrokerId)
    requires Inv(s) && Reaches(s, steps, s') && id in s.nodes
    ensures id in s'.nodes && Grows(s.nodes[id].logs, s'.nodes[id].logs)
    decreases |steps|
  {
    hide Inv, Enabled;
    if steps != [] {
      StepKeeps(s, steps[0]);
      LogsOnlyGrow(Do(s, steps[0]), steps[1..], s', id);
      var (a, b, c) := (s.nodes[id].logs, Do(s, steps[0]).nodes[id].logs, s'.nodes[id].logs);
      OneStepGrows(s, steps[0], id);
      forall tp
        ensures LogAt(a, tp) <= LogAt(c, tp)
      {
        assert LogAt(a, tp) <= LogAt(b, tp) && LogAt(b, tp) <= LogAt(c, tp);
      }
    }
  }

  lemma OneStepGrows(s: System, a: Step, id: BrokerId)
    requires Enabled(s, a) && id in s.nodes
    ensures id in Do(s, a).nodes && Grows(s.nodes[id].logs, Do(s, a).nodes[id].logs)
  {
    hide CatchUp, PartialCatchUp, NextOffsets, Broadcast, Registered, Acknowledged, IsFull, IsLastHeld;
  }
}
