/** `ReplicationProtocol` with the followers' files, which a crash may cut at any byte. */
module TornReplication {
  // What the protocol calls a follower's log is what the follower counts as stored; its files are beside it.
  // `FollowerCrash` is the life of one file.

  import opened Wrappers
  import opened Library
  import opened LogSpec
  import opened LogText
  import opened Keys
  import opened Compression
  import opened PartitionLog
  import opened Crash
  import opened ReplicationSpec
  import opened ReplicationProtocol
  import FC = FollowerCrash
  import J = Json

  type Disks = (BrokerId, TopicPartition) -> FC.Follower

  datatype State = State(sys: System, disks: Disks)

  /** The followers' codecs and thresholds. */
  type Codecs = BrokerId -> Setting

  /** A step of the protocol, or a crash of a follower, after which it counts the given logs as stored. */
  datatype Event = Plain(step: Step) | Fall(id: BrokerId, logs: Logs, cuts: TopicPartition -> nat)

  function Payloads(log: Log<J.Json>): seq<J.Json> { seq(|log|, i requires 0 <= i < |log| => log[i].payload) }

  /** What a step of the protocol does on one partition of one follower. */
  function On(s: System, a: Step, id: BrokerId, tp: TopicPartition): Option<FC.Step> {
    match a
    case Connect(id', _, _) => if id' == id then Some(FC.Connect) else None
    case Disconnect(id') => if id' == id then Some(FC.Drop) else None
    case Apply(id', acked) =>
      if id' != id || id !in s.nodes || s.nodes[id].conn.None? || Down(s, s.nodes[id].conn.value) == [] then None else
        var m := Down(s, s.nodes[id].conn.value)[0];
        if m.tp == tp then Some(FC.Take(m.rec.offset, acked)) else if acked then None else Some(FC.Drop)
    case _ => None
  }

  ghost predicate DiskTakes(
    env: Env, codecs: Codecs, s: State, a: Step, id: BrokerId, tp: TopicPartition, d: FC.Follower)
  {
    match On(s.sys, a, id, tp)
    case None => d == s.disks(id, tp)
    case Some(Take(o, acked)) =>
      var m := Down(s.sys, s.sys.nodes[id].conn.value)[0];
      d == FC.Taken(env, m.rec.payload, codecs(id), s.disks(id, tp), o, acked)
    case Some(b) => FC.Takes(env, Payloads(LogAt(s.sys.logs, tp)), codecs(id), s.disks(id, tp), b, d)
  }

  ghost predicate Restarts(
    env: Env, codecs: Codecs, s: State, id: BrokerId, tp: TopicPartition, cut: nat, d: FC.Follower)
  {
    FC.Takes(env, Payloads(LogAt(s.sys.logs, tp)), codecs(id), s.disks(id, tp), FC.Restart(cut), d)
  }

  ghost predicate Takes(env: Env, codecs: Codecs, s: State, e: Event, s': State) {
    match e
    case Plain(a) =>
      && Enabled(s.sys, a) && s'.sys == Do(s.sys, a)
      && forall id, tp :: DiskTakes(env, codecs, s, a, id, tp, s'.disks(id, tp))
    case Fall(id, logs, cuts) =>
      && id in s.sys.nodes && s'.sys == SetNode(s.sys, id, Node(logs, None))
      && (forall tp :: Restarts(env, codecs, s, id, tp, cuts(tp), s'.disks(id, tp)))
      && (forall tp :: LogAt(logs, tp) <= LogAt(s.sys.nodes[id].logs, tp))
      && (forall tp :: |LogAt(logs, tp)| == s'.disks(id, tp).file.next)
      && (forall id', tp :: id' != id ==> s'.disks(id', tp) == s.disks(id', tp))
  }

  function Written(env: Env, codecs: Codecs, leader: Logs, id: BrokerId, tp: TopicPartition): seq<Crash.Written> {
    FC.Lines(env, Payloads(LogAt(leader, tp)), codecs(id))
  }

  /** The step that an event is for one partition of one follower. */
  function Part(s: State, e: Event, id: BrokerId, tp: TopicPartition): Option<FC.Step> {
    match e
    case Plain(a) => On(s.sys, a, id, tp)
    case Fall(id', _, cuts) => if id' == id then Some(FC.Restart(cuts(tp))) else None
  }

  /** The event is safe for every partition of every follower. */
  ghost predicate Safe(env: Env, s: State, e: Event, s': State) {
    forall id, tp :: id in s.sys.nodes ==> SafePart(env, s, e, s', id, tp)
  }

  predicate SafePart(env: Env, s: State, e: Event, s': State, id: BrokerId, tp: TopicPartition) {
    Part(s, e, id, tp).Some? ==> FC.Safe(env, s.disks(id, tp), Part(s, e, id, tp).value, s'.disks(id, tp))
  }

  /** Every follower's files give what it acknowledged or announced. */
  ghost predicate Kept(env: Env, codecs: Codecs, leader: Logs, s: State) {
    forall id, tp :: id in s.sys.nodes ==> FC.HoldsClaimed(env, Written(env, codecs, leader, id, tp), s.disks(id, tp))
  }

  // ----- the invariant -----

  ghost predicate RequestClaimed(r: Request, disks: Disks, id: BrokerId) {
    match r
    case Ack(tp, offset) => offset < disks(id, tp).claimed
    case Register(offsets) => forall tp :: Key(tp) in offsets ==> offsets[Key(tp)] <= disks(id, tp).claimed
  }

  /** What the leader recorded, and what is on its way to it, is claimed. */
  ghost predicate Claims(s: State) {
    && (forall id, tp :: id in s.sys.nodes ==> Recorded(s.sys.tables, id, tp) < s.disks(id, tp).claimed)
    && (forall c, r :: c in s.sys.owner && r in Up(s.sys, c) ==> RequestClaimed(r, s.disks, s.sys.owner[c]))
  }

  ghost predicate DiskOk(env: Env, codecs: Codecs, leader: Logs, s: State, id: BrokerId, tp: TopicPartition)
    requires id in s.sys.nodes
  {
    var (n, d) := (s.sys.nodes[id], s.disks(id, tp));
    && |LogAt(n.logs, tp)| == d.file.next && (d.connected <==> n.conn.Some?)
    && FC.Upright(env, Written(env, codecs, leader, id, tp), d)
  }

  ghost predicate Extends(s: State, leader: Logs) { forall tp :: LogAt(s.sys.logs, tp) <= LogAt(leader, tp) }

  ghost predicate TornInv(env: Env, codecs: Codecs, leader: Logs, s: State) {
    && Inv(s.sys) && Claims(s) && Extends(s, leader)
    && (forall id, tp :: id in s.sys.nodes ==> DiskOk(env, codecs, leader, s, id, tp))
  }

  // ----- claims -----

  lemma ClaimsOn(s: State, s': State, id: BrokerId, r: Request)
    requires RequestClaimed(r, s.disks, id)
    requires forall tp :: s.disks(id, tp).claimed <= s'.disks(id, tp).claimed
    ensures RequestClaimed(r, s'.disks, id)
  {
  }

  /** A follower claims no less after a step. */
  lemma ClaimedGrows(env: Env, codecs: Codecs, s: State, e: Event, s': State, id: BrokerId, tp: TopicPartition)
    requires Takes(env, codecs, s, e, s')
    ensures s.disks(id, tp).claimed <= s'.disks(id, tp).claimed
  {
    hide Appended, FileEntries, Recovered, Do, Enabled, Clean;
    if e.Plain? { assert DiskTakes(env, codecs, s, e.step, id, tp, s'.disks(id, tp)); }
  }

  ghost predicate RecordedClaimed(t: Tables, s: State) {
    forall id, tp :: id in s.sys.nodes ==> Recorded(t, id, tp) < s.disks(id, tp).claimed
  }

  ghost predicate RequestsClaimed(reqs: seq<Request>, disks: Disks, id: BrokerId) {
    forall r :: r in reqs ==> RequestClaimed(r, disks, id)
  }

  lemma TablesClaimed(s: State, a: Step)
    requires Claims(s) && Inv(s.sys) && Enabled(s.sys, a) && a.Publish?
    ensures RecordedClaimed(Do(s.sys, a).tables, s)
  {
    hide Inv, RequestClaimed, Key, Reached, LogAt, Put, Next;
    forall id, tp | id in s.sys.nodes ensures Recorded(Do(s.sys, a).tables, id, tp) < s.disks(id, tp).claimed {
      assert Recorded(s.sys.tables, id, tp) < s.disks(id, tp).claimed;
    }
  }

  lemma RegistrationClaimed(s: State, a: Step)
    requires Claims(s) && Inv(s.sys) && Enabled(s.sys, a) && a.HandleRegister?
    ensures RecordedClaimed(Do(s.sys, a).tables, s)
  {
    hide Inv, Key, Recorded, CatchUp, PartialCatchUp;
    var (c, id) := (a.c, s.sys.owner[a.c]);
    var r := Up(s.sys, c)[0];
    assert r in Up(s.sys, c) && RequestClaimed(r, s.disks, id);
    forall id', tp | id' in s.sys.nodes ensures Recorded(Do(s.sys, a).tables, id', tp) < s.disks(id', tp).claimed {
      assert Recorded(s.sys.tables, id', tp) < s.disks(id', tp).claimed;
      RecordedAfterRegister(s.sys.tables, id, c, a.full, a.held, id', tp);
      RecordedDropped(Registered(s.sys.tables, id, c, a.held), id, c, id', tp);
    }
  }

  lemma RecordedDropped(t: Tables, id: BrokerId, c: Conn, id': BrokerId, tp: TopicPartition)
    ensures Recorded(Dropped(t, id, c), id', tp) == Recorded(t, id', tp) || Recorded(Dropped(t, id, c), id', tp) == -1
  {
    hide Key;
  }

  lemma AcknowledgementClaimed(s: State, a: Step)
    requires Claims(s) && Inv(s.sys) && Enabled(s.sys, a) && a.HandleAck?
    ensures RecordedClaimed(Do(s.sys, a).tables, s)
  {
    hide Inv, Key, Recorded, Acknowledged;
    var (c, id) := (a.c, s.sys.owner[a.c]);
    var r := Up(s.sys, c)[0];
    assert r in Up(s.sys, c) && RequestClaimed(r, s.disks, id);
    forall id', tp | id' in s.sys.nodes ensures Recorded(Do(s.sys, a).tables, id', tp) < s.disks(id', tp).claimed {
      assert Recorded(s.sys.tables, id', tp) < s.disks(id', tp).claimed;
      RecordedAfterAck(s.sys.tables, id, r.tp, r.offset, id', tp);
    }
  }

  lemma ClosingClaimed(s: State, a: Step)
    requires Claims(s) && Inv(s.sys) && Enabled(s.sys, a) && a.CloseByLeader?
    ensures RecordedClaimed(Do(s.sys, a).tables, s)
  {
    hide Inv, Key, RequestClaimed;
    forall id, tp | id in s.sys.nodes ensures Recorded(Do(s.sys, a).tables, id, tp) < s.disks(id, tp).claimed {
      assert Recorded(s.sys.tables, id, tp) < s.disks(id, tp).claimed;
    }
  }

  /** The leader's steps record only what is claimed. */
  lemma TablesStayClaimed(s: State, a: Step)
    requires Claims(s) && Inv(s.sys) && Enabled(s.sys, a)
    ensures RecordedClaimed(Do(s.sys, a).tables, s) && Do(s.sys, a).nodes.Keys == s.sys.nodes.Keys
  {
    hide Inv, RecordedClaimed;
    NodesStay(s.sys, a);
    match a
    case Publish(_, _, _, _, _) => TablesClaimed(s, a);
    case HandleRegister(_, _, _, _, _) => RegistrationClaimed(s, a);
    case HandleAck(_) => AcknowledgementClaimed(s, a);
    case CloseByLeader(_) => ClosingClaimed(s, a);
    case _ => SameTables(s, a);
  }

  lemma NodesStay(s: System, a: Step)
    requires Enabled(s, a)
    ensures Do(s, a).nodes.Keys == s.nodes.Keys
  {
    hide LogAt, Put, Next, Key, CatchUp, PartialCatchUp, IsFull, NextOffsets;
  }

  lemma SameTables(s: State, a: Step)
    requires Claims(s) && Enabled(s.sys, a) && (a.Connect? || a.Apply? || a.Disconnect?)
    ensures RecordedClaimed(Do(s.sys, a).tables, s)
  {
    hide Applied, NextOffsets, RequestClaimed, Recorded;
  }

  ghost predicate Counts(s: State) {
    forall id, tp :: id in s.sys.nodes ==> |LogAt(s.sys.nodes[id].logs, tp)| == s.disks(id, tp).file.next
  }

  lemma OldRequests(env: Env, codecs: Codecs, s: State, a: Step, s': State, c: Conn, reqs: seq<Request>)
    requires Claims(s) && Takes(env, codecs, s, Plain(a), s') && c in s.sys.owner && forall r :: r in reqs ==>
      r in Up(s.sys, c)
    ensures RequestsClaimed(reqs, s'.disks, s.sys.owner[c])
  {
    hide Takes, RequestClaimed;
    forall tp ensures s.disks(s.sys.owner[c], tp).claimed <= s'.disks(s.sys.owner[c], tp).claimed {
      ClaimedGrows(env, codecs, s, Plain(a), s', s.sys.owner[c], tp);
    }
    forall r | r in reqs ensures RequestClaimed(r, s'.disks, s.sys.owner[c]) {
      assert r in Up(s.sys, c);
      ClaimsOn(s, s', s.sys.owner[c], r);
    }
  }

  lemma ConnectUp(env: Env, codecs: Codecs, s: State, a: Step, s': State)
    requires Inv(s.sys) && Counts(s) && a.Connect? && Takes(env, codecs, s, Plain(a), s')
    ensures RequestClaimed(Register(a.offsets), s'.disks, a.id)
  {
    hide Wired, RequestsTrue, AcksTrue, Session, Key, LogAt, Do, AllDense;
    var n := s.sys.nodes[a.id];
    assert NodeOk(s.sys, a.id);
    forall tp | Key(tp) in a.offsets ensures a.offsets[Key(tp)] <= s'.disks(a.id, tp).claimed {
      LeaderIsDense(s.sys, tp);
      PrefixDense(LogAt(n.logs, tp), LogAt(s.sys.logs, tp));
      assert DiskTakes(env, codecs, s, a, a.id, tp, s'.disks(a.id, tp));
      assert a.offsets[Key(tp)] == Next(LogAt(n.logs, tp));
      assert |LogAt(n.logs, tp)| == s.disks(a.id, tp).file.next;
    }
  }

  lemma ApplyUp(env: Env, codecs: Codecs, s: State, a: Step, s': State)
    requires a.Apply? && a.acked && Takes(env, codecs, s, Plain(a), s')
    ensures var m := Down(s.sys, s.sys.nodes[a.id].conn.value)[0];
      RequestClaimed(Ack(m.tp, m.rec.offset), s'.disks, a.id)
  {
    hide Applied, Appended, Clean, Do;
    var m := Down(s.sys, s.sys.nodes[a.id].conn.value)[0];
    assert DiskTakes(env, codecs, s, a, a.id, m.tp, s'.disks(a.id, m.tp));
  }

  /** What is on its way to the leader after a step. */
  lemma UpStaysClaimed(env: Env, codecs: Codecs, s: State, a: Step, s': State, c: Conn)
    requires Claims(s) && Inv(s.sys) && Counts(s) && Takes(env, codecs, s, Plain(a), s') && c in s'.sys.owner
    ensures RequestsClaimed(Up(s'.sys, c), s'.disks, s'.sys.owner[c])
  {
    hide Claims, Inv, Takes, RequestClaimed, Counts, Applied, Key, NextOffsets, LogAt, Put, Next, Losing, Registered,
      Dropped, CatchUp, PartialCatchUp, IsFull, Acknowledged, Closed, Broadcast;
    assert Enabled(s.sys, a) && s'.sys == Do(s.sys, a) by { TakesDoes(env, codecs, s, a, s'); }
    match a
    case Connect(id, c', offsets) =>
      if c == c' { ConnectUp(env, codecs, s, a, s'); } else { OldRequests(env, codecs, s, a, s', c, Up(s'.sys, c)); }
    case Apply(id, acked) =>
      var n := s.sys.nodes[id];
      assert WiredHere(s.sys, id) by { ConnectionOwned(s.sys, id); }
      OldRequests(env, codecs, s, a, s', c, Up(s.sys, c));
      if acked && c == n.conn.value { ApplyUp(env, codecs, s, a, s'); }
    case _ => OldRequests(env, codecs, s, a, s', c, Up(s'.sys, c));
  }

  lemma TakesDoes(env: Env, codecs: Codecs, s: State, a: Step, s': State)
    requires Takes(env, codecs, s, Plain(a), s')
    ensures Enabled(s.sys, a) && s'.sys == Do(s.sys, a)
  {
    hide Enabled, Do, DiskTakes;
  }

  /** A follower's connection is its own. */
  predicate WiredHere(s: System, id: BrokerId) {
    id in s.nodes && s.nodes[id].conn.Some? ==>
      s.nodes[id].conn.value in s.owner && s.owner[s.nodes[id].conn.value] == id
  }

  lemma ConnectionOwned(s: System, id: BrokerId)
    requires Inv(s)
    ensures WiredHere(s, id)
  {
    hide AllDense, Wired, RequestsTrue, Prefix, AcksTrue, Session;
    if id in s.nodes { assert NodeOk(s, id); }
  }

  lemma ClaimsKept(env: Env, codecs: Codecs, s: State, a: Step, s': State)
    requires Claims(s) && Inv(s.sys) && Counts(s) && Takes(env, codecs, s, Plain(a), s')
    ensures Claims(s')
  {
    hide Inv, Takes, RequestClaimed, Counts, Do, Enabled;
    TakesDoes(env, codecs, s, a, s');
    TablesStayClaimed(s, a);
    forall id, tp | id in s'.sys.nodes ensures Recorded(s'.sys.tables, id, tp) < s'.disks(id, tp).claimed {
      ClaimedGrows(env, codecs, s, Plain(a), s', id, tp);
      assert Recorded(s'.sys.tables, id, tp) < s.disks(id, tp).claimed;
    }
    forall c, r | c in s'.sys.owner && r in Up(s'.sys, c) ensures RequestClaimed(r, s'.disks, s'.sys.owner[c]) {
      UpStaysClaimed(env, codecs, s, a, s', c);
    }
  }

  // ----- one partition of one follower -----

  /** The next message on a follower's connection carries the next record of its partition. */
  lemma HeadIsNext(s: System, id: BrokerId)
    requires Inv(s) && id in s.nodes && s.nodes[id].conn.Some? && Down(s, s.nodes[id].conn.value) != []
    ensures var (n, m) := (s.nodes[id], Down(s, s.nodes[id].conn.value)[0]);
      var log := LogAt(s.logs, m.tp);
      && m.rec.offset == |LogAt(n.logs, m.tp)| < |log| && log[m.rec.offset] == m.rec
      && LogAt(Applied(n.logs, m), m.tp) == LogAt(n.logs, m.tp) + [m.rec]
      && forall tp :: tp != m.tp ==> LogAt(Applied(n.logs, m), tp) == LogAt(n.logs, tp)
  {
    hide RequestsTrue, AcksTrue, Wired, Pending, Announces, Completes, Dense, Put, Next;
    assert NodeOk(s, id);
    var (n, msgs) := (s.nodes[id], Down(s, s.nodes[id].conn.value));
    var m := msgs[0];
    AppliedContinues(n.logs, msgs, s.logs);
    PendingHead(msgs, m.tp);
    var (log, lead, rest) := (LogAt(n.logs, m.tp), LogAt(s.logs, m.tp), Pending(msgs[1..], m.tp));
    assert log + ([m.rec] + rest) <= lead;
    assert (log + ([m.rec] + rest))[|log|] == m.rec;
    assert lead[|log|] == m.rec;
  }

  /** What a file does apart from taking records has nothing to do with the leader's. */
  lemma NoRecord(env: Env, a: seq<J.Json>, b: seq<J.Json>, c: Setting, d: FC.Follower, step: FC.Step, d': FC.Follower)
    requires !step.Take? && FC.Takes(env, a, c, d, step, d')
    ensures FC.Takes(env, b, c, d, step, d')
  {
    hide FileEntries, Recovered;
  }

  lemma PayloadAt(log: Log<J.Json>, leader: Log<J.Json>, o: nat)
    requires log <= leader && o < |log|
    ensures o < |Payloads(leader)| && Payloads(leader)[o] == log[o].payload
  {
  }

  lemma NextAfter(env: Env, payload: J.Json, c: Setting, d: FC.Follower, acked: bool)
    ensures var d' := FC.Taken(env, payload, c, d, d.file.next, acked);
      d'.file.next == d.file.next + 1 && d'.connected == acked
  {
  }

  /** The step of the protocol is a step of each file. */
  lemma DiskStep(
    env: Env, codecs: Codecs, leader: Logs, s: State, a: Step, s': State, id: BrokerId, tp: TopicPartition)
    requires TornInv(env, codecs, leader, s) && Takes(env, codecs, s, Plain(a), s') && Extends(s, leader)
    requires id in s.sys.nodes && On(s.sys, a, id, tp).Some?
    ensures id in s'.sys.nodes
    ensures FC.Takes(env, Payloads(LogAt(leader, tp)), codecs(id), s.disks(id, tp), On(s.sys, a, id, tp).value,
      s'.disks(id, tp))
    ensures var (n', d') := (s'.sys.nodes[id], s'.disks(id, tp));
      |LogAt(n'.logs, tp)| == d'.file.next && (d'.connected <==> n'.conn.Some?)
  {
    hide Inv, Claims, Applied, FC.Taken, FC.Upright, Payloads, LogAt, NextOffsets, FC.Takes, Put, Next;
    var d := s.disks(id, tp);
    var d' := s'.disks(id, tp);
    assert DiskOk(env, codecs, leader, s, id, tp);
    assert DiskTakes(env, codecs, s, a, id, tp, d');
    match a
    case Apply(_, acked) =>
      HeadIsNext(s.sys, id);
      var m := Down(s.sys, s.sys.nodes[id].conn.value)[0];
      if m.tp == tp {
        assert LogAt(s.sys.logs, tp) <= LogAt(leader, tp);
        PayloadAt(LogAt(s.sys.logs, tp), LogAt(leader, tp), m.rec.offset);
        NextAfter(env, m.rec.payload, codecs(id), d, acked);
        TakesIt(env, Payloads(LogAt(leader, tp)), codecs(id), d, m.rec.offset, acked);
      } else {
        DropsIt(env, Payloads(LogAt(leader, tp)), Payloads(LogAt(s.sys.logs, tp)), codecs(id), d, FC.Drop, d');
      }
    case Connect(_, _, _) => DropsIt(env, Payloads(LogAt(leader, tp)), Payloads(LogAt(s.sys.logs, tp)), codecs(id), d,
      FC.Connect, d');
    case Disconnect(_) => DropsIt(env, Payloads(LogAt(leader, tp)), Payloads(LogAt(s.sys.logs, tp)), codecs(id), d,
      FC.Drop, d');
    case _ =>
  }

  lemma TakesIt(env: Env, leader: seq<J.Json>, c: Setting, d: FC.Follower, o: nat, acked: bool)
    requires d.connected && o == d.file.next < |leader|
    ensures FC.Takes(env, leader, c, d, FC.Take(o, acked), FC.Taken(env, leader[o], c, d, o, acked))
  {
    hide FC.Taken;
  }

  lemma DropsIt(env: Env, a: seq<J.Json>, b: seq<J.Json>, c: Setting, d: FC.Follower, step: FC.Step, d': FC.Follower)
    requires (step.Connect? || step.Drop?) && FC.Takes(env, b, c, d, step, d')
    ensures FC.Takes(env, a, c, d, step, d') && d'.file == d.file && (d'.connected <==> step.Connect?)
  {
  }

  /** What no step of the file is, leaves it and what the follower counts alone. */
  lemma DiskRests(
    env: Env, codecs: Codecs, leader: Logs, s: State, a: Step, s': State, id: BrokerId, tp: TopicPartition)
    requires TornInv(env, codecs, leader, s) && Takes(env, codecs, s, Plain(a), s')
    requires id in s.sys.nodes && On(s.sys, a, id, tp).None?
    ensures id in s'.sys.nodes && DiskOk(env, codecs, leader, s', id, tp) && s'.disks(id, tp) == s.disks(id, tp)
  {
    hide Inv, Claims, Applied, FC.Upright, LogAt, NextOffsets, Put, Next, Key;
    assert DiskOk(env, codecs, leader, s, id, tp);
    assert DiskTakes(env, codecs, s, a, id, tp, s'.disks(id, tp));
    if a.Apply? && a.id == id { HeadIsNext(s.sys, id); }
  }

  lemma PlainExactly(
    env: Env, codecs: Codecs, leader: Logs, s: State, a: Step, s': State, id: BrokerId, tp: TopicPartition)
    requires Good(env) && TornInv(env, codecs, leader, s) && Takes(env, codecs, s, Plain(a), s') && id in s.sys.nodes
    ensures id in s'.sys.nodes
    ensures SafePart(env, s, Plain(a), s', id, tp) ==> DiskOk(env, codecs, leader, s', id, tp)
    ensures !SafePart(env, s, Plain(a), s', id, tp) ==>
      !FC.HoldsClaimed(env, Written(env, codecs, leader, id, tp), s'.disks(id, tp))
  {
    hide Inv, Claims, Takes, On, FC.Upright, FC.HoldsClaimed, FC.Safe, FC.Takes;
    assert DiskOk(env, codecs, leader, s, id, tp);
    if On(s.sys, a, id, tp).None? {
      DiskRests(env, codecs, leader, s, a, s', id, tp);
    } else {
      DiskStep(env, codecs, leader, s, a, s', id, tp);
      FC.StepExactly(env, Payloads(LogAt(leader, tp)), codecs(id), s.disks(id, tp), On(s.sys, a, id, tp).value,
        s'.disks(id, tp));
    }
  }

  lemma FallExactly(
    env: Env, codecs: Codecs, leader: Logs, s: State, e: Event, s': State, id: BrokerId, tp: TopicPartition)
    requires Good(env) && e.Fall? && TornInv(env, codecs, leader, s) && Takes(env, codecs, s, e, s')
      && id in s.sys.nodes
    ensures id in s'.sys.nodes
    ensures SafePart(env, s, e, s', id, tp) ==> DiskOk(env, codecs, leader, s', id, tp)
    ensures !SafePart(env, s, e, s', id, tp) ==>
      !FC.HoldsClaimed(env, Written(env, codecs, leader, id, tp), s'.disks(id, tp))
  {
    hide Inv, Claims, FC.Upright, FC.HoldsClaimed, FC.Safe, Payloads, LogAt, FC.Takes;
    var (d, d', step) := (s.disks(id, tp), s'.disks(id, tp), FC.Restart(e.cuts(tp)));
    assert DiskOk(env, codecs, leader, s, id, tp);
    if id == e.id {
      assert Restarts(env, codecs, s, id, tp, e.cuts(tp), d');
      NoRecord(env, Payloads(LogAt(s.sys.logs, tp)), Payloads(LogAt(leader, tp)), codecs(id), d, step, d');
      Disconnected(env, Payloads(LogAt(leader, tp)), codecs(id), d, e.cuts(tp), d');
      FC.StepExactly(env, Payloads(LogAt(leader, tp)), codecs(id), d, step, d');
    }
  }

  lemma Disconnected(env: Env, leader: seq<J.Json>, c: Setting, d: FC.Follower, cut: nat, d': FC.Follower)
    requires FC.Takes(env, leader, c, d, FC.Restart(cut), d')
    ensures !d'.connected && d'.claimed == d.claimed
  {
    hide FileEntries, Recovered;
  }

  /** Fewer records, and still all that is claimed: the protocol's invariant holds of them. */
  lemma RequestHeld(r: Request, disks: Disks, id: BrokerId, logs: Logs, logs': Logs)
    requires RequestTrue(r, logs) && RequestClaimed(r, disks, id)
    requires forall tp :: disks(id, tp).claimed <= |LogAt(logs', tp)|
    ensures RequestTrue(r, logs')
  {
    hide Key, LogAt;
  }

  lemma FallClaims(env: Env, codecs: Codecs, s: State, e: Event, s': State)
    requires e.Fall? && Takes(env, codecs, s, e, s') && Claims(s)
    ensures Claims(s') && s'.sys.tables == s.sys.tables && s'.sys.up == s.sys.up && s'.sys.owner == s.sys.owner
  {
    hide Inv, RequestClaimed, Restarts, LogAt, Recorded;
    forall id, tp
      ensures s.disks(id, tp).claimed <= s'.disks(id, tp).claimed
    {
      ClaimedGrows(env, codecs, s, e, s', id, tp);
    }
    forall c, r | c in s.sys.owner && r in Up(s.sys, c) ensures RequestClaimed(r, s'.disks, s.sys.owner[c]) {
      ClaimsOn(s, s', s.sys.owner[c], r);
    }
  }

  lemma FallSafe(env: Env, codecs: Codecs, s: State, e: Event, s': State)
    requires e.Fall? && Takes(env, codecs, s, e, s') && Safe(env, s, e, s')
    ensures forall tp :: s.disks(e.id, tp).claimed <= |LogAt(e.logs, tp)|
    ensures forall tp :: LogAt(e.logs, tp) <= LogAt(s.sys.nodes[e.id].logs, tp)
  {
    hide Restarts, LogAt;
    forall tp ensures s.disks(e.id, tp).claimed <= |LogAt(e.logs, tp)| {
      assert SafePart(env, s, e, s', e.id, tp);
      assert |LogAt(e.logs, tp)| == s'.disks(e.id, tp).file.next;
    }
  }

  lemma FallNode(s: State, id: BrokerId, logs: Logs)
    requires Inv(s.sys) && Claims(s) && id in s.sys.nodes
    requires forall tp :: s.disks(id, tp).claimed <= |LogAt(logs, tp)|
    requires forall tp :: LogAt(logs, tp) <= LogAt(s.sys.nodes[id].logs, tp)
    ensures NodeOk(SetNode(s.sys, id, Node(logs, None)), id)
  {
    hide RequestsTrue, Session, AllDense, Wired, LogAt, Recorded, RequestClaimed;
    assert NodeOk(s.sys, id);
    forall tp ensures LogAt(logs, tp) <= LogAt(s.sys.logs, tp) {
      assert LogAt(logs, tp) <= LogAt(s.sys.nodes[id].logs, tp) <= LogAt(s.sys.logs, tp);
    }
    forall tp ensures Recorded(s.sys.tables, id, tp) < |LogAt(logs, tp)| {
      assert Recorded(s.sys.tables, id, tp) < s.disks(id, tp).claimed;
    }
  }

  lemma FallInv(s: State, id: BrokerId, logs: Logs)
    requires Inv(s.sys) && Claims(s) && id in s.sys.nodes
    requires forall tp :: s.disks(id, tp).claimed <= |LogAt(logs, tp)|
    requires forall tp :: LogAt(logs, tp) <= LogAt(s.sys.nodes[id].logs, tp)
    ensures Inv(SetNode(s.sys, id, Node(logs, None)))
  {
    FallNode(s, id, logs);
    hide AllDense, Prefix, AcksTrue, Session, RequestTrue, RequestClaimed, Recorded, LogAt;
    var s' := SetNode(s.sys, id, Node(logs, None));
    forall id' | id' in s'.nodes ensures NodeOk(s', id') { assert NodeOk(s.sys, id'); }
    forall c, r | c in s'.owner && r in Up(s', c) ensures RequestTrue(r, s'.nodes[s'.owner[c]].logs) {
      assert RequestTrue(r, s.sys.nodes[s.sys.owner[c]].logs) && RequestClaimed(r, s.disks, s.sys.owner[c]);
      if s.sys.owner[c] == id { RequestHeld(r, s.disks, id, s.sys.nodes[id].logs, logs); }
    }
  }

  // ----- one event -----

  lemma CountsHere(env: Env, codecs: Codecs, leader: Logs, s: State)
    requires TornInv(env, codecs, leader, s)
    ensures Counts(s)
  {
    hide Inv, Claims, FC.Upright, Extends, LogAt, Written;
    forall id, tp | id in s.sys.nodes ensures |LogAt(s.sys.nodes[id].logs, tp)| == s.disks(id, tp).file.next {
      assert DiskOk(env, codecs, leader, s, id, tp);
    }
  }

  lemma PartExactly(
    env: Env, codecs: Codecs, leader: Logs, s: State, e: Event, s': State, id: BrokerId, tp: TopicPartition)
    requires Good(env) && TornInv(env, codecs, leader, s) && Takes(env, codecs, s, e, s') && id in s.sys.nodes
    ensures id in s'.sys.nodes
    ensures SafePart(env, s, e, s', id, tp) ==> DiskOk(env, codecs, leader, s', id, tp)
    ensures !SafePart(env, s, e, s', id, tp) ==>
      !FC.HoldsClaimed(env, Written(env, codecs, leader, id, tp), s'.disks(id, tp))
  {
    hide TornInv, Takes, SafePart, DiskOk, FC.HoldsClaimed;
    match e
    case Plain(a) => PlainExactly(env, codecs, leader, s, a, s', id, tp);
    case Fall(_, _, _) => FallExactly(env, codecs, leader, s, e, s', id, tp);
  }

  lemma SystemAfter(env: Env, codecs: Codecs, leader: Logs, s: State, e: Event, s': State)
    requires Good(env) && TornInv(env, codecs, leader, s) && Takes(env, codecs, s, e, s') && Safe(env, s, e, s')
    ensures Inv(s'.sys) && Claims(s') && s'.sys.nodes.Keys == s.sys.nodes.Keys
  {
    hide Inv, Claims, Extends, DiskOk, Safe, Restarts, LogAt;
    match e
    case Plain(a) =>
      CountsHere(env, codecs, leader, s);
      TakesDoes(env, codecs, s, a, s');
      StepKeeps(s.sys, a);
      NodesStay(s.sys, a);
      ClaimsKept(env, codecs, s, a, s');
    case Fall(id, logs, _) =>
      FallSafe(env, codecs, s, e, s');
      FallInv(s, id, logs);
      FallClaims(env, codecs, s, e, s');
  }

  /** As long as every file gives what its follower claims, an event keeps it so if and only if it is safe. */
  lemma EventExactly(env: Env, codecs: Codecs, leader: Logs, s: State, e: Event, s': State)
    requires Good(env) && TornInv(env, codecs, leader, s) && Takes(env, codecs, s, e, s') && Extends(s', leader)
    ensures Safe(env, s, e, s') ==> TornInv(env, codecs, leader, s')
    ensures !Safe(env, s, e, s') ==> !Kept(env, codecs, leader, s')
  {
    hide Inv, Claims, Takes, Extends, DiskOk, SafePart, FC.HoldsClaimed, Written, Part;
    if Safe(env, s, e, s') {
      SystemAfter(env, codecs, leader, s, e, s');
      forall id, tp | id in s'.sys.nodes ensures DiskOk(env, codecs, leader, s', id, tp) {
        assert SafePart(env, s, e, s', id, tp);
        PartExactly(env, codecs, leader, s, e, s', id, tp);
      }
    } else {
      var id, tp :| id in s.sys.nodes && !SafePart(env, s, e, s', id, tp);
      PartExactly(env, codecs, leader, s, e, s', id, tp);
    }
  }

  lemma InvKept(env: Env, codecs: Codecs, leader: Logs, s: State)
    requires Good(env) && TornInv(env, codecs, leader, s)
    ensures Kept(env, codecs, leader, s)
  {
    hide Inv, Claims, FC.Upright, FC.HoldsClaimed, LogAt, Payloads, Extends;
    forall id, tp | id in s.sys.nodes
      ensures FC.HoldsClaimed(env, Written(env, codecs, leader, id, tp), s.disks(id, tp))
    {
      assert DiskOk(env, codecs, leader, s, id, tp);
      FC.UprightHolds(env, Payloads(LogAt(leader, tp)), codecs(id), s.disks(id, tp));
    }
  }

  // ----- whole runs -----

  /** A file that gives the records below its next offset, of a follower that has claimed nothing in this tenure. */
  ghost predicate StartsWith(env: Env, ws: seq<Crash.Written>, d: FC.Follower, log: Log<J.Json>) {
    d == FC.Follower(d.file, false, 0, false) && |log| == d.file.next && FC.Holds(env, ws, d.file.text, d.file.next)
  }

  ghost predicate Start(env: Env, codecs: Codecs, leader: Logs, s: State) {
    && Init(s.sys) && Extends(s, leader)
    && (forall id, tp :: id in s.sys.nodes ==>
          StartsWith(env, Written(env, codecs, leader, id, tp), s.disks(id, tp), LogAt(s.sys.nodes[id].logs, tp)))
  }

  /** The states of a run, and the leader's logs at its end. */
  ghost predicate Run(env: Env, codecs: Codecs, leader: Logs, events: seq<Event>, states: seq<State>) {
    && |states| == |events| + 1 && Start(env, codecs, leader, states[0]) && leader == states[|events|].sys.logs
    && (forall i :: 0 <= i < |events| ==> Takes(env, codecs, states[i], events[i], states[i + 1]))
  }

  lemma StartInv(env: Env, codecs: Codecs, leader: Logs, s: State)
    requires Start(env, codecs, leader, s)
    ensures TornInv(env, codecs, leader, s)
  {
    hide Extends, LogAt, FC.Holds, Written, Key, AllDense;
    InitInv(s.sys);
    hide Inv;
    forall id, tp | id in s.sys.nodes ensures DiskOk(env, codecs, leader, s, id, tp) {
      var (ws, d) := (Written(env, codecs, leader, id, tp), s.disks(id, tp));
      assert StartsWith(env, ws, d, LogAt(s.sys.nodes[id].logs, tp));
      assert FC.UprightAt(env, ws, d, d.file.next);
    }
    forall id, tp | id in s.sys.nodes ensures Recorded(s.sys.tables, id, tp) < s.disks(id, tp).claimed {
      assert StartsWith(env, Written(env, codecs, leader, id, tp), s.disks(id, tp), LogAt(s.sys.nodes[id].logs, tp));
    }
  }

  lemma LeaderGrows(env: Env, codecs: Codecs, s: State, e: Event, s': State, tp: TopicPartition)
    requires Takes(env, codecs, s, e, s')
    ensures LogAt(s.sys.logs, tp) <= LogAt(s'.sys.logs, tp)
  {
    hide DiskTakes, Restarts, Key, CatchUp, PartialCatchUp, Applied, Broadcast, NextOffsets, Next;
  }

  lemma {:induction false} LeaderExtends(
    env: Env, codecs: Codecs, leader: Logs, events: seq<Event>, states: seq<State>, i: nat)
    requires Run(env, codecs, leader, events, states) && i <= |events|
    ensures Extends(states[i], leader)
    decreases |events| - i
  {
    hide Takes, Start, LogAt;
    if i < |events| {
      LeaderExtends(env, codecs, leader, events, states, i + 1);
      forall tp ensures LogAt(states[i].sys.logs, tp) <= LogAt(leader, tp) {
        LeaderGrows(env, codecs, states[i], events[i], states[i + 1], tp);
        assert LogAt(states[i + 1].sys.logs, tp) <= LogAt(leader, tp);
      }
    }
  }

  lemma {:induction false} InvAfter(
    env: Env, codecs: Codecs, leader: Logs, events: seq<Event>, states: seq<State>, n: nat)
    requires Good(env) && Run(env, codecs, leader, events, states) && n <= |events|
    requires forall i :: 0 <= i < n ==> Safe(env, states[i], events[i], states[i + 1])
    ensures TornInv(env, codecs, leader, states[n])
  {
    hide Takes, TornInv, Safe, Start, Extends;
    if n == 0 {
      StartInv(env, codecs, leader, states[0]);
    } else {
      InvAfter(env, codecs, leader, events, states, n - 1);
      LeaderExtends(env, codecs, leader, events, states, n);
      EventExactly(env, codecs, leader, states[n - 1], events[n - 1], states[n]);
    }
  }

  lemma {:induction false} SafeBefore(
    env: Env, codecs: Codecs, leader: Logs, events: seq<Event>, states: seq<State>, n: nat)
    requires Good(env) && Run(env, codecs, leader, events, states) && n <= |events|
    requires forall i :: 0 <= i <= |events| ==> Kept(env, codecs, leader, states[i])
    ensures forall i :: 0 <= i < n ==> Safe(env, states[i], events[i], states[i + 1])
  {
    hide Takes, TornInv, Safe, Kept, Start, Extends;
    if n > 0 {
      SafeBefore(env, codecs, leader, events, states, n - 1);
      InvAfter(env, codecs, leader, events, states, n - 1);
      LeaderExtends(env, codecs, leader, events, states, n);
      EventExactly(env, codecs, leader, states[n - 1], events[n - 1], states[n]);
    }
  }

  /** Over every run of a tenure, with crashes at any bytes of any follower's files: at every moment every
      follower's files give all that it acknowledged or announced, if and only if every event was safe. */
  lemma TornExactly(env: Env, codecs: Codecs, leader: Logs, events: seq<Event>, states: seq<State>)
    requires Good(env) && Run(env, codecs, leader, events, states)
    ensures (forall i :: 0 <= i <= |events| ==> Kept(env, codecs, leader, states[i]))
      <==> (forall i :: 0 <= i < |events| ==> Safe(env, states[i], events[i], states[i + 1]))
  {
    hide Takes, TornInv, Safe, Kept, Start;
    if forall i :: 0 <= i <= |events| ==> Kept(env, codecs, leader, states[i]) {
      SafeBefore(env, codecs, leader, events, states, |events|);
    }
    if forall i :: 0 <= i < |events| ==> Safe(env, states[i], events[i], states[i + 1]) {
      forall n | 0 <= n <= |events| ensures Kept(env, codecs, leader, states[n]) {
        InvAfter(env, codecs, leader, events, states, n);
        InvKept(env, codecs, leader, states[n]);
      }
    }
  }

  /** Then acks=all is true of the files: when a poll succeeds, the file of every follower in the leader's table gives
      every record of the leader's log up to the offset. */
  lemma TornAcksAll(
    env: Env, codecs: Codecs, leader: Logs, events: seq<Event>, states: seq<State>, n: nat,
    tp: TopicPartition, offset: nat, id: BrokerId)
    requires Good(env) && Run(env, codecs, leader, events, states) && n <= |events|
    requires forall i :: 0 <= i < n ==> Safe(env, states[i], events[i], states[i + 1])
    requires AllAcked(states[n].sys.tables, tp, offset) && id in states[n].sys.tables.followers
    ensures id in states[n].sys.nodes
      && offset < |LogAt(states[n].sys.logs, tp)| <= |Written(env, codecs, leader, id, tp)|
    ensures var ws := Written(env, codecs, leader, id, tp);
      forall i :: 0 <= i <= offset ==>
        Entry(J.Num(ws[i].offset), ws[i].message) in FileEntries(env, states[n].disks(id, tp).file.text)
  {
    hide Takes, Safe, Start, Recorded, FileEntries, LogAt, DiskOk;
    InvAfter(env, codecs, leader, events, states, n);
    hide Inv;
    AckedIsHeld(states[n].sys, tp, offset, id);
    assert Recorded(states[n].sys.tables, id, tp) < states[n].disks(id, tp).claimed;
    InvKept(env, codecs, leader, states[n]);
    assert LogAt(states[n].sys.logs, tp) <= LogAt(leader, tp);
  }
}
