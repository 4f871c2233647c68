/** One leader tenure when every `await` may switch tasks. */
module ReplicationInterleaved {
  // A publish appends, takes its snapshot of the followers and then writes to them one by one; a registration enters
  // the tables, then reads one partition at a time and writes its records one by one. Catch-ups, broadcasts and
  // everything the followers do interleave freely.

  import opened Wrappers
  import opened Json
  import opened LogSpec
  import opened Keys
  import opened ReplicationSpec
  import opened ReplicationProtocol

  /** A suspended `broadcast_replication` or `register_follower`, with what it has left to write. */
  datatype Task =
    | Broadcasting(m: Replicate, targets: seq<(BrokerId, Conn)>)
    | CatchingUp(id: BrokerId, c: Conn, full: map<string, int>, todo: seq<string>, queue: seq<Replicate>)

  datatype World = World(sys: System, tasks: map<nat, Task>)

  datatype Event =
    | Plain(a: Step)
    | Produce(t: nat, tp: TopicPartition, payload: Json, targets: seq<(BrokerId, Conn)>)
    | Admit(t: nat, c: Conn, full: map<string, int>, held: map<string, int>, todo: seq<string>)
    | Read(t: nat)
    | Write(t: nat, sent: bool, ok: bool)
    | Cancel(t: nat)

  predicate Done(task: Task) {
    match task
    case Broadcasting(_, targets) => targets == []
    case CatchingUp(_, _, _, todo, queue) => todo == [] && queue == []
  }

  function Settle(tasks: map<nat, Task>, t: nat, task: Task): map<nat, Task> {
    if Done(task) then tasks - {t} else tasks[t := task]
  }

  predicate CanWrite(task: Task) { if task.Broadcasting? then task.targets != [] else task.queue != [] }

  function Receiver(task: Task): (BrokerId, Conn)
    requires CanWrite(task)
  {
    if task.Broadcasting? then task.targets[0] else (task.id, task.c)
  }

  function Message(task: Task): Replicate
    requires CanWrite(task)
  {
    if task.Broadcasting? then task.m else task.queue[0]
  }

  /** A failed write ends a catch-up, but a broadcast goes on to the next follower. */
  function AfterWrite(tasks: map<nat, Task>, t: nat, task: Task, ok: bool): map<nat, Task>
    requires CanWrite(task)
  {
    match task
    case Broadcasting(m, targets) => Settle(tasks, t, Broadcasting(m, targets[1..]))
    case CatchingUp(id, c, full, todo, queue) =>
      if ok then Settle(tasks, t, CatchingUp(id, c, full, todo, queue[1..])) else tasks - {t}
  }

  /** The catch-up's next partition, read when its turn comes; keys that name no partition are skipped. */
  function NextRead(task: Task, logs: Logs): Task
    requires task.CatchingUp? && task.todo != [] && task.todo[0] in task.full
  {
    task.(
      todo := task.todo[1..],
      queue := match SplitKey(task.todo[0])
               case None => []
               case Some(tp) => Messages(tp, From(LogAt(logs, tp), task.full[task.todo[0]])))
  }

  ghost predicate Occurs(w: World, e: Event) {
    var s := w.sys;
    match e
    case Plain(a) => !a.Publish? && !a.HandleRegister? && Enabled(s, a)
    case Produce(t, tp, payload, targets) =>
      t !in w.tasks && forall f :: f in targets <==> IsRegistered(s.tables, f.0, f.1)
    case Admit(t, c, full, held, todo) =>
      && t !in w.tasks && c in s.owner && Up(s, c) != [] && Up(s, c)[0].Register?
      && IsFull(full, Up(s, c)[0].offsets, s.logs.Keys) && IsLastHeld(held, full)
      && forall k :: k in todo <==> k in full
    case Read(t) =>
      t in w.tasks && var task := w.tasks[t];
      task.CatchingUp? && task.queue == [] && task.todo != [] && task.todo[0] in task.full
    case Write(t, sent, ok) => t in w.tasks && CanWrite(w.tasks[t]) && (ok ==> sent)
    case Cancel(t) => t in w.tasks
  }

  function Deliver(s: System, c: Conn, m: Replicate, sent: bool): System {
    if sent then s.(down := s.down[c := Down(s, c) + [m]]) else s
  }

  function Lose(s: System, f: (BrokerId, Conn)): System { s.(tables := Dropped(s.tables, f.0, f.1)) }

  ghost function After(w: World, e: Event): World
    requires Occurs(w, e)
  {
    var s := w.sys;
    match e
    case Plain(a) => World(Do(s, a), w.tasks)
    case Produce(t, tp, payload, targets) =>
      var m := Replicate(tp, Rec(Next(LogAt(s.logs, tp)), payload));
      World(s.(logs := Published(s.logs, tp, payload)), Settle(w.tasks, t, Broadcasting(m, targets)))
    case Admit(t, c, full, held, todo) =>
      var id := s.owner[c];
      World(s.(tables := Registered(s.tables, id, c, held), up := s.up[c := Up(s, c)[1..]]),
            Settle(w.tasks, t, CatchingUp(id, c, full, todo, [])))
    case Read(t) => World(s, Settle(w.tasks, t, NextRead(w.tasks[t], s.logs)))
    case Write(t, sent, ok) =>
      var (task, f) := (w.tasks[t], Receiver(w.tasks[t]));
      var s' := Deliver(s, f.1, Message(task), sent);
      World(if ok then s' else Lose(s', f), AfterWrite(w.tasks, t, task, ok))
    case Cancel(t) =>
      var task := w.tasks[t];
      World(if task.CatchingUp? then Lose(s, (task.id, task.c)) else s, w.tasks - {t})
  }

  // ----- the invariant -----

  /** A message carries the leader's record at its offset. */
  predicate Drawn(m: Replicate, leader: Logs) {
    m.rec.offset < |LogAt(leader, m.tp)| && LogAt(leader, m.tp)[m.rec.offset] == m.rec
  }

  ghost predicate AllDrawn(msgs: seq<Replicate>, leader: Logs) { forall m :: m in msgs ==> Drawn(m, leader) }

  predicate TaskMessage(task: Task, m: Replicate) { if task.Broadcasting? then m == task.m else m in task.queue }

  ghost predicate TaskDrawn(task: Task, leader: Logs) { forall m :: TaskMessage(task, m) ==> Drawn(m, leader) }

  /** A follower's log: offsets strictly increase, and each record held is the leader's at that offset. */
  ghost predicate Agrees(log: Log<Json>, leader: Log<Json>) { Increasing(log) && DrawnFrom(log, leader) }

  ghost predicate AllAgree(logs: Logs, leader: Logs) { forall tp :: Agrees(LogAt(logs, tp), LogAt(leader, tp)) }

  /** Recorded acknowledgements are below the follower's next offsets. */
  ghost predicate AcksBelow(t: Tables, id: BrokerId, logs: Logs) {
    forall tp :: Recorded(t, id, tp) < Next(LogAt(logs, tp))
  }

  ghost predicate RequestBelow(r: Request, logs: Logs) {
    match r
    case Ack(tp, offset) => offset < Next(LogAt(logs, tp))
    case Register(offsets) => forall tp :: Key(tp) in offsets ==> offsets[Key(tp)] <= Next(LogAt(logs, tp))
  }

  ghost predicate RequestsBelow(reqs: seq<Request>, logs: Logs) { forall r :: r in reqs ==> RequestBelow(r, logs) }

  ghost predicate Fits(s: System, id: BrokerId)
    requires id in s.nodes
  {
    var n := s.nodes[id];
    && AllAgree(n.logs, s.logs)
    && AcksBelow(s.tables, id, n.logs)
    && (n.conn.Some? ==> n.conn.value in s.owner && s.owner[n.conn.value] == id)
  }

  ghost predicate Sound(w: World) {
    var s := w.sys;
    && AllDense(s.logs)
    && Wired(s)
    && (forall id :: id in s.nodes ==> Fits(s, id))
    && (forall c :: c in s.owner ==> RequestsBelow(Up(s, c), s.nodes[s.owner[c]].logs))
    && (forall c :: c in s.down ==> AllDrawn(s.down[c], s.logs))
    && (forall t :: t in w.tasks ==> TaskDrawn(w.tasks[t], s.logs))
  }

  /** The start of a tenure: no connections, follower logs agree with the leader's. */
  ghost predicate Fresh(w: World) {
    var s := w.sys;
    && AllDense(s.logs)
    && s.tables == Tables(map[], map[]) && s.owner == map[] && s.down == map[] && s.up == map[] && w.tasks == map[]
    && (forall id :: id in s.nodes ==> s.nodes[id].conn == None && AllAgree(s.nodes[id].logs, s.logs))
  }

  lemma FreshSound(w: World)
    requires Fresh(w)
    ensures Sound(w)
  {
    hide Key, Dense, AllAgree;
  }

  // ----- publishing -----

  lemma DrawnGrows(m: Replicate, leader: Logs, leader': Logs)
    requires Drawn(m, leader) && Grows(leader, leader')
    ensures Drawn(m, leader')
  {
    hide LogAt;
    assert LogAt(leader, m.tp) <= LogAt(leader', m.tp);
  }

  lemma AgreesGrows(logs: Logs, leader: Logs, leader': Logs)
    requires AllAgree(logs, leader) && Grows(leader, leader')
    ensures AllAgree(logs, leader')
  {
    hide LogAt, Increasing;
    forall tp ensures Agrees(LogAt(logs, tp), LogAt(leader', tp)) {
      assert Agrees(LogAt(logs, tp), LogAt(leader, tp)) && LogAt(leader, tp) <= LogAt(leader', tp);
    }
  }

  lemma PublishedDrawn(leader: Logs, tp: TopicPartition, payload: Json)
    requires AllDense(leader)
    ensures Drawn(Replicate(tp, Rec(Next(LogAt(leader, tp)), payload)), Published(leader, tp, payload))
  {
    assert Dense(LogAt(leader, tp));
  }

  lemma ProduceSound(w: World, t: nat, tp: TopicPartition, payload: Json, targets: seq<(BrokerId, Conn)>)
    requires Sound(w) && Occurs(w, Produce(t, tp, payload, targets))
    ensures Sound(After(w, Produce(t, tp, payload, targets)))
  {
    hide AllDense, Drawn, AllAgree, AcksBelow, RequestsBelow, Grows, Published;
    var (s, w') := (w.sys, After(w, Produce(t, tp, payload, targets)));
    var leader' := w'.sys.logs;
    PublishedDense(s.logs, tp, payload);
    PublishedDrawn(s.logs, tp, payload);
    forall id | id in s.nodes ensures Fits(w'.sys, id) {
      assert Fits(s, id);
      AgreesGrows(s.nodes[id].logs, s.logs, leader');
    }
    forall m | Drawn(m, s.logs) ensures Drawn(m, leader') { DrawnGrows(m, s.logs, leader'); }
  }

  // ----- registering and catching up -----

  lemma RegisteredBelow(
    t: Tables, id: BrokerId, c: Conn, offsets: map<string, int>, tps: set<TopicPartition>,
    full: map<string, int>, held: map<string, int>, logs: Logs, id': BrokerId, logs': Logs)
    requires IsFull(full, offsets, tps) && IsLastHeld(held, full)
    requires RequestBelow(Register(offsets), logs) && AcksBelow(t, id', logs') && (id' == id ==> logs' == logs)
    ensures AcksBelow(Registered(t, id, c, held), id', logs')
  {
    hide Key, LogAt, Next, Recorded, Registered, IsLastHeld;
    forall tp ensures Recorded(Registered(t, id, c, held), id', tp) < Next(LogAt(logs', tp)) {
      RecordedAfterRegister(t, id, c, full, held, id', tp);
      assert Recorded(t, id', tp) < Next(LogAt(logs', tp));
    }
  }

  lemma RequestsRest(reqs: seq<Request>, logs: Logs)
    requires RequestsBelow(reqs, logs) && reqs != []
    ensures RequestsBelow(reqs[1..], logs) && RequestBelow(reqs[0], logs)
  {
    hide RequestBelow;
  }

  lemma AdmitSound(w: World, t: nat, c: Conn, full: map<string, int>, held: map<string, int>, todo: seq<string>)
    requires Sound(w) && Occurs(w, Admit(t, c, full, held, todo))
    ensures Sound(After(w, Admit(t, c, full, held, todo)))
  {
    hide AllDense, AllDrawn, Drawn, AllAgree, AcksBelow, RequestBelow, RequestsBelow, IsFull, IsLastHeld;
    var (s, w') := (w.sys, After(w, Admit(t, c, full, held, todo)));
    var id := s.owner[c];
    RequestsRest(Up(s, c), s.nodes[id].logs);
    forall id' | id' in s.nodes ensures Fits(w'.sys, id') {
      assert Fits(s, id');
      RegisteredBelow(s.tables, id, c, Up(s, c)[0].offsets, s.logs.Keys, full, held, s.nodes[id].logs, id',
        s.nodes[id'].logs);
    }
  }

  lemma {:induction false} FromDrawn(log: Log<Json>, offset: int, r: Rec<Json>)
    requires r in From(log, offset)
    ensures r in log
  {
    if log != [] && r != log[|log| - 1] { FromDrawn(log[..|log| - 1], offset, r); }
  }

  lemma ReadDrawn(task: Task, leader: Logs)
    requires AllDense(leader) && task.CatchingUp? && task.todo != [] && task.todo[0] in task.full
    ensures TaskDrawn(NextRead(task, leader), leader)
  {
    hide From;
    var task' := NextRead(task, leader);
    forall m | m in task'.queue ensures Drawn(m, leader) {
      FromDrawn(LogAt(leader, m.tp), task.full[task.todo[0]], m.rec);
      var i :| 0 <= i < |LogAt(leader, m.tp)| && LogAt(leader, m.tp)[i] == m.rec;
      assert Dense(LogAt(leader, m.tp));
    }
  }

  lemma ReadSound(w: World, t: nat)
    requires Sound(w) && Occurs(w, Read(t))
    ensures Sound(After(w, Read(t)))
  {
    hide AllDense, AllDrawn, TaskDrawn, Fits, RequestsBelow, NextRead, Wired;
    ReadDrawn(w.tasks[t], w.sys.logs);
  }

  lemma WriteDrawn(task: Task, leader: Logs)
    requires TaskDrawn(task, leader) && CanWrite(task)
    ensures Drawn(Message(task), leader)
    ensures task.CatchingUp? ==> TaskDrawn(task.(queue := task.queue[1..]), leader)
    ensures task.Broadcasting? ==> TaskDrawn(task.(targets := task.targets[1..]), leader)
  {
    hide Drawn;
    assert TaskMessage(task, Message(task));
    if task.CatchingUp? {
      forall m | m in task.queue[1..] ensures Drawn(m, leader) { assert TaskMessage(task, m); }
    }
  }

  lemma FewerBelow(t: Tables, id: BrokerId, c: Conn, id': BrokerId, logs: Logs)
    requires AcksBelow(t, id', logs)
    ensures AcksBelow(Closed(t, id, c), id', logs) && AcksBelow(Dropped(t, id, c), id', logs)
  {
    hide Key, LogAt, Next;
    forall tp
      ensures Recorded(Closed(t, id, c), id', tp) < Next(LogAt(logs, tp))
      ensures Recorded(Dropped(t, id, c), id', tp) < Next(LogAt(logs, tp))
    {
      assert Recorded(t, id', tp) < Next(LogAt(logs, tp));
    }
  }

  lemma LoseSound(s: System, tasks: map<nat, Task>, f: (BrokerId, Conn))
    requires Sound(World(s, tasks))
    ensures Sound(World(Lose(s, f), tasks))
  {
    hide AllDense, AllDrawn, AllAgree, AcksBelow, RequestsBelow, TaskDrawn;
    forall id | id in s.nodes ensures Fits(Lose(s, f), id) {
      assert Fits(s, id);
      FewerBelow(s.tables, f.0, f.1, id, s.nodes[id].logs);
    }
  }

  lemma DeliverSound(s: System, tasks: map<nat, Task>, c: Conn, m: Replicate, sent: bool)
    requires Sound(World(s, tasks)) && Drawn(m, s.logs)
    ensures Sound(World(Deliver(s, c, m, sent), tasks))
  {
    hide AllDense, Drawn, AllAgree, AcksBelow, RequestsBelow, TaskDrawn;
    var s' := Deliver(s, c, m, sent);
    forall id | id in s.nodes ensures Fits(s', id) { assert Fits(s, id); }
  }

  lemma TasksSound(s: System, tasks: map<nat, Task>, tasks': map<nat, Task>)
    requires Sound(World(s, tasks)) && forall t :: t in tasks' ==> TaskDrawn(tasks'[t], s.logs)
    ensures Sound(World(s, tasks'))
  {
    hide AllDense, AllDrawn, Fits, RequestsBelow, TaskDrawn, Wired;
  }

  lemma WriteSound(w: World, t: nat, sent: bool, ok: bool)
    requires Sound(w) && Occurs(w, Write(t, sent, ok))
    ensures Sound(After(w, Write(t, sent, ok)))
  {
    hide AllDense, AllDrawn, Drawn, Fits, RequestsBelow, TaskDrawn, Wired, Lose, Deliver;
    var (s, task) := (w.sys, w.tasks[t]);
    var tasks' := AfterWrite(w.tasks, t, task, ok);
    WriteDrawn(task, s.logs);
    assert Sound(World(s, tasks')) by { TasksSound(s, w.tasks, tasks'); }
    hide Sound;
    DeliverSound(s, tasks', Receiver(task).1, Message(task), sent);
    LoseSound(Deliver(s, Receiver(task).1, Message(task), sent), tasks', Receiver(task));
  }

  lemma CancelSound(w: World, t: nat)
    requires Sound(w) && Occurs(w, Cancel(t))
    ensures Sound(After(w, Cancel(t)))
  {
    hide AllDense, AllDrawn, Fits, RequestsBelow, TaskDrawn, Wired, Lose;
    TasksSound(w.sys, w.tasks, w.tasks - {t});
    hide Sound;
    var task := w.tasks[t];
    if task.CatchingUp? { LoseSound(w.sys, w.tasks - {t}, (task.id, task.c)); }
  }

  // ----- connections, applications and acknowledgements -----

  lemma ConnectSound(w: World, id: BrokerId, c: Conn, offsets: map<string, int>)
    requires Sound(w) && Enabled(w.sys, Connect(id, c, offsets))
    ensures Sound(After(w, Plain(Connect(id, c, offsets))))
  {
    hide AllDense, AllDrawn, AllAgree, AcksBelow, RequestBelow, TaskDrawn, NextOffsets, Do;
    var (s, s') := (w.sys, Do(w.sys, Connect(id, c, offsets)));
    ConnectDoes(s, id, c, offsets);
    NothingDrawn(s.logs);
    NextOffsetsBelow(offsets, s.nodes[id].logs);
    ConnectFits(w, id, c, s');
    hide Fits;
    forall c' | c' in s'.owner ensures RequestsBelow(Up(s', c'), s'.nodes[s'.owner[c']].logs) {
      assert c' != c ==> Up(s', c') == Up(s, c') && RequestsBelow(Up(s, c'), s.nodes[s.owner[c']].logs);
    }
  }

  lemma ConnectFits(w: World, id: BrokerId, c: Conn, s': System)
    requires Sound(w) && id in w.sys.nodes && c !in w.sys.owner
    requires s'.logs == w.sys.logs && s'.tables == w.sys.tables && s'.owner == w.sys.owner[c := id]
    requires s'.nodes == w.sys.nodes[id := w.sys.nodes[id].(conn := Some(c))]
    ensures forall id' :: id' in s'.nodes ==> Fits(s', id')
  {
    hide AllDense, AllDrawn, AllAgree, AcksBelow, RequestsBelow, TaskDrawn, Wired;
    forall id' | id' in s'.nodes ensures Fits(s', id') { assert Fits(w.sys, id'); }
  }

  lemma ConnectDoes(s: System, id: BrokerId, c: Conn, offsets: map<string, int>)
    requires Enabled(s, Connect(id, c, offsets))
    ensures var s' := Do(s, Connect(id, c, offsets));
      && s'.logs == s.logs && s'.tables == s.tables && s'.nodes == s.nodes[id := s.nodes[id].(conn := Some(c))]
      && s'.owner == s.owner[c := id] && s'.down == s.down[c := []] && s'.up == s.up[c := [Register(offsets)]]
  {
    hide NextOffsets;
  }

  lemma NothingDrawn(leader: Logs)
    ensures AllDrawn([], leader)
  {
  }

  lemma NextOffsetsBelow(offsets: map<string, int>, logs: Logs)
    requires NextOffsets(offsets, logs)
    ensures RequestBelow(Register(offsets), logs)
  {
    hide Key, Next;
  }

  lemma AckBelow(t: Tables, id: BrokerId, r: Request, logs: Logs, id': BrokerId, logs': Logs)
    requires r.Ack? && RequestBelow(r, logs) && AcksBelow(t, id', logs') && (id' == id ==> logs' == logs)
    ensures AcksBelow(Acknowledged(t, id, r.tp, r.offset), id', logs')
  {
    hide Key, LogAt, Next, Recorded, Acknowledged;
    forall tp ensures Recorded(Acknowledged(t, id, r.tp, r.offset), id', tp) < Next(LogAt(logs', tp)) {
      RecordedAfterAck(t, id, r.tp, r.offset, id', tp);
      assert Recorded(t, id', tp) < Next(LogAt(logs', tp));
    }
  }

  lemma AckSound(w: World, c: Conn)
    requires Sound(w) && Enabled(w.sys, HandleAck(c))
    ensures Sound(After(w, Plain(HandleAck(c))))
  {
    hide AllDense, AllDrawn, AllAgree, AcksBelow, RequestBelow, RequestsBelow, TaskDrawn;
    var (s, s') := (w.sys, Do(w.sys, HandleAck(c)));
    var (id, r) := (s.owner[c], Up(s, c)[0]);
    RequestsRest(Up(s, c), s.nodes[id].logs);
    forall id' | id' in s'.nodes ensures Fits(s', id') {
      assert Fits(s, id');
      AckBelow(s.tables, id, r, s.nodes[id].logs, id', s.nodes[id'].logs);
    }
  }

  /** One more message, early, late or in order: the log keeps its shape and its next offset passes the message. */
  lemma PutAgrees(log: Log<Json>, r: Rec<Json>, leader: Log<Json>)
    requires Agrees(log, leader) && r.offset < |leader| && leader[r.offset] == r
    ensures var log' := Put(log, Some(r.offset), r.payload);
      Agrees(log', leader) && r.offset < Next(log') && Next(log) <= Next(log')
  {
    PutIncreasing(log, Some(r.offset), r.payload);
  }

  lemma AppliedAgrees(logs: Logs, m: Replicate, leader: Logs)
    requires AllAgree(logs, leader) && Drawn(m, leader)
    ensures var logs' := Applied(logs, m);
      AllAgree(logs', leader) && m.rec.offset < Next(LogAt(logs', m.tp))
    ensures forall tp :: Next(LogAt(logs, tp)) <= Next(LogAt(Applied(logs, m), tp))
  {
    hide Agrees, Next, Put;
    var logs' := Applied(logs, m);
    PutAgrees(LogAt(logs, m.tp), m.rec, LogAt(leader, m.tp));
    forall tp ensures Agrees(LogAt(logs', tp), LogAt(leader, tp)) && Next(LogAt(logs, tp)) <= Next(LogAt(logs', tp)) {
      assert Agrees(LogAt(logs, tp), LogAt(leader, tp));
    }
  }

  lemma BelowGrows(t: Tables, id: BrokerId, reqs: seq<Request>, logs: Logs, logs': Logs)
    requires forall tp :: Next(LogAt(logs, tp)) <= Next(LogAt(logs', tp))
    ensures AcksBelow(t, id, logs) ==> AcksBelow(t, id, logs')
    ensures RequestsBelow(reqs, logs) ==> RequestsBelow(reqs, logs')
  {
    hide Key, LogAt, Next, Recorded;
  }

  lemma ApplySound(w: World, id: BrokerId, acked: bool)
    requires Sound(w) && Enabled(w.sys, Apply(id, acked))
    ensures Sound(After(w, Plain(Apply(id, acked))))
  {
    hide AllDense, Drawn, AllAgree, AcksBelow, RequestsBelow, TaskDrawn, Applied, Next, LogAt;
    var (s, s') := (w.sys, Do(w.sys, Apply(id, acked)));
    assert Fits(s, id);
    var (logs, c) := (s.nodes[id].logs, s.nodes[id].conn.value);
    var m := Down(s, c)[0];
    assert m in s.down[c] && AllDrawn(s.down[c], s.logs);
    AppliedAgrees(logs, m, s.logs);
    forall id' | id' in s'.nodes ensures Fits(s', id') {
      assert Fits(s, id');
      BelowGrows(s.tables, id, [], logs, Applied(logs, m));
    }
    forall c' | c' in s'.owner ensures RequestsBelow(Up(s', c'), s'.nodes[s'.owner[c']].logs) {
      BelowGrows(s.tables, id, Up(s, c'), logs, Applied(logs, m));
      if c' == c && acked { RequestsMore(Up(s, c), Ack(m.tp, m.rec.offset), Applied(logs, m)); }
    }
  }

  lemma RequestsMore(reqs: seq<Request>, r: Request, logs: Logs)
    requires RequestsBelow(reqs, logs) && RequestBelow(r, logs)
    ensures RequestsBelow(reqs + [r], logs)
  {
    hide RequestBelow;
  }

  lemma HangUpSound(w: World, a: Step)
    requires Sound(w) && Enabled(w.sys, a) && (a.Disconnect? || a.CloseByLeader?)
    ensures Sound(After(w, Plain(a)))
  {
    hide AllDense, AllDrawn, AllAgree, AcksBelow, RequestsBelow, TaskDrawn;
    var (s, s') := (w.sys, Do(w.sys, a));
    forall id | id in s'.nodes ensures Fits(s', id) {
      assert Fits(s, id);
      if a.CloseByLeader? { FewerBelow(s.tables, s.owner[a.c], a.c, id, s.nodes[id].logs); }
    }
  }

  // ----- over every run -----

  lemma EventSound(w: World, e: Event)
    requires Sound(w) && Occurs(w, e)
    ensures Sound(After(w, e))
  {
    hide Sound, Enabled, After;
    match e
    case Plain(Connect(id, c, offsets)) => ConnectSound(w, id, c, offsets);
    case Plain(HandleAck(c)) => AckSound(w, c);
    case Plain(Apply(id, acked)) => ApplySound(w, id, acked);
    case Plain(a) => HangUpSound(w, a);
    case Produce(t, tp, payload, targets) => ProduceSound(w, t, tp, payload, targets);
    case Admit(t, c, full, held, todo) => AdmitSound(w, t, c, full, held, todo);
    case Read(t) => ReadSound(w, t);
    case Write(t, sent, ok) => WriteSound(w, t, sent, ok);
    case Cancel(t) => CancelSound(w, t);
  }

  ghost predicate Unfolds(w: World, events: seq<Event>, w': World)
    decreases |events|
  {
    if events == [] then w' == w
    else Occurs(w, events[0]) && Unfolds(After(w, events[0]), events[1..], w')
  }

  lemma {:induction false} UnfoldsSound(w: World, events: seq<Event>, w': World)
    requires Sound(w) && Unfolds(w, events, w')
    ensures Sound(w')
    decreases |events|
  {
    hide Sound, Occurs, After;
    if events != [] {
      EventSound(w, events[0]);
      UnfoldsSound(After(w, events[0]), events[1..], w');
    }
  }

  /** Agreement under every interleaving: a follower's log never repeats an offset or goes back, holds the leader's
      record at every offset it holds, and no recorded acknowledgement reaches its next offset. */
  lemma AgreementTheorem(w0: World, events: seq<Event>, w: World, id: BrokerId, tp: TopicPartition)
    requires Fresh(w0) && Unfolds(w0, events, w) && id in w.sys.nodes
    ensures Agrees(LogAt(w.sys.nodes[id].logs, tp), LogAt(w.sys.logs, tp))
    ensures Recorded(w.sys.tables, id, tp) < Next(LogAt(w.sys.nodes[id].logs, tp))
  {
    hide Agrees, Unfolds, AllDense, Wired, AllDrawn, TaskDrawn, RequestsBelow, Recorded, LogAt, Next;
    FreshSound(w0);
    UnfoldsSound(w0, events, w);
    assert Fits(w.sys, id);
  }
}
