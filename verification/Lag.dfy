/** The lag that metrics.py reports, and the group commits it measures. */
module Lag {
  // History tasks and live loops commit offsets for one group in any interleaving, and the lag loop sums what is
  // left.

  import opened Wrappers
  import opened Json
  import opened Library
  import opened LogSpec
  import opened Keys
  import opened PartitionLog
  import opened StorageSpec
  import opened Offsets
  import S = Storage
  import R = ReplicationSpec

  // ----- publishes and commits over the whole store -----

  type Table = map<(string, TopicPartition), int>

  /** A history task with the offsets it has left to write, or a live loop with the message it is writing. */
  datatype Task =
    | History(group: string, tp: TopicPartition, left: seq<nat>)
    | Live(group: string, writing: Option<(TopicPartition, nat)>)

  /** The store, the committed offsets, the tasks that commit, and the messages on the groups' queues. */
  datatype State = State(imgs: Images, offsets: Table, tasks: map<nat, Task>,
    queued: multiset<(string, TopicPartition, nat)>)

  datatype Step =
    | Publish(op: Op, groups: set<string>)
    | Open(tp: TopicPartition)
    | LookUp(group: string, tp: TopicPartition)
    | StartHistory(t: nat, group: string, tp: TopicPartition)
    | CommitHistory(t: nat)
    | StartLive(t: nat, group: string)
    | Dequeue(t: nat, tp: TopicPartition, offset: nat, discards: bool)
    | CommitLive(t: nat)
    | Cancel(t: nat)
    | Restart

  predicate Enabled(s: State, a: Step) {
    match a
    case Publish(op, _) => op.partition.None? && op.offset.None?
    case StartHistory(t, _, _) => t !in s.tasks
    case CommitHistory(t) => t in s.tasks && s.tasks[t].History? && s.tasks[t].left != []
    case StartLive(t, _) => t !in s.tasks
    case Dequeue(t, tp, o, _) =>
      t in s.tasks && s.tasks[t].Live? && s.tasks[t].writing.None? && (s.tasks[t].group, tp, o) in s.queued
    case CommitLive(t) => t in s.tasks && s.tasks[t].Live? && s.tasks[t].writing.Some?
    case Cancel(t) => t in s.tasks
    case _ => true
  }

  function LookedUp(offsets: Table, k: (string, TopicPartition)): Table {
    if k in offsets then offsets else offsets[k := 0]
  }

  function Opened(imgs: Images, tp: TopicPartition): Images { imgs[tp := Get(imgs, tp)] }

  function OffsetsOf(log: Log<Json>): seq<nat> { seq(|log|, i requires 0 <= i < |log| => log[i].offset) }

  /** One copy of a message for each group with members. */
  function Copies(groups: set<string>, tp: TopicPartition, o: nat): set<(string, TopicPartition, nat)> {
    set g | g in groups :: (g, tp, o)
  }

  ghost function Do(env: Env, cfg: Config, s: State, a: Step): State
    requires cfg.numPartitions > 0 && Consistent(env, s.imgs) && Enabled(s, a)
  {
    match a
    case Publish(op, groups) =>
      var (tp, o) := (Route(cfg, op), Get(s.imgs, Route(cfg, op)).next);
      s.(imgs := AppendOp(env, cfg, s.imgs, op),
         queued := s.queued + multiset(Copies(groups, tp, o)))
    case Open(tp) => s.(imgs := Opened(s.imgs, tp))
    case LookUp(group, tp) => s.(offsets := LookedUp(s.offsets, (group, tp)))
    case StartHistory(t, group, tp) =>
      var left := OffsetsOf(R.From(Logs(env, s.imgs, tp), Committed(s.offsets, (group, tp))));
      s.(imgs := Opened(s.imgs, tp), offsets := LookedUp(s.offsets, (group, tp)),
         tasks := s.tasks[t := History(group, tp, left)])
    case CommitHistory(t) =>
      var task := s.tasks[t];
      s.(offsets := s.offsets[(task.group, task.tp) := task.left[0] + 1],
         tasks := s.tasks[t := task.(left := task.left[1..])])
    case StartLive(t, group) => s.(tasks := s.tasks[t := Live(group, None)])
    case Dequeue(t, tp, o, discards) =>
      var task := s.tasks[t];
      s.(queued := s.queued - multiset{(task.group, tp, o)},
         tasks := s.tasks[t := task.(writing := if discards then None else Some((tp, o)))])
    case CommitLive(t) =>
      var task := s.tasks[t];
      s.(offsets := s.offsets[(task.group, task.writing.value.0) := task.writing.value.1 + 1],
         tasks := s.tasks[t := task.(writing := None)])
    case Cancel(t) => s.(tasks := s.tasks - {t})
    case Restart => s.(tasks := map[], queued := multiset{})
  }

  // ----- what every step keeps -----

  ghost predicate GapFree(env: Env, imgs: Images) {
    Consistent(env, imgs) && forall tp :: Dense(Logs(env, imgs, tp))
  }

  /** Commits are at most the next offset. */
  ghost predicate Within(offsets: Table, imgs: Images) {
    forall group, tp :: 0 <= Committed(offsets, (group, tp)) <= Get(imgs, tp).next
  }

  predicate Below(left: seq<nat>, next: nat) { forall i :: 0 <= i < |left| ==> left[i] < next }

  predicate TaskBelow(task: Task, imgs: Images) {
    match task
    case History(_, tp, left) => Below(left, Get(imgs, tp).next)
    case Live(_, writing) => writing.Some? ==> writing.value.1 < Get(imgs, writing.value.0).next
  }

  ghost predicate QueuedBelow(queued: multiset<(string, TopicPartition, nat)>, imgs: Images) {
    forall m :: m in queued ==> m.2 < Get(imgs, m.1).next
  }

  ghost predicate TasksBelow(tasks: map<nat, Task>, imgs: Images) {
    forall t :: t in tasks ==> TaskBelow(tasks[t], imgs)
  }

  ghost predicate Inv(env: Env, s: State) {
    GapFree(env, s.imgs) && Within(s.offsets, s.imgs) && QueuedBelow(s.queued, s.imgs) && TasksBelow(s.tasks, s.imgs)
  }

  /** Before any task: gap-free logs and commits within them, as in an empty directory or after a restart. */
  ghost predicate Start(env: Env, s: State) {
    GapFree(env, s.imgs) && Within(s.offsets, s.imgs) && s.tasks == map[] && s.queued == multiset{}
  }

  lemma StartInv(env: Env, s: State)
    requires Start(env, s)
    ensures Inv(env, s)
  {
    hide GapFree, Within;
  }

  lemma EmptyStart(env: Env)
    ensures Start(env, State(map[], map[], map[], multiset{}))
  {
    EmptySynced(env);
  }

  /** No next offset goes down. */
  ghost predicate NextsGrow(imgs: Images, imgs': Images) { forall tp :: Get(imgs, tp).next <= Get(imgs', tp).next }

  lemma BelowGrows(s: State, imgs': Images)
    requires NextsGrow(s.imgs, imgs')
    ensures Within(s.offsets, s.imgs) ==> Within(s.offsets, imgs')
    ensures QueuedBelow(s.queued, s.imgs) ==> QueuedBelow(s.queued, imgs')
    ensures TasksBelow(s.tasks, s.imgs) ==> TasksBelow(s.tasks, imgs')
  {
    hide Get, Committed;
    if Within(s.offsets, s.imgs) {
      forall group, tp ensures 0 <= Committed(s.offsets, (group, tp)) <= Get(imgs', tp).next {
        assert Get(s.imgs, tp).next <= Get(imgs', tp).next;
      }
    }
    if QueuedBelow(s.queued, s.imgs) {
      forall m | m in s.queued
        ensures m.2 < Get(imgs', m.1).next
      {
        assert Get(s.imgs, m.1).next <= Get(imgs', m.1).next;
      }
    }
    if TasksBelow(s.tasks, s.imgs) {
      forall t | t in s.tasks ensures TaskBelow(s.tasks[t], imgs') { TaskGrows(s.tasks[t], s.imgs, imgs'); }
    }
  }

  lemma TaskGrows(task: Task, imgs: Images, imgs': Images)
    requires NextsGrow(imgs, imgs') && TaskBelow(task, imgs)
    ensures TaskBelow(task, imgs')
  {
    hide Get;
    match task
    case History(_, tp, left) => assert Get(imgs, tp).next <= Get(imgs', tp).next;
    case Live(_, writing) =>
      if writing.Some? { assert Get(imgs, writing.value.0).next <= Get(imgs', writing.value.0).next; }
  }

  lemma AppendNexts(env: Env, cfg: Config, imgs: Images, op: Op)
    requires cfg.numPartitions > 0 && op.offset.None?
    ensures NextsGrow(imgs, AppendOp(env, cfg, imgs, op))
    ensures Get(AppendOp(env, cfg, imgs, op), Route(cfg, op)).next == Get(imgs, Route(cfg, op)).next + 1
  {
    hide Route;
  }

  lemma AppendGapFree(env: Env, cfg: Config, imgs: Images, op: Op)
    requires Good(env) && cfg.numPartitions > 0 && op.offset.None? && GapFree(env, imgs)
    ensures GapFree(env, AppendOp(env, cfg, imgs, op))
  {
    hide Consistent, Logs, AppendOp, Visible, Route;
    AppendOpRefinesPut(env, cfg, imgs, op);
    var imgs' := AppendOp(env, cfg, imgs, op);
    forall tp ensures Dense(Logs(env, imgs', tp)) {
      assert Dense(Logs(env, imgs, tp));
      if tp == Route(cfg, op) { PutDense(Logs(env, imgs, tp), Visible(env, op.message, cfg.setting)); }
    }
  }

  lemma PutDense(log: Log<Json>, p: Json)
    requires Dense(log)
    ensures Dense(Put(log, None, p))
  {
  }

  lemma OpenedSame(env: Env, imgs: Images, tp: TopicPartition)
    requires GapFree(env, imgs)
    ensures GapFree(env, Opened(imgs, tp)) && NextsGrow(imgs, Opened(imgs, tp))
  {
    hide Synced, LogOf, Dense;
    EmptySynced(env);
    ConsistentUpdate(env, imgs, tp, Get(imgs, tp));
    forall tp' ensures Dense(Logs(env, Opened(imgs, tp), tp')) && Get(Opened(imgs, tp), tp') == Get(imgs, tp') {
      assert Dense(Logs(env, imgs, tp'));
    }
  }

  lemma LookedUpSame(offsets: Table, k: (string, TopicPartition), imgs: Images)
    requires Within(offsets, imgs)
    ensures Within(LookedUp(offsets, k), imgs)
  {
    hide Get;
    forall group, tp ensures 0 <= Committed(LookedUp(offsets, k), (group, tp)) <= Get(imgs, tp).next {
      assert 0 <= Committed(offsets, (group, tp)) <= Get(imgs, tp).next;
    }
  }

  lemma CommitWithin(offsets: Table, imgs: Images, group: string, tp: TopicPartition, o: nat)
    requires Within(offsets, imgs) && o < Get(imgs, tp).next
    ensures Within(offsets[(group, tp) := o + 1], imgs)
  {
    hide Get;
    forall g, tp' ensures 0 <= Committed(offsets[(group, tp) := o + 1], (g, tp')) <= Get(imgs, tp').next {
      assert 0 <= Committed(offsets, (g, tp')) <= Get(imgs, tp').next;
    }
  }

  lemma PublishKeeps(env: Env, cfg: Config, s: State, op: Op, groups: set<string>)
    requires Good(env) && cfg.numPartitions > 0 && Inv(env, s) && Enabled(s, Publish(op, groups))
    ensures Inv(env, Do(env, cfg, s, Publish(op, groups)))
  {
    hide GapFree, AppendOp, Within, TasksBelow, Get;
    var s' := Do(env, cfg, s, Publish(op, groups)) by { GapFreeConsistent(env, s.imgs); }
    AppendGapFree(env, cfg, s.imgs, op);
    AppendNexts(env, cfg, s.imgs, op);
    BelowGrows(s, s'.imgs);
    forall m | m in s'.queued ensures m.2 < Get(s'.imgs, m.1).next { }
  }

  lemma GapFreeConsistent(env: Env, imgs: Images)
    requires GapFree(env, imgs)
    ensures Consistent(env, imgs)
  {
  }

  lemma ReadBelow(env: Env, imgs: Images, tp: TopicPartition, from: int)
    requires Consistent(env, imgs)
    ensures Below(OffsetsOf(R.From(Logs(env, imgs, tp), from)), Get(imgs, tp).next)
  {
    hide Consistent, Logs;
    var log := Logs(env, imgs, tp);
    NextIsLogNext(env, imgs, tp);
    forall i | 0 <= i < |R.From(log, from)| ensures R.From(log, from)[i].offset < Next(log) {
      FromIn(log, from, R.From(log, from)[i]);
    }
  }

  lemma {:induction false} FromIn(log: Log<Json>, from: int, r: Rec<Json>)
    requires Increasing(log) && r in R.From(log, from)
    ensures r.offset < Next(log)
  {
    if log != [] && r != log[|log| - 1] {
      var front := log[..|log| - 1];
      FromIn(front, from, r);
      if front != [] { assert log[|front| - 1].offset < log[|front|].offset; }
    }
  }

  lemma HistoryKeeps(env: Env, cfg: Config, s: State, t: nat, group: string, tp: TopicPartition)
    requires cfg.numPartitions > 0 && Inv(env, s) && Enabled(s, StartHistory(t, group, tp))
    ensures Inv(env, Do(env, cfg, s, StartHistory(t, group, tp)))
  {
    hide GapFree, Within, QueuedBelow, Logs, R.From, OffsetsOf;
    GapFreeConsistent(env, s.imgs);
    OpenedSame(env, s.imgs, tp);
    BelowGrows(s, Opened(s.imgs, tp));
    LookedUpSame(s.offsets, (group, tp), Opened(s.imgs, tp));
    ReadBelow(env, s.imgs, tp, Committed(s.offsets, (group, tp)));
  }

  lemma CommitKeeps(env: Env, cfg: Config, s: State, a: Step)
    requires cfg.numPartitions > 0 && Inv(env, s) && Enabled(s, a) && (a.CommitHistory? || a.CommitLive?)
    ensures Inv(env, Do(env, cfg, s, a))
  {
    hide GapFree, Within, QueuedBelow, Get;
    GapFreeConsistent(env, s.imgs);
    var task := s.tasks[a.t];
    assert TaskBelow(task, s.imgs);
    if a.CommitHistory? {
      CommitWithin(s.offsets, s.imgs, task.group, task.tp, task.left[0]);
    } else {
      CommitWithin(s.offsets, s.imgs, task.group, task.writing.value.0, task.writing.value.1);
    }
  }

  lemma QuietKeeps(env: Env, cfg: Config, s: State, a: Step)
    requires cfg.numPartitions > 0 && Inv(env, s) && Enabled(s, a)
    requires a.StartLive? || a.Dequeue? || a.Cancel? || a.Restart?
    ensures Inv(env, Do(env, cfg, s, a))
  {
    hide GapFree, Within, Get;
    GapFreeConsistent(env, s.imgs);
  }

  lemma StepKeeps(env: Env, cfg: Config, s: State, a: Step)
    requires Good(env) && cfg.numPartitions > 0 && Inv(env, s) && Enabled(s, a)
    ensures Consistent(env, s.imgs) && Inv(env, Do(env, cfg, s, a))
  {
    hide GapFree, Within, QueuedBelow, TasksBelow, Logs, AppendOp, R.From;
    GapFreeConsistent(env, s.imgs);
    match a
    case Publish(op, groups) => PublishKeeps(env, cfg, s, op, groups);
    case Open(tp) =>
      OpenedSame(env, s.imgs, tp);
      BelowGrows(s, Opened(s.imgs, tp));
    case LookUp(group, tp) => LookedUpSame(s.offsets, (group, tp), s.imgs);
    case StartHistory(t, group, tp) => HistoryKeeps(env, cfg, s, t, group, tp);
    case CommitHistory(_) => CommitKeeps(env, cfg, s, a);
    case CommitLive(_) => CommitKeeps(env, cfg, s, a);
    case _ => QuietKeeps(env, cfg, s, a);
  }

  // ----- over every run -----

  ghost predicate Reaches(env: Env, cfg: Config, s: State, steps: seq<Step>, s': State)
    requires cfg.numPartitions > 0
    decreases |steps|
  {
    if steps == [] then s' == s
    else Consistent(env, s.imgs) && Enabled(s, steps[0]) && Reaches(env, cfg, Do(env, cfg, s, steps[0]), steps[1..], s')
  }

  lemma {:induction false} ReachesInv(env: Env, cfg: Config, s: State, steps: seq<Step>, s': State)
    requires Good(env) && cfg.numPartitions > 0 && Inv(env, s) && Reaches(env, cfg, s, steps, s')
    ensures Inv(env, s')
    decreases |steps|
  {
    hide Inv, Enabled, Do, Consistent, Good;
    if steps != [] {
      StepKeeps(env, cfg, s, steps[0]);
      ReachesInv(env, cfg, Do(env, cfg, s, steps[0]), steps[1..], s');
    }
  }

  /** In every reachable state no group's committed offset exceeds a partition's next offset, whichever way history and
      live commits interleave, and no log has a gap. */
  lemma CommittedNeverAhead(env: Env, cfg: Config, s0: State, steps: seq<Step>, s: State, group: string)
    requires Good(env) && cfg.numPartitions > 0 && Start(env, s0) && Reaches(env, cfg, s0, steps, s)
    ensures Consistent(env, s.imgs) && Healthy(env, s.imgs, s.offsets, group)
  {
    hide Start, Reaches, Good, Dense, Logs, Get, Committed;
    StartInv(env, s0);
    ReachesInv(env, cfg, s0, steps, s);
  }

  // ----- the lag loop -----

  function PartitionLag(imgs: Images, offsets: Table, group: string, tp: TopicPartition): nat {
    var left := Get(imgs, tp).next - Committed(offsets, (group, tp));
    if left > 0 then left else 0
  }

  function TopicLag(imgs: Images, offsets: Table, group: string, topic: string, count: nat): nat {
    if count == 0 then 0
    else
      TopicLag(imgs, offsets, group, topic, count - 1)
      + PartitionLag(imgs, offsets, group, TopicPartition(topic, count - 1))
  }

  function GroupLag(
    imgs: Images, offsets: Table, group: string, topics: seq<string>, count: nat): nat
  {
    if topics == [] then 0
    else GroupLag(imgs, offsets, group, topics[..|topics| - 1], count)
         + TopicLag(imgs, offsets, group, topics[|topics| - 1], count)
  }

  /** The same next offsets and committed offsets: looking things up may add empty partitions and zeros. */
  ghost predicate Same(
    imgs: Images, imgs': Images, offsets: Table, offsets': Table)
  {
    && (forall tp :: Get(imgs', tp) == Get(imgs, tp))
    && (forall k :: Committed(offsets', k) == Committed(offsets, k))
  }

  /** The lag the metrics report for every group, given the topics it has been assigned. */
  method ReportLags(store: S.Storage, table: OffsetTable<(string, TopicPartition)>, topics: map<string, seq<string>>)
    returns (lags: map<string, nat>)
    requires store.Valid() && table.Durable()
    requires forall group, i :: group in topics && 0 <= i < |topics[group]| ==> '/' !in topics[group][i]
    modifies store, store.disk, table, table.cell
    ensures store.Valid() && table.Durable() && Same(old(store.imgs), store.imgs, old(table.offsets), table.offsets)
    ensures lags.Keys == topics.Keys
    ensures forall group :: group in lags ==>
      lags[group] == GroupLag(old(store.imgs), old(table.offsets), group, topics[group], store.cfg.numPartitions)
  {
    hide OnDisk, S.Storage.Owned, GroupLag, Same;
    lags := map[];
    var pending := topics.Keys;
    SameItself(store.imgs, table.offsets);
    while pending != {}
      invariant store.Valid() && table.Durable() && Same(old(store.imgs), store.imgs, old(table.offsets), table.offsets)
      invariant pending <= topics.Keys && lags.Keys == topics.Keys - pending
      invariant forall group :: group in lags ==>
        lags[group] == GroupLag(old(store.imgs), old(table.offsets), group, topics[group], store.cfg.numPartitions)
      decreases |pending|
    {
      var group :| group in pending;
      pending := pending - {group};
      var lag := ReportLag(store, table, group, topics[group], old(store.imgs), old(table.offsets));
      lags := lags[group := lag];
    }
  }

  lemma SameItself(imgs: Images, offsets: Table)
    ensures Same(imgs, imgs, offsets, offsets)
  {
  }

  /** The lag of one group. */
  method ReportLag(
    store: S.Storage, table: OffsetTable<(string, TopicPartition)>, group: string, topics: seq<string>,
    ghost imgs: Images, ghost offsets: Table)
    returns (total: nat)
    requires store.Valid() && table.Durable() && forall i :: 0 <= i < |topics| ==> '/' !in topics[i]
    requires Same(imgs, store.imgs, offsets, table.offsets)
    modifies store, store.disk, table, table.cell
    ensures store.Valid() && table.Durable() && Same(imgs, store.imgs, offsets, table.offsets)
    ensures total == GroupLag(imgs, offsets, group, topics, store.cfg.numPartitions)
  {
    hide OnDisk, S.Storage.Owned, PartitionLag, Same;
    total := 0;
    for i := 0 to |topics|
      invariant store.Valid() && table.Durable() && Same(imgs, store.imgs, offsets, table.offsets)
      invariant total == GroupLag(imgs, offsets, group, topics[..i], store.cfg.numPartitions)
    {
      assert topics[..i + 1][..i] == topics[..i];
      var lag := ReportTopicLag(store, table, group, topics[i], imgs, offsets);
      total := total + lag;
    }
    assert topics[..|topics|] == topics;
  }

  method ReportTopicLag(
    store: S.Storage, table: OffsetTable<(string, TopicPartition)>, group: string, topic: string,
    ghost imgs: Images, ghost offsets: Table)
    returns (total: nat)
    requires store.Valid() && table.Durable() && '/' !in topic && Same(imgs, store.imgs, offsets, table.offsets)
    modifies store, store.disk, table, table.cell
    ensures store.Valid() && table.Durable() && Same(imgs, store.imgs, offsets, table.offsets)
    ensures total == TopicLag(imgs, offsets, group, topic, store.cfg.numPartitions)
  {
    hide OnDisk, PartitionLag, Same, S.Storage.Owned;
    total := 0;
    for id := 0 to store.cfg.numPartitions
      invariant store.Valid() && table.Durable() && Same(imgs, store.imgs, offsets, table.offsets)
      invariant total == TopicLag(imgs, offsets, group, topic, id)
    {
      var lag := ReportPartitionLag(store, table, group, TopicPartition(topic, id), imgs, offsets);
      total := total + lag;
    }
  }

  method ReportPartitionLag(
    store: S.Storage, table: OffsetTable<(string, TopicPartition)>, group: string, tp: TopicPartition,
    ghost imgs: Images, ghost offsets: Table)
    returns (lag: nat)
    requires store.Valid() && table.Durable() && '/' !in tp.topic && Same(imgs, store.imgs, offsets, table.offsets)
    modifies store, store.disk, table, table.cell
    ensures store.Valid() && table.Durable() && Same(imgs, store.imgs, offsets, table.offsets)
    ensures lag == PartitionLag(imgs, offsets, group, tp)
    ensures var (latest, committed) :=
        (if tp in imgs then imgs[tp].next else 0, if (group, tp) in offsets then offsets[(group, tp)] else 0);
      lag == if committed < latest then latest - committed else 0
  {
    hide OnDisk, Same, S.Storage.Owned;
    SameLooked(imgs, store.imgs, offsets, table.offsets, group, tp);
    var latest := LatestOffset(store, tp);
    var committed := table.GetOffset((group, tp));
    lag := if latest - committed > 0 then latest - committed else 0;
  }

  method LatestOffset(store: S.Storage, tp: TopicPartition) returns (latest: nat)
    requires store.Valid() && '/' !in tp.topic
    modifies store, store.disk
    ensures store.Valid() && store.imgs == old(store.imgs)[tp := Get(old(store.imgs), tp)]
    ensures latest == Get(old(store.imgs), tp).next
  {
    hide OnDisk;
    var p := store.GetPartition(tp);
    assert store.Shows(p, tp, store.imgs[tp]);
    latest := p.nextOffset;
  }

  lemma SameLooked(
    imgs: Images, now: Images, offsets: Table, nowOffsets: Table,
    group: string, tp: TopicPartition)
    requires Same(imgs, now, offsets, nowOffsets)
    ensures Get(now, tp) == Get(imgs, tp) && Committed(nowOffsets, (group, tp)) == Committed(offsets, (group, tp))
    ensures Same(imgs, now[tp := Get(now, tp)], offsets, nowOffsets)
    ensures (group, tp) !in nowOffsets ==> Same(imgs, now[tp := Get(now, tp)], offsets, nowOffsets[(group, tp) := 0])
  {
    var now' := now[tp := Get(now, tp)];
    forall tp' ensures Get(now', tp') == Get(imgs, tp') { assert Get(now, tp') == Get(imgs, tp'); }
    if (group, tp) !in nowOffsets {
      forall k ensures Committed(nowOffsets[(group, tp) := 0], k) == Committed(offsets, k) {
        assert Committed(nowOffsets, k) == Committed(offsets, k);
      }
    }
  }

  /** The records of a topic that a group has not committed. */
  ghost function Uncommitted(
    env: Env, imgs: Images, offsets: Table, group: string, topic: string, count: nat): nat
    requires Consistent(env, imgs)
  {
    if count == 0 then 0 else
      var tp := TopicPartition(topic, count - 1);
      Uncommitted(env, imgs, offsets, group, topic, count - 1)
      + |R.From(Logs(env, imgs, tp), Committed(offsets, (group, tp)))|
  }

  /** Gap-free logs, and commits at most the next offset, in every partition. */
  ghost predicate Healthy(env: Env, imgs: Images, offsets: Table, group: string)
    requires Consistent(env, imgs)
  {
    forall tp :: Dense(Logs(env, imgs, tp)) && 0 <= Committed(offsets, (group, tp)) <= Get(imgs, tp).next
  }

  lemma PartitionLagExact(env: Env, imgs: Images, offsets: Table, group: string, tp: TopicPartition)
    requires Consistent(env, imgs) && Healthy(env, imgs, offsets, group)
    ensures var c := Committed(offsets, (group, tp));
      && PartitionLag(imgs, offsets, group, tp) == Get(imgs, tp).next - c
      && |R.From(Logs(env, imgs, tp), c)| == Get(imgs, tp).next - c
  {
    hide Logs, Consistent, R.From;
    var (log, c) := (Logs(env, imgs, tp), Committed(offsets, (group, tp)));
    NextIsLogNext(env, imgs, tp);
    assert Dense(log) && 0 <= c <= Get(imgs, tp).next;
    R.FromDense(log, c);
  }

  lemma {:induction false} TopicLagExact(
    env: Env, imgs: Images, offsets: Table, group: string, topic: string, count: nat)
    requires Consistent(env, imgs) && Healthy(env, imgs, offsets, group)
    ensures TopicLag(imgs, offsets, group, topic, count) == Uncommitted(env, imgs, offsets, group, topic, count)
  {
    hide Logs, Consistent, Healthy, PartitionLag;
    if count > 0 {
      PartitionLagExact(env, imgs, offsets, group, TopicPartition(topic, count - 1));
      TopicLagExact(env, imgs, offsets, group, topic, count - 1);
    }
  }

  /** The records of some topics that a group has not committed. */
  ghost function AllUncommitted(
    env: Env, imgs: Images, offsets: Table, group: string, topics: seq<string>, count: nat): nat
    requires Consistent(env, imgs)
  {
    if topics == [] then 0 else
      AllUncommitted(env, imgs, offsets, group, topics[..|topics| - 1], count)
      + Uncommitted(env, imgs, offsets, group, topics[|topics| - 1], count)
  }

  lemma {:induction false} GroupLagExact(
    env: Env, imgs: Images, offsets: Table, group: string, topics: seq<string>, count: nat)
    requires Consistent(env, imgs) && Healthy(env, imgs, offsets, group)
    ensures GroupLag(imgs, offsets, group, topics, count) == AllUncommitted(env, imgs, offsets, group, topics, count)
  {
    hide Consistent, Healthy, TopicLag, Uncommitted;
    if topics != [] {
      GroupLagExact(env, imgs, offsets, group, topics[..|topics| - 1], count);
      TopicLagExact(env, imgs, offsets, group, topics[|topics| - 1], count);
    }
  }

  /** In every reachable state the lag reported for a group is the number of records it has not committed, summed over
      the partitions of its topics: the clamp at 0 never applies. */
  lemma LagExact(
    env: Env, cfg: Config, s0: State, steps: seq<Step>, s: State, group: string, topics: seq<string>,
      tp: TopicPartition)
    requires Good(env) && cfg.numPartitions > 0 && Start(env, s0) && Reaches(env, cfg, s0, steps, s)
    ensures Consistent(env, s.imgs)
    ensures GroupLag(s.imgs, s.offsets, group, topics, cfg.numPartitions)
      == AllUncommitted(env, s.imgs, s.offsets, group, topics, cfg.numPartitions)
    ensures PartitionLag(s.imgs, s.offsets, group, tp) == Get(s.imgs, tp).next - Committed(s.offsets, (group, tp))
  {
    hide Start, Reaches, Good, Healthy, Consistent, GroupLag, AllUncommitted, PartitionLag;
    CommittedNeverAhead(env, cfg, s0, steps, s, group);
    GroupLagExact(env, s.imgs, s.offsets, group, topics, cfg.numPartitions);
    PartitionLagExact(env, s.imgs, s.offsets, group, tp);
  }

  // ----- commits can go backwards -----

  ghost predicate Leads(env: Env, cfg: Config, s: State, s': State)
    requires cfg.numPartitions > 0
  {
    exists steps :: Reaches(env, cfg, s, steps, s')
  }

  lemma LeadsOn(env: Env, cfg: Config, s: State, a: Step, s': State)
    requires cfg.numPartitions > 0
    ensures Consistent(env, s.imgs) && Enabled(s, a) && Leads(env, cfg, Do(env, cfg, s, a), s') ==>
      Leads(env, cfg, s, s')
  {
    hide Enabled, Do, Consistent;
    if Consistent(env, s.imgs) && Enabled(s, a) && Leads(env, cfg, Do(env, cfg, s, a), s') {
      var steps :| Reaches(env, cfg, Do(env, cfg, s, a), steps, s');
      assert ([a] + steps)[1..] == steps;
      assert Reaches(env, cfg, s, [a] + steps, s');
    }
  }

  function Empty(): State { State(map[], map[], map[], multiset{}) }

  /** Two records published, the second queued for a group's member, while a history task of the group reads both. */
  lemma TwoPublishes(env: Env, cfg: Config, group: string, op0: Op, op1: Op) returns (imgs: Images)
    requires Good(env) && cfg.numPartitions > 0 && Enabled(Empty(), Publish(op0, {}))
      && Enabled(Empty(), Publish(op1, {group}))
    requires Route(cfg, op0) == Route(cfg, op1)
    ensures var tp := Route(cfg, op0);
      && GapFree(env, imgs) && Get(imgs, tp).next == 2
      && forall s :: Leads(env, cfg, State(imgs, map[], map[], multiset{(group, tp, 1)}), s) ==>
        Leads(env, cfg, Empty(), s)
  {
    hide AppendOp, Route, Leads, GapFree, Get;
    var tp := Route(cfg, op0);
    var imgs1 := AppendOp(env, cfg, map[], op0);
    imgs := AppendOp(env, cfg, imgs1, op1);
    TwoAppends(env, cfg, op0, op1);
    var (s1, s2) := (State(imgs1, map[], map[], multiset{}), State(imgs, map[], map[], multiset{(group, tp, 1)}));
    assert Copies({}, tp, 0) == {} && Copies({group}, tp, 1) == {(group, tp, 1)};
    assert Do(env, cfg, Empty(), Publish(op0, {})) == s1;
    assert Do(env, cfg, s1, Publish(op1, {group})) == s2;
    assert Enabled(s1, Publish(op1, {group}));
    hide Do, Enabled, Copies;
    forall s | Leads(env, cfg, s2, s) ensures Leads(env, cfg, Empty(), s) {
      LeadsOn(env, cfg, s1, Publish(op1, {group}), s);
      LeadsOn(env, cfg, Empty(), Publish(op0, {}), s);
    }
  }

  lemma TwoAppends(env: Env, cfg: Config, op0: Op, op1: Op)
    requires Good(env) && cfg.numPartitions > 0 && Route(cfg, op0) == Route(cfg, op1)
    requires op0.offset == None && op1.offset == None
    ensures var (tp, imgs1) := (Route(cfg, op0), AppendOp(env, cfg, map[], op0));
      var imgs2 := AppendOp(env, cfg, imgs1, op1);
      && Consistent(env, map[]) && Consistent(env, imgs1) && GapFree(env, imgs2)
      && Get(map[], tp).next == 0 && Get(imgs1, tp).next == 1 && Get(imgs2, tp).next == 2
  {
    hide AppendOp, Route, Get;
    var (tp, imgs1) := (Route(cfg, op0), AppendOp(env, cfg, map[], op0));
    EmptyStart(env);
    FirstNext(tp);
    AppendGapFree(env, cfg, map[], op0);
    AppendNexts(env, cfg, map[], op0);
    AppendGapFree(env, cfg, imgs1, op1);
    AppendNexts(env, cfg, imgs1, op1);
    hide GapFree;
    GapFreeConsistent(env, map[]);
    GapFreeConsistent(env, imgs1);
  }

  lemma FirstNext(tp: TopicPartition)
    ensures Get(map[], tp).next == 0
  {
  }

  lemma ReadsAll(env: Env, imgs: Images, tp: TopicPartition)
    requires GapFree(env, imgs) && Get(imgs, tp).next > 0
    ensures var left := OffsetsOf(R.From(Logs(env, imgs, tp), 0)); left != [] && left[0] == 0
  {
    hide Consistent, Logs;
    NextIsLogNext(env, imgs, tp);
    var log := Logs(env, imgs, tp);
    assert Dense(log);
    R.FromDense(log, 0);
    assert log[0..] == log && log != [];
  }

  /** The history task starts, then a live loop takes and commits the second record. */
  lemma CommitOvertakes(env: Env, cfg: Config, group: string, tp: TopicPartition, imgs: Images) returns (s: State)
    requires cfg.numPartitions > 0 && GapFree(env, imgs) && Get(imgs, tp).next == 2
    ensures Leads(env, cfg, State(imgs, map[], map[], multiset{(group, tp, 1)}), s)
    ensures GapFree(env, s.imgs) && Committed(s.offsets, (group, tp)) == 2
    ensures 0 in s.tasks && s.tasks[0].History? && s.tasks[0].group == group && s.tasks[0].tp == tp
    ensures s.tasks[0].left != [] && s.tasks[0].left[0] == 0
  {
    hide GapFree, Logs, R.From, Leads, Get, Opened, OffsetsOf;
    GapFreeConsistent(env, imgs);
    ReadsAll(env, imgs, tp);
    OpenedSame(env, imgs, tp);
    GapFreeConsistent(env, Opened(imgs, tp));
    var s0 := State(imgs, map[], map[], multiset{(group, tp, 1)});
    var s1 := Do(env, cfg, s0, StartHistory(0, group, tp));
    var s2 := Do(env, cfg, s1, StartLive(1, group));
    var s3 := Do(env, cfg, s2, Dequeue(1, tp, 1, false));
    s := Do(env, cfg, s3, CommitLive(1));
    Stays(env, cfg, s);
    LeadsOn(env, cfg, s3, CommitLive(1), s);
    LeadsOn(env, cfg, s2, Dequeue(1, tp, 1, false), s);
    LeadsOn(env, cfg, s1, StartLive(1, group), s);
    LeadsOn(env, cfg, s0, StartHistory(0, group, tp), s);
  }

  lemma Stays(env: Env, cfg: Config, s: State)
    requires cfg.numPartitions > 0
    ensures Leads(env, cfg, s, s)
  {
    assert Reaches(env, cfg, s, [], s);
  }

  /** From an empty store: a history task that read the log before a live commit moves the group's offset backwards. */
  lemma CommitsGoBack(env: Env, cfg: Config, group: string, op0: Op, op1: Op) returns (s: State)
    requires Good(env) && cfg.numPartitions > 0 && Enabled(Empty(), Publish(op0, {}))
      && Enabled(Empty(), Publish(op1, {group}))
    requires Route(cfg, op0) == Route(cfg, op1)
    ensures Leads(env, cfg, Empty(), s) && Consistent(env, s.imgs) && Enabled(s, CommitHistory(0))
    ensures var k := (group, Route(cfg, op0));
      Committed(s.offsets, k) == 2 && Committed(Do(env, cfg, s, CommitHistory(0)).offsets, k) == 1
  {
    hide Leads, Route, GapFree, Get, Good;
    var imgs := TwoPublishes(env, cfg, group, op0, op1);
    s := CommitOvertakes(env, cfg, group, Route(cfg, op0), imgs);
    GapFreeConsistent(env, s.imgs);
  }
}
