/** Which offsets a group commits: what each step makes of them, and runs after which the group has no lag or some. */
module Commits {
  import opened Wrappers
  import opened Json
  import opened Library
  import opened LogSpec
  import opened Keys
  import opened PartitionLog
  import opened StorageSpec
  import opened Offsets
  import opened Lag
  import R = ReplicationSpec

  /** A commit enters one past the record that its task is at; no other step changes any committed offset, looking one
      up for the first time, cancellations and restarts included. */
  lemma StepCommits(env: Env, cfg: Config, s: State, a: Step, k: (string, TopicPartition))
    requires cfg.numPartitions > 0 && Consistent(env, s.imgs) && Enabled(s, a)
    ensures Committed(Do(env, cfg, s, a).offsets, k) ==
      if a.CommitHistory? && k == (s.tasks[a.t].group, s.tasks[a.t].tp) then s.tasks[a.t].left[0] + 1
      else if a.CommitLive? && k == (s.tasks[a.t].group, s.tasks[a.t].writing.value.0)
        then s.tasks[a.t].writing.value.1 + 1
      else Committed(s.offsets, k)
  {
    hide Consistent, AppendOp, Route, Logs, R.From, OffsetsOf, Lag.Opened, Lag.Copies;
  }

  /** A task may be cancelled, and the broker restarted, at any moment. Neither loses what is stored or committed. */
  lemma EndsKeep(env: Env, cfg: Config, s: State, t: nat)
    requires cfg.numPartitions > 0 && Consistent(env, s.imgs)
    ensures Enabled(s, Restart) && Do(env, cfg, s, Restart) == State(s.imgs, s.offsets, map[], multiset{})
    ensures t in s.tasks ==> Enabled(s, Cancel(t)) && Do(env, cfg, s, Cancel(t)) == s.(tasks := s.tasks - {t})
  {
  }

  lemma RunOn(env: Env, cfg: Config, s: State, a: Step, s1: State, steps: seq<Step>, s': State)
    requires cfg.numPartitions > 0
    ensures Consistent(env, s.imgs) && Enabled(s, a) && Do(env, cfg, s, a) == s1 && Reaches(env, cfg, s1, steps, s') ==>
      Reaches(env, cfg, s, [a] + steps, s')
  {
    hide Consistent, Enabled, Do;
    assert ([a] + steps)[1..] == steps;
  }

  lemma NoStep(env: Env, cfg: Config, s: State)
    requires cfg.numPartitions > 0
    ensures Reaches(env, cfg, s, [], s)
  {
  }

  /** The offsets from one to another. */
  ghost predicate Counts(left: seq<nat>, from: nat, to: nat) {
    from <= to && |left| == to - from && forall i :: 0 <= i < |left| ==> left[i] == from + i
  }

  /** A history task commits what it has left, one record after the other. */
  lemma {:induction false} CommitsAll(
    env: Env, cfg: Config, s: State, t: nat, group: string, tp: TopicPartition, left: seq<nat>, from: nat, to: nat)
    returns (steps: seq<Step>, s': State)
    requires cfg.numPartitions > 0 && Consistent(env, s.imgs) && Counts(left, from, to)
    requires t in s.tasks && s.tasks[t] == History(group, tp, left) && Committed(s.offsets, (group, tp)) == from
    ensures Reaches(env, cfg, s, steps, s')
    ensures s' == s.(offsets := s'.offsets, tasks := s.tasks[t := History(group, tp, [])])
    ensures Committed(s'.offsets, (group, tp)) == to
    ensures forall k :: k != (group, tp) ==> Committed(s'.offsets, k) == Committed(s.offsets, k)
    decreases |left|
  {
    hide Consistent, Reaches;
    if left == [] {
      steps, s' := [], s;
      NoStep(env, cfg, s);
    } else {
      var a := CommitHistory(t);
      var s1 := Do(env, cfg, s, a);
      var rest;
      rest, s' := CommitsAll(env, cfg, s1, t, group, tp, left[1..], from + 1, to);
      hide Do, Enabled;
      assert Enabled(s, a);
      RunOn(env, cfg, s, a, s1, rest, s');
      steps := [a] + rest;
    }
  }

  lemma HistoryCounts(env: Env, imgs: Images, tp: TopicPartition, c: nat)
    requires GapFree(env, imgs) && c <= Get(imgs, tp).next
    ensures Consistent(env, imgs) && Counts(OffsetsOf(R.From(Logs(env, imgs, tp), c)), c, Get(imgs, tp).next)
  {
    hide Consistent, Logs, R.From, Get;
    var log := Logs(env, imgs, tp);
    NextIsLogNext(env, imgs, tp);
    assert Dense(log);
    R.FromDense(log, c);
  }

  lemma DoesStart(env: Env, cfg: Config, s: State, t: nat, group: string, tp: TopicPartition)
    requires cfg.numPartitions > 0 && Consistent(env, s.imgs) && t !in s.tasks
    ensures Enabled(s, StartHistory(t, group, tp))
    ensures Do(env, cfg, s, StartHistory(t, group, tp)) ==
      State(Lag.Opened(s.imgs, tp), LookedUp(s.offsets, (group, tp)),
        s.tasks[t := History(group, tp, OffsetsOf(R.From(Logs(env, s.imgs, tp), Committed(s.offsets, (group, tp)))))],
        s.queued)
  {
    hide Consistent, Logs, R.From, OffsetsOf, Committed, LookedUp, Lag.Opened, AppendOp, Route;
  }

  lemma LooksUp(offsets: Table, k: (string, TopicPartition), k': (string, TopicPartition))
    ensures Committed(LookedUp(offsets, k), k') == Committed(offsets, k')
  {
  }

  lemma Opens(imgs: Images, tp: TopicPartition, tp': TopicPartition)
    ensures Get(Lag.Opened(imgs, tp), tp') == Get(imgs, tp')
  {
  }

  /** A history task that starts has the records from the committed offset on left to commit. */
  lemma HistoryStarts(env: Env, cfg: Config, s: State, t: nat, group: string, tp: TopicPartition)
    returns (s1: State, left: seq<nat>)
    requires cfg.numPartitions > 0 && GapFree(env, s.imgs) && Within(s.offsets, s.imgs) && t !in s.tasks
    ensures Consistent(env, s.imgs) && Enabled(s, StartHistory(t, group, tp))
    ensures s1 == Do(env, cfg, s, StartHistory(t, group, tp)) && Consistent(env, s1.imgs)
    ensures s1.queued == s.queued && s1.tasks == s.tasks[t := History(group, tp, left)]
    ensures var c := Committed(s.offsets, (group, tp)); 0 <= c && Counts(left, c, Get(s.imgs, tp).next)
    ensures forall tp' :: Get(s1.imgs, tp') == Get(s.imgs, tp')
    ensures forall k :: Committed(s1.offsets, k) == Committed(s.offsets, k)
  {
    var c := Committed(s.offsets, (group, tp));
    assert 0 <= c <= Get(s.imgs, tp).next;
    hide Within, Do, Enabled, Consistent, Logs, R.From, OffsetsOf, Committed, LookedUp, Lag.Opened, Get, Counts;
    GapFreeConsistent(env, s.imgs);
    HistoryCounts(env, s.imgs, tp, c);
    OpenedSame(env, s.imgs, tp);
    GapFreeConsistent(env, Lag.Opened(s.imgs, tp));
    hide GapFree;
    DoesStart(env, cfg, s, t, group, tp);
    s1 := Do(env, cfg, s, StartHistory(t, group, tp));
    left := OffsetsOf(R.From(Logs(env, s.imgs, tp), c));
    forall tp' ensures Get(s1.imgs, tp') == Get(s.imgs, tp') { Opens(s.imgs, tp, tp'); }
    forall k ensures Committed(s1.offsets, k) == Committed(s.offsets, k) { LooksUp(s.offsets, (group, tp), k); }
  }

  /** A history task that runs to its end with nothing between leaves its group no lag on the partition, and touches no
      other committed offset. */
  lemma HistoryCatchesUp(env: Env, cfg: Config, s: State, t: nat, group: string, tp: TopicPartition)
    returns (steps: seq<Step>, s': State)
    requires cfg.numPartitions > 0 && GapFree(env, s.imgs) && Within(s.offsets, s.imgs) && t !in s.tasks
    ensures Reaches(env, cfg, s, steps, s') && PartitionLag(s'.imgs, s'.offsets, group, tp) == 0
    ensures s'.tasks == s.tasks[t := History(group, tp, [])] && s'.queued == s.queued
    ensures forall tp' :: Get(s'.imgs, tp') == Get(s.imgs, tp')
    ensures forall k :: k != (group, tp) ==> Committed(s'.offsets, k) == Committed(s.offsets, k)
  {
    hide GapFree, Within, Consistent, Counts, Reaches, Do, Enabled, Get, Committed;
    var (a, c) := (StartHistory(t, group, tp), Committed(s.offsets, (group, tp)));
    var s1, left := HistoryStarts(env, cfg, s, t, group, tp);
    var rest;
    rest, s' := CommitsAll(env, cfg, s1, t, group, tp, left, c, Get(s.imgs, tp).next);
    RunOn(env, cfg, s, a, s1, rest, s');
    steps := [a] + rest;
  }

  lemma DoesPublish(env: Env, cfg: Config, s: State, group: string, op: Op)
    requires cfg.numPartitions > 0 && Consistent(env, s.imgs) && op.partition == None && op.offset == None
    ensures Enabled(s, Publish(op, {group}))
    ensures var tp := Route(cfg, op);
      Do(env, cfg, s, Publish(op, {group})) ==
        s.(imgs := AppendOp(env, cfg, s.imgs, op), queued := s.queued + multiset{(group, tp, Get(s.imgs, tp).next)})
  {
    hide Consistent, AppendOp, Route, Get, Logs, R.From, OffsetsOf, Committed;
    var (tp, o) := (Route(cfg, op), Get(s.imgs, Route(cfg, op)).next);
    assert Lag.Copies({group}, tp, o) == {(group, tp, o)};
  }

  /** A record is published and put on the queue of the group's member. */
  lemma Publishes(env: Env, cfg: Config, s: State, group: string, op: Op) returns (s1: State)
    requires Good(env) && cfg.numPartitions > 0 && GapFree(env, s.imgs) && op.partition == None && op.offset == None
    ensures Consistent(env, s.imgs) && Enabled(s, Publish(op, {group}))
    ensures s1 == Do(env, cfg, s, Publish(op, {group})) && Consistent(env, s1.imgs)
    ensures var tp := Route(cfg, op);
      && Get(s1.imgs, tp).next == Get(s.imgs, tp).next + 1 && s1.tasks == s.tasks && s1.offsets == s.offsets
      && s1.queued == s.queued + multiset{(group, tp, Get(s.imgs, tp).next)}
  {
    hide Consistent, AppendOp, Route, Get, Do, Enabled, NextsGrow;
    GapFreeConsistent(env, s.imgs);
    AppendGapFree(env, cfg, s.imgs, op);
    AppendNexts(env, cfg, s.imgs, op);
    GapFreeConsistent(env, AppendOp(env, cfg, s.imgs, op));
    hide GapFree;
    DoesPublish(env, cfg, s, group, op);
    s1 := Do(env, cfg, s, Publish(op, {group}));
  }

  /** The live loop takes it, and discards it or not. */
  lemma Dequeues(env: Env, cfg: Config, s: State, t: nat, group: string, tp: TopicPartition, o: nat, discards: bool)
    requires cfg.numPartitions > 0 && Consistent(env, s.imgs) && t in s.tasks && s.tasks[t] == Live(group, None)
    requires (group, tp, o) in s.queued
    ensures Enabled(s, Dequeue(t, tp, o, discards))
    ensures Do(env, cfg, s, Dequeue(t, tp, o, discards)) ==
      s.(queued := s.queued - multiset{(group, tp, o)},
        tasks := s.tasks[t := Live(group, if discards then None else Some((tp, o)))])
  {
  }

  lemma CommitsOne(env: Env, cfg: Config, s: State, t: nat, group: string, tp: TopicPartition, o: nat)
    requires cfg.numPartitions > 0 && Consistent(env, s.imgs) && t in s.tasks
      && s.tasks[t] == Live(group, Some((tp, o)))
    ensures Enabled(s, CommitLive(t))
    ensures Do(env, cfg, s, CommitLive(t)) ==
      s.(offsets := s.offsets[(group, tp) := o + 1], tasks := s.tasks[t := Live(group, None)])
  {
  }

  /** A record published to a group that has committed all before it. Written and committed by the live loop that takes
      it from its queue, it leaves the group without lag; discarded by that loop, it is on no queue any more and stays
      uncommitted. */
  lemma LiveKeepsUp(env: Env, cfg: Config, s: State, t: nat, group: string, op: Op, discards: bool)
    returns (steps: seq<Step>, s': State)
    requires Good(env) && cfg.numPartitions > 0 && GapFree(env, s.imgs) && op.partition == None && op.offset == None
    requires t in s.tasks && s.tasks[t] == Live(group, None)
    requires Committed(s.offsets, (group, Route(cfg, op))) == Get(s.imgs, Route(cfg, op)).next
    ensures Reaches(env, cfg, s, steps, s') && s'.tasks == s.tasks && s'.queued == s.queued
    ensures PartitionLag(s'.imgs, s'.offsets, group, Route(cfg, op)) == if discards then 1 else 0
    ensures forall k :: k != (group, Route(cfg, op)) ==> Committed(s'.offsets, k) == Committed(s.offsets, k)
  {
    hide GapFree, Consistent, Route, Reaches, Get, Do, Enabled;
    var (tp, o) := (Route(cfg, op), Get(s.imgs, Route(cfg, op)).next);
    var (a, b, c) := (Publish(op, {group}), Dequeue(t, tp, o, discards), CommitLive(t));
    var s1 := Publishes(env, cfg, s, group, op);
    Dequeues(env, cfg, s1, t, group, tp, o, discards);
    var s2 := Do(env, cfg, s1, b);
    assert s2.queued == s.queued;
    var rest: seq<Step>;
    if discards {
      rest, s' := [], s2;
      NoStep(env, cfg, s2);
    } else {
      CommitsOne(env, cfg, s2, t, group, tp, o);
      s' := Do(env, cfg, s2, c);
      NoStep(env, cfg, s');
      RunOn(env, cfg, s2, c, s', [], s');
      rest := [c] + [];
    }
    assert s'.tasks == s.tasks;
    RunOn(env, cfg, s1, b, s2, rest, s');
    RunOn(env, cfg, s, a, s1, [b] + rest, s');
    steps := [a] + ([b] + rest);
  }
}
