/** replication.py on values: the leader's tables, and the messages of one registration or broadcast. */
module ReplicationSpec {
  import opened Wrappers
  import opened Json
  import opened LogSpec
  import opened Keys

  type BrokerId = string
  type Conn = nat
  type Logs = map<TopicPartition, Log<Json>>

  function LogAt(logs: Logs, tp: TopicPartition): Log<Json> { if tp in logs then logs[tp] else [] }

  /** A "replicate" request. */
  datatype Replicate = Replicate(tp: TopicPartition, rec: Rec<Json>)

  // ----- the leader's tables -----

  /** Followers by broker id, and the offset each has acknowledged per partition key. */
  datatype Tables = Tables(followers: map<BrokerId, Conn>, acked: map<BrokerId, map<string, int>>)

  function Recorded(t: Tables, id: BrokerId, tp: TopicPartition): int {
    if id in t.acked && Key(tp) in t.acked[id] then t.acked[id][Key(tp)] else -1
  }

  /** What one poll of `wait_for_acks` tests. */
  predicate AllAcked(t: Tables, tp: TopicPartition, offset: int) {
    forall id :: id in t.followers ==> Recorded(t, id, tp) >= offset
  }

  /** The follower's next offsets, and 0 for the leader's other partitions: at least the given ones, and any that a
      read has opened and left empty. */
  ghost predicate IsFull(full: map<string, int>, offsets: map<string, int>, tps: set<TopicPartition>) {
    && (forall k :: k in full ==> k in offsets || exists tp :: k == Key(tp))
    && (forall k :: k in offsets ==> k in full)
    && (forall tp :: tp in tps ==> Key(tp) in full)
    && (forall k :: k in full ==> full[k] == if k in offsets then offsets[k] else 0)
  }

  /** The last offsets held, given the next ones. */
  ghost predicate IsLastHeld(held: map<string, int>, next: map<string, int>) {
    held.Keys == next.Keys && forall k :: k in next ==> held[k] == next[k] - 1
  }

  function Registered(t: Tables, id: BrokerId, c: Conn, held: map<string, int>): Tables {
    Tables(t.followers[id := c], t.acked[id := held])
  }

  function Acknowledged(t: Tables, id: BrokerId, tp: TopicPartition, offset: int): Tables {
    t.(acked := t.acked[id := (if id in t.acked then t.acked[id] else map[])[Key(tp) := offset]])
  }

  /** After a failed write on the follower's own connection. */
  function Dropped(t: Tables, id: BrokerId, c: Conn): Tables {
    if id in t.followers && t.followers[id] == c then Tables(t.followers - {id}, t.acked - {id}) else t
  }

  /** After the server closed a follower's connection: the acknowledged offsets stay. */
  function Closed(t: Tables, id: BrokerId, c: Conn): Tables {
    if id in t.followers && t.followers[id] == c then t.(followers := t.followers - {id}) else t
  }

  lemma RecordedAfterAck(t: Tables, id: BrokerId, tp: TopicPartition, offset: int, id': BrokerId, tp': TopicPartition)
    ensures Recorded(Acknowledged(t, id, tp, offset), id', tp') ==
      if id' == id && tp' == tp then offset else Recorded(t, id', tp')
  {
    KeyInjective(tp, tp');
  }

  lemma RecordedAfterRegister(
    t: Tables, id: BrokerId, c: Conn, full: map<string, int>, held: map<string, int>, id': BrokerId, tp: TopicPartition)
    requires IsLastHeld(held, full)
    ensures Recorded(Registered(t, id, c, held), id', tp) ==
      if id' != id then Recorded(t, id', tp) else if Key(tp) in full then full[Key(tp)] - 1 else -1
  {
  }

  // ----- messages -----

  /** The records of one partition in a stream of messages. */
  function Pending(msgs: seq<Replicate>, tp: TopicPartition): seq<Rec<Json>> {
    if msgs == [] then []
    else Pending(msgs[..|msgs| - 1], tp) + if msgs[|msgs| - 1].tp == tp then [msgs[|msgs| - 1].rec] else []
  }

  lemma {:induction false} PendingConcat(a: seq<Replicate>, b: seq<Replicate>, tp: TopicPartition)
    ensures Pending(a + b, tp) == Pending(a, tp) + Pending(b, tp)
  {
    if b == [] {
      assert a + b == a;
    } else {
      var n := |b| - 1;
      assert (a + b)[..|a| + n] == a + b[..n];
      PendingConcat(a, b[..n], tp);
    }
  }

  lemma PendingOne(m: Replicate, tp: TopicPartition)
    ensures Pending([m], tp) == if m.tp == tp then [m.rec] else []
  {
    assert [m][..0] == [];
  }

  lemma PendingHead(msgs: seq<Replicate>, tp: TopicPartition)
    requires msgs != []
    ensures Pending(msgs, tp) == (if msgs[0].tp == tp then [msgs[0].rec] else []) + Pending(msgs[1..], tp)
  {
    assert msgs == [msgs[0]] + msgs[1..];
    PendingConcat([msgs[0]], msgs[1..], tp);
    PendingOne(msgs[0], tp);
  }

  lemma PendingAppend(msgs: seq<Replicate>, m: Replicate, tp: TopicPartition)
    ensures Pending(msgs + [m], tp) == Pending(msgs, tp) + if m.tp == tp then [m.rec] else []
  {
    PendingConcat(msgs, [m], tp);
    PendingOne(m, tp);
  }

  /** The records at or above an offset: the catch-up filter. */
  function From(log: Log<Json>, offset: int): Log<Json> {
    if log == [] then [] else
      From(log[..|log| - 1], offset) + if log[|log| - 1].offset >= offset then [log[|log| - 1]] else []
  }

  lemma {:induction false} FromDense(log: Log<Json>, offset: nat)
    requires Dense(log) && offset <= |log|
    ensures From(log, offset) == log[offset..]
  {
    if log != [] {
      var front := log[..|log| - 1];
      if offset <= |front| {
        FromDense(front, offset);
        assert log[offset..] == front[offset..] + [log[|front|]];
      } else {
        FromNone(front, offset);
        assert log[offset..] == [];
      }
    }
  }

  lemma {:induction false} FromNone(log: Log<Json>, offset: int)
    requires forall i :: 0 <= i < |log| ==> log[i].offset < offset
    ensures From(log, offset) == []
  {
    if log != [] { FromNone(log[..|log| - 1], offset); }
  }

  /** What a registration with the given offsets asks of one partition. */
  function Wanted(full: map<string, int>, logs: Logs, tp: TopicPartition): Log<Json> {
    if Key(tp) in full then From(LogAt(logs, tp), full[Key(tp)]) else []
  }

  /** A complete catch-up: per partition, in order, what is wanted and nothing else. Partitions come in any order. */
  ghost predicate CatchUp(msgs: seq<Replicate>, full: map<string, int>, logs: Logs) {
    forall tp :: Pending(msgs, tp) == Wanted(full, logs, tp)
  }

  /** A catch-up cut short by a failed write. */
  ghost predicate PartialCatchUp(msgs: seq<Replicate>, full: map<string, int>, logs: Logs) {
    forall tp :: Pending(msgs, tp) <= Wanted(full, logs, tp)
  }

  /** The messages that carry one partition's records. */
  function Messages(tp: TopicPartition, log: Log<Json>): seq<Replicate> {
    seq(|log|, i requires 0 <= i < |log| => Replicate(tp, log[i]))
  }

  lemma {:induction false} PendingMessages(tp: TopicPartition, log: Log<Json>, tp': TopicPartition)
    ensures Pending(Messages(tp, log), tp') == if tp' == tp then log else []
  {
    if log != [] {
      assert Messages(tp, log)[..|log| - 1] == Messages(tp, log[..|log| - 1]);
      PendingMessages(tp, log[..|log| - 1], tp');
    }
  }

  /** Reading on by one record. */
  lemma FromOneMore(log: Log<Json>, offset: int, i: nat)
    requires i < |log|
    ensures From(log[..i + 1], offset) == From(log[..i], offset) + if log[i].offset >= offset then [log[i]] else []
  {
    assert log[..i + 1][..i] == log[..i];
  }

  lemma {:induction false} FromPrefix(log: Log<Json>, offset: int, i: nat)
    requires i <= |log|
    ensures From(log[..i], offset) <= From(log, offset)
    decreases |log| - i
  {
    if i < |log| {
      FromOneMore(log, offset, i);
      FromPrefix(log, offset, i + 1);
    } else {
      assert log[..i] == log;
    }
  }

  /** A catch-up under way: complete for the keys done, nothing yet for the others. */
  ghost predicate Sending(msgs: seq<Replicate>, full: map<string, int>, done: set<string>, logs: Logs) {
    forall tp :: Pending(msgs, tp) == if Key(tp) in done then Wanted(full, logs, tp) else []
  }

  lemma SendingStart(full: map<string, int>, logs: Logs)
    ensures Sending([], full, {}, logs)
  {
  }

  lemma SendingStep(msgs: seq<Replicate>, full: map<string, int>, done: set<string>, logs: Logs, tp: TopicPartition)
    requires Sending(msgs, full, done, logs) && Key(tp) in full && Key(tp) !in done
    ensures Sending(msgs + Messages(tp, Wanted(full, logs, tp)), full, done + {Key(tp)}, logs)
  {
    hide Key, Pending, Wanted, Messages;
    var more := Messages(tp, Wanted(full, logs, tp));
    forall tp'
      ensures Pending(msgs + more, tp') == if Key(tp') in done + {Key(tp)} then Wanted(full, logs, tp') else []
    {
      PendingConcat(msgs, more, tp');
      PendingMessages(tp, Wanted(full, logs, tp), tp');
      KeyInjective(tp, tp');
    }
  }

  /** A key that names no partition asks for nothing. */
  lemma SendingSkip(msgs: seq<Replicate>, full: map<string, int>, done: set<string>, logs: Logs, k: string)
    requires Sending(msgs, full, done, logs) && SplitKey(k) == None
    ensures Sending(msgs, full, done + {k}, logs)
  {
    hide Key, SplitKey, Pending, Wanted;
    forall tp
      ensures Pending(msgs, tp) == if Key(tp) in done + {k} then Wanted(full, logs, tp) else []
    {
      KeyRoundTrip(tp);
    }
  }

  lemma SendingEnds(msgs: seq<Replicate>, full: map<string, int>, logs: Logs)
    requires Sending(msgs, full, full.Keys, logs)
    ensures CatchUp(msgs, full, logs)
  {
    hide Key, Pending, From;
  }

  lemma SendingBreaks(
    msgs: seq<Replicate>, more: seq<Replicate>, full: map<string, int>, done: set<string>, logs: Logs,
      tp: TopicPartition)
    requires Sending(msgs, full, done, logs) && Key(tp) in full && Key(tp) !in done
    requires more <= Messages(tp, Wanted(full, logs, tp))
    ensures PartialCatchUp(msgs + more, full, logs)
  {
    hide Key, Pending, Wanted;
    var wanted := Wanted(full, logs, tp);
    assert more == Messages(tp, wanted[..|more|]);
    forall tp' ensures Pending(msgs + more, tp') <= Wanted(full, logs, tp') {
      PendingConcat(msgs, more, tp');
      PendingMessages(tp, wanted[..|more|], tp');
      assert tp' == tp ==> Pending(msgs, tp') == [];
    }
  }
}
