/** broker.py on values: which queue a published message goes to. */
module BrokerSpec {
  import opened Json
  import opened Keys
  import opened GroupSpec

  type QueueId = nat
  datatype Delivery = Delivery(tp: TopicPartition, offset: int, payload: Json)
  type Queues = map<QueueId, seq<Delivery>>
  type GroupEvents = map<GroupTopic, map<ConsumerId, bool>>
  type GroupQueues = map<GroupTopic, map<ConsumerId, QueueId>>
  type Consumers = map<string, seq<QueueId>>

  /** Nested dictionaries lose an entry with their last key. */
  function Without<V>(m: map<GroupTopic, map<ConsumerId, V>>, gt: GroupTopic, c: ConsumerId)
    : map<GroupTopic, map<ConsumerId, V>>
  {
    if gt !in m then m else if m[gt] - {c} == map[] then m - {gt} else m[gt := m[gt] - {c}]
  }

  function With<V>(m: map<GroupTopic, map<ConsumerId, V>>, gt: GroupTopic, c: ConsumerId, v: V)
    : map<GroupTopic, map<ConsumerId, V>>
  {
    m[gt := (if gt in m then m[gt] else map[])[c := v]]
  }

  /** Every member of the group has been woken, and no other group's. */
  ghost predicate WokenUp(before: GroupEvents, after: GroupEvents, gt: GroupTopic) {
    && (gt in after ==> forall c :: c in after[gt] ==> after[gt][c])
    && (forall gt' :: gt' != gt ==>
          (gt' in after <==> gt' in before) && (gt' in after ==> after[gt'] == before[gt']))
  }

  lemma WithOthers(events: GroupEvents, gt: GroupTopic, c: ConsumerId, v: bool)
    ensures gt in With(events, gt, c, v)
    ensures forall after :: WokenUp(With(events, gt, c, v), after, gt) ==> WokenUp(events, after, gt)
  {
  }

  lemma WithoutOthers(events: GroupEvents, gt: GroupTopic, c: ConsumerId)
    ensures forall after :: WokenUp(Without(events, gt, c), after, gt) ==> WokenUp(events, after, gt)
  {
  }

  /** The consumers a table holds for a group are its members. */
  ghost predicate Tracks<V>(table: map<GroupTopic, map<ConsumerId, V>>, m: Membership) {
    && table.Keys == m.Keys
    && (forall gt :: gt in m ==> forall c :: c in table[gt] <==> c in m[gt])
  }

  predicate Uses(gq: GroupQueues, gt: GroupTopic, c: ConsumerId, q: QueueId) {
    gt in gq && c in gq[gt] && gq[gt][c] == q
  }

  ghost predicate Unshared(gq: GroupQueues) {
    forall gt, c, gt', c', q :: Uses(gq, gt, c, q) && Uses(gq, gt', c', q) ==> gt == gt' && c == c'
  }

  ghost predicate Open(gq: GroupQueues, consumers: Consumers, queues: Queues) {
    && (forall gt, c, q :: Uses(gq, gt, c, q) ==> q in queues)
    && (forall t, q :: t in consumers && q in consumers[t] ==> q in queues)
  }

  ghost predicate Apart(gq: GroupQueues, consumers: Consumers) {
    forall t, q, gt, c :: t in consumers && q in consumers[t] ==> !Uses(gq, gt, c, q)
  }

  ghost predicate OneTopic(consumers: Consumers) {
    forall t, t', q :: t in consumers && t' in consumers && q in consumers[t] && q in consumers[t'] ==> t == t'
  }

  /** No two consumers share a queue, and no queue of a group is a standalone one. */
  ghost predicate OwnQueues(gq: GroupQueues, consumers: Consumers, queues: Queues) {
    && Unshared(gq) && Open(gq, consumers, queues) && Apart(gq, consumers) && OneTopic(consumers)
    && (forall t :: t in consumers ==> Distinct(consumers[t]))
  }

  /** The one queue of a group that a message goes to: that of the member at place p mod n. */
  predicate GroupTarget(m: Membership, gq: GroupQueues, count: nat, gt: GroupTopic, d: Delivery, q: QueueId) {
    gt in m && m[gt] != [] && gt.1 == d.tp.topic && d.tp.id < count && Uses(gq, gt, m[gt][d.tp.id % |m[gt]|], q)
  }

  ghost predicate GroupsTarget(m: Membership, gq: GroupQueues, count: nat, d: Delivery, q: QueueId) {
    exists gt :: GroupTarget(m, gq, count, gt, d, q)
  }

  predicate StandaloneTarget(consumers: Consumers, d: Delivery, q: QueueId) {
    d.tp.topic in consumers && q in consumers[d.tp.topic]
  }

  lemma TracksWith<V>(table: map<GroupTopic, map<ConsumerId, V>>, m: Membership, gt: GroupTopic, c: ConsumerId, v: V)
    requires Tracks(table, m)
    ensures Tracks(With(table, gt, c, v), m[gt := Joined(MembersOf(m, gt), c)])
  {
  }

  /** A session that wakes up and registers again keeps its group in step exactly if it is still a member, which
      sessions with distinct consumer ids are. */
  lemma RejoiningKeepsStep<V>(table: map<GroupTopic, map<ConsumerId, V>>, m: Membership, gt: GroupTopic, c: ConsumerId)
    requires Tracks(table, m)
    ensures Tracks(table, m[gt := Joined(MembersOf(m, gt), c)]) <==> c in MembersOf(m, gt)
  {
    var m' := m[gt := Joined(MembersOf(m, gt), c)];
    if c in MembersOf(m, gt) {
      assert m' == m;
    } else if gt in m {
      assert c in m'[gt] && c !in table[gt];
    }
  }

  lemma TracksWithout<V>(
    table: map<GroupTopic, map<ConsumerId, V>>, m: Membership, gt: GroupTopic, c: ConsumerId, rest: seq<ConsumerId>)
    requires Tracks(table, m) && forall c' :: c' in rest <==> c' in MembersOf(m, gt) && c' != c
    ensures Tracks(Without(table, gt, c), WithMembers(m, gt, rest))
  {
    if gt in table {
      assert gt in m;
      var left := table[gt] - {c};
      if rest == [] {
        forall c' ensures c' !in left { assert c' !in rest && (c' in table[gt] <==> c' in m[gt]); }
        assert left.Keys == {};
      } else {
        assert rest[0] in rest;
        assert rest[0] in left;
      }
    } else {
      if rest != [] { SomeMember(rest); }
    }
  }

  lemma SomeMember<T>(s: seq<T>)
    requires s != []
    ensures exists x :: x in s
  {
    assert s[0] in s;
  }

  /** The same keys at both levels. */
  ghost predicate SameKeys<V>(a: map<GroupTopic, map<ConsumerId, V>>, b: map<GroupTopic, map<ConsumerId, V>>) {
    a.Keys == b.Keys && forall gt :: gt in a ==> a[gt].Keys == b[gt].Keys
  }

  lemma TracksSame<V>(a: map<GroupTopic, map<ConsumerId, V>>, b: map<GroupTopic, map<ConsumerId, V>>, m: Membership)
    requires Tracks(a, m) && SameKeys(a, b)
    ensures Tracks(b, m)
  {
    forall gt | gt in m ensures forall c :: c in b[gt] <==> c in m[gt] {
      assert a[gt].Keys == b[gt].Keys;
      forall c ensures c in b[gt] <==> c in m[gt] { assert c in a[gt] <==> c in a[gt].Keys; }
    }
  }

  lemma UsesWith(
    gq: GroupQueues, gt: GroupTopic, c: ConsumerId, q: QueueId, gt': GroupTopic, c': ConsumerId, q': QueueId)
    ensures Uses(With(gq, gt, c, q), gt', c', q') <==> if gt' == gt && c' == c then q' == q else Uses(gq, gt', c', q')
  {
  }

  lemma OwnWith(gq: GroupQueues, consumers: Consumers, queues: Queues, gt: GroupTopic, c: ConsumerId, q: QueueId)
    requires OwnQueues(gq, consumers, queues) && q !in queues
    ensures OwnQueues(With(gq, gt, c, q), consumers, queues[q := []])
  {
    hide Distinct, Uses, With;
    forall gt', c', q'
      ensures Uses(With(gq, gt, c, q), gt', c', q') <==> if gt' == gt && c' == c then q' == q else Uses(gq, gt', c', q')
    {
      UsesWith(gq, gt, c, q, gt', c', q');
    }
  }

  lemma OwnWithout(gq: GroupQueues, consumers: Consumers, queues: Queues, gt: GroupTopic, c: ConsumerId)
    requires OwnQueues(gq, consumers, queues)
    ensures OwnQueues(Without(gq, gt, c), consumers, queues)
  {
    hide Distinct, Uses, Without;
    forall gt', c', q | Uses(Without(gq, gt, c), gt', c', q)
      ensures Uses(gq, gt', c', q)
    {
      UsesWithout(gq, gt, c, gt', c', q);
    }
  }

  lemma UsesWithout(gq: GroupQueues, gt: GroupTopic, c: ConsumerId, gt': GroupTopic, c': ConsumerId, q: QueueId)
    requires Uses(Without(gq, gt, c), gt', c', q)
    ensures Uses(gq, gt', c', q)
  {
  }

  /** Exactly one queue of each group that has members receives a message of one of the group's partitions, and none
      receives any other message; different groups' queues are different. */
  lemma OneQueuePerGroup(
    m: Membership, gq: GroupQueues, consumers: Consumers, queues: Queues, count: nat, gt: GroupTopic, d: Delivery)
    requires Tracks(gq, m) && OwnQueues(gq, consumers, queues) && (gt in m ==> m[gt] != [])
    ensures gt in m && gt.1 == d.tp.topic && d.tp.id < count <==> exists q :: GroupTarget(m, gq, count, gt, d, q)
    ensures forall q, q' :: GroupTarget(m, gq, count, gt, d, q) && GroupTarget(m, gq, count, gt, d, q') ==> q == q'
    ensures forall q, gt' :: GroupTarget(m, gq, count, gt, d, q) && GroupTarget(m, gq, count, gt', d, q) ==> gt == gt'
  {
    hide Distinct;
    if gt in m && gt.1 == d.tp.topic && d.tp.id < count {
      var owner := m[gt][d.tp.id % |m[gt]|];
      assert owner in m[gt];
      assert GroupTarget(m, gq, count, gt, d, gq[gt][owner]);
    }
  }

  /** One of the given groups has put the message on this queue. */
  ghost predicate Passed(done: set<GroupTopic>, m: Membership, gq: GroupQueues, count: nat, d: Delivery, q: QueueId) {
    exists gt :: gt in done && GroupTarget(m, gq, count, gt, d, q)
  }

  lemma PassedOneMore(
    done: set<GroupTopic>, gt: GroupTopic, m: Membership, gq: GroupQueues, count: nat, d: Delivery, q: QueueId)
    requires Unshared(gq) && gt !in done
    ensures Passed(done + {gt}, m, gq, count, d, q)
      <==> Passed(done, m, gq, count, d, q) || GroupTarget(m, gq, count, gt, d, q)
    ensures GroupTarget(m, gq, count, gt, d, q) ==> !Passed(done, m, gq, count, d, q)
    ensures gt.1 != d.tp.topic ==> !GroupTarget(m, gq, count, gt, d, q)
  {
  }

  /** The queues after the given groups had their turn. */
  ghost predicate Handed(
    before: Queues, after: Queues, done: set<GroupTopic>, m: Membership, gq: GroupQueues, count: nat, d: Delivery)
  {
    && after.Keys == before.Keys
    && (forall q :: q in after ==> after[q] == before[q] + (if Passed(done, m, gq, count, d, q) then [d] else []))
  }

  lemma HandedNobody(queues: Queues, m: Membership, gq: GroupQueues, count: nat, d: Delivery)
    ensures Handed(queues, queues, {}, m, gq, count, d)
  {
  }

  lemma HandedOneMore(
    before: Queues, between: Queues, after: Queues, done: set<GroupTopic>, gt: GroupTopic,
    m: Membership, gq: GroupQueues, count: nat, d: Delivery)
    requires Unshared(gq) && gt !in done && Handed(before, between, done, m, gq, count, d) && after.Keys == between.Keys
    requires forall q :: q in after ==>
      after[q] == between[q] + (if GroupTarget(m, gq, count, gt, d, q) then [d] else [])
    ensures Handed(before, after, done + {gt}, m, gq, count, d)
  {
    hide Unshared, Passed, GroupTarget;
    forall q | q in after
      ensures after[q] == before[q] + (if Passed(done + {gt}, m, gq, count, d, q) then [d] else [])
    {
      PassedOneMore(done, gt, m, gq, count, d, q);
      assert between[q] + [] == between[q] && before[q] + [] == before[q];
    }
  }

  lemma HandedAll(before: Queues, after: Queues, m: Membership, gq: GroupQueues, count: nat, d: Delivery)
    requires Handed(before, after, m.Keys, m, gq, count, d)
    ensures after.Keys == before.Keys
    ensures forall q :: q in after ==> after[q] == before[q] + (if GroupsTarget(m, gq, count, d, q) then [d] else [])
  {
  }

  lemma TargetIsOpen(
    m: Membership, gq: GroupQueues, consumers: Consumers, queues: Queues, count: nat,
    gt: GroupTopic, d: Delivery, q: QueueId)
    requires Open(gq, consumers, queues) && GroupTarget(m, gq, count, gt, d, q)
    ensures q in queues
  {
  }

  /** In every group of the topic that has members, the member at place p mod n finds the message at the end of its
      queue. */
  ghost predicate OwnersServed(
    m: Membership, gq: GroupQueues, count: nat, before: Queues, after: Queues, d: Delivery)
  {
    forall gt :: gt in m && gt.1 == d.tp.topic && d.tp.id < count ==>
      && m[gt] != [] && gt in gq && m[gt][d.tp.id % |m[gt]|] in gq[gt]
      && var q := gq[gt][m[gt][d.tp.id % |m[gt]|]];
         q in before && q in after && after[q] == before[q] + [d]
  }

  /** No other member's queue changes. */
  ghost predicate OthersKept(
    m: Membership, gq: GroupQueues, count: nat, before: Queues, after: Queues, d: Delivery)
  {
    forall gt, c :: gt in gq && c in gq[gt] ==>
      && gq[gt][c] in before && gq[gt][c] in after
      && ((gt.1 == d.tp.topic && d.tp.id < count && gt in m && m[gt] != [] && c == m[gt][d.tp.id % |m[gt]|])
          || after[gq[gt][c]] == before[gq[gt][c]])
  }

  /** The standalone queues of the topic have the message at their end, and no other topic's changes. */
  ghost predicate ListenersServed(consumers: Consumers, before: Queues, after: Queues, d: Delivery) {
    forall t, q :: t in consumers && q in consumers[t] ==>
      q in before && q in after && after[q] == before[q] + if t == d.tp.topic then [d] else []
  }

  /** The member at place p mod n is the one whose queue a message is meant for. */
  lemma OwnerIsTargeted(
    m: Membership, gq: GroupQueues, consumers: Consumers, queues: Queues, count: nat, gt: GroupTopic, d: Delivery)
    requires Tracks(gq, m) && Open(gq, consumers, queues) && Apart(gq, consumers)
    requires gt in m && m[gt] != [] && gt.1 == d.tp.topic && d.tp.id < count
    ensures var c := m[gt][d.tp.id % |m[gt]|];
      gt in gq && c in gq[gt] && gq[gt][c] in queues
        && GroupsTarget(m, gq, count, d, gq[gt][c]) && !StandaloneTarget(consumers, d, gq[gt][c])
  {
    var c := m[gt][d.tp.id % |m[gt]|];
    assert c in m[gt];
    assert Uses(gq, gt, c, gq[gt][c]);
    assert GroupTarget(m, gq, count, gt, d, gq[gt][c]);
  }

  lemma OthersAreNot(
    m: Membership, gq: GroupQueues, consumers: Consumers, queues: Queues, count: nat, gt: GroupTopic, c: ConsumerId,
    d: Delivery)
    requires Unshared(gq) && Open(gq, consumers, queues) && Apart(gq, consumers) && gt in gq && c in gq[gt]
    ensures gq[gt][c] in queues && !StandaloneTarget(consumers, d, gq[gt][c])
    ensures !(gt.1 == d.tp.topic && d.tp.id < count && gt in m && m[gt] != [] && c == m[gt][d.tp.id % |m[gt]|])
      ==> !GroupsTarget(m, gq, count, d, gq[gt][c])
  {
    assert Uses(gq, gt, c, gq[gt][c]);
  }

  lemma StandaloneOnly(
    m: Membership, gq: GroupQueues, consumers: Consumers, queues: Queues, count: nat, t: string, q: QueueId,
    d: Delivery)
    requires Open(gq, consumers, queues) && Apart(gq, consumers) && OneTopic(consumers)
    requires t in consumers && q in consumers[t]
    ensures q in queues && !GroupsTarget(m, gq, count, d, q) && (StandaloneTarget(consumers, d, q) <==> t == d.tp.topic)
  {
  }

  /** What is put on the queues, said of members and consumers. */
  lemma ServedExactly(
    m: Membership, gq: GroupQueues, consumers: Consumers, count: nat, before: Queues, after: Queues, d: Delivery)
    requires Tracks(gq, m) && OwnQueues(gq, consumers, before) && after.Keys == before.Keys
    requires forall gt :: gt in m ==> m[gt] != []
    requires forall q :: q in after ==>
      after[q] == before[q] + ((if StandaloneTarget(consumers, d, q) then [d] else [])
        + (if GroupsTarget(m, gq, count, d, q) then [d] else []))
    ensures OwnersServed(m, gq, count, before, after, d) && OthersKept(m, gq, count, before, after, d)
    ensures ListenersServed(consumers, before, after, d)
  {
    hide Tracks, Unshared, Open, Apart, OneTopic, Distinct, StandaloneTarget, GroupsTarget;
    forall gt | gt in m && gt.1 == d.tp.topic && d.tp.id < count
      ensures var c := m[gt][d.tp.id % |m[gt]|];
        gt in gq && c in gq[gt] && gq[gt][c] in before && after[gq[gt][c]] == before[gq[gt][c]] + [d]
    {
      OwnerIsTargeted(m, gq, consumers, before, count, gt, d);
      assert [] + [d] == [d];
    }
    forall gt, c | gt in gq && c in gq[gt]
      ensures gq[gt][c] in before
        && ((gt.1 == d.tp.topic && d.tp.id < count && gt in m && m[gt] != [] && c == m[gt][d.tp.id % |m[gt]|])
          || after[gq[gt][c]] == before[gq[gt][c]])
    {
      OthersAreNot(m, gq, consumers, before, count, gt, c, d);
      assert before[gq[gt][c]] + [] == before[gq[gt][c]];
    }
    forall t, q | t in consumers && q in consumers[t]
      ensures q in before && after[q] == before[q] + if t == d.tp.topic then [d] else []
    {
      StandaloneOnly(m, gq, consumers, before, count, t, q, d);
      assert [d] + [] == [d] && before[q] + [] == before[q];
    }
  }

  // ----- standalone queues -----

  function Subscribed(consumers: Consumers, topic: string): seq<QueueId> {
    if topic in consumers then consumers[topic] else []
  }

  /** `list.remove` of a queue, and of the topic with its last queue. */
  function WithoutQueue(consumers: Consumers, topic: string, rest: seq<QueueId>): Consumers {
    if rest == [] then consumers - {topic} else consumers[topic := rest]
  }

  lemma FewerQueues(consumers: Consumers, topic: string, rest: seq<QueueId>)
    ensures var after := WithoutQueue(consumers, topic, rest);
      && (forall t :: t != topic ==> (t in after <==> t in consumers) && (t in after ==> after[t] == consumers[t]))
      && if rest == [] then topic !in after else topic in after && after[topic] == rest
  {
  }

  lemma OwnStandalone(gq: GroupQueues, consumers: Consumers, queues: Queues, topic: string, q: QueueId)
    requires OwnQueues(gq, consumers, queues) && q !in queues
    ensures OwnQueues(gq, consumers[topic := Subscribed(consumers, topic) + [q]], queues[q := []])
  {
    hide Uses;
    var ids := Subscribed(consumers, topic);
    assert q !in ids;
    assert Distinct(ids + [q]);
  }

  lemma OwnFewer(gq: GroupQueues, consumers: Consumers, queues: Queues, topic: string, rest: seq<QueueId>)
    requires OwnQueues(gq, consumers, queues) && Distinct(rest) && forall q :: q in rest ==>
      q in Subscribed(consumers, topic)
    ensures OwnQueues(gq, WithoutQueue(consumers, topic, rest), queues)
  {
    hide Uses, Distinct;
  }
}
