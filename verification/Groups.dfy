/** groups.py: consumer-group membership and assignment. Nested dictionaries are keyed by (group, topic) here. */
module Groups {
  import opened Keys
  import opened GroupSpec
  import opened Offsets

  class GroupManager {
    const numPartitions: nat
    const offsets: OffsetTable<(string, TopicPartition)>
    var members: Membership
    var assignments: Assignments

    ghost predicate Valid()
      reads this
    {
      Balanced(members, assignments, numPartitions)
    }

    constructor (numPartitions: nat, cell: Cell<(string, TopicPartition)>)
      modifies cell
      ensures Valid() && members == map[] && assignments == map[] && this.numPartitions == numPartitions
      ensures fresh(offsets) && offsets.cell == cell && offsets.Durable()
        && offsets.offsets == Loaded(old(cell.content))
    {
      this.numPartitions := numPartitions;
      offsets := new OffsetTable(cell);
      members, assignments := map[], map[];
    }

    method Rebalance(gt: GroupTopic)
      requires Distinct(MembersOf(members, gt))
      modifies this`assignments
      ensures gt in assignments && assignments == old(assignments)[gt := assignments[gt]]
      ensures RoundRobin(assignments[gt], MembersOf(members, gt), gt.1, numPartitions)
    {
      hide Distinct, RoundRobin;
      var ms := MembersOf(members, gt);
      var a: Assignment := map[];
      RoundRobinStart(ms, gt.1);
      if ms != [] {
        for i := 0 to numPartitions
          invariant RoundRobin(a, ms, gt.1, i) && assignments == old(assignments)
        {
          var (m, tp) := (ms[i % |ms|], TopicPartition(gt.1, i));
          RoundRobinStep(a, ms, gt.1, i);
          a := a[m := Owned(a, m) + [tp]];
        }
      } else {
        RoundRobinNobody(gt.1, numPartitions);
      }
      assignments := assignments[gt := a];
      assert assignments[gt] == a;
    }

    method RegisterConsumer(group: string, c: ConsumerId, topic: string) returns (tps: seq<TopicPartition>)
      requires Valid()
      modifies this`members, this`assignments
      ensures var gt := (group, topic);
        && Valid() && gt in assignments
        && members == old(members)[gt := Joined(MembersOf(old(members), gt), c)]
        && assignments == old(assignments)[gt := assignments[gt]]
        && tps == Owned(assignments[gt], c)
      ensures var before := MembersOf(old(members), (group, topic));
        MembersOf(members, (group, topic)) == if c in before then before else before + [c]
    {
      hide RoundRobin, Distinct, Balanced;
      var gt := (group, topic);
      var joined := Joined(MembersOf(members, gt), c);
      BalancedDistinct(members, assignments, numPartitions, gt);
      JoinedDistinct(MembersOf(members, gt), c);
      if c !in MembersOf(members, gt) {
        members := members[gt := MembersOf(members, gt) + [c]];
        Rebalance(gt);
        BalancedUpdate(old(members), old(assignments), numPartitions, gt, joined, assignments[gt]);
      } else {
        BalancedEntry(members, assignments, numPartitions, gt);
        assert members == members[gt := members[gt]] && assignments == assignments[gt := assignments[gt]];
      }
      tps := Owned(assignments[gt], c);
    }

    method DeregisterConsumer(group: string, c: ConsumerId, topic: string)
      requires Valid()
      modifies this`members, this`assignments
      ensures var gt := (group, topic);
        && Valid() && MembersOf(members, gt) == Left(MembersOf(old(members), gt), c)
        && members == WithMembers(old(members), gt, MembersOf(members, gt))
        && (gt in assignments ==> assignments == old(assignments)[gt := assignments[gt]])
        && assignments.Keys == old(assignments).Keys
      ensures var before := MembersOf(old(members), (group, topic));
        && (c !in before ==> members == old(members))
        && forall i :: 0 <= i < |before| && before[i] == c ==>
             MembersOf(members, (group, topic)) == before[..i] + before[i + 1..]
    {
      hide RoundRobin, Distinct, Balanced;
      var gt := (group, topic);
      BalancedDistinct(members, assignments, numPartitions, gt);
      LeftDistinct(MembersOf(members, gt), c);
      LeftHere(MembersOf(members, gt), c);
      BalancedEntry(members, assignments, numPartitions, gt);
      if gt in members && c in members[gt] {
        var rest := Remove(members[gt], c);
        members := if rest == [] then members - {gt} else members[gt := rest];
        Rebalance(gt);
        BalancedUpdate(old(members), old(assignments), numPartitions, gt, rest, assignments[gt]);
      } else {
        assert gt in members ==> members == members[gt := members[gt]];
        assert gt !in members ==> members == members - {gt};
        assert gt in assignments ==> assignments == assignments[gt := assignments[gt]];
      }
    }

    /** A consumer's partitions: those of its place in the round, none for a consumer that is no member. */
    method GetAssignment(group: string, c: ConsumerId, topic: string) returns (tps: seq<TopicPartition>)
      requires Valid()
      ensures c !in MembersOf(members, (group, topic)) ==> tps == []
      ensures var others := MembersOf(members, (group, topic));
        forall j :: 0 <= j < |others| && others[j] == c ==> tps == Share(topic, numPartitions, |others|, j)
    {
      hide Share;
      if (group, topic) in assignments {
        tps := Owned(assignments[(group, topic)], c);
      } else {
        tps := [];
      }
    }
  }

  lemma BalancedEntry(m: Membership, a: Assignments, count: nat, gt: GroupTopic)
    requires Balanced(m, a, count)
    ensures gt in m ==> gt in a && m[gt] != []
  {
  }

  lemma RoundRobinStart(members: seq<ConsumerId>, topic: string)
    ensures RoundRobin(map[], members, topic, 0)
  {
  }

  lemma RoundRobinNobody(topic: string, count: nat)
    ensures RoundRobin(map[], [], topic, count)
  {
  }

  /** One more partition goes to the member whose turn it is. */
  lemma RoundRobinStep(a: Assignment, members: seq<ConsumerId>, topic: string, i: nat)
    requires Distinct(members) && members != [] && RoundRobin(a, members, topic, i)
    ensures var m := members[i % |members|];
      RoundRobin(a[m := Owned(a, m) + [TopicPartition(topic, i)]], members, topic, i + 1)
  {
  }
}
