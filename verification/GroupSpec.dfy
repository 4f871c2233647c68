/** groups.py on values: members in joining order, and the round-robin assignment of partitions. */
module GroupSpec {
  import opened Keys

  type ConsumerId = string
  type GroupTopic = (string, string)
  type Assignment = map<ConsumerId, seq<TopicPartition>>

  ghost predicate Distinct<T>(s: seq<T>) { forall i, j :: 0 <= i < j < |s| ==> s[i] != s[j] }

  function Joined(members: seq<ConsumerId>, c: ConsumerId): seq<ConsumerId> {
    if c in members then members else members + [c]
  }

  /** `list.remove`: the first occurrence goes. */
  function Left<T(==)>(members: seq<T>, c: T): seq<T> {
    if members == [] then [] else if members[0] == c then members[1..] else [members[0]] + Left(members[1..], c)
  }

  /** Of partitions 0..count-1, those a member at the given place owns, in order. */
  function Share(topic: string, count: nat, n: nat, place: nat): seq<TopicPartition>
    requires n > 0
  {
    if count == 0 then [] else
      Share(topic, count - 1, n, place) + if (count - 1) % n == place then [TopicPartition(topic, count - 1)] else []
  }

  function Owned(a: Assignment, c: ConsumerId): seq<TopicPartition> { if c in a then a[c] else [] }

  /** The assignment of partitions 0..count-1 to these members; members without a partition have no entry. */
  ghost predicate RoundRobin(a: Assignment, members: seq<ConsumerId>, topic: string, count: nat) {
    && (forall c :: c in a ==> c in members && a[c] != [])
    && (forall j :: 0 <= j < |members| ==> Owned(a, members[j]) == Share(topic, count, |members|, j))
  }

  // ----- joining and leaving -----

  lemma JoinedDistinct(members: seq<ConsumerId>, c: ConsumerId)
    requires Distinct(members)
    ensures Distinct(Joined(members, c)) && forall m :: m in Joined(members, c) <==> m in members || m == c
  {
  }

  lemma {:induction false} LeftDistinct<T>(members: seq<T>, c: T)
    requires Distinct(members)
    ensures Distinct(Left(members, c)) && forall m :: m in Left(members, c) <==> m in members && m != c
    ensures |Left(members, c)| == if c in members then |members| - 1 else |members|
    ensures c !in members ==> Left(members, c) == members
  {
    if members != [] {
      assert Distinct(members[1..]) by {
        forall i, j | 0 <= i < j < |members| - 1 ensures members[1..][i] != members[1..][j] {
          assert members[i + 1] != members[j + 1];
        }
      }
      LeftDistinct(members[1..], c);
      assert members == [members[0]] + members[1..];
      assert members[0] !in members[1..];
    }
  }

  lemma {:induction false} LeftSplit<T>(members: seq<T>, c: T, i: nat)
    requires i < |members| && members[i] == c && c !in members[..i]
    ensures Left(members, c) == members[..i] + members[i + 1..]
  {
    if i > 0 {
      assert c !in members[1..][..i - 1] by { assert members[1..][..i - 1] == members[..i][1..]; }
      LeftSplit(members[1..], c, i - 1);
    }
  }

  lemma LeftHere(members: seq<ConsumerId>, c: ConsumerId)
    requires Distinct(members)
    ensures forall i :: 0 <= i < |members| && members[i] == c ==> Left(members, c) == members[..i] + members[i + 1..]
  {
    forall i | 0 <= i < |members| && members[i] == c
      ensures Left(members, c) == members[..i] + members[i + 1..]
    {
      LeftSplit(members, c, i);
    }
  }

  /** The first occurrence taken out. */
  method Remove<T(==)>(members: seq<T>, c: T) returns (rest: seq<T>)
    requires c in members
    ensures rest == Left(members, c)
  {
    var i := 0;
    while members[i] != c
      invariant i < |members| && c !in members[..i] && c in members[i..]
      decreases |members| - i
    {
      assert members[..i + 1] == members[..i] + [members[i]] && members[i..] == [members[i]] + members[i + 1..];
      i := i + 1;
    }
    LeftSplit(members, c, i);
    return members[..i] + members[i + 1..];
  }

  // ----- the assignment is a balanced exact cover -----

  lemma {:induction false} ShareHolds(topic: string, count: nat, n: nat, place: nat, tp: TopicPartition)
    requires n > 0
    ensures tp in Share(topic, count, n, place) <==> tp.topic == topic && tp.id < count && tp.id % n == place
  {
    if count > 0 { ShareHolds(topic, count - 1, n, place, tp); }
  }

  lemma {:induction false} ShareSize(topic: string, count: nat, n: nat, place: nat)
    requires place < n
    ensures |Share(topic, count, n, place)| == count / n + if place < count % n then 1 else 0
  {
    if count > 0 {
      ShareSize(topic, count - 1, n, place);
      DivStep(count, n);
      OneMoreShare((count - 1) / n, (count - 1) % n, count / n, count % n, n, place);
    }
  }

  lemma OneMoreShare(q: nat, r: nat, q': nat, r': nat, n: nat, place: nat)
    requires place < n && r < n && if r == n - 1 then r' == 0 && q' == q + 1 else r' == r + 1 && q' == q
    ensures q' + (if place < r' then 1 else 0) == q + (if place < r then 1 else 0) + (if r == place then 1 else 0)
  {
  }

  lemma DivStep(count: nat, n: nat)
    requires n > 0 && count > 0
    ensures if (count - 1) % n == n - 1 then count % n == 0 && count / n == (count - 1) / n + 1
            else count % n == (count - 1) % n + 1 && count / n == (count - 1) / n
  {
    var (q, r) := ((count - 1) / n, (count - 1) % n);
    assert count == n * q + (r + 1);
    if r == n - 1 {
      assert count == n * (q + 1) + 0;
      DivUnique(count, n, q + 1, 0);
    } else {
      DivUnique(count, n, q, r + 1);
    }
  }

  lemma DivUnique(x: nat, n: nat, q: nat, r: nat)
    requires n > 0 && x == n * q + r && r < n
    ensures x / n == q && x % n == r
  {
    var (q', r') := (x / n, x % n);
    assert x == n * q' + r';
    if q > q' { Monotone(n, q' + 1, q); }
    if q < q' { Monotone(n, q + 1, q'); }
  }

  lemma Monotone(n: nat, a: nat, b: nat)
    requires a <= b
    ensures n * a <= n * b
  {
    assert n * b == n * a + n * (b - a);
  }

  lemma {:induction false} ShareDistinct(topic: string, count: nat, n: nat, place: nat)
    requires n > 0
    ensures Distinct(Share(topic, count, n, place))
  {
    if count > 0 {
      ShareDistinct(topic, count - 1, n, place);
      ShareHolds(topic, count - 1, n, place, TopicPartition(topic, count - 1));
    }
  }

  /** A non-empty group: every partition has exactly one owner, the member at place p mod n; nobody owns anything
      else or anything twice; loads are the floor or the ceiling of count / n. */
  lemma BalancedCover(a: Assignment, members: seq<ConsumerId>, topic: string, count: nat)
    requires RoundRobin(a, members, topic, count) && Distinct(members) && members != []
    ensures forall p: nat, c :: p < count ==> (TopicPartition(topic, p) in Owned(a, c) <==> c == members[p % |members|])
    ensures forall tp, c :: tp in Owned(a, c) ==> tp.topic == topic && tp.id < count
    ensures forall c :: Distinct(Owned(a, c))
    ensures forall c :: c in members ==>
      count / |members| <= |Owned(a, c)| <= (count + |members| - 1) / |members|
  {
    hide Share;
    var n := |members|;
    forall c | c in members
      ensures Distinct(Owned(a, c)) && count / n <= |Owned(a, c)| <= (count + n - 1) / n
    {
      var j :| 0 <= j < n && members[j] == c;
      ShareDistinct(topic, count, n, j);
      ShareSize(topic, count, n, j);
      Ceiling(count, n);
    }
    forall tp, c
      ensures tp in Owned(a, c) <==> c in members && tp.topic == topic && tp.id < count && members[tp.id % n] == c
    {
      if c in members {
        var j :| 0 <= j < n && members[j] == c;
        ShareHolds(topic, count, n, j, tp);
      }
    }
  }

  lemma Ceiling(count: nat, n: nat)
    requires n > 0
    ensures (count + n - 1) / n == count / n + if count % n > 0 then 1 else 0
  {
    var (q, r) := (count / n, count % n);
    if r > 0 {
      assert count + n - 1 == n * (q + 1) + (r - 1);
      DivUnique(count + n - 1, n, q + 1, r - 1);
    } else {
      DivUnique(count + n - 1, n, q, n - 1);
    }
  }

  /** An empty group owns nothing. */
  lemma EmptyOwnsNothing(a: Assignment, topic: string, count: nat)
    requires RoundRobin(a, [], topic, count)
    ensures a == map[]
  {
    assert a.Keys == {};
  }

  // ----- every group at once -----

  type Membership = map<GroupTopic, seq<ConsumerId>>
  type Assignments = map<GroupTopic, Assignment>

  function MembersOf(m: Membership, gt: GroupTopic): seq<ConsumerId> { if gt in m then m[gt] else [] }

  function WithMembers(m: Membership, gt: GroupTopic, members: seq<ConsumerId>): Membership {
    if members == [] then m - {gt} else m[gt := members]
  }

  /** Members are duplicate-free, groups without members have no entry, and every assignment is round-robin. */
  ghost predicate Balanced(m: Membership, a: Assignments, count: nat) {
    && (forall gt :: gt in m ==> m[gt] != [] && Distinct(m[gt]) && gt in a)
    && (forall gt :: gt in a ==> RoundRobin(a[gt], MembersOf(m, gt), gt.1, count))
  }

  lemma BalancedDistinct(m: Membership, a: Assignments, count: nat, gt: GroupTopic)
    requires Balanced(m, a, count)
    ensures Distinct(MembersOf(m, gt))
  {
  }

  lemma BalancedUpdate(
    m: Membership, a: Assignments, count: nat, gt: GroupTopic, members: seq<ConsumerId>, share: Assignment)
    requires Balanced(m, a, count) && Distinct(members) && RoundRobin(share, members, gt.1, count)
    ensures Balanced(WithMembers(m, gt, members), a[gt := share], count)
    ensures MembersOf(WithMembers(m, gt, members), gt) == members
  {
    hide RoundRobin, Distinct;
  }

  datatype GroupOp = Register(gt: GroupTopic, c: ConsumerId) | Deregister(gt: GroupTopic, c: ConsumerId)

  /** A group's members after a sequence of calls. */
  function MembersAfter(ops: seq<GroupOp>, gt: GroupTopic): seq<ConsumerId> {
    if ops == [] then [] else
      var (before, op) := (MembersAfter(ops[..|ops| - 1], gt), ops[|ops| - 1]);
      if op.gt != gt then before else if op.Register? then Joined(before, op.c) else Left(before, op.c)
  }

  /** The last call about this consumer registered it. */
  predicate IsIn(ops: seq<GroupOp>, gt: GroupTopic, c: ConsumerId) {
    ops != [] &&
    var op := ops[|ops| - 1];
    if op.gt == gt && op.c == c then op.Register? else IsIn(ops[..|ops| - 1], gt, c)
  }

  /** After any calls the members are exactly the consumers registered last and not gone since, each once. */
  lemma {:induction false} MembersExactly(ops: seq<GroupOp>, gt: GroupTopic)
    ensures Distinct(MembersAfter(ops, gt))
    ensures forall c :: c in MembersAfter(ops, gt) <==> IsIn(ops, gt, c)
  {
    if ops != [] {
      var (front, op) := (ops[..|ops| - 1], ops[|ops| - 1]);
      MembersExactly(front, gt);
      if op.gt == gt {
        if op.Register? {
          JoinedDistinct(MembersAfter(front, gt), op.c);
        } else {
          LeftDistinct(MembersAfter(front, gt), op.c);
        }
      }
    }
  }

  /** The i-th call made the consumer a member, and it has stayed one since. */
  ghost predicate JoinedAt(ops: seq<GroupOp>, gt: GroupTopic, c: ConsumerId, i: nat) {
    && i < |ops| && ops[i] == Register(gt, c) && !IsIn(ops[..i], gt, c)
    && forall j :: i < j < |ops| ==> ops[j] != Deregister(gt, c)
  }

  lemma JoinedAtFront(ops: seq<GroupOp>, gt: GroupTopic, c: ConsumerId, i: nat)
    requires ops != []
    ensures var (front, op) := (ops[..|ops| - 1], ops[|ops| - 1]);
      JoinedAt(ops, gt, c, i) <==>
        if i == |front| then op == Register(gt, c) && !IsIn(front, gt, c)
        else JoinedAt(front, gt, c, i) && op != Deregister(gt, c)
  {
    hide IsIn;
    var front := ops[..|ops| - 1];
    if i < |front| {
      assert front[..i] == ops[..i];
      assert forall j :: i < j < |front| ==> front[j] == ops[j];
    } else if i == |front| {
      assert ops[..i] == front;
    }
  }

  lemma {:induction false} JoinedIsIn(ops: seq<GroupOp>, gt: GroupTopic, c: ConsumerId)
    ensures IsIn(ops, gt, c) <==> exists i :: JoinedAt(ops, gt, c, i)
  {
    hide JoinedAt;
    if ops == [] {
      NobodyJoined(gt, c);
    } else {
      var (front, op) := (ops[..|ops| - 1], ops[|ops| - 1]);
      JoinedIsIn(front, gt, c);
      forall i: nat
        ensures JoinedAt(ops, gt, c, i) <==>
          if i == |front| then op == Register(gt, c) && !IsIn(front, gt, c)
          else JoinedAt(front, gt, c, i) && op != Deregister(gt, c)
      {
        JoinedAtFront(ops, gt, c, i);
      }
      JoinedBefore(front, gt, c);
      if IsIn(front, gt, c) {
        var i: nat :| JoinedAt(front, gt, c, i);
        assert op != Deregister(gt, c) ==> JoinedAt(ops, gt, c, i);
      } else {
        assert op == Register(gt, c) ==> JoinedAt(ops, gt, c, |front|);
      }
    }
  }

  lemma NobodyJoined(gt: GroupTopic, c: ConsumerId)
    ensures forall i: nat :: !JoinedAt([], gt, c, i)
  {
  }

  lemma JoinedBefore(ops: seq<GroupOp>, gt: GroupTopic, c: ConsumerId)
    ensures forall i: nat :: JoinedAt(ops, gt, c, i) ==> i < |ops|
  {
  }

  /** Members stand in the order in which they joined. */
  ghost predicate InOrder(ops: seq<GroupOp>, gt: GroupTopic, members: seq<ConsumerId>) {
    forall x, y, i: nat, j: nat ::
      0 <= x < y < |members| && JoinedAt(ops, gt, members[x], i) && JoinedAt(ops, gt, members[y], j) ==> i < j
  }

  lemma LeftInOrder(ops: seq<GroupOp>, gt: GroupTopic, members: seq<ConsumerId>, c: ConsumerId)
    requires InOrder(ops, gt, members)
    ensures InOrder(ops, gt, Left(members, c))
  {
    hide JoinedAt;
    var k := FirstPlace(members, c);
    if k < |members| {
      LeftSplit(members, c, k);
      hide Left;
      var rest := members[..k] + members[k + 1..];
      forall x, y, i: nat, j: nat
        | 0 <= x < y < |rest| && JoinedAt(ops, gt, rest[x], i) && JoinedAt(ops, gt, rest[y], j)
        ensures i < j
      {
        var (x', y') := (if x < k then x else x + 1, if y < k then y else y + 1);
        assert rest[x] == members[x'] && rest[y] == members[y'];
      }
    } else {
      LeavesOthers(members, c);
    }
  }

  lemma {:induction false} FirstPlace(members: seq<ConsumerId>, c: ConsumerId) returns (k: nat)
    ensures k <= |members| && c !in members[..k] && (k < |members| ==> members[k] == c)
  {
    k := 0;
    while k < |members| && members[k] != c
      invariant k <= |members| && c !in members[..k]
    {
      k := k + 1;
    }
  }

  lemma {:induction false} LeavesOthers(members: seq<ConsumerId>, c: ConsumerId)
    requires c !in members[..|members|]
    ensures Left(members, c) == members
  {
    if members != [] { LeavesOthers(members[1..], c); }
  }

  /** After any calls the members stand in the order in which they joined, whoever left and came back between. */
  lemma {:induction false} OrderOfJoining(ops: seq<GroupOp>, gt: GroupTopic)
    ensures InOrder(ops, gt, MembersAfter(ops, gt))
    ensures forall c :: c in MembersAfter(ops, gt) ==> exists i :: JoinedAt(ops, gt, c, i)
  {
    hide JoinedAt, InOrder, IsIn;
    MembersExactly(ops, gt);
    forall c | c in MembersAfter(ops, gt) ensures exists i :: JoinedAt(ops, gt, c, i) { JoinedIsIn(ops, gt, c); }
    if ops == [] {
      NobodyInOrder(gt);
    } else {
      var (front, op) := (ops[..|ops| - 1], ops[|ops| - 1]);
      var before := MembersAfter(front, gt);
      OrderOfJoining(front, gt);
      MembersExactly(front, gt);
      if op.gt == gt && op.Deregister? {
        LeftInOrder(front, gt, before, op.c);
        LeftDistinct(before, op.c);
      }
      hide Left;
      OrderKept(front, op, gt, before, MembersAfter(ops, gt));
      assert front + [op] == ops;
    }
  }

  lemma NobodyInOrder(gt: GroupTopic)
    ensures InOrder([], gt, [])
  {
  }

  /** One more call keeps the order of members that it does not take out, and puts a newcomer last. */
  lemma OrderKept(
    front: seq<GroupOp>, op: GroupOp, gt: GroupTopic, before: seq<ConsumerId>, after: seq<ConsumerId>)
    requires Distinct(before) && forall c :: c in before <==> IsIn(front, gt, c)
    requires if op.gt == gt && op.Register? then InOrder(front, gt, before) && after == Joined(before, op.c)
             else InOrder(front, gt, after) && forall c :: c in after ==> c in before
    ensures InOrder(front + [op], gt, after)
  {
    hide JoinedAt, IsIn;
    var ops := front + [op];
    assert ops[..|ops| - 1] == front;
    JoinedIsIn(front, gt, op.c);
    forall x, y, i: nat, j: nat
      | 0 <= x < y < |after| && JoinedAt(ops, gt, after[x], i) && JoinedAt(ops, gt, after[y], j)
      ensures i < j
    {
      JoinedAtFront(ops, gt, after[x], i);
      JoinedAtFront(ops, gt, after[y], j);
      JoinedBefore(ops, gt, after[x]);
      JoinedBefore(ops, gt, after[y]);
      JoinedBefore(front, gt, after[x]);
      assert i < |front| ==> JoinedAt(front, gt, after[x], i);
      assert after[x] in after && after[y] in after;
    }
  }
}
