/** All brokers of a cluster in a stable window, in which heartbeats, elections and promotions interleave. */
module ClusterProtocol {
  // The set of brokers that are up is fixed and replies are reliable. Heartbeats are in flight until delivered, and
  // an election polls one member at a time.

  import opened Wrappers
  import opened Cluster

  /** What a broker's heartbeat loop is in the middle of. */
  datatype Task =
    | Idle
    | Electing(todo: seq<nat>, active: set<nat>)
    | Promoting
    | Beating(todo: seq<nat>)

  datatype Node = Node(st: Standing, task: Task)

  datatype Brokers = Brokers(members: seq<nat>, up: set<nat>, nodes: map<nat, Node>, flight: multiset<(nat, nat)>)

  function Leaders(s: Brokers): set<nat> { set b | b in s.nodes && b in s.up && s.nodes[b].st.role.Leader? }

  datatype Step =
    | Timeout(b: nat)
    | Poll(b: nat)
    | Conclude(b: nat, highest: nat)
    | Promote(b: nat)
    | Beat(b: nat)
    | Send(b: nat, ok: bool)
    | Deliver(b: nat, to: nat)

  predicate CanConclude(task: Task, b: nat, highest: nat) {
    task.Electing? && task.todo == [] && highest in task.active && forall a :: a in task.active ==> a <= highest
  }

  predicate Enabled(s: Brokers, a: Step) {
    match a
    case Timeout(b) => b in s.up && b in s.nodes && s.nodes[b].task.Idle? && s.nodes[b].st.role.Follower?
    case Poll(b) => b in s.nodes && s.nodes[b].task.Electing? && s.nodes[b].task.todo != []
    case Conclude(b, highest) => b in s.nodes && CanConclude(s.nodes[b].task, b, highest)
    case Promote(b) => b in s.nodes && s.nodes[b].task.Promoting?
    case Beat(b) => b in s.up && b in s.nodes && s.nodes[b].task.Idle? && s.nodes[b].st.role.Leader?
    case Send(b, _) => b in s.nodes && s.nodes[b].task.Beating?
    case Deliver(b, to) => (b, to) in s.flight && to in s.nodes
  }

  /** One member asked: it answers if it is up. */
  function Polled(task: Task, b: nat, up: set<nat>): Task
    requires task.Electing? && task.todo != []
  {
    var m := task.todo[0];
    Electing(task.todo[1..], if m != b && m in up then task.active + {m} else task.active)
  }

  /** The broker that a step changes. */
  function Actor(a: Step): nat { if a.Deliver? then a.to else a.b }

  function NodeAfter(s: Brokers, a: Step): Node
    requires Enabled(s, a)
  {
    var (b, n) := (Actor(a), s.nodes[Actor(a)]);
    match a
    case Timeout(_) => n.(task := Electing(s.members, {b}))
    case Poll(_) => n.(task := Polled(n.task, b, s.up))
    case Conclude(_, highest) =>
      if highest == b then n.(task := Promoting) else Node(Concluded(n.st, b, s.members, highest), Idle)
    case Promote(_) => Node(Concluded(n.st, b, s.members, b), Idle)
    case Beat(_) => n.(task := Beating(s.members))
    case Send(_, _) => n.(task := if n.task.todo == [] then Idle else Beating(n.task.todo[1..]))
    case Deliver(sender, _) => if b in s.up then n.(st := Heard(n.st, b, s.members, sender)) else n
  }

  function FlightAfter(s: Brokers, a: Step): multiset<(nat, nat)>
    requires Enabled(s, a)
  {
    match a
    case Send(b, ok) =>
      var todo := s.nodes[b].task.todo;
      if ok && todo != [] && todo[0] != b then s.flight + multiset{(b, todo[0])} else s.flight
    case Deliver(b, to) => s.flight - multiset{(b, to)}
    case _ => s.flight
  }

  function Do(s: Brokers, a: Step): Brokers
    requires Enabled(s, a)
  {
    s.(nodes := s.nodes[Actor(a) := NodeAfter(s, a)], flight := FlightAfter(s, a))
  }

  // ----- the window -----

  ghost predicate IsTop(top: nat, up: set<nat>) { top in up && forall b :: b in up ==> b <= top }

  /** A broker that is up polls from a follower's position and misses nobody; one that is down has nothing under way. */
  ghost predicate TaskOk(n: Node, b: nat, members: seq<nat>, up: set<nat>) {
    match n.task
    case Idle => true
    case Electing(todo, active) =>
      b in up ==>
        && n.st.role.Follower? && b in active && active <= up
        && (forall a :: a in up && a in members && a != b && a !in active ==> a in todo)
    case Promoting => b in up ==> n.st.role.Follower? && IsTop(b, up)
    case Beating(_) => b in up
  }

  /** What the window starts with: no elections or heartbeats left over from a time when other brokers were up. */
  ghost predicate Window(s: Brokers) {
    && s.up <= s.nodes.Keys && (forall b :: b in s.up ==> b in s.members)
    && (forall b :: b in s.nodes ==> TaskOk(s.nodes[b], b, s.members, s.up))
    && (forall h :: h in s.flight ==> h.0 in s.up)
  }

  lemma PollOk(n: Node, b: nat, members: seq<nat>, up: set<nat>)
    requires TaskOk(n, b, members, up) && n.task.Electing? && n.task.todo != []
    ensures TaskOk(n.(task := Polled(n.task, b, up)), b, members, up)
  {
    var todo := n.task.todo;
    forall a | a in todo && a != todo[0] ensures a in todo[1..] {
      var i :| 0 <= i < |todo| && todo[i] == a;
      assert todo[1..][i - 1] == a;
    }
  }

  /** A finished poll finds the top broker. */
  lemma ConcludesTop(n: Node, b: nat, members: seq<nat>, up: set<nat>, highest: nat)
    requires TaskOk(n, b, members, up) && b in up && CanConclude(n.task, b, highest)
    requires forall a :: a in up ==> a in members
    ensures IsTop(highest, up)
  {
  }

  lemma NodeKeeps(s: Brokers, a: Step)
    requires Window(s) && Enabled(s, a)
    ensures TaskOk(NodeAfter(s, a), Actor(a), s.members, s.up)
  {
    hide Polled;
    var (b, n) := (Actor(a), s.nodes[Actor(a)]);
    assert TaskOk(n, b, s.members, s.up);
    match a
    case Poll(_) => PollOk(n, b, s.members, s.up);
    case Conclude(_, highest) =>
      if b in s.up { ConcludesTop(n, b, s.members, s.up, highest); }
    case _ =>
  }

  lemma FlightKeeps(s: Brokers, a: Step)
    requires Window(s) && Enabled(s, a)
    ensures forall h :: h in FlightAfter(s, a) ==> h.0 in s.up
  {
    if a.Send? { assert TaskOk(s.nodes[a.b], a.b, s.members, s.up); }
  }

  lemma StepKeepsWindow(s: Brokers, a: Step)
    requires Window(s) && Enabled(s, a)
    ensures Window(Do(s, a)) && Do(s, a).up == s.up
  {
    hide NodeAfter, FlightAfter, TaskOk;
    NodeKeeps(s, a);
    FlightKeeps(s, a);
  }

  // ----- who leads -----

  /** A heartbeat from above. */
  predicate Deposes(a: Step, b: nat) { a.Deliver? && a.to == b && a.b > b }

  predicate IsLeader(s: Brokers, b: nat) { b in s.nodes && s.nodes[b].st.role.Leader? }

  /** One step makes nobody a leader but the top broker, and takes the lead from nobody but one who hears from above. */
  lemma StepLeads(s: Brokers, a: Step, top: nat, b: nat)
    requires Window(s) && Enabled(s, a) && IsTop(top, s.up) && b in s.up
    ensures IsLeader(Do(s, a), b) <==>
      (IsLeader(s, b) && !Deposes(a, b)) || (b == top && a == Promote(top))
  {
    hide Polled;
    assert TaskOk(s.nodes[b], b, s.members, s.up);
    if a.Conclude? && a.b == b { ConcludesTop(s.nodes[b], b, s.members, s.up, a.highest); }
    assert a.Deliver? ==> (a.b, a.to) in s.flight && a.b <= top;
    hide Window, FlightAfter;
  }

  ghost predicate Reaches(s: Brokers, steps: seq<Step>, s': Brokers)
    decreases |steps|
  {
    if steps == [] then s' == s else Enabled(s, steps[0]) && Reaches(Do(s, steps[0]), steps[1..], s')
  }

  ghost predicate HeardAbove(steps: seq<Step>, b: nat) { exists i :: 0 <= i < |steps| && Deposes(steps[i], b) }

  lemma HeardAboveHead(steps: seq<Step>, b: nat)
    requires steps != []
    ensures HeardAbove(steps, b) <==> Deposes(steps[0], b) || HeardAbove(steps[1..], b)
  {
    if HeardAbove(steps, b) {
      var i :| 0 <= i < |steps| && Deposes(steps[i], b);
      if i > 0 { assert steps[1..][i - 1] == steps[i]; }
    }
    if HeardAbove(steps[1..], b) {
      var i :| 0 <= i < |steps| - 1 && Deposes(steps[1..][i], b);
      assert steps[i + 1] == steps[1..][i];
    }
  }

  /** Exactly who leads at the end of any run: the top broker if it led or was promoted on the way; any other broker
      if it led from the start and no heartbeat from above was delivered to it. */
  lemma {:induction false} LeadersExactly(s: Brokers, steps: seq<Step>, s': Brokers, top: nat, b: nat)
    requires Window(s) && Reaches(s, steps, s') && IsTop(top, s.up) && b in s.up
    ensures Window(s') && s'.up == s.up
    ensures IsLeader(s', b) <==>
      if b == top then IsLeader(s, top) || Promote(top) in steps else IsLeader(s, b) && !HeardAbove(steps, b)
    decreases |steps|
  {
    hide Window, IsLeader, Enabled, Do, Deposes, HeardAbove;
    if steps == [] {
      NothingHeard(b);
    } else {
      var (a, s1) := (steps[0], Do(s, steps[0]));
      StepKeepsWindow(s, a);
      StepLeads(s, a, top, b);
      LeadersExactly(s1, steps[1..], s', top, b);
      HeardAboveHead(steps, b);
      TopHearsNobodyAbove(s, a, top);
      assert steps == [a] + steps[1..];
    }
  }

  lemma NothingHeard(b: nat)
    ensures !HeardAbove([], b)
  {
  }

  lemma TopHearsNobodyAbove(s: Brokers, a: Step, top: nat)
    requires Window(s) && Enabled(s, a) && IsTop(top, s.up)
    ensures !Deposes(a, top)
  {
  }

  /** The leader set gains nobody but the top broker, which never steps down. */
  lemma LeadersConverge(s: Brokers, steps: seq<Step>, s': Brokers, top: nat)
    requires Window(s) && Reaches(s, steps, s') && IsTop(top, s.up)
    ensures Leaders(s') <= Leaders(s) + {top}
    ensures top in Leaders(s) ==> top in Leaders(s')
  {
    hide Reaches, TaskOk, HeardAbove;
    LeadersExactly(s, steps, s', top, top);
    forall b | b in Leaders(s') ensures b in Leaders(s) || b == top { LeadersExactly(s, steps, s', top, b); }
  }

  /** Each heartbeat of the top broker delivered to another leader takes exactly that one out of the leader set. */
  lemma HeartbeatShrinks(s: Brokers, top: nat, to: nat)
    requires Window(s) && IsTop(top, s.up) && to != top && to in Leaders(s) && Enabled(s, Deliver(top, to))
    ensures var after := Leaders(Do(s, Deliver(top, to)));
      after == Leaders(s) - {to} && |after| < |Leaders(s)|
  {
    var s' := Do(s, Deliver(top, to));
    hide TaskOk, Follow;
    assert Leaders(s') == Leaders(s) - {to};
  }

  /** Once every other broker has heard the top broker, which has led at the start or been promoted since, it leads
      alone. */
  lemma OneLeader(s: Brokers, steps: seq<Step>, s': Brokers, top: nat)
    requires Window(s) && Reaches(s, steps, s') && IsTop(top, s.up)
    requires top in Leaders(s) || Promote(top) in steps
    requires forall b :: b in s.up && b != top ==> Deliver(top, b) in steps
    ensures Leaders(s') == {top}
  {
    hide Reaches, TaskOk;
    LeadersExactly(s, steps, s', top, top);
    forall b | b in s.up && b != top ensures !IsLeader(s', b) {
      LeadersExactly(s, steps, s', top, b);
      var i :| 0 <= i < |steps| && steps[i] == Deliver(top, b);
      assert Deposes(steps[i], b);
    }
    assert Window(s');
  }

  /** Nothing keeps a follower on top from its promotion: an election it finishes ends in one. */
  lemma TopElectsItself(s: Brokers, top: nat, highest: nat)
    requires Window(s) && IsTop(top, s.up) && Enabled(s, Conclude(top, highest))
    ensures highest == top && Enabled(Do(s, Conclude(top, highest)), Promote(top))
  {
    hide Polled;
    ConcludesTop(s.nodes[top], top, s.members, s.up, highest);
  }
}
