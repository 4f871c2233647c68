/** Nothing in a stable window stands in the way of one leader: from every state some run gets there. */
module ClusterProgress {
  import opened Wrappers
  import opened Cluster
  import opened ClusterProtocol

  lemma {:induction false} RunOn(s: Brokers, first: seq<Step>, s1: Brokers, then_: seq<Step>, s2: Brokers)
    requires Reaches(s, first, s1) && Reaches(s1, then_, s2)
    ensures Reaches(s, first + then_, s2)
    decreases |first|
  {
    hide Enabled, Do;
    if first == [] {
      assert first + then_ == then_;
    } else {
      RunOn(Do(s, first[0]), first[1..], s1, then_, s2);
      assert (first + then_)[1..] == first[1..] + then_;
    }
  }

  lemma OneStep(s: Brokers, a: Step)
    requires Enabled(s, a)
    ensures Reaches(s, [a], Do(s, a))
  {
    hide Enabled, Do;
    assert Reaches(Do(s, a), [], Do(s, a));
    assert [a][1..] == [];
  }

  lemma {:induction false} RunKeeps(s: Brokers, steps: seq<Step>, s': Brokers)
    requires Window(s) && Reaches(s, steps, s')
    ensures Window(s') && s'.up == s.up && s'.members == s.members
    decreases |steps|
  {
    hide Window, Enabled, NodeAfter, FlightAfter;
    if steps != [] {
      StepKeepsWindow(s, steps[0]);
      RunKeeps(Do(s, steps[0]), steps[1..], s');
    }
  }

  /** A leader sends its round of heartbeats: afterwards one is in flight to every other member still on its list. */
  lemma {:induction false} Beats(s: Brokers, b: nat) returns (steps: seq<Step>, s': Brokers)
    requires Window(s) && b in s.up && s.nodes[b].task.Beating?
    ensures Reaches(s, steps, s') && s'.nodes == s.nodes[b := s.nodes[b].(task := Idle)]
    ensures forall m :: m in s.nodes[b].task.todo && m != b ==> (b, m) in s'.flight
    ensures s.flight <= s'.flight
    decreases |s.nodes[b].task.todo|
  {
    UpHere(s);
    hide Window, TaskOk, Reaches, CanConclude, Polled;
    var (a, todo) := (Send(b, true), s.nodes[b].task.todo);
    var s1 := Do(s, a);
    OneStep(s, a);
    if todo == [] {
      steps, s' := [a], s1;
    } else {
      StepKeepsWindow(s, a);
      var rest;
      rest, s' := Beats(s1, b);
      RunOn(s, [a], s1, rest, s');
      steps := [a] + rest;
      forall m | m in todo && m != b ensures (b, m) in s'.flight {
        if m == todo[0] { assert (b, m) in s1.flight; } else { InTail(todo, m); }
      }
    }
  }

  lemma UpHere(s: Brokers)
    requires Window(s)
    ensures s.up <= s.nodes.Keys && forall b :: b in s.up ==> b in s.members
  {
  }

  lemma InTail(s: seq<nat>, m: nat)
    requires m in s && m != s[0]
    ensures m in s[1..]
  {
  }

  /** An election polls its members one by one. */
  lemma {:induction false} Polls(s: Brokers, b: nat) returns (steps: seq<Step>, s': Brokers)
    requires Window(s) && b in s.up && s.nodes[b].task.Electing?
    ensures Reaches(s, steps, s') && Window(s') && s'.up == s.up && s'.members == s.members
    ensures b in s'.nodes && s'.nodes[b].task.Electing? && s'.nodes[b].task.todo == []
    decreases |s.nodes[b].task.todo|
  {
    hide Window, TaskOk, Reaches, CanConclude;
    UpHere(s);
    if s.nodes[b].task.todo == [] {
      steps, s' := [], s;
      assert Reaches(s, [], s) by { NoStep(s); }
    } else {
      var a := Poll(b);
      var s1 := Do(s, a);
      OneStep(s, a);
      StepKeepsWindow(s, a);
      var rest;
      rest, s' := Polls(s1, b);
      RunOn(s, [a], s1, rest, s');
      steps := [a] + rest;
    }
  }

  lemma NoStep(s: Brokers)
    ensures Reaches(s, [], s)
  {
  }

  /** The top broker finishes its election and is promoted. */
  lemma Wins(s: Brokers, top: nat) returns (steps: seq<Step>, s': Brokers)
    requires Window(s) && IsTop(top, s.up) && s.nodes[top].task.Electing?
    ensures Reaches(s, steps, s') && Promote(top) in steps
    ensures Window(s') && s'.up == s.up && s'.members == s.members && IsLeader(s', top) && s'.nodes[top].task.Idle?
  {
    hide Reaches;
    var polls, s1 := Polls(s, top);
    var (c, p) := (Conclude(top, top), Promote(top));
    assert TaskOk(s1.nodes[top], top, s1.members, s1.up);
    assert Enabled(s1, c);
    hide TaskOk, Polled, FlightAfter;
    var s2 := Do(s1, c);
    StepKeepsWindow(s1, c);
    assert Enabled(s2, p);
    s' := Do(s2, p);
    StepKeepsWindow(s2, p);
    OneStep(s1, c);
    OneStep(s2, p);
    RunOn(s1, [c], s2, [p], s');
    RunOn(s, polls, s1, [c] + [p], s');
    steps := polls + ([c] + [p]);
    assert steps[|steps| - 1] == p;
  }

  /** Between its turns the top broker leads, or can start an election and win it. */
  lemma LeadsFromIdle(s: Brokers, top: nat) returns (steps: seq<Step>, s': Brokers)
    requires Window(s) && IsTop(top, s.up) && s.nodes[top].task.Idle?
    ensures Reaches(s, steps, s') && (top in Leaders(s) || Promote(top) in steps)
    ensures Window(s') && s'.up == s.up && s'.members == s.members && IsLeader(s', top) && s'.nodes[top].task.Idle?
  {
    hide Reaches, TaskOk, Polled;
    UpHere(s);
    if IsLeader(s, top) {
      steps, s' := [], s;
      NoStep(s);
    } else {
      var a := Timeout(top);
      assert Enabled(s, a);
      var s1 := Do(s, a);
      StepKeepsWindow(s, a);
      OneStep(s, a);
      var rest;
      rest, s' := Wins(s1, top);
      RunOn(s, [a], s1, rest, s');
      steps := [a] + rest;
    }
  }

  /** Whatever the top broker is in the middle of, it can finish, and lead. */
  lemma Leads(s: Brokers, top: nat) returns (steps: seq<Step>, s': Brokers)
    requires Window(s) && IsTop(top, s.up)
    ensures Reaches(s, steps, s') && (top in Leaders(s) || Promote(top) in steps)
    ensures Window(s') && s'.up == s.up && s'.members == s.members && IsLeader(s', top) && s'.nodes[top].task.Idle?
  {
    hide Reaches, TaskOk, Polled;
    UpHere(s);
    match s.nodes[top].task
    case Idle =>
      steps, s' := LeadsFromIdle(s, top);
    case Electing(_, _) =>
      steps, s' := Wins(s, top);
    case Promoting =>
      var a := Promote(top);
      s' := Do(s, a);
      StepKeepsWindow(s, a);
      OneStep(s, a);
      steps := [a];
    case Beating(_) =>
      var beats, s1 := Beats(s, top);
      RunKeeps(s, beats, s1);
      var rest;
      rest, s' := LeadsFromIdle(s1, top);
      RunOn(s, beats, s1, rest, s');
      steps := beats + rest;
  }

  /** The heartbeats in flight to some brokers arrive. */
  lemma {:induction false} Arrive(s: Brokers, top: nat, others: set<nat>) returns (steps: seq<Step>, s': Brokers)
    requires others <= s.nodes.Keys && forall b :: b in others ==> (top, b) in s.flight
    ensures Reaches(s, steps, s') && forall b :: b in others ==> Deliver(top, b) in steps
    decreases |others|
  {
    hide NodeAfter;
    if others == {} {
      steps, s' := [], s;
      NoStep(s);
    } else {
      var b :| b in others;
      var a := Deliver(top, b);
      var s1 := Do(s, a);
      OneStep(s, a);
      var rest;
      rest, s' := Arrive(s1, top, others - {b});
      RunOn(s, [a], s1, rest, s');
      steps := [a] + rest;
      assert steps[0] == a;
      forall b' | b' in others ensures Deliver(top, b') in steps {
        if b' != b { assert Deliver(top, b') in rest; }
      }
    }
  }

  /** From every state of a stable window, elections and heartbeats half done and any number of leaders included, there
      is a run after which the top broker leads alone. */
  lemma CanConverge(s: Brokers, top: nat) returns (steps: seq<Step>, s': Brokers)
    requires Window(s) && IsTop(top, s.up)
    ensures Reaches(s, steps, s') && Leaders(s') == {top}
  {
    hide Reaches, TaskOk, NodeAfter, FlightAfter;
    var lead, s1 := Leads(s, top);
    var a := Beat(top);
    UpHere(s1);
    assert Enabled(s1, a);
    var s2 := Do(s1, a);
    assert s2.nodes[top].task == Beating(s1.members) && s2.up == s1.up by { BeatStarts(s1, top); }
    StepKeepsWindow(s1, a);
    OneStep(s1, a);
    var beats, s3 := Beats(s2, top);
    RunKeeps(s2, beats, s3);
    UpHere(s3);
    var deliveries;
    deliveries, s' := Arrive(s3, top, s3.up - {top});
    RunOn(s2, beats, s3, deliveries, s');
    RunOn(s1, [a], s2, beats + deliveries, s');
    RunOn(s, lead, s1, [a] + (beats + deliveries), s');
    steps := lead + ([a] + (beats + deliveries));
    forall b | b in s.up && b != top ensures Deliver(top, b) in steps {
      assert Deliver(top, b) in deliveries;
    }
    OneLeader(s, steps, s', top);
  }

  lemma BeatStarts(s: Brokers, b: nat)
    requires Enabled(s, Beat(b))
    ensures Do(s, Beat(b)).nodes[b].task == Beating(s.members) && Do(s, Beat(b)).up == s.up
  {
  }
}
