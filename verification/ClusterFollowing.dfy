/** Whom the brokers of a stable window follow: what elections and heartbeats from above make of the sync target. */
module ClusterFollowing {
  import opened Wrappers
  import opened Cluster
  import opened ClusterProtocol

  /** One step changes whom a broker follows in three cases only: it finishes an election that another broker wins, it
      is promoted, or it leads and hears a leader above it. */
  lemma StepFollows(s: Brokers, a: Step, b: nat)
    requires Window(s) && Enabled(s, a) && b in s.up
    ensures Window(Do(s, a)) && Do(s, a).up == s.up
    ensures var (st, st') := (s.nodes[b].st, Do(s, a).nodes[b].st);
      && st'.sync == (
        if a.Conclude? && a.b == b && a.highest != b then Some(a.highest)
        else if a == Promote(b) then None
        else if a.Deliver? && a.to == b && a.b > b && st.role.Leader? then Some(a.b)
        else st.sync)
      && st'.leaderId == if a.Deliver? && a.to == b then Some(a.b) else st.leaderId
  {
    hide Polled;
    StepKeepsWindow(s, a);
    assert TaskOk(s.nodes[b], b, s.members, s.up);
    if a.Deliver? { assert (a.b, a.to) in s.flight && a.b in s.up; }
    if a.Conclude? && a.b == b { assert a.highest in s.nodes[b].task.active; }
    hide FlightAfter;
  }

  /** Whoever loses the lead in a step loses it to a broker that is up and has a higher id, and follows it from then
      on. */
  lemma LoserFollows(s: Brokers, a: Step, b: nat)
    requires Window(s) && Enabled(s, a) && b in s.up && IsLeader(s, b) && !IsLeader(Do(s, a), b)
    ensures a.Deliver? && a.to == b && a.b in s.up && a.b > b
    ensures Do(s, a).nodes[b].st == Standing(Follower, Some(a.b), Some(a.b))
  {
    hide Polled;
    assert TaskOk(s.nodes[b], b, s.members, s.up);
    assert a.Deliver? && a.to == b && (a.b, a.to) in s.flight && a.b in s.up;
    hide FlightAfter;
  }

  /** A broker that is down ignores the heartbeats that reach it, and no other step changes a broker but its own. */
  lemma DownIgnores(s: Brokers, a: Step, b: nat)
    requires Enabled(s, a) && b in s.nodes && (b !in s.up || !a.Deliver? || a.to != b)
    requires a.Deliver? || a.b != b
    ensures Do(s, a).nodes[b] == s.nodes[b]
  {
    hide FlightAfter;
  }

  /** The broker has finished an election in the run. */
  ghost predicate HasElected(steps: seq<Step>, b: nat) {
    exists i :: 0 <= i < |steps| && steps[i].Conclude? && steps[i].b == b
  }

  /** The leader above it that the broker hears first in the run. */
  function HeardFirst(steps: seq<Step>, b: nat): Option<nat> {
    if steps == [] then None else if Deposes(steps[0], b) then Some(steps[0].b) else HeardFirst(steps[1..], b)
  }

  lemma HasElectedHead(steps: seq<Step>, b: nat)
    requires steps != []
    ensures HasElected(steps, b) <==> (steps[0].Conclude? && steps[0].b == b) || HasElected(steps[1..], b)
  {
    if HasElected(steps, b) {
      var i :| 0 <= i < |steps| && steps[i].Conclude? && steps[i].b == b;
      if i > 0 { assert steps[1..][i - 1] == steps[i]; }
    }
    if HasElected(steps[1..], b) {
      var i :| 0 <= i < |steps| - 1 && steps[1..][i].Conclude? && steps[1..][i].b == b;
      assert steps[i + 1] == steps[1..][i];
    }
  }

  /** Exactly whom a broker other than the top one follows after any run: the top broker if it has finished an election
      since; otherwise the first leader above it that it heard, if it led; otherwise whom it followed before. */
  lemma {:induction false} FollowsExactly(s: Brokers, steps: seq<Step>, s': Brokers, top: nat, b: nat)
    requires Window(s) && Reaches(s, steps, s') && IsTop(top, s.up) && b in s.up && b != top
    ensures b in s'.nodes
    ensures s'.nodes[b].st.sync ==
      if HasElected(steps, b) then Some(top)
      else if IsLeader(s, b) && HeardFirst(steps, b).Some? then HeardFirst(steps, b)
      else s.nodes[b].st.sync
    decreases |steps|
  {
    hide HasElected, Reaches, Do, Enabled;
    if steps == [] {
      RunEnds(s, s');
      NobodyElected(b);
    } else {
      RunStarts(s, steps, s');
      var (a, s1) := (steps[0], Do(s, steps[0]));
      StepFollows(s, a, b);
      StepLeads(s, a, top, b);
      ElectsTop(s, a, top, b);
      FollowsExactly(s1, steps[1..], s', top, b);
      HasElectedHead(steps, b);
    }
  }

  lemma NobodyElected(b: nat)
    ensures !HasElected([], b)
  {
  }

  lemma RunEnds(s: Brokers, s': Brokers)
    requires Reaches(s, [], s')
    ensures s' == s
  {
  }

  lemma RunStarts(s: Brokers, steps: seq<Step>, s': Brokers)
    requires Reaches(s, steps, s') && steps != []
    ensures Enabled(s, steps[0]) && Reaches(Do(s, steps[0]), steps[1..], s')
  {
  }

  /** The election that a broker finishes is won by the top broker, and it does not lead then. */
  lemma ElectsTop(s: Brokers, a: Step, top: nat, b: nat)
    requires Window(s) && Enabled(s, a) && IsTop(top, s.up) && b in s.up
    ensures a.Conclude? && a.b == b ==> a.highest == top && !IsLeader(s, b)
    ensures a == Promote(b) ==> b == top
  {
    assert TaskOk(s.nodes[b], b, s.members, s.up);
    if a.Conclude? && a.b == b { ConcludesTop(s.nodes[b], b, s.members, s.up, a.highest); }
  }
}
