/** cluster.py: heartbeats and the bully election of one broker. A broker's id is its port. */
module Cluster {
  import opened Wrappers

  datatype Role = Leader | Follower

  /** What heartbeats and elections change: the role, the last leader heard, and the broker being followed. */
  datatype Standing = Standing(role: Role, leaderId: Option<nat>, sync: Option<nat>)

  /** Following a broker takes its address from the member list; an unlisted one is not followed. */
  function Follow(st: Standing, members: seq<nat>, port: nat): Standing {
    st.(role := Follower, sync := if port in members then Some(port) else st.sync)
  }

  /** After a leader's heartbeat. */
  function Heard(st: Standing, id: nat, members: seq<nat>, sender: nat): Standing {
    var st' := st.(leaderId := Some(sender));
    if st.role.Leader? && sender > id then Follow(st', members, sender) else st'
  }

  /** After an election that found the given highest id. */
  function Concluded(st: Standing, id: nat, members: seq<nat>, highest: nat): Standing {
    if highest == id then st.(role := Leader, sync := None) else Follow(st, members, highest)
  }

  /** The highest id among the broker itself and the members that answered. */
  ghost predicate IsHighest(h: nat, id: nat, members: seq<nat>, answers: set<nat>) {
    && (h == id || (h in members && h in answers))
    && id <= h
    && (forall m :: m in members && m in answers ==> m <= h)
  }

  /** The broker leads, following nobody, exactly if no member that answered has a higher id than its own; otherwise it
      follows the highest of those that answered. */
  ghost predicate Elected(id: nat, members: seq<nat>, answers: set<nat>, st: Standing) {
    if forall m :: m in members && m in answers ==> m <= id then st.role == Leader && st.sync == None
    else
      && st.role == Follower && st.sync.Some? && st.sync.value in members && st.sync.value in answers
      && forall m :: m in members && m in answers ==> m <= st.sync.value
  }

  class ClusterManager {
    const id: nat
    const members: seq<nat>
    var killed: bool
    var disconnected: bool
    var standing: Standing
    var lastHeartbeat: int

    constructor (id: nat, members: seq<nat>, role: Role, now: int)
      ensures this.id == id && this.members == members && !killed && !disconnected
      ensures standing == Standing(role, None, None) && lastHeartbeat == now
    {
      this.id, this.members, killed, disconnected := id, members, false, false;
      standing, lastHeartbeat := Standing(role, None, None), now;
    }

    method StartFollowerSync(port: nat)
      modifies this`standing
      ensures standing == old(standing).(sync := if port in members then Some(port) else old(standing).sync)
    {
      for i := 0 to |members|
        invariant standing == old(standing) && port !in members[..i]
      {
        if members[i] == port {
          standing := standing.(sync := Some(port));
          return;
        }
      }
    }

    method ReceiveHeartbeat(sender: nat, role: Role, now: int)
      modifies this`standing, this`lastHeartbeat
      ensures var heard := !killed && !disconnected && role.Leader?;
        && standing == (if heard then Heard(old(standing), id, members, sender) else old(standing))
        && lastHeartbeat == if heard then now else old(lastHeartbeat)
      ensures var heard := !killed && !disconnected && role.Leader?;
        var deposed := heard && old(standing).role.Leader? && sender > id;
        && standing.leaderId == (if heard then Some(sender) else old(standing).leaderId)
        && standing.role == (if deposed then Follower else old(standing).role)
        && standing.sync == if deposed && sender in members then Some(sender) else old(standing).sync
    {
      if killed || disconnected { return; }
      if role.Leader? {
        lastHeartbeat := now;
        standing := standing.(leaderId := Some(sender));
        if standing.role.Leader? && sender > id {
          standing := standing.(role := Follower);
          StartFollowerSync(sender);
        }
      }
    }

    /** Asks every other member in turn; `answers` are those that reply in time. */
    method Poll(answers: set<nat>) returns (activeIds: seq<nat>)
      ensures |activeIds| > 0 && forall a :: a in activeIds <==> a == id || (a in members && a in answers)
    {
      activeIds := [id];
      for i := 0 to |members|
        invariant |activeIds| > 0 && forall a :: a in activeIds <==> a == id || (a in members[..i] && a in answers)
      {
        assert members[..i + 1] == members[..i] + [members[i]];
        if members[i] != id && members[i] in answers {
          activeIds := activeIds + [members[i]];
        }
      }
      assert members[..|members|] == members;
    }

    /** The method's contract is the poll and the conclusion together: no other task intervenes. */
    method TriggerElection(answers: set<nat>)
      modifies this`standing
      ensures killed || disconnected ==> standing == old(standing)
      ensures !killed && !disconnected ==>
        exists h :: IsHighest(h, id, members, answers) && standing == Concluded(old(standing), id, members, h)
      ensures !killed && !disconnected ==> Elected(id, members, answers, standing)
      ensures standing.leaderId == old(standing).leaderId
    {
      if killed || disconnected { return; }
      var activeIds := Poll(answers);
      var highest := Max(activeIds);
      assert id in activeIds && IsHighest(highest, id, members, answers);
      if highest == id {
        standing := standing.(role := Leader, sync := None);
      } else {
        standing := standing.(role := Follower);
        StartFollowerSync(highest);
      }
    }

    /** One turn of the heartbeat loop when no other task intervenes: whether to send heartbeats. */
    method Turn(now: int, timeout: int, answers: set<nat>) returns (beats: bool)
      modifies this`standing, this`lastHeartbeat
      ensures beats <==> !killed && !disconnected && old(standing).role.Leader?
      ensures var elects := !killed && !disconnected && old(standing).role.Follower?
        && now - old(lastHeartbeat) > timeout;
        if elects then
          lastHeartbeat == now
          && Elected(id, members, answers, standing) && standing.leaderId == old(standing).leaderId
        else standing == old(standing) && lastHeartbeat == old(lastHeartbeat)
    {
      if killed || disconnected { return false; }
      if standing.role.Leader? { return true; }
      if now - lastHeartbeat > timeout {
        lastHeartbeat := now;
        TriggerElection(answers);
      }
      return false;
    }
  }

  method Max(ids: seq<nat>) returns (m: nat)
    requires |ids| > 0
    ensures m in ids && forall a :: a in ids ==> a <= m
  {
    m := ids[0];
    for i := 0 to |ids|
      invariant m in ids && forall a :: a in ids[..i] ==> a <= m
    {
      assert ids[..i + 1] == ids[..i] + [ids[i]];
      if ids[i] > m { m := ids[i]; }
    }
    assert ids[..|ids|] == ids;
  }
}
