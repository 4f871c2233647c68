/**
 A run in which a poll of acks=all succeeds although the only follower's file holds nothing: a crash tore its first
 append, and the record, sent again, went onto the torn line.
 */
module TornPoll {
  import opened Wrappers
  import opened Library
  import opened LogText
  import opened Keys
  import opened Compression
  import opened PartitionLog
  import opened ReplicationSpec
  import opened ReplicationProtocol
  import opened TornReplication
  import C = Crash
  import FC = FollowerCrash
  import J = Json
  import RS = ReplicationStale

  type Scene = RS.Scene

  /** The follower's one file, its others still empty. */
  function Disks(w: Scene, d: FC.Follower): Disks {
    (id, t) => if id != w.f then FC.Fresh else if t == w.tp then d else FC.Fresh.(connected := d.connected)
  }

  function Line(env: Env, codecs: Codecs, w: Scene): string {
    env.dumps(Record(env, 0, Compress(env, w.p0, codecs(w.f)))) + "\n"
  }

  function With(file: Image, connected: bool, claimed: nat, lost: bool): FC.Follower {
    FC.Follower(file, connected, claimed, lost)
  }

  /** On the second connection. */
  function Late(w: Scene, t: Tables, held: nat, down: seq<Replicate>, up: seq<Request>): System {
    System(w.Log(1), t, map[w.f := Node(w.Log(held), Some(w.d))], map[w.c := w.f, w.d := w.f],
           map[w.c := [], w.d := down], map[w.c := [], w.d := up])
  }

  // ----- the follower's files -----

  lemma DisksRest(env: Env, codecs: Codecs, w: Scene, s: State, a: Step)
    requires s.disks == Disks(w, s.disks(w.f, w.tp)) && (a.HandleRegister? || a.HandleAck?)
    ensures forall id, t :: DiskTakes(env, codecs, s, a, id, t, s.disks(id, t))
  {
  }

  lemma DisksConnect(env: Env, codecs: Codecs, w: Scene, s: State, d: FC.Follower, a: Step)
    requires s.disks == Disks(w, d) && !d.connected && a.Connect? && a.id == w.f
    ensures forall id, t ::
      DiskTakes(env, codecs, s, a, id, t,
        Disks(w, d.(connected := true, claimed := FC.Higher(d.claimed, d.file.next)))(id, t))
  {
  }

  lemma DisksApply(env: Env, codecs: Codecs, w: Scene, s: State, d: FC.Follower, c: Conn, acked: bool)
    requires s.disks == Disks(w, d) && d.connected && w.f in s.sys.nodes && s.sys.nodes[w.f].conn == Some(c)
    requires Down(s.sys, c) == [w.M(0)]
    ensures forall id, t ::
      DiskTakes(env, codecs, s, Apply(w.f, acked), id, t,
        Disks(w, FC.Taken(env, w.p0, codecs(w.f), d, 0, acked))(id, t))
  {
    hide Appended, Clean;
  }

  lemma DisksFall(env: Env, codecs: Codecs, w: Scene, s: State, d: FC.Follower, k: nat, d': FC.Follower)
    requires s.disks == Disks(w, d) && k <= |d.file.text|
    requires d' == With(Image(d.file.text[..k], 0), false, d.claimed, false) && FileEntries(env, d.file.text[..k]) == []
    ensures forall t :: Restarts(env, codecs, s, w.f, t, if t == w.tp then k else 0, Disks(w, d')(w.f, t))
    ensures forall id, t :: id != w.f ==> Disks(w, d')(id, t) == s.disks(id, t)
  {
    hide FileEntries;
    C.EmptyFile(env);
  }

  // ----- the protocol -----

  lemma AppliesFirst(w: Scene)
    ensures var (s, a) := (w.First(1, w.Listed(w.c, -1), 0, Some(w.c), [w.M(0)], []), Apply(w.f, false));
      Enabled(s, a) && Do(s, a) == w.First(1, w.Listed(w.c, -1), 1, None, [], [])
  {
    hide Key;
    var (s, a) := (w.First(1, w.Listed(w.c, -1), 0, Some(w.c), [w.M(0)], []), Apply(w.f, false));
    assert [w.M(0)][1..] == [] && [] + [w.R(0)] == [w.R(0)];
    assert Applied(w.Log(0), w.M(0)) == w.Log(1);
    assert Enabled(s, a);
    hide Applied, Enabled;
    assert Do(s, a).nodes == map[w.f := Node(w.Log(1), None)];
    assert Do(s, a).down == map[w.c := []] && Do(s, a).up == s.up;
  }

  lemma ConnectsAgain(w: Scene)
    requires w.c != w.d
    ensures var (s, a) := (w.First(1, w.Listed(w.c, -1), 0, None, [], []), Connect(w.f, w.d, w.At(0)));
      Enabled(s, a) && Do(s, a) == Late(w, w.Listed(w.c, -1), 0, [], [Register(w.At(0))])
  {
    hide Key;
    var (s, a) := (w.First(1, w.Listed(w.c, -1), 0, None, [], []), Connect(w.f, w.d, w.At(0)));
    forall tp ensures Key(tp) == Key(w.tp) <==> tp == w.tp { KeyInjective(tp, w.tp); }
    assert NextOffsets(w.At(0), w.Log(0));
    assert Enabled(s, a);
    hide Enabled, NextOffsets;
    assert Do(s, a).nodes == map[w.f := Node(w.Log(0), Some(w.d))];
  }

  lemma RegistersAgain(w: Scene)
    requires w.c != w.d
    ensures var (s, a) := (Late(w, w.Listed(w.c, -1), 0, [], [Register(w.At(0))]),
                           HandleRegister(w.d, w.At(0), w.At(-1), [w.M(0)], true));
      Enabled(s, a) && Do(s, a) == Late(w, w.Listed(w.d, -1), 0, [w.M(0)], [])
  {
    hide Key, CatchUp;
    RS.OneMessage(w);
    var (s, a) :=
      (Late(w, w.Listed(w.c, -1), 0, [], [Register(w.At(0))]), HandleRegister(w.d, w.At(0), w.At(-1), [w.M(0)], true));
    assert IsFull(w.At(0), w.At(0), s.logs.Keys) && IsLastHeld(w.At(-1), w.At(0));
    assert Enabled(s, a);
    hide Enabled, IsFull, IsLastHeld;
    assert [] + [w.M(0)] == [w.M(0)] && [Register(w.At(0))][1..] == [];
    assert Do(s, a).down == map[w.c := [], w.d := [w.M(0)]] && Do(s, a).up == map[w.c := [], w.d := []];
    assert Do(s, a).tables == w.Listed(w.d, -1);
  }

  lemma AppliesAgain(w: Scene)
    requires w.c != w.d
    ensures var (s, a) := (Late(w, w.Listed(w.d, -1), 0, [w.M(0)], []), Apply(w.f, true));
      Enabled(s, a) && Do(s, a) == Late(w, w.Listed(w.d, -1), 1, [], [Ack(w.tp, 0)])
  {
    hide Key;
    var (s, a) := (Late(w, w.Listed(w.d, -1), 0, [w.M(0)], []), Apply(w.f, true));
    assert [w.M(0)][1..] == [] && [] + [w.R(0)] == [w.R(0)] && [] + [Ack(w.tp, 0)] == [Ack(w.tp, 0)];
    assert Applied(w.Log(0), w.M(0)) == w.Log(1);
    assert Enabled(s, a);
    hide Applied, Enabled;
    assert Do(s, a).nodes == map[w.f := Node(w.Log(1), Some(w.d))];
    assert Do(s, a).down == map[w.c := [], w.d := []] && Do(s, a).up == map[w.c := [], w.d := [Ack(w.tp, 0)]];
  }

  lemma Acknowledges(w: Scene)
    requires w.c != w.d
    ensures var (s, a) := (Late(w, w.Listed(w.d, -1), 1, [], [Ack(w.tp, 0)]), HandleAck(w.d));
      Enabled(s, a) && Do(s, a) == Late(w, w.Listed(w.d, 0), 1, [], [])
  {
    hide Key;
    var (s, a) := (Late(w, w.Listed(w.d, -1), 1, [], [Ack(w.tp, 0)]), HandleAck(w.d));
    assert [Ack(w.tp, 0)][1..] == [];
    assert Enabled(s, a);
    RS.Overwrites(Key(w.tp), -1, 0);
    RS.Overwrites(w.f, w.At(-1), w.At(0));
    assert Do(s, a).tables == w.Listed(w.d, 0);
    assert Do(s, a).up == map[w.c := [], w.d := []];
  }

  lemma PollHere(w: Scene)
    ensures AllAcked(w.Listed(w.d, 0), w.tp, 0) && w.f in w.Listed(w.d, 0).followers
  {
    hide Key;
  }

  // ----- the run -----

  /** The first k characters of the record's text are on the disk, and so is the record sent again after them. */
  lemma TornFile(env: Env, codecs: Codecs, w: Scene, k: nat)
    requires Good(env) && 0 < k < |Line(env, codecs, w)| - 1
    ensures var line := Line(env, codecs, w);
      FileEntries(env, line[..k]) == [] && FileEntries(env, line[..k] + line) == [] && !Clean(line[..k])
  {
    hide FileEntries, Record;
    var (line, r) := (Line(env, codecs, w), C.Written(0, Compress(env, w.p0, codecs(w.f))));
    assert line == C.Text(env, r) + "\n";
    assert line[..k] == C.Text(env, r)[..k];
    C.TornText(env, r, k);
    C.AppendToTorn(env, r, k, [r]);
    hide C.Text;
    assert [r][1..] == [] && C.FileOf(env, [r]) == line + "" == line;
  }

  lemma TakenIs(env: Env, codecs: Codecs, w: Scene, text: string, acked: bool)
    ensures FC.Taken(env, w.p0, codecs(w.f), With(Image(text, 0), true, 0, false), 0, acked)
      == With(Image(text + Line(env, codecs, w), 1), acked, if acked then 1 else 0, !Clean(text))
  {
  }

  lemma TakesFirst(env: Env, codecs: Codecs, w: Scene)
    ensures Takes(env, codecs,
      State(w.First(1, w.Listed(w.c, -1), 0, Some(w.c), [w.M(0)], []), Disks(w, With(Image("", 0), true, 0, false))),
      Plain(Apply(w.f, false)),
      State(w.First(1, w.Listed(w.c, -1), 1, None, [], []),
        Disks(w, With(Image(Line(env, codecs, w), 1), false, 0, false))))
  {
    hide Enabled, Do, FC.Taken, DiskTakes, Line;
    AppliesFirst(w);
    var s := State(w.First(1, w.Listed(w.c, -1), 0, Some(w.c), [w.M(0)], []),
      Disks(w, With(Image("", 0), true, 0, false)));
    DisksApply(env, codecs, w, s, With(Image("", 0), true, 0, false), w.c, false);
    TakenIs(env, codecs, w, "", false);
    assert "" + Line(env, codecs, w) == Line(env, codecs, w);
  }

  lemma TakesAgain(env: Env, codecs: Codecs, w: Scene, text: string)
    requires w.c != w.d && !Clean(text)
    ensures Takes(env, codecs,
      State(Late(w, w.Listed(w.d, -1), 0, [w.M(0)], []), Disks(w, With(Image(text, 0), true, 0, false))),
      Plain(Apply(w.f, true)),
      State(Late(w, w.Listed(w.d, -1), 1, [], [Ack(w.tp, 0)]),
            Disks(w, With(Image(text + Line(env, codecs, w), 1), true, 1, true))))
  {
    hide Enabled, Do, FC.Taken, DiskTakes, Line, Clean;
    AppliesAgain(w);
    var s := State(Late(w, w.Listed(w.d, -1), 0, [w.M(0)], []), Disks(w, With(Image(text, 0), true, 0, false)));
    DisksApply(env, codecs, w, s, With(Image(text, 0), true, 0, false), w.d, true);
    TakenIs(env, codecs, w, text, true);
  }

  lemma Falls(env: Env, codecs: Codecs, w: Scene, k: nat)
    requires Good(env) && 0 < k < |Line(env, codecs, w)| - 1
    ensures var line := Line(env, codecs, w);
      Takes(env, codecs,
        State(w.First(1, w.Listed(w.c, -1), 1, None, [], []), Disks(w, With(Image(line, 1), false, 0, false))),
        Fall(w.f, w.Log(0), t => if t == w.tp then k else 0),
        State(w.First(1, w.Listed(w.c, -1), 0, None, [], []), Disks(w, With(Image(line[..k], 0), false, 0, false))))
  {
    hide Restarts, Line, Key, FileEntries, Clean;
    var line := Line(env, codecs, w);
    TornFile(env, codecs, w, k);
    var s := State(w.First(1, w.Listed(w.c, -1), 1, None, [], []), Disks(w, With(Image(line, 1), false, 0, false)));
    DisksFall(env, codecs, w, s, With(Image(line, 1), false, 0, false), k, With(Image(line[..k], 0), false, 0, false));
  }

  lemma Joins(env: Env, codecs: Codecs, w: Scene, s: System, a: Step, s': System, text: string)
    requires a.Connect? && a.id == w.f && Enabled(s, a) && Do(s, a) == s'
    ensures Takes(env, codecs, State(s, Disks(w, With(Image(text, 0), false, 0, false))), Plain(a),
              State(s', Disks(w, With(Image(text, 0), true, 0, false))))
  {
    hide Enabled, Do, DiskTakes;
    var d := With(Image(text, 0), false, 0, false);
    DisksConnect(env, codecs, w, State(s, Disks(w, d)), d, a);
    assert d.(connected := true, claimed := FC.Higher(d.claimed, d.file.next)) == With(Image(text, 0), true, 0, false);
  }

  lemma Serves(env: Env, codecs: Codecs, w: Scene, s: System, a: Step, s': System, d: FC.Follower)
    requires (a.HandleRegister? || a.HandleAck?) && Enabled(s, a) && Do(s, a) == s'
    ensures Takes(env, codecs, State(s, Disks(w, d)), Plain(a), State(s', Disks(w, d)))
  {
    hide Enabled, Do, DiskTakes;
    DisksRest(env, codecs, w, State(s, Disks(w, d)), a);
  }

  lemma StartsFresh(env: Env, codecs: Codecs, w: Scene)
    ensures Start(env, codecs, w.Log(1), State(w.Start(), Disks(w, FC.Fresh)))
  {
    hide Written, FC.Holds;
    forall id, tp | id in w.Start().nodes
      ensures StartsWith(env, Written(env, codecs, w.Log(1), id, tp), Disks(w, FC.Fresh)(id, tp), [])
    {
      FC.EmptyHolds(env, Written(env, codecs, w.Log(1), id, tp));
    }
  }

  ghost predicate Chain(env: Env, codecs: Codecs, events: seq<Event>, states: seq<State>) {
    && |states| == |events| + 1
    && (forall i :: 0 <= i < |events| ==> Takes(env, codecs, states[i], events[i], states[i + 1]))
  }

  lemma ChainOn(env: Env, codecs: Codecs, s: State, e: Event, events: seq<Event>, states: seq<State>)
    requires Chain(env, codecs, events, states) && Takes(env, codecs, s, e, states[0])
    ensures var (es, ss) := ([e] + events, [s] + states);
      Chain(env, codecs, es, ss) && ss[0] == s && ss[|es|] == states[|events|]
  {
    hide Takes;
    var (es, ss) := ([e] + events, [s] + states);
    forall i | 0 <= i < |es| ensures Takes(env, codecs, ss[i], es[i], ss[i + 1]) {
      if i > 0 { assert Takes(env, codecs, states[i - 1], events[i - 1], states[i]); }
    }
  }

  lemma SecondHalf(env: Env, codecs: Codecs, w: Scene, text: string) returns (events: seq<Event>, states: seq<State>)
    requires w.c != w.d && !Clean(text)
    ensures Chain(env, codecs, events, states)
    ensures states[0]
      == State(w.First(1, w.Listed(w.c, -1), 0, None, [], []), Disks(w, With(Image(text, 0), false, 0, false)))
    ensures states[|events|]
      == State(Late(w, w.Listed(w.d, 0), 1, [], []),
        Disks(w, With(Image(text + Line(env, codecs, w), 1), true, 1, true)))
  {
    hide Takes, Line, Disks, Enabled, Do, Clean;
    var (d, end) := (With(Image(text, 0), true, 0, false), With(Image(text + Line(env, codecs, w), 1), true, 1, true));
    var (s4, s5) :=
      (w.First(1, w.Listed(w.c, -1), 0, None, [], []), Late(w, w.Listed(w.c, -1), 0, [], [Register(w.At(0))]));
    var (s6, s7) := (Late(w, w.Listed(w.d, -1), 0, [w.M(0)], []), Late(w, w.Listed(w.d, -1), 1, [], [Ack(w.tp, 0)]));
    var (again, join) := (HandleRegister(w.d, w.At(0), w.At(-1), [w.M(0)], true), Connect(w.f, w.d, w.At(0)));
    events, states := [], [State(Late(w, w.Listed(w.d, 0), 1, [], []), Disks(w, end))];
    Acknowledges(w);
    Serves(env, codecs, w, s7, HandleAck(w.d), Late(w, w.Listed(w.d, 0), 1, [], []), end);
    ChainOn(env, codecs, State(s7, Disks(w, end)), Plain(HandleAck(w.d)), events, states);
    events, states := [Plain(HandleAck(w.d))] + events, [State(s7, Disks(w, end))] + states;
    TakesAgain(env, codecs, w, text);
    ChainOn(env, codecs, State(s6, Disks(w, d)), Plain(Apply(w.f, true)), events, states);
    events, states := [Plain(Apply(w.f, true))] + events, [State(s6, Disks(w, d))] + states;
    RegistersAgain(w);
    Serves(env, codecs, w, s5, again, s6, d);
    ChainOn(env, codecs, State(s5, Disks(w, d)), Plain(again), events, states);
    events, states := [Plain(again)] + events, [State(s5, Disks(w, d))] + states;
    ConnectsAgain(w);
    Joins(env, codecs, w, s4, join, s5, text);
    ChainOn(env, codecs, State(s4, Disks(w, With(Image(text, 0), false, 0, false))), Plain(join), events, states);
    events, states := [Plain(join)] + events, [State(s4, Disks(w, With(Image(text, 0), false, 0, false)))] + states;
  }

  lemma WholeRun(env: Env, codecs: Codecs, w: Scene, k: nat) returns (events: seq<Event>, states: seq<State>)
    requires Good(env) && w.c != w.d && 0 < k < |Line(env, codecs, w)| - 1
    ensures Chain(env, codecs, events, states) && states[0] == State(w.Start(), Disks(w, FC.Fresh))
    ensures var line := Line(env, codecs, w);
      states[|events|]
        == State(Late(w, w.Listed(w.d, 0), 1, [], []), Disks(w, With(Image(line[..k] + line, 1), true, 1, true)))
  {
    hide Takes, Line, Disks, Enabled, Do, Clean, FileEntries;
    var (line, none) := (Line(env, codecs, w), Tables(map[], map[]));
    var (d1, d2) := (With(Image("", 0), true, 0, false), With(Image(line, 1), false, 0, false));
    var (s1, s2) :=
      (w.First(1, none, 0, Some(w.c), [], [Register(map[])]),
        w.First(1, w.Listed(w.c, -1), 0, Some(w.c), [w.M(0)], []));
    var s3 := w.First(1, w.Listed(w.c, -1), 1, None, [], []);
    var (first, join) := (HandleRegister(w.c, w.At(0), w.At(-1), [w.M(0)], true), Connect(w.f, w.c, map[]));
    var fall := Fall(w.f, w.Log(0), t => if t == w.tp then k else 0);
    TornFile(env, codecs, w, k);
    events, states := SecondHalf(env, codecs, w, line[..k]);
    Falls(env, codecs, w, k);
    ChainOn(env, codecs, State(s3, Disks(w, d2)), fall, events, states);
    events, states := [fall] + events, [State(s3, Disks(w, d2))] + states;
    TakesFirst(env, codecs, w);
    ChainOn(env, codecs, State(s2, Disks(w, d1)), Plain(Apply(w.f, false)), events, states);
    events, states := [Plain(Apply(w.f, false))] + events, [State(s2, Disks(w, d1))] + states;
    RS.Registers(w);
    Serves(env, codecs, w, s1, first, s2, d1);
    ChainOn(env, codecs, State(s1, Disks(w, d1)), Plain(first), events, states);
    events, states := [Plain(first)] + events, [State(s1, Disks(w, d1))] + states;
    RS.Connects(w);
    Joins(env, codecs, w, w.Start(), join, s1, "");
    assert With(Image("", 0), false, 0, false) == FC.Fresh;
    ChainOn(env, codecs, State(w.Start(), Disks(w, FC.Fresh)), Plain(join), events, states);
    events, states := [Plain(join)] + events, [State(w.Start(), Disks(w, FC.Fresh))] + states;
  }

  /** Whatever the payload, and wherever inside its text the crash cuts it. */
  lemma PollSucceedsOnTorn(env: Env, codecs: Codecs, w: Scene, k: nat) returns (events: seq<Event>, states: seq<State>)
    requires Good(env) && w.c != w.d && 0 < k < |Line(env, codecs, w)| - 1
    ensures Run(env, codecs, w.Log(1), events, states)
    ensures var s := states[|events|];
      && LogAt(s.sys.logs, w.tp) == [w.R(0)] && w.f in s.sys.tables.followers && AllAcked(s.sys.tables, w.tp, 0)
      && FileEntries(env, s.disks(w.f, w.tp).file.text) == []
  {
    hide Takes, Start, Line, Disks, FileEntries, Clean, AllAcked;
    var line := Line(env, codecs, w);
    events, states := WholeRun(env, codecs, w, k);
    StartsFresh(env, codecs, w);
    TornFile(env, codecs, w, k);
    PollHere(w);
    DiskHere(w, With(Image(line[..k] + line, 1), true, 1, true));
  }

  lemma DiskHere(w: Scene, d: FC.Follower)
    ensures Disks(w, d)(w.f, w.tp) == d
  {
  }
}
