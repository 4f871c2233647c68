/** One partition of a follower that may crash at any point, in the middle of an append too. */
module FollowerCrash {
  // It takes records at its next offset or below, in the leader's order (`ReplicationProtocol.PrefixTheorem`), and
  // acknowledges them while its connection holds; when it connects it announces its next offset, which the leader
  // takes for an acknowledgement of all below. A crash leaves the file cut at any byte, and the restart computes the
  // next offset by scanning what is left.

  import opened Wrappers
  import opened Library
  import opened LogText
  import opened Compression
  import opened PartitionLog
  import opened Crash
  import opened Rows
  import J = Json

  /** `claimed` is one past the highest offset it acknowledged or announced; `lost`, whether since its last start it
      appended to a file that did not end in a newline. */
  datatype Follower = Follower(file: Image, connected: bool, claimed: nat, lost: bool)

  datatype Step =
    | Connect
    | Take(offset: nat, acked: bool)
    | Drop
    | Restart(cut: nat)

  const Fresh := Follower(Image("", 0), false, 0, false)

  /** What the follower writes for the leader's records. */
  function Lines(env: Env, leader: seq<J.Json>, c: Setting): seq<Written> {
    seq(|leader|, i requires 0 <= i < |leader| => Written(i, Compress(env, leader[i], c)))
  }

  function Higher(a: nat, b: nat): nat { if a < b then b else a }

  predicate Appends(s: Follower, a: Step) { a.Take? && a.offset == s.file.next }

  /** A record taken: written or, as a duplicate, ignored. Without an acknowledgement the connection is gone. */
  function Taken(env: Env, payload: J.Json, c: Setting, s: Follower, o: nat, acked: bool): Follower {
    Follower(Appended(env, s.file, payload, Some(o), c), acked, if acked then Higher(s.claimed, o + 1) else s.claimed,
             s.lost || (o == s.file.next && !Clean(s.file.text)))
  }

  ghost predicate Takes(env: Env, leader: seq<J.Json>, c: Setting, s: Follower, a: Step, s': Follower) {
    match a
    case Connect => !s.connected && s' == s.(connected := true, claimed := Higher(s.claimed, s.file.next))
    case Take(o, acked) => s.connected && o <= s.file.next && o < |leader|
      && s' == Taken(env, leader[o], c, s, o, acked)
    case Drop => s' == s.(connected := false)
    case Restart(k) =>
      && k <= |s.file.text| && s'.file.text == s.file.text[..k]
      && Recovered(FileEntries(env, s'.file.text)) == Some(s'.file.next)
      && s' == Follower(s'.file, false, s.claimed, false)
  }

  /** Every record the follower claims to hold is read from its file. */
  ghost predicate HoldsClaimed(env: Env, ws: seq<Written>, s: Follower) {
    s.claimed <= |ws| && forall i :: 0 <= i < s.claimed ==>
      Entry(J.Num(ws[i].offset), ws[i].message) in FileEntries(env, s.file.text)
  }

  /** How many records stand on lines that end in a newline. */
  function Firm(env: Env, text: string): nat { |FileEntries(env, Terminated(text))| }

  /** What must not happen: acknowledging a record appended to a file that did not end in a newline, or announcing the
      next offset after such an append; such an append when the record it spoils, the last one, lacking its newline, is
      claimed; and a crash that cuts off a claimed record. */
  predicate Safe(env: Env, s: Follower, a: Step, s': Follower) {
    match a
    case Connect => !s.lost
    case Take(o, acked) => Appends(s, a) && !Clean(s.file.text) ==> !acked && s.claimed <= Firm(env, s.file.text)
    case Drop => true
    case Restart(_) => s.claimed <= s'.file.next
  }

  // ----- the file -----

  /** The file is rows of pieces of the leader's records, and reads as the first `held` of them. */
  ghost predicate Holds(env: Env, ws: seq<Written>, text: string, held: nat) {
    exists l :: IsLayout(env, ws, l, text, held)
  }

  ghost predicate IsLayout(env: Env, ws: seq<Written>, l: Layout, text: string, held: nat) {
    LaidOut(env, ws, l, 0) && LayoutText(env, ws, l, 0) == text && Total(env, ws, l, 0) == held
  }

  lemma EmptyHolds(env: Env, ws: seq<Written>)
    ensures Holds(env, ws, "", 0)
  {
    TailOnly(env, ws, [], 0);
    assert IsLayout(env, ws, Layout([], []), "", 0);
  }

  lemma HoldsReads(env: Env, ws: seq<Written>, text: string, held: nat)
    requires Good(env) && Holds(env, ws, text, held)
    ensures held <= |ws| && FileEntries(env, text) == EntriesOf(ws[..held])
  {
    hide FileEntries, LaidOut, LayoutText, Total;
    var l :| IsLayout(env, ws, l, text, held);
    LayoutReads(env, ws, l, 0);
    assert ws[0..held] == ws[..held];
  }

  lemma HoldsCut(env: Env, ws: seq<Written>, text: string, held: nat, k: nat)
    requires Good(env) && Holds(env, ws, text, held) && k <= |text|
    ensures exists held' :: Holds(env, ws, text[..k], held')
  {
    hide LaidOut, LayoutText, Total;
    var l :| IsLayout(env, ws, l, text, held);
    var l' := Cut(env, ws, l, 0, k);
    assert IsLayout(env, ws, l', text[..k], Total(env, ws, l', 0));
    assert Holds(env, ws, text[..k], Total(env, ws, l', 0));
  }

  lemma FirmRows(env: Env, ws: seq<Written>, l: Layout, text: string, held: nat)
    requires Good(env) && IsLayout(env, ws, l, text, held)
    ensures Firm(env, text) == After(env, ws, l.rows, 0) <= held && (Clean(text) <==> l.tail == [])
    ensures l.tail == [] ==> held == Firm(env, text)
  {
    hide FileEntries, RowsText, LayoutText;
    LayoutEnds(env, ws, l, 0);
    RowsRead(env, ws, l.rows, 0);
    EntriesOfLength(ws[0..After(env, ws, l.rows, 0)]);
  }

  lemma HoldsAppend(env: Env, ws: seq<Written>, text: string, held: nat, i: nat)
    requires Good(env) && Holds(env, ws, text, held) && i < |ws| && (Clean(text) ==> i == held)
    ensures Firm(env, text) <= held && (Clean(text) ==> Firm(env, text) == held)
    ensures Holds(env, ws, text + (Text(env, ws[i]) + "\n"), Firm(env, text) + if Clean(text) then 1 else 0)
  {
    hide FileEntries, LaidOut, LayoutText, Text, Clean, Terminated, RowsText;
    var l :| IsLayout(env, ws, l, text, held);
    FirmRows(env, ws, l, text, held);
    var l' := Append(env, ws, l, 0, i);
    assert IsLayout(env, ws, l', text + (Text(env, ws[i]) + "\n"), Total(env, ws, l', 0));
  }

  // ----- one step -----

  ghost predicate UprightAt(env: Env, ws: seq<Written>, s: Follower, held: nat) {
    && Holds(env, ws, s.file.text, held) && s.claimed <= held
    && (if s.lost then held < s.file.next else held == s.file.next) && (s.connected ==> !s.lost)
  }

  /** What a follower is as long as it holds what it claims. */
  ghost predicate Upright(env: Env, ws: seq<Written>, s: Follower) { exists held :: UprightAt(env, ws, s, held) }

  ghost predicate Numbered(ws: seq<Written>) { forall i :: 0 <= i < |ws| ==> ws[i].offset == i }

  lemma LinesNumbered(env: Env, leader: seq<J.Json>, c: Setting)
    ensures Numbered(Lines(env, leader, c)) && |Lines(env, leader, c)| == |leader|
  {
  }

  lemma InPrefix(ws: seq<Written>, held: nat, i: nat)
    requires Numbered(ws) && held <= |ws| && i < |ws|
    ensures Entry(J.Num(ws[i].offset), ws[i].message) in EntriesOf(ws[..held]) <==> i < held
  {
    EntriesOfLength(ws[..held]);
    forall j | 0 <= j < held ensures EntriesOf(ws[..held])[j] == Entry(J.Num(j), ws[j].message) {
      EntriesOfAt(ws[..held], j);
    }
    if i < held { assert EntriesOf(ws[..held])[i] == Entry(J.Num(i), ws[i].message); }
  }

  /** What is claimed is held exactly when it is no more than what is held. */
  lemma ClaimsHeld(env: Env, ws: seq<Written>, s: Follower, held: nat)
    requires Good(env) && Numbered(ws) && Holds(env, ws, s.file.text, held)
    ensures held <= |ws| && (HoldsClaimed(env, ws, s) <==> s.claimed <= held)
  {
    hide Holds, EntriesOf, Numbered, FileEntries;
    HoldsReads(env, ws, s.file.text, held);
    forall i | 0 <= i < |ws|
      ensures Entry(J.Num(ws[i].offset), ws[i].message) in EntriesOf(ws[..held]) <==> i < held
    {
      InPrefix(ws, held, i);
    }
    assert held < |ws| ==> Entry(J.Num(ws[held].offset), ws[held].message) !in FileEntries(env, s.file.text);
  }

  lemma TakeExactly(
    env: Env, leader: seq<J.Json>, c: Setting, s: Follower, o: nat, acked: bool, s': Follower, held: nat)
    requires Good(env) && UprightAt(env, Lines(env, leader, c), s, held) && Takes(env, leader, c, s, Take(o, acked), s')
    ensures Safe(env, s, Take(o, acked), s') ==> Upright(env, Lines(env, leader, c), s')
    ensures !Safe(env, s, Take(o, acked), s') ==> !HoldsClaimed(env, Lines(env, leader, c), s')
  {
    hide Holds, FileEntries, Clean, Firm, HoldsClaimed, Lines, Record;
    var ws := Lines(env, leader, c);
    LinesNumbered(env, leader, c);
    if o < s.file.next {
      assert UprightAt(env, ws, s', held);
    } else {
      LineWritten(env, leader, c, s.file);
      HoldsAppend(env, ws, s.file.text, held, o);
      var held' := Firm(env, s.file.text) + if Clean(s.file.text) then 1 else 0;
      ClaimsHeld(env, ws, s', held');
      if s'.claimed <= held' { assert UprightAt(env, ws, s', held'); }
    }
  }

  lemma LineWritten(env: Env, leader: seq<J.Json>, c: Setting, img: Image)
    requires img.next < |leader|
    ensures img.next < |Lines(env, leader, c)|
    ensures Appended(env, img, leader[img.next], Some(img.next), c)
      == Image(img.text + (Text(env, Lines(env, leader, c)[img.next]) + "\n"), img.next + 1)
  {
  }

  lemma RestartExactly(env: Env, leader: seq<J.Json>, c: Setting, s: Follower, k: nat, s': Follower, held: nat)
    requires Good(env) && UprightAt(env, Lines(env, leader, c), s, held) && Takes(env, leader, c, s, Restart(k), s')
    ensures Safe(env, s, Restart(k), s') ==> Upright(env, Lines(env, leader, c), s')
    ensures !Safe(env, s, Restart(k), s') ==> !HoldsClaimed(env, Lines(env, leader, c), s')
  {
    hide Holds, FileEntries, HoldsClaimed, Lines, Recovered, EntriesOf;
    var ws := Lines(env, leader, c);
    LinesNumbered(env, leader, c);
    HoldsCut(env, ws, s.file.text, held, k);
    var held' :| Holds(env, ws, s'.file.text, held');
    HoldsReads(env, ws, s'.file.text, held');
    RecoveredNumbered(ws, held');
    ClaimsHeld(env, ws, s', held');
    if s'.claimed <= held' { assert UprightAt(env, ws, s', held'); }
  }

  lemma RecoveredNumbered(ws: seq<Written>, held: nat)
    requires Numbered(ws) && held <= |ws|
    ensures Recovered(EntriesOf(ws[..held])) == Some(held)
  {
    hide Recovered, EntriesOf;
    RecoveredAscending(ws[..held]);
  }

  /** From an upright state, a step keeps the follower upright or, exactly when it is unsafe, breaks a claim. */
  lemma StepExactly(env: Env, leader: seq<J.Json>, c: Setting, s: Follower, a: Step, s': Follower)
    requires Good(env) && Upright(env, Lines(env, leader, c), s) && Takes(env, leader, c, s, a, s')
    ensures Safe(env, s, a, s') ==> Upright(env, Lines(env, leader, c), s')
    ensures !Safe(env, s, a, s') ==> !HoldsClaimed(env, Lines(env, leader, c), s')
  {
    hide Holds, FileEntries, HoldsClaimed, Lines, Recovered, Clean, Firm;
    var ws := Lines(env, leader, c);
    LinesNumbered(env, leader, c);
    var held :| UprightAt(env, ws, s, held);
    match a
    case Connect =>
      ClaimsHeld(env, ws, s', held);
      if !s.lost { assert UprightAt(env, ws, s', held); }
    case Take(o, acked) => TakeExactly(env, leader, c, s, o, acked, s', held);
    case Drop => assert UprightAt(env, ws, s', held);
    case Restart(k) => RestartExactly(env, leader, c, s, k, s', held);
  }

  lemma UprightHolds(env: Env, leader: seq<J.Json>, c: Setting, s: Follower)
    requires Good(env) && Upright(env, Lines(env, leader, c), s)
    ensures HoldsClaimed(env, Lines(env, leader, c), s)
  {
    hide Holds, HoldsClaimed, Lines;
    LinesNumbered(env, leader, c);
    var held :| UprightAt(env, Lines(env, leader, c), s, held);
    ClaimsHeld(env, Lines(env, leader, c), s, held);
  }

  // ----- whole runs -----

  /** The states of a run, from an empty partition. */
  ghost predicate Run(env: Env, leader: seq<J.Json>, c: Setting, steps: seq<Step>, states: seq<Follower>) {
    && |states| == |steps| + 1 && states[0] == Fresh
    && (forall i :: 0 <= i < |steps| ==> Takes(env, leader, c, states[i], steps[i], states[i + 1]))
  }

  lemma FreshUpright(env: Env, ws: seq<Written>)
    ensures Upright(env, ws, Fresh)
  {
    hide Holds;
    EmptyHolds(env, ws);
    assert UprightAt(env, ws, Fresh, 0);
  }

  lemma {:induction false} UprightAfter(
    env: Env, leader: seq<J.Json>, c: Setting, steps: seq<Step>, states: seq<Follower>, n: nat)
    requires Good(env) && Run(env, leader, c, steps, states) && n <= |steps|
    requires forall i :: 0 <= i < n ==> Safe(env, states[i], steps[i], states[i + 1])
    ensures Upright(env, Lines(env, leader, c), states[n])
  {
    hide Takes, Upright, Safe;
    if n == 0 {
      FreshUpright(env, Lines(env, leader, c));
    } else {
      UprightAfter(env, leader, c, steps, states, n - 1);
      StepExactly(env, leader, c, states[n - 1], steps[n - 1], states[n]);
    }
  }

  lemma {:induction false} SafeBefore(
    env: Env, leader: seq<J.Json>, c: Setting, steps: seq<Step>, states: seq<Follower>, n: nat)
    requires Good(env) && Run(env, leader, c, steps, states) && n <= |steps|
    requires forall i :: 0 <= i <= |steps| ==> HoldsClaimed(env, Lines(env, leader, c), states[i])
    ensures forall i :: 0 <= i < n ==> Safe(env, states[i], steps[i], states[i + 1])
  {
    hide Takes, Upright, Safe, HoldsClaimed;
    if n > 0 {
      SafeBefore(env, leader, c, steps, states, n - 1);
      UprightAfter(env, leader, c, steps, states, n - 1);
      StepExactly(env, leader, c, states[n - 1], steps[n - 1], states[n]);
    }
  }

  /** For any crashes, at any bytes, any number of times: at every moment the follower's file gives every record that it
      acknowledged or announced, if and only if every step was safe. */
  lemma ClaimedIsHeldExactly(env: Env, leader: seq<J.Json>, c: Setting, steps: seq<Step>, states: seq<Follower>)
    requires Good(env) && Run(env, leader, c, steps, states)
    ensures (forall i :: 0 <= i <= |steps| ==> HoldsClaimed(env, Lines(env, leader, c), states[i]))
      <==> (forall i :: 0 <= i < |steps| ==> Safe(env, states[i], steps[i], states[i + 1]))
  {
    hide Takes, Upright, Safe, HoldsClaimed;
    if forall i :: 0 <= i <= |steps| ==> HoldsClaimed(env, Lines(env, leader, c), states[i]) {
      SafeBefore(env, leader, c, steps, states, |steps|);
    }
    if forall i :: 0 <= i < |steps| ==> Safe(env, states[i], steps[i], states[i + 1]) {
      forall n | 0 <= n <= |steps| ensures HoldsClaimed(env, Lines(env, leader, c), states[n]) {
        UprightAfter(env, leader, c, steps, states, n);
        UprightHolds(env, leader, c, states[n]);
      }
    }
  }

  /** The torn run: a crash cuts the first append inside its text; the record is sent again and acknowledged, and is not
      in the file. */
  lemma TornIsAcknowledged(env: Env, leader: seq<J.Json>, c: Setting, k: nat)
    requires Good(env) && leader != [] && 0 < k < |Text(env, Lines(env, leader, c)[0])|
    ensures var line := Text(env, Lines(env, leader, c)[0]) + "\n";
      var end := Follower(Image(line[..k] + line, 1), true, 1, true);
      && Run(env, leader, c, [Connect, Take(0, false), Restart(k), Connect, Take(0, true)],
           [Fresh, Follower(Image("", 0), true, 0, false), Follower(Image(line, 1), false, 0, false),
            Follower(Image(line[..k], 0), false, 0, false), Follower(Image(line[..k], 0), true, 0, false), end])
      && FileEntries(env, end.file.text) == [] && !HoldsClaimed(env, Lines(env, leader, c), end)
  {
    hide FileEntries, Record;
    var w := Lines(env, leader, c)[0];
    var line := Text(env, w) + "\n";
    assert line[..k] == Text(env, w)[..k] && "" + line == line;
    TornText(env, w, k);
    var (s1, s2) := (Follower(Image("", 0), true, 0, false), Follower(Image(line, 1), false, 0, false));
    var (s3, s4) := (Follower(Image(line[..k], 0), false, 0, false), Follower(Image(line[..k], 0), true, 0, false));
    AppendToTorn(env, w, k, [w]);
    assert Takes(env, leader, c, s1, Take(0, false), s2);
    assert Takes(env, leader, c, s2, Restart(k), s3);
    assert Takes(env, leader, c, s4, Take(0, true), Follower(Image(line[..k] + line, 1), true, 1, true));
    assert Takes(env, leader, c, Fresh, Connect, s1) && Takes(env, leader, c, s3, Connect, s4);
    hide Takes, Text;
    assert FileOf(env, [w]) == line + "" == line && [w][1..] == [];
  }

  /** A crash that takes the whole file, when what was written had not reached the disk: the record was acknowledged. */
  lemma CutOffIsAcknowledged(env: Env, leader: seq<J.Json>, c: Setting)
    requires Good(env) && leader != []
    ensures var line := Text(env, Lines(env, leader, c)[0]) + "\n";
      var end := Follower(Image("", 0), false, 1, false);
      && Run(env, leader, c, [Connect, Take(0, true), Restart(0)],
           [Fresh, Follower(Image("", 0), true, 0, false), Follower(Image(line, 1), true, 1, false), end])
      && !HoldsClaimed(env, Lines(env, leader, c), end)
  {
    hide FileEntries, Record;
    var w := Lines(env, leader, c)[0];
    var line := Text(env, w) + "\n";
    EmptyFile(env);
    assert "" + line == line && line[..0] == "";
    var (s1, s2) := (Follower(Image("", 0), true, 0, false), Follower(Image(line, 1), true, 1, false));
    assert Takes(env, leader, c, Fresh, Connect, s1);
    assert Takes(env, leader, c, s1, Take(0, true), s2);
    assert Takes(env, leader, c, s2, Restart(0), Follower(Image("", 0), false, 1, false));
  }
}
