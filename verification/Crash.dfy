/** Cutting a log file at an arbitrary byte, recovering, and carrying on. */
module Crash {
  // Files written by appends are ASCII, so a byte is a character.

  import opened Wrappers
  import opened Json
  import opened Library
  import opened LogText
  import opened Pieces

  /** What `append` writes for one record. */
  datatype Written = Written(offset: nat, message: Json)

  function Text(env: Env, w: Written): string { env.dumps(Record(env, w.offset, w.message)) }

  function FileOf(env: Env, ws: seq<Written>): string {
    if ws == [] then "" else (Text(env, ws[0]) + "\n") + FileOf(env, ws[1..])
  }

  function EntriesOf(ws: seq<Written>): seq<Entry> {
    if ws == [] then [] else [Entry(Num(ws[0].offset), ws[0].message)] + EntriesOf(ws[1..])
  }

  /** The byte position just after the text of record i, before its newline. */
  function EndOf(env: Env, ws: seq<Written>, i: nat): nat
    requires i < |ws|
  {
    if i == 0 then |Text(env, ws[0])| else |Text(env, ws[0])| + 1 + EndOf(env, ws[1..], i - 1)
  }

  /** How many records have their full text within the first k bytes. */
  function Survivors(env: Env, ws: seq<Written>, k: nat): (m: nat)
    ensures m <= |ws|
    ensures forall i :: 0 <= i < |ws| ==> (i < m <==> EndOf(env, ws, i) <= k)
  {
    if ws == [] then 0 else
      var n := |Text(env, ws[0])|;
      if k < n then
        assert forall i :: 0 <= i < |ws| ==> EndOf(env, ws, i) >= n;
        0
      else if k == n then
        assert forall i :: 0 < i < |ws| ==> EndOf(env, ws, i) > n;
        1
      else
        var m := Survivors(env, ws[1..], k - n - 1);
        assert forall i :: 0 < i < |ws| ==> EndOf(env, ws, i) == n + 1 + EndOf(env, ws[1..], i - 1);
        1 + m
  }

  /** How many records also have their newline there. */
  function WholeLines(env: Env, ws: seq<Written>, k: nat): (m: nat)
    ensures m <= |ws|
    ensures forall i :: 0 <= i < |ws| ==> (i < m <==> EndOf(env, ws, i) < k)
  {
    if ws == [] then 0 else
      var n := |Text(env, ws[0])|;
      if k <= n then
        assert forall i :: 0 <= i < |ws| ==> EndOf(env, ws, i) >= n;
        0
      else
        var m := WholeLines(env, ws[1..], k - n - 1);
        assert forall i :: 0 < i < |ws| ==> EndOf(env, ws, i) == n + 1 + EndOf(env, ws[1..], i - 1);
        1 + m
  }

  lemma {:induction false} EntriesOfConcat(a: seq<Written>, b: seq<Written>)
    ensures EntriesOf(a + b) == EntriesOf(a) + EntriesOf(b)
  {
    if a == [] {
      assert a + b == b;
    } else {
      assert (a + b)[1..] == a[1..] + b;
      EntriesOfConcat(a[1..], b);
    }
  }

  lemma EmptyFile(env: Env)
    ensures FileEntries(env, "") == []
  {
    BlankLine(env);
  }

  lemma TextSafe(env: Env, w: Written)
    requires Good(env)
    ensures LineSafe(Text(env, w))
  {
  }

  lemma FirstLine(env: Env, w: Written, rest: string)
    requires Good(env)
    ensures FileEntries(env, (Text(env, w) + "\n") + rest) == [Entry(Num(w.offset), w.message)] + FileEntries(env, rest)
  {
    hide FileEntries, Record, Decode;
    AppendRecord(env, "", w.offset, w.message);
    EmptyFile(env);
    assert "" + (Text(env, w) + "\n") == Text(env, w) + "\n";
    CleanConcat(env, Text(env, w) + "\n", rest);
  }

  lemma {:induction false} WrittenFile(env: Env, ws: seq<Written>)
    requires Good(env)
    ensures Clean(FileOf(env, ws)) && FileEntries(env, FileOf(env, ws)) == EntriesOf(ws)
  {
    if ws == [] {
      EntriesOne(env, "");
    } else {
      WrittenFile(env, ws[1..]);
      FirstLine(env, ws[0], FileOf(env, ws[1..]));
    }
  }

  /** The first k bytes of one record's text are a record only when they are all of it. */
  lemma TornText(env: Env, w: Written, k: nat)
    requires Good(env) && k <= |Text(env, w)|
    ensures FileEntries(env, Text(env, w)[..k]) == if k == |Text(env, w)| then [Entry(Num(w.offset), w.message)] else []
  {
    var s := Text(env, w);
    var q := s[..k];
    assert LineSafe(s);
    OneLineEntries(env, q, false);
    if k == |s| {
      assert q == s;
      DecodeRecord(env, w.offset, w.message);
    } else if k > 0 {
      StripRightPrefix(q);
      var n :| 0 <= n <= k && StripRight(q) == q[..n];
      assert q[..n] == s[..n];
      assert env.loads(env.dumps(Record(env, w.offset, w.message))[..n]) == None;
    }
  }

  lemma TwoPieces(env: Env, a: Json, k: nat, b: Json)
    requires Good(env) && a.Obj? && 0 < k <= |env.dumps(a)| && IsRecord(b)
    ensures env.loads(env.dumps(a)[..k] + env.dumps(b)) == None
  {
    assert LineSafe(env.dumps(b));
    var (p, q) := (Piece(a, k), Piece(b, |env.dumps(b)|));
    assert GluesRecords(env, [p, q]);
    assert [p, q][1..] == [q] && [q][1..] == [];
    assert PieceText(env.dumps, q) == env.dumps(b);
    assert Glued(env.dumps, [q]) == env.dumps(b) + "" == env.dumps(b);
    assert Glued(env.dumps, [p, q]) == env.dumps(a)[..k] + env.dumps(b);
  }

  /** A torn beginning glued to the next record's text is not a record. */
  lemma GluedText(env: Env, w: Written, k: nat, next: Written)
    requires Good(env) && 0 < k <= |Text(env, w)|
    ensures Decode(env, Text(env, w)[..k] + Text(env, next)) == None
  {
    var (q, s) := (Text(env, w)[..k], Text(env, next));
    TwoPieces(env, Record(env, w.offset, w.message), k, Record(env, next.offset, next.message));
    assert LineSafe(Text(env, w)) && LineSafe(s);
    assert (q + s)[|q + s| - 1] == s[|s| - 1];
    StripSafe(q + s);
  }

  /** Crash at any byte: recovery sees exactly the records whose full text survived. */
  lemma {:induction false} CrashKeepsSurvivors(env: Env, ws: seq<Written>, k: nat)
    requires Good(env) && k <= |FileOf(env, ws)|
    ensures FileEntries(env, FileOf(env, ws)[..k]) == EntriesOf(ws[..Survivors(env, ws, k)])
  {
    hide Text, FileEntries;
    var m := Survivors(env, ws, k);
    if ws == [] {
      EmptyFile(env);
    } else {
      var (line, rest) := (Text(env, ws[0]) + "\n", FileOf(env, ws[1..]));
      var n := |Text(env, ws[0])|;
      if k <= n {
        assert FileOf(env, ws)[..k] == Text(env, ws[0])[..k];
        TornText(env, ws[0], k);
        assert m == 1 ==> ws[..m][1..] == [];
      } else {
        assert FileOf(env, ws)[..k] == line + rest[..k - n - 1];
        CrashKeepsSurvivors(env, ws[1..], k - n - 1);
        FirstLine(env, ws[0], rest[..k - n - 1]);
        assert ws[..m][1..] == ws[1..][..m - 1];
      }
    }
  }

  /** What a file holds after a cut at byte k and further appends: a clean cut loses nothing; a torn one takes
      with it the record that was torn and the first record appended. */
  ghost function Resumed(env: Env, ws: seq<Written>, k: nat, more: seq<Written>): seq<Entry>
    requires k <= |FileOf(env, ws)| && more != []
  {
    if Clean(FileOf(env, ws)[..k]) then EntriesOf(ws[..Survivors(env, ws, k)]) + EntriesOf(more)
    else EntriesOf(ws[..WholeLines(env, ws, k)]) + EntriesOf(more[1..])
  }

  lemma CutAfterFirst(env: Env, ws: seq<Written>, k: nat)
    requires ws != [] && |Text(env, ws[0])| < k <= |FileOf(env, ws)|
    ensures
      var (cut, cut') := (FileOf(env, ws)[..k], FileOf(env, ws[1..])[..k - |Text(env, ws[0])| - 1]);
      cut == (Text(env, ws[0]) + "\n") + cut' && (Clean(cut) <==> Clean(cut'))
  {
    var (line, cut) := (Text(env, ws[0]) + "\n", FileOf(env, ws)[..k]);
    var cut' := FileOf(env, ws[1..])[..k - |line|];
    assert cut == line + cut';
    assert cut' == "" ==> cut[|cut| - 1] == '\n';
    assert cut' != "" ==> cut[|cut| - 1] == cut'[|cut'| - 1];
  }

  lemma ResumedAfterFirst(env: Env, ws: seq<Written>, k: nat, more: seq<Written>)
    requires ws != [] && |Text(env, ws[0])| < k <= |FileOf(env, ws)| && more != []
    ensures Resumed(env, ws, k, more)
      == [Entry(Num(ws[0].offset), ws[0].message)] + Resumed(env, ws[1..], k - |Text(env, ws[0])| - 1, more)
  {
    hide FileOf, Text, EntriesOf, Survivors, WholeLines, Clean, EndOf;
    var k' := k - |Text(env, ws[0])| - 1;
    var (m, n) := (Survivors(env, ws[1..], k'), WholeLines(env, ws[1..], k'));
    CutAfterFirst(env, ws, k);
    CountsAfterFirst(env, ws, k);
    EntriesOfPrefix(ws, m + 1);
    EntriesOfPrefix(ws, n + 1);
    Regroup([Entry(Num(ws[0].offset), ws[0].message)], EntriesOf(ws[1..][..m]), EntriesOf(more));
    Regroup([Entry(Num(ws[0].offset), ws[0].message)], EntriesOf(ws[1..][..n]), EntriesOf(more[1..]));
  }

  lemma Regroup(a: seq<Entry>, b: seq<Entry>, c: seq<Entry>)
    ensures a + b + c == a + (b + c)
  {
  }

  /** A cut past the first line leaves one record more than in the rest of the file. */
  lemma CountsAfterFirst(env: Env, ws: seq<Written>, k: nat)
    requires ws != [] && |Text(env, ws[0])| < k
    ensures var k' := k - |Text(env, ws[0])| - 1;
      && Survivors(env, ws, k) == 1 + Survivors(env, ws[1..], k')
      && WholeLines(env, ws, k) == 1 + WholeLines(env, ws[1..], k')
  {
    hide Text, EndOf;
  }

  lemma ResumedEmpty(env: Env, ws: seq<Written>, more: seq<Written>)
    requires Good(env) && more != []
    ensures Resumed(env, ws, 0, more) == EntriesOf(more)
  {
    hide FileEntries;
    CrashKeepsSurvivors(env, ws, 0);
    EmptyFile(env);
  }

  lemma ResumedTorn(env: Env, ws: seq<Written>, k: nat, more: seq<Written>)
    requires Good(env) && ws != [] && 0 < k <= |Text(env, ws[0])| && more != []
    ensures k <= |FileOf(env, ws)| && Resumed(env, ws, k, more) == EntriesOf(more[1..])
  {
    AppendToTorn(env, ws[0], k, more);
    assert FileOf(env, ws)[..k] == Text(env, ws[0])[..k];
  }

  lemma EntriesOfPrefix(ws: seq<Written>, m: nat)
    requires 0 < m <= |ws|
    ensures EntriesOf(ws[..m]) == [Entry(Num(ws[0].offset), ws[0].message)] + EntriesOf(ws[1..][..m - 1])
  {
    assert ws[..m][1..] == ws[1..][..m - 1];
  }

  /** Carrying on after a crash at any byte. */
  lemma {:induction false} AppendAfterCrash(env: Env, ws: seq<Written>, k: nat, more: seq<Written>)
    requires Good(env) && k <= |FileOf(env, ws)| && more != []
    ensures FileEntries(env, FileOf(env, ws)[..k] + FileOf(env, more)) == Resumed(env, ws, k, more)
  {
    hide Text, Survivors, WholeLines, EntriesOf, FileEntries, Resumed;
    var cut := FileOf(env, ws)[..k];
    if k == 0 {
      WrittenFile(env, more);
      assert cut + FileOf(env, more) == FileOf(env, more);
      ResumedEmpty(env, ws, more);
    } else if k <= |Text(env, ws[0])| {
      assert cut == Text(env, ws[0])[..k];
      AppendToTorn(env, ws[0], k, more);
      ResumedTorn(env, ws, k, more);
    } else {
      var k' := k - |Text(env, ws[0])| - 1;
      var cut' := FileOf(env, ws[1..])[..k'];
      AppendAfterCrash(env, ws[1..], k', more);
      CutAfterFirst(env, ws, k);
      assert cut + FileOf(env, more) == (Text(env, ws[0]) + "\n") + (cut' + FileOf(env, more));
      FirstLine(env, ws[0], cut' + FileOf(env, more));
      ResumedAfterFirst(env, ws, k, more);
    }
  }

  lemma AppendToTorn(env: Env, w: Written, k: nat, more: seq<Written>)
    requires Good(env) && 0 < k <= |Text(env, w)| && more != []
    ensures !Clean(Text(env, w)[..k])
    ensures FileEntries(env, Text(env, w)[..k] + FileOf(env, more)) == EntriesOf(more[1..])
  {
    hide Decode, Record, FileEntries, Text;
    var (q, s, rest) := (Text(env, w)[..k], Text(env, more[0]), FileOf(env, more[1..]));
    TextSafe(env, w);
    TextSafe(env, more[0]);
    assert q + FileOf(env, more) == ((q + s) + "\n") + rest;
    CleanConcat(env, (q + s) + "\n", rest);
    forall i | 0 <= i < |q + s| ensures !IsBreak((q + s)[i]) {
      assert (q + s)[i] == if i < k then Text(env, w)[i] else s[i - k];
    }
    OneLineEntries(env, q + s, true);
    GluedText(env, w, k, more[0]);
    WrittenFile(env, more[1..]);
  }

  lemma {:induction false} EntriesOfLength(ws: seq<Written>)
    ensures |EntriesOf(ws)| == |ws|
  {
    if ws != [] { EntriesOfLength(ws[1..]); }
  }

  /** Resumption is lossless exactly when the surviving file is empty or ends in a newline. */
  lemma LosslessExactlyWhenClean(env: Env, ws: seq<Written>, k: nat, more: seq<Written>)
    requires Good(env) && k <= |FileOf(env, ws)| && more != []
    ensures
      var cut := FileOf(env, ws)[..k];
      FileEntries(env, cut + FileOf(env, more)) == FileEntries(env, cut) + EntriesOf(more) <==> Clean(cut)
  {
    var (m, l) := (Survivors(env, ws, k), WholeLines(env, ws, k));
    CrashKeepsSurvivors(env, ws, k);
    assert m < |ws| ==> EndOf(env, ws, m) > k;
    AppendAfterCrash(env, ws, k, more);
    EntriesOfLength(ws[..m]);
    EntriesOfLength(ws[..l]);
    EntriesOfLength(more);
    EntriesOfLength(more[1..]);
  }

  ghost predicate Ascending(ws: seq<Written>) { forall i, j :: 0 <= i < j < |ws| ==> ws[i].offset < ws[j].offset }

  lemma {:induction false} EntriesOfAt(ws: seq<Written>, i: nat)
    requires i < |ws|
    ensures |EntriesOf(ws)| == |ws| && EntriesOf(ws)[i] == Entry(Num(ws[i].offset), ws[i].message)
  {
    EntriesOfLength(ws);
    if i > 0 { EntriesOfAt(ws[1..], i - 1); }
  }

  /** The recovered next offset is one past the last surviving record, 0 when none survived. */
  lemma CrashNextOffset(env: Env, ws: seq<Written>, k: nat)
    requires Good(env) && Ascending(ws) && k <= |FileOf(env, ws)|
    ensures
      var m := Survivors(env, ws, k);
      Recovered(FileEntries(env, FileOf(env, ws)[..k])) == Some(if m == 0 then 0 else ws[m - 1].offset + 1)
  {
    hide FileEntries, FileOf, Recovered;
    CrashKeepsSurvivors(env, ws, k);
    var m := Survivors(env, ws, k);
    RecoveredAscending(ws[..m]);
  }

  lemma RecoveredAscending(ws: seq<Written>)
    requires Ascending(ws)
    ensures Recovered(EntriesOf(ws)) == Some(if ws == [] then 0 else ws[|ws| - 1].offset + 1)
  {
    hide Recovered, EntriesOf;
    var es := EntriesOf(ws);
    var n: int := if ws == [] then 0 else ws[|ws| - 1].offset + 1;
    EntriesOfLength(ws);
    forall i | 0 <= i < |ws| ensures NumericValue(es[i].offset) == Some(ws[i].offset) { EntriesOfAt(ws, i); }
    RecoveryAgreesWithReading(es);
    assert Above(n, es);
  }
}
