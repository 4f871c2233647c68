/** The next offset by counting lines, as `docs/storage.md` has it, against the one the scan computes. */
module Counting {
  import opened Wrappers
  import opened Library
  import opened LogText
  import opened PartitionLog
  import opened Crash
  import J = Json

  /** Lines that are not blank. */
  function Counted(lines: seq<string>): nat {
    if lines == [] then 0 else Counted(lines[..|lines| - 1]) + if Strip(lines[|lines| - 1]) == "" then 0 else 1
  }

  /** Lines that are neither blank nor a record. */
  function Junk(env: Env, lines: seq<string>): nat {
    if lines == [] then 0 else
      var last := lines[|lines| - 1];
      Junk(env, lines[..|lines| - 1]) + if Strip(last) == "" || Decode(env, last).Some? then 0 else 1
  }

  function LineCount(text: string): nat { Counted(LogText.Lines(text)) }

  function JunkCount(env: Env, text: string): nat { Junk(env, LogText.Lines(text)) }

  predicate HasOffset(es: seq<Entry>, o: int) { exists i :: 0 <= i < |es| && NumericValue(es[i].offset) == Some(o) }

  /** The offsets below n that some record has. */
  function Held(es: seq<Entry>, n: int): set<int> { set o | 0 <= o < n && HasOffset(es, o) }

  /** The offsets below n that no record has. */
  function Missing(es: seq<Entry>, n: int): set<int> { set o | 0 <= o < n && !HasOffset(es, o) }

  lemma {:induction false} LinesAre(env: Env, lines: seq<string>)
    ensures Counted(lines) == |Entries(env, lines)| + Junk(env, lines)
  {
    if lines != [] { LinesAre(env, lines[..|lines| - 1]); }
  }

  lemma OneMoreOffset(es: seq<Entry>, n: nat)
    ensures Held(es, n + 1) == Held(es, n) + if HasOffset(es, n) then {n} else {}
    ensures Missing(es, n + 1) == Missing(es, n) + if HasOffset(es, n) then {} else {n}
  {
    hide HasOffset;
  }

  lemma {:induction false} HeldAndMissing(es: seq<Entry>, n: nat)
    ensures |Held(es, n)| + |Missing(es, n)| == n
  {
    if n > 0 {
      HeldAndMissing(es, n - 1);
      OneMoreOffset(es, n - 1);
      assert n - 1 !in Held(es, n - 1) && n - 1 !in Missing(es, n - 1);
      hide Held, Missing, HasOffset;
    }
  }

  /** On arbitrary file contents: counting lines gives the offset that the scan computes if and only if the scan
      does not raise and as many offsets below it are missing as there are lines that are no record and records that
      repeat an offset or have a negative one. */
  lemma CountingExactly(env: Env, text: string)
    ensures var es := FileEntries(env, text);
      Recovered(es) == Some(LineCount(text)) <==>
        Recovered(es).Some?
        && var n := Recovered(es).value; |Missing(es, n)| == JunkCount(env, text) + (|es| - |Held(es, n)|)
  {
    var es := FileEntries(env, text);
    LinesAre(env, LogText.Lines(text));
    RecoveryAgreesWithReading(es);
    if Recovered(es).Some? { HeldAndMissing(es, Recovered(es).value); }
  }

  /** In a file of nothing but records with increasing offsets: if and only if the offsets are 0, 1, 2, ... */
  lemma CountingRecords(env: Env, text: string)
    requires JunkCount(env, text) == 0 && Regular(FileEntries(env, text))
    ensures var es := FileEntries(env, text);
      Recovered(es) == Some(LineCount(text)) <==> forall i :: 0 <= i < |es| ==> es[i].offset.n == i
  {
    LinesAre(env, LogText.Lines(text));
    DenseExactly(FileEntries(env, text));
  }

  lemma {:induction false} DenseExactly(es: seq<Entry>)
    requires Regular(es)
    ensures Recovered(es) == Some(|es|) <==> forall i :: 0 <= i < |es| ==> es[i].offset.n == i
  {
    RecoveryAgreesWithReading(es);
    if es != [] {
      var last := |es| - 1;
      assert Above(es[last].offset.n + 1, es);
      assert NumericValue(es[last].offset) == Some(es[last].offset.n);
      if es[last].offset.n == last {
        forall i | 0 <= i < |es| ensures es[i].offset.n == i {
          AtLeastPlace(es, i);
          PlacesLeft(es, i, last);
        }
      }
    }
  }

  lemma {:induction false} AtLeastPlace(es: seq<Entry>, i: nat)
    requires Regular(es) && i < |es|
    ensures es[i].offset.n >= i
  {
    if i > 0 { AtLeastPlace(es, i - 1); }
  }

  lemma {:induction false} PlacesLeft(es: seq<Entry>, i: nat, j: nat)
    requires Regular(es) && i <= j < |es|
    ensures es[i].offset.n + (j - i) <= es[j].offset.n
    decreases j - i
  {
    if i < j { PlacesLeft(es, i + 1, j); }
  }

  // ----- a file where the count is wrong -----

  lemma {:induction false} CountedConcat(a: seq<string>, b: seq<string>)
    ensures Counted(a + b) == Counted(a) + Counted(b)
  {
    if b == [] {
      assert a + b == a;
    } else {
      assert (a + b)[..|a + b| - 1] == a + b[..|b| - 1];
      CountedConcat(a, b[..|b| - 1]);
    }
  }

  lemma OneCounted(line: string, rest: string)
    requires line != "" && !IsSpace(line[0]) && !IsSpace(line[|line| - 1]) && forall i :: 0 <= i < |line| ==>
      !IsBreak(line[i])
    ensures LineCount(line + "\n" + rest) == 1 + LineCount(rest)
  {
    SplitOneLine("", line);
    assert "" + line == line;
    assert line + "\n" + rest == line + ['\n'] + rest;
    SplitAtBreak("", line, '\n', rest);
    CountedConcat([line], LogText.Lines(rest));
    StripSafe(line);
    assert [line][..0] == [];
  }

  /** The file a crash leaves behind: the first record, then a torn one with the next record glued to it. Its two lines
      hold one record, and the next offset is 1. */
  lemma CountingOvershoots(env: Env, first: Written, torn: Written, k: nat, next: Written)
    requires Good(env) && first.offset == 0 && 0 < k <= |Text(env, torn)|
    ensures var text := FileOf(env, [first]) + (Text(env, torn)[..k] + FileOf(env, [next]));
      LineCount(text) == 2 && Recovered(FileEntries(env, text)) == Some(1)
  {
    hide Text, LineCount, FileEntries;
    var (a, q, b) := (Text(env, first), Text(env, torn)[..k], Text(env, next));
    assert [first][1..] == [] && FileOf(env, [first]) == (a + "\n") + "" == a + "\n";
    assert [next][1..] == [] && FileOf(env, [next]) == (b + "\n") + "" == b + "\n";
    TextSafe(env, first);
    TextSafe(env, torn);
    TextSafe(env, next);
    assert q + (b + "\n") == (q + b) + "\n" + "";
    OneCounted(a, q + (b + "\n"));
    OneCounted(q + b, "");
    NothingCounted();
    AppendToTorn(env, torn, k, [next]);
    FirstLine(env, first, q + (b + "\n"));
    RecoveredOne(first.message);
  }

  lemma NothingCounted()
    ensures LineCount("") == 0
  {
    assert [""][..0] == [];
  }

  lemma RecoveredOne(m: J.Json)
    ensures Recovered([Entry(J.Num(0), m)] + []) == Some(1)
  {
    var e := Entry(J.Num(0), m);
    assert [e] + [] == [e] && [e][..0] == [];
  }
}
