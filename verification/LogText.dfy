/** The text of a partition's log file: lines, records, and what both readers make of arbitrary contents. */
module LogText {
  import opened Wrappers
  import opened Json
  import opened Library
  import Pieces

  const OFFSET: Text := Pieces.OFFSET
  const MESSAGE: Text := Ascii("message")
  const CHECKSUM: Text := Ascii("checksum")

  /** A stored record, before its message is decompressed. */
  datatype Entry = Entry(offset: Json, message: Json)

  // ----- lines -----

  function StripLeft(s: string): string {
    if s != "" && IsSpace(s[0]) then StripLeft(s[1..]) else s
  }

  function StripRight(s: string): string {
    if s != "" && IsSpace(s[|s| - 1]) then StripRight(s[..|s| - 1]) else s
  }

  function Strip(s: string): string { StripRight(StripLeft(s)) }

  /** Text-mode iteration: a line ends at \n or \r (a \r\n pair only adds a blank line, which readers skip). */
  function Split(current: string, text: string): seq<string>
    decreases |text|
  {
    if text == "" then [current]
    else if IsBreak(text[0]) then [current] + Split("", text[1..])
    else Split(current + [text[0]], text[1..])
  }

  function Lines(text: string): seq<string> { Split("", text) }

  /** Nothing torn at the end. */
  predicate Clean(text: string) { text == "" || IsBreak(text[|text| - 1]) }

  // ----- records -----

  /** Python's numbers: booleans count as 0 and 1. None where arithmetic raises TypeError. */
  function NumericValue(j: Json): Option<int> {
    match j
    case Num(n) => Some(n)
    case Bool(b) => Some(if b then 1 else 0)
    case _ => None
  }

  /** The record on a line, if it parses, has both fields, and matches its checksum when it carries one. */
  function Decode(env: Env, line: string): Option<Entry> {
    var s := Strip(line);
    if s == "" then None else
      match env.loads(s)
      case Some(Obj(fs)) =>
        (match (Lookup(fs, OFFSET), Lookup(fs, MESSAGE))
         case (Some(o), Some(m)) =>
           (match Lookup(fs, CHECKSUM)
            case None => Some(Entry(o, m))
            case Some(c) => if NumericValue(c) == Some(env.checksum(o, m)) then Some(Entry(o, m)) else None)
         case _ => None)
      case _ => None
  }

  function DecodeSeq(env: Env, line: string): seq<Entry> {
    match Decode(env, line) case None => [] case Some(e) => [e]
  }

  function Entries(env: Env, lines: seq<string>): seq<Entry> {
    if lines == [] then [] else Entries(env, lines[..|lines| - 1]) + DecodeSeq(env, lines[|lines| - 1])
  }

  function FileEntries(env: Env, text: string): seq<Entry> { Entries(env, Lines(text)) }

  /** The start-up scan over the records of a file; None when a record's offset is not a number. */
  function Recovered(es: seq<Entry>): Option<int> {
    if es == [] then Some(0) else
      match (Recovered(es[..|es| - 1]), NumericValue(es[|es| - 1].offset))
      case (Some(n), Some(o)) => Some(if n >= o + 1 then n else o + 1)
      case _ => None
  }

  function Record(env: Env, offset: nat, message: Json): Json {
    Obj(Field(OFFSET, Num(offset), Field(MESSAGE, message,
        Field(CHECKSUM, Num(env.checksum(Num(offset), message)), NoFields))))
  }

  // ----- recovery against reading, on arbitrary contents -----

  ghost predicate Above(n: int, es: seq<Entry>) {
    n >= 0 && forall i :: 0 <= i < |es| ==> NumericValue(es[i].offset).Some? && NumericValue(es[i].offset).value < n
  }

  /** On any file the scan fails exactly when reading returns a record with a non-numeric offset; otherwise its
      result is the least bound above every offset that reading returns. */
  lemma {:induction false} RecoveryAgreesWithReading(es: seq<Entry>)
    ensures Recovered(es).None? <==> exists i :: 0 <= i < |es| && NumericValue(es[i].offset).None?
    ensures Recovered(es).Some? ==> Above(Recovered(es).value, es)
    ensures Recovered(es).Some? ==> forall n :: Above(n, es) ==> Recovered(es).value <= n
  {
    if es != [] {
      var front := es[..|es| - 1];
      RecoveryAgreesWithReading(front);
      forall n | Above(n, es) ensures Above(n, front) {
        forall i | 0 <= i < |front|
          ensures NumericValue(front[i].offset).Some? && NumericValue(front[i].offset).value < n
        {
          assert front[i] == es[i];
        }
      }
      if Recovered(front).None? {
        var i :| 0 <= i < |front| && NumericValue(front[i].offset).None?;
        assert es[i] == front[i];
      }
    }
  }

  // ----- how text and lines concatenate -----

  lemma {:induction false} EntriesConcat(env: Env, a: seq<string>, b: seq<string>)
    ensures Entries(env, a + b) == Entries(env, a) + Entries(env, b)
  {
    if b == [] {
      assert a + b == a;
    } else {
      assert (a + b)[..|a + b| - 1] == a + b[..|b| - 1];
      EntriesConcat(env, a, b[..|b| - 1]);
    }
  }

  lemma EntriesOne(env: Env, line: string)
    ensures Entries(env, [line]) == DecodeSeq(env, line)
  {
    assert [line][..0] == [];
  }

  lemma {:induction false} SplitAtBreak(current: string, a: string, c: char, b: string)
    requires IsBreak(c)
    ensures Split(current, a + [c] + b) == Split(current, a) + Split("", b)
    decreases |a|
  {
    var t := a + [c] + b;
    if a == "" {
      assert t[1..] == b;
    } else {
      assert t[1..] == a[1..] + [c] + b;
      if IsBreak(a[0]) {
        SplitAtBreak("", a[1..], c, b);
      } else {
        SplitAtBreak(current + [a[0]], a[1..], c, b);
      }
    }
  }

  lemma {:induction false} SplitOneLine(current: string, a: string)
    requires forall i :: 0 <= i < |a| ==> !IsBreak(a[i])
    ensures Split(current, a) == [current + a]
    decreases |a|
  {
    if a == "" {
      assert current + a == current;
    } else {
      SplitOneLine(current + [a[0]], a[1..]);
      assert current + [a[0]] + a[1..] == current + a;
    }
  }

  lemma BlankLine(env: Env)
    ensures DecodeSeq(env, "") == [] && Entries(env, [""]) == []
  {
    EntriesOne(env, "");
  }

  lemma LinesAtCleanEnd(a: string, b: string)
    requires Clean(a) && a != ""
    ensures var front := Lines(a[..|a| - 1]); Lines(a) == front + [""] && Lines(a + b) == front + Lines(b)
  {
    var (front, c) := (a[..|a| - 1], a[|a| - 1]);
    assert a == front + [c] + "";
    assert a + b == front + [c] + b;
    SplitAtBreak("", front, c, "");
    SplitAtBreak("", front, c, b);
  }

  /** Text after a clean end adds its own records to those before it. */
  lemma CleanConcat(env: Env, a: string, b: string)
    requires Clean(a)
    ensures FileEntries(env, a + b) == FileEntries(env, a) + FileEntries(env, b)
  {
    hide Decode, DecodeSeq;
    BlankLine(env);
    if a == "" {
      assert a + b == b;
    } else {
      var front := Lines(a[..|a| - 1]);
      LinesAtCleanEnd(a, b);
      EntriesConcat(env, front, [""]);
      EntriesConcat(env, front, Lines(b));
    }
  }

  /** A terminated line holds at most one record. */
  lemma OneLineEntries(env: Env, line: string, terminated: bool)
    requires forall i :: 0 <= i < |line| ==> !IsBreak(line[i])
    ensures FileEntries(env, if terminated then line + "\n" else line) == DecodeSeq(env, line)
  {
    SplitOneLine("", line);
    assert "" + line == line;
    EntriesOne(env, line);
    if terminated {
      assert line + "\n" == line + ['\n'] + "";
      SplitAtBreak("", line, '\n', "");
      EntriesConcat(env, [line], [""]);
      EntriesOne(env, "");
    }
  }

  // ----- written records read back -----

  lemma StripSafe(s: string)
    requires s != "" && !IsSpace(s[0]) && !IsSpace(s[|s| - 1])
    ensures Strip(s) == s
  {
  }

  lemma {:induction false} StripRightPrefix(s: string)
    ensures exists k :: 0 <= k <= |s| && StripRight(s) == s[..k]
  {
    if s != "" && IsSpace(s[|s| - 1]) {
      StripRightPrefix(s[..|s| - 1]);
      var k :| 0 <= k <= |s| - 1 && StripRight(s) == s[..|s| - 1][..k];
      assert s[..|s| - 1][..k] == s[..k];
    } else {
      assert s == s[..|s|];
    }
  }

  lemma RecordLookups(env: Env, offset: nat, m: Json)
    ensures
      var fs := Record(env, offset, m).fields;
      && Lookup(fs, OFFSET) == Some(Num(offset))
      && Lookup(fs, MESSAGE) == Some(m)
      && Lookup(fs, CHECKSUM) == Some(Num(env.checksum(Num(offset), m)))
  {
    assert |OFFSET| == 6 && |MESSAGE| == 7 && |CHECKSUM| == 8;
    var fs := Record(env, offset, m).fields;
    assert fs.rest.rest.rest == NoFields && Lookup(NoFields, CHECKSUM) == None;
    assert Lookup(fs.rest.rest, CHECKSUM) == Some(Num(env.checksum(Num(offset), m)));
    assert Lookup(fs.rest, CHECKSUM) == Lookup(fs.rest.rest, CHECKSUM);
    assert Lookup(fs.rest.rest, MESSAGE) == None && Lookup(fs.rest.rest, OFFSET) == None;
    assert Lookup(fs.rest, MESSAGE) == Some(m) && Lookup(fs.rest, OFFSET) == None;
  }

  lemma DecodeRecord(env: Env, offset: nat, m: Json)
    requires Good(env)
    ensures Decode(env, env.dumps(Record(env, offset, m))) == Some(Entry(Num(offset), m))
  {
    var r := Record(env, offset, m);
    assert LineSafe(env.dumps(r));
    StripSafe(env.dumps(r));
    RecordLookups(env, offset, m);
  }

  /** Appending a record to a clean file adds exactly that record to what is read. */
  lemma AppendRecord(env: Env, text: string, offset: nat, m: Json)
    requires Good(env) && Clean(text)
    ensures var t := text + (env.dumps(Record(env, offset, m)) + "\n");
      Clean(t) && FileEntries(env, t) == FileEntries(env, text) + [Entry(Num(offset), m)]
  {
    var line := env.dumps(Record(env, offset, m));
    assert LineSafe(line);
    CleanConcat(env, text, line + "\n");
    OneLineEntries(env, line, true);
    DecodeRecord(env, offset, m);
  }

  // ----- a record that stops the scan -----

  /** A record as `append` never writes one: no checksum, and any offset. */
  function Foreign(offset: Json, message: Json): Json {
    Obj(Field(OFFSET, offset, Field(MESSAGE, message, NoFields)))
  }

  lemma DecodeForeign(env: Env, offset: Json, message: Json)
    requires Good(env)
    ensures Decode(env, env.dumps(Foreign(offset, message))) == Some(Entry(offset, message))
  {
    var r := Foreign(offset, message);
    assert LineSafe(env.dumps(r));
    StripSafe(env.dumps(r));
    ForeignLookups(offset, message);
  }

  lemma ForeignLookups(offset: Json, message: Json)
    ensures var fs := Foreign(offset, message).fields;
      && Lookup(fs, OFFSET) == Some(offset) && Lookup(fs, MESSAGE) == Some(message) && Lookup(fs, CHECKSUM) == None
  {
    assert |OFFSET| == 6 && |MESSAGE| == 7 && |CHECKSUM| == 8;
    var (fs, rest) := (Foreign(offset, message).fields, Field(MESSAGE, message, NoFields));
    assert fs == Field(OFFSET, offset, rest);
    assert Lookup(NoFields, MESSAGE) == None && Lookup(NoFields, OFFSET) == None && Lookup(NoFields, CHECKSUM) == None;
    assert Lookup(rest, MESSAGE) == Some(message);
    assert Lookup(rest, OFFSET) == None;
    assert Lookup(rest, CHECKSUM) == None;
  }

  /** A well-formed line whose offset is not a number is read like any other, and makes start-up raise, whatever stands
      before and after it. */
  lemma NonNumericOffsetStops(env: Env, before: string, offset: Json, message: Json, after: string)
    requires Good(env) && Clean(before) && NumericValue(offset).None?
    ensures var es := FileEntries(env, before + (env.dumps(Foreign(offset, message)) + "\n") + after);
      Entry(offset, message) in es && Recovered(es).None?
  {
    hide Decode, NumericValue, FileEntries, Recovered, Foreign;
    var line := env.dumps(Foreign(offset, message));
    ForeignLineSafe(env, offset, message);
    CleanConcat(env, before, line + "\n");
    OneLineEntries(env, line, true);
    DecodeForeign(env, offset, message);
    CleanConcat(env, before + (line + "\n"), after);
    var (a, e, b) := (FileEntries(env, before), Entry(offset, message), FileEntries(env, after));
    assert (a + [e] + b)[|a|] == e;
    RecoveryAgreesWithReading(a + [e] + b);
  }

  lemma ForeignLineSafe(env: Env, offset: Json, message: Json)
    requires Good(env)
    ensures LineSafe(env.dumps(Foreign(offset, message)))
  {
    var j := Foreign(offset, message);
    assert j.Obj?;
  }
}
