/** Which lines of a partition's file are records, and which both of its readers skip. */
module Corruption {
  import opened Wrappers
  import opened Json
  import opened Library
  import opened LogText
  import opened PartitionLog

  function KeysOf(fs: Fields): set<Text> {
    match fs case NoFields => {} case Field(k, _, rest) => {k} + KeysOf(rest)
  }

  lemma {:induction false} LookupKeys(fs: Fields, key: Text)
    ensures Lookup(fs, key).Some? <==> key in KeysOf(fs)
  {
    match fs
    case NoFields =>
    case Field(_, _, rest) => LookupKeys(rest, key);
  }

  // ----- one line between others -----

  lemma LineBetween(env: Env, before: string, line: string, after: string)
    requires Clean(before) && forall i :: 0 <= i < |line| ==> !IsBreak(line[i])
    ensures FileEntries(env, before + (line + "\n") + after)
      == FileEntries(env, before) + DecodeSeq(env, line) + FileEntries(env, after)
    ensures FileEntries(env, before + after) == FileEntries(env, before) + FileEntries(env, after)
  {
    hide FileEntries, DecodeSeq;
    CleanConcat(env, before, line + "\n");
    CleanConcat(env, before + (line + "\n"), after);
    CleanConcat(env, before, after);
    OneLineEntries(env, line, true);
  }

  /** Both readers of the file do as they would without the line. */
  ghost predicate Skipped(env: Env, before: string, line: string, after: string) {
    var (text, rest) := (before + (line + "\n") + after, before + after);
    && FileEntries(env, text) == FileEntries(env, rest)
    && Reading(env, text) == Reading(env, rest)
    && Recovered(FileEntries(env, text)) == Recovered(FileEntries(env, rest))
  }

  lemma NoRecordSkipped(env: Env, before: string, line: string, after: string)
    requires Clean(before) && forall i :: 0 <= i < |line| ==> !IsBreak(line[i])
    requires Decode(env, line).None?
    ensures Skipped(env, before, line, after)
  {
    hide FileEntries, Decode, Recovered;
    LineBetween(env, before, line, after);
    assert FileEntries(env, before) + [] == FileEntries(env, before);
  }

  /** Exactly one more record in what is read. */
  ghost predicate Reads(env: Env, before: string, line: string, after: string, e: Entry) {
    FileEntries(env, before + (line + "\n") + after) == FileEntries(env, before) + [e] + FileEntries(env, after)
  }

  lemma ObjectDecodes(env: Env, fs: Fields)
    requires Good(env)
    ensures LineSafe(env.dumps(Obj(fs)))
    ensures Strip(env.dumps(Obj(fs))) == env.dumps(Obj(fs)) && env.loads(env.dumps(Obj(fs))) == Some(Obj(fs))
  {
    StripSafe(env.dumps(Obj(fs)));
  }

  /** An object with both fields and no checksum is a record. One that carries a checksum is a record if and only if
      that is a number, or a boolean standing for one, equal to the CRC32 of the two fields; otherwise the start-up
      scan and the reader skip the line, whatever other fields it has and whatever stands before and after it. */
  lemma ChecksumDecides(env: Env, before: string, fs: Fields, offset: Json, message: Json, after: string)
    requires Good(env) && Clean(before) && Lookup(fs, OFFSET) == Some(offset) && Lookup(fs, MESSAGE) == Some(message)
    ensures var (crc, checksum) := (env.checksum(offset, message), Lookup(fs, CHECKSUM));
      if checksum.None? || checksum.value == Num(crc) || (checksum.value == Bool(true) && crc == 1)
        || (checksum.value == Bool(false) && crc == 0)
      then Reads(env, before, env.dumps(Obj(fs)), after, Entry(offset, message))
      else Skipped(env, before, env.dumps(Obj(fs)), after)
  {
    hide FileEntries, Skipped, Recovered;
    var line := env.dumps(Obj(fs));
    ObjectDecodes(env, fs);
    LineBetween(env, before, line, after);
    if Decode(env, line).None? { NoRecordSkipped(env, before, line, after); }
  }

  /** The same of a line with the fields that `append` writes, in its order. */
  lemma RecordLine(env: Env, before: string, offset: Json, message: Json, crc: int, after: string)
    requires Good(env) && Clean(before)
    ensures var line := env.dumps(Obj(Field(OFFSET, offset, Field(MESSAGE, message,
        Field(CHECKSUM, Num(crc), NoFields)))));
      if crc == env.checksum(offset, message) then Reads(env, before, line, after, Entry(offset, message))
      else Skipped(env, before, line, after)
  {
    hide Reads, Skipped;
    CheckedLookups(offset, message, Num(crc));
    ChecksumDecides(env, before, Field(OFFSET, offset, Field(MESSAGE, message, Field(CHECKSUM, Num(crc), NoFields))),
      offset, message, after);
  }

  lemma CheckedLookups(offset: Json, message: Json, checksum: Json)
    ensures var fs := Field(OFFSET, offset, Field(MESSAGE, message,
        Field(CHECKSUM, checksum, NoFields)));
      Lookup(fs, OFFSET) == Some(offset) && Lookup(fs, MESSAGE) == Some(message)
        && Lookup(fs, CHECKSUM) == Some(checksum)
  {
    assert |OFFSET| == 6 && |MESSAGE| == 7 && |CHECKSUM| == 8;
    var last := Field(CHECKSUM, checksum, NoFields);
    var rest := Field(MESSAGE, message, last);
    assert Lookup(NoFields, OFFSET) == None && Lookup(NoFields, MESSAGE) == None && Lookup(NoFields, CHECKSUM) == None;
    assert Lookup(last, CHECKSUM) == Some(checksum) && Lookup(last, MESSAGE) == None && Lookup(last, OFFSET) == None;
    assert Lookup(rest, CHECKSUM) == Some(checksum) && Lookup(rest, MESSAGE) == Some(message);
    assert Lookup(rest, OFFSET) == None;
  }

  /** A stored record whose offset or message was changed on disk is skipped, unless the CRC32 happens to agree. */
  lemma AlteredRecordSkipped(
    env: Env, before: string, offset: nat, message: Json, offset': Json, message': Json, after: string)
    requires Good(env) && Clean(before)
    requires env.checksum(offset', message') != env.checksum(Num(offset), message)
    ensures var checksum := Lookup(Record(env, offset, message).fields, CHECKSUM);
      && checksum.Some?
      && Skipped(env, before, env.dumps(Obj(Field(OFFSET, offset', Field(MESSAGE, message',
        Field(CHECKSUM, checksum.value, NoFields))))), after)
  {
    hide Skipped, Reads;
    RecordLookups(env, offset, message);
    RecordLine(env, before, offset', message', env.checksum(Num(offset), message), after);
  }

  /** An object without an offset or without a message is skipped. */
  lemma IncompleteSkipped(env: Env, before: string, fs: Fields, after: string)
    requires Good(env) && Clean(before) && (OFFSET !in KeysOf(fs) || MESSAGE !in KeysOf(fs))
    ensures Skipped(env, before, env.dumps(Obj(fs)), after)
  {
    hide Skipped, Recovered;
    LookupKeys(fs, OFFSET);
    LookupKeys(fs, MESSAGE);
    ObjectDecodes(env, fs);
    NoRecordSkipped(env, before, env.dumps(Obj(fs)), after);
  }

  /** So is a line that does not parse, or parses as anything but an object. */
  lemma NoObjectSkipped(env: Env, before: string, line: string, after: string)
    requires Clean(before) && forall i :: 0 <= i < |line| ==> !IsBreak(line[i])
    requires env.loads(Strip(line)).Some? ==> !env.loads(Strip(line)).value.Obj?
    ensures Skipped(env, before, line, after)
  {
    hide Skipped, Recovered, Strip;
    NoRecordSkipped(env, before, line, after);
  }

  // ----- white space and line ends -----

  predicate IsPad(s: string) { forall i :: 0 <= i < |s| ==> s[i] == ' ' || s[i] == '\t' }

  lemma {:induction false} StripLeftPad(pad: string, s: string)
    requires IsPad(pad) && (s == "" || !IsSpace(s[0]))
    ensures StripLeft(pad + s) == s
  {
    if pad == "" {
      assert pad + s == s;
    } else {
      assert (pad + s)[1..] == pad[1..] + s;
      StripLeftPad(pad[1..], s);
    }
  }

  lemma {:induction false} StripRightPad(s: string, pad: string)
    requires IsPad(pad) && (s == "" || !IsSpace(s[|s| - 1]))
    ensures StripRight(s + pad) == s
  {
    if pad == "" {
      assert s + pad == s;
    } else {
      assert (s + pad)[..|s + pad| - 1] == s + pad[..|pad| - 1];
      StripRightPad(s, pad[..|pad| - 1]);
    }
  }

  /** Blanks and tabs around a line's text make no difference, and a line of nothing else holds no record. */
  lemma PaddingIgnored(env: Env, left: string, line: string, right: string)
    requires IsPad(left) && IsPad(right) && LineSafe(line)
    ensures Decode(env, left + line + right) == Decode(env, line)
    ensures Decode(env, left).None?
  {
    assert left + line + right == left + (line + right);
    StripLeftPad(left, line + right);
    StripRightPad(line, right);
    StripSafe(line);
    assert left + "" == left;
    StripLeftPad(left, "");
  }

  /** A line ends at a newline, a carriage return, or both; the parts are read on their own. */
  lemma BreaksSeparate(env: Env, a: string, b: string)
    ensures FileEntries(env, a + "\n" + b) == FileEntries(env, a) + FileEntries(env, b)
    ensures FileEntries(env, a + "\r" + b) == FileEntries(env, a) + FileEntries(env, b)
    ensures FileEntries(env, a + "\r\n" + b) == FileEntries(env, a) + FileEntries(env, b)
  {
    hide Decode, DecodeSeq;
    OneBreak(env, a, '\n', b);
    OneBreak(env, a, '\r', b);
    OneBreak(env, a, '\r', ['\n'] + b);
    OneBreak(env, "", '\n', b);
    assert a + ['\r'] + (['\n'] + b) == a + "\r\n" + b;
    BlankLine(env);
    assert "" + ['\n'] + b == ['\n'] + b;
    assert [] + FileEntries(env, b) == FileEntries(env, b);
  }

  lemma OneBreak(env: Env, a: string, c: char, b: string)
    requires IsBreak(c)
    ensures FileEntries(env, a + [c] + b) == FileEntries(env, a) + FileEntries(env, b)
  {
    SplitAtBreak("", a, c, b);
    EntriesConcat(env, Lines(a), Lines(b));
  }

  /** The scan counts a boolean offset as 0 or 1. */
  lemma BooleanOffsets(message: Json)
    ensures Recovered([Entry(Bool(false), message)]) == Some(1) && Recovered([Entry(Bool(true), message)]) == Some(2)
  {
    assert [Entry(Bool(false), message)][..0] == [] && [Entry(Bool(true), message)][..0] == [];
  }
}
