/** partition.py: an append-only file and an in-memory next offset. */
module PartitionLog {
  import opened Wrappers
  import opened Json
  import opened Library
  import opened LogText
  import opened LogSpec
  import opened Keys
  import opened Compression

  // ----- what one append does to a file and its next offset -----

  datatype Image = Image(text: string, next: nat)

  function StoredOffset(img: Image, offset: Option<int>): nat {
    if offset.Some? && offset.value >= img.next then offset.value else img.next
  }

  predicate IsDuplicate(img: Image, offset: Option<int>) { offset.Some? && offset.value < img.next }

  /** What the caller is told. */
  function ReturnedOffset(img: Image, offset: Option<int>): int {
    if IsDuplicate(img, offset) then offset.value else StoredOffset(img, offset)
  }

  lemma ReturnedIs(img: Image, offset: Option<int>)
    ensures ReturnedOffset(img, offset) == if offset.Some? then offset.value else img.next
  {
  }

  function Appended(env: Env, img: Image, message: Json, offset: Option<int>, c: Setting): Image {
    if IsDuplicate(img, offset) then img else
      var o := StoredOffset(img, offset);
      Image(img.text + (env.dumps(Record(env, o, Compress(env, message, c))) + "\n"), o + 1)
  }

  /** The file ends cleanly and the next offset is what a restart would recover. */
  ghost predicate Recoverable(env: Env, img: Image) {
    Clean(img.text) && Recovered(FileEntries(env, img.text)) == Some(img.next)
  }

  /** What reading returns for a payload stored under setting c. */
  function Visible(env: Env, payload: Json, c: Setting): Json { Decompress(env, Compress(env, payload, c)) }

  function ReadEntry(env: Env, e: Entry): Entry { e.(message := Decompress(env, e.message)) }

  /** The result of `read_all`. */
  function Reading(env: Env, text: string): seq<Entry> {
    var es := FileEntries(env, text);
    seq(|es|, i requires 0 <= i < |es| => ReadEntry(env, es[i]))
  }

  lemma ReadingExtends(env: Env, text: string, text': string, e: Entry)
    requires FileEntries(env, text') == FileEntries(env, text) + [e]
    ensures Reading(env, text') == Reading(env, text) + [ReadEntry(env, e)]
  {
  }

  lemma RecoveredExtends(es: seq<Entry>, o: nat, m: Json, next: nat)
    requires Recovered(es) == Some(next) && next <= o
    ensures Recovered(es + [Entry(Num(o), m)]) == Some(o + 1)
  {
    assert (es + [Entry(Num(o), m)])[..|es|] == es;
  }

  /** After any start-up scan of a cleanly ending file, corrupt lines included, an append that is not a duplicate
      adds one record to what is read, at an offset above all the others, and a restart recovers the same state. */
  lemma AppendExtendsReading(env: Env, img: Image, message: Json, offset: Option<int>, c: Setting)
    requires Good(env) && Recoverable(env, img)
    ensures
      var img' := Appended(env, img, message, offset, c);
      && Recoverable(env, img')
      && (if IsDuplicate(img, offset) then img' == img else
            && Reading(env, img'.text) ==
                 Reading(env, img.text) + [Entry(Num(StoredOffset(img, offset)), Visible(env, message, c))]
            && forall i :: 0 <= i < |Reading(env, img.text)| ==>
                 NumericValue(Reading(env, img.text)[i].offset).Some?
                 && NumericValue(Reading(env, img.text)[i].offset).value < StoredOffset(img, offset))
  {
    hide FileEntries, Record, Compress, Decompress, Recovered;
    if !IsDuplicate(img, offset) {
      var (o, m, es) := (StoredOffset(img, offset), Compress(env, message, c), FileEntries(env, img.text));
      AppendRecord(env, img.text, o, m);
      ReadingExtends(env, img.text, Appended(env, img, message, offset, c).text, Entry(Num(o), m));
      RecoveredExtends(es, o, m, img.next);
      RecoveryAgreesWithReading(es);
    }
  }

  // ----- the log a well-formed file stands for -----

  ghost predicate Natural(es: seq<Entry>) {
    forall i :: 0 <= i < |es| ==> es[i].offset.Num? && es[i].offset.n >= 0
  }

  /** Natural offsets in increasing order, as appends write them. */
  ghost predicate Regular(es: seq<Entry>) {
    && Natural(es)
    && (forall i, j :: 0 <= i < j < |es| ==> es[i].offset.n < es[j].offset.n)
  }

  ghost predicate Synced(env: Env, img: Image) { Recoverable(env, img) && Regular(FileEntries(env, img.text)) }

  ghost function LogOf(env: Env, text: string): Log<Json>
    requires Natural(FileEntries(env, text))
  {
    var es := FileEntries(env, text);
    seq(|es|, i requires 0 <= i < |es| => Rec(es[i].offset.n, Decompress(env, es[i].message)))
  }

  lemma SyncedNext(env: Env, img: Image)
    requires Synced(env, img)
    ensures img.next == Next(LogOf(env, img.text)) && Increasing(LogOf(env, img.text))
  {
    var es := FileEntries(env, img.text);
    RecoveryAgreesWithReading(es);
    assert Above(Next(LogOf(env, img.text)), es);
  }

  /** An append is `Put` on the log, and keeps file and next offset in step. */
  lemma AppendRefinesPut(env: Env, img: Image, message: Json, offset: Option<int>, c: Setting)
    requires Good(env) && Synced(env, img)
    ensures
      var img' := Appended(env, img, message, offset, c);
      && Synced(env, img')
      && LogOf(env, img'.text) == Put(LogOf(env, img.text), offset, Visible(env, message, c))
      && img'.next == Next(LogOf(env, img'.text))
  {
    hide FileEntries, Recovered, Record, Compress, Decompress;
    var img' := Appended(env, img, message, offset, c);
    AppendExtendsReading(env, img, message, offset, c);
    SyncedNext(env, img);
    if !IsDuplicate(img, offset) {
      var o := StoredOffset(img, offset);
      var (es, m) := (FileEntries(env, img.text), Compress(env, message, c));
      AppendRecord(env, img.text, o, m);
      RegularExtends(es, o, m, img.next);
      LogExtends(env, img.text, img'.text, o, m);
    }
    SyncedNext(env, img');
  }

  lemma RegularExtends(es: seq<Entry>, o: nat, m: Json, next: nat)
    requires Regular(es) && Recovered(es) == Some(next) && next <= o
    ensures Regular(es + [Entry(Num(o), m)])
  {
    RecoveryAgreesWithReading(es);
  }

  lemma LogExtends(env: Env, text: string, text': string, o: nat, m: Json)
    requires Regular(FileEntries(env, text)) && Regular(FileEntries(env, text'))
    requires FileEntries(env, text') == FileEntries(env, text) + [Entry(Num(o), m)]
    ensures LogOf(env, text') == LogOf(env, text) + [Rec(o, Decompress(env, m))]
  {
  }

  lemma VisiblePlain(env: Env, payload: Json, c: Setting)
    requires RoundTrips(env) && Plain(env, payload)
    ensures Visible(env, payload, c) == payload
  {
    hide Compress, Decompress, Carried;
    CompressionInvisible(env, payload, c);
  }

  // ----- a follower's file under a stream of leader records -----

  /** One explicit-offset append per record, under the follower's own codec and threshold. */
  function AppendAll(env: Env, img: Image, stream: seq<Rec<Json>>, c: Setting): Image
    decreases |stream|
  {
    if stream == [] then img
    else AppendAll(env, Appended(env, img, stream[0].payload, Some(stream[0].offset), c), stream[1..], c)
  }

  lemma {:induction false} AppendAllRefines(env: Env, img: Image, stream: seq<Rec<Json>>, c: Setting)
    requires Good(env) && Synced(env, img) && forall i :: 0 <= i < |stream| ==> Plain(env, stream[i].payload)
    ensures Synced(env, AppendAll(env, img, stream, c))
    ensures LogOf(env, AppendAll(env, img, stream, c).text) == PutAll(LogOf(env, img.text), stream)
    decreases |stream|
  {
    hide Synced, LogOf, Appended, Put, Plain, Visible;
    if stream != [] {
      var r := stream[0];
      AppendRefinesPut(env, img, r.payload, Some(r.offset), c);
      VisiblePlain(env, r.payload, c);
      forall i | 0 <= i < |stream| - 1
        ensures Plain(env, stream[1..][i].payload)
      {
        assert stream[1..][i] == stream[i + 1];
      }
      AppendAllRefines(env, Appended(env, img, r.payload, Some(r.offset), c), stream[1..], c);
    }
  }

  lemma {:induction false} AppendAllConcat(env: Env, img: Image, a: seq<Rec<Json>>, b: seq<Rec<Json>>, c: Setting)
    ensures AppendAll(env, img, a + b, c) == AppendAll(env, AppendAll(env, img, a, c), b, c)
    decreases |a|
  {
    hide Appended;
    if a == [] {
      assert a + b == b;
    } else {
      assert (a + b)[1..] == a[1..] + b;
      AppendAllConcat(env, Appended(env, img, a[0].payload, Some(a[0].offset), c), a[1..], b, c);
    }
  }

  /** Replays are harmless across a restart too: a follower that applies part of a stream, restarts from its file, and
      applies the rest, ends with the same file and next offset as without the restart; and if the stream never jumps
      ahead, with the leader's records up to the highest, whatever it repeats and whatever its codec. */
  lemma ReplayAcrossRestart(
    env: Env, img: Image, a: seq<Rec<Json>>, b: seq<Rec<Json>>, c: Setting, next: nat, leader: Log<Json>)
    requires Good(env) && Synced(env, img) && forall i :: 0 <= i < |a + b| ==> Plain(env, (a + b)[i].payload)
    requires Recovered(FileEntries(env, AppendAll(env, img, a, c).text)) == Some(next)
    requires Dense(leader) && LogOf(env, img.text) <= leader && DrawnFrom(a + b, leader)
      && NoJump(|LogOf(env, img.text)|, a + b)
    ensures var end := AppendAll(env, Image(AppendAll(env, img, a, c).text, next), b, c);
      && end == AppendAll(env, img, a + b, c) && Synced(env, end)
      && Highest(|LogOf(env, img.text)|, a + b) <= |leader|
      && LogOf(env, end.text) == leader[..Highest(|LogOf(env, img.text)|, a + b)]
  {
    hide LogOf, FileEntries, Recovered, Plain, AppendAll, PutAll, DrawnFrom, NoJump, Highest, Natural;
    forall i | 0 <= i < |a| ensures Plain(env, a[i].payload) { assert (a + b)[i] == a[i]; }
    AppendAllRefines(env, img, a, c);
    AppendAllConcat(env, img, a, b, c);
    AppendAllRefines(env, img, a + b, c);
    ReplayIdempotent(LogOf(env, img.text), a + b, leader);
  }

  // ----- the partition object -----

  /** The log directory: file contents by name. */
  class Disk {
    var files: map<string, string>
    constructor ()
      ensures files == map[]
    {
      files := map[];
    }
  }

  class Partition {
    const env: Env
    const tp: TopicPartition
    const disk: Disk
    var nextOffset: nat

    ghost predicate Exists()
      reads disk
    {
      FileName(tp) in disk.files
    }

    ghost function View(): Image
      requires Exists()
      reads this, disk
    {
      Image(disk.files[FileName(tp)], nextOffset)
    }

    /** Creates the file if it does not exist; never overwrites one. */
    constructor (env: Env, tp: TopicPartition, disk: Disk)
      modifies disk
      ensures this.env == env && this.tp == tp && this.disk == disk && nextOffset == 0
      ensures disk.files == if FileName(tp) in old(disk.files) then old(disk.files)
        else old(disk.files)[FileName(tp) := ""]
    {
      this.env, this.tp, this.disk, nextOffset := env, tp, disk, 0;
      new;
      if FileName(tp) !in disk.files {
        disk.files := disk.files[FileName(tp) := ""];
      }
    }

    /** The start-up scan; ok is false when it raises TypeError. */
    method Scan() returns (ok: bool)
      requires Exists() && nextOffset == 0
      modifies this`nextOffset
      ensures ok <==> Recovered(FileEntries(env, View().text)).Some?
      ensures ok ==> Recovered(FileEntries(env, View().text)) == Some(nextOffset)
    {
      hide Decode, Lines, FileName, Entries, Recovered;
      var lines := Lines(disk.files[FileName(tp)]);
      ScanStart(env, lines);
      for i := 0 to |lines|
        invariant Recovered(Entries(env, lines[..i])) == Some(nextOffset)
      {
        ScanLine(env, lines, i);
        var entry := Decode(env, lines[i]);
        if entry.Some? {
          var o := NumericValue(entry.value.offset);
          if o.None? {
            ScanStops(env, lines, i);
            return false;
          }
          nextOffset := if nextOffset >= o.value + 1 then nextOffset else o.value + 1;
        }
      }
      assert lines[..|lines|] == lines;
      return true;
    }

    method Append(message: Json, offset: Option<int>, c: Setting) returns (o: int)
      requires Exists()
      modifies this`nextOffset, disk
      ensures Exists() && View() == Appended(env, old(View()), message, offset, c)
      ensures disk.files == old(disk.files)[FileName(tp) := View().text]
      ensures o == ReturnedOffset(old(View()), offset)
      ensures o == if offset.Some? then offset.value else old(nextOffset)
      ensures nextOffset == if o >= old(nextOffset) then o + 1 else old(nextOffset)
    {
      if offset.Some? {
        if offset.value < nextOffset {
          assert disk.files == disk.files[FileName(tp) := View().text];
          return offset.value;
        }
        nextOffset := offset.value;
      }
      var chosen := nextOffset;
      var stored := Compress(env, message, c);
      var line := env.dumps(Record(env, chosen, stored)) + "\n";
      disk.files := disk.files[FileName(tp) := disk.files[FileName(tp)] + line];
      nextOffset := nextOffset + 1;
      return chosen;
    }

    method ReadAll() returns (messages: seq<Entry>)
      requires Exists()
      ensures messages == Reading(env, View().text)
    {
      hide Decode, Lines, Recovered, Decompress, Key;
      var lines := Lines(disk.files[FileName(tp)]);
      messages := [];
      for i := 0 to |lines|
        invariant |messages| == |Entries(env, lines[..i])|
        invariant forall j :: 0 <= j < |messages| ==> messages[j] == ReadEntry(env, Entries(env, lines[..i])[j])
      {
        assert lines[..i + 1][..i] == lines[..i];
        var entry := Decode(env, lines[i]);
        if entry.Some? {
          messages := messages + [ReadEntry(env, entry.value)];
        }
      }
      assert lines[..|lines|] == lines;
    }
  }

  lemma ScanStart(env: Env, lines: seq<string>)
    ensures Recovered(Entries(env, lines[..0])) == Some(0)
  {
  }

  /** What one more line does to the recovered offset. */
  lemma ScanLine(env: Env, lines: seq<string>, i: nat)
    requires i < |lines|
    ensures
      var (before, after) := (Recovered(Entries(env, lines[..i])), Recovered(Entries(env, lines[..i + 1])));
      match Decode(env, lines[i])
      case None => after == before
      case Some(e) =>
        match (before, NumericValue(e.offset))
        case (Some(n), Some(o)) => after == Some(if n >= o + 1 then n else o + 1)
        case _ => after == None
  {
    hide Decode;
    var before := Entries(env, lines[..i]);
    assert lines[..i + 1][..i] == lines[..i];
    match Decode(env, lines[i])
    case None => assert before + [] == before;
    case Some(e) => assert (before + [e])[..|before|] == before;
  }

  /** One non-numeric offset stops the scan for good. */
  lemma ScanStops(env: Env, lines: seq<string>, i: nat)
    requires i < |lines| && Decode(env, lines[i]).Some? && NumericValue(Decode(env, lines[i]).value.offset).None?
    ensures Recovered(Entries(env, lines)).None?
  {
    var (a, e, b) := (Entries(env, lines[..i]), Decode(env, lines[i]).value, lines[i + 1..]);
    assert lines == lines[..i] + ([lines[i]] + b);
    EntriesConcat(env, lines[..i], [lines[i]] + b);
    EntriesConcat(env, [lines[i]], b);
    EntriesOne(env, lines[i]);
    assert Entries(env, lines)[|a|] == e;
    RecoveryAgreesWithReading(Entries(env, lines));
  }

  /** The whole of `__post_init__`: null when it raises. */
  method OpenPartition(env: Env, tp: TopicPartition, disk: Disk) returns (p: Partition?)
    modifies disk
    ensures disk.files == if FileName(tp) in old(disk.files) then old(disk.files)
      else old(disk.files)[FileName(tp) := ""]
    ensures p == null <==> Recovered(FileEntries(env, disk.files[FileName(tp)])).None?
    ensures p != null ==> fresh(p) && p.env == env && p.tp == tp && p.disk == disk && p.Exists()
    ensures p != null ==> Recovered(FileEntries(env, p.View().text)) == Some(p.nextOffset)
  {
    p := new Partition(env, tp, disk);
    var ok := p.Scan();
    if !ok { p := null; }
  }
}
