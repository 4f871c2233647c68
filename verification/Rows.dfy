/**
 The files that crashes and further appends leave behind: rows of pieces of records. A row of one whole piece is a
 record; any other is junk. Torn files keep that shape, wherever they are cut and whatever is appended.
 */
module Rows {
  import opened Wrappers
  import opened Library
  import opened LogText
  import opened Pieces
  import opened Crash
  import J = Json

  /** A beginning of record `at`, torn or whole. */
  datatype Bit = Bit(at: nat, length: nat)

  type Row = seq<Bit>

  /** Rows that end in a newline, and one that does not. */
  datatype Layout = Layout(rows: seq<Row>, tail: Row)

  predicate IsBit(env: Env, ws: seq<Written>, b: Bit) { b.at < |ws| && 0 < b.length <= |Text(env, ws[b.at])| }

  ghost predicate AreBits(env: Env, ws: seq<Written>, row: Row) {
    forall i :: 0 <= i < |row| ==> IsBit(env, ws, row[i])
  }

  ghost function RowText(env: Env, ws: seq<Written>, row: Row): string
    requires AreBits(env, ws, row)
  {
    if row == [] then "" else Text(env, ws[row[0].at])[..row[0].length] + RowText(env, ws, row[1..])
  }

  predicate IsWhole(env: Env, ws: seq<Written>, row: Row) {
    |row| == 1 && row[0].at < |ws| && row[0].length == |Text(env, ws[row[0].at])|
  }

  function Count(env: Env, ws: seq<Written>, row: Row): nat { if IsWhole(env, ws, row) then 1 else 0 }

  /** A row begins with the first record that the rows before it do not hold. */
  ghost predicate Starts(env: Env, ws: seq<Written>, row: Row, c: nat) {
    row != [] && AreBits(env, ws, row) && row[0].at == c
  }

  ghost predicate InTurn(env: Env, ws: seq<Written>, rows: seq<Row>, c: nat)
    decreases |rows|
  {
    rows == [] || (Starts(env, ws, rows[0], c) && InTurn(env, ws, rows[1..], c + Count(env, ws, rows[0])))
  }

  ghost function RowsText(env: Env, ws: seq<Written>, rows: seq<Row>, c: nat): string
    requires InTurn(env, ws, rows, c)
    decreases |rows|
  {
    if rows == [] then "" else
      (RowText(env, ws, rows[0]) + "\n") + RowsText(env, ws, rows[1..], c + Count(env, ws, rows[0]))
  }

  /** One past the last record that the rows hold, when they hold them from record c on. */
  function After(env: Env, ws: seq<Written>, rows: seq<Row>, c: nat): (n: nat)
    ensures n >= c
    decreases |rows|
  {
    if rows == [] then c else After(env, ws, rows[1..], c + Count(env, ws, rows[0]))
  }

  ghost predicate LaidOut(env: Env, ws: seq<Written>, l: Layout, c: nat) {
    InTurn(env, ws, l.rows, c) && (l.tail == [] || Starts(env, ws, l.tail, After(env, ws, l.rows, c)))
  }

  ghost function LayoutText(env: Env, ws: seq<Written>, l: Layout, c: nat): string
    requires LaidOut(env, ws, l, c)
  {
    RowsText(env, ws, l.rows, c) + RowText(env, ws, l.tail)
  }

  function Total(env: Env, ws: seq<Written>, l: Layout, c: nat): nat {
    After(env, ws, l.rows, c) + Count(env, ws, l.tail)
  }

  // ----- what a row reads as -----

  lemma {:induction false} RowUnbroken(env: Env, ws: seq<Written>, row: Row)
    requires Good(env) && AreBits(env, ws, row)
    ensures var s := RowText(env, ws, row); forall i :: 0 <= i < |s| ==> !IsBreak(s[i])
    ensures row != [] ==> RowText(env, ws, row) != "" && !IsSpace(RowText(env, ws, row)[0])
    decreases |row|
  {
    hide Text;
    if row != [] {
      assert IsBit(env, ws, row[0]);
      TextSafe(env, ws[row[0].at]);
      RowUnbroken(env, ws, row[1..]);
      var (p, q) := (Text(env, ws[row[0].at])[..row[0].length], RowText(env, ws, row[1..]));
      forall i | 0 <= i < |p + q|
        ensures !IsBreak((p + q)[i])
      {
        assert (p + q)[i] == if i < |p| then p[i] else q[i - |p|];
      }
    }
  }

  function PieceAt(env: Env, ws: seq<Written>, b: Bit): Piece
    requires b.at < |ws|
  {
    Piece(Record(env, ws[b.at].offset, ws[b.at].message), b.length)
  }

  ghost function PiecesOf(env: Env, ws: seq<Written>, row: Row): (ps: seq<Piece>)
    requires AreBits(env, ws, row)
    ensures |ps| == |row| && forall i :: 0 <= i < |row| ==> IsBit(env, ws, row[i]) && ps[i] == PieceAt(env, ws, row[i])
  {
    if row == [] then [] else
      assert IsBit(env, ws, row[0]);
      [PieceAt(env, ws, row[0])] + PiecesOf(env, ws, row[1..])
  }

  lemma PiecesAre(env: Env, ws: seq<Written>, row: Row)
    requires AreBits(env, ws, row)
    ensures var ps := PiecesOf(env, ws, row); ArePieces(env.dumps, ps) && forall i :: 0 <= i < |ps| ==>
      IsRecord(ps[i].source)
  {
    var ps := PiecesOf(env, ws, row);
    forall i | 0 <= i < |ps| ensures IsPiece(env.dumps, ps[i]) && IsRecord(ps[i].source) {
      assert ps[i] == PieceAt(env, ws, row[i]);
    }
  }

  lemma {:induction false} RowIsGlued(env: Env, ws: seq<Written>, row: Row)
    requires AreBits(env, ws, row)
    ensures ArePieces(env.dumps, PiecesOf(env, ws, row))
    ensures Glued(env.dumps, PiecesOf(env, ws, row)) == RowText(env, ws, row)
    decreases |row|
  {
    PiecesAre(env, ws, row);
    hide Record;
    if row != [] {
      assert IsBit(env, ws, row[0]);
      assert PiecesOf(env, ws, row)[1..] == PiecesOf(env, ws, row[1..]);
      RowIsGlued(env, ws, row[1..]);
    }
  }

  /** Several pieces on a row are no JSON. */
  lemma RowFails(env: Env, ws: seq<Written>, row: Row)
    requires Good(env) && AreBits(env, ws, row) && |row| > 1
    ensures env.loads(RowText(env, ws, row)) == None
  {
    hide Record, Glued;
    RowIsGlued(env, ws, row);
    PiecesAre(env, ws, row);
    assert GluesRecords(env, PiecesOf(env, ws, row));
  }

  lemma {:induction false} RowSnoc(env: Env, ws: seq<Written>, row: Row, b: Bit)
    requires AreBits(env, ws, row) && IsBit(env, ws, b)
    ensures AreBits(env, ws, row + [b])
    ensures RowText(env, ws, row + [b]) == RowText(env, ws, row) + Text(env, ws[b.at])[..b.length]
    decreases |row|
  {
    hide Text;
    if row == [] {
      assert row + [b] == [b] && [b][1..] == [];
    } else {
      assert (row + [b])[1..] == row[1..] + [b];
      RowSnoc(env, ws, row[1..], b);
    }
  }

  lemma {:induction false} StripRightKeeps(s: string, i: nat)
    requires i < |s| && !IsSpace(s[i])
    ensures exists k :: i < k <= |s| && StripRight(s) == s[..k]
    decreases |s|
  {
    if IsSpace(s[|s| - 1]) {
      StripRightKeeps(s[..|s| - 1], i);
      var k :| i < k <= |s| - 1 && StripRight(s) == s[..|s| - 1][..k];
      assert s[..|s| - 1][..k] == s[..k];
    } else {
      assert s == s[..|s|];
    }
  }

  lemma StripUnspaced(s: string)
    requires s != "" && !IsSpace(s[0])
    ensures Strip(s) == StripRight(s)
  {
  }

  lemma FirstUnspaced(env: Env, w: Written)
    requires Good(env)
    ensures Text(env, w) != "" && !IsSpace(Text(env, w)[0])
  {
    TextSafe(env, w);
  }

  /** Stripping a row can take spaces off its last piece, and no more. */
  lemma StrippedRow(env: Env, ws: seq<Written>, front: Row, b: Bit) returns (b': Bit)
    requires Good(env) && AreBits(env, ws, front + [b]) && front != [] && AreBits(env, ws, front) && IsBit(env, ws, b)
    ensures IsBit(env, ws, b') && AreBits(env, ws, front + [b'])
    ensures Strip(RowText(env, ws, front + [b])) == RowText(env, ws, front + [b'])
  {
    hide IsSpace, RowText, Text, LineSafe, Strip, StripRight, AreBits;
    var (s, p, t) := (RowText(env, ws, front + [b]), RowText(env, ws, front), Text(env, ws[b.at]));
    RowSnoc(env, ws, front, b);
    RowUnbroken(env, ws, front + [b]);
    FirstUnspaced(env, ws[b.at]);
    StripUnspaced(s);
    assert s[|p|] == t[0];
    StripRightKeeps(s, |p|);
    var k :| |p| < k <= |s| && StripRight(s) == s[..k];
    b' := Bit(b.at, k - |p|);
    RowSnoc(env, ws, front, b');
    assert s[..k] == p + t[..k - |p|];
  }

  lemma JunkRow(env: Env, ws: seq<Written>, row: Row)
    requires Good(env) && AreBits(env, ws, row) && |row| > 1
    ensures Decode(env, RowText(env, ws, row)) == None
  {
    var (front, b) := (row[..|row| - 1], row[|row| - 1]);
    assert row == front + [b];
    assert AreBits(env, ws, front) && IsBit(env, ws, b);
    hide RowText, Text, Strip, AreBits, Good;
    var b' := StrippedRow(env, ws, front, b);
    RowFails(env, ws, front + [b']);
  }

  /** What a row adds to what is read. */
  lemma RowReads(env: Env, ws: seq<Written>, row: Row, c: nat, terminated: bool)
    requires Good(env) && Starts(env, ws, row, c)
    ensures c < |ws|
    ensures FileEntries(env, RowText(env, ws, row) + if terminated then "\n" else "")
      == if IsWhole(env, ws, row) then [Entry(J.Num(ws[c].offset), ws[c].message)] else []
  {
    hide FileEntries, Text, Decode;
    var (s, b) := (RowText(env, ws, row), row[0]);
    assert IsBit(env, ws, b);
    RowUnbroken(env, ws, row);
    OneLineEntries(env, s, terminated);
    OneLineEntries(env, s, false);
    assert s + "" == s;
    if |row| == 1 {
      assert row[1..] == [];
      assert s == Text(env, ws[b.at])[..b.length] + "" == Text(env, ws[b.at])[..b.length];
      TornText(env, ws[b.at], b.length);
    } else {
      JunkRow(env, ws, row);
    }
  }

  // ----- what a layout reads as -----

  lemma {:induction false} RowsClean(env: Env, ws: seq<Written>, rows: seq<Row>, c: nat)
    requires InTurn(env, ws, rows, c)
    ensures Clean(RowsText(env, ws, rows, c)) && (rows != [] ==> RowsText(env, ws, rows, c) != "")
    decreases |rows|
  {
    hide RowText, AreBits, IsWhole, IsBit, Text, Clean;
    if rows != [] {
      RowsClean(env, ws, rows[1..], c + Count(env, ws, rows[0]));
      LineThenClean(RowText(env, ws, rows[0]), RowsText(env, ws, rows[1..], c + Count(env, ws, rows[0])));
    } else {
      NothingClean();
    }
  }

  lemma NothingClean()
    ensures Clean("")
  {
  }

  lemma LineThenClean(line: string, rest: string)
    requires Clean(rest)
    ensures Clean((line + "\n") + rest) && (line + "\n") + rest != ""
  {
    var s := (line + "\n") + rest;
    assert rest == "" ==> s == line + "\n";
    assert rest != "" ==> s[|s| - 1] == rest[|rest| - 1];
  }

  lemma {:induction false} RowsRead(env: Env, ws: seq<Written>, rows: seq<Row>, c: nat)
    requires Good(env) && InTurn(env, ws, rows, c) && c <= |ws|
    ensures After(env, ws, rows, c) <= |ws|
    ensures FileEntries(env, RowsText(env, ws, rows, c)) == EntriesOf(ws[c..After(env, ws, rows, c)])
    decreases |rows|
  {
    hide FileEntries, Text, RowText;
    if rows == [] {
      EmptyFile(env);
    } else {
      var (row, c') := (rows[0], c + Count(env, ws, rows[0]));
      var line := RowText(env, ws, row) + "\n";
      RowReads(env, ws, row, c, true);
      RowsRead(env, ws, rows[1..], c');
      CleanConcat(env, line, RowsText(env, ws, rows[1..], c'));
      var n := After(env, ws, rows, c);
      if IsWhole(env, ws, row) { assert ws[c..n][1..] == ws[c + 1..n]; }
    }
  }

  lemma LayoutReads(env: Env, ws: seq<Written>, l: Layout, c: nat)
    requires Good(env) && LaidOut(env, ws, l, c) && c <= |ws|
    ensures Total(env, ws, l, c) <= |ws|
    ensures FileEntries(env, LayoutText(env, ws, l, c)) == EntriesOf(ws[c..Total(env, ws, l, c)])
  {
    hide FileEntries, Text, RowText, RowsText, EntriesOf, InTurn;
    RowsRead(env, ws, l.rows, c);
    RowsClean(env, ws, l.rows, c);
    var n := After(env, ws, l.rows, c);
    CleanConcat(env, RowsText(env, ws, l.rows, c), RowText(env, ws, l.tail));
    if l.tail == [] {
      NoTail(env, ws);
    } else {
      RowReads(env, ws, l.tail, n, false);
      assert RowText(env, ws, l.tail) + "" == RowText(env, ws, l.tail);
      OneEntryMore(ws, c, n);
    }
  }

  lemma OneEntryMore(ws: seq<Written>, c: nat, n: nat)
    requires c <= n < |ws|
    ensures EntriesOf(ws[c..n + 1]) == EntriesOf(ws[c..n]) + [Entry(J.Num(ws[n].offset), ws[n].message)]
  {
    assert ws[c..n + 1] == ws[c..n] + [ws[n]];
    EntriesOfConcat(ws[c..n], [ws[n]]);
    assert [ws[n]][1..] == [];
  }

  lemma NoTail(env: Env, ws: seq<Written>)
    ensures RowText(env, ws, []) == "" && FileEntries(env, "") == []
  {
    EmptyFile(env);
  }

  // ----- cutting -----

  lemma {:induction false} CutRow(env: Env, ws: seq<Written>, row: Row, k: nat) returns (row': Row)
    requires AreBits(env, ws, row) && k <= |RowText(env, ws, row)|
    ensures AreBits(env, ws, row') && RowText(env, ws, row') == RowText(env, ws, row)[..k]
    ensures row' != [] ==> row != [] && row'[0].at == row[0].at
    decreases |row|
  {
    hide Text;
    if k == 0 || row == [] {
      row' := [];
    } else {
      var b := row[0];
      var t := Text(env, ws[b.at])[..b.length];
      if k <= b.length {
        row' := [Bit(b.at, k)];
        assert row'[1..] == [] && t[..k] + "" == t[..k] == Text(env, ws[b.at])[..k];
      } else {
        var more := CutRow(env, ws, row[1..], k - b.length);
        row' := [b] + more;
        assert row'[1..] == more;
      }
    }
  }

  /** A cut at any byte leaves such a layout. */
  lemma {:induction false} Cut(env: Env, ws: seq<Written>, l: Layout, c: nat, k: nat) returns (l': Layout)
    requires LaidOut(env, ws, l, c) && k <= |LayoutText(env, ws, l, c)|
    ensures LaidOut(env, ws, l', c) && LayoutText(env, ws, l', c) == LayoutText(env, ws, l, c)[..k]
    decreases |l.rows|
  {
    hide RowText, IsWhole;
    if l.rows == [] {
      var tail := CutRow(env, ws, l.tail, k);
      l' := Layout([], tail);
      TailOnly(env, ws, l.tail, c);
      TailOnly(env, ws, tail, c);
    } else {
      var (row, rest, c') := (l.rows[0], Layout(l.rows[1..], l.tail), c + Count(env, ws, l.rows[0]));
      var line := RowText(env, ws, row) + "\n";
      assert LayoutText(env, ws, l, c) == line + LayoutText(env, ws, rest, c');
      if k < |line| {
        var tail := CutRow(env, ws, row, k);
        l' := Layout([], tail);
        TailOnly(env, ws, tail, c);
      } else {
        var rest' := Cut(env, ws, rest, c', k - |line|);
        l' := Layout([row] + rest'.rows, rest'.tail);
        RowFirst(env, ws, row, rest', c);
      }
    }
  }

  lemma TailOnly(env: Env, ws: seq<Written>, tail: Row, c: nat)
    requires tail == [] || Starts(env, ws, tail, c)
    ensures LaidOut(env, ws, Layout([], tail), c) && LayoutText(env, ws, Layout([], tail), c) == RowText(env, ws, tail)
    ensures Total(env, ws, Layout([], tail), c) == c + Count(env, ws, tail)
  {
    hide RowText;
  }

  lemma RowFirst(env: Env, ws: seq<Written>, row: Row, l: Layout, c: nat)
    requires Starts(env, ws, row, c) && LaidOut(env, ws, l, c + Count(env, ws, row))
    ensures var l' := Layout([row] + l.rows, l.tail);
      && LaidOut(env, ws, l', c)
      && LayoutText(env, ws, l', c) == (RowText(env, ws, row) + "\n") + LayoutText(env, ws, l, c + Count(env, ws, row))
  {
    hide RowText, AreBits, IsWhole;
    assert ([row] + l.rows)[1..] == l.rows;
  }

  // ----- appending -----

  lemma {:induction false} RowLast(env: Env, ws: seq<Written>, rows: seq<Row>, row: Row, c: nat)
    requires InTurn(env, ws, rows, c) && Starts(env, ws, row, After(env, ws, rows, c))
    ensures InTurn(env, ws, rows + [row], c)
    ensures RowsText(env, ws, rows + [row], c) == RowsText(env, ws, rows, c) + (RowText(env, ws, row) + "\n")
    ensures After(env, ws, rows + [row], c) == After(env, ws, rows, c) + Count(env, ws, row)
    decreases |rows|
  {
    hide RowText, AreBits, IsWhole;
    if rows == [] {
      assert rows + [row] == [row] && [row][1..] == [];
    } else {
      assert (rows + [row])[1..] == rows[1..] + [row];
      RowLast(env, ws, rows[1..], row, c + Count(env, ws, rows[0]));
    }
  }

  function WholeBit(env: Env, ws: seq<Written>, i: nat): Bit
    requires i < |ws|
  {
    Bit(i, |Text(env, ws[i])|)
  }

  /** An append goes onto the tail, and ends it. Only onto no tail at all is it a record. */
  lemma Append(env: Env, ws: seq<Written>, l: Layout, c: nat, i: nat) returns (l': Layout)
    requires Good(env) && LaidOut(env, ws, l, c) && i < |ws| && (l.tail == [] ==> i == After(env, ws, l.rows, c))
    ensures LaidOut(env, ws, l', c)
      && LayoutText(env, ws, l', c) == LayoutText(env, ws, l, c) + (Text(env, ws[i]) + "\n")
    ensures Total(env, ws, l', c) == After(env, ws, l.rows, c) + if l.tail == [] then 1 else 0
  {
    hide RowsText, RowText, InTurn;
    TextSafe(env, ws[i]);
    var b := WholeBit(env, ws, i);
    var row := l.tail + [b];
    RowSnoc(env, ws, l.tail, b);
    assert Text(env, ws[i])[..b.length] == Text(env, ws[i]);
    assert Starts(env, ws, row, After(env, ws, l.rows, c));
    RowLast(env, ws, l.rows, row, c);
    l' := Layout(l.rows + [row], []);
    NoTail(env, ws);
    if l.tail == [] { assert row == [b]; }
  }

  // ----- the end of the file -----

  /** The longest beginning of the text that ends cleanly. */
  function Terminated(text: string): string
    decreases |text|
  {
    if Clean(text) then text else Terminated(text[..|text| - 1])
  }

  lemma {:induction false} TerminatedOf(a: string, b: string)
    requires Clean(a) && forall i :: 0 <= i < |b| ==> !IsBreak(b[i])
    ensures Terminated(a + b) == a && (Clean(a + b) <==> b == "")
    decreases |b|
  {
    if b == "" {
      assert a + b == a;
    } else {
      assert (a + b)[|a + b| - 1] == b[|b| - 1];
      assert (a + b)[..|a + b| - 1] == a + b[..|b| - 1];
      TerminatedOf(a, b[..|b| - 1]);
    }
  }

  lemma LayoutEnds(env: Env, ws: seq<Written>, l: Layout, c: nat)
    requires Good(env) && LaidOut(env, ws, l, c)
    ensures Clean(LayoutText(env, ws, l, c)) <==> l.tail == []
    ensures Terminated(LayoutText(env, ws, l, c)) == RowsText(env, ws, l.rows, c)
  {
    hide RowsText, InTurn, Clean, Terminated;
    RowsClean(env, ws, l.rows, c);
    RowUnbroken(env, ws, l.tail);
    TerminatedOf(RowsText(env, ws, l.rows, c), RowText(env, ws, l.tail));
  }
}
