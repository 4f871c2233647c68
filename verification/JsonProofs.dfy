/**
 The facts about JSON text that log framing and crash recovery rest on: printing and parsing round-trip, a printed
 object is one line of printable characters, and no text parses that is an object torn off inside, or several
 beginnings of objects one after the other. Every printer puts its text in front of the text that follows, and every
 parser returns what follows, so each fact is proved by induction over a value with an arbitrary continuation.
 */
module JsonProofs {
  import opened Wrappers
  import opened Decimal
  import opened Json
  import opened Pieces

  // ----- reading back what was printed -----

  lemma {:induction false} DigitCountOf(d: string, t: string)
    requires AllDigits(d) && (t == "" || !IsDigit(t[0]))
    ensures DigitCount(d + t) == |d|
  {
    if d == "" {
      assert d + t == t;
    } else {
      assert (d + t)[1..] == d[1..] + t;
      DigitCountOf(d[1..], t);
    }
  }

  lemma ReadNat(n: nat, t: string)
    requires t == "" || !IsDigit(t[0])
    ensures ParseNat(Digits(n) + t) == Some((n, t))
  {
    var d := Digits(n);
    DigitsCanonical(n);
    DigitCountOf(d, t);
    assert (d + t)[..|d|] == d && (d + t)[|d|..] == t;
  }

  lemma ReadHex(a: nat, b: nat, c: nat, d: nat, t: string)
    requires a < 16 && b < 16 && c < 16 && d < 16
    ensures
      ParseHex([HexDigit(a), HexDigit(b), HexDigit(c), HexDigit(d)] + t)
      == Some((0x1000 * a + 0x100 * b + 0x10 * c + d, t))
  {
    assert ([HexDigit(a), HexDigit(b), HexDigit(c), HexDigit(d)] + t)[4..] == t;
  }

  predicate Plain(u: CodeUnit) { EscapeLetter(u).None? && 32 <= u <= 126 }

  lemma ReadShortEscape(u: CodeUnit, e: char, t: string)
    requires EscapeLetter(u) == Some(e)
    ensures PrintUnit(u, t)[0] == '\\' && ParseEscape(PrintUnit(u, t)[1..]) == Some((u, t))
  {
    assert EscapedUnit(e) == Some(u);
    assert ([e] + t)[1..] == t;
    assert PrintUnit(u, t)[1..] == [e] + t;
  }

  lemma HexParts(u: CodeUnit)
    ensures u == 0x1000 * (u / 16 / 16 / 16) + 0x100 * (u / 16 / 16 % 16) + 0x10 * (u / 16 % 16) + u % 16
  {
  }

  lemma ReadHexEscape(u: CodeUnit, t: string)
    requires EscapeLetter(u).None? && !Plain(u)
    ensures PrintUnit(u, t)[0] == '\\' && ParseEscape(PrintUnit(u, t)[1..]) == Some((u, t))
  {
    hide HexDigit, ParseHex, EscapedUnit;
    HexParts(u);
    var (a, b, c, d) := (u / 16 / 16 / 16, u / 16 / 16 % 16, u / 16 % 16, u % 16);
    var h := [HexDigit(a), HexDigit(b), HexDigit(c), HexDigit(d)] + t;
    ReadHex(a, b, c, d, t);
    assert (['u'] + h)[1..] == h;
    assert PrintUnit(u, t)[1..] == ['u'] + h;
  }

  lemma {:induction false} ReadUnits(x: Text, t: string)
    ensures ParseUnits(PrintUnits(x, t)) == Some((x, t))
  {
    if x != [] {
      ReadUnits(x[1..], t);
      var s1 := PrintUnits(x[1..], t);
      if Plain(x[0]) {
        assert PrintUnit(x[0], s1)[1..] == s1;
      } else {
        match EscapeLetter(x[0])
        case Some(e) => ReadShortEscape(x[0], e, s1);
        case None => ReadHexEscape(x[0], s1);
      }
      assert [x[0]] + x[1..] == x;
    }
  }

  lemma ReadText(x: Text, t: string)
    ensures var s := PrintText(x, t); s[0] == '\"' && ParseUnits(s[1..]) == Some((x, t))
  {
    assert PrintText(x, t)[1..] == PrintUnits(x, t);
    ReadUnits(x, t);
  }

  lemma ReadNegative(n: int, t: string)
    requires t == "" || !IsDigit(t[0])
    requires n < 0
    ensures ParseValue(PrintValue(Num(n), t)) == Some((Num(n), t))
  {
    hide ParseValue, PrintValue, ParseNat, Digits, Value;
    PrintedNumber(n, t);
    ParseNegative(Digits(-n) + t);
    ReadNat(-n, t);
  }

  lemma PrintedNumber(n: int, t: string)
    ensures PrintValue(Num(n), t) == if n < 0 then ['-'] + (Digits(-n) + t) else Digits(n) + t
  {
    hide ParseValue, Digits, PrintTail, PrintRest, PrintText;
  }

  lemma ParseNegative(d: string)
    ensures ParseValue(['-'] + d) == match ParseNat(d) case None => None case Some((n, r)) => Some((Num(0 - n), r))
  {
    hide ParseNat, ParseItems, ParsePairs, ParseUnits, StartsWith, PrintValue;
    assert (['-'] + d)[1..] == d;
  }

  lemma ParsePositive(d: string)
    requires d != "" && IsDigit(d[0])
    ensures ParseValue(d) == match ParseNat(d) case None => None case Some((n, r)) => Some((Num(n), r))
  {
    hide ParseNat, ParseItems, ParsePairs, ParseUnits, StartsWith, PrintValue;
  }

  lemma ReadNonNegative(n: nat, t: string)
    requires t == "" || !IsDigit(t[0])
    ensures ParseValue(PrintValue(Num(n), t)) == Some((Num(n), t))
  {
    hide ParseValue, PrintValue, ParseNat, Value;
    PrintedNumber(n, t);
    assert IsDigit(Digits(n)[0]) && (Digits(n) + t)[0] == Digits(n)[0];
    ParsePositive(Digits(n) + t);
    ReadNat(n, t);
  }

  lemma ReadLiteral(j: Json, t: string)
    requires j.Null? || j.Bool? || j == Arr(NoItems) || j == Obj(NoFields)
    ensures ParseValue(PrintValue(j, t)) == Some((j, t))
  {
    var s := PrintValue(j, t);
    assert j.Null? || j == Bool(true) ==> s[4..] == t;
    assert j == Bool(false) ==> s[5..] == t;
    assert j.Arr? || j.Obj? ==> s[2..] == t;
  }

  /** Printing then parsing gives the value back, whatever follows it (a number must not run on). */
  lemma {:induction false} ReadValue(j: Json, t: string)
    requires j.Num? ==> t == "" || !IsDigit(t[0])
    ensures ParseValue(PrintValue(j, t)) == Some((j, t))
  {
    match j
    case Num(n) => if n < 0 { ReadNegative(n, t); } else { ReadNonNegative(n, t); }
    case Str(x) => ReadText(x, t);
    case Arr(Item(head, tail)) =>
      assert PrintValue(j, t)[1..] == PrintValue(head, PrintTail(tail, t));
      ReadItems(j.items, t);
    case Obj(Field(k, v, rest)) =>
      assert PrintValue(j, t)[1..] == PrintText(k, [':', ' '] + PrintValue(v, PrintRest(rest, t)));
      ReadPairs(j.fields, t);
    case _ => ReadLiteral(j, t);
  }

  /** A value's text never begins like the end of a list. */
  lemma FirstChar(j: Json, t: string)
    ensures PrintValue(j, t) != "" && PrintValue(j, t)[0] != ']'
  {
    hide PrintTail, PrintRest, PrintUnits;
    if j.Num? && j.n >= 0 { assert IsDigit(Digits(j.n)[0]) && PrintValue(j, t)[0] == Digits(j.n)[0]; }
  }

  lemma {:induction false} ReadItems(l: Items, t: string)
    requires l.Item?
    ensures var s := PrintValue(l.head, PrintTail(l.tail, t)); s != "" && s[0] != ']' && ParseItems(s) == Some((l, t))
  {
    hide PrintValue, ParseValue, ParsePairs, ParseUnits, ParseNat;
    var s1 := PrintTail(l.tail, t);
    FirstChar(l.head, s1);
    ReadValue(l.head, s1);
    match l.tail
    case NoItems => assert s1[1..] == t;
    case Item(h, tail) =>
      assert s1[2..] == PrintValue(h, PrintTail(tail, t));
      ReadItems(l.tail, t);
  }

  lemma {:induction false} ReadPairs(fs: Fields, t: string)
    requires fs.Field?
    ensures ParsePairs(PrintText(fs.key, [':', ' '] + PrintValue(fs.value, PrintRest(fs.rest, t)))) == Some((fs, t))
  {
    var s2 := PrintRest(fs.rest, t);
    var s1 := [':', ' '] + PrintValue(fs.value, s2);
    ReadText(fs.key, s1);
    assert s1[2..] == PrintValue(fs.value, s2);
    ReadValue(fs.value, s2);
    match fs.rest
    case NoFields => assert s2[1..] == t;
    case Field(k, v, rest) =>
      assert s2[2..] == PrintText(k, [':', ' '] + PrintValue(v, PrintRest(rest, t)));
      ReadPairs(fs.rest, t);
  }

  lemma PrintParse(j: Json)
    ensures Parse(Print(j)) == Some(j)
  {
    ReadValue(j, "");
  }

  // ----- a scanner that tracks nesting, to tell complete objects from torn ones -----

  datatype Mode = Outside | AfterString | InString | Escape
  /** Inside an open object or array; exactly at the end of the outermost one; or not JSON. */
  datatype Scanner = Inside(depth: nat, mode: Mode) | Complete | Dead

  function CloseBracket(depth: nat): Scanner {
    if depth == 0 then Dead else if depth == 1 then Complete else Inside(depth - 1, Outside)
  }

  function ScanChar(st: Scanner, c: char): Scanner {
    if !st.Inside? then Dead else
      match st.mode
      case InString =>
        if c == '\"' then st.(mode := AfterString) else if c == '\\' then st.(mode := Escape) else st
      case Escape => if c == 'u' || EscapedUnit(c).Some? then st.(mode := InString) else Dead
      case AfterString =>
        if c == ',' || c == ':' then st.(mode := Outside)
        else if c == ']' || c == '}' then CloseBracket(st.depth)
        else Dead
      case Outside =>
        if c == '\"' then st.(mode := InString)
        else if c == '{' || c == '[' then st.(depth := st.depth + 1)
        else if c == ']' || c == '}' then CloseBracket(st.depth)
        else st
  }

  function Scan(st: Scanner, s: string): Scanner
    decreases |s|
  {
    if s == "" then st else Scan(ScanChar(st, s[0]), s[1..])
  }

  lemma {:induction false} ScanConcat(st: Scanner, a: string, b: string)
    ensures Scan(st, a + b) == Scan(Scan(st, a), b)
    decreases |a|
  {
    if a == "" {
      assert a + b == b;
    } else {
      assert (a + b)[1..] == a[1..] + b;
      ScanConcat(ScanChar(st, a[0]), a[1..], b);
    }
  }

  lemma ScanSeparator(d: nat, mode: Mode, s: string)
    requires mode == Outside || mode == AfterString
    requires |s| >= 2 && (s[0] == ',' || s[0] == ':') && s[1] == ' '
    ensures Scan(Inside(d, mode), s) == Scan(Inside(d, Outside), s[2..])
  {
    assert s[1..][1..] == s[2..];
    assert ScanChar(Inside(d, mode), s[0]) == Inside(d, Outside);
    assert Scan(Inside(d, mode), s) == Scan(Inside(d, Outside), s[1..]);
  }

  /** Between two values at the same depth: a number or literal may end in Outside, a string in AfterString. */
  ghost predicate Skips(d: nat, s: string, r: string) {
    var from := Scan(Inside(d, Outside), s);
    from == Scan(Inside(d, Outside), r) || from == Scan(Inside(d, AfterString), r)
  }

  lemma ScanEscape(d: nat, s: string)
    requires ParseEscape(s).Some?
    ensures Scan(Inside(d, Escape), s) == Scan(Inside(d, InString), ParseEscape(s).value.1)
  {
    if s[0] == 'u' {
      var s1 := s[1..];
      ScanHex(Inside(d, InString), s1, 4);
    }
  }

  lemma {:induction false} ScanHex(st: Scanner, s: string, n: nat)
    requires st.Inside? && st.mode == InString && n <= |s|
    requires forall i :: 0 <= i < n ==> HexValue(s[i]).Some?
    ensures Scan(st, s) == Scan(st, s[n..])
  {
    if n > 0 {
      assert HexValue(s[0]).Some?;
      forall i | 0 <= i < n - 1 ensures HexValue(s[1..][i]).Some? { assert s[1..][i] == s[i + 1]; }
      ScanHex(st, s[1..], n - 1);
      assert s[1..][n - 1..] == s[n..];
    } else {
      assert s[0..] == s;
    }
  }

  lemma {:induction false} ScanUnits(d: nat, s: string)
    requires ParseUnits(s).Some?
    ensures Scan(Inside(d, InString), s) == Scan(Inside(d, AfterString), ParseUnits(s).value.1)
    decreases |s|
  {
    if s[0] == '\"' {
    } else if s[0] == '\\' {
      ScanEscape(d, s[1..]);
      ScanUnits(d, ParseEscape(s[1..]).value.1);
    } else {
      ScanUnits(d, s[1..]);
    }
  }

  /** Characters that leave the scanner where it is, outside strings. */
  lemma {:induction false} ScanInert(st: Scanner, s: string, n: nat)
    requires st.Inside? && st.mode == Outside && n <= |s|
    requires forall i :: 0 <= i < n ==> IsDigit(s[i]) || 'a' <= s[i] <= 'z'
    ensures Scan(st, s) == Scan(st, s[n..])
  {
    if n > 0 {
      forall i | 0 <= i < n - 1 ensures IsDigit(s[1..][i]) || 'a' <= s[1..][i] <= 'z' { assert s[1..][i] == s[i + 1]; }
      ScanInert(st, s[1..], n - 1);
      assert s[1..][n - 1..] == s[n..];
    } else {
      assert s[0..] == s;
    }
  }

  lemma ScanNat(d: nat, s: string)
    requires ParseNat(s).Some?
    ensures Scan(Inside(d, Outside), s) == Scan(Inside(d, Outside), ParseNat(s).value.1)
  {
    var n := DigitCount(s);
    assert forall i :: 0 <= i < n ==> s[i] == s[..n][i];
    ScanInert(Inside(d, Outside), s, n);
  }

  lemma ScanEmpty(d: nat, s: string)
    requires |s| > 1 && (s[0] == '{' || s[0] == '[') && (s[1] == '}' || s[1] == ']')
    ensures Scan(Inside(d, Outside), s) == Scan(CloseBracket(d + 1), s[2..])
  {
    assert s[1..][1..] == s[2..];
    assert Scan(Inside(d, Outside), s) == Scan(Inside(d + 1, Outside), s[1..]);
  }

  lemma {:induction false} ScanValue(d: nat, s: string)
    requires d > 0 && ParseValue(s).Some?
    ensures Skips(d, s, ParseValue(s).value.1)
    decreases |s|, 2
  {
    hide ParseItems, ParsePairs, ParseUnits, ParseNat;
    var r := ParseValue(s).value.1;
    if s[0] == '{' {
      if |s| > 1 && s[1] == '}' { ScanEmpty(d, s); } else { ScanPairs(d + 1, s[1..]); }
    } else if s[0] == '[' {
      if |s| > 1 && s[1] == ']' { ScanEmpty(d, s); } else { ScanItems(d + 1, s[1..]); }
    } else if s[0] == '\"' {
      ScanUnits(d, s[1..]);
    } else if s[0] == '-' {
      ScanNat(d, s[1..]);
    } else if s[0] == 'n' || s[0] == 't' || s[0] == 'f' {
      ScanInert(Inside(d, Outside), s, |s| - |r|);
    } else {
      ScanNat(d, s);
    }
  }

  lemma {:induction false} ScanItems(d: nat, s: string)
    requires d > 0 && ParseItems(s).Some?
    ensures Scan(Inside(d, Outside), s) == Scan(CloseBracket(d), ParseItems(s).value.1)
    decreases |s|, 3
  {
    ScanValue(d, s);
    var s1 := ParseValue(s).value.1;
    if s1[0] != ']' {
      ScanSeparator(d, Outside, s1);
      ScanSeparator(d, AfterString, s1);
      ScanItems(d, s1[2..]);
    }
  }

  lemma {:induction false} ScanPairs(d: nat, s: string)
    requires d > 0 && ParsePairs(s).Some?
    ensures Scan(Inside(d, Outside), s) == Scan(CloseBracket(d), ParsePairs(s).value.1)
    decreases |s|, 3
  {
    ScanUnits(d, s[1..]);
    var s1 := ParseUnits(s[1..]).value.1;
    ScanSeparator(d, AfterString, s1);
    ScanValue(d, s1[2..]);
    var s2 := ParseValue(s1[2..]).value.1;
    if s2[0] != '}' {
      ScanSeparator(d, Outside, s2);
      ScanSeparator(d, AfterString, s2);
      ScanPairs(d, s2[2..]);
    }
  }

  const Start := Inside(0, Outside)

  /** Text that parses as one object drives the scanner to Complete. */
  lemma ParsedObjectCompletes(s: string)
    requires s != "" && s[0] == '{' && Parse(s).Some?
    ensures Scan(Start, s) == Complete
  {
    var r := ParseValue(s).value.1;
    assert r == "";
    assert Scan(Start, s) == Scan(Inside(1, Outside), s[1..]);
    if |s| > 1 && s[1] == '}' {
      ScanEmpty(0, s);
    } else {
      ScanPairs(1, s[1..]);
    }
  }

  lemma {:induction false} DeadStays(s: string)
    ensures Scan(Dead, s) == Dead
    decreases |s|
  {
    if s != "" { DeadStays(s[1..]); }
  }

  lemma {:induction false} StaysNested(st: Scanner, s: string)
    requires st.Inside? ==> st.depth > 0
    ensures Scan(st, s).Inside? ==> Scan(st, s).depth > 0
    decreases |s|
  {
    if s != "" { StaysNested(ScanChar(st, s[0]), s[1..]); }
  }

  lemma PrintedObject(j: Json)
    requires j.Obj?
    ensures var s := Print(j); s != "" && s[0] == '{' && Scan(Start, s) == Complete
  {
    PrintParse(j);
    ParsedObjectCompletes(Print(j));
  }

  /** A proper, non-empty beginning of an object's text leaves the scanner inside the object. */
  lemma TornObjectIsOpen(j: Json, k: nat)
    requires j.Obj? && 0 < k < |Print(j)|
    ensures var st := Scan(Start, Print(j)[..k]); st.Inside? && st.depth > 0
  {
    var s := Print(j);
    var (q, t) := (s[..k], s[k..]);
    PrintedObject(j);
    assert s == q + t;
    ScanConcat(Start, q, t);
    DeadStays(t);
    DeadStays(t[1..]);
    assert q[0] == '{';
    StaysNested(Inside(1, Outside), q[1..]);
  }

  /** A torn object does not parse. */
  lemma TornObjectFails(j: Json, k: nat)
    requires j.Obj? && k < |Print(j)|
    ensures Parse(Print(j)[..k]) == None
  {
    if k > 0 && Parse(Print(j)[..k]).Some? {
      PrintedObject(j);
      TornObjectIsOpen(j, k);
      ParsedObjectCompletes(Print(j)[..k]);
    }
  }

  /** Not at the end of the outermost object, and not outside of it. */
  predicate Open(st: Scanner) { !st.Complete? && (st.Inside? ==> st.depth > 0) }

  function Deeper(st: Scanner, d: nat): Scanner { if st.Inside? then st.(depth := st.depth + d) else st }

  lemma {:induction false} NotInsideStays(st: Scanner, s: string)
    requires !st.Inside?
    ensures !Scan(st, s).Inside? && (s != "" ==> Scan(st, s) == Dead)
    decreases |s|
  {
    if s != "" { NotInsideStays(ScanChar(st, s[0]), s[1..]); }
  }

  /** Nesting a text deeper changes nothing but the depth, as long as it stays inside. */
  lemma {:induction false} ScanDeeper(st: Scanner, s: string, d: nat)
    requires st.Inside? && Scan(st, s).Inside?
    ensures Scan(Deeper(st, d), s) == Deeper(Scan(st, s), d)
    decreases |s|
  {
    if s != "" {
      var st' := ScanChar(st, s[0]);
      if !st'.Inside? { NotInsideStays(st', s[1..]); }
      ScanDeeper(st', s[1..], d);
    }
  }

  /** A beginning of a record, after any text that leaves the object open, leaves it open. */
  lemma PieceKeepsOpen(st: Scanner, rec: Json, k: nat)
    requires Open(st) && IsRecord(rec) && 0 < k <= |Print(rec)|
    ensures Open(Scan(st, Print(rec)[..k]))
  {
    hide Scan, Print;
    var q := Print(rec)[..k];
    RecordText(rec);
    assert q[0] == '{';
    match st
    case Dead => DeadStays(q);
    case Inside(d, Outside) =>
      if k == |Print(rec)| {
        assert q == Print(rec);
        WholeStaysOpen(d, rec);
      } else {
        TornObjectIsOpen(rec, k);
        ScanDeeper(Start, q, d);
      }
    case Inside(_, InString) => QuoteBreaks(st, q);
    case _ => FirstKills(st, q);
  }

  lemma WholeStaysOpen(d: nat, rec: Json)
    requires d > 0 && rec.Obj?
    ensures Open(Scan(Inside(d, Outside), Print(rec)))
  {
    PrintParse(rec);
    ScanValue(d, Print(rec));
  }

  lemma FirstKills(st: Scanner, q: string)
    requires q != "" && q[0] == '{' && st.Inside? && (st.mode == AfterString || st.mode == Escape)
    ensures Scan(st, q) == Dead
  {
    DeadStays(q[1..]);
  }

  lemma QuoteBreaks(st: Scanner, q: string)
    requires st.Inside? && st.depth > 0 && st.mode == InString && q != "" && q[0] == '{'
    requires (|q| > 1 ==> q[1] == '\"') && (|q| > 2 ==> q[2] == 'o')
    ensures Open(Scan(st, q))
  {
    assert Scan(st, q) == Scan(st, q[1..]);
    if |q| > 1 {
      assert Scan(st, q[1..]) == Scan(st.(mode := AfterString), q[1..][1..]);
      if |q| > 2 {
        assert q[1..][1..][0] == 'o';
        DeadStays(q[1..][1..][1..]);
      }
    }
  }

  lemma {:induction false} GluedStaysOpen(st: Scanner, pieces: seq<Piece>)
    requires Open(st) && ArePieces(Print, pieces) && forall i :: 0 <= i < |pieces| ==> IsRecord(pieces[i].source)
    ensures Open(Scan(st, Glued(Print, pieces)))
    decreases |pieces|
  {
    hide Scan, Print, Open;
    if pieces == [] {
      NothingScanned(st);
    } else {
      var p := PieceText(Print, pieces[0]);
      assert IsRecord(pieces[0].source) && IsPiece(Print, pieces[0]);
      PieceKeepsOpen(st, pieces[0].source, pieces[0].length);
      GluedStaysOpen(Scan(st, p), pieces[1..]);
      ScanConcat(st, p, Glued(Print, pieces[1..]));
    }
  }

  lemma NothingScanned(st: Scanner)
    ensures Scan(st, "") == st
  {
  }

  /** Two or more pieces glued together do not parse, when all but the first are of records. */
  lemma GluedPiecesFail(pieces: seq<Piece>)
    requires |pieces| > 1 && ArePieces(Print, pieces) && forall i :: 0 < i < |pieces| ==> IsRecord(pieces[i].source)
    ensures Parse(Glued(Print, pieces)) == None
  {
    hide Scan, Print, Parse;
    var (p, q, rest) := (pieces[0], pieces[1], pieces[2..]);
    assert IsPiece(Print, p) && IsPiece(Print, q) && IsRecord(q.source);
    assert pieces[1..][0] == q && pieces[1..][1..] == rest;
    var (a, b, c) := (PieceText(Print, p), PieceText(Print, q), Glued(Print, rest));
    assert Glued(Print, pieces) == a + (b + c);
    ScanConcat(Start, a, b + c);
    ScanConcat(Scan(Start, a), b, c);
    PrintedObject(p.source);
    if p.length == |Print(p.source)| {
      assert a == Print(p.source);
      NotInsideStays(Complete, b);
    } else {
      TornObjectIsOpen(p.source, p.length);
      PieceKeepsOpen(Scan(Start, a), q.source, q.length);
    }
    GluedStaysOpen(Scan(Scan(Start, a), b), rest);
    if Parse(a + (b + c)).Some? { ParsedObjectCompletes(a + (b + c)); }
  }

  lemma RecordText(rec: Json)
    requires IsRecord(rec)
    ensures var r := Print(rec); |r| > 3 && r[0] == '{' && r[1] == '\"' && r[2] == 'o'
  {
    var after := [':', ' '] + PrintValue(rec.fields.value, PrintRest(rec.fields.rest, ""));
    assert OFFSET[0] == 111;
    assert PrintUnits(OFFSET, after) == PrintUnit(111, PrintUnits(OFFSET[1..], after));
    assert PrintUnit(111, PrintUnits(OFFSET[1..], after))[0] == 'o';
  }

  // ----- printed text stays on one line -----

  ghost predicate Printable(s: string) { forall c :: c in s ==> ' ' <= c <= '~' }

  lemma {:induction false} PrintUnitsPrintable(x: Text, t: string)
    requires Printable(t)
    ensures Printable(PrintUnits(x, t))
  {
    if x != [] { PrintUnitsPrintable(x[1..], t); }
  }

  lemma {:induction false} PrintPrintable(j: Json, t: string)
    requires Printable(t)
    ensures Printable(PrintValue(j, t))
  {
    match j
    case Str(x) => PrintUnitsPrintable(x, t);
    case Arr(Item(head, tail)) =>
      TailPrintable(tail, t);
      PrintPrintable(head, PrintTail(tail, t));
    case Obj(Field(k, v, rest)) =>
      RestPrintable(rest, t);
      PrintPrintable(v, PrintRest(rest, t));
      PrintUnitsPrintable(k, [':', ' '] + PrintValue(v, PrintRest(rest, t)));
    case _ =>
  }

  lemma {:induction false} TailPrintable(l: Items, t: string)
    requires Printable(t)
    ensures Printable(PrintTail(l, t))
  {
    match l
    case NoItems =>
    case Item(head, tail) =>
      TailPrintable(tail, t);
      PrintPrintable(head, PrintTail(tail, t));
  }

  lemma {:induction false} RestPrintable(fs: Fields, t: string)
    requires Printable(t)
    ensures Printable(PrintRest(fs, t))
  {
    match fs
    case NoFields =>
    case Field(k, v, rest) =>
      RestPrintable(rest, t);
      PrintPrintable(v, PrintRest(rest, t));
      PrintUnitsPrintable(k, [':', ' '] + PrintValue(v, PrintRest(rest, t)));
  }

  /** An object's text begins and ends with its brackets, so stripping leaves it alone. */
  lemma ObjectBrackets(j: Json)
    requires j.Obj?
    ensures var s := Print(j); s != "" && s[0] == '{' && (s[|s| - 1] == '}' || s[|s| - 1] == ']')
  {
    var s := Print(j);
    PrintedObject(j);
    var front := s[..|s| - 1];
    assert s == front + [s[|s| - 1]];
    ScanConcat(Start, front, [s[|s| - 1]]);
  }
}
