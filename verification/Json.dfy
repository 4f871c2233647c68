/**
 A concrete JSON codec in the layout of `json.dumps` with its defaults: ASCII only, ", " between
 elements and ": " after keys, characters outside ' '..'~' escaped as \uXXXX.
 Strings are sequences of UTF-16 code units, as RFC 8259 section 7 escapes them.
 */
module Json {
  import opened Wrappers
  import opened Decimal

  type CodeUnit = u: int | 0 <= u < 0x10000
  type Text = seq<CodeUnit>

  datatype Json =
    | Null
    | Bool(b: bool)
    | Num(n: int)
    | Str(s: Text)
    | Arr(items: Items)
    | Obj(fields: Fields)
  datatype Items = NoItems | Item(head: Json, tail: Items)
  datatype Fields = NoFields | Field(key: Text, value: Json, rest: Fields)

  function Ascii(s: string): (t: Text)
    requires forall i :: 0 <= i < |s| ==> s[i] <= '~'
  {
    seq(|s|, i requires 0 <= i < |s| => s[i] as int)
  }

  /** Dictionary lookup; `json.loads` lets the last of repeated keys win. */
  function Lookup(fs: Fields, key: Text): Option<Json> {
    match fs
    case NoFields => None
    case Field(k, v, rest) =>
      var later := Lookup(rest, key);
      if later.Some? then later else if k == key then Some(v) else None
  }

  // ----- printing: each printer puts its text in front of the text t that follows -----

  function HexDigit(d: nat): char
    requires d < 16
  {
    if d < 10 then ('0' as int + d) as char else ('a' as int + d - 10) as char
  }

  /** The letter of a two-character escape, for the units that have one. */
  function EscapeLetter(u: CodeUnit): Option<char> {
    if u == 8 then Some('b') else if u == 9 then Some('t') else if u == 10 then Some('n')
    else if u == 12 then Some('f') else if u == 13 then Some('r')
    else if u == 34 then Some('\"') else if u == 92 then Some('\\') else None
  }

  function PrintUnit(u: CodeUnit, t: string): string {
    match EscapeLetter(u)
    case Some(e) => ['\\'] + ([e] + t)
    case None =>
      if 32 <= u <= 126 then [u as char] + t
      else ['\\'] + PrintHex(u / 16 / 16 / 16, u / 16 / 16 % 16, u / 16 % 16, u % 16, t)
  }

  function PrintHex(a: nat, b: nat, c: nat, d: nat, t: string): string
    requires a < 16 && b < 16 && c < 16 && d < 16
  {
    ['u'] + ([HexDigit(a), HexDigit(b), HexDigit(c), HexDigit(d)] + t)
  }

  function PrintUnits(x: Text, t: string): string {
    if x == [] then ['\"'] + t else PrintUnit(x[0], PrintUnits(x[1..], t))
  }

  function PrintText(x: Text, t: string): string { ['\"'] + PrintUnits(x, t) }

  function PrintValue(j: Json, t: string): string {
    match j
    case Null => "null" + t
    case Bool(b) => if b then "true" + t else "false" + t
    case Num(n) => if n < 0 then ['-'] + (Digits(-n) + t) else Digits(n) + t
    case Str(x) => PrintText(x, t)
    case Arr(NoItems) => ['[', ']'] + t
    case Arr(Item(head, tail)) => ['['] + PrintValue(head, PrintTail(tail, t))
    case Obj(NoFields) => ['{', '}'] + t
    case Obj(Field(k, v, rest)) => ['{'] + PrintText(k, [':', ' '] + PrintValue(v, PrintRest(rest, t)))
  }

  function PrintTail(items: Items, t: string): string {
    match items
    case NoItems => [']'] + t
    case Item(head, tail) => [',', ' '] + PrintValue(head, PrintTail(tail, t))
  }

  function PrintRest(fs: Fields, t: string): string {
    match fs
    case NoFields => ['}'] + t
    case Field(k, v, rest) => [',', ' '] + PrintText(k, [':', ' '] + PrintValue(v, PrintRest(rest, t)))
  }

  function Print(j: Json): string { PrintValue(j, "") }

  // ----- parsing: each parser returns what it read and the text left over -----

  predicate StartsWith(s: string, p: string) { |p| <= |s| && forall i :: 0 <= i < |p| ==> s[i] == p[i] }

  function HexValue(c: char): (r: Option<nat>)
    ensures r.Some? ==> r.value < 16
  {
    if '0' <= c <= '9' then Some(c as int - '0' as int)
    else if 'a' <= c <= 'f' then Some(c as int - 'a' as int + 10)
    else if 'A' <= c <= 'F' then Some(c as int - 'A' as int + 10)
    else None
  }

  function EscapedUnit(c: char): Option<CodeUnit> {
    if c == 'b' then Some(8) else if c == 't' then Some(9) else if c == 'n' then Some(10)
    else if c == 'f' then Some(12) else if c == 'r' then Some(13)
    else if c == '\"' then Some(34) else if c == '\\' then Some(92) else if c == '/' then Some(47) else None
  }

  function ParseHex(s: string): (r: Option<(CodeUnit, string)>)
    ensures r.Some? ==> |r.value.1| < |s|
  {
    if |s| < 4 then None else
      var (a, b, c, d) := (HexValue(s[0]), HexValue(s[1]), HexValue(s[2]), HexValue(s[3]));
      if a.Some? && b.Some? && c.Some? && d.Some?
      then Some((0x1000 * a.value + 0x100 * b.value + 0x10 * c.value + d.value, s[4..]))
      else None
  }

  /** The code unit a backslash escape stands for; s starts after the backslash. */
  function ParseEscape(s: string): (r: Option<(CodeUnit, string)>)
    ensures r.Some? ==> |r.value.1| < |s|
  {
    if s == "" then None
    else if s[0] == 'u' then ParseHex(s[1..])
    else match EscapedUnit(s[0]) case None => None case Some(u) => Some((u, s[1..]))
  }

  /** String contents up to and including the closing quote. */
  function ParseUnits(s: string): (r: Option<(Text, string)>)
    ensures r.Some? ==> |r.value.1| < |s|
    decreases |s|
  {
    if s == "" then None
    else if s[0] == '\"' then Some(([], s[1..]))
    else if s[0] == '\\' then
      match ParseEscape(s[1..])
      case None => None
      case Some((u, s1)) =>
        (match ParseUnits(s1) case None => None case Some((t, s2)) => Some(([u] + t, s2)))
    else if ' ' <= s[0] <= '~' then
      match ParseUnits(s[1..]) case None => None case Some((t, s1)) => Some(([s[0] as int] + t, s1))
    else None
  }

  function DigitCount(s: string): (n: nat)
    ensures n <= |s| && AllDigits(s[..n]) && (n < |s| ==> !IsDigit(s[n]))
  {
    if s != "" && IsDigit(s[0]) then
      var n := DigitCount(s[1..]);
      assert forall i :: 0 < i <= n ==> s[i] == s[1..][..n][i - 1];
      1 + n
    else 0
  }

  function ParseNat(s: string): (r: Option<(nat, string)>)
    ensures r.Some? ==> |r.value.1| < |s|
  {
    var n := DigitCount(s);
    if Canonical(s[..n]) then Some((Value(s[..n]), s[n..])) else None
  }

  function ParseValue(s: string): (r: Option<(Json, string)>)
    ensures r.Some? ==> |r.value.1| < |s|
    decreases |s|, 2
  {
    if s == "" then None
    else if s[0] == '{' then
      if |s| > 1 && s[1] == '}' then Some((Obj(NoFields), s[2..])) else
        (match ParsePairs(s[1..]) case None => None case Some((fs, r)) => Some((Obj(fs), r)))
    else if s[0] == '[' then
      if |s| > 1 && s[1] == ']' then Some((Arr(NoItems), s[2..])) else
        (match ParseItems(s[1..]) case None => None case Some((l, r)) => Some((Arr(l), r)))
    else if s[0] == '\"' then
      (match ParseUnits(s[1..]) case None => None case Some((t, r)) => Some((Str(t), r)))
    else if s[0] == 'n' then
      if StartsWith(s, "null") then Some((Null, s[4..])) else None
    else if s[0] == 't' then
      if StartsWith(s, "true") then Some((Bool(true), s[4..])) else None
    else if s[0] == 'f' then
      if StartsWith(s, "false") then Some((Bool(false), s[5..])) else None
    else if s[0] == '-' then
      (match ParseNat(s[1..]) case None => None case Some((n, r)) => Some((Num(0 - n), r)))
    else
      match ParseNat(s) case None => None case Some((n, r)) => Some((Num(n), r))
  }

  /** One or more elements and the closing bracket. */
  function ParseItems(s: string): (r: Option<(Items, string)>)
    ensures r.Some? ==> |r.value.1| < |s|
    decreases |s|, 3
  {
    match ParseValue(s)
    case None => None
    case Some((v, s1)) =>
      if StartsWith(s1, "]") then Some((Item(v, NoItems), s1[1..]))
      else if StartsWith(s1, ", ") then
        (match ParseItems(s1[2..]) case None => None case Some((l, r)) => Some((Item(v, l), r)))
      else None
  }

  /** One or more key-value pairs and the closing brace. */
  function ParsePairs(s: string): (r: Option<(Fields, string)>)
    ensures r.Some? ==> |r.value.1| < |s|
    decreases |s|, 3
  {
    if !StartsWith(s, "\"") then None else
      match ParseUnits(s[1..])
      case None => None
      case Some((k, s1)) =>
        if !StartsWith(s1, ": ") then None else
          match ParseValue(s1[2..])
          case None => None
          case Some((v, s2)) =>
            if StartsWith(s2, "}") then Some((Field(k, v, NoFields), s2[1..]))
            else if StartsWith(s2, ", ") then
              (match ParsePairs(s2[2..]) case None => None case Some((fs, r)) => Some((Field(k, v, fs), r)))
            else None
  }

  /** The whole text is one JSON value. */
  function Parse(s: string): Option<Json> {
    match ParseValue(s)
    case None => None
    case Some((j, r)) => if r == "" then Some(j) else None
  }
}
