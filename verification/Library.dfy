/** The library calls the broker makes, as one value: JSON, the CRC32 of a record, and gzip with base64. */
module Library {
  import opened Wrappers
  import opened Decimal
  import opened Json
  import opened Pieces
  import JsonProofs

  datatype Env = Env(
    loads: string -> Option<Json>,
    dumps: Json -> string,
    checksum: (Json, Json) -> int,
    gzip: string -> Text,
    gunzip: Text -> Option<string>)

  predicate IsBreak(c: char) { c == '\n' || c == '\r' }

  predicate IsSpace(c: char) {
    var u := c as int;
    9 <= u <= 13 || 28 <= u <= 32 || u == 0x85 || u == 0xa0 || u == 0x1680 || 0x2000 <= u <= 0x200a
    || u == 0x2028 || u == 0x2029 || u == 0x202f || u == 0x205f || u == 0x3000
  }

  /** One non-empty line that `strip` leaves alone. */
  ghost predicate LineSafe(s: string) {
    && s != "" && !IsSpace(s[0]) && !IsSpace(s[|s| - 1])
    && forall i :: 0 <= i < |s| ==> !IsBreak(s[i])
  }

  ghost predicate RoundTrips(env: Env) {
    && (forall j :: env.loads(env.dumps(j)) == Some(j))
    && (forall j :: env.gunzip(env.gzip(env.dumps(j))) == Some(env.dumps(j)))
  }

  /** Object text keeps to one line, and no torn or glued object text parses. */
  ghost predicate Frames(env: Env) {
    && (forall j: Json :: j.Obj? ==> LineSafe(env.dumps(j)))
    && (forall j: Json, k :: j.Obj? && 0 <= k < |env.dumps(j)| ==> env.loads(env.dumps(j)[..k]) == None)
    && (forall pieces: seq<Piece> :: GluesRecords(env, pieces) ==> env.loads(Glued(env.dumps, pieces)) == None)
  }

  /** Several pieces on one line, all but perhaps the first of records. */
  ghost predicate GluesRecords(env: Env, pieces: seq<Piece>) {
    |pieces| > 1 && ArePieces(env.dumps, pieces) && forall i :: 0 < i < |pieces| ==> IsRecord(pieces[i].source)
  }

  ghost predicate Good(env: Env) { RoundTrips(env) && Frames(env) }

  lemma PrintLineSafe(j: Json)
    requires j.Obj?
    ensures LineSafe(Print(j))
  {
    var s := Print(j);
    JsonProofs.ObjectBrackets(j);
    JsonProofs.PrintPrintable(j, "");
    forall i | 0 <= i < |s| ensures !IsBreak(s[i]) { assert s[i] in s; }
  }

  lemma {:induction false} GluedSame(dumps: Json -> string, dumps': Json -> string, pieces: seq<Piece>)
    requires ArePieces(dumps, pieces) && forall j :: dumps(j) == dumps'(j)
    ensures ArePieces(dumps', pieces) && Glued(dumps, pieces) == Glued(dumps', pieces)
    decreases |pieces|
  {
    if pieces != [] { GluedSame(dumps, dumps', pieces[1..]); }
  }

  lemma ConcreteJsonFrames(env: Env)
    requires forall s :: env.loads(s) == Parse(s)
    requires forall j :: env.dumps(j) == Print(j)
    ensures Frames(env)
  {
    forall j: Json | j.Obj? ensures LineSafe(env.dumps(j)) {
      PrintLineSafe(j);
    }
    forall j: Json, k | j.Obj? && 0 <= k < |env.dumps(j)| ensures env.loads(env.dumps(j)[..k]) == None {
      JsonProofs.TornObjectFails(j, k);
    }
    forall pieces: seq<Piece> | GluesRecords(env, pieces) ensures env.loads(Glued(env.dumps, pieces)) == None {
      GluedSame(env.dumps, Print, pieces);
      JsonProofs.GluedPiecesFail(pieces);
    }
  }

  /** The assumptions on JSON hold of the concrete codec, for every checksum and every invertible compressor. */
  lemma ConcreteJsonIsGood(checksum: (Json, Json) -> int, gzip: string -> Text, gunzip: Text -> Option<string>)
    requires forall j :: gunzip(gzip(Print(j))) == Some(Print(j))
    ensures Good(Env(s => Parse(s), j => Print(j), checksum, gzip, gunzip))
  {
    var env := Env(s => Parse(s), j => Print(j), checksum, gzip, gunzip);
    forall j ensures env.loads(env.dumps(j)) == Some(j) { JsonProofs.PrintParse(j); }
    ConcreteJsonFrames(env);
  }
}
