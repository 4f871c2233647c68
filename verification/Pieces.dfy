/** What torn writes leave on a line: beginnings of objects, one after the other. */
module Pieces {
  import opened Json

  const OFFSET: Text := Ascii("offset")

  predicate IsRecord(j: Json) { j.Obj? && j.fields.Field? && j.fields.key == OFFSET }

  /** A non-empty beginning of an object's text, torn or whole. */
  datatype Piece = Piece(source: Json, length: nat)

  predicate IsPiece(dumps: Json -> string, p: Piece) { p.source.Obj? && 0 < p.length <= |dumps(p.source)| }

  function PieceText(dumps: Json -> string, p: Piece): string
    requires IsPiece(dumps, p)
  {
    dumps(p.source)[..p.length]
  }

  ghost predicate ArePieces(dumps: Json -> string, pieces: seq<Piece>) {
    forall i :: 0 <= i < |pieces| ==> IsPiece(dumps, pieces[i])
  }

  /** Pieces one after the other, as torn writes and the appends after them leave them on a line. */
  ghost function Glued(dumps: Json -> string, pieces: seq<Piece>): string
    requires ArePieces(dumps, pieces)
  {
    if pieces == [] then "" else PieceText(dumps, pieces[0]) + Glued(dumps, pieces[1..])
  }
}
