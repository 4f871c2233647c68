/** offsets.py, and the offset half of groups.py: committed offsets kept in memory and rewritten to one file. */
module Offsets {
  /** The file as a whole: absent, unreadable, or a table. */
  datatype Content<K> = Missing | Corrupt | Saved(offsets: map<K, int>)

  class Cell<K(==)> {
    var content: Content<K>
    constructor (content: Content<K>)
      ensures this.content == content
    {
      this.content := content;
    }
  }

  /** What a start-up reads. */
  function Loaded<K>(c: Content<K>): map<K, int> { if c.Saved? then c.offsets else map[] }

  function Committed<K>(offsets: map<K, int>, k: K): int { if k in offsets then offsets[k] else 0 }

  /** Keyed by (consumer, topic) for standalone consumers, by (group, partition) for groups. */
  class OffsetTable<K(==)> {
    const cell: Cell<K>
    var offsets: map<K, int>

    /** A restart at this moment would read the same offsets. */
    ghost predicate Durable()
      reads this, cell
    {
      Loaded(cell.content) == offsets && !cell.content.Missing?
    }

    constructor (cell: Cell<K>)
      modifies cell
      ensures this.cell == cell && Durable() && offsets == Loaded(old(cell.content))
      ensures cell.content == if old(cell.content).Missing? then Saved(map[]) else old(cell.content)
    {
      this.cell, offsets := cell, if cell.content.Saved? then cell.content.offsets else map[];
      new;
      if cell.content.Missing? { Save(); }
    }

    method Save()
      modifies cell
      ensures cell.content == Saved(offsets)
    {
      cell.content := Saved(offsets);
    }

    /** An offset never committed is entered as 0, and the file rewritten. */
    method GetOffset(k: K) returns (o: int)
      requires Durable()
      modifies this, cell
      ensures Durable() && o == Committed(old(offsets), k)
      ensures o == if k in old(offsets) then old(offsets)[k] else 0
      ensures offsets == if k in old(offsets) then old(offsets) else old(offsets)[k := 0]
      ensures forall k' :: Committed(offsets, k') == Committed(old(offsets), k')
    {
      if k !in offsets {
        offsets := offsets[k := 0];
        Save();
      }
      o := offsets[k];
    }

    method UpdateOffset(k: K, o: int)
      requires Durable()
      modifies this, cell
      ensures Durable() && offsets == old(offsets)[k := o]
    {
      offsets := offsets[k := o];
      Save();
    }
  }

  /** A restart: a new table over the file the old one left, with the offsets the old one had. */
  method Restart<K(==)>(t: OffsetTable<K>) returns (t': OffsetTable<K>)
    requires t.Durable()
    modifies t.cell
    ensures fresh(t') && t'.Durable() && t'.offsets == old(t.offsets) && t'.cell == t.cell
    ensures t.cell.content == old(t.cell.content)
  {
    t' := new OffsetTable(t.cell);
  }
}
