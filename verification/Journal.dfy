/** The journal object of the demo: one table, and the operations that read it or add rows to it. */
module Journals {
  import opened Wrappers
  import opened Effects

  class DemoJournal {
    var rows: Journal

    /** Opening an existing database keeps its rows. */
    constructor (rows: Journal)
      ensures this.rows == rows
    {
      this.rows := rows;
    }

    method RecordOnce(kind: EffectKind, id: Digest, doc: Document) returns (inserted: bool)
      modifies this
      ensures inserted <==> Key(kind, id) !in old(rows)
      ensures rows == Recorded(old(rows), Key(kind, id), doc)
    {
      inserted := Key(kind, id) !in rows;
      if inserted {
        rows := rows[Key(kind, id) := doc];
      }
    }

    method Require(kind: EffectKind, id: Digest) returns (r: Result<Document, JournalError>)
      ensures r == Effects.Require(rows, Key(kind, id))
    {
      var key := Key(kind, id);
      if key !in rows {
        return Err(Missing(key));
      }
      var doc := rows[key];
      if doc.NotAnObject? {
        return Err(BadPayload(key));
      }
      return Ok(doc);
    }

    method Count(kind: EffectKind, id: Digest) returns (n: nat)
      ensures n == Effects.Count(rows, Key(kind, id))
    {
      n := if Key(kind, id) in rows then 1 else 0;
    }

    /** A failed overlay insert rolls the whole transaction back. */
    method MaterializeOperationOnce(operation: Digest, component: Component)
      returns (r: Result<Component, MaterializeError>)
      modifies this
      ensures Materialized(rows, r) == MaterializeOnce(old(rows), operation, component)
      ensures r.Err? ==> rows == old(rows)
    {
      var key := OperationKey(operation);
      if key in rows {
        match rows[key] {
          case ComponentDoc(stored) => return Ok(stored);
          case _ => return Err(BadOperationRow);
        }
      }
      if component.overlay.Some? {
        var overlay := component.overlay.value;
        if OverlayKey(overlay) in rows {
          return Err(OverlayClash(overlay));
        }
        rows := rows[OverlayKey(overlay) := OverlayDocument(overlay)];
      }
      rows := rows[key := ComponentDoc(component)];
      return Ok(component);
    }
  }
}
