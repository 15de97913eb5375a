/**
 * The `VectorStore` of backend/vector_store.py as the intent processors see it: a map
 * from item id to the indexed text and metadata.  Whether chromadb accepts an `add`
 * is not modelled; the store is given a fixed answer for every call, and an `add` it
 * refuses raises and changes nothing.  `delete_item` never raises, and a delete the
 * collection refuses leaves the entry in place.
 */
module SemanticIndex {
  import opened JsonValue

  datatype IndexEntry = IndexEntry(text: string, metadata: Record)

  class VectorStore {
    var entries: map<int, IndexEntry>
    /** Whether the collection accepts `add(ids=[id], documents=[text], metadatas=[metadata])`. */
    const accepts: (int, string, Record) -> bool

    constructor(accepts: (int, string, Record) -> bool)
      ensures entries == map[] && this.accepts == accepts
    {
      entries := map[];
      this.accepts := accepts;
    }

    /** `add_item(item_id, text, metadata)`: false where the collection raised. */
    method AddItem(id: int, text: string, metadata: Record) returns (ok: bool)
      modifies this
      ensures ok == accepts(id, text, metadata)
      ensures entries == if ok then old(entries)[id := IndexEntry(text, metadata)] else old(entries)
    {
      ok := accepts(id, text, metadata);
      if ok {
        entries := entries[id := IndexEntry(text, metadata)];
      }
    }

    /**
     * `delete_item(item_id)`, where `collectionDeletes` says whether `collection.delete`
     * went through.  The bare `except` swallows a failure, so the call never raises, and
     * after a failure the entry stays.
     */
    method DeleteItem(id: int, collectionDeletes: bool)
      modifies this
      ensures entries == if collectionDeletes then old(entries) - {id} else old(entries)
    {
      if collectionDeletes {
        entries := entries - {id};
      }
    }
  }
}
