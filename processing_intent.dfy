/**
 * `IntentProcessor.process_items` of backend/processing/intent_processor.py: each item
 * is created in the table, written to the semantic index and read back.  A failed
 * create skips only that item, and a failed index write is ignored.
 */
module IntentProcessing {
  import opened PyText
  import opened JsonValue
  import opened ItemStore
  import opened SemanticIndex
  import Storage

  /** Both stores after a run, and the list the call returns. */
  datatype Outcome = Outcome(table: Table, entries: map<int, IndexEntry>, created: seq<Record>)

  /** The strings of `item.get('tags', []) or []`. */
  function TagParts(d: Record): seq<string>
    requires StoredShape(d)
  {
    var tags := Get(d, "tags", JArr([]));
    if Truthy(tags) then JoinParts(tags).value else []
  }

  /** The indexed text: title, description or '', and the tags joined by spaces. */
  function SearchText(d: Record): string
    requires StoredShape(d)
  {
    var desc := Get(d, "description", JStr(""));
    Str(Get(d, "title", JStr(""))) + " " + (if Truthy(desc) then Str(desc) else "") + " " + Join(" ", TagParts(d))
  }

  /** The indexed metadata, with the defaults 'task' and 'medium'. */
  function Metadata(d: Record): Record
    requires StoredShape(d)
  {
    map["type" := Get(d, "type", JStr("task")), "priority" := Get(d, "priority", JStr("medium")),
        "tags" := JStr(Join(",", TagParts(d)))]
  }

  /** One iteration of the loop. */
  function Step(t: Table, entries: map<int, IndexEntry>, accepts: (int, string, Record) -> bool,
                item: Json, now: string): Outcome
  {
    var (t', r) := Create(t, item, now);
    if r.Err? then Outcome(t, entries, [])
    else
      CreatedShape(t, item, now);
      var id, text, meta := r.value, SearchText(item.fields), Metadata(item.fields);
      var entries' := if accepts(id, text, meta) then entries[id := IndexEntry(text, meta)] else entries;
      var got := ById(t', id);
      Outcome(t', entries', if got.Some? && Truthy(JObj(got.value)) then [got.value] else [])
  }

  /** `process_items(items)` on a table and an index whose writes `accepts` lets through. */
  function Run(t: Table, entries: map<int, IndexEntry>, accepts: (int, string, Record) -> bool,
               items: seq<Json>, now: string): Outcome
    decreases |items|
  {
    if items == [] then Outcome(t, entries, [])
    else
      var s := Step(t, entries, accepts, items[0], now);
      var rest := Run(s.table, s.entries, accepts, items[1..], now);
      rest.(created := s.created + rest.created)
  }

  /**
   * The records a run returns, computed from the items alone: the row `get_item_by_id`
   * reads back for every item `create_item` takes, under the consecutive ids it hands out.
   */
  function Expected(schema: Schema, items: seq<Json>, now: string, from: int): (r: seq<Record>)
    ensures |r| <= |items|
    decreases |items|
  {
    if items == [] then []
    else
      match Stored(schema, items[0], now, from)
      case None => Expected(schema, items[1..], now, from)
      case Some(record) => [record] + Expected(schema, items[1..], now, from + 1)
  }

  /** A run that had already returned `created` before it reached `o`. */
  function Resumed(created: seq<Record>, o: Outcome): Outcome {
    o.(created := created + o.created)
  }

  lemma RunUnfolds(t: Table, entries: map<int, IndexEntry>, accepts: (int, string, Record) -> bool,
                   items: seq<Json>, now: string, created: seq<Record>)
    requires items != []
    ensures var s := Step(t, entries, accepts, items[0], now);
      Resumed(created, Run(t, entries, accepts, items, now)) == Resumed(created + s.created, Run(s.table, s.entries, accepts, items[1..], now))
  {
  }

  /** The metadata the index should hold for a stored row. */
  function RowMetadata(row: Row): Record {
    map["type" := row.itemType, "priority" := row.priority, "tags" := row.tags]
  }

  // ---------------------------------------------------------------- one item

  /** `or []` changes nothing in the tags of a dict `create_item` took: falsy tags that join have no parts. */
  lemma TagPartsAreJoinParts(d: Record)
    requires StoredShape(d)
    ensures TagParts(d) == JoinParts(Get(d, "tags", JArr([]))).value
  {
    var tags := Get(d, "tags", JArr([]));
    if !Truthy(tags) {
      assert tags == JStr("") || tags == JArr([]) || tags == JObj(map[]);
    }
  }

  /**
   * The metadata written for a created item is what its row stores: the type (so the
   * 'task' default never applies), the priority and the comma-joined tags.
   */
  lemma IndexedMetadataMatchesRow(t: Table, item: Json, now: string)
    requires Create(t, item, now).1.Ok?
    ensures item.JObj? && StoredShape(item.fields)
    ensures Metadata(item.fields) == RowMetadata(Create(t, item, now).0.rows[t.nextId])
    ensures Metadata(item.fields)["type"] == item.fields["type"]
  {
    CreatedShape(t, item, now);
    NewRowOkIffAccepts(t.schema, item, now);
    var d := item.fields;
    TagPartsAreJoinParts(d);
    var p := Get(d, "priority", JStr("medium"));
    if IsScalar(p) && !p.JStr? && !p.JNull? {
      AsTextOfNonString(p);
    }
  }

  /** The search text opens with the title, and the description shows only when it is truthy. */
  lemma SearchTextLayout(d: Record)
    requires StoredShape(d)
    ensures var desc := Get(d, "description", JStr(""));
      && StartsWith(SearchText(d), Str(d["title"]) + " ")
      && (Truthy(desc) ==> SearchText(d) == Str(d["title"]) + " " + Str(desc) + " " + Join(" ", JoinParts(Get(d, "tags", JArr([]))).value))
      && (!Truthy(desc) ==> SearchText(d) == Str(d["title"]) + "  " + Join(" ", JoinParts(Get(d, "tags", JArr([]))).value))
  {
    TagPartsAreJoinParts(d);
    var head := Str(d["title"]) + " ";
    assert SearchText(d)[..|head|] == head;
  }

  /** An item `create_item` refuses is skipped, and the run goes on with the next one. */
  lemma RefusedItemSkipped(t: Table, entries: map<int, IndexEntry>, accepts: (int, string, Record) -> bool,
                           items: seq<Json>, now: string)
    requires items != [] && !Accepts(t.schema, items[0])
    ensures Run(t, entries, accepts, items, now) == Run(t, entries, accepts, items[1..], now)
  {
    NewRowOkIffAccepts(t.schema, items[0], now);
  }

  // ---------------------------------------------------------------- whole runs

  /** A created row is never empty, so it is always appended. */
  lemma StepAppendsCreatedRow(t: Table, entries: map<int, IndexEntry>, accepts: (int, string, Record) -> bool,
                              item: Json, now: string)
    ensures var s := Step(t, entries, accepts, item, now);
      match Stored(t.schema, item, now, t.nextId)
      case None => s.table == t && s.created == [] && s.entries == entries
      case Some(record) => s.table == Create(t, item, now).0 && s.created == [record]
  {
    var (t', r) := Create(t, item, now);
    if r.Ok? {
      var rec := AsRecord(t'.rows[t.nextId]);
      assert "id" in rec;
      assert Truthy(JObj(rec));
    }
  }

  /**
   * The run returns, in input order, the row of every item `create_item` took, with
   * the consecutive ids it handed out: one per accepted item, so never more than the
   * items given.
   */
  lemma RunReturnsCreatedRows(t: Table, entries: map<int, IndexEntry>,
                               accepts: (int, string, Record) -> bool, items: seq<Json>, now: string)
    ensures var o := Run(t, entries, accepts, items, now);
      o.created == Expected(t.schema, items, now, t.nextId)
      && o.table.nextId == t.nextId + |o.created| && o.table.schema == t.schema
      && |o.created| <= |items|
  {
    CreatedRowsFrom(t, entries, accepts, items, now);
    RunCountsIds(t, entries, accepts, items, now);
  }

  lemma {:induction false} CreatedRowsFrom(t: Table, entries: map<int, IndexEntry>,
                                           accepts: (int, string, Record) -> bool, items: seq<Json>, now: string)
    ensures Run(t, entries, accepts, items, now).created == Expected(t.schema, items, now, t.nextId)
    decreases |items|
  {
    if items != [] {
      var s := CreatedHead(t, entries, accepts, items, now);
      CreatedRowsFrom(s.table, s.entries, accepts, items[1..], now);
    }
  }

  /** The first step `s` returns what `Expected` predicts, and the run and the prediction go on from the table it leaves. */
  lemma CreatedHead(t: Table, entries: map<int, IndexEntry>, accepts: (int, string, Record) -> bool,
                    items: seq<Json>, now: string) returns (s: Outcome)
    requires items != []
    ensures s == Step(t, entries, accepts, items[0], now)
    ensures s.table.schema == t.schema
    ensures Run(s.table, s.entries, accepts, items[1..], now).created == Expected(t.schema, items[1..], now, s.table.nextId)
      ==> Run(t, entries, accepts, items, now).created == Expected(t.schema, items, now, t.nextId)
  {
    s := Step(t, entries, accepts, items[0], now);
    StepAppendsCreatedRow(t, entries, accepts, items[0], now);
    RunCons(t, entries, accepts, items, now);
    match Stored(t.schema, items[0], now, t.nextId)
    case None =>
      ExpectedSkips(t.schema, items, now, t.nextId, s.table.nextId);
      Concatenated(Run(t, entries, accepts, items, now).created, s.created, Run(s.table, s.entries, accepts, items[1..], now).created,
                   Expected(t.schema, items, now, t.nextId), [], Expected(t.schema, items[1..], now, s.table.nextId));
    case Some(r) =>
      ExpectedTakes(t.schema, items, now, t.nextId, s.table.nextId);
      Concatenated(Run(t, entries, accepts, items, now).created, s.created, Run(s.table, s.entries, accepts, items[1..], now).created,
                   Expected(t.schema, items, now, t.nextId), [r], Expected(t.schema, items[1..], now, s.table.nextId));
  }

  /** A run is its first step followed by the run over the rest, from the stores that step leaves. */
  lemma RunCons(t: Table, entries: map<int, IndexEntry>, accepts: (int, string, Record) -> bool,
                items: seq<Json>, now: string)
    requires items != []
    ensures Run(t, entries, accepts, items, now).created
      == Step(t, entries, accepts, items[0], now).created
         + Run(Step(t, entries, accepts, items[0], now).table, Step(t, entries, accepts, items[0], now).entries, accepts, items[1..], now).created
    ensures Run(t, entries, accepts, items, now).table
      == Run(Step(t, entries, accepts, items[0], now).table, Step(t, entries, accepts, items[0], now).entries, accepts, items[1..], now).table
    ensures Run(t, entries, accepts, items, now).entries
      == Run(Step(t, entries, accepts, items[0], now).table, Step(t, entries, accepts, items[0], now).entries, accepts, items[1..], now).entries
  {
  }

  /** An item `create_item` refuses adds nothing to the prediction, and the next item gets the same id. */
  lemma ExpectedSkips(schema: Schema, items: seq<Json>, now: string, from: int, next: int)
    requires items != [] && Stored(schema, items[0], now, from).None? && next == from
    ensures Expected(schema, items, now, from) == Expected(schema, items[1..], now, next)
  {
  }

  /** An item `create_item` takes adds its row to the prediction, and the next item gets the next id. */
  lemma ExpectedTakes(schema: Schema, items: seq<Json>, now: string, from: int, next: int)
    requires items != [] && Stored(schema, items[0], now, from).Some? && next == from + 1
    ensures Expected(schema, items, now, from) == [Stored(schema, items[0], now, from).value] + Expected(schema, items[1..], now, next)
  {
  }

  /** `whole` and `all` are the same head followed by the same rest. */
  lemma Concatenated(whole: seq<Record>, head: seq<Record>, rest: seq<Record>,
                     all: seq<Record>, head': seq<Record>, tail: seq<Record>)
    requires whole == head + rest
    requires all == head' + tail
    requires head == head'
    ensures rest == tail ==> whole == all
  {
  }

  /** A run hands out one id per row it returns and keeps the schema. */
  lemma {:induction false} RunCountsIds(t: Table, entries: map<int, IndexEntry>,
                                        accepts: (int, string, Record) -> bool, items: seq<Json>, now: string)
    ensures var o := Run(t, entries, accepts, items, now);
      o.table.nextId == t.nextId + |o.created| && o.table.schema == t.schema
    decreases |items|
  {
    if items != [] {
      var s := Step(t, entries, accepts, items[0], now);
      StepAppendsCreatedRow(t, entries, accepts, items[0], now);
      RunCountsIds(s.table, s.entries, accepts, items[1..], now);
    }
  }

  /** Whether the index takes its writes changes neither the table nor the returned list. */
  lemma {:induction false} IndexFailuresHarmless(t: Table, e1: map<int, IndexEntry>, e2: map<int, IndexEntry>,
                                                 a1: (int, string, Record) -> bool, a2: (int, string, Record) -> bool,
                                                 items: seq<Json>, now: string)
    ensures Run(t, e1, a1, items, now).table == Run(t, e2, a2, items, now).table
    ensures Run(t, e1, a1, items, now).created == Run(t, e2, a2, items, now).created
    decreases |items|
  {
    if items != [] {
      var s1 := Step(t, e1, a1, items[0], now);
      var s2 := Step(t, e2, a2, items[0], now);
      assert s1.table == s2.table && s1.created == s2.created;
      IndexFailuresHarmless(s1.table, s1.entries, s2.entries, a1, a2, items[1..], now);
    }
  }

  /**
   * From `t` and `entries` to `t'` and `entries'` the table stays valid, existing rows
   * stay as they were, every new index entry sits under an id handed out in between
   * and carries the metadata of the row stored under it, and every other entry stays.
   */
  ghost predicate OnlyCreated(t: Table, entries: map<int, IndexEntry>, t': Table, entries': map<int, IndexEntry>) {
    && Valid(t') && t.nextId <= t'.nextId
    && (forall k :: k in t.rows ==> k in t'.rows && t'.rows[k] == t.rows[k])
    && (forall k :: k in entries' && k !in entries ==>
          t.nextId <= k < t'.nextId && k in t'.rows && entries'[k].metadata == RowMetadata(t'.rows[k]))
    && (forall k :: k in entries && !(t.nextId <= k < t'.nextId) ==> k in entries' && entries'[k] == entries[k])
  }

  /**
   * The index is written only under ids `create_item` has just handed out, with the
   * metadata of the row stored under that id; every other entry and every existing
   * row stays as it was.
   */
  lemma {:induction false} IndexHoldsOnlyCreatedRows(t: Table, entries: map<int, IndexEntry>,
                                                     accepts: (int, string, Record) -> bool, items: seq<Json>, now: string)
    requires Valid(t)
    ensures OnlyCreated(t, entries, Run(t, entries, accepts, items, now).table, Run(t, entries, accepts, items, now).entries)
    decreases |items|
  {
    if items != [] {
      var s := IndexedHead(t, entries, accepts, items, now);
      IndexHoldsOnlyCreatedRows(s.table, s.entries, accepts, items[1..], now);
    }
  }

  /** The first step keeps `OnlyCreated`, and so does the run once the rest of it does. */
  lemma IndexedHead(t: Table, entries: map<int, IndexEntry>, accepts: (int, string, Record) -> bool,
                    items: seq<Json>, now: string) returns (s: Outcome)
    requires items != [] && Valid(t)
    ensures s == Step(t, entries, accepts, items[0], now) && Valid(s.table)
    ensures OnlyCreated(s.table, s.entries, Run(s.table, s.entries, accepts, items[1..], now).table,
                        Run(s.table, s.entries, accepts, items[1..], now).entries)
      ==> OnlyCreated(t, entries, Run(t, entries, accepts, items, now).table, Run(t, entries, accepts, items, now).entries)
  {
    s := Step(t, entries, accepts, items[0], now);
    StepOnlyCreated(t, entries, accepts, items[0], now);
    RunCons(t, entries, accepts, items, now);
    OnlyCreatedTwice(t, entries, s.table, s.entries, Run(s.table, s.entries, accepts, items[1..], now).table,
                     Run(s.table, s.entries, accepts, items[1..], now).entries);
  }

  /** One step writes the index at most under the id it created, with that row's metadata. */
  lemma StepOnlyCreated(t: Table, entries: map<int, IndexEntry>, accepts: (int, string, Record) -> bool,
                        item: Json, now: string)
    requires Valid(t)
    ensures OnlyCreated(t, entries, Step(t, entries, accepts, item, now).table, Step(t, entries, accepts, item, now).entries)
  {
    CreatePreservesValid(t, item, now);
    if Create(t, item, now).1.Ok? {
      IndexedMetadataMatchesRow(t, item, now);
    }
  }

  /** `OnlyCreated` composes. */
  lemma OnlyCreatedTwice(t: Table, entries: map<int, IndexEntry>, mid: Table, midEntries: map<int, IndexEntry>,
                         t': Table, entries': map<int, IndexEntry>)
    requires OnlyCreated(t, entries, mid, midEntries)
    ensures OnlyCreated(mid, midEntries, t', entries') ==> OnlyCreated(t, entries, t', entries')
  {
  }

  class IntentProcessor {
    const db: Storage.Database
    const index: VectorStore

    constructor(db: Storage.Database, index: VectorStore)
      ensures this.db == db && this.index == index
    {
      this.db := db;
      this.index := index;
    }

    method ProcessItems(items: seq<Json>, now: string) returns (created: seq<Record>)
      requires db.Valid()
      modifies db, index
      ensures db.Valid()
      ensures Outcome(db.Model(), index.entries, created) == Run(old(db.Model()), old(index.entries), index.accepts, items, now)
    {
      ghost var t0, e0 := db.Model(), index.entries;
      created := [];
      var i := 0;
      while i < |items|
        invariant 0 <= i <= |items| && db.Valid()
        invariant Run(t0, e0, index.accepts, items, now) == Resumed(created, Run(db.Model(), index.entries, index.accepts, items[i..], now))
      {
        ghost var t, e := db.Model(), index.entries;
        RunUnfolds(t, e, index.accepts, items[i..], now, created);
        assert items[i..][0] == items[i] && items[i..][1..] == items[i + 1..];
        var got := ProcessItem(items[i], now);
        created := created + got;
        i := i + 1;
      }
    }

    /** The body of the loop for one item: the rows it adds to the returned list. */
    method ProcessItem(item: Json, now: string) returns (got: seq<Record>)
      requires db.Valid()
      modifies db, index
      ensures db.Valid()
      ensures Outcome(db.Model(), index.entries, got) == Step(old(db.Model()), old(index.entries), index.accepts, item, now)
    {
      ghost var t := db.Model();
      var r := db.CreateItem(item, now);
      got := [];
      if r.Ok? {
        CreatedShape(t, item, now);
        var id := r.value;
        var text, meta := SearchText(item.fields), Metadata(item.fields);
        var _ := index.AddItem(id, text, meta);
        var row := db.GetItemById(id);
        if row.Some? && Truthy(JObj(row.value)) {
          got := [row.value];
        }
      }
    }
  }
}
