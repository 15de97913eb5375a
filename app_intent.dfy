/**
 * `IntentProcessor.process_items` of backend/intent_processor.py, the processor the
 * HTTP layer uses: the same create, index write and read-back per item, with no
 * error handling, so the first failure ends the call and what was written before it
 * stays written.
 */
module AppIntent {
  import opened PyText
  import opened JsonValue
  import opened ItemStore
  import opened SemanticIndex
  import IntentProcessing
  import Storage

  /** The exception that ends the call. */
  datatype Failure =
    /** `create_item` raised. */
    | CreateFailed(error: DbError)
    /** `add_item` raised for the row just created under `id`. */
    | IndexRejected(id: int)

  /** Both stores after the call, and the list it returns or the exception it raises. */
  datatype Outcome = Outcome(table: Table, entries: map<int, IndexEntry>, result: Result<seq<Option<Record>>, Failure>)

  /** The indexed text: title, description and tags joined by spaces, with no guard on the description. */
  function SearchText(d: Record): string
    requires StoredShape(d)
  {
    Str(Get(d, "title", JStr(""))) + " " + Str(Get(d, "description", JStr(""))) + " "
      + Join(" ", JoinParts(Get(d, "tags", JArr([]))).value)
  }

  /** The indexed metadata: the type as it is, the priority defaulting to 'medium'. */
  function Metadata(d: Record): Record
    requires StoredShape(d)
  {
    map["type" := Get(d, "type", JNull), "priority" := Get(d, "priority", JStr("medium")),
        "tags" := JStr(Join(",", JoinParts(Get(d, "tags", JArr([]))).value))]
  }

  /** One iteration: both stores after it, and the row read back or the exception raised. */
  datatype StepOutcome = StepOutcome(table: Table, entries: map<int, IndexEntry>, result: Result<Option<Record>, Failure>)

  function Step(t: Table, entries: map<int, IndexEntry>, accepts: (int, string, Record) -> bool,
                item: Json, now: string): StepOutcome
  {
    var (t', r) := Create(t, item, now);
    if r.Err? then StepOutcome(t, entries, Err(CreateFailed(r.error)))
    else
      CreatedShape(t, item, now);
      var id, text, meta := r.value, SearchText(item.fields), Metadata(item.fields);
      if !accepts(id, text, meta) then StepOutcome(t', entries, Err(IndexRejected(id)))
      else StepOutcome(t', entries[id := IndexEntry(text, meta)], Ok(ById(t', id)))
  }

  /** `process_items(items)` on a table and an index whose writes `accepts` lets through. */
  function Run(t: Table, entries: map<int, IndexEntry>, accepts: (int, string, Record) -> bool,
               items: seq<Json>, now: string): Outcome
    decreases |items|
  {
    if items == [] then Outcome(t, entries, Ok([]))
    else
      var s := Step(t, entries, accepts, items[0], now);
      if s.result.Err? then Outcome(s.table, s.entries, Err(s.result.error))
      else Resumed([s.result.value], Run(s.table, s.entries, accepts, items[1..], now))
  }

  /** A run that had already collected `created` before it reached `o`. */
  function Resumed(created: seq<Option<Record>>, o: Outcome): Outcome {
    if o.result.Ok? then o.(result := Ok(created + o.result.value)) else o
  }

  class IntentProcessor {
    const db: Storage.Database
    const index: VectorStore

    constructor(db: Storage.Database, index: VectorStore)
      ensures this.db == db && this.index == index
    {
      this.db := db;
      this.index := index;
    }

    method ProcessItems(items: seq<Json>, now: string) returns (r: Result<seq<Option<Record>>, Failure>)
      requires db.Valid()
      modifies db, index
      ensures db.Valid()
      ensures Outcome(db.Model(), index.entries, r) == Run(old(db.Model()), old(index.entries), index.accepts, items, now)
    {
      ghost var t0, e0 := db.Model(), index.entries;
      var created: seq<Option<Record>> := [];
      var i := 0;
      ResumedNothing(Run(t0, e0, index.accepts, items, now));
      while i < |items|
        invariant 0 <= i <= |items| && db.Valid()
        invariant Run(t0, e0, index.accepts, items, now) == Resumed(created, Run(db.Model(), index.entries, index.accepts, items[i..], now))
      {
        assert items[i..][0] == items[i] && items[i..][1..] == items[i + 1..];
        ghost var t, e := db.Model(), index.entries;
        RunUnfolds(t, e, index.accepts, items[i..], now, created);
        var got := ProcessItem(items[i], now);
        ghost var s := Step(t, e, index.accepts, items[i], now);
        assert s == StepOutcome(db.Model(), index.entries, got);
        if got.Err? {
          assert Run(t0, e0, index.accepts, items, now) == Outcome(db.Model(), index.entries, Err(got.error));
          return Err(got.error);
        }
        created := created + [got.value];
        i := i + 1;
      }
      assert items[i..] == [] && created + [] == created;
      r := Ok(created);
    }

    /** The body of the loop for one item: the row read back, or the exception that ends the call. */
    method ProcessItem(item: Json, now: string) returns (r: Result<Option<Record>, Failure>)
      requires db.Valid()
      modifies db, index
      ensures db.Valid()
      ensures StepOutcome(db.Model(), index.entries, r) == Step(old(db.Model()), old(index.entries), index.accepts, item, now)
    {
      ghost var t := db.Model();
      var id := db.CreateItem(item, now);
      if id.Err? {
        return Err(CreateFailed(id.error));
      }
      CreatedShape(t, item, now);
      var text, meta := SearchText(item.fields), Metadata(item.fields);
      var added := index.AddItem(id.value, text, meta);
      if !added {
        return Err(IndexRejected(id.value));
      }
      var got := db.GetItemById(id.value);
      r := Ok(got);
    }
  }

  lemma RunUnfolds(t: Table, entries: map<int, IndexEntry>, accepts: (int, string, Record) -> bool,
                   items: seq<Json>, now: string, created: seq<Option<Record>>)
    requires items != []
    ensures var s := Step(t, entries, accepts, items[0], now);
      Resumed(created, Run(t, entries, accepts, items, now))
        == if s.result.Err? then Outcome(s.table, s.entries, Err(s.result.error))
           else Resumed(created + [s.result.value], Run(s.table, s.entries, accepts, items[1..], now))
  {
    var s := Step(t, entries, accepts, items[0], now);
    if s.result.Ok? {
      ResumedTwice(created, [s.result.value], Run(s.table, s.entries, accepts, items[1..], now));
    }
  }

  lemma ResumedTwice(a: seq<Option<Record>>, b: seq<Option<Record>>, o: Outcome)
    ensures Resumed(a, Resumed(b, o)) == Resumed(a + b, o)
  {
    if o.result.Ok? {
      assert a + (b + o.result.value) == (a + b) + o.result.value;
    }
  }

  lemma ResumedNothing(o: Outcome)
    ensures Resumed([], o) == o
  {
    if o.result.Ok? {
      assert [] + o.result.value == o.result.value;
    }
  }

  // ---------------------------------------------------------------- one item

  /** The two processors index the same metadata for every item `create_item` took. */
  lemma MetadataAgree(d: Record)
    requires StoredShape(d)
    ensures Metadata(d) == IntentProcessing.Metadata(d)
    ensures Metadata(d)["type"] == d["type"] && d["type"] in ItemTypes
  {
    IntentProcessing.TagPartsAreJoinParts(d);
  }

  /**
   * The search texts agree except where a description is present and falsy without
   * being '': there this processor indexes its text ("None", "False", "0") and the
   * guarded one indexes nothing.
   */
  lemma SearchTextsAgreeUnlessFalsyDescription(d: Record)
    requires StoredShape(d)
    ensures SearchText(d) == IntentProcessing.SearchText(d) <==>
      !("description" in d && !Truthy(d["description"]) && d["description"] != JStr(""))
  {
    IntentProcessing.TagPartsAreJoinParts(d);
    var desc := Get(d, "description", JStr(""));
    if !Truthy(desc) && desc != JStr("") {
      assert |Str(desc)| > 0;
      assert |SearchText(d)| > |IntentProcessing.SearchText(d)|;
    }
  }

  /** A description of None: this processor indexes "None", the guarded one leaves the slot empty. */
  lemma NoneDescriptionIndexed()
    ensures var d := map["type" := JStr("task"), "title" := JStr("Call"), "description" := JNull];
      StoredShape(d) && SearchText(d) == "Call None " && IntentProcessing.SearchText(d) == "Call  "
  {
    var d := map["type" := JStr("task"), "title" := JStr("Call"), "description" := JNull];
    assert JoinParts(Get(d, "tags", JArr([]))) == Ok([]);
  }

  // ---------------------------------------------------------------- whole runs

  /** An iteration that did not raise created its item under the next id, indexed it, and read its row back. */
  lemma StepReturned(t: Table, entries: map<int, IndexEntry>, accepts: (int, string, Record) -> bool, item: Json, now: string)
    requires Step(t, entries, accepts, item, now).result.Ok?
    ensures var s := Step(t, entries, accepts, item, now);
      && NewRow(t.schema, item, now).Ok? && Accepts(t.schema, item)
      && s.result.value == Some(AsRecord(NewRow(t.schema, item, now).value.(id := t.nextId)))
      && s.table.nextId == t.nextId + 1 && s.table.schema == t.schema
      && s.entries.Keys == entries.Keys + {t.nextId}
  {
    NewRowOkIffAccepts(t.schema, item, now);
  }

  /** A call that returned returned from its first iteration and from the rest. */
  lemma RunReturned(t: Table, entries: map<int, IndexEntry>, accepts: (int, string, Record) -> bool, items: seq<Json>, now: string)
    requires items != [] && Run(t, entries, accepts, items, now).result.Ok?
    ensures var s := Step(t, entries, accepts, items[0], now); var rest := Run(s.table, s.entries, accepts, items[1..], now);
      && s.result.Ok? && rest.result.Ok?
      && Run(t, entries, accepts, items, now) == Outcome(rest.table, rest.entries, Ok([s.result.value] + rest.result.value))
  {
  }

  /** A call that returns was given only items `create_item` takes. */
  lemma {:induction false} ReturnedRunAcceptedAll(t: Table, entries: map<int, IndexEntry>,
                                                  accepts: (int, string, Record) -> bool, items: seq<Json>, now: string)
    requires Run(t, entries, accepts, items, now).result.Ok?
    ensures forall j :: 0 <= j < |items| ==> Accepts(t.schema, items[j])
    decreases |items|
  {
    if items != [] {
      var s := Step(t, entries, accepts, items[0], now);
      RunReturned(t, entries, accepts, items, now);
      StepReturned(t, entries, accepts, items[0], now);
      ReturnedRunAcceptedAll(s.table, s.entries, accepts, items[1..], now);
      forall j | 0 <= j < |items| ensures Accepts(t.schema, items[j]) {
        if j > 0 {
          assert items[j] == items[1..][j - 1];
        }
      }
    }
  }

  /** A call that returns has created one row per item and returned one entry per item. */
  lemma {:induction false} ReturnedRunLength(t: Table, entries: map<int, IndexEntry>,
                                             accepts: (int, string, Record) -> bool, items: seq<Json>, now: string)
    requires Run(t, entries, accepts, items, now).result.Ok?
    ensures var o := Run(t, entries, accepts, items, now);
      |o.result.value| == |items| && o.table.nextId == t.nextId + |items|
    decreases |items|
  {
    if items != [] {
      var s := Step(t, entries, accepts, items[0], now);
      RunReturned(t, entries, accepts, items, now);
      StepReturned(t, entries, accepts, items[0], now);
      ReturnedRunLength(s.table, s.entries, accepts, items[1..], now);
    }
  }

  /** Every record of a list, wrapped as Some. */
  function Somes(records: seq<Record>): (r: seq<Option<Record>>)
    ensures |r| == |records|
    decreases |records|
  {
    if records == [] then [] else [Some(records[0])] + Somes(records[1..])
  }

  /**
   * A call that returns has created every item, in order: each entry of the list is
   * the row read back under the consecutive ids `create_item` handed out, never None.
   */
  lemma ReturnedRunCreatedAll(t: Table, entries: map<int, IndexEntry>,
                              accepts: (int, string, Record) -> bool, items: seq<Json>, now: string)
    requires Run(t, entries, accepts, items, now).result.Ok?
    ensures Run(t, entries, accepts, items, now).result.value == Somes(IntentProcessing.Expected(t.schema, items, now, t.nextId))
  {
    CreatedFrom(t, entries, accepts, items, now, t.schema, t.nextId);
  }

  /** ReturnedRunCreatedAll, with the schema and the first id named so that the induction matches. */
  lemma {:induction false} CreatedFrom(t: Table, entries: map<int, IndexEntry>, accepts: (int, string, Record) -> bool,
                                       items: seq<Json>, now: string, schema: Schema, from: int)
    requires t.schema == schema && t.nextId == from && Run(t, entries, accepts, items, now).result.Ok?
    ensures Run(t, entries, accepts, items, now).result.value == Somes(IntentProcessing.Expected(schema, items, now, from))
    decreases |items|
  {
    if items != [] {
      ReturnedHead(t, entries, accepts, items, now, schema, from);
      var s := Step(t, entries, accepts, items[0], now);
      CreatedFrom(s.table, s.entries, accepts, items[1..], now, schema, from + 1);
      IntentProcessing.ExpectedTakes(schema, items, now, from, from + 1);
      ListedInOrder(Run(t, entries, accepts, items, now).result.value, Stored(schema, items[0], now, from),
        Run(s.table, s.entries, accepts, items[1..], now).result.value,
        IntentProcessing.Expected(schema, items, now, from), IntentProcessing.Expected(schema, items[1..], now, from + 1));
    }
  }

  lemma ListedInOrder(listed: seq<Option<Record>>, first: Option<Record>, rest: seq<Option<Record>>,
                      expected: seq<Record>, tail: seq<Record>)
    ensures first.Some? && listed == [first] + rest && rest == Somes(tail) && expected == [first.value] + tail ==>
      listed == Somes(expected)
  {
    if first.Some? {
      SomesCons(first.value, tail);
    }
  }

  /** The first entry a returning call lists is the first item's row. */
  lemma ReturnedHead(t: Table, entries: map<int, IndexEntry>, accepts: (int, string, Record) -> bool, items: seq<Json>, now: string,
                     schema: Schema, from: int)
    requires t.schema == schema && t.nextId == from
    requires items != [] && Run(t, entries, accepts, items, now).result.Ok?
    ensures var s := Step(t, entries, accepts, items[0], now); var stored := Stored(schema, items[0], now, from);
      && stored.Some? && s.table.nextId == from + 1 && s.table.schema == schema
      && Run(t, entries, accepts, items, now).result.value == [stored] + Run(s.table, s.entries, accepts, items[1..], now).result.value
  {
    RunReturned(t, entries, accepts, items, now);
    CreateReadsBackStored(t, items[0], now);
  }

  lemma SomesCons(head: Record, tail: seq<Record>)
    ensures Somes([head] + tail) == [Some(head)] + Somes(tail)
  {
    assert ([head] + tail)[1..] == tail;
  }

  /** A call that returns has indexed every row it created, and dropped no entry. */
  lemma {:induction false} ReturnedRunIndexedAll(t: Table, entries: map<int, IndexEntry>,
                                                 accepts: (int, string, Record) -> bool, items: seq<Json>, now: string)
    requires Run(t, entries, accepts, items, now).result.Ok?
    ensures var o := Run(t, entries, accepts, items, now);
      && entries.Keys <= o.entries.Keys && t.nextId <= o.table.nextId
      && (forall id :: t.nextId <= id < o.table.nextId ==> id in o.entries)
    decreases |items|
  {
    if items != [] {
      var s := Step(t, entries, accepts, items[0], now);
      RunReturned(t, entries, accepts, items, now);
      StepReturned(t, entries, accepts, items[0], now);
      ReturnedRunIndexedAll(s.table, s.entries, accepts, items[1..], now);
    }
  }

  /**
   * Running on `a + b` is running on `a` and then, if that returned, on `b` from where
   * it stopped: a failure in `b` keeps everything `a` wrote.
   */
  lemma {:induction false} RunAppends(t: Table, entries: map<int, IndexEntry>, accepts: (int, string, Record) -> bool,
                                      a: seq<Json>, b: seq<Json>, now: string)
    ensures var first := Run(t, entries, accepts, a, now);
      Run(t, entries, accepts, a + b, now)
        == if first.result.Err? then first
           else Resumed(first.result.value, Run(first.table, first.entries, accepts, b, now))
    decreases |a|
  {
    if a == [] {
      assert a + b == b;
      ResumedNothing(Run(t, entries, accepts, b, now));
    } else {
      assert (a + b)[0] == a[0] && (a + b)[1..] == a[1..] + b;
      var s := Step(t, entries, accepts, a[0], now);
      if s.result.Ok? {
        RunAppends(s.table, s.entries, accepts, a[1..], b, now);
        var first := Run(s.table, s.entries, accepts, a[1..], now);
        if first.result.Ok? {
          ResumedTwice([s.result.value], first.result.value, Run(first.table, first.entries, accepts, b, now));
        }
      }
    }
  }

  /** An `add_item` failure raises with the new row already in the table and missing from the index. */
  lemma IndexFailureLeavesRow(t: Table, entries: map<int, IndexEntry>, accepts: (int, string, Record) -> bool,
                              item: Json, now: string)
    requires Valid(t)
    ensures var o := Run(t, entries, accepts, [item], now);
      o.result.Err? && o.result.error.IndexRejected? ==>
        var id := o.result.error.id;
        id == t.nextId && id in o.table.rows && id !in t.rows && o.entries == entries
  {
    var s := Step(t, entries, accepts, item, now);
    assert [item][0] == item;
  }

  /** Without failures both processors store the same rows and return the same records, here wrapped as Some. */
  lemma {:induction false} AgreesWithGuardedWithoutFailures(t: Table, e1: map<int, IndexEntry>, e2: map<int, IndexEntry>,
                                                            accepts: (int, string, Record) -> bool,
                                                            guardedAccepts: (int, string, Record) -> bool,
                                                            items: seq<Json>, now: string)
    requires forall j :: 0 <= j < |items| ==> Accepts(t.schema, items[j])
    requires forall id, text, meta :: accepts(id, text, meta)
    ensures Agree(Run(t, e1, accepts, items, now), IntentProcessing.Run(t, e2, guardedAccepts, items, now))
    decreases |items|
  {
    if items != [] {
      var s, gs := AgreeHead(t, e1, e2, accepts, guardedAccepts, items, now);
      AgreesWithGuardedWithoutFailures(s.table, s.entries, gs.entries, accepts, guardedAccepts, items[1..], now);
    }
  }

  /** This processor returned and agrees with the guarded one: the same table, and the guarded records wrapped as Some. */
  predicate Agree(o: Outcome, g: IntentProcessing.Outcome) {
    o.result.Ok? && o.table == g.table && o.result.value == Somes(g.created)
  }

  /** The first accepted item is stored alike by both, and agreement on the rest carries over to the whole run. */
  lemma AgreeHead(t: Table, e1: map<int, IndexEntry>, e2: map<int, IndexEntry>,
                  accepts: (int, string, Record) -> bool, guardedAccepts: (int, string, Record) -> bool,
                  items: seq<Json>, now: string) returns (s: StepOutcome, gs: IntentProcessing.Outcome)
    requires items != [] && forall j :: 0 <= j < |items| ==> Accepts(t.schema, items[j])
    requires forall id, text, meta :: accepts(id, text, meta)
    ensures s == Step(t, e1, accepts, items[0], now) && gs == IntentProcessing.Step(t, e2, guardedAccepts, items[0], now)
    ensures forall j :: 0 <= j < |items[1..]| ==> Accepts(s.table.schema, items[1..][j])
    ensures Agree(Run(s.table, s.entries, accepts, items[1..], now), IntentProcessing.Run(s.table, gs.entries, guardedAccepts, items[1..], now))
      ==> Agree(Run(t, e1, accepts, items, now), IntentProcessing.Run(t, e2, guardedAccepts, items, now))
  {
    s := Step(t, e1, accepts, items[0], now);
    gs := IntentProcessing.Step(t, e2, guardedAccepts, items[0], now);
    StepsAgree(t, e1, e2, accepts, guardedAccepts, items[0], now);
    forall j | 0 <= j < |items[1..]| ensures Accepts(s.table.schema, items[1..][j]) {
      assert items[1..][j] == items[j + 1];
    }
    var rest := Run(s.table, s.entries, accepts, items[1..], now);
    var grest := IntentProcessing.Run(s.table, gs.entries, guardedAccepts, items[1..], now);
    if Agree(rest, grest) {
      SomesCons(gs.created[0], grest.created);
      assert [gs.created[0]] + grest.created == gs.created + grest.created;
    }
  }

  /** One accepted item, indexed without failure, is the guarded processor's step. */
  lemma StepsAgree(t: Table, e1: map<int, IndexEntry>, e2: map<int, IndexEntry>, accepts: (int, string, Record) -> bool,
                   guardedAccepts: (int, string, Record) -> bool, item: Json, now: string)
    requires Accepts(t.schema, item) && forall id, text, meta :: accepts(id, text, meta)
    ensures var s := Step(t, e1, accepts, item, now); var gs := IntentProcessing.Step(t, e2, guardedAccepts, item, now);
      s.table == gs.table && |gs.created| == 1 && s.result == Ok(Some(gs.created[0]))
  {
    NewRowOkIffAccepts(t.schema, item, now);
    IntentProcessing.StepAppendsCreatedRow(t, e2, guardedAccepts, item, now);
  }

  /** An item `create_item` refuses ends this call with nothing written, while the guarded processor skips it and goes on. */
  lemma RefusedItemContrast(t: Table, e: map<int, IndexEntry>, accepts: (int, string, Record) -> bool,
                            items: seq<Json>, now: string)
    requires items != [] && !Accepts(t.schema, items[0])
    ensures Run(t, e, accepts, items, now).result.Err? && Run(t, e, accepts, items, now).result.error.CreateFailed?
    ensures Run(t, e, accepts, items, now).table == t && Run(t, e, accepts, items, now).entries == e
    ensures IntentProcessing.Run(t, e, accepts, items, now) == IntentProcessing.Run(t, e, accepts, items[1..], now)
  {
    NewRowOkIffAccepts(t.schema, items[0], now);
    IntentProcessing.RefusedItemSkipped(t, e, accepts, items, now);
  }
}
