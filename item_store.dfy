/**
 * The `items` table of backend/database.py as a value: its columns and constraints,
 * what an INSERT or UPDATE stores, and which rows each read selects in which order.
 * The class in database.dfy keeps one of these tables and is proved against it.
 *
 * SQLite details the model keeps: AUTOINCREMENT never hands out an id twice and a
 * failed INSERT does not use one up; TEXT affinity stores a bound int or bool as its
 * decimal text; the BOOLEAN column stores a bool as 0 or 1; NOT NULL and CHECK
 * constraints (a NULL passes a CHECK); a list or dict cannot be bound; text compares
 * by code point (the BINARY collation).
 */
module ItemStore {
  import opened PyText
  import opened JsonValue
  import Utils

  /**
   * `AsWritten` is the schema and INSERT of backend/database.py.  `WithSourceColumns`
   * adds the `source` and `external_id` columns: the INSERT fills them and the
   * external-id lookup queries them.
   */
  datatype Schema = AsWritten | WithSourceColumns

  function Columns(schema: Schema): set<string> {
    var base := {"id", "type", "title", "description", "datetime", "priority", "tags", "completed", "created_at", "updated_at"};
    if schema == AsWritten then base else base + {"source", "external_id"}
  }

  const ItemTypes: set<Json> := {JStr("task"), JStr("note"), JStr("reminder")}
  const Priorities: set<Json> := {JStr("low"), JStr("medium"), JStr("high")}

  /** Why an operation on the table raises. */
  datatype DbError =
    /** AttributeError: `item_data.get` on something that is not a dict. */
    | NotADict(typeName: string)
    /** TypeError from `','.join(item_data.get('tags', []))`. */
    | CannotJoin(reason: JoinError)
    /** sqlite3 cannot bind a list or dict parameter. */
    | Unbindable
    /** IntegrityError: a NOT NULL or CHECK constraint fails. */
    | ConstraintFailed
    /** OperationalError: `update_item` names a column the table lacks. */
    | NoSuchColumn

  /** What a TEXT column stores for a bound scalar. */
  function AsText(v: Json): (r: Json)
    requires IsScalar(v)
    ensures r.JNull? || r.JStr?
    ensures v.JNull? <==> r.JNull?
    ensures v.JStr? ==> r == v
  {
    match v
    case JBool(b) => JStr(if b then "1" else "0")
    case JNum(n) => JStr(Decimal(n))
    case _ => v
  }

  /** What the BOOLEAN (numeric) column stores for a bound scalar. */
  function AsNumeric(v: Json): (r: Json)
    requires IsScalar(v)
    ensures IsScalar(r) && !r.JBool?
    ensures !v.JBool? ==> r == v
  {
    match v
    case JBool(b) => JNum(if b then 1 else 0)
    case _ => v
  }

  /** A stored row, one field per column; `source` and `externalId` are present only with the source columns. */
  datatype Row = Row(
    id: int,
    itemType: Json, title: Json, description: Json, datetime: Json, priority: Json,
    tags: Json, completed: Json, createdAt: Json, updatedAt: Json,
    source: Option<Json>, externalId: Option<Json>)

  /** `dict(row)` for a fetched row. */
  function AsRecord(row: Row): (r: Record)
    ensures "id" in r && r["id"] == JNum(row.id) && r != map[]
  {
    var base := map[
      "id" := JNum(row.id), "type" := row.itemType, "title" := row.title,
      "description" := row.description, "datetime" := row.datetime, "priority" := row.priority,
      "tags" := row.tags, "completed" := row.completed,
      "created_at" := row.createdAt, "updated_at" := row.updatedAt];
    var withSource := if row.source.Some? then base["source" := row.source.value] else base;
    if row.externalId.Some? then withSource["external_id" := row.externalId.value] else withSource
  }

  /** The NOT NULL and CHECK constraints of the CREATE TABLE statement. */
  predicate MeetsConstraints(row: Row) {
    row.itemType in ItemTypes
    && !row.title.JNull?
    && (row.priority.JNull? || row.priority in Priorities)
    && !row.createdAt.JNull? && !row.updatedAt.JNull?
  }

  predicate TextOrNull(v: Json) {
    v.JNull? || v.JStr?
  }

  /** A stored row of a schema: its constraints and the affinity of every column. */
  predicate WellFormedRow(schema: Schema, row: Row) {
    MeetsConstraints(row)
    && TextOrNull(row.itemType) && TextOrNull(row.title) && TextOrNull(row.description)
    && TextOrNull(row.datetime) && TextOrNull(row.priority) && TextOrNull(row.tags)
    && TextOrNull(row.createdAt) && TextOrNull(row.updatedAt)
    && IsScalar(row.completed) && !row.completed.JBool?
    && (row.source.Some? <==> schema == WithSourceColumns)
    && (row.externalId.Some? <==> schema == WithSourceColumns)
    && (row.source.Some? ==> TextOrNull(row.source.value))
    && (row.externalId.Some? ==> TextOrNull(row.externalId.value))
  }

  /** The table: rows by id, and the next AUTOINCREMENT value (one above every id ever used). */
  datatype Table = Table(schema: Schema, rows: map<int, Row>, nextId: int)

  ghost predicate Valid(t: Table) {
    t.nextId >= 1
    && forall id :: id in t.rows ==> 1 <= id < t.nextId && t.rows[id].id == id && WellFormedRow(t.schema, t.rows[id])
  }

  function Empty(schema: Schema): (t: Table)
    ensures Valid(t) && t.rows == map[] && t.schema == schema
  {
    Table(schema, map[], 1)
  }

  // ---------------------------------------------------------------- create_item

  /** The dict keys whose values `create_item` binds as they are. */
  function BoundKeys(schema: Schema): seq<string> {
    ["type", "title", "description", "datetime", "priority", "completed"]
    + (if schema == AsWritten then [] else ["source", "external_id"])
  }

  predicate ScalarIfPresent(d: Record, k: string) {
    k !in d || IsScalar(d[k])
  }

  /** The row an INSERT of `item` stores (its id still 0), or why `create_item` raises. */
  function NewRow(schema: Schema, item: Json, now: string): (r: Result<Row, DbError>)
    ensures r.Ok? ==> WellFormedRow(schema, r.value)
    ensures r.Ok? ==> r.value.createdAt == r.value.updatedAt == JStr(now)
  {
    if !item.JObj? then Err(NotADict(TypeName(item)))
    else
      var d := item.fields;
      match JoinWith(",", Get(d, "tags", JArr([])))
      case Err(e) => Err(CannotJoin(e))
      case Ok(tags) =>
        var ty, title, desc, dt, pr, done :=
          Get(d, "type", JNull), Get(d, "title", JNull), Get(d, "description", JNull),
          Get(d, "datetime", JNull), Get(d, "priority", JStr("medium")), Get(d, "completed", JBool(false));
        var src, ext := Get(d, "source", JStr("manual")), Get(d, "external_id", JNull);
        var extraBound := schema == AsWritten || (IsScalar(src) && IsScalar(ext));
        if !(IsScalar(ty) && IsScalar(title) && IsScalar(desc) && IsScalar(dt) && IsScalar(pr) && IsScalar(done) && extraBound) then
          Err(Unbindable)
        else
          var srcCol := if schema == AsWritten then None else Some(AsText(src));
          var extCol := if schema == AsWritten then None else Some(AsText(ext));
          var row := Row(0, AsText(ty), AsText(title), AsText(desc), AsText(dt), AsText(pr),
            JStr(tags), AsNumeric(done), JStr(now), JStr(now), srcCol, extCol);
          if MeetsConstraints(row) then Ok(row) else Err(ConstraintFailed)
  }

  /** `create_item(item)`: the new table and the id it returns. */
  function Create(t: Table, item: Json, now: string): (r: (Table, Result<int, DbError>))
    ensures r.1.Err? ==> r.0 == t
    ensures r.1.Ok? ==> r.1.value == t.nextId && r.0.nextId == t.nextId + 1 && r.0.schema == t.schema
    ensures r.1.Ok? ==> r.0.rows.Keys == t.rows.Keys + {t.nextId}
    ensures r.1.Ok? ==> forall k :: k in t.rows && k != t.nextId ==> r.0.rows[k] == t.rows[k]
  {
    match NewRow(t.schema, item, now)
    case Err(e) => (t, Err(e))
    case Ok(row) => (t.(rows := t.rows[t.nextId := row.(id := t.nextId)], nextId := t.nextId + 1), Ok(t.nextId))
  }

  /**
   * What `create_item` accepts, stated on the input dict: a dict whose tags join,
   * whose bound values are all scalars, whose type is one of the three item types,
   * whose title is present and not None, and whose priority, when given, is None or
   * one of the three priorities.
   */
  ghost predicate Accepts(schema: Schema, item: Json) {
    item.JObj?
    && var d := item.fields;
    JoinWith(",", Get(d, "tags", JArr([]))).Ok?
    && (forall k :: k in BoundKeys(schema) ==> ScalarIfPresent(d, k))
    && "type" in d && d["type"] in ItemTypes
    && "title" in d && !d["title"].JNull?
    && ("priority" in d ==> d["priority"].JNull? || d["priority"] in Priorities)
  }

  /** Text stored from a number or a bool is never an item type or a priority. */
  lemma AsTextOfNonString(v: Json)
    requires IsScalar(v) && !v.JStr? && !v.JNull?
    ensures AsText(v) !in ItemTypes && AsText(v) !in Priorities
  {
    var s := AsText(v).s;
    assert s[0] == '-' || '0' <= s[0] <= '9';
  }

  /** Every bound key may hold a scalar only, and nothing else is bound as it is. */
  lemma BoundKeysScalar(schema: Schema, d: Record)
    ensures (forall k :: k in BoundKeys(schema) ==> ScalarIfPresent(d, k)) <==>
      ScalarIfPresent(d, "type") && ScalarIfPresent(d, "title") && ScalarIfPresent(d, "description")
      && ScalarIfPresent(d, "datetime") && ScalarIfPresent(d, "priority") && ScalarIfPresent(d, "completed")
      && (schema == WithSourceColumns ==> ScalarIfPresent(d, "source") && ScalarIfPresent(d, "external_id"))
  {
    var keys := BoundKeys(schema);
    assert keys[0] == "type" && keys[1] == "title" && keys[2] == "description";
    assert keys[3] == "datetime" && keys[4] == "priority" && keys[5] == "completed";
    if schema == WithSourceColumns {
      assert keys[6] == "source" && keys[7] == "external_id";
    }
  }

  lemma NewRowOkIffAccepts(schema: Schema, item: Json, now: string)
    ensures NewRow(schema, item, now).Ok? <==> Accepts(schema, item)
  {
    if item.JObj? {
      var d := item.fields;
      BoundKeysScalar(schema, d);
      if "type" in d && IsScalar(d["type"]) && !d["type"].JStr? && !d["type"].JNull? {
        AsTextOfNonString(d["type"]);
      }
      if "priority" in d && IsScalar(d["priority"]) && !d["priority"].JStr? && !d["priority"].JNull? {
        AsTextOfNonString(d["priority"]);
      }
    }
  }

  /** The defaults `create_item` supplies, and what it stores for given values. */
  lemma CreateDefaults(schema: Schema, d: Record, now: string)
    requires NewRow(schema, JObj(d), now).Ok?
    ensures var row := NewRow(schema, JObj(d), now).value;
      && ("priority" !in d ==> row.priority == JStr("medium"))
      && ("completed" !in d ==> row.completed == JNum(0))
      && ("tags" !in d ==> row.tags == JStr(""))
      && ("tags" in d ==> JoinParts(d["tags"]).Ok? && row.tags == JStr(Join(",", JoinParts(d["tags"]).value)))
      && row.itemType == d["type"]
      && row.createdAt == row.updatedAt == JStr(now)
  {
    if "tags" !in d {
      assert JoinParts(JArr([])) == Ok([]);
    }
  }

  /** `create_item` never stores the draft's `source` or `external_id` (backend/database.py:47). */
  lemma CreateDropsSourceAndExternalId(t: Table, item: Json, now: string)
    requires t.schema == AsWritten && Create(t, item, now).1.Ok?
    ensures var row := AsRecord(Create(t, item, now).0.rows[t.nextId]);
      "source" !in row && "external_id" !in row
  {
  }

  /** What a successful create tells about its input dict: a title and a type, scalar fields, and tags that join. */
  predicate StoredShape(d: Record) {
    "type" in d && d["type"] in ItemTypes
    && "title" in d && IsScalar(d["title"]) && !d["title"].JNull?
    && ("description" in d ==> IsScalar(d["description"]))
    && ("priority" in d ==> IsScalar(d["priority"]))
    && JoinParts(Get(d, "tags", JArr([]))).Ok?
  }

  lemma CreatedShape(t: Table, item: Json, now: string)
    requires Create(t, item, now).1.Ok?
    ensures item.JObj? && StoredShape(item.fields)
  {
    NewRowOkIffAccepts(t.schema, item, now);
    BoundKeysScalar(t.schema, item.fields);
  }

  /** A created row is valid, takes a fresh id no row ever had, and leaves every other row alone. */
  lemma CreatePreservesValid(t: Table, item: Json, now: string)
    requires Valid(t)
    ensures Valid(Create(t, item, now).0)
    ensures Create(t, item, now).1.Ok? ==> forall k :: k in t.rows ==> k < Create(t, item, now).1.value
  {
  }

  // ---------------------------------------------------------------- reads by id

  /** `get_item_by_id(id)` */
  function ById(t: Table, id: int): Option<Record> {
    if id in t.rows then Some(AsRecord(t.rows[id])) else None
  }

  /** What `get_item_by_id(id)` reads back after `item` was inserted under `id`: None when `create_item` refuses it. */
  function Stored(schema: Schema, item: Json, now: string, id: int): Option<Record> {
    match NewRow(schema, item, now)
    case Err(_) => None
    case Ok(row) => Some(AsRecord(row.(id := id)))
  }

  /** A create reads back as `Stored` under the id it returned. */
  lemma CreateReadsBackStored(t: Table, item: Json, now: string)
    ensures Create(t, item, now).1.Ok? <==> Stored(t.schema, item, now, t.nextId).Some?
    ensures Create(t, item, now).1.Ok? ==> ById(Create(t, item, now).0, t.nextId) == Stored(t.schema, item, now, t.nextId)
  {
  }

  /** After a successful create, reading its id back gives the new row, and every older row reads as before. */
  lemma CreateThenGet(t: Table, item: Json, now: string)
    requires Valid(t) && Create(t, item, now).1.Ok?
    ensures var (t', id) := (Create(t, item, now).0, Create(t, item, now).1.value);
      ById(t, id).None?
      && ById(t', id).Some? && ById(t', id).value["id"] == JNum(id)
      && ById(t', id).value["created_at"] == JStr(now)
      && forall k :: k != id ==> ById(t', k) == ById(t, k)
  {
  }

  // ---------------------------------------------------------------- update_item and delete_item

  /** The dict `update_item` leaves in the caller's `updates`, which is also its SET clause. */
  function Patch(updates: Record, now: string): Record {
    updates["updated_at" := JStr(now)]
  }

  /** `row[column]`, or None for a column the row does not have. */
  function Column(row: Row, c: string): Option<Json> {
    if c == "id" then Some(JNum(row.id))
    else if c == "type" then Some(row.itemType)
    else if c == "title" then Some(row.title)
    else if c == "description" then Some(row.description)
    else if c == "datetime" then Some(row.datetime)
    else if c == "priority" then Some(row.priority)
    else if c == "tags" then Some(row.tags)
    else if c == "completed" then Some(row.completed)
    else if c == "created_at" then Some(row.createdAt)
    else if c == "updated_at" then Some(row.updatedAt)
    else if c == "source" then row.source
    else if c == "external_id" then row.externalId
    else None
  }

  /** A TEXT column after the SET clause. */
  function SetText(patch: Record, c: string, current: Json): Json
    requires c in patch ==> IsScalar(patch[c])
  {
    if c in patch then AsText(patch[c]) else current
  }

  function SetOptionalText(patch: Record, c: string, current: Option<Json>): Option<Json>
    requires c in patch ==> IsScalar(patch[c])
  {
    if c in patch && current.Some? then Some(AsText(patch[c])) else current
  }

  /** The row after `UPDATE items SET <patch>`: every patched column takes the stored form of its value. */
  function Patched(row: Row, patch: Record): (r: Row)
    requires forall k :: k in patch ==> IsScalar(patch[k])
    ensures r.id == row.id
    ensures r.source.Some? == row.source.Some? && r.externalId.Some? == row.externalId.Some?
  {
    Row(row.id,
      SetText(patch, "type", row.itemType), SetText(patch, "title", row.title),
      SetText(patch, "description", row.description), SetText(patch, "datetime", row.datetime),
      SetText(patch, "priority", row.priority), SetText(patch, "tags", row.tags),
      if "completed" in patch then AsNumeric(patch["completed"]) else row.completed,
      SetText(patch, "created_at", row.createdAt), SetText(patch, "updated_at", row.updatedAt),
      SetOptionalText(patch, "source", row.source), SetOptionalText(patch, "external_id", row.externalId))
  }

  /** `update_item(id, updates)`: the new table and the returned flag, or why it raises. */
  function Update(t: Table, id: int, updates: Record, now: string): (r: (Table, Result<bool, DbError>))
    requires "id" !in updates
    ensures r.1 != Ok(true) ==> r.0 == t
    ensures r.1.Ok? ==> (r.1.value <==> id in t.rows)
    ensures r.1 == Ok(true) ==> r.0.schema == t.schema && r.0.nextId == t.nextId && r.0.rows.Keys == t.rows.Keys
    ensures r.1 == Ok(true) ==> forall k :: k in t.rows && k != id ==> r.0.rows[k] == t.rows[k]
    ensures r.1 == Ok(true) ==> r.0.rows[id].updatedAt == JStr(now)
  {
    var patch := Patch(updates, now);
    if exists k :: k in patch && k !in Columns(t.schema) then (t, Err(NoSuchColumn))
    else if exists k :: k in patch && !IsScalar(patch[k]) then (t, Err(Unbindable))
    else if id !in t.rows then (t, Ok(false))
    else
      var row := Patched(t.rows[id], patch);
      if MeetsConstraints(row) then (t.(rows := t.rows[id := row]), Ok(true))
      else (t, Err(ConstraintFailed))
  }

  /** An update that names only existing columns and scalar values reports exactly whether the row exists. */
  lemma UpdateReportsExistence(t: Table, id: int, updates: Record, now: string)
    requires "id" !in updates
    requires updates.Keys <= Columns(t.schema) && forall k :: k in updates ==> IsScalar(updates[k])
    ensures id !in t.rows ==> Update(t, id, updates, now) == (t, Ok(false))
    ensures id in t.rows ==> Update(t, id, updates, now).1 != Ok(false)
  {
    var patch := Patch(updates, now);
    assert forall k :: k in patch ==> k in Columns(t.schema);
    assert forall k :: k in patch ==> IsScalar(patch[k]);
  }

  /** A successful update changes exactly the patched columns of its row: the rest read as before. */
  lemma UpdateChangesOnlyPatched(t: Table, id: int, updates: Record, now: string, c: string)
    requires Valid(t) && "id" !in updates && Update(t, id, updates, now).1 == Ok(true)
    requires c in Columns(t.schema)
    ensures c in updates && c != "updated_at" ==>
      IsScalar(updates[c]) && Column(Update(t, id, updates, now).0.rows[id], c) ==
        Some(if c == "completed" then AsNumeric(updates[c]) else AsText(updates[c]))
    ensures c !in updates && c != "updated_at" ==>
      Column(Update(t, id, updates, now).0.rows[id], c) == Column(t.rows[id], c)
  {
    var patch := Patch(updates, now);
    assert forall k :: k in patch ==> IsScalar(patch[k]);
    assert Update(t, id, updates, now).0.rows[id] == Patched(t.rows[id], patch);
    assert Column(t.rows[id], c).Some?;
    PatchedColumn(t.rows[id], patch, c);
  }

  /** A column of the patched row: the stored form of the patched value, or the old value. */
  lemma PatchedColumn(row: Row, patch: Record, c: string)
    requires forall k :: k in patch ==> IsScalar(patch[k])
    ensures c in patch && c != "id" && Column(row, c).Some? ==>
      Column(Patched(row, patch), c) == Some(if c == "completed" then AsNumeric(patch[c]) else AsText(patch[c]))
    ensures c !in patch ==> Column(Patched(row, patch), c) == Column(row, c)
  {
  }

  lemma UpdatePreservesValid(t: Table, id: int, updates: Record, now: string)
    requires Valid(t) && "id" !in updates
    ensures Valid(Update(t, id, updates, now).0)
  {
  }

  /** `delete_item(id)` */
  function Delete(t: Table, id: int): (r: (Table, bool))
    ensures r.1 <==> id in t.rows
    ensures ById(r.0, id).None?
    ensures forall k :: k != id ==> ById(r.0, k) == ById(t, k)
    ensures r.0.nextId == t.nextId && r.0.schema == t.schema
  {
    (t.(rows := t.rows - {id}), id in t.rows)
  }

  lemma DeletePreservesValid(t: Table, id: int)
    requires Valid(t)
    ensures Valid(Delete(t, id).0)
  {
  }

  /** AUTOINCREMENT: an id freed by a delete is never handed out again. */
  lemma NoIdReuseAfterDelete(t: Table, id: int, item: Json, now: string)
    requires Valid(t) && id in t.rows
    ensures var t' := Delete(t, id).0;
      Create(t', item, now).1.Ok? ==> Create(t', item, now).1.value != id
  {
  }

  // ---------------------------------------------------------------- external ids

  /** Whether `get_item_by_external_id(x)` finds a row. */
  predicate HasExternalId(t: Table, x: string) {
    t.schema == WithSourceColumns && exists id :: id in t.rows && t.rows[id].externalId == Some(JStr(x))
  }

  /** backend/database.py:104-109: the lookup finds nothing, whatever the table holds. */
  lemma LookupBlindAsWritten(t: Table, x: string)
    requires t.schema == AsWritten
    ensures !HasExternalId(t, x)
  {
  }

  /** With the source columns, a created draft's external id is found afterwards. */
  lemma CreatedExternalIdFound(t: Table, d: Record, now: string, x: string)
    requires t.schema == WithSourceColumns && "external_id" in d && d["external_id"] == JStr(x)
    requires Create(t, JObj(d), now).1.Ok?
    ensures HasExternalId(Create(t, JObj(d), now).0, x)
  {
    var t' := Create(t, JObj(d), now).0;
    assert t'.rows[t.nextId].externalId == Some(JStr(x));
  }

  /** Creating rows never makes a found external id disappear. */
  lemma CreateKeepsExternalIds(t: Table, item: Json, now: string, x: string)
    requires Valid(t) && HasExternalId(t, x)
    ensures HasExternalId(Create(t, item, now).0, x)
  {
    var id :| id in t.rows && t.rows[id].externalId == Some(JStr(x));
    assert Create(t, item, now).0.rows[id] == t.rows[id];
  }

  // ---------------------------------------------------------------- listings

  /** A row's text in a column, or "" where it holds no text. */
  function TextAt(rows: map<int, Row>, column: string, id: int): string {
    if id !in rows then ""
    else
      var v := if column == "created_at" then rows[id].createdAt else rows[id].datetime;
      if v.JStr? then v.s else ""
  }

  /** `a` may be listed before `b`: ascending or descending text order of one column. */
  predicate Before(rows: map<int, Row>, column: string, ascending: bool, a: int, b: int) {
    if ascending then TextLe(TextAt(rows, column, a), TextAt(rows, column, b))
    else TextLe(TextAt(rows, column, b), TextAt(rows, column, a))
  }

  predicate SortedBy(rows: map<int, Row>, column: string, ascending: bool, keys: seq<int>) {
    forall i, j :: 0 <= i < j < |keys| ==> Before(rows, column, ascending, keys[i], keys[j])
  }

  lemma BeforeTotal(rows: map<int, Row>, column: string, ascending: bool, a: int, b: int)
    ensures Before(rows, column, ascending, a, b) || Before(rows, column, ascending, b, a)
  {
    TextLeTotal(TextAt(rows, column, a), TextAt(rows, column, b));
  }

  lemma BeforeTransitive(rows: map<int, Row>, column: string, ascending: bool, a: int, b: int, c: int)
    requires Before(rows, column, ascending, a, b) && Before(rows, column, ascending, b, c)
    ensures Before(rows, column, ascending, a, c)
  {
    var x, y, z := TextAt(rows, column, a), TextAt(rows, column, b), TextAt(rows, column, c);
    if ascending {
      TextLeTransitive(x, y, z);
    } else {
      TextLeTransitive(z, y, x);
    }
  }

  /** One step of the sort the SELECT's ORDER BY performs: `k` placed among sorted keys. */
  function InsertSorted(rows: map<int, Row>, column: string, ascending: bool, keys: seq<int>, k: int): (r: seq<int>)
    ensures multiset(r) == multiset(keys) + multiset{k}
    ensures forall x :: x in r ==> x == k || x in keys
    decreases |keys|
  {
    if keys == [] then [k]
    else if Before(rows, column, ascending, k, keys[0]) then [k] + keys
    else
      assert keys == [keys[0]] + keys[1..];
      [keys[0]] + InsertSorted(rows, column, ascending, keys[1..], k)
  }

  lemma SortedCons(rows: map<int, Row>, column: string, ascending: bool, x: int, keys: seq<int>)
    requires SortedBy(rows, column, ascending, keys)
    requires forall j :: 0 <= j < |keys| ==> Before(rows, column, ascending, x, keys[j])
    ensures SortedBy(rows, column, ascending, [x] + keys)
  {
    var r := [x] + keys;
    forall i, j | 0 <= i < j < |r| ensures Before(rows, column, ascending, r[i], r[j]) {
      assert r[j] == keys[j - 1];
      if i > 0 {
        assert r[i] == keys[i - 1];
      }
    }
  }

  lemma SortedTail(rows: map<int, Row>, column: string, ascending: bool, keys: seq<int>)
    requires keys != [] && SortedBy(rows, column, ascending, keys)
    ensures SortedBy(rows, column, ascending, keys[1..])
  {
    var tail := keys[1..];
    forall i, j | 0 <= i < j < |tail| ensures Before(rows, column, ascending, tail[i], tail[j]) {
      assert tail[i] == keys[i + 1] && tail[j] == keys[j + 1];
    }
  }

  lemma {:induction false} InsertSortedSorted(rows: map<int, Row>, column: string, ascending: bool, keys: seq<int>, k: int)
    requires SortedBy(rows, column, ascending, keys)
    ensures SortedBy(rows, column, ascending, InsertSorted(rows, column, ascending, keys, k))
    decreases |keys|
  {
    if keys == [] {
    } else if Before(rows, column, ascending, k, keys[0]) {
      forall j | 0 <= j < |keys| ensures Before(rows, column, ascending, k, keys[j]) {
        if j > 0 {
          BeforeTransitive(rows, column, ascending, k, keys[0], keys[j]);
        }
      }
      SortedCons(rows, column, ascending, k, keys);
    } else {
      BeforeTotal(rows, column, ascending, k, keys[0]);
      var tail := keys[1..];
      SortedTail(rows, column, ascending, keys);
      InsertSortedSorted(rows, column, ascending, tail, k);
      var rest := InsertSorted(rows, column, ascending, tail, k);
      forall j | 0 <= j < |rest| ensures Before(rows, column, ascending, keys[0], rest[j]) {
        if rest[j] != k {
          assert rest[j] in tail;
          var m :| 0 <= m < |tail| && tail[m] == rest[j];
          assert keys[m + 1] == rest[j];
        }
      }
      SortedCons(rows, column, ascending, keys[0], rest);
    }
  }

  /** `WHERE type = ?` when `item_type` is truthy; no filter otherwise. */
  predicate TypeSelected(t: Table, itemType: Option<string>, id: int) {
    id in t.rows
    && (itemType.None? || itemType.value == "" || t.rows[id].itemType == JStr(itemType.value))
  }

  /** `WHERE datetime IS NOT NULL AND datetime >= ? AND datetime <= ?` */
  predicate RangeSelected(t: Table, start: string, end: string, id: int) {
    id in t.rows && t.rows[id].datetime.JStr?
    && TextLe(start, t.rows[id].datetime.s) && TextLe(t.rows[id].datetime.s, end)
  }

  /** `keys` lists each selected row once, newest `created_at` first (ties in any order). */
  ghost predicate TypeListing(t: Table, itemType: Option<string>, keys: seq<int>) {
    multiset(keys) == multiset(set id | id in t.rows && TypeSelected(t, itemType, id))
    && SortedBy(t.rows, "created_at", false, keys)
  }

  /** `keys` lists each row of the range once, ascending by `datetime` (ties in any order). */
  ghost predicate RangeListing(t: Table, start: string, end: string, keys: seq<int>) {
    multiset(keys) == multiset(set id | id in t.rows && RangeSelected(t, start, end, id))
    && SortedBy(t.rows, "datetime", true, keys)
  }

  /** The loop after the query: a `source` and a `priority` key for every row that lacks one. */
  function WithDefaults(row: Record): (r: Record)
    ensures "source" in r && "priority" in r
    ensures forall c :: c in row ==> c in r && r[c] == row[c]
    ensures "source" !in row ==> r["source"] == JStr("manual")
    ensures "priority" !in row ==> r["priority"] == JStr("medium")
  {
    var withSource := if "source" !in row then row["source" := JStr("manual")] else row;
    if "priority" !in withSource then withSource["priority" := JStr("medium")] else withSource
  }

  /** The rows a listing returns, in listing order. */
  function Present(rows: map<int, Row>, keys: seq<int>): (r: seq<Record>)
    requires forall i :: 0 <= i < |keys| ==> keys[i] in rows
    ensures |r| == |keys|
  {
    seq(|keys|, i requires 0 <= i < |keys| => WithDefaults(AsRecord(rows[keys[i]])))
  }

  /** In the written schema every listed row reads as source 'manual'; with the source columns it reads as stored. */
  lemma ListedSource(t: Table, keys: seq<int>, i: int)
    requires Valid(t) && 0 <= i < |keys| && forall j :: 0 <= j < |keys| ==> keys[j] in t.rows
    ensures Present(t.rows, keys)[i]["priority"] == t.rows[keys[i]].priority
    ensures t.schema == AsWritten ==> Present(t.rows, keys)[i]["source"] == JStr("manual")
    ensures t.schema == WithSourceColumns ==> t.rows[keys[i]].source == Some(Present(t.rows, keys)[i]["source"])
  {
    var id := keys[i];
    assert id in t.rows;
    var row := t.rows[id];
    assert WellFormedRow(t.schema, row);
    var rec := AsRecord(row);
    assert rec["priority"] == row.priority;
    if t.schema == AsWritten {
      assert "source" !in rec;
    } else {
      assert rec["source"] == row.source.value;
    }
  }

  /** `validate_item_type` accepts exactly the types the CHECK constraint admits. */
  lemma ValidateItemTypeMatchesCheck(s: string)
    ensures Utils.ValidateItemType(s) <==> JStr(s) in ItemTypes
  {
  }
}
