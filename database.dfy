/**
 * The `Database` class of backend/database.py: an object that owns the `items` table
 * and whose methods run one statement each.  Every method is proved against the
 * table functions of ItemStore.
 */
module Storage {
  import opened PyText
  import opened JsonValue
  import opened ItemStore

  lemma NonEmptyHasElement(s: set<int>)
    requires s != {}
    ensures exists x :: x in s
  {
    assert (forall x :: x !in s) ==> s == {};
  }

  /** The row ids of `chosen` in listing order: the ORDER BY of a query. */
  method SortKeys(rows: map<int, Row>, column: string, ascending: bool, chosen: set<int>) returns (keys: seq<int>)
    requires chosen <= rows.Keys
    ensures multiset(keys) == multiset(chosen)
    ensures SortedBy(rows, column, ascending, keys)
    ensures forall j :: 0 <= j < |keys| ==> keys[j] in rows
  {
    var pending := chosen;
    ghost var done: set<int> := {};
    keys := [];
    while pending != {}
      invariant pending <= chosen && done == chosen - pending
      invariant multiset(keys) == multiset(done)
      invariant SortedBy(rows, column, ascending, keys)
      invariant forall x :: x in keys ==> x in done
      decreases |pending|
    {
      NonEmptyHasElement(pending);
      var k :| k in pending;
      InsertSortedSorted(rows, column, ascending, keys, k);
      keys := InsertSorted(rows, column, ascending, keys, k);
      assert k !in done;
      assert multiset(done + {k}) == multiset(done) + multiset{k};
      pending := pending - {k};
      done := done + {k};
    }
  }

  /** The loop after a listing query: each fetched row as a dict with its defaults filled in. */
  method PresentRows(rows: map<int, Row>, keys: seq<int>) returns (items: seq<Record>)
    requires forall j :: 0 <= j < |keys| ==> keys[j] in rows
    ensures items == Present(rows, keys)
  {
    items := [];
    var i := 0;
    while i < |keys|
      invariant 0 <= i <= |keys| && |items| == i
      invariant forall j :: 0 <= j < i ==> items[j] == WithDefaults(AsRecord(rows[keys[j]]))
    {
      var item := AsRecord(rows[keys[i]]);
      if "source" !in item {
        item := item["source" := JStr("manual")];
      }
      if "priority" !in item {
        item := item["priority" := JStr("medium")];
      }
      items := items + [item];
      i := i + 1;
    }
  }

  class Database {
    const schema: Schema
    var rows: map<int, Row>
    var nextId: int

    /** The table this object holds. */
    function Model(): Table
      reads this
    {
      Table(schema, rows, nextId)
    }

    ghost predicate Valid()
      reads this
    {
      ItemStore.Valid(Model())
    }

    /** `Database(db_path)` on a fresh file: `init_db` creates the empty table. */
    constructor(schema: Schema)
      ensures Valid() && Model() == Empty(schema)
    {
      this.schema := schema;
      rows := map[];
      nextId := 1;
    }

    /** `create_item(item_data)`: the new row's id, or why the INSERT raised. */
    method CreateItem(item: Json, now: string) returns (r: Result<int, DbError>)
      requires Valid()
      modifies this
      ensures Valid()
      ensures (Model(), r) == Create(old(Model()), item, now)
    {
      CreatePreservesValid(Model(), item, now);
      var row := NewRow(schema, item, now);
      if row.Err? {
        r := Err(row.error);
      } else {
        rows := rows[nextId := row.value.(id := nextId)];
        r := Ok(nextId);
        nextId := nextId + 1;
      }
    }

    /** `get_item_by_id(item_id)` */
    method GetItemById(id: int) returns (r: Option<Record>)
      requires Valid()
      ensures r.Some? <==> id in rows
      ensures r.Some? ==> r.value == AsRecord(rows[id]) && r.value["id"] == JNum(id)
    {
      if id in rows {
        r := Some(AsRecord(rows[id]));
      } else {
        r := None;
      }
    }

    /**
     * `get_item_by_external_id(external_id)`.  In the written schema the method returns
     * None without a query; with the source columns it returns some row holding that id.
     */
    method GetItemByExternalId(x: string) returns (r: Option<Record>)
      requires Valid()
      ensures r.Some? <==> HasExternalId(Model(), x)
      ensures r.Some? ==> exists id :: id in rows && r.value == AsRecord(rows[id]) && rows[id].externalId == Some(JStr(x))
    {
      if schema == AsWritten {
        r := None;
      } else if exists id :: id in rows && rows[id].externalId == Some(JStr(x)) {
        var id :| id in rows && rows[id].externalId == Some(JStr(x));
        r := Some(AsRecord(rows[id]));
      } else {
        r := None;
      }
    }

    /**
     * `update_item(item_id, updates)`: whether a row was updated, or why the UPDATE
     * raised; `patched` is the caller's dict after the call, `updated_at` added.
     */
    method UpdateItem(id: int, updates: Record, now: string) returns (r: Result<bool, DbError>, patched: Record)
      requires Valid() && "id" !in updates
      modifies this
      ensures Valid()
      ensures (Model(), r) == Update(old(Model()), id, updates, now)
      ensures patched == Patch(updates, now) && "updated_at" in patched
    {
      UpdatePreservesValid(Model(), id, updates, now);
      patched := updates["updated_at" := JStr(now)];
      ghost var t := Model();
      assert patched == Patch(updates, now);
      if exists k :: k in patched && k !in Columns(schema) {
        r := Err(NoSuchColumn);
      } else if exists k :: k in patched && !IsScalar(patched[k]) {
        r := Err(Unbindable);
      } else if id !in rows {
        r := Ok(false);
      } else {
        var row := Patched(rows[id], patched);
        if MeetsConstraints(row) {
          rows := rows[id := row];
          r := Ok(true);
          assert Model() == t.(rows := t.rows[id := row]);
        } else {
          r := Err(ConstraintFailed);
        }
      }
    }

    /** `delete_item(item_id)`: whether a row was deleted. */
    method DeleteItem(id: int) returns (existed: bool)
      requires Valid()
      modifies this
      ensures Valid()
      ensures (Model(), existed) == Delete(old(Model()), id)
    {
      DeletePreservesValid(Model(), id);
      existed := id in rows;
      rows := rows - {id};
    }

    /** `get_all_items(item_type)`: every selected row once, newest first, with defaults filled in. */
    method GetAllItems(itemType: Option<string>) returns (items: seq<Record>, ghost keys: seq<int>)
      requires Valid()
      ensures TypeListing(Model(), itemType, keys)
      ensures (forall j :: 0 <= j < |keys| ==> keys[j] in rows) && items == Present(rows, keys)
    {
      var chosen := set id | id in rows && TypeSelected(Model(), itemType, id);
      var order := SortKeys(rows, "created_at", false, chosen);
      keys := order;
      items := PresentRows(rows, order);
    }

    /** `get_items_by_date_range(start_date, end_date)`: the rows dated in the range, earliest first. */
    method GetItemsByDateRange(start: string, end: string) returns (items: seq<Record>, ghost keys: seq<int>)
      requires Valid()
      ensures RangeListing(Model(), start, end, keys)
      ensures (forall j :: 0 <= j < |keys| ==> keys[j] in rows) && items == Present(rows, keys)
    {
      var chosen := set id | id in rows && RangeSelected(Model(), start, end, id);
      var order := SortKeys(rows, "datetime", true, chosen);
      keys := order;
      items := PresentRows(rows, order);
    }
  }
}
