/**
 * The draft item the source adapters produce: the "standard item format" documented
 * at backend/ingestion/base.py:28-41, as the dict the adapters build.
 */
module Drafts {
  import opened PyText
  import opened JsonValue

  /** A Python list of strings. */
  function StrList(words: seq<string>): (r: Json)
    ensures r.JArr? && |r.elems| == |words|
    ensures forall i :: 0 <= i < |words| ==> r.elems[i] == JStr(words[i])
  {
    JArr(seq(|words|, i requires 0 <= i < |words| => JStr(words[i])))
  }

  /** The draft dict both adapters build; `completed` is always False. */
  function Draft(itemType: string, title: Json, description: Json, datetime: Json, priority: string,
                 tags: seq<string>, source: string, externalId: string): Record
  {
    map["type" := JStr(itemType), "title" := title, "description" := description,
        "datetime" := datetime, "priority" := JStr(priority), "tags" := StrList(tags),
        "source" := JStr(source), "external_id" := JStr(externalId), "completed" := JBool(false)]
  }

  const DraftKeys: set<string> :=
    {"type", "title", "description", "datetime", "priority", "tags", "source", "external_id", "completed"}

  /**
   * The documented draft format: a known type and priority, a string title, a list of
   * string tags, the adapter's source name, a string external id and `completed` False.
   */
  predicate DocumentedDraft(d: Record, source: string) {
    DraftKeys <= d.Keys
    && d["type"] in {JStr("task"), JStr("note"), JStr("reminder")}
    && d["title"].JStr?
    && d["priority"] in {JStr("low"), JStr("medium"), JStr("high")}
    && d["tags"].JArr? && (forall i :: 0 <= i < |d["tags"].elems| ==> d["tags"].elems[i].JStr?)
    && d["source"] == JStr(source)
    && d["external_id"].JStr?
    && d["completed"] == JBool(false)
  }

  /**
   * An exception raised while a raw record is turned into a draft: its Python class and
   * its message, as CPython 3.10 words it.
   */
  datatype Raised = TypeError(message: string) | AttributeError(message: string)

  /**
   * `transform_to_items` over the rule `draft` for one record: the drafts of all records
   * in order, or the exception of the first record that raises.
   */
  function TransformAll(raw: seq<Json>, draft: Json --> Result<Record, Raised>): (r: Result<seq<Record>, Raised>)
    requires forall i :: 0 <= i < |raw| ==> draft.requires(raw[i])
    ensures r.Ok? <==> forall i :: 0 <= i < |raw| ==> draft(raw[i]).Ok?
    ensures r.Ok? ==> |r.value| == |raw| && forall i :: 0 <= i < |raw| ==> r.value[i] == draft(raw[i]).value
    ensures r.Err? ==> exists k :: 0 <= k < |raw| && draft(raw[k]) == Err(r.error) && FineBefore(raw, draft, k)
    decreases |raw|
  {
    if raw == [] then Ok([])
    else
      match draft(raw[0])
      case Err(e) => Err(e)
      case Ok(d) =>
        var rest := TransformAll(raw[1..], draft);
        assert forall i :: 1 <= i < |raw| ==> raw[1..][i - 1] == raw[i];
        if rest.Err? then
          var k :| 0 <= k < |raw| - 1 && draft(raw[1..][k]) == Err(rest.error) && FineBefore(raw[1..], draft, k);
          assert draft(raw[k + 1]) == Err(rest.error) && FineBefore(raw, draft, k + 1);
          Err(rest.error)
        else Ok([d] + rest.value)
  }

  /** No record before index `k` raises. */
  predicate FineBefore(raw: seq<Json>, draft: Json --> Result<Record, Raised>, k: nat)
    requires k <= |raw| && forall i :: 0 <= i < |raw| ==> draft.requires(raw[i])
  {
    forall j :: 0 <= j < k ==> draft(raw[j]).Ok?
  }

  /**
   * One more record after a prefix that raised nothing: its draft is appended, or its
   * exception is the exception of the whole sequence.
   */
  lemma TransformNext(raw: seq<Json>, draft: Json --> Result<Record, Raised>, i: nat, drafts: seq<Record>)
    requires forall j :: 0 <= j < |raw| ==> draft.requires(raw[j])
    requires i < |raw| && TransformAll(raw[..i], draft) == Ok(drafts)
    ensures draft(raw[i]).Ok? ==> TransformAll(raw[..i + 1], draft) == Ok(drafts + [draft(raw[i]).value])
    ensures draft(raw[i]).Err? ==> TransformAll(raw, draft) == Err(draft(raw[i]).error)
  {
    var front := raw[..i];
    assert forall j :: 0 <= j < i ==> front[j] == raw[j];
    assert |drafts| == i && forall j :: 0 <= j < i ==> draft(raw[j]).Ok? && drafts[j] == draft(raw[j]).value;
    if draft(raw[i]).Ok? {
      var longer := raw[..i + 1];
      assert forall j :: 0 <= j <= i ==> longer[j] == raw[j];
      TransformDone(longer, draft, drafts + [draft(raw[i]).value]);
    } else {
      assert FineBefore(raw, draft, i);
      TransformStops(raw, draft, i);
    }
  }

  /** The first record that raises decides the exception. */
  lemma TransformStops(raw: seq<Json>, draft: Json --> Result<Record, Raised>, i: nat)
    requires forall j :: 0 <= j < |raw| ==> draft.requires(raw[j])
    requires i < |raw| && draft(raw[i]).Err? && forall j :: 0 <= j < i ==> draft(raw[j]).Ok?
    ensures TransformAll(raw, draft) == Err(draft(raw[i]).error)
  {
    var r := TransformAll(raw, draft);
    var k :| 0 <= k < |raw| && draft(raw[k]) == Err(r.error) && FineBefore(raw, draft, k);
    assert k == i;
  }

  /** When no record raises, the drafts are those of the records, in order. */
  lemma TransformDone(raw: seq<Json>, draft: Json --> Result<Record, Raised>, items: seq<Record>)
    requires forall j :: 0 <= j < |raw| ==> draft.requires(raw[j])
    requires |items| == |raw| && forall j :: 0 <= j < |raw| ==> draft(raw[j]).Ok? && items[j] == draft(raw[j]).value
    ensures TransformAll(raw, draft) == Ok(items)
  {
    var r := TransformAll(raw, draft);
    assert r.value == items;
  }

  /** Every field of a draft reads back as it was given. */
  lemma DraftFields(itemType: string, title: Json, description: Json, datetime: Json, priority: string,
                    tags: seq<string>, source: string, externalId: string)
    ensures var d := Draft(itemType, title, description, datetime, priority, tags, source, externalId);
      d.Keys == DraftKeys
      && d["type"] == JStr(itemType) && d["title"] == title && d["description"] == description
      && d["datetime"] == datetime && d["priority"] == JStr(priority) && d["tags"] == StrList(tags)
      && d["source"] == JStr(source) && d["external_id"] == JStr(externalId) && d["completed"] == JBool(false)
  {
  }
}
