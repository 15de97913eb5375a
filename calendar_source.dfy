/**
 * `CalendarSource.transform_to_items` of backend/ingestion/calendar_source.py: each
 * calendar event becomes one draft item.
 */
module CalendarSource {
  import opened PyText
  import opened JsonValue
  import opened Drafts
  import ItemStore

  /**
   * The values the draft prints with `str()` are scalars: the event's `id`, and the
   * all-day `date` of a dict `start` that has no `dateTime`.
   */
  predicate Printable(event: Json) {
    event.JObj? ==>
      var f := event.fields;
      ("id" in f ==> IsScalar(f["id"]))
      && ("start" in f ==> DatePrintable(f["start"]))
  }

  /** A dict `start` without `dateTime` has a scalar `date`, if any. */
  predicate DatePrintable(start: Json) {
    start.JObj? && "dateTime" !in start.fields && "date" in start.fields ==> IsScalar(start.fields["date"])
  }

  /** `start[key]` for a key the `in` test found: the dict's value, or the TypeError of a str or list. */
  function Subscript(start: Json, key: string): Result<Json, Raised>
    requires start.JObj? ==> key in start.fields
  {
    match start
    case JObj(f) => Ok(f[key])
    case JStr(_) => Err(TypeError("string indices must be integers"))
    case JArr(_) => Err(TypeError("list indices must be integers or slices, not str"))
    case _ => Err(TypeError("'" + TypeName(start) + "' object is not subscriptable"))
  }

  /**
   * The event's datetime from its `start`: `start['dateTime']` when the `in` test finds
   * it, else `start['date']` at nine o'clock, else None.
   */
  function EventDatetime(start: Json): Result<Json, Raised>
    requires DatePrintable(start)
  {
    match PyIn("dateTime", start)
    case Err(message) => Err(TypeError(message))
    case Ok(hasDateTime) =>
      if hasDateTime then Subscript(start, "dateTime")
      else if PyIn("date", start).value then
        match Subscript(start, "date")
        case Err(e) => Err(e)
        case Ok(date) => Ok(JStr(Str(date) + "T09:00:00"))
      else Ok(JNull)
  }

  /** `len(v)` for a list, a dict or a string. */
  function Length(v: Json): nat
    requires v.JArr? || v.JObj? || v.JStr?
  {
    match v
    case JArr(e) => |e|
    case JObj(f) => |f|
    case JStr(s) => |s|
  }

  /** The priority the number of attendees gives. */
  function EventPriority(attendees: nat): (r: string)
    ensures r == "high" || r == "medium" || r == "low"
  {
    if attendees > 5 then "high" else if attendees > 0 then "medium" else "low"
  }

  const NoteWords: seq<string> := ["birthday", "anniversary"]
  const TaskWords: seq<string> := ["deadline", "due", "submit"]

  /** The type the title gives. */
  function EventType(title: string): (r: string)
    ensures r == "note" || r == "task" || r == "reminder"
  {
    if ContainsAny(Lower(title), NoteWords) then "note"
    else if ContainsAny(Lower(title), TaskWords) then "task"
    else "reminder"
  }

  /** The default of a missing `start`. */
  const NoStart := JObj(map[])

  /**
   * The draft of one event, or the exception its loop iteration raises: `event.get` on
   * a value that is not a dict, a `start` the `in` test or the subscript refuses,
   * `len` of attendees that have no length, or `lower()` of a title that is not a string.
   */
  function EventToItem(event: Json): Result<Record, Raised>
    requires Printable(event)
  {
    if !event.JObj? then Err(AttributeError(NoAttribute(event, "get")))
    else
      var f := event.fields;
      match EventDatetime(Get(f, "start", NoStart))
      case Err(e) => Err(e)
      case Ok(when) =>
        var attendees := Get(f, "attendees", JArr([]));
        if IsScalar(attendees) && !attendees.JStr? then Err(TypeError(NoLength(attendees)))
        else
          var title := Get(f, "summary", JStr("Untitled Event"));
          if !title.JStr? then Err(AttributeError(NoAttribute(title, "lower")))
          else
            Ok(Draft(EventType(title.s), title, Get(f, "description", JStr("")), when,
              EventPriority(Length(attendees)), ["calendar", "meeting"], "calendar", "cal_" + Str(Get(f, "id", JNull))))
  }

  /** The message of the TypeError `len(v)` raises. */
  function NoLength(v: Json): string {
    "object of type '" + TypeName(v) + "' has no len()"
  }

  /** The body of the loop of `transform_to_items`: the draft of one event, or the exception it raises. */
  method TransformEvent(event: Json) returns (item: Result<Record, Raised>)
    requires Printable(event)
    ensures item == EventToItem(event)
  {
    if !event.JObj? {
      return Err(AttributeError(NoAttribute(event, "get")));
    }
    var f := event.fields;
    var when := StartOf(Get(f, "start", NoStart));
    if when.Err? {
      return Err(when.error);
    }
    var attendees := Get(f, "attendees", JArr([]));
    if IsScalar(attendees) && !attendees.JStr? {
      return Err(TypeError(NoLength(attendees)));
    }
    var priority := PriorityOf(Length(attendees));
    var title := Get(f, "summary", JStr("Untitled Event"));
    if !title.JStr? {
      return Err(AttributeError(NoAttribute(title, "lower")));
    }
    var eventType := TypeOf(title.s);
    item := Ok(Draft(eventType, title, Get(f, "description", JStr("")), when.value, priority,
      ["calendar", "meeting"], "calendar", "cal_" + Str(Get(f, "id", JNull))));
  }

  /** The datetime step of the loop body. */
  method StartOf(start: Json) returns (when: Result<Json, Raised>)
    requires DatePrintable(start)
    ensures when == EventDatetime(start)
  {
    var hasDateTime := PyIn("dateTime", start);
    if hasDateTime.Err? {
      return Err(TypeError(hasDateTime.error));
    }
    if hasDateTime.value {
      when := Subscript(start, "dateTime");
    } else if PyIn("date", start).value {
      var date := Subscript(start, "date");
      if date.Err? {
        return Err(date.error);
      }
      when := Ok(JStr(Str(date.value) + "T09:00:00"));
    } else {
      when := Ok(JNull);
    }
  }

  /** The priority step of the loop body. */
  method PriorityOf(attendees: nat) returns (priority: string)
    ensures priority == EventPriority(attendees)
  {
    if attendees > 5 {
      priority := "high";
    } else if attendees > 0 {
      priority := "medium";
    } else {
      priority := "low";
    }
  }

  /** The type step of the loop body. */
  method TypeOf(title: string) returns (eventType: string)
    ensures eventType == EventType(title)
  {
    eventType := "reminder";
    if ContainsAny(Lower(title), NoteWords) {
      eventType := "note";
    } else if ContainsAny(Lower(title), TaskWords) {
      eventType := "task";
    }
  }

  /**
   * `transform_to_items(raw_events)`: one draft per event, in order, or the exception
   * of the first event that raises.
   */
  method TransformToItems(raw: seq<Json>) returns (items: Result<seq<Record>, Raised>)
    requires forall i :: 0 <= i < |raw| ==> Printable(raw[i])
    ensures items == TransformAll(raw, EventToItem)
  {
    var drafts: seq<Record> := [];
    var i := 0;
    while i < |raw|
      invariant 0 <= i <= |raw|
      invariant TransformAll(raw[..i], EventToItem) == Ok(drafts)
    {
      var item := TransformEvent(raw[i]);
      TransformNext(raw, EventToItem, i, drafts);
      if item.Err? {
        return Err(item.error);
      }
      drafts := drafts + [item.value];
      i := i + 1;
    }
    assert raw[..i] == raw;
    items := Ok(drafts);
  }

  // ---------------------------------------------------------------- properties

  /** An event the loop body turns into a draft without raising. */
  predicate Drafted(event: Json) {
    Printable(event) && EventToItem(event).Ok?
  }

  /** Each field of an event's draft, as the loop body sets it. */
  lemma EventFields(event: Json)
    requires Drafted(event)
    ensures event.JObj?
    ensures var f := event.fields; var d := EventToItem(event).value; var title := Get(f, "summary", JStr("Untitled Event"));
      var attendees := Get(f, "attendees", JArr([]));
      && title.JStr? && (attendees.JArr? || attendees.JObj? || attendees.JStr?)
      && EventDatetime(Get(f, "start", NoStart)).Ok?
      && d.Keys == DraftKeys
      && d["type"] == JStr(EventType(title.s)) && d["title"] == title
      && d["description"] == Get(f, "description", JStr("")) && d["datetime"] == EventDatetime(Get(f, "start", NoStart)).value
      && d["priority"] == JStr(EventPriority(Length(attendees)))
      && d["tags"] == StrList(["calendar", "meeting"]) && d["source"] == JStr("calendar")
      && d["external_id"] == JStr("cal_" + Str(Get(f, "id", JNull))) && d["completed"] == JBool(false)
  {
    var f := event.fields;
    var title := Get(f, "summary", JStr("Untitled Event"));
    DraftFields(EventType(title.s), title, Get(f, "description", JStr("")), EventDatetime(Get(f, "start", NoStart)).value,
      EventPriority(Length(Get(f, "attendees", JArr([])))), ["calendar", "meeting"], "calendar", "cal_" + Str(Get(f, "id", JNull)));
  }

  /**
   * An event raises exactly when it is not a dict, its `start` raises, its attendees
   * have no length or its title is not a string.
   */
  lemma EventRaises(event: Json)
    requires Printable(event)
    ensures !event.JObj? ==> EventToItem(event) == Err(AttributeError(NoAttribute(event, "get")))
    ensures event.JObj? ==> var f := event.fields; var attendees := Get(f, "attendees", JArr([]));
      (EventToItem(event).Err? <==>
        EventDatetime(Get(f, "start", NoStart)).Err?
        || (IsScalar(attendees) && !attendees.JStr?)
        || !Get(f, "summary", JStr("Untitled Event")).JStr?)
  {
  }

  /** Every draft has the documented format, with source 'calendar' and the two calendar tags. */
  lemma EventDraftDocumented(event: Json)
    requires Drafted(event)
    ensures DocumentedDraft(EventToItem(event).value, "calendar")
    ensures EventToItem(event).value["tags"] == StrList(["calendar", "meeting"])
  {
    EventFields(event);
  }

  /**
   * The datetime from `start`: for a dict, `dateTime`, else `date` + "T09:00:00", else
   * None; a string containing "date" (and so every one containing "dateTime") and a list
   * holding "dateTime" or "date" raise on the subscript, other strings and lists give
   * None; None, a boolean or a number raises on the `in` test.
   */
  lemma EventDatetimeRule(start: Json)
    requires DatePrintable(start)
    ensures start.JObj? ==> var s := start.fields;
      && ("dateTime" in s ==> EventDatetime(start) == Ok(s["dateTime"]))
      && ("dateTime" !in s && "date" in s ==> EventDatetime(start) == Ok(JStr(Str(s["date"]) + "T09:00:00")))
      && ("dateTime" !in s && "date" !in s ==> EventDatetime(start) == Ok(JNull))
    ensures start.JStr? ==>
      (EventDatetime(start).Err? <==> Contains(start.s, "date"))
      && (!Contains(start.s, "date") ==> EventDatetime(start) == Ok(JNull))
    ensures start.JArr? ==>
      (EventDatetime(start).Err? <==> JStr("dateTime") in start.elems || JStr("date") in start.elems)
      && (EventDatetime(start).Ok? ==> EventDatetime(start) == Ok(JNull))
    ensures IsScalar(start) && !start.JStr? ==> EventDatetime(start).Err?
  {
    if start.JStr? && Contains(start.s, "dateTime") {
      ContainsPrefixWord(start.s, "dateTime", "date");
    }
  }

  /** More than five attendees is 'high', one to five 'medium', none 'low'. */
  lemma EventPriorityRule(event: Json)
    requires Drafted(event)
    ensures event.JObj? && var attendees := Get(event.fields, "attendees", JArr([]));
      (attendees.JArr? || attendees.JObj? || attendees.JStr?) &&
      var n := Length(attendees); var p := EventToItem(event).value["priority"];
      (p == JStr("high") <==> n > 5) && (p == JStr("medium") <==> 0 < n <= 5) && (p == JStr("low") <==> n == 0)
  {
    EventFields(event);
  }

  /**
   * Birthday and anniversary titles are notes, before anything else; then deadline,
   * due and submit titles are tasks; every other title is a reminder.
   */
  lemma EventTypeRule(title: string)
    ensures var w := Lower(title);
      && (EventType(title) == "note" <==>
            Contains(w, "birthday") || Contains(w, "anniversary"))
      && (EventType(title) == "task" <==>
            !Contains(w, "birthday") && !Contains(w, "anniversary")
            && (Contains(w, "deadline") || Contains(w, "due") || Contains(w, "submit")))
      && (EventType(title) == "reminder" <==>
            !Contains(w, "birthday") && !Contains(w, "anniversary")
            && !Contains(w, "deadline") && !Contains(w, "due") && !Contains(w, "submit"))
  {
    var w := Lower(title);
    ContainsAnyIff(w, NoteWords);
    ContainsAnyIff(w, TaskWords);
  }

  /** The title defaults to 'Untitled Event', the description to '' and a missing `start` to no datetime. */
  lemma EventDefaults(event: Json)
    requires Drafted(event)
    ensures event.JObj?
    ensures "summary" !in event.fields ==> EventToItem(event).value["title"] == JStr("Untitled Event")
    ensures "summary" in event.fields ==> EventToItem(event).value["title"] == event.fields["summary"]
    ensures "description" !in event.fields ==> EventToItem(event).value["description"] == JStr("")
    ensures "start" !in event.fields ==> EventToItem(event).value["datetime"] == JNull
  {
    EventFields(event);
  }

  /**
   * The external id is "cal_" followed by the text of the event id, so it depends on
   * that id alone, and two events with different string ids never share one.
   */
  lemma EventExternalId(e1: Json, e2: Json)
    requires Drafted(e1) && Drafted(e2)
    ensures e1.JObj? && e2.JObj?
    ensures var x := EventToItem(e1).value["external_id"];
      x.JStr? && StartsWith(x.s, "cal_") && x.s[4..] == Str(Get(e1.fields, "id", JNull))
    ensures Get(e1.fields, "id", JNull) == Get(e2.fields, "id", JNull) ==>
      EventToItem(e1).value["external_id"] == EventToItem(e2).value["external_id"]
    ensures (Get(e1.fields, "id", JNull).JStr? && Get(e2.fields, "id", JNull).JStr?
      && Get(e1.fields, "id", JNull) != Get(e2.fields, "id", JNull)) ==>
      EventToItem(e1).value["external_id"] != EventToItem(e2).value["external_id"]
  {
    EventFields(e1);
    EventFields(e2);
    var a := "cal_" + Str(Get(e1.fields, "id", JNull));
    var b := "cal_" + Str(Get(e2.fields, "id", JNull));
    assert a[4..] == Str(Get(e1.fields, "id", JNull));
    assert b[4..] == Str(Get(e2.fields, "id", JNull));
  }

  /**
   * `create_item` accepts every calendar draft whose description and start time are
   * scalars: the type, title, priority and tags always meet the table's constraints.
   */
  lemma EventDraftInsertable(schema: ItemStore.Schema, event: Json)
    requires Drafted(event)
    requires event.JObj? && IsScalar(Get(event.fields, "description", JStr("")))
    requires IsScalar(EventToItem(event).value["datetime"])
    ensures ItemStore.Accepts(schema, JObj(EventToItem(event).value))
  {
    var d := EventToItem(event).value;
    EventFields(event);
    ItemStore.BoundKeysScalar(schema, d);
    var tags := ["calendar", "meeting"];
    assert d["tags"] == JArr(seq(|tags|, i requires 0 <= i < |tags| => JStr(tags[i])));
    JoinListOfStrings(",", tags);
  }
}
