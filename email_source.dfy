/**
 * `EmailSource.transform_to_items` of backend/ingestion/email_source.py: each email
 * becomes one provisional draft, which keeps the email for the later enrichment.
 */
module EmailSource {
  import opened PyText
  import opened JsonValue
  import opened Drafts

  /** The value the draft prints with `str()` is a scalar: the email's `id`. */
  predicate Printable(email: Json) {
    email.JObj? ==> ("id" in email.fields ==> IsScalar(email.fields["id"]))
  }

  /** The type and priority a subject gives. */
  datatype Class = Class(itemType: string, priority: string)

  function Classify(subject: string): (c: Class)
    ensures c.itemType in {"task", "note", "reminder"} && c.priority in {"low", "medium", "high"}
  {
    var w := Lower(subject);
    if Contains(w, "deadline") || Contains(w, "submit") then Class("task", "high")
    else if Contains(w, "meeting") || Contains(w, "interview") then Class("reminder", "high")
    else if Contains(w, "seminar") || Contains(w, "workshop") then Class("reminder", "medium")
    else Class("note", "medium")
  }

  const TitleLimit := 100
  const DescriptionLimit := 300

  /** `v[:n]`: a string or a list is cut to its first `n` elements; anything else raises. */
  function Slice(v: Json, n: nat): (r: Result<Json, Raised>)
  {
    match v
    case JStr(s) => Ok(JStr(Take(s, n)))
    case JArr(e) => Ok(JArr(Take(e, n)))
    case JObj(_) => Err(TypeError("unhashable type: 'slice'"))
    case _ => Err(TypeError("'" + TypeName(v) + "' object is not subscriptable"))
  }

  /**
   * The provisional draft of one email, the documented fields plus the email itself
   * under `_raw_email`, or the exception its loop iteration raises: `email.get` on a
   * value that is not a dict, `lower()` of a subject that is not a string, or a slice
   * of a snippet that is neither a string nor a list.
   */
  function EmailToItem(email: Json): Result<Record, Raised>
    requires Printable(email)
  {
    if !email.JObj? then Err(AttributeError(NoAttribute(email, "get")))
    else
      var f := email.fields;
      var subject := Get(f, "subject", JStr(""));
      if !subject.JStr? then Err(AttributeError(NoAttribute(subject, "lower")))
      else
        var c := Classify(subject.s);
        match Slice(Get(f, "snippet", JStr("")), DescriptionLimit)
        case Err(e) => Err(e)
        case Ok(description) =>
          Ok(Draft(c.itemType, JStr(Take(subject.s, TitleLimit)), description,
            JNull, c.priority, ["email"], "email", "email_" + Str(Get(f, "id", JNull)))["_raw_email" := email])
  }

  /** The body of the loop of `transform_to_items`: the draft of one email, or the exception it raises. */
  method TransformEmail(email: Json) returns (item: Result<Record, Raised>)
    requires Printable(email)
    ensures item == EmailToItem(email)
  {
    if !email.JObj? {
      return Err(AttributeError(NoAttribute(email, "get")));
    }
    var subject := Get(email.fields, "subject", JStr(""));
    if !subject.JStr? {
      return Err(AttributeError(NoAttribute(subject, "lower")));
    }
    var itemType, priority;
    if Contains(Lower(subject.s), "deadline") || Contains(Lower(subject.s), "submit") {
      itemType, priority := "task", "high";
    } else if Contains(Lower(subject.s), "meeting") || Contains(Lower(subject.s), "interview") {
      itemType, priority := "reminder", "high";
    } else if Contains(Lower(subject.s), "seminar") || Contains(Lower(subject.s), "workshop") {
      itemType, priority := "reminder", "medium";
    } else {
      itemType, priority := "note", "medium";
    }
    assert Class(itemType, priority) == Classify(subject.s);
    var description := Slice(Get(email.fields, "snippet", JStr("")), DescriptionLimit);
    if description.Err? {
      return Err(description.error);
    }
    var draft := Draft(itemType, JStr(Take(subject.s, TitleLimit)), description.value,
      JNull, priority, ["email"], "email", "email_" + Str(Get(email.fields, "id", JNull)));
    item := Ok(draft["_raw_email" := email]);
  }

  /**
   * `transform_to_items(raw_emails)`: one draft per email, in order, or the exception
   * of the first email that raises.
   */
  method TransformToItems(raw: seq<Json>) returns (items: Result<seq<Record>, Raised>)
    requires forall i :: 0 <= i < |raw| ==> Printable(raw[i])
    ensures items == TransformAll(raw, EmailToItem)
  {
    var drafts: seq<Record> := [];
    var i := 0;
    while i < |raw|
      invariant 0 <= i <= |raw|
      invariant TransformAll(raw[..i], EmailToItem) == Ok(drafts)
    {
      var item := TransformEmail(raw[i]);
      TransformNext(raw, EmailToItem, i, drafts);
      if item.Err? {
        return Err(item.error);
      }
      drafts := drafts + [item.value];
      i := i + 1;
    }
    assert raw[..i] == raw;
    items := Ok(drafts);
  }

  // ---------------------------------------------------------------- properties

  /** An email the loop body turns into a draft without raising. */
  predicate Drafted(email: Json) {
    Printable(email) && EmailToItem(email).Ok?
  }

  /** Each field of an email's draft, as the loop body sets it. */
  lemma EmailFields(email: Json)
    requires Drafted(email)
    ensures email.JObj?
    ensures var f := email.fields; var d := EmailToItem(email).value; var subject := Get(f, "subject", JStr(""));
      && subject.JStr? && Slice(Get(f, "snippet", JStr("")), DescriptionLimit).Ok?
      && var c := Classify(subject.s);
      && d["type"] == JStr(c.itemType) && d["title"] == JStr(Take(subject.s, TitleLimit))
      && d["description"] == Slice(Get(f, "snippet", JStr("")), DescriptionLimit).value && d["datetime"] == JNull
      && d["priority"] == JStr(c.priority) && d["tags"] == StrList(["email"]) && d["source"] == JStr("email")
      && d["external_id"] == JStr("email_" + Str(Get(f, "id", JNull))) && d["completed"] == JBool(false)
      && d["_raw_email"] == email
  {
    var f := email.fields;
    var subject := Get(f, "subject", JStr("")).s;
    var c := Classify(subject);
    DraftFields(c.itemType, JStr(Take(subject, TitleLimit)), Slice(Get(f, "snippet", JStr("")), DescriptionLimit).value,
      JNull, c.priority, ["email"], "email", "email_" + Str(Get(f, "id", JNull)));
  }

  /** A draft has the documented keys and `_raw_email`, and nothing else. */
  lemma EmailKeys(email: Json)
    requires Drafted(email)
    ensures EmailToItem(email).value.Keys == DraftKeys + {"_raw_email"}
  {
    var f := email.fields;
    var subject := Get(f, "subject", JStr("")).s;
    var c := Classify(subject);
    DraftFields(c.itemType, JStr(Take(subject, TitleLimit)), Slice(Get(f, "snippet", JStr("")), DescriptionLimit).value,
      JNull, c.priority, ["email"], "email", "email_" + Str(Get(f, "id", JNull)));
  }

  /**
   * An email raises exactly when it is not a dict, its subject is not a string, or
   * its snippet is neither a string nor a list.
   */
  lemma EmailRaises(email: Json)
    requires Printable(email)
    ensures !email.JObj? ==> EmailToItem(email) == Err(AttributeError(NoAttribute(email, "get")))
    ensures email.JObj? ==> var snippet := Get(email.fields, "snippet", JStr(""));
      (EmailToItem(email).Err? <==> !Get(email.fields, "subject", JStr("")).JStr? || !(snippet.JStr? || snippet.JArr?))
  {
  }

  /** Every draft has the documented format with source 'email', no datetime and the one tag 'email'. */
  lemma EmailDraftDocumented(email: Json)
    requires Drafted(email)
    ensures DocumentedDraft(EmailToItem(email).value, "email")
    ensures EmailToItem(email).value["datetime"] == JNull
    ensures EmailToItem(email).value["tags"] == StrList(["email"])
    ensures EmailToItem(email).value.Keys == DraftKeys + {"_raw_email"}
  {
    EmailFields(email);
    EmailKeys(email);
  }

  /**
   * The rules are tried in order on the lower-cased subject: deadline or submit gives a
   * high-priority task; then meeting or interview a high-priority reminder; then seminar
   * or workshop a medium-priority reminder; anything else a medium-priority note.
   */
  lemma ClassifyRule(subject: string)
    ensures var w := Lower(subject); var c := Classify(subject);
      && (c == Class("task", "high") <==> Contains(w, "deadline") || Contains(w, "submit"))
      && (c == Class("reminder", "high") <==>
            !Contains(w, "deadline") && !Contains(w, "submit") && (Contains(w, "meeting") || Contains(w, "interview")))
      && (c == Class("reminder", "medium") <==>
            !Contains(w, "deadline") && !Contains(w, "submit") && !Contains(w, "meeting") && !Contains(w, "interview")
            && (Contains(w, "seminar") || Contains(w, "workshop")))
      && (c == Class("note", "medium") <==>
            !Contains(w, "deadline") && !Contains(w, "submit") && !Contains(w, "meeting") && !Contains(w, "interview")
            && !Contains(w, "seminar") && !Contains(w, "workshop"))
  {
  }

  /**
   * The title is the subject cut to 100 characters; the description is the snippet
   * cut to 300 characters, or to 300 elements when the snippet is a list.
   */
  lemma EmailTruncation(email: Json)
    requires Drafted(email)
    ensures email.JObj?
    ensures var d := EmailToItem(email).value; var subject := Get(email.fields, "subject", JStr("")).s;
      && d["title"].JStr? && |d["title"].s| <= TitleLimit && subject == d["title"].s + subject[|d["title"].s|..]
      && (|subject| <= TitleLimit ==> d["title"].s == subject)
      && (|subject| > TitleLimit ==> |d["title"].s| == TitleLimit)
    ensures var d := EmailToItem(email).value; var snippet := Get(email.fields, "snippet", JStr(""));
      && (snippet.JStr? ==>
            && d["description"].JStr? && |d["description"].s| <= DescriptionLimit
            && snippet.s == d["description"].s + snippet.s[|d["description"].s|..]
            && (|snippet.s| <= DescriptionLimit ==> d["description"].s == snippet.s)
            && (|snippet.s| > DescriptionLimit ==> |d["description"].s| == DescriptionLimit))
      && (snippet.JArr? ==>
            && d["description"].JArr? && |d["description"].elems| <= DescriptionLimit
            && snippet.elems == d["description"].elems + snippet.elems[|d["description"].elems|..]
            && (|snippet.elems| <= DescriptionLimit ==> d["description"] == snippet))
  {
    EmailFields(email);
  }

  /** `_raw_email` holds the email exactly as it came in. */
  lemma EmailKeepsRecord(email: Json)
    requires Drafted(email)
    ensures EmailToItem(email).value["_raw_email"] == email
  {
  }

  /**
   * The external id is "email_" followed by the text of the email id, so it depends on
   * that id alone, and two emails with different string ids never share one.
   */
  lemma EmailExternalId(e1: Json, e2: Json)
    requires Drafted(e1) && Drafted(e2)
    ensures e1.JObj? && e2.JObj?
    ensures var x := EmailToItem(e1).value["external_id"];
      x.JStr? && StartsWith(x.s, "email_") && x.s[6..] == Str(Get(e1.fields, "id", JNull))
    ensures Get(e1.fields, "id", JNull) == Get(e2.fields, "id", JNull) ==>
      EmailToItem(e1).value["external_id"] == EmailToItem(e2).value["external_id"]
    ensures (Get(e1.fields, "id", JNull).JStr? && Get(e2.fields, "id", JNull).JStr?
      && Get(e1.fields, "id", JNull) != Get(e2.fields, "id", JNull)) ==>
      EmailToItem(e1).value["external_id"] != EmailToItem(e2).value["external_id"]
  {
    EmailFields(e1);
    EmailFields(e2);
    var a := "email_" + Str(Get(e1.fields, "id", JNull));
    var b := "email_" + Str(Get(e2.fields, "id", JNull));
    assert a[6..] == Str(Get(e1.fields, "id", JNull));
    assert b[6..] == Str(Get(e2.fields, "id", JNull));
  }
}
