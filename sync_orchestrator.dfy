/**
 * `SyncOrchestrator` of backend/processing/sync_orchestrator.py: drafts from the
 * calendar and email adapters are checked against the table by `external_id`; a
 * calendar draft that is not found is stored as it is, an email draft only after the
 * LLM found it relevant, with the LLM's fields merged over the draft's.
 *
 * Fetching the raw records is not modelled: the records are parameters.  The LLM
 * service is the answer `extract_from_email` gives for each email; the orchestrator
 * builds it from the HTTP reply that call gets and `json.loads`, both supplied by the caller.
 * An exception ends a sync; rows stored before it stay stored.
 */
module SyncOrchestration {
  import opened PyText
  import opened JsonValue
  import opened ItemStore
  import opened Drafts
  import LlmReply
  import ExtractionLlm
  import CalendarSource
  import EmailSource
  import Storage

  /**
   * Why a sync raised: `transform_to_items` raised on a raw record, `create_item`
   * failed, or the enrichment data was not a dict (an AttributeError).
   */
  datatype SyncFailure = SourceRaised(raised: Raised) | StoreFailed(error: DbError) | EnrichmentRaised(message: string)

  /** `extract_from_email` of the LLM service: its answer for each email. */
  type Extractor = Json -> ExtractionLlm.EmailResult

  /** Where drafts come from: the calendar, or email with the LLM service that enriches it. */
  datatype Feed = CalendarFeed | EmailFeed(llm: Extractor)

  /**
   * A sync, or a part of one: the table after it, the count it returns or why it
   * raised, and the emails it handed to the LLM, in order.
   */
  datatype Outcome = Outcome(table: Table, result: Result<nat, SyncFailure>, asked: seq<Json>)

  /** A draft the loops can read: the documented keys and a string external id. */
  predicate Keyed(d: Record) {
    DraftKeys <= d.Keys && d["external_id"].JStr?
  }

  predicate AllKeyed(drafts: seq<Record>) {
    forall i :: 0 <= i < |drafts| ==> Keyed(drafts[i])
  }

  function ExternalId(d: Record): string
    requires Keyed(d)
  {
    d["external_id"].s
  }

  const MergedKeys: set<string> := {"title", "description", "datetime", "priority", "type"}

  /** The draft after the merge: each of the five fields the enrichment has overrides the draft's. */
  function Merge(item: Record, enhanced: Record): Record
    requires MergedKeys <= item.Keys
  {
    map k | k in item :: if k in MergedKeys && k in enhanced then enhanced[k] else item[k]
  }

  /** What the enrichment gate decides for an email draft. */
  datatype Decision = Discard | Persist(item: Record) | Raise(message: string)

  /** The gate: a successful extraction whose data is a dict with a truthy `relevant` is merged and kept. */
  function Enrich(item: Record, extracted: ExtractionLlm.EmailResult): Decision
    requires MergedKeys <= item.Keys
  {
    match extracted
    case NotExtracted(_) => Discard
    case Extracted(data) =>
      if !data.JObj? then Raise(NoAttribute(data, "get"))
      else if !Truthy(Get(data.fields, "relevant", JNull)) then Discard
      else Persist(Merge(item, data.fields))
  }

  /** The email handed to the LLM: the draft's `_raw_email`, or {} without one. */
  function RawEmail(d: Record): Json {
    Get(d, "_raw_email", JObj(map[]))
  }

  /** The draft with `_raw_email` popped. */
  function Popped(d: Record): (r: Record)
    requires Keyed(d)
    ensures MergedKeys <= r.Keys && "_raw_email" !in r
  {
    d - {"_raw_email"}
  }

  /** The gate's decision for an email draft under the answer the LLM gives for its email. */
  function Decide(llm: Extractor, d: Record): Decision
    requires Keyed(d)
  {
    Enrich(Popped(d), llm(RawEmail(d)))
  }

  /** What an iteration does with a draft that is not found: a calendar draft is stored as it is. */
  function Plan(feed: Feed, d: Record): Decision
    requires Keyed(d)
  {
    match feed
    case CalendarFeed => Persist(d)
    case EmailFeed(llm) => Decide(llm, d)
  }

  /** The emails an iteration on a draft that is not found hands to the LLM. */
  function Consulted(feed: Feed, d: Record): seq<Json> {
    if feed.EmailFeed? then [RawEmail(d)] else []
  }

  /** One iteration of a sync loop: the count it adds, or why it raised. */
  function Step(feed: Feed, t: Table, d: Record, now: string): Outcome
    requires Keyed(d)
  {
    if HasExternalId(t, ExternalId(d)) then Outcome(t, Ok(0), [])
    else
      match Plan(feed, d)
      case Discard => Outcome(t, Ok(0), Consulted(feed, d))
      case Raise(message) => Outcome(t, Err(EnrichmentRaised(message)), Consulted(feed, d))
      case Persist(item) => Store(t, item, now, Consulted(feed, d))
  }

  /** `self.db.create_item(item)` and `count += 1`. */
  function Store(t: Table, item: Record, now: string, asked: seq<Json>): Outcome {
    var (t', r) := Create(t, JObj(item), now);
    if r.Err? then Outcome(t, Err(StoreFailed(r.error)), asked) else Outcome(t', Ok(1), asked)
  }

  /**
   * The loop of `sync_calendar` or `sync_email` over the drafts, as it stands after the
   * last of them: the iterations in order, up to the first that raises.
   */
  function Run(feed: Feed, t: Table, drafts: seq<Record>, now: string): Outcome
    requires AllKeyed(drafts)
    decreases |drafts|
  {
    if drafts == [] then Outcome(t, Ok(0), [])
    else
      var o := Run(feed, t, drafts[..|drafts| - 1], now);
      if o.result.Err? then o else Then(o.result.value, o.asked, Step(feed, o.table, drafts[|drafts| - 1], now))
  }

  /** Iteration `s` after iterations that had counted `count` and asked about `asked`. */
  function Then(count: nat, asked: seq<Json>, s: Outcome): Outcome {
    Outcome(s.table, if s.result.Ok? then Ok(count + s.result.value) else s.result, asked + s.asked)
  }

  /** What `transform_to_items` makes of the raw events. */
  function CalendarDrafts(events: seq<Json>): Result<seq<Record>, Raised>
    requires forall i :: 0 <= i < |events| ==> CalendarSource.Printable(events[i])
  {
    TransformAll(events, CalendarSource.EventToItem)
  }

  /** What `transform_to_items` makes of the raw emails. */
  function EmailDrafts(emails: seq<Json>): Result<seq<Record>, Raised>
    requires forall i :: 0 <= i < |emails| ==> EmailSource.Printable(emails[i])
  {
    TransformAll(emails, EmailSource.EmailToItem)
  }

  /**
   * `sync_calendar` or `sync_email` once the records are fetched: the exception of
   * `transform_to_items`, which stores nothing and asks nothing, or the loop over the drafts.
   */
  function Sync(feed: Feed, t: Table, drafts: Result<seq<Record>, Raised>, now: string): Outcome
    requires drafts.Ok? ==> AllKeyed(drafts.value)
  {
    match drafts
    case Err(e) => Outcome(t, Err(SourceRaised(e)), [])
    case Ok(ds) => Run(feed, t, ds, now)
  }

  /** The dict `sync_all` returns. */
  datatype Counts = Counts(calendar: nat, email: nat, total: nat)

  datatype AllOutcome = AllOutcome(table: Table, result: Result<Counts, SyncFailure>, asked: seq<Json>)

  /** `sync_all()`: the calendar sync, then the email sync, and the counts with their sum. */
  function SyncAllOutcome(t: Table, events: seq<Json>, emails: seq<Json>, llm: Extractor, now: string): AllOutcome
    requires forall i :: 0 <= i < |events| ==> CalendarSource.Printable(events[i])
    requires forall i :: 0 <= i < |emails| ==> EmailSource.Printable(emails[i])
  {
    CalendarDraftsKeyed(events);
    EmailDraftsKeyed(emails);
    var cal := Sync(CalendarFeed, t, CalendarDrafts(events), now);
    if cal.result.Err? then AllOutcome(cal.table, Err(cal.result.error), cal.asked)
    else
      var em := Sync(EmailFeed(llm), cal.table, EmailDrafts(emails), now);
      if em.result.Err? then AllOutcome(em.table, Err(em.result.error), cal.asked + em.asked)
      else
        var c, e := cal.result.value, em.result.value;
        AllOutcome(em.table, Ok(Counts(c, e, c + e)), cal.asked + em.asked)
  }

  // ---------------------------------------------------------------- drafts

  lemma CalendarDraftsKeyed(events: seq<Json>)
    requires forall i :: 0 <= i < |events| ==> CalendarSource.Printable(events[i])
    ensures CalendarDrafts(events).Ok? ==> AllKeyed(CalendarDrafts(events).value)
  {
    var r := CalendarDrafts(events);
    if r.Ok? {
      forall i | 0 <= i < |events| ensures Keyed(r.value[i]) {
        CalendarSource.EventDraftDocumented(events[i]);
      }
    }
  }

  lemma EmailDraftsKeyed(emails: seq<Json>)
    requires forall i :: 0 <= i < |emails| ==> EmailSource.Printable(emails[i])
    ensures EmailDrafts(emails).Ok? ==> AllKeyed(EmailDrafts(emails).value)
  {
    var r := EmailDrafts(emails);
    if r.Ok? {
      forall i | 0 <= i < |emails| ensures Keyed(r.value[i]) {
        EmailSource.EmailDraftDocumented(emails[i]);
      }
    }
  }

  // ---------------------------------------------------------------- unfolding

  /** The loop after draft `i`: the loop up to it, then its iteration, unless the loop had already raised. */
  lemma RunExtends(feed: Feed, t: Table, drafts: seq<Record>, now: string, i: nat)
    requires i < |drafts| && AllKeyed(drafts)
    ensures var o := Run(feed, t, drafts[..i], now);
      Run(feed, t, drafts[..i + 1], now) ==
        if o.result.Err? then o else Then(o.result.value, o.asked, Step(feed, o.table, drafts[i], now))
  {
    assert drafts[..i + 1][..i] == drafts[..i];
  }

  /** A loop that has so far left table `t`, counted `n` and handed `asked` to the LLM. */
  ghost predicate Counted(o: Outcome, t: Table, n: nat, asked: seq<Json>) {
    o.table == t && o.result.Ok? && o.result.value == n && o.asked == asked
  }

  /**
   * One more iteration of a loop that had counted `n` and asked about `asked` over the
   * drafts before `i` and left table `t`: the iteration on draft `i` left `t'`, `r` and `got`.
   */
  lemma Advance(feed: Feed, t0: Table, drafts: seq<Record>, now: string, i: nat, n: nat, asked: seq<Json>,
                t: Table, t': Table, r: Result<nat, SyncFailure>, got: seq<Json>)
    requires i < |drafts| && AllKeyed(drafts)
    requires Counted(Run(feed, t0, drafts[..i], now), t, n, asked)
    requires Outcome(t', r, got) == Step(feed, t, drafts[i], now)
    ensures r.Ok? ==> Counted(Run(feed, t0, drafts[..i + 1], now), t', n + r.value, asked + got)
    ensures r.Err? ==> Run(feed, t0, drafts, now) == Outcome(t', r, asked + got)
  {
    RunExtends(feed, t0, drafts, now, i);
    if r.Err? {
      RunStops(feed, t0, drafts, now, i + 1);
    }
  }

  /** Once the loop raised, the rest of the drafts are never looked at. */
  lemma {:induction false} RunStops(feed: Feed, t: Table, drafts: seq<Record>, now: string, i: nat)
    requires i <= |drafts| && AllKeyed(drafts) && Run(feed, t, drafts[..i], now).result.Err?
    ensures Run(feed, t, drafts, now) == Run(feed, t, drafts[..i], now)
    decreases |drafts|
  {
    if i == |drafts| {
      assert drafts[..i] == drafts;
    } else {
      var front := drafts[..|drafts| - 1];
      assert front[..i] == drafts[..i];
      RunStops(feed, t, front, now, i);
    }
  }

  // ---------------------------------------------------------------- one iteration

  /**
   * A calendar draft is stored exactly when its external id is not found and
   * `create_item` accepts it; a found draft changes nothing and counts nothing; the
   * calendar loop never calls the LLM.
   */
  lemma CalendarIteration(t: Table, d: Record, now: string)
    requires Keyed(d)
    ensures var s := Step(CalendarFeed, t, d, now); var found := HasExternalId(t, ExternalId(d));
      && s.asked == []
      && (s.result == Ok(1) <==> !found && Accepts(t.schema, JObj(d)))
      && (s.result == Ok(0) <==> found)
      && (s.result.Err? <==> !found && !Accepts(t.schema, JObj(d)))
      && (!found ==> s.table == Create(t, JObj(d), now).0)
      && (found ==> s.table == t)
  {
    NewRowOkIffAccepts(t.schema, JObj(d), now);
  }

  /**
   * An email draft is stored exactly when its external id is not found, the LLM's
   * answer for its email is a dict with a truthy `relevant`, and `create_item` accepts
   * the merged draft.  The LLM is asked exactly when the id is not found; an answer that
   * is not a dict raises; anything else leaves the table as it was.
   */
  lemma EmailIteration(llm: Extractor, t: Table, d: Record, now: string)
    requires Keyed(d)
    ensures var s := Step(EmailFeed(llm), t, d, now); var found := HasExternalId(t, ExternalId(d));
      var x := llm(RawEmail(d));
      var relevant := x.Extracted? && x.data.JObj? && Truthy(Get(x.data.fields, "relevant", JNull));
      && s.asked == (if found then [] else [RawEmail(d)])
      && (s.result == Ok(1) <==> !found && relevant && Accepts(t.schema, JObj(Merge(Popped(d), x.data.fields))))
      && (s.result.Err? && s.result.error.EnrichmentRaised? <==> !found && x.Extracted? && !x.data.JObj?)
      && (s.result.Err? && s.result.error.StoreFailed? <==>
            !found && relevant && !Accepts(t.schema, JObj(Merge(Popped(d), x.data.fields))))
      && (!found && relevant ==> s.table == Create(t, JObj(Merge(Popped(d), x.data.fields)), now).0)
      && (found || !relevant ==> s.table == t)
  {
    var x := llm(RawEmail(d));
    if x.Extracted? && x.data.JObj? {
      NewRowOkIffAccepts(t.schema, JObj(Merge(Popped(d), x.data.fields)), now);
    }
  }

  /**
   * The merge: each of title, description, datetime, priority and type is the
   * enrichment's where it has one and the draft's otherwise; every other field of the
   * draft is kept, and no other field of the enrichment gets in.
   */
  lemma MergeRule(item: Record, enhanced: Record)
    requires MergedKeys <= item.Keys
    ensures var r := Merge(item, enhanced);
      && r.Keys == item.Keys
      && (forall k :: k in MergedKeys ==> r[k] == if k in enhanced then enhanced[k] else item[k])
      && (forall k :: k in item && k !in MergedKeys ==> r[k] == item[k])
  {
  }

  /**
   * What an email draft is stored as: the draft without `_raw_email`, its five merged
   * fields from the enrichment, and every other field, its external id among them, as
   * the adapter made it.
   */
  lemma PersistedDraft(llm: Extractor, d: Record)
    requires Keyed(d)
    ensures Decide(llm, d).Persist? ==>
      var item := Decide(llm, d).item;
      && "_raw_email" !in item && item.Keys == d.Keys - {"_raw_email"}
      && (forall k :: k in item && k !in MergedKeys ==> item[k] == d[k])
      && item["external_id"] == d["external_id"]
  {
    if Decide(llm, d).Persist? {
      MergeRule(Popped(d), llm(RawEmail(d)).data.fields);
    }
  }

  /** The LLM is handed the email exactly as it came from the mailbox. */
  lemma LlmSeesRawEmail(email: Json)
    requires EmailSource.Drafted(email)
    ensures Keyed(EmailSource.EmailToItem(email).value)
    ensures RawEmail(EmailSource.EmailToItem(email).value) == email
  {
    EmailSource.EmailDraftDocumented(email);
  }

  // ---------------------------------------------------------------- counting

  /**
   * The table after a sync, or part of one, against the one before: same schema, old
   * rows untouched, and the new rows exactly the ids from the old `nextId` on.
   */
  ghost predicate Grown(t: Table, t': Table) {
    Valid(t') && t'.schema == t.schema && t.nextId <= t'.nextId
    && (forall id :: id in t.rows ==> id in t'.rows && t'.rows[id] == t.rows[id])
    && (forall id :: id in t'.rows && id !in t.rows ==> t.nextId <= id)
    && (forall id :: t.nextId <= id < t'.nextId ==> id in t'.rows)
  }

  lemma GrownTwice(a: Table, b: Table, c: Table)
    requires Valid(a) && Grown(a, b) && Grown(b, c)
    ensures Grown(a, c)
  {
    forall id | a.nextId <= id < c.nextId
      ensures id in c.rows
    {
      if id < b.nextId {
        assert id in b.rows;
      }
    }
  }

  /** One iteration stores at most one row, counts what it stores, and stores nothing when it raises. */
  lemma StepGrown(feed: Feed, t: Table, d: Record, now: string)
    requires Valid(t) && Keyed(d)
    ensures var s := Step(feed, t, d, now);
      && Grown(t, s.table)
      && (s.result.Ok? ==> s.result.value <= 1 && s.table.nextId == t.nextId + s.result.value)
      && (s.result.Err? ==> s.table == t)
  {
    if !HasExternalId(t, ExternalId(d)) && Plan(feed, d).Persist? {
      CreatePreservesValid(t, JObj(Plan(feed, d).item), now);
    }
  }

  /**
   * The count a sync returns is the number of rows it added, at most one per draft;
   * the rows it found stay as they were, and so does the table's validity, whether
   * the sync returned or raised.
   */
  lemma {:induction false} RunGrown(feed: Feed, t: Table, drafts: seq<Record>, now: string)
    requires Valid(t) && AllKeyed(drafts)
    ensures var o := Run(feed, t, drafts, now);
      && Grown(t, o.table)
      && (o.result.Ok? ==> o.result.value <= |drafts| && o.table.nextId == t.nextId + o.result.value)
    decreases |drafts|
  {
    if drafts != [] {
      var front := drafts[..|drafts| - 1];
      RunGrown(feed, t, front, now);
      var o := Run(feed, t, front, now);
      if o.result.Ok? {
        var last := drafts[|drafts| - 1];
        StepGrown(feed, o.table, last, now);
        GrownTwice(t, o.table, Step(feed, o.table, last, now).table);
      }
    }
  }

  /** `sync_calendar` never calls the LLM. */
  lemma {:induction false} CalendarNeverAsks(t: Table, drafts: seq<Record>, now: string)
    requires AllKeyed(drafts)
    ensures Run(CalendarFeed, t, drafts, now).asked == []
    decreases |drafts|
  {
    if drafts != [] {
      CalendarNeverAsks(t, drafts[..|drafts| - 1], now);
    }
  }

  /** A sync stores what its loop stores; when `transform_to_items` raises it stores nothing. */
  lemma SyncGrown(feed: Feed, t: Table, drafts: Result<seq<Record>, Raised>, now: string)
    requires Valid(t) && (drafts.Ok? ==> AllKeyed(drafts.value))
    ensures var o := Sync(feed, t, drafts, now);
      && Grown(t, o.table)
      && (drafts.Err? ==> o.table == t)
      && (o.result.Ok? ==> drafts.Ok? && o.result.value <= |drafts.value| && o.table.nextId == t.nextId + o.result.value)
      && (feed.CalendarFeed? ==> o.asked == [])
  {
    if drafts.Ok? {
      RunGrown(feed, t, drafts.value, now);
      if feed.CalendarFeed? {
        CalendarNeverAsks(t, drafts.value, now);
      }
    }
  }

  /**
   * `sync_all` runs the calendar sync and then the email sync on the table the first
   * left; its total is the sum of the two counts and the number of rows added.  When
   * the calendar sync raises, no email reaches the LLM; when either
   * `transform_to_items` raises, that sync stores nothing.
   */
  lemma SyncAllCounts(t: Table, events: seq<Json>, emails: seq<Json>, llm: Extractor, now: string)
    requires Valid(t)
    requires forall i :: 0 <= i < |events| ==> CalendarSource.Printable(events[i])
    requires forall i :: 0 <= i < |emails| ==> EmailSource.Printable(emails[i])
    ensures (CalendarDraftsKeyed(events); EmailDraftsKeyed(emails);
      var o := SyncAllOutcome(t, events, emails, llm, now);
      var cal := Sync(CalendarFeed, t, CalendarDrafts(events), now);
      && Grown(t, o.table)
      && (CalendarDrafts(events).Err? ==>
            o == AllOutcome(t, Err(SourceRaised(CalendarDrafts(events).error)), []))
      && (cal.result.Err? ==> o.table == cal.table && o.asked == [])
      && (cal.result.Ok? && EmailDrafts(emails).Err? ==>
            o == AllOutcome(cal.table, Err(SourceRaised(EmailDrafts(emails).error)), []))
      && (o.result.Ok? ==>
            && o.result.value.calendar == cal.result.value
            && o.result.value.email == Sync(EmailFeed(llm), cal.table, EmailDrafts(emails), now).result.value
            && o.result.value.total == o.result.value.calendar + o.result.value.email
            && o.table.nextId == t.nextId + o.result.value.total
            && o.result.value.calendar <= |events| && o.result.value.email <= |emails|))
  {
    CalendarDraftsKeyed(events);
    EmailDraftsKeyed(emails);
    var cal := Sync(CalendarFeed, t, CalendarDrafts(events), now);
    SyncGrown(CalendarFeed, t, CalendarDrafts(events), now);
    if cal.result.Ok? {
      var em := Sync(EmailFeed(llm), cal.table, EmailDrafts(emails), now);
      SyncGrown(EmailFeed(llm), cal.table, EmailDrafts(emails), now);
      GrownTwice(t, cal.table, em.table);
    }
  }

  // ---------------------------------------------------------------- syncing again

  /** A draft a second sync leaves alone: its external id is found, or the LLM turns it down. */
  ghost predicate Settled(feed: Feed, t: Table, d: Record)
    requires Keyed(d)
  {
    HasExternalId(t, ExternalId(d)) || Plan(feed, d) == Discard
  }

  /** With the source columns, an iteration that returns leaves its draft settled. */
  lemma StepSettles(feed: Feed, t: Table, d: Record, now: string)
    requires Valid(t) && t.schema == WithSourceColumns && Keyed(d)
    requires Step(feed, t, d, now).result.Ok?
    ensures Settled(feed, Step(feed, t, d, now).table, d)
  {
    if !HasExternalId(t, ExternalId(d)) && Plan(feed, d).Persist? {
      var item := Plan(feed, d).item;
      if feed.EmailFeed? {
        PersistedDraft(feed.llm, d);
      }
      CreatedExternalIdFound(t, item, now, ExternalId(d));
    }
  }

  /** An iteration never makes a settled draft unsettled. */
  lemma StepKeepsSettled(feed: Feed, t: Table, d: Record, now: string, other: Feed, e: Record)
    requires Valid(t) && Keyed(d) && Keyed(e) && Settled(other, t, e)
    ensures Settled(other, Step(feed, t, d, now).table, e)
  {
    if HasExternalId(t, ExternalId(e)) && !HasExternalId(t, ExternalId(d)) && Plan(feed, d).Persist? {
      CreateKeepsExternalIds(t, JObj(Plan(feed, d).item), now, ExternalId(e));
    }
  }

  /** An iteration never makes any of a sequence of settled drafts unsettled. */
  lemma StepKeepsAllSettled(feed: Feed, t: Table, d: Record, now: string, other: Feed, es: seq<Record>)
    requires Valid(t) && Keyed(d) && AllKeyed(es)
    requires forall i :: 0 <= i < |es| ==> Settled(other, t, es[i])
    ensures forall i :: 0 <= i < |es| ==> Settled(other, Step(feed, t, d, now).table, es[i])
  {
    forall i | 0 <= i < |es|
      ensures Settled(other, Step(feed, t, d, now).table, es[i])
    {
      StepKeepsSettled(feed, t, d, now, other, es[i]);
    }
  }

  /** A sync never makes a settled draft unsettled. */
  lemma {:induction false} RunKeepsSettled(feed: Feed, t: Table, drafts: seq<Record>, now: string, other: Feed, es: seq<Record>)
    requires Valid(t) && AllKeyed(drafts) && AllKeyed(es)
    requires forall i :: 0 <= i < |es| ==> Settled(other, t, es[i])
    ensures forall i :: 0 <= i < |es| ==> Settled(other, Run(feed, t, drafts, now).table, es[i])
    decreases |drafts|
  {
    if drafts != [] {
      var front := drafts[..|drafts| - 1];
      RunKeepsSettled(feed, t, front, now, other, es);
      var o := Run(feed, t, front, now);
      if o.result.Ok? {
        RunGrown(feed, t, front, now);
        StepKeepsAllSettled(feed, o.table, drafts[|drafts| - 1], now, other, es);
      }
    }
  }

  /** With the source columns, a sync that returns leaves every one of its drafts settled. */
  lemma {:induction false} RunSettles(feed: Feed, t: Table, drafts: seq<Record>, now: string)
    requires Valid(t) && t.schema == WithSourceColumns && AllKeyed(drafts)
    requires Run(feed, t, drafts, now).result.Ok?
    ensures forall i :: 0 <= i < |drafts| ==> Settled(feed, Run(feed, t, drafts, now).table, drafts[i])
    decreases |drafts|
  {
    if drafts != [] {
      var front := drafts[..|drafts| - 1];
      var last := drafts[|drafts| - 1];
      var o := Run(feed, t, front, now);
      RunSettles(feed, t, front, now);
      RunGrown(feed, t, front, now);
      StepSettles(feed, o.table, last, now);
      StepKeepsAllSettled(feed, o.table, last, now, feed, front);
      assert drafts == front + [last];
    }
  }

  /** A sync over settled drafts stores nothing and counts nothing. */
  lemma {:induction false} SettledRunIdle(feed: Feed, t: Table, drafts: seq<Record>, now: string)
    requires AllKeyed(drafts) && forall i :: 0 <= i < |drafts| ==> Settled(feed, t, drafts[i])
    ensures Run(feed, t, drafts, now).table == t
    ensures Run(feed, t, drafts, now).result.Ok? && Run(feed, t, drafts, now).result.value == 0
    decreases |drafts|
  {
    if drafts != [] {
      var front := drafts[..|drafts| - 1];
      assert forall i :: 0 <= i < |front| ==> front[i] == drafts[i];
      SettledRunIdle(feed, t, front, now);
      assert Settled(feed, t, drafts[|drafts| - 1]);
    }
  }

  /**
   * With the source columns, syncing the same drafts again, at any later time, adds no
   * row and counts nothing: every draft is found, or the LLM turns it down again.
   */
  lemma SecondRunAddsNothing(feed: Feed, t: Table, drafts: seq<Record>, now: string, later: string)
    requires Valid(t) && t.schema == WithSourceColumns && AllKeyed(drafts)
    requires Run(feed, t, drafts, now).result.Ok?
    ensures var t1 := Run(feed, t, drafts, now).table;
      Run(feed, t1, drafts, later).table == t1
      && Run(feed, t1, drafts, later).result.Ok? && Run(feed, t1, drafts, later).result.value == 0
  {
    RunSettles(feed, t, drafts, now);
    SettledRunIdle(feed, Run(feed, t, drafts, now).table, drafts, later);
  }

  /**
   * With the source columns, a second `sync_all` over the same events and emails, whose
   * LLM answers as in the first, adds no row and returns zero counts.
   */
  lemma SyncAllTwice(t: Table, events: seq<Json>, emails: seq<Json>, llm: Extractor, now: string, later: string)
    requires Valid(t) && t.schema == WithSourceColumns
    requires forall i :: 0 <= i < |events| ==> CalendarSource.Printable(events[i])
    requires forall i :: 0 <= i < |emails| ==> EmailSource.Printable(emails[i])
    requires SyncAllOutcome(t, events, emails, llm, now).result.Ok?
    ensures var t1 := SyncAllOutcome(t, events, emails, llm, now).table;
      var o := SyncAllOutcome(t1, events, emails, llm, later);
      o.table == t1 && o.result.Ok? && o.result.value == Counts(0, 0, 0)
  {
    CalendarDraftsKeyed(events);
    EmailDraftsKeyed(emails);
    var cd, ed := CalendarDrafts(events).value, EmailDrafts(emails).value;
    var cal := Run(CalendarFeed, t, cd, now);
    RunSettles(CalendarFeed, t, cd, now);
    RunGrown(CalendarFeed, t, cd, now);
    var em := Run(EmailFeed(llm), cal.table, ed, now);
    RunSettles(EmailFeed(llm), cal.table, ed, now);
    RunKeepsSettled(EmailFeed(llm), cal.table, ed, now, CalendarFeed, cd);
    SettledRunIdle(CalendarFeed, em.table, cd, later);
    SettledRunIdle(EmailFeed(llm), em.table, ed, later);
  }

  /** What an iteration hands to the LLM: nothing for a draft that is found, its email otherwise. */
  lemma StepAsks(feed: Feed, t: Table, d: Record, now: string)
    requires Keyed(d)
    ensures Step(feed, t, d, now).asked == if HasExternalId(t, ExternalId(d)) then [] else Consulted(feed, d)
  {
  }

  /** The drafts whose external id the table does not have, at some index of `drafts`, have handed over `asked`. */
  ghost predicate AskedUnfound(t: Table, drafts: seq<Record>, asked: seq<Json>)
    requires AllKeyed(drafts)
  {
    forall k :: 0 <= k < |asked| ==> EmailOfUnfound(t, drafts, asked[k])
  }

  /** `email` is the email of a draft whose external id the table does not have. */
  ghost predicate EmailOfUnfound(t: Table, drafts: seq<Record>, email: Json)
    requires AllKeyed(drafts)
  {
    exists i :: 0 <= i < |drafts| && email == RawEmail(drafts[i]) && !HasExternalId(t, ExternalId(drafts[i]))
  }

  /** The emails asked about over a prefix, then at most the email of the last draft, if it is not found. */
  lemma AskedUnfoundSnoc(t: Table, drafts: seq<Record>, before: seq<Json>, more: seq<Json>)
    requires drafts != [] && AllKeyed(drafts)
    requires AskedUnfound(t, drafts[..|drafts| - 1], before)
    requires more == [] || (more == [RawEmail(drafts[|drafts| - 1])] && !HasExternalId(t, ExternalId(drafts[|drafts| - 1])))
    ensures AskedUnfound(t, drafts, before + more)
  {
    var front := drafts[..|drafts| - 1];
    var asked := before + more;
    forall k | 0 <= k < |asked|
      ensures EmailOfUnfound(t, drafts, asked[k])
    {
      if k < |before| {
        assert EmailOfUnfound(t, front, before[k]);
        var i :| 0 <= i < |front| && before[k] == RawEmail(front[i]) && !HasExternalId(t, ExternalId(front[i]));
        assert front[i] == drafts[i];
      } else {
        var i := |drafts| - 1;
        assert more != [] && asked[k] == more[k - |before|];
        assert asked[k] == RawEmail(drafts[i]) && !HasExternalId(t, ExternalId(drafts[i]));
      }
    }
  }

  /** A draft found in the table a sync starts from is found in every table it leaves. */
  lemma RunKeepsFound(feed: Feed, t: Table, drafts: seq<Record>, now: string, d: Record)
    requires Valid(t) && AllKeyed(drafts) && Keyed(d) && HasExternalId(t, ExternalId(d))
    ensures HasExternalId(Run(feed, t, drafts, now).table, ExternalId(d))
  {
    assert Settled(CalendarFeed, t, [d][0]);
    RunKeepsSettled(feed, t, drafts, now, CalendarFeed, [d]);
    assert Settled(CalendarFeed, Run(feed, t, drafts, now).table, [d][0]);
  }

  /**
   * Every email a sync hands to the LLM is the email of one of its drafts whose external
   * id the table it started from does not have.
   */
  lemma {:induction false} RunAsksOnlyUnfound(feed: Feed, t: Table, drafts: seq<Record>, now: string)
    requires Valid(t) && AllKeyed(drafts)
    ensures AskedUnfound(t, drafts, Run(feed, t, drafts, now).asked)
    decreases |drafts|
  {
    if drafts != [] {
      var front := drafts[..|drafts| - 1];
      var last := drafts[|drafts| - 1];
      RunAsksOnlyUnfound(feed, t, front, now);
      var o := Run(feed, t, front, now);
      RunExtends(feed, t, drafts, now, |drafts| - 1);
      assert drafts[..|drafts| - 1 + 1] == drafts;
      if o.result.Ok? {
        if HasExternalId(t, ExternalId(last)) {
          RunKeepsFound(feed, t, front, now, last);
        }
        StepAsks(feed, o.table, last, now);
        AskedUnfoundSnoc(t, drafts, o.asked, Step(feed, o.table, last, now).asked);
      } else {
        AskedUnfoundSnoc(t, drafts, o.asked, []);
        assert o.asked + [] == o.asked;
      }
    }
  }

  /** The email sync stores a draft only after handing its email to the LLM. */
  lemma {:induction false} EmailRunCountsAsked(llm: Extractor, t: Table, drafts: seq<Record>, now: string)
    requires AllKeyed(drafts)
    ensures var o := Run(EmailFeed(llm), t, drafts, now); o.result.Ok? ==> o.result.value <= |o.asked|
    decreases |drafts|
  {
    if drafts != [] {
      EmailRunCountsAsked(llm, t, drafts[..|drafts| - 1], now);
    }
  }

  /**
   * With the source columns, a calendar sync and then an email sync that both return
   * leave every calendar draft found and every email draft found or turned down.
   */
  lemma FirstSyncSettles(t: Table, cd: seq<Record>, ed: seq<Record>, llm: Extractor, now: string)
    requires Valid(t) && t.schema == WithSourceColumns && AllKeyed(cd) && AllKeyed(ed)
    requires Run(CalendarFeed, t, cd, now).result.Ok?
    requires Run(EmailFeed(llm), Run(CalendarFeed, t, cd, now).table, ed, now).result.Ok?
    ensures var t1 := Run(EmailFeed(llm), Run(CalendarFeed, t, cd, now).table, ed, now).table;
      && Valid(t1) && t1.schema == WithSourceColumns
      && (forall i :: 0 <= i < |cd| ==> Settled(CalendarFeed, t1, cd[i]))
      && (forall i :: 0 <= i < |ed| ==> Settled(EmailFeed(llm), t1, ed[i]))
  {
    var cal := Run(CalendarFeed, t, cd, now);
    RunSettles(CalendarFeed, t, cd, now);
    RunGrown(CalendarFeed, t, cd, now);
    RunKeepsSchema(CalendarFeed, t, cd, now);
    RunSettles(EmailFeed(llm), cal.table, ed, now);
    RunGrown(EmailFeed(llm), cal.table, ed, now);
    RunKeepsSchema(EmailFeed(llm), cal.table, ed, now);
    RunKeepsSettled(EmailFeed(llm), cal.table, ed, now, CalendarFeed, cd);
  }

  /**
   * An email sync from a table where every draft is found or turned down by `llm1`
   * hands to its own LLM only the emails of drafts `llm1` turned down.
   */
  lemma AsksOnlyTurnedDown(t: Table, ed: seq<Record>, llm1: Extractor, llm2: Extractor, later: string)
    requires Valid(t) && AllKeyed(ed)
    requires forall i :: 0 <= i < |ed| ==> Settled(EmailFeed(llm1), t, ed[i])
    ensures var asked := Run(EmailFeed(llm2), t, ed, later).asked;
      forall k :: 0 <= k < |asked| ==>
        exists i :: 0 <= i < |ed| && asked[k] == RawEmail(ed[i]) && Decide(llm1, ed[i]) == Discard
  {
    var asked := Run(EmailFeed(llm2), t, ed, later).asked;
    RunAsksOnlyUnfound(EmailFeed(llm2), t, ed, later);
    forall k | 0 <= k < |asked|
      ensures exists i :: 0 <= i < |ed| && asked[k] == RawEmail(ed[i]) && Decide(llm1, ed[i]) == Discard
    {
      assert EmailOfUnfound(t, ed, asked[k]);
      var i :| 0 <= i < |ed| && asked[k] == RawEmail(ed[i]) && !HasExternalId(t, ExternalId(ed[i]));
      assert Settled(EmailFeed(llm1), t, ed[i]);
    }
  }

  /** A calendar loop over drafts that are all found stores nothing and asks nothing. */
  lemma RetriedCalendar(t: Table, cd: seq<Record>, later: string)
    requires AllKeyed(cd) && forall i :: 0 <= i < |cd| ==> Settled(CalendarFeed, t, cd[i])
    ensures var cal := Run(CalendarFeed, t, cd, later);
      cal.table == t && cal.result.Ok? && cal.result.value == 0 && cal.asked == []
  {
    SettledRunIdle(CalendarFeed, t, cd, later);
    CalendarNeverAsks(t, cd, later);
  }

  /**
   * With the source columns, a second `sync_all` whose LLM may answer differently from
   * the first (a timeout that has passed, a reply that now parses): it stores no
   * calendar draft, hands the LLM only emails whose drafts the first sync's LLM turned
   * down, so it never stores again a draft the first sync stored, and it stores at
   * most one draft per email it hands over.
   */
  lemma SyncAllRetried(t: Table, events: seq<Json>, emails: seq<Json>, llm1: Extractor, llm2: Extractor,
                       now: string, later: string)
    requires Valid(t) && t.schema == WithSourceColumns
    requires forall i :: 0 <= i < |events| ==> CalendarSource.Printable(events[i])
    requires forall i :: 0 <= i < |emails| ==> EmailSource.Printable(emails[i])
    requires SyncAllOutcome(t, events, emails, llm1, now).result.Ok?
    ensures EmailDrafts(emails).Ok? && AllKeyed(EmailDrafts(emails).value)
    ensures var t1 := SyncAllOutcome(t, events, emails, llm1, now).table;
      var o := SyncAllOutcome(t1, events, emails, llm2, later);
      && (forall k :: 0 <= k < |o.asked| ==>
            (exists i :: 0 <= i < |emails| && o.asked[k] == emails[i] && Decide(llm1, EmailDrafts(emails).value[i]) == Discard))
      && (o.result.Ok? ==> o.result.value.calendar == 0 && o.result.value.email <= |o.asked|)
  {
    AllOutcomeOfRuns(t, events, emails, llm1, now);
    EmailDraftsKeyed(emails);
    var cd, ed := CalendarDrafts(events).value, EmailDrafts(emails).value;
    var t1 := SyncAllOutcome(t, events, emails, llm1, now).table;
    FirstSyncSettles(t, cd, ed, llm1, now);
    AllOutcomeOfRuns(t1, events, emails, llm2, later);
    RetriedCalendar(t1, cd, later);
    AsksOnlyTurnedDown(t1, ed, llm1, llm2, later);
    EmailRunCountsAsked(llm2, t1, ed, later);
    EmailDraftsCarryEmails(emails);
    var asked := Run(EmailFeed(llm2), t1, ed, later).asked;
    forall k | 0 <= k < |asked|
      ensures exists i :: 0 <= i < |emails| && asked[k] == emails[i] && Decide(llm1, ed[i]) == Discard
    {
      var i :| 0 <= i < |ed| && asked[k] == RawEmail(ed[i]) && Decide(llm1, ed[i]) == Discard;
      assert asked[k] == emails[i];
    }
  }

  /** Each email draft hands the LLM its own email. */
  lemma EmailDraftsCarryEmails(emails: seq<Json>)
    requires forall i :: 0 <= i < |emails| ==> EmailSource.Printable(emails[i])
    requires EmailDrafts(emails).Ok?
    ensures forall i :: 0 <= i < |emails| ==> RawEmail(EmailDrafts(emails).value[i]) == emails[i]
  {
    forall i | 0 <= i < |emails| ensures RawEmail(EmailDrafts(emails).value[i]) == emails[i] {
      LlmSeesRawEmail(emails[i]);
    }
  }

  /**
   * `sync_all` in terms of its two loops: a run that returns had drafts from both
   * adapters, and its table, counts and questions are those of the calendar loop
   * followed by the email loop.
   */
  lemma AllOutcomeOfRuns(t: Table, events: seq<Json>, emails: seq<Json>, llm: Extractor, now: string)
    requires forall i :: 0 <= i < |events| ==> CalendarSource.Printable(events[i])
    requires forall i :: 0 <= i < |emails| ==> EmailSource.Printable(emails[i])
    ensures var o := SyncAllOutcome(t, events, emails, llm, now);
      o.result.Ok? ==> CalendarDrafts(events).Ok? && EmailDrafts(emails).Ok?
    ensures CalendarDrafts(events).Ok? && EmailDrafts(emails).Ok? ==>
      && AllKeyed(CalendarDrafts(events).value) && AllKeyed(EmailDrafts(emails).value)
      && var o := SyncAllOutcome(t, events, emails, llm, now);
         var cal := Run(CalendarFeed, t, CalendarDrafts(events).value, now);
         var em := Run(EmailFeed(llm), cal.table, EmailDrafts(emails).value, now);
         (cal.result.Ok? ==> o.asked == cal.asked + em.asked)
         && (o.result.Ok? <==> cal.result.Ok? && em.result.Ok?)
         && (o.result.Ok? ==>
               o.table == em.table && o.result.value.calendar == cal.result.value && o.result.value.email == em.result.value)
  {
    CalendarDraftsKeyed(events);
    EmailDraftsKeyed(emails);
  }

  /** A sync never changes the table's schema. */
  lemma {:induction false} RunKeepsSchema(feed: Feed, t: Table, drafts: seq<Record>, now: string)
    requires AllKeyed(drafts)
    ensures Run(feed, t, drafts, now).table.schema == t.schema
    decreases |drafts|
  {
    if drafts != [] {
      RunKeepsSchema(feed, t, drafts[..|drafts| - 1], now);
    }
  }

  /**
   * In the written schema an iteration's count, error and question to the LLM depend
   * neither on the table's rows nor on the time of the call.
   */
  lemma StepIgnoresRows(feed: Feed, t1: Table, t2: Table, d: Record, now1: string, now2: string)
    requires t1.schema == AsWritten && t2.schema == AsWritten && Keyed(d)
    ensures Step(feed, t1, d, now1).result == Step(feed, t2, d, now2).result
    ensures Step(feed, t1, d, now1).asked == Step(feed, t2, d, now2).asked
  {
    LookupBlindAsWritten(t1, ExternalId(d));
    LookupBlindAsWritten(t2, ExternalId(d));
    if Plan(feed, d).Persist? {
      var item := JObj(Plan(feed, d).item);
      NewRowOkIffAccepts(AsWritten, item, now1);
      NewRowOkIffAccepts(AsWritten, item, now2);
    }
  }

  /**
   * In the written schema a sync's count, the error it raises and the emails it hands
   * to the LLM depend neither on the rows already stored, because the lookup never finds
   * one, nor on the time of the sync.
   */
  lemma {:induction false} RunIgnoresRows(feed: Feed, t1: Table, t2: Table, drafts: seq<Record>, now1: string, now2: string)
    requires t1.schema == AsWritten && t2.schema == AsWritten && AllKeyed(drafts)
    ensures Run(feed, t1, drafts, now1).result == Run(feed, t2, drafts, now2).result
    ensures Run(feed, t1, drafts, now1).asked == Run(feed, t2, drafts, now2).asked
    decreases |drafts|
  {
    if drafts != [] {
      var front := drafts[..|drafts| - 1];
      RunIgnoresRows(feed, t1, t2, front, now1, now2);
      RunKeepsSchema(feed, t1, front, now1);
      RunKeepsSchema(feed, t2, front, now2);
      StepIgnoresRows(feed, Run(feed, t1, front, now1).table, Run(feed, t2, front, now2).table, drafts[|drafts| - 1], now1, now2);
    }
  }

  /**
   * In the written schema, syncing the same drafts again at any later time stores every
   * one of them again: the second sync returns the count of the first and adds that many rows.
   */
  lemma ResyncDuplicates(feed: Feed, t: Table, drafts: seq<Record>, now: string, later: string)
    requires Valid(t) && t.schema == AsWritten && AllKeyed(drafts)
    requires Run(feed, t, drafts, now).result.Ok?
    ensures var o := Run(feed, t, drafts, now); var o2 := Run(feed, o.table, drafts, later);
      o2.result == o.result && o2.table.nextId == o.table.nextId + o.result.value
  {
    var o := Run(feed, t, drafts, now);
    RunGrown(feed, t, drafts, now);
    RunIgnoresRows(feed, t, o.table, drafts, now, later);
    RunGrown(feed, o.table, drafts, later);
  }

  /**
   * In the written schema a second `sync_all`, at any later time, returns the counts of
   * the first and stores that many rows again.
   */
  lemma SyncAllTwiceAsWritten(t: Table, events: seq<Json>, emails: seq<Json>, llm: Extractor, now: string, later: string)
    requires Valid(t) && t.schema == AsWritten
    requires forall i :: 0 <= i < |events| ==> CalendarSource.Printable(events[i])
    requires forall i :: 0 <= i < |emails| ==> EmailSource.Printable(emails[i])
    requires SyncAllOutcome(t, events, emails, llm, now).result.Ok?
    ensures var o := SyncAllOutcome(t, events, emails, llm, now);
      var o2 := SyncAllOutcome(o.table, events, emails, llm, later);
      o2.result.Ok? && o2.result.value == o.result.value && o2.table.nextId == o.table.nextId + o.result.value.total
  {
    CalendarDraftsKeyed(events);
    EmailDraftsKeyed(emails);
    var cd, ed := CalendarDrafts(events).value, EmailDrafts(emails).value;
    var o := SyncAllOutcome(t, events, emails, llm, now);
    var cal := Run(CalendarFeed, t, cd, now);
    RunGrown(CalendarFeed, t, cd, now);
    var em := Run(EmailFeed(llm), cal.table, ed, now);
    RunGrown(EmailFeed(llm), cal.table, ed, now);
    var cal2 := Run(CalendarFeed, em.table, cd, later);
    RunIgnoresRows(CalendarFeed, t, em.table, cd, now, later);
    RunGrown(CalendarFeed, em.table, cd, later);
    RunIgnoresRows(EmailFeed(llm), cal.table, cal2.table, ed, now, later);
    RunGrown(EmailFeed(llm), cal2.table, ed, later);
    SyncAllCounts(t, events, emails, llm, now);
    SyncAllCounts(o.table, events, emails, llm, later);
  }

  // ---------------------------------------------------------------- the orchestrator

  class SyncOrchestrator {
    const db: Storage.Database
    const llm: Extractor

    /** The orchestrator over a database and an LLM service whose calls get `reply` for each email. */
    constructor(db: Storage.Database, reply: Json -> LlmReply.Transport, loads: string -> LlmReply.Decoded)
      ensures this.db == db
      ensures forall email :: llm(email) == ExtractionLlm.ExtractFromEmail(reply(email), loads)
    {
      this.db := db;
      llm := email => ExtractionLlm.ExtractFromEmail(reply(email), loads);
    }

    /** `sync_all()` over the fetched events and emails. */
    method SyncAll(events: seq<Json>, emails: seq<Json>, now: string) returns (r: Result<Counts, SyncFailure>, ghost asked: seq<Json>)
      requires db.Valid()
      requires forall i :: 0 <= i < |events| ==> CalendarSource.Printable(events[i])
      requires forall i :: 0 <= i < |emails| ==> EmailSource.Printable(emails[i])
      modifies db
      ensures db.Valid()
      ensures AllOutcome(db.Model(), r, asked) == SyncAllOutcome(old(db.Model()), events, emails, llm, now)
    {
      ghost var o := SyncAllOutcome(db.Model(), events, emails, llm, now);
      CalendarDraftsKeyed(events);
      EmailDraftsKeyed(emails);
      ghost var cal := Sync(CalendarFeed, db.Model(), CalendarDrafts(events), now);
      var calendar := SyncCalendar(events, now);
      if calendar.Err? {
        return Err(calendar.error), [];
      }
      ghost var em := Sync(EmailFeed(llm), cal.table, EmailDrafts(emails), now);
      var email, emailAsked := SyncEmail(emails, now);
      asked := emailAsked;
      assert [] + asked == asked;
      if email.Err? {
        return Err(email.error), asked;
      }
      r := Ok(Counts(calendar.value, email.value, calendar.value + email.value));
      assert r.value == o.result.value;
    }

    /** `sync_calendar()` over the fetched events: the number of drafts stored, or why it raised. */
    method SyncCalendar(events: seq<Json>, now: string) returns (count: Result<nat, SyncFailure>)
      requires db.Valid()
      requires forall i :: 0 <= i < |events| ==> CalendarSource.Printable(events[i])
      modifies db
      ensures db.Valid()
      ensures CalendarDrafts(events).Ok? ==> AllKeyed(CalendarDrafts(events).value)
      ensures Outcome(db.Model(), count, []) == Sync(CalendarFeed, old(db.Model()), CalendarDrafts(events), now)
    {
      CalendarDraftsKeyed(events);
      var items := CalendarSource.TransformToItems(events);
      if items.Err? {
        return Err(SourceRaised(items.error));
      }
      count := SaveCalendarDrafts(items.value, now);
    }

    /** The loop of `sync_calendar()` over the drafts. */
    method SaveCalendarDrafts(items: seq<Record>, now: string) returns (count: Result<nat, SyncFailure>)
      requires db.Valid() && AllKeyed(items)
      modifies db
      ensures db.Valid()
      ensures Outcome(db.Model(), count, []) == Run(CalendarFeed, old(db.Model()), items, now)
    {
      ghost var t0 := db.Model();
      var n: nat := 0;
      var i := 0;
      while i < |items|
        invariant 0 <= i <= |items| && db.Valid()
        invariant Counted(Run(CalendarFeed, t0, items[..i], now), db.Model(), n, [])
      {
        ghost var t := db.Model();
        var r := SyncEvent(items[i], now);
        Advance(CalendarFeed, t0, items, now, i, n, [], t, db.Model(), r, []);
        if r.Err? {
          return r;
        }
        n := n + r.value;
        i := i + 1;
      }
      assert items[..i] == items;
      count := Ok(n);
    }

    /** The body of the calendar loop: store the draft unless its external id is found. */
    method SyncEvent(d: Record, now: string) returns (r: Result<nat, SyncFailure>)
      requires db.Valid() && Keyed(d)
      modifies db
      ensures db.Valid()
      ensures Outcome(db.Model(), r, []) == Step(CalendarFeed, old(db.Model()), d, now)
    {
      var existing := db.GetItemByExternalId(d["external_id"].s);
      if existing.Some? {
        return Ok(0);
      }
      var created := db.CreateItem(JObj(d), now);
      if created.Err? {
        return Err(StoreFailed(created.error));
      }
      r := Ok(1);
    }

    /** `sync_email()` over the fetched emails: the number of drafts stored or why it raised; `asked` lists the emails sent for enrichment. */
    method SyncEmail(emails: seq<Json>, now: string) returns (count: Result<nat, SyncFailure>, ghost asked: seq<Json>)
      requires db.Valid()
      requires forall i :: 0 <= i < |emails| ==> EmailSource.Printable(emails[i])
      modifies db
      ensures db.Valid()
      ensures EmailDrafts(emails).Ok? ==> AllKeyed(EmailDrafts(emails).value)
      ensures Outcome(db.Model(), count, asked) == Sync(EmailFeed(llm), old(db.Model()), EmailDrafts(emails), now)
    {
      EmailDraftsKeyed(emails);
      var items := EmailSource.TransformToItems(emails);
      if items.Err? {
        return Err(SourceRaised(items.error)), [];
      }
      count, asked := EnhanceEmailDrafts(items.value, now);
    }

    /** The loop of `sync_email()` over the drafts. */
    method EnhanceEmailDrafts(items: seq<Record>, now: string) returns (count: Result<nat, SyncFailure>, ghost asked: seq<Json>)
      requires db.Valid() && AllKeyed(items)
      modifies db
      ensures db.Valid()
      ensures Outcome(db.Model(), count, asked) == Run(EmailFeed(llm), old(db.Model()), items, now)
    {
      ghost var t0 := db.Model();
      var n: nat := 0;
      asked := [];
      var i := 0;
      while i < |items|
        invariant 0 <= i <= |items| && db.Valid()
        invariant Counted(Run(EmailFeed(llm), t0, items[..i], now), db.Model(), n, asked)
      {
        ghost var t := db.Model();
        var r, got := SyncEmailDraft(items[i], now);
        Advance(EmailFeed(llm), t0, items, now, i, n, asked, t, db.Model(), r, got);
        asked := asked + got;
        if r.Err? {
          return r, asked;
        }
        n := n + r.value;
        i := i + 1;
      }
      assert items[..i] == items;
      count := Ok(n);
    }

    /**
     * The body of the email loop: skip a draft whose external id is found; otherwise ask
     * the LLM and store the merged draft when the answer is relevant.
     */
    method SyncEmailDraft(d: Record, now: string) returns (r: Result<nat, SyncFailure>, ghost asked: seq<Json>)
      requires db.Valid() && Keyed(d)
      modifies db
      ensures db.Valid()
      ensures Outcome(db.Model(), r, asked) == Step(EmailFeed(llm), old(db.Model()), d, now)
    {
      var existing := db.GetItemByExternalId(d["external_id"].s);
      if existing.Some? {
        return Ok(0), [];
      }
      var decision;
      decision, asked := Enrichment(d);
      match decision
      case Discard =>
        r := Ok(0);
      case Raise(message) =>
        r := Err(EnrichmentRaised(message));
      case Persist(item) =>
        var created := db.CreateItem(JObj(item), now);
        if created.Err? {
          return Err(StoreFailed(created.error)), asked;
        }
        r := Ok(1);
    }

    /**
     * The gate of the email loop: pop the email, ask the LLM about it, and merge the
     * answer over the draft when it is a relevant dict; `asked` is the email sent.
     */
    method Enrichment(d: Record) returns (decision: Decision, ghost asked: seq<Json>)
      requires Keyed(d)
      ensures decision == Decide(llm, d) && asked == [RawEmail(d)]
    {
      var rawEmail := Get(d, "_raw_email", JObj(map[]));
      var item := d - {"_raw_email"};
      assert item == Popped(d);
      asked := [rawEmail];
      var llmResult := llm(rawEmail);
      if llmResult.NotExtracted? {
        return Discard, asked;
      }
      var data := llmResult.data;
      if !data.JObj? {
        return Raise(NoAttribute(data, "get")), asked;
      }
      if !Truthy(Get(data.fields, "relevant", JNull)) {
        return Discard, asked;
      }
      var enhanced := data.fields;
      item := item["title" := Get(enhanced, "title", item["title"])];
      item := item["description" := Get(enhanced, "description", item["description"])];
      item := item["datetime" := Get(enhanced, "datetime", item["datetime"])];
      item := item["priority" := Get(enhanced, "priority", item["priority"])];
      item := item["type" := Get(enhanced, "type", item["type"])];
      decision := Persist(item);
    }
  }
}
