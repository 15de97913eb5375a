# Productivity assistant: the ingestion pipeline in Dafny

This project models the backend ingestion pipeline of the productivity assistant. The pipeline turns calendar events, emails and LLM output into rows of one SQLite `items` table, and writes each new row to a semantic index. The model covers six parts:

- **The items table** (`backend/database.py`). `ItemStore` defines the table as a value: columns, CHECK and NOT NULL constraints, TEXT affinity, AUTOINCREMENT ids, and the filtered and range listings with their ORDER BY. `Storage.Database` is a class holding such a table; each of its methods is proved against the matching function.
- **The source adapters** (`calendar_source.py`, `email_source.py`). `CalendarSource` and `EmailSource` hold `transform_to_items` as a loop over the raw records, plus the per-record rules as functions. `Drafts` is the draft dict both adapters build.
- **The sync orchestrator** (`backend/processing/sync_orchestrator.py`). `SyncOrchestration` covers:
  - the `SyncOrchestrator` class, whose `sync_all`, `sync_calendar` and `sync_email` loops are proved against `Run` and `Step`;
  - the deduplication by `external_id`;
  - the enrichment gate and the field merge;
  - what a second sync does.
- **The two intent processors.**
  - `IntentProcessing` is `backend/processing/intent_processor.py`. It isolates failures per item.
  - `AppIntent` is `backend/intent_processor.py`, the variant the HTTP layer uses. It has no failure handling.
  - Both write to the table and to `SemanticIndex.VectorStore`, an index whose writes may fail.
- **LLM response post-processing** of both LLM services.
  - `LlmReply` holds the cleaning, the shape check and the error mapping the two services share.
  - `ExtractionLlm` is `backend/llm_extraction/llm_service.py`, including `extract_from_email`.
  - `ApiLlm` is `backend/llm_service.py`.
- **Helpers** (`backend/utils.py`). `Utils` covers `validate_item_type`, and `format_datetime` over a model of `datetime.fromisoformat`.

`PyText` and `JsonValue` model the Python string operations and dict values the code relies on. Dicts are `map<string, Json>`.

The table has a schema flag:

- **`AsWritten`** is the schema of `backend/database.py`. `create_item` drops `source` and `external_id`, and `get_item_by_external_id` always returns None.
- **`WithSourceColumns`** adds the two columns and a lookup that honours them.

The sync lemmas are proved for both schemas. With `AsWritten`, every sync stores its drafts again. With `WithSourceColumns`, a second sync adds nothing when its LLM answers as before; when the LLM answers differently, it stores no calendar draft again and only emails the first sync's LLM turned down.

The model keeps these behaviours of the code:

- **Failed or irrelevant enrichment.** An email whose enrichment fails or is not relevant is discarded. However, an enrichment whose data is not a dict raises `AttributeError` and ends the sync (`Decision.Raise`).
- **Failures in sync.** A failing `create_item` inside a sync propagates: the count is lost and later drafts are not processed.
- **Malformed records.** A raw record on which `transform_to_items` raises (a non-dict record, a non-str title or subject, attendees without a length, a subscripted str or list `start`, a snippet that cannot be sliced) ends that sync before any lookup (`SyncFailure.SourceRaised`).
- **The wired intent processor** stops at the first failure. It does not skip the failing item.
- **`source` and `external_id` are not stored** by the written schema. The listings report `source` as 'manual'.
- **Idempotence** holds only with `WithSourceColumns`; see Findings.

## Model

| member | source | states |
|---|---|---|
| ItemStore.NewRow | backend/database.py:46-59 | a row that is inserted meets every column constraint, and its `created_at` equals its `updated_at`, which is the call's timestamp |
| ItemStore.Create | backend/database.py:39-65 | a refused insert leaves the table unchanged; an accepted one returns the next AUTOINCREMENT id, adds exactly that row and leaves every other row alone |
| ItemStore.NewRowOkIffAccepts | backend/database.py:21-34 | `create_item` succeeds iff the input is a dict with a type in task/note/reminder, a non-null title, a priority that is absent, None or low/medium/high, scalar bound values and tags that join |
| ItemStore.CreateDefaults | backend/database.py:50-58 | priority defaults to 'medium', completed to 0 and tags to ''; given tags are stored comma-joined; `created_at` equals `updated_at` |
| ItemStore.CreateDropsSourceAndExternalId | backend/database.py:47 | in the written schema the stored row has no `source` and no `external_id` |
| ItemStore.CreatePreservesValid | backend/database.py:23 | creating keeps the table valid, and a new id is above every id already in the table |
| ItemStore.CreateReadsBackStored | backend/database.py:61-65 | a create succeeds iff the predicted stored row exists, and `get_item_by_id` on the returned id then gives that row |
| ItemStore.CreateThenGet | backend/database.py:93-102 | after a create, the new id was absent before and now reads back with its id and timestamp; every other id reads as before |
| ItemStore.Update | backend/database.py:111-128 | the flag is true iff the row exists; on success only that row changes, and it gets the new `updated_at`; otherwise the table is unchanged |
| ItemStore.UpdateReportsExistence | backend/database.py:122-128 | with known columns and scalar values, a missing id gives (unchanged table, False) and an existing one never gives False |
| ItemStore.UpdateChangesOnlyPatched | backend/database.py:119-122 | a patched column takes the stored form of its new value; every column not patched keeps its old value |
| ItemStore.UpdatePreservesValid | backend/database.py:111-128 | an update keeps the table valid |
| ItemStore.Delete | backend/database.py:130-141 | the result is true iff the row existed; afterwards the id reads as None, every other id reads as before, and the id counter is unchanged |
| ItemStore.DeletePreservesValid | backend/database.py:135 | a delete keeps the table valid |
| ItemStore.NoIdReuseAfterDelete | backend/database.py:23 | AUTOINCREMENT never hands a deleted id out again |
| ItemStore.LookupBlindAsWritten | backend/database.py:104-109 | in the written schema the external-id lookup finds nothing, whatever the table holds |
| ItemStore.CreatedExternalIdFound | backend/database.py:104-109 | with the source columns, a created draft's external id is found afterwards |
| ItemStore.CreateKeepsExternalIds | backend/database.py:46-59 | creating a row never hides an external id that was found before |
| ItemStore.InsertSorted | backend/database.py:73 | one step of the ORDER BY: the result is the keys plus the inserted key, as a multiset |
| ItemStore.InsertSortedSorted | backend/database.py:73 | inserting into a sorted listing keeps it sorted |
| ItemStore.BeforeTransitive | backend/database.py:153 | the listing order is transitive |
| ItemStore.WithDefaults | backend/database.py:82-89 | every listed row has `source` and `priority`: 'manual' and 'medium' where the row lacks them, and every other field unchanged |
| ItemStore.ListedSource | backend/database.py:85-86 | in the written schema every listed row reads as source 'manual'; with the source columns it reads as stored |
| ItemStore.ValidateItemTypeMatchesCheck | backend/utils.py:15-17 | `validate_item_type` accepts exactly the types the CHECK constraint admits |
| ItemStore.ById | backend/database.py:98-102 | the row `SELECT * ... WHERE id = ?` finds, as a dict carrying its id; proved against by `CreateThenGet` and `Delete` |
| ItemStore.Patch | backend/database.py:116-120 | the updates plus `updated_at` set to the call's timestamp; proved against by `UpdateChangesOnlyPatched` |
| ItemStore.HasExternalId | backend/database.py:104-109 | some stored row holds the external id, the lookup the corrected schema answers; proved against by `CreatedExternalIdFound` and `CreateKeepsExternalIds` |
| ItemStore.TypeListing | backend/database.py:72-75 | definition: the keys are every row of the chosen type (every row when none is chosen) once, newest `created_at` first; `Storage.Database.GetAllItems` is proved against it |
| ItemStore.RangeListing | backend/database.py:148-154 | definition: the keys are every row with a non-null datetime in range once, earliest first; `Storage.Database.GetItemsByDateRange` is proved against it |
| ItemStore.Present | backend/database.py:81-89 | one dict per key, in listing order, each with the `source` and `priority` defaults; `Storage.PresentRows` is proved against it |
| Storage.SortKeys | backend/database.py:73-77 | the ORDER BY as a loop: the listing is a permutation of the chosen ids, sorted by the column |
| Storage.PresentRows | backend/database.py:81-91 | the loop after the query builds the dict of each fetched row, with defaults, in listing order |
| Storage.Database.CreateItem | backend/database.py:39-65 | the new table and the result are those of `Create` on the old table |
| Storage.Database.GetItemById | backend/database.py:93-102 | Some iff the id is in the table, and then the row as a dict carrying its id |
| Storage.Database.GetItemByExternalId | backend/database.py:104-109 | Some iff the lookup finds the id (never in the written schema), and then a row holding that external id |
| Storage.Database.UpdateItem | backend/database.py:111-128 | the new table and flag are those of `Update`; the caller's dict gains `updated_at` |
| Storage.Database.DeleteItem | backend/database.py:130-141 | the new table and flag are those of `Delete` |
| Storage.Database.GetAllItems | backend/database.py:67-91 | every row of the requested type once (every row when the type is falsy), newest `created_at` first, with defaults filled in |
| Storage.Database.GetItemsByDateRange | backend/database.py:142-170 | every row with a non-null datetime between the bounds, inclusive in text order, once each, earliest first, with defaults |
| CalendarSource.TransformToItems | backend/ingestion/calendar_source.py:42-89 | one draft per event, in input order, each the event's draft; or the exception of the first event that raises, with no draft returned |
| CalendarSource.TransformEvent | backend/ingestion/calendar_source.py:46-87 | the loop body builds the draft of one event, or raises as Python does on a non-dict event, a subscripted str or list `start`, attendees without a length or a non-str title |
| CalendarSource.EventRaises | backend/ingestion/calendar_source.py:46-73 | an event raises iff it is not a dict, its `start` raises, its attendees have no length or its title is not a string |
| CalendarSource.EventFields | backend/ingestion/calendar_source.py:75-85 | the draft has exactly the documented keys, with every field as the rules set it |
| CalendarSource.EventDatetimeRule | backend/ingestion/calendar_source.py:48-55 | for a dict `start` the datetime is `dateTime`, else `date` + "T09:00:00", else None; a str or list `start` gives None unless the `in` test finds a key, which then raises on the subscript; None, a bool or a number raises |
| CalendarSource.EventPriorityRule | backend/ingestion/calendar_source.py:57-64 | priority is 'high' iff more than 5 attendees, 'medium' iff 1 to 5, 'low' iff none |
| CalendarSource.EventTypeRule | backend/ingestion/calendar_source.py:66-73 | 'note' iff the lower-cased title has birthday/anniversary; otherwise 'task' iff it has deadline/due/submit; otherwise 'reminder' |
| CalendarSource.EventDefaults | backend/ingestion/calendar_source.py:67-78 | the title defaults to 'Untitled Event' and the description to '' |
| CalendarSource.EventExternalId | backend/ingestion/calendar_source.py:83 | the external id is "cal_" + str(id); equal ids give equal external ids, and distinct string ids give distinct ones |
| CalendarSource.EventDraftDocumented | backend/ingestion/calendar_source.py:81-84 | every draft has the documented format, with source 'calendar', tags ['calendar','meeting'] and completed False |
| CalendarSource.EventDraftInsertable | backend/ingestion/calendar_source.py:75-85 | `create_item` accepts every calendar draft whose description and datetime are scalars |
| CalendarSource.EventToItem | backend/ingestion/calendar_source.py:46-85 | definition of one loop iteration: the draft or the exception; proved against by `EventRaises`, `EventFields` and `EventDraftDocumented` |
| CalendarSource.EventDatetime | backend/ingestion/calendar_source.py:48-55 | the datetime is `dateTime`, else `date` at nine o'clock, else None; proved against by `EventDatetimeRule` |
| CalendarSource.EventPriority | backend/ingestion/calendar_source.py:58-64 | the result is high, medium or low; the thresholds are proved by `EventPriorityRule` |
| CalendarSource.EventType | backend/ingestion/calendar_source.py:67-73 | the result is note, task or reminder; the word order is proved by `EventTypeRule` |
| CalendarSource.StartOf | backend/ingestion/calendar_source.py:48-55 | the datetime step of the loop body gives `EventDatetime` of the start |
| CalendarSource.PriorityOf | backend/ingestion/calendar_source.py:57-64 | the priority step of the loop body gives `EventPriority` of the attendee count |
| CalendarSource.TypeOf | backend/ingestion/calendar_source.py:66-73 | the type step, a default overwritten by the first matching word list, gives `EventType` of the title |
| EmailSource.TransformToItems | backend/ingestion/email_source.py:41-83 | one draft per email, in input order, each the email's draft; or the exception of the first email that raises |
| EmailSource.TransformEmail | backend/ingestion/email_source.py:50-81 | the loop body builds the draft of one email (a str or list snippet is sliced), or raises as Python does |
| EmailSource.EmailRaises | backend/ingestion/email_source.py:52-71 | an email raises iff it is not a dict, its subject is not a string, or its snippet is neither a string nor a list |
| EmailSource.EmailKeys | backend/ingestion/email_source.py:68-79 | a draft has exactly the documented keys plus `_raw_email` |
| EmailSource.ClassifyRule | backend/ingestion/email_source.py:54-66 | in order on the lower-cased subject: deadline/submit gives task/high, meeting/interview reminder/high, seminar/workshop reminder/medium, anything else note/medium |
| EmailSource.EmailFields | backend/ingestion/email_source.py:68-79 | every field of the draft as the loop body sets it |
| EmailSource.EmailTruncation | backend/ingestion/email_source.py:70-71 | the title is a prefix of the subject, at most 100 characters, all of it when short enough; likewise the description and the snippet with 300, in characters for a str and in elements for a list |
| EmailSource.EmailDraftDocumented | backend/ingestion/email_source.py:72-77 | every draft has the documented format plus `_raw_email`, with datetime None, tags ['email'], source 'email' and completed False |
| EmailSource.EmailKeepsRecord | backend/ingestion/email_source.py:78 | `_raw_email` holds the email unchanged |
| EmailSource.EmailExternalId | backend/ingestion/email_source.py:76 | the external id is "email_" + str(id); it is deterministic, and distinct string ids give distinct ones |
| EmailSource.Classify | backend/ingestion/email_source.py:54-66 | the type is task, note or reminder and the priority low, medium or high; the four-way order is proved by `ClassifyRule` |
| EmailSource.Slice | backend/ingestion/email_source.py:70-71 | definition of `v[:n]`: a string or list is cut, a dict or scalar raises; proved against by `EmailTruncation` |
| EmailSource.EmailToItem | backend/ingestion/email_source.py:50-79 | definition of one loop iteration: the draft or the exception; proved against by `EmailRaises`, `EmailFields` and `EmailKeys` |
| SyncOrchestration.SyncOrchestrator.SyncAll | backend/processing/sync_orchestrator.py:25-34 | the new table, the counts and the emails asked about are those of `SyncAllOutcome`: the calendar sync, then the email sync, and total = calendar + email |
| SyncOrchestration.SyncOrchestrator.SyncCalendar | backend/processing/sync_orchestrator.py:36-54 | the calendar loop over the transformed events, as `Run` over the calendar drafts |
| SyncOrchestration.SyncOrchestrator.SaveCalendarDrafts | backend/processing/sync_orchestrator.py:45-54 | the counting loop, proved against `Run` by a prefix invariant |
| SyncOrchestration.SyncOrchestrator.SyncEvent | backend/processing/sync_orchestrator.py:48-52 | one calendar iteration is `Step`: look the id up, and create the draft when it is not found |
| SyncOrchestration.SyncOrchestrator.SyncEmail | backend/processing/sync_orchestrator.py:56-89 | the email loop over the transformed emails, as `Run` with the LLM |
| SyncOrchestration.SyncOrchestrator.EnhanceEmailDrafts | backend/processing/sync_orchestrator.py:65-89 | the counting loop, proved against `Run`, including the emails handed to the LLM |
| SyncOrchestration.SyncOrchestrator.SyncEmailDraft | backend/processing/sync_orchestrator.py:66-87 | one email iteration is `Step`: skip when found, otherwise enrich, then discard, raise or create |
| SyncOrchestration.SyncOrchestrator.Enrichment | backend/processing/sync_orchestrator.py:74-84 | pop `_raw_email`, ask the LLM about exactly that email, and merge the five fields in place, giving `Decide` |
| SyncOrchestration.CalendarIteration | backend/processing/sync_orchestrator.py:48-52 | a calendar draft is stored iff it is not found and `create_item` accepts it; found means count 0 and no change; the LLM is never asked |
| SyncOrchestration.EmailIteration | backend/processing/sync_orchestrator.py:68-87 | the LLM is asked iff the draft is not found; the draft is stored iff not found, relevant and accepted; an answer that is not a dict raises; otherwise the table is unchanged |
| SyncOrchestration.MergeRule | backend/processing/sync_orchestrator.py:80-84 | each of title, description, datetime, priority and type comes from the enrichment when present, even as None, else from the draft; other keys are untouched |
| SyncOrchestration.PersistedDraft | backend/processing/sync_orchestrator.py:74 | a stored email draft lacks `_raw_email`, has the draft's other keys, and keeps every non-merged field, the external id among them |
| SyncOrchestration.LlmSeesRawEmail | backend/processing/sync_orchestrator.py:74-75 | the LLM is handed the email exactly as it came from the mailbox |
| SyncOrchestration.Popped | backend/processing/sync_orchestrator.py:74 | the popped draft has no `_raw_email` and keeps the merged keys |
| SyncOrchestration.StepGrown | backend/processing/sync_orchestrator.py:46-53 | one iteration adds at most one row, counts what it adds, and adds nothing when it raises |
| SyncOrchestration.RunGrown | backend/processing/sync_orchestrator.py:45-54 | a sync's count is the number of rows it added, at most one per draft; old rows stay unchanged, whether the sync returned or raised |
| SyncOrchestration.CalendarNeverAsks | backend/processing/sync_orchestrator.py:36-54 | calendar drafts never reach the LLM |
| SyncOrchestration.SyncAllCounts | backend/processing/sync_orchestrator.py:25-34 | the counts are the two syncs' counts in order, total is their sum and the number of rows added; when the calendar sync raises, no email reaches the LLM |
| SyncOrchestration.RunStops | backend/processing/sync_orchestrator.py:46-53 | once an iteration raises, the later drafts are never looked at |
| SyncOrchestration.Advance | backend/processing/sync_orchestrator.py:46-53 | the loop over the first i+1 drafts is the loop over the first i followed by iteration i |
| SyncOrchestration.StepSettles | backend/processing/sync_orchestrator.py:48-52 | with the source columns, an iteration that returns leaves its draft found or turned down |
| SyncOrchestration.RunSettles | backend/processing/sync_orchestrator.py:44-53 | with the source columns, a sync that returns leaves every one of its drafts found or turned down |
| SyncOrchestration.RunKeepsSettled | backend/processing/sync_orchestrator.py:46-53 | a sync never makes a found draft unfound |
| SyncOrchestration.SettledRunIdle | backend/processing/sync_orchestrator.py:66-71 | a sync over drafts that are all found or turned down adds nothing and counts 0 |
| SyncOrchestration.SecondRunAddsNothing | backend/processing/sync_orchestrator.py:14-16 | with the source columns, a second sync of the same drafts at any later time counts 0 and leaves the table unchanged |
| SyncOrchestration.SyncAllTwice | backend/processing/sync_orchestrator.py:25-34 | with the source columns, a second `sync_all` whose LLM answers as in the first returns calendar 0, email 0, total 0 and adds no row |
| SyncOrchestration.SyncAllRetried | backend/processing/sync_orchestrator.py:25-87 | with the source columns and an LLM that may answer differently the second time: the second `sync_all` stores no calendar draft, hands the LLM only emails the first sync's LLM turned down, and stores at most one draft per email it hands over |
| SyncOrchestration.RunAsksOnlyUnfound | backend/processing/sync_orchestrator.py:68-75 | every email a sync hands to the LLM belongs to one of its drafts whose external id the starting table lacks |
| SyncOrchestration.EmailRunCountsAsked | backend/processing/sync_orchestrator.py:75-87 | the email sync's count never exceeds the number of emails it handed to the LLM |
| SyncOrchestration.RunKeepsSchema | backend/processing/sync_orchestrator.py:45-54 | a sync never changes the table's schema |
| SyncOrchestration.StepIgnoresRows | backend/database.py:104-109 | in the written schema an iteration's count, error and LLM question depend neither on the stored rows nor on the time of the call |
| SyncOrchestration.RunIgnoresRows | backend/database.py:104-109 | in the written schema a sync's count, error and LLM questions depend neither on the stored rows nor on the time of the sync |
| SyncOrchestration.ResyncDuplicates | backend/processing/sync_orchestrator.py:44-53 | in the written schema a second sync, at any later time, returns the first sync's count and adds that many rows again |
| SyncOrchestration.SyncAllTwiceAsWritten | backend/processing/sync_orchestrator.py:25-34 | in the written schema a second `sync_all`, at any later time, returns the first one's counts and stores that many rows again |
| SyncOrchestration.Merge | backend/processing/sync_orchestrator.py:80-84 | definition of the five `enhanced_data.get(k, item[k])` assignments; proved against by `MergeRule` |
| SyncOrchestration.Enrich | backend/processing/sync_orchestrator.py:77-84 | definition of the decision on the LLM result: store the merged draft, discard it, or raise; proved against by `PersistedDraft` and `EmailIteration` |
| SyncOrchestration.Decide | backend/processing/sync_orchestrator.py:74-84 | definition of pop, ask and decide for one email draft; proved against by `LlmSeesRawEmail`, `Popped` and `EmailIteration` |
| SyncOrchestration.Step | backend/processing/sync_orchestrator.py:48-52 | definition of one loop iteration of either sync; proved against by `CalendarIteration`, `EmailIteration` and `StepGrown` |
| SyncOrchestration.Run | backend/processing/sync_orchestrator.py:45-54 | definition of a sync loop over a prefix of the drafts; proved against by `RunGrown`, `RunStops`, `Advance` and `RunSettles` |
| SyncOrchestration.Sync | backend/processing/sync_orchestrator.py:36-54 | definition of one source's sync: the adapter's exception, or the loop over its drafts; proved against by `SyncAllCounts` |
| SyncOrchestration.SyncAllOutcome | backend/processing/sync_orchestrator.py:25-34 | definition of `sync_all`: calendar, then email, with their sum; proved against by `SyncAllCounts`, `SyncAllTwice` and `SyncAllRetried` |
| IntentProcessing.IntentProcessor.ProcessItems | backend/processing/intent_processor.py:10-44 | the new table, the index and the returned list are those of `Run` |
| IntentProcessing.IntentProcessor.ProcessItem | backend/processing/intent_processor.py:17-42 | one loop iteration is `Step`: create, try to index, read back, or skip the item when `create_item` raises |
| IntentProcessing.RunReturnsCreatedRows | backend/processing/intent_processor.py:14-44 | the list is, in input order, the row read back for each item `create_item` takes, under consecutive ids; one id per row, never more rows than items |
| IntentProcessing.Expected | backend/processing/intent_processor.py:36-38 | the prediction of the returned rows is never longer than the items |
| IntentProcessing.RefusedItemSkipped | backend/processing/intent_processor.py:39-42 | an item `create_item` refuses is skipped, and the run goes on with the next item |
| IntentProcessing.StepAppendsCreatedRow | backend/processing/intent_processor.py:36-38 | a created row is always appended; a refused item changes nothing |
| IntentProcessing.IndexFailuresHarmless | backend/processing/intent_processor.py:22-33 | whether the index accepts its writes changes neither the table nor the returned list |
| IntentProcessing.IndexHoldsOnlyCreatedRows | backend/processing/intent_processor.py:19-30 | the index is written only under ids `create_item` just returned, with that row's metadata; other entries and existing rows stay |
| IntentProcessing.StepOnlyCreated | backend/processing/intent_processor.py:19-30 | one iteration writes the index at most under the id it created |
| IntentProcessing.SearchTextLayout | backend/processing/intent_processor.py:23 | the search text is title, description or '' when it is falsy, and the space-joined tags, separated by single spaces |
| IntentProcessing.IndexedMetadataMatchesRow | backend/processing/intent_processor.py:25-29 | the metadata equals the created row's type, priority and comma-joined tags, so the 'task' default never applies |
| IntentProcessing.TagPartsAreJoinParts | backend/processing/intent_processor.py:28 | `or []` changes nothing for tags `create_item` took |
| IntentProcessing.SearchText | backend/processing/intent_processor.py:23 | definition of the indexed text; proved against by `SearchTextLayout` |
| IntentProcessing.Metadata | backend/processing/intent_processor.py:25-29 | definition of the indexed metadata; proved against by `IndexedMetadataMatchesRow` |
| IntentProcessing.Step | backend/processing/intent_processor.py:17-42 | definition of one guarded iteration; proved against by `StepAppendsCreatedRow` and `StepOnlyCreated` |
| IntentProcessing.Run | backend/processing/intent_processor.py:14-44 | definition of the loop; proved against by `RunReturnsCreatedRows`, `IndexFailuresHarmless` and `IndexHoldsOnlyCreatedRows` |
| AppIntent.IntentProcessor.ProcessItems | backend/intent_processor.py:10-31 | the new table, the index and the result (a list or the exception) are those of `Run` |
| AppIntent.IntentProcessor.ProcessItem | backend/intent_processor.py:16-29 | one loop iteration: create, index and read back, with any exception ending the call |
| AppIntent.RefusedItemContrast | backend/intent_processor.py:17 | an item `create_item` refuses ends this call with nothing written, while the guarded processor skips it |
| AppIntent.IndexFailureLeavesRow | backend/intent_processor.py:26 | an `add_item` failure raises after the new row is stored and before it is indexed |
| AppIntent.ReturnedRunAcceptedAll | backend/intent_processor.py:16-29 | a call that returns was given only items `create_item` takes |
| AppIntent.ReturnedRunLength | backend/intent_processor.py:14-31 | a call that returns lists one entry and creates one row per item |
| AppIntent.ReturnedRunCreatedAll | backend/intent_processor.py:28-29 | a call that returns lists, in order, the row of every item under consecutive ids, none of them None |
| AppIntent.ReturnedRunIndexedAll | backend/intent_processor.py:26 | a call that returns has indexed every row it created and dropped no entry |
| AppIntent.RunAppends | backend/intent_processor.py:16-29 | running over a + b is running over a and then over b; a failure in b keeps what a wrote |
| AppIntent.StepReturned | backend/intent_processor.py:17-29 | an iteration that did not raise created its item under the next id, indexed it and read its row back |
| AppIntent.MetadataAgree | backend/intent_processor.py:21-25 | for every item `create_item` took, both processors index the same metadata; the type is copied and valid |
| AppIntent.SearchTextsAgreeUnlessFalsyDescription | backend/intent_processor.py:19 | the search texts agree iff the description is absent, '' or truthy |
| AppIntent.NoneDescriptionIndexed | backend/intent_processor.py:19 | a None description is indexed as "None" here and as nothing by the guarded processor |
| AppIntent.AgreesWithGuardedWithoutFailures | backend/intent_processor.py:14-31 | without failures both processors store the same rows and return the same records, here wrapped as Some |
| AppIntent.StepsAgree | backend/intent_processor.py:17-29 | one accepted item indexed without failure is the guarded processor's step |
| AppIntent.SearchText | backend/intent_processor.py:19 | definition of the indexed text, with no `or` guards; proved against by `SearchTextsAgreeUnlessFalsyDescription` |
| AppIntent.Metadata | backend/intent_processor.py:21-25 | definition of the indexed metadata; proved against by `MetadataAgree` |
| AppIntent.Step | backend/intent_processor.py:17-29 | definition of one unguarded iteration; proved against by `StepReturned` and `StepsAgree` |
| AppIntent.Run | backend/intent_processor.py:14-31 | definition of the loop up to its first exception; proved against by `RunAppends` and the `ReturnedRun` lemmas |
| SemanticIndex.VectorStore.AddItem | backend/vector_store.py:17-23 | the result is whether the collection took the write; only then is the entry stored under the id |
| SemanticIndex.VectorStore.DeleteItem | backend/vector_store.py:46-51 | nothing raises; the entry is removed when the collection deletes it and stays when the swallowed call failed |
| LlmReply.Interpret | backend/llm_extraction/llm_service.py:35-93 | a failure carries one of the six fixed error texts; only a parse error carries the raw text; a success has `items` |
| LlmReply.Shape | backend/llm_extraction/llm_service.py:53-67 | a success carries the cleaned text and has `items`; a failure is a structure or service error |
| LlmReply.ShapeRule | backend/llm_extraction/llm_service.py:53-61 | `items` passes through; `type`+`title` is wrapped as the one item; other objects are 'Invalid JSON structure'; a number, bool or None is a service error |
| LlmReply.CleanRemovesFences | backend/llm_extraction/llm_service.py:46-49 | text opening with a fence comes out with no fence anywhere |
| LlmReply.CleanTrimsPlainText | backend/llm_extraction/llm_service.py:45 | text not opening with a fence is only trimmed |
| LlmReply.CleanIdempotent | backend/llm_extraction/llm_service.py:45-49 | cleaning twice is cleaning once |
| LlmReply.TransportFailures | backend/llm_extraction/llm_service.py:69-93 | connection failure, timeout and any other exception map to their fixed records |
| LlmReply.StatusNotOk | backend/llm_extraction/llm_service.py:35-40 | a status other than 200 gives "Ollama API error" with details "Status code: N" |
| LlmReply.ParsedReply | backend/llm_extraction/llm_service.py:42-67 | a reply whose cleaned text parses is judged by its shape, and a success carries the cleaned text |
| LlmReply.UnparsedReply | backend/llm_extraction/llm_service.py:81-87 | text that does not parse gives the JSON error with the cleaned text; an unparsable body gives it with None |
| LlmReply.CleanResponse | backend/llm_extraction/llm_service.py:45-49 | definition of the reply cleaning; proved against by `CleanRemovesFences`, `CleanTrimsPlainText` and `CleanIdempotent` |
| ExtractionLlm.ParseNaturalLanguage | backend/llm_extraction/llm_service.py:69-80 | a timeout gives the fixed record with this service's details; every failure carries a fixed error text |
| ExtractionLlm.ExtractFromEmail | backend/llm_extraction/llm_service.py:119-135 | a status other than 200 gives "LLM request failed"; a failed call gives its message |
| ExtractionLlm.ExtractNoShapeCheck | backend/llm_extraction/llm_service.py:125-130 | whatever the cleaned text parses to is returned as the data, with no shape check |
| ExtractionLlm.ExtractMissingResponse | backend/llm_extraction/llm_service.py:120 | a missing `response` is read as "{}" |
| ExtractionLlm.EmailCleaningOnlyJsonFence | backend/llm_extraction/llm_service.py:121-123 | only a "```json" opening drops the fences; any other text is only trimmed |
| ExtractionLlm.BareFenceCleanedDifferently | backend/llm_extraction/llm_service.py:48-49 | a bare "```" fence is removed by `parse_natural_language` and kept by `extract_from_email` |
| ExtractionLlm.CleanEmailReply | backend/llm_extraction/llm_service.py:121-123 | definition of the enrichment reply cleaning; proved against by `EmailCleaningOnlyJsonFence` and `BareFenceCleanedDifferently` |
| ApiLlm.ParseNaturalLanguage | backend/llm_service.py:73-97 | a timeout gives the fixed record with this service's details; every failure carries a fixed error text |
| ApiLlm.ServicesAgreeExceptTimeout | backend/llm_service.py:35-97 | the two services give the same answer to every reply, except the details of a timeout |
| Utils.ValidateItemType | backend/utils.py:15-17 | true iff the type is 'task', 'note' or 'reminder' |
| Utils.FormatDatetime | backend/utils.py:4-13 | None iff the input is None or ''; an input that does not parse comes back unchanged |
| Utils.ParseIso | backend/utils.py:10 | a parsed timestamp has a date prefix, and every field lies in the range the `datetime` constructor enforces; lengths are counted as the C parser counts UTF-8 bytes (see `ParsedIsAscii`) |
| Utils.FormatKeepsDateHourMinute | backend/utils.py:10-11 | a parsed timestamp is shown as its date text, its hour and its minute, with seconds and offset dropped |
| Utils.DisplayParses | backend/utils.py:11 | the display of a timestamp with a four-digit year parses back to it, without seconds |
| Utils.ShortYearDisplayUnparsed | backend/utils.py:11 | the display of a year below 1000 does not parse |
| Utils.FormatIdempotent | backend/utils.py:4-13 | formatting a formatted timestamp changes nothing |
| Utils.Display | backend/utils.py:11 | definition of `strftime("%Y-%m-%d %H:%M")`; proved against by `DisplayParses` and `ShortYearDisplayUnparsed` |
| Utils.ParsedIsAscii | backend/utils.py:10 | every character of an accepted timestamp except the date-time separator is ASCII, so character and UTF-8 byte lengths agree |
| Utils.NonAsciiBeforeOffsetRejected | backend/utils.py:9-13 | a non-ASCII character after the hour and before an offset makes the parse fail, and `format_datetime` returns the text unchanged |
| PyText.NoFenceAfterRemoval | backend/llm_extraction/llm_service.py:47 | removing every fence cannot splice a new fence together |
| PyText.Take | backend/ingestion/email_source.py:70 | `s[:n]` is a prefix of at most n characters, all of s when it is short enough |
| PyText.Lower | backend/ingestion/email_source.py:55-61 | `str.lower()` keeps the length and maps each ASCII capital to its small letter |
| PyText.Strip | backend/llm_service.py:47-51 | definition of `str.strip()`; proved against by `StripIsStripped`, `StrippedIsFixed` and `StripIdempotent` |
| PyText.RemoveAll | backend/llm_service.py:49-51 | `s.replace(pat, '')` never lengthens the text; `NoFenceAfterRemoval` proves no fence is left |
| PyText.Join | backend/processing/intent_processor.py:23-28 | definition of `sep.join(parts)`; `JsonValue.JoinListOfStrings` ties it to the join of a list of strings |
| PyText.Decimal | backend/llm_service.py:39 | `str(n)` of an integer: non-empty, opening with a digit or a minus sign |
| JsonValue.JoinParts | backend/database.py:55 | `join` takes a list of strings element by element, a string character by character, a dict with at most one key by its key, and raises on a non-string element or a non-iterable value |
| JsonValue.Get | backend/processing/intent_processor.py:23-28 | definition of `d.get(k, default)`: the stored value when the key is present, else the default |
| JsonValue.Truthy | backend/processing/intent_processor.py:23 | definition of `bool(v)`: None, False, 0 and empty strings, lists and dicts are false |
| JsonValue.Str | backend/ingestion/calendar_source.py:83 | definition of `str(v)` for a scalar: "None", "True", "False", the decimal text or the string itself |
| JsonValue.PyIn | backend/llm_service.py:57-58 | `key in v` is key membership for a dict, element membership for a list, substring for a string, and a TypeError otherwise |
| Drafts.TransformAll | backend/ingestion/calendar_source.py:44-89 | the drafts of all records in order iff no record raises; otherwise the exception of a record before which none raised |

## Left out

- Fetching: `fetch_data` and `_fetch_mock_data` in both adapters (file I/O, the NotImplementedError branch). The syncs take the raw records as parameters.
- HTTP and JSON decoding: `requests.post`, `response.json()` and `json.loads` are parameters (`Transport`, `Decoded`, `loads`). The prompts around the call are not modelled.
- The LLM in the sync: modelled as a function from the email to the answer of `extract_from_email`. The same email gets the same answer throughout one sync; two syncs may use different functions.
- The clock: `datetime.now()` is a `now` parameter, one per call. Every row created by one sync shares it.
- Flask routing, HTTP status codes, the search endpoint and its float scores: not part of this model.
- `VectorStore.search`, chromadb internals and the cosine space are not part of this model. The index is a map from id to text and metadata, and its writes may fail.
- Maintenance scripts, `config.py` and `init_db`'s file handling: not part of this model. The constructor gives an empty table.
- Floating-point numbers: JSON numbers are integers.
- Unicode: `str.lower` maps only ASCII letters; `str.isspace` uses Python's whitespace set.
- `str()` of a list or dict is not modelled: it prints the `repr` of each element, with Python's quoting and escaping, and a dict's keys in insertion order, which a map does not keep. The adapters' `Printable` therefore requires that an `id`, and the all-day `date` of a dict `start`, are not lists or dicts. The members below carry that requirement and nothing more.
- CalendarSource.TransformToItems: requires `Printable` events (a list or dict `id` or all-day `date` is not modelled). Every other event shape is modelled, including those that raise.
- CalendarSource.TransformEvent: the same `Printable` requirement.
- EmailSource.TransformToItems: requires `Printable` emails (a list or dict `id` is not modelled). Every other email shape is modelled, including those that raise.
- EmailSource.TransformEmail: the same `Printable` requirement.
- SyncOrchestration.SyncOrchestrator.SyncAll: carries the adapters' `Printable` requirement.
- SyncOrchestration.SyncOrchestrator.SyncCalendar: carries `CalendarSource.Printable`.
- SyncOrchestration.SyncOrchestrator.SyncEmail: carries `EmailSource.Printable`.
- JsonValue.JoinParts: a dict of two or more keys is joined by Python in insertion order, which a map does not keep; the model reports it as `UnorderedKeys`, so `create_item` with such tags counts as refused here.
- ItemStore.Update: column names are matched exactly. SQLite also matches them case-insensitively and accepts the rowid aliases, and because the keys are pasted into the statement text (backend/database.py:119-122), a key holding SQL text can set further columns. All of these are reported as `NoSuchColumn` here.
- Storage.Database.UpdateItem: inherits `ItemStore.Update`'s exact column matching.
- Utils.ParseIso: models `datetime.fromisoformat` as in CPython 3.7 to 3.10. From 3.11 it also accepts a trailing 'Z', the basic format and fractions of 1 to 5 digits; there `format_datetime` reformats such inputs, while the model returns them unchanged.
- SQLite NUMERIC affinity converting numeric text to a number is not modelled. TEXT affinity and the BOOLEAN column are.
- Dict order and `print` side effects: not modelled.
- Storage.Database.UpdateItem: requires that `updates` does not hold `id`; reassigning a rowid is not modelled.
- CalendarSource.EventDraftInsertable: stated only for events whose description and datetime are scalars. Others make `create_item` raise, as `NewRowOkIffAccepts` states.
- Utils.FormatKeepsDateHourMinute: stated only for inputs whose year does not start with '0'. There `%Y` prints fewer than four digits (see `ShortYearDisplayUnparsed`).
- Utils.DisplayParses: stated only for years from 1000, for the same reason.
- SyncOrchestration.SecondRunAddsNothing: proved with the source columns only; with the written schema the opposite holds (`ResyncDuplicates`). Both runs use the same feed, so the LLM answers each email as before.
- SyncOrchestration.SyncAllTwice: both syncs use the same LLM answers; `SyncAllRetried` states what holds when the second sync's LLM answers differently.

## Findings

| source | as written | input that shows it | evidently intended | confidence | as-written member | corrected member |
|---|---|---|---|---|---|---|
| backend/database.py:104-109 | `get_item_by_external_id` always returns None, so the duplicate check in `sync_calendar` and `sync_email` never skips a draft | any calendar event `create_item` accepts, synced twice: the second sync stores it again and counts it again | a second sync against unchanged sources adds no row and returns 0 counts (the duplicate check of backend/processing/sync_orchestrator.py:14-16, 44) | not executed | SyncOrchestration.ResyncDuplicates | SyncOrchestration.SecondRunAddsNothing |
| backend/database.py:47 | the INSERT names no `source` or `external_id` column, so neither is stored and a later lookup has nothing to match | any calendar draft: the stored row has no `external_id` | the row keeps the adapter's `source` and `external_id`, so its external id is found afterwards | not executed | ItemStore.CreateDropsSourceAndExternalId | ItemStore.CreatedExternalIdFound |
