# Voicebot dashboard sync core, modelled in Dafny

This project models the core of the voicebot dashboard's back end. That
core copies conversations from the voice-agent provider into the
dashboard's SQLite store and keeps an audit row for every run. The
modelled parts are:

- **The provider client** (`elevenlabs_client.py`): the query parameters
  of one list request, and the cursor-driven loop that reads every page of
  the conversation list. The HTTP exchange is a function from a request to
  the decoded reply, or to the error `raise_for_status()` raises.
- **The sync run** (`sync_conversations` in `sync_service.py`):
  - the ledger row (`sync_logs`), opened as running and closed once;
  - the upsert of the listed conversations and its single commit;
  - the selection of the rows that still lack details;
  - the per-row detail pass, with each failure confined to its row, and
    its batch commit after every tenth completed detail;
  - the handler that records a failed run.

  The session does not autoflush. So a key listed twice in one run is
  inserted twice, and the flush at commit fails. A flush also fails when
  a value cannot be bound: a list or a dict in a column, an integer beyond
  64 bits, or a `has_audio` other than None, a boolean, 0 or 1.
- **`_update_conversation_details`**: the in-place update of one stored row
  from its detail document. It can stop half-way when the document, its
  `metadata` or its `analysis` is not a dict.
- **Phone extraction** (`_extract_phone_numbers`, `_deep_search_in_dict`,
  `_deep_find_phone_values`): the six-source cascade that finds the agent's
  and the client's numbers.
  - The keyword-guided search fills a result object in place.
  - The pattern-guided search is compared with an independent description:
    all scalar leaves, filtered.
- **The month partition**: the `YYYY-MM` of `utcfromtimestamp`, computed on
  the proleptic Gregorian calendar for the years 1 to 9999.
- **The settings table**: `get_setting`, `set_setting`, `get_agents` and
  `set_agents`.
- **Two KPI aggregations**:
  - `_compute_criteria_stats`: pass, fail and total per evaluation
    criterion, in order of first sight.
  - The integer part of `_compute_daily_trends`: total, success, failed
    and cost per UTC day, sorted by date.

How the modules map to the code:

- Imperative code is modelled as classes and methods, each proved against
  a specification function. This covers the settings table, the store and
  its commit, the ledger row, the upsert loop, the detail loop, the
  keyword search, the request parameters, the page loop, and the loops of
  the two aggregations.
- The pure parts are datatypes, functions and lemmas.
- Python values are the `Json` datatype. Python truthiness, `dict.get`,
  `or` chains and `str.strip()` are written out in `json.dfy`.
- Each exception the code can raise is an `Error` value in `outcomes.dfy`.

Where the system's own description and the code disagree, the model
follows the code:

- **Missing phones.** The description says a missing phone is null and
  never an empty string. The code stores `""` for a value made only of
  white space, and can keep a falsy non-None value from an `or` chain.
  `PhoneResolver.BlankNormalisesToEmpty` and `PhoneResolver.Normalise`
  state what the code does.
- **Numeric phone leaves.** The description says the pattern search
  collects numeric leaves too. The code tests `isinstance(obj, str)`, so a
  number is never a candidate (`PhoneSearch.CandidatesAreStringLeaves`).
- **Month partition.** The description calls it an invariant of the start
  time. The detail update rewrites `start_time_unix` from
  `metadata.start_time_unix_secs` (sync_service.py:437-438) and does not
  recompute `month_partition`. The model keeps that.
- **Finalised exactly once.** The description says a run is finalised
  exactly once. When a flush fails (the commit after the upsert loop, a
  batch commit of the detail pass, or the commit after it), the session
  refuses every later commit with `PendingRollbackError`. The handler's
  own commit then fails as well (or, when it is that commit's flush that
  fails, raises the flush error), so the ledger row stays `running`
  (`SyncLaws.SyncLedger`). The table keeps what the last commit that went
  through stored.
- **Malformed data.** The description says malformed data never raises.
  In the code:
  - a detail whose `metadata` or `analysis` is not a dict raises inside
    the update. The per-row handler catches it, after the earlier columns
    were written.
  - a list item that is not a dict raises an `AttributeError`, which the
    criteria statistics do not catch.
- **Enrichment overwritten.** The description says a later sync never
  overwrites enrichment fields. The list upsert rewrites `call_successful`
  and `transcript_summary` of a stored row from the listed item, null
  included (sync_service.py:109 and 112). `ReconcileLaws.RefreshAllColumns`
  states this.

## Model

| member | source | states |
|---|---|---|
| JsonValue.OrChain | sync_service.py:321-328 | A Python `a or b or …` chain. The result is truthy exactly when some operand is. It is then the first truthy operand; otherwise it is the last operand. |
| JsonValue.StripShape | sync_service.py:269 | `str.strip()` only removes white space from both ends: the result is a slice of the input with no white space at either end. It is empty exactly when the input is all white space. |
| JsonValue.StripStripped | sync_service.py:380-382 | A string with no white space at either end is its own strip. |
| PhoneSearch.DeepFind | sync_service.py:253-272 | Every candidate the pattern search returns is phone-shaped: optional `+`, then 8 to 17 characters that start and end with a digit and hold only digits, white space and hyphens. |
| PhoneSearch.MembersArePhoneLeaves | sync_service.py:261-264 | Searching a dict's members from position i gives the phone-shaped string leaves of those members, in insertion order. |
| PhoneSearch.ItemsArePhoneLeaves | sync_service.py:265-267 | Searching a list's elements from index i gives the phone-shaped string leaves of those elements, by ascending index. |
| PhoneSearch.DeepFindIsPhoneLeaves | sync_service.py:253-272 | The pattern search equals an independent definition: list every scalar leaf with its path, depth first, then keep the strings whose strip is phone-shaped. Order and paths are kept. |
| PhoneSearch.CandidatesAreStringLeaves | sync_service.py:268-271 | Each candidate is the stripped text of a string leaf found at the candidate's path. A number is never a candidate. |
| PhoneSearch.SearchResult.constructor | sync_service.py:348 | The result dict starts with neither `agent` nor `client`. |
| PhoneSearch.SearchResult.Keep | sync_service.py:401-405 | One string member: its stripped value goes to `agent` when the key is an agent keyword, no agent was known and none is set yet. The same holds for `client`. |
| PhoneSearch.DeepSearchInDict | sync_service.py:387-405 | The imperative recursive search leaves the result dict equal to the functional search over the members in order, nested dicts included. |
| PhoneSearch.SearchFindsFirst | sync_service.py:397-405 | The agent number found is the first non-blank, stripped string value under an agent keyword, in document order. It stays unset when an agent was already known or set. The same holds for the client. |
| PhoneResolver.Normalise | sync_service.py:378-382 | A truthy value becomes the strip of its `str()`, so it has no surrounding white space. A falsy value is returned unchanged. |
| PhoneResolver.StripIdempotent | sync_service.py:380-382 | Stripping twice is stripping once. |
| PhoneResolver.NormaliseStripped | sync_service.py:379-382 | A phone with no surrounding white space is stored unchanged. |
| PhoneResolver.BlankNormalisesToEmpty | sync_service.py:379-382 | A phone made only of white space is stored as the empty string, not as null. |
| PhoneResolver.ExtractPhoneNumbers | sync_service.py:275-384 | Each number is a string without surrounding white space, or a falsy value left as found. |
| PhoneResolver.LaterSourcesKeepResolved | sync_service.py:317-368 | No later source (call metadata, dynamic variables, keyword search, pattern search) replaces an agent or client number already found. |
| PhoneResolver.EarliestSourceWins | sync_service.py:290-384 | For each role independently, the stored number is the normalised value of the earliest source that resolved it. |
| PhoneResolver.TwilioBodyWins | sync_service.py:291-297 | A truthy `metadata.body.To` is the agent's number and a truthy `metadata.body.From` the client's, whatever the other sources hold. |
| PhoneResolver.BodyBeatsDynamicVariables | sync_service.py:290-344 | Body `To = "+1000"` beats dynamic variable `agent_number = "+2000"`: the agent number is "+1000". |
| PhoneResolver.ClassifyKeepsResolved | sync_service.py:361-368 | Path classification never replaces a number that is already set. |
| PhoneResolver.ClassifyAgentIsFirstMatch | sync_service.py:361-365 | With no agent yet, the agent number becomes the value of the first candidate whose lower-cased path holds an agent keyword. |
| PhoneResolver.ClassifyClientFromClientPath | sync_service.py:366-368 | The client number after classification is either unchanged or the value of a candidate whose path holds a client keyword. |
| PhoneResolver.ClassifyUnmarked | sync_service.py:361-368 | Candidates whose paths hold no keyword change nothing. |
| PhoneResolver.PositionalFallback | sync_service.py:370-376 | Neither number set and no keyword path: two or more candidates give the first to the agent and the second to the client. Exactly one candidate goes to the client only. None leaves both unset. |
| Calendar.FindYear | sync_service.py:103 | The year search never goes below its starting year. |
| Calendar.FindYearSpec | sync_service.py:103 | The year found is the proleptic Gregorian year that contains the day number. |
| Calendar.FindMonth | sync_service.py:103 | The month search returns a month between its start and 12. |
| Calendar.FindMonthSpec | sync_service.py:103 | The month found is the calendar month that contains the day number. |
| Calendar.CivilMonth | sync_service.py:103 | The year is at least 1 and the month lies in 1..12. |
| Calendar.CivilMonthSpec | sync_service.py:103 | The year and month computed contain the day. |
| Calendar.MonthIsUnique | sync_service.py:103 | A day lies in exactly one calendar month. |
| Calendar.MonthOfTimestamp | sync_service.py:103 | `utcfromtimestamp` succeeds exactly for instants in the years 1 to 9999, and then gives a year in 1..9999 and a month in 1..12. |
| Calendar.MonthOfTimestampSpec | sync_service.py:103 | That month is the UTC calendar month that contains the instant. |
| Calendar.FormatYearMonth | sync_service.py:103 | `%Y-%m` has seven characters: four digits, a dash, two digits. |
| Calendar.FormatRoundTrip | sync_service.py:103 | Reading back the year and month of a formatted partition gives them back. |
| Calendar.DateOfTimestamp | sync_service.py:585 | `utcfromtimestamp` succeeds exactly for the years 1 to 9999, and then gives a month in 1..12 and a day in 1..31. |
| Calendar.DateOfTimestampSpec | sync_service.py:585 | That date is the UTC calendar day that contains the instant. |
| Calendar.FormatDate | sync_service.py:585 | `%Y-%m-%d` has ten characters, starts with the `%Y-%m` partition of the same month, and has a dash after it. |
| Calendar.MonthPartition | sync_service.py:102-103 | A falsy start time gives "unknown". A string, list or dict raises a TypeError. A number gives a partition exactly when it falls in the years 1 to 9999, and the partition has seven characters. |
| Calendar.PartitionIsCalendarMonth | sync_service.py:103 | The partition of a non-zero instant is the `YYYY-MM` of the UTC calendar month that contains it. |
| Calendar.MarchExample | sync_service.py:102-103 | The start time 1710496800 (2024-03-15T10:00:00Z) gets the partition "2024-03". |
| ProviderClient.QueryParams | elevenlabs_client.py:28-40 | A request carries between three and seven parameters, `agent_id`, `page_size` and `summary_mode` first. |
| ProviderClient.QueryParamsContents | elevenlabs_client.py:28-40 | Every request carries `agent_id`, `page_size` and `summary_mode=include`, in that order. Each of the two time bounds, the cursor and the outcome filter is present exactly when truthy, with its value. |
| ProviderClient.ListParams | elevenlabs_client.py:28-40 | The parameters built step by step equal the specified parameter list. |
| ProviderClient.ElementsContents | elevenlabs_client.py:75-76 | `extend` adds a list's items, a dict's keys or a string's characters. Any other value raises a TypeError. |
| ProviderClient.ReadPageContents | elevenlabs_client.py:75-83 | From one reply: the page's conversations, or the error reading them raises. The loop goes on exactly when `has_more` and `next_cursor` are both truthy, with that cursor. |
| ProviderClient.MissingListAddsNothing | elevenlabs_client.py:75 | A page without `conversations` adds nothing. |
| ProviderClient.ReadReply | elevenlabs_client.py:48-49 | A failed exchange raises its error; a reply is read as a page. |
| ProviderClient.Paginate | elevenlabs_client.py:60-87 | Without pages left the fetch hits the bound. A completed fetch read its first page and starts with that page's conversations. |
| ProviderClient.FetchAllConversations | elevenlabs_client.py:60-87 | The page loop returns the specified pagination result, starting from no cursor. |
| ProviderClient.PaginateStep | elevenlabs_client.py:68-83 | One step: a page that raises ends the fetch with its error; a last page ends it with its items; otherwise its items come before the rest, read from the next cursor. |
| ProviderClient.RequestsFollowCursors | elevenlabs_client.py:67-83 | The first request uses the initial cursor. Every later request uses the `next_cursor` of the page before it. |
| ProviderClient.FetchIsConcatenation | elevenlabs_client.py:66-87 | A completed fetch returns all pages' conversations concatenated in order. Every page was read and the last one said there was no more. |
| ProviderClient.FailureAbortsFetch | elevenlabs_client.py:68-76 | A failed fetch stopped at the first page that raised, with that page's error; every earlier page was read. |
| ProviderClient.PageLimitUsesAllPages | elevenlabs_client.py:68-85 | The fetch hits the page bound only when every page read asked for another. |
| ConversationStore.CommitKeepsTableValid | sync_service.py:140 | A commit that goes through leaves one row per key, every row within the NOT NULL constraints. |
| ConversationStore.Store.constructor | database.py:28-69 | The store holds a valid committed table. |
| ConversationStore.Store.Commit | sync_service.py:140 | The commit succeeds exactly when no key is inserted twice, no NOT NULL column is null, and every value binds: a scalar, an integer within 64 bits, and a `has_audio` that is None, a boolean, 0 or 1. New keys come after the old ones. A failed commit changes nothing. The table stays valid. |
| ConversationStore.ApplyDetail | sync_service.py:408-441 | The update never changes the columns the list owns. It marks the row `details_fetched` and stamps `fetched_at` exactly when it runs to the end; otherwise both stay as they were. |
| ConversationStore.DetailCompletesOnDicts | sync_service.py:408-441 | The update runs to the end exactly when the detail, its `metadata` and its `analysis` are dicts. Only then are `details_fetched` and `fetched_at` set. A detail that is not a dict leaves the row unchanged. |
| ConversationStore.CompleteDetailColumns | sync_service.py:408-438 | A complete update stores the extracted phones, `has_audio`, `cost`, termination reason and user. The outcome and summary come from `analysis`, and are kept when it lacks them. Criteria, data collection, transcript, duration and start time take the detail's value only when that is truthy, and are kept otherwise. |
| ConversationStore.DetailKeepsListColumns | sync_service.py:408-441 | A detail never changes the columns the list owns, and keeps the NOT NULL columns set. |
| ConversationStore.DetailIdempotent | sync_service.py:408-441 | Applying the same detail twice gives the row that applying it once gives. |
| ConversationStore.DetailKeepsTableShape | sync_service.py:435-438 | Updating one stored row from a detail keeps one row per key and the NOT NULL columns set. |
| ConversationStore.DetailBindableIff | sync_service.py:410-441 | A storable row stays storable under a detail exactly when every value the detail writes binds; this does not depend on the row. |
| ConversationStore.Store.UpdateConversationDetails | sync_service.py:408-441 | The in-place update changes only the row it is given, as the detail specifies, and reports whether it ran to the end. |
| ConversationStore.Store.Restore | sync_service.py:172-178 | After a failed flush the store holds again the rows of the last commit that went through, under the same keys. |
| Reconcile.ReconcileItem | sync_service.py:97-136 | An item that is not a dict raises, and so does one whose id cannot be bound (a list, a dict, or an integer beyond 64 bits). A processed item never removes a pending row and inserts at most one key, one that was not committed before. |
| Reconcile.ReconcileFromOver | sync_service.py:97-138 | The upsert loop only edits committed rows and adds rows under keys not committed. |
| Reconcile.Reconciliation | sync_service.py:97-138 | The whole loop from no pending changes only edits committed rows and adds rows under keys not committed. |
| Reconcile.ReconcileList | sync_service.py:96-138 | The imperative loop gives the specified pending changes and error. `stored` is the number of inserts. |
| ReconcileLaws.KeyOf | sync_service.py:98-100 | An item that yields a key is one the loop body can process without raising: its id binds, so an integer id beyond 64 bits yields none. |
| ReconcileLaws.ItemFailsIffInadmissible | sync_service.py:97-105 | An item raises exactly when it is not a dict, its start time has no month, or its id cannot be bound (a list, a dict, or an integer beyond 64 bits). An item without a truthy id is skipped. |
| ReconcileLaws.RefreshAllColumns | sync_service.py:107-117 | After a run, each summary column of a committed row holds the value of the last listed item for that key that has the field. A column no such item has keeps its value. `tool_names` comes from the last item, `[]` when absent. |
| ReconcileLaws.RefreshAllIdempotent | sync_service.py:107-117 | Refreshing a row twice from the same items is refreshing it once. |
| ReconcileLaws.RefreshAllMix | sync_service.py:107-117 | Refreshing a storable row from items that left another row storable leaves it storable. |
| ReconcileLaws.RefreshKeepsInserted | sync_service.py:107-136 | Refreshing a freshly inserted row from its own item changes nothing. |
| ReconcileLaws.InsertedColumns | sync_service.py:119-136 | An inserted row's partition is the month of its start time. It takes its start time and agent from the item, agent defaulting to the run's. It is not enriched. |
| ReconcileLaws.ItemEffect | sync_service.py:105-138 | One item: no key leaves the state alone. A committed key refreshes the working row. A new key inserts a row and lists the key again. |
| ReconcileLaws.KeyTracksRun | sync_service.py:97-138 | After a clean loop, each key's working row matches a direct description from the listed items with that key. |
| ReconcileLaws.CleanIffAdmissible | sync_service.py:97-138 | The loop ends without error exactly when every item is admissible; an integer id beyond 64 bits is not. |
| ReconcileLaws.StoredCountsNewItems | sync_service.py:96-138 | `stored` counts the listed items whose key was not committed, duplicates included. |
| ReconcileLaws.RunView | sync_service.py:97-138 | The whole loop's working row for any key is that direct description. |
| ReconcileLaws.KeyIdempotent | sync_service.py:97-140 | After the first run is committed, a rerun over the same items leaves every key's row as committed. |
| ReconcileLaws.ReconcileIdempotent | sync_service.py:97-140 | The rerun inserts nothing, changes no row and commits to the same table. |
| ReconcileLaws.RerunInsertsNothing | sync_service.py:105-138 | Once every listed key is stored, a rerun inserts nothing and raises nothing. |
| ReconcileLaws.RerunCommits | sync_service.py:97-140 | After a committed run, a rerun of the same list against any valid table with the same keys raises nothing, inserts nothing, and its commit goes through. |
| ReconcileLaws.ReconcileCommittedRow | sync_service.py:106-117 | A committed key is not inserted again. Its row is refreshed from its listed items and nothing outside the summary columns changes. |
| ReconcileLaws.ReconcileNewRow | sync_service.py:118-138 | A new key is inserted once per listed item that carries it. The working row is built from the last such item, with the month of its start time, not enriched. |
| ReconcileLaws.StopsAtFirstBad | sync_service.py:97-138 | The loop keeps the changes of the items before the first inadmissible one and raises that item's error, or ends clean. |
| Enrichment.NeedsDetails | sync_service.py:146-156 | The filter of the detail query: this agent, no details yet, and a start time within each truthy bound. It has no contract; `Enrichment.SelectionMembers` and `Enrichment.Selection` state the selection by it. |
| Enrichment.Selection | sync_service.py:144-157 | Every selected key is a stored key whose row passes the filter, and there are no more selected keys than stored ones. |
| Enrichment.SelectFromMembers | sync_service.py:144-157 | The selection from a position holds each stored key once, exactly when its row passes the filter. |
| Enrichment.SelectionMembers | sync_service.py:144-157 | The rows selected for details are those of this agent, not enriched yet, with a start time inside the truthy bounds. Each is selected once. |
| Enrichment.BatchCommit | sync_service.py:172-173 | After every tenth completed detail, the commit stores the working rows when they all bind. Otherwise the session breaks. The rows and the count are unchanged. |
| Enrichment.EnrichOne | sync_service.py:158-176 | One loop turn changes only its own row. The count goes up by at most one. A failed request changes nothing. |
| Enrichment.EnrichAll | sync_service.py:157-178 | The pass keeps the table's keys and counts at most one detail per selected row. |
| Enrichment.EnrichDetails | sync_service.py:157-178 | The detail loop keeps the keys and counts what the specified pass counts. It reports whether its last commit flushed: if so, the store holds the pass's rows; if not, it holds what the last batch commit stored. The store stays valid. |
| EnrichmentLaws.EnrichOneEffect | sync_service.py:158-176 | One detail request changes only its own row, as the detail allows. The count goes up exactly when the update ran to the end. |
| EnrichmentLaws.EnrichFromCount | sync_service.py:157-177 | The keys are unchanged. The count goes up by the number of selected rows whose detail arrived and completed. |
| EnrichmentLaws.EnrichFromKey | sync_service.py:157-177 | A selected row ends as its own detail leaves it; any other row is untouched. |
| EnrichmentLaws.DetailPass | sync_service.py:157-178 | For every stored row, after the whole pass: the keys are unchanged, the row changed only if selected and only as its detail allows, the list columns are kept, and a row within the constraints stays within them. |
| EnrichmentLaws.EnrichFromSaved | sync_service.py:172-178 | The rows a batch commit stores all bind, keep the table's keys, and each is either the row as committed before the pass or as the pass left it. |
| EnrichmentLaws.EnrichFromNoBreak | sync_service.py:172-173 | A pass whose rows all bind at the end never breaks the session at a batch commit. |
| EnrichmentLaws.QuietPass | sync_service.py:158-176 | A pass in which no reply is a complete detail counts nothing, commits nothing, and leaves each row as a failed or half-applied update leaves it. |
| EnrichmentLaws.DetailPassSaved | sync_service.py:157-178 | After the whole pass, the stored rows bind, keep the keys, and each is the committed row or the pass's row. |
| EnrichmentLaws.FlushedIffBindable | sync_service.py:172-178 | The batch commits never decide the outcome: the pass flushes exactly when every row it leaves binds. |
| EnrichmentLaws.DetailPassFlushes | sync_service.py:157-178 | When every detail that arrives writes only values that bind, the pass flushes. |
| EnrichmentLaws.DetailCount | sync_service.py:171 | `details_count` is the number of completed updates, never more than the rows selected. |
| EnrichmentLaws.CompletedBound | sync_service.py:171 | Completed updates never outnumber the rows left to visit. |
| SyncRun.SyncLog.constructor | sync_service.py:78-85 | The ledger row opens as running, with the run's agent, type, window and start, and no counts. |
| SyncRun.SyncLog.RecordListed | sync_service.py:94 | The listed count is recorded on the ledger row; nothing else changes. |
| SyncRun.SyncLog.Complete | sync_service.py:180-183 | On success the ledger row records the detail count, becomes completed and is closed now; nothing else changes. |
| SyncRun.SyncLog.Fail | sync_service.py:192-196 | The handler records failed with the error and closes the row now; the listed count stays as recorded. |
| SyncRun.Sync | sync_service.py:68-200 | A run returns a summary exactly when its ledger row is completed. The row stays running only when a flush failed and the run fails with `RolledBack`; every other run closes it now. |
| SyncRun.SyncConversations | sync_service.py:68-200 | The imperative run leaves the table, ledger row and result that the specified run gives, and a valid store. |
| SyncLaws.SyncLedger | sync_service.py:78-198 | The ledger row names the run. It is completed exactly when a summary is returned, with the summary's counts. Otherwise it is failed with the escaping error and no detail count. It is closed now. It stays running, with at most the listed count, only when a flush failed and the run fails with `RolledBack`. |
| SyncLaws.SyncFetchFailed | sync_service.py:89-94 | A failed fetch stores nothing, fails the run with the fetch's error and counts nothing. |
| SyncLaws.SyncCommitsPrefixOnError | sync_service.py:97-198 | An item that raises in the upsert: the rows of the items before it are committed and the run fails with its error. If that commit cannot flush, nothing is stored, the row stays running and the run fails with `RolledBack`. |
| SyncLaws.SyncSuccessParts | sync_service.py:89-183 | A run that succeeds fetched the list and upserted it without error. The commit went through, the detail pass over the selection flushed, and the table and summary are that pass's. |
| SyncLaws.SyncDetailPassOutcome | sync_service.py:140-198 | Once the list is stored and committed, the run succeeds exactly when the detail pass flushes. Then it is completed, counting one detail per complete detail. Otherwise the rows of the last batch commit stay, the row stays running with the listed count, and the run fails with `RolledBack`. |
| SyncLaws.SyncDetailFailuresIsolated | sync_service.py:157-183 | A failed detail request never fails a run: once the list is stored and committed, a run whose every detail either fails or carries storable values succeeds and is completed, counting exactly the complete details. |
| SyncLaws.SyncKeepsTableValid | sync_service.py:68-200 | Whatever the outcome, a run leaves a valid table. |
| SyncLaws.DetailPassKeepsTableValid | sync_service.py:157-178 | After the detail pass, the rows of the last batch commit form a valid table with the same keys in the same order. So do the pass's rows when it flushed. |
| SyncLaws.SyncSucceeded | sync_service.py:89-190 | A successful run reports the listed count and, as `new_stored`, the number of listed items under new keys. The old keys stay first and the table stays valid. |
| SyncLaws.RerunPassFlushes | sync_service.py:144-178 | After a pass that flushed and a refresh that kept each row's agent, start and fetched mark, the next pass selects only rows whose detail did not complete. It counts nothing and flushes. |
| SyncLaws.SyncRerunStoresNothing | sync_service.py:96-190 | A second run over the same listing, after one that succeeded, also succeeds and is completed. It stores nothing new and keeps the number of rows. |
| SyncLaws.SyncRerunCount | sync_service.py:96-190 | A run whose upsert inserts nothing reports `new_stored = 0`. |
| CriteriaStats.Slot | sync_service.py:551 | Where a criterion sits in `criteria_map`: the first index holding its key, or the length when absent. |
| CriteriaStats.Count | sync_service.py:551-562 | Counting one verdict in place gives the specified tally. |
| CriteriaStats.CountDict | sync_service.py:549-562 | The loop over a dict of verdicts counts them in order. |
| CriteriaStats.CountList | sync_service.py:563-572 | The loop over a list counts its items in order. It raises when an item is not a dict, and stops quietly at an item whose id cannot be a key. |
| CriteriaStats.ComputeCriteriaStats | sync_service.py:541-576 | The imperative aggregation returns the specified statistics or raises the specified error. |
| CriteriaStats.CriteriaStatsOf | sync_service.py:541-576 | The statistics raise exactly when reading the verdicts does, and hold no more entries than verdicts. |
| CriteriaLaws.AddEntry | sync_service.py:551-562 | Counting a verdict changes only its own criterion's entry: the entry is created with zero counters if new, then bumped. |
| CriteriaLaws.AddAllKey | sync_service.py:543-576 | Each criterion's entry equals an independent count of its verdicts: occurrences, passes and failures, named after its first verdict. It is absent when there are none. |
| CriteriaLaws.AddAllOrder | sync_service.py:576 | The entries come in the order of their criterion's first verdict. |
| CriteriaLaws.AddAllDistinct | sync_service.py:551-552 | No criterion has two entries. |
| CriteriaLaws.TotalsCountVerdicts | sync_service.py:553 | The totals add up to the number of verdicts. |
| CriteriaLaws.VerdictsSplit | sync_service.py:553-572 | Every verdict is a pass or a fail. A criterion has verdicts exactly when it appears. |
| CriteriaLaws.CriteriaStatsEntries | sync_service.py:541-576 | The result has one entry per criterion with verdicts, each equal to that independent count, in first-seen order. |
| CriteriaLaws.CriteriaStatsBalanced | sync_service.py:553-576 | The function raises exactly when reading the verdicts does. Each entry has pass + fail = total > 0. The totals add up to the number of verdicts. |
| CriteriaLaws.ListEntriesFails | sync_service.py:563-574 | A list of verdicts raises exactly when an item that is not a dict comes before any item whose id cannot be a key. The error is an AttributeError. |
| CriteriaLaws.AllEntriesFails | sync_service.py:544-576 | The statistics raise exactly when some row's criteria raise. |
| Settings.SettingsTable.constructor | database.py:20-25 | The table holds the given settings. |
| Settings.SettingsTable.SetSetting | sync_service.py:27-34 | Setting a value upserts it under its key and commits. A null value violates NOT NULL, and the table is unchanged. The value is the text the column holds; `BoundText` gives it and refuses what cannot be bound. |
| Settings.BoundText | sync_service.py:27-34 | A value can be stored exactly when it is null, a boolean, a string, or an integer within 64 bits; a list, a dict or a wider integer makes the commit raise. It is stored as NULL exactly when it is null. |
| Settings.SettingsTable.SetAgents | sync_service.py:60-65 | `set_agents` leaves the table and error that the specified two-step write gives. |
| Settings.SettingsTable.GetSetting | sync_service.py:22-24 | The committed value of the key, None exactly when there is no row. |
| Settings.SettingsTable.GetAgents | sync_service.py:37-57 | No agent only when `agent_id` is absent or empty. More than one agent only from the stored `agents` text, which decodes to that list. |
| Settings.SetAgentsOf | sync_service.py:60-65 | `agents` always holds the list's JSON text. Only `agents` and `agent_id` can change, and an empty list raises nothing. |
| Settings.AgentsOf | sync_service.py:37-57 | The same for the value-level reading of `get_agents`. |
| Settings.AgentsRoundTrip | sync_service.py:37-65 | A non-empty agent list saved with `set_agents` is what `get_agents` reads back, even when writing the first agent's id raised. |
| Settings.SetAgentsLegacyKey | sync_service.py:60-65 | After saving a non-empty list, `agent_id` holds the first agent's id when it can be stored. Otherwise the call raises: not a dict, no `id`, or an id that is null, a list, a dict or an integer beyond 64 bits. `agent_id` then keeps its value. No other key changes. |
| Settings.EmptyAgentsFallBack | sync_service.py:44-65 | Saving an empty list does not clear `agent_id`: `get_agents` falls back to the older single agent again. |
| Settings.LegacyAgentsShape | sync_service.py:53-57 | The fallback is one agent exactly when `agent_id` is set and non-empty. That agent has the id, and a name equal to the id cut to twelve characters. |
| DailyTrends.Tallied | sync_service.py:581-596 | The day map's dates are distinct and are exactly the days it holds. |
| DailyTrends.Insert | sync_service.py:599 | Insertion into the sorted keys adds exactly the one date. |
| DailyTrends.Sort | sync_service.py:599 | `sorted` returns a permutation of the keys. |
| DailyTrends.DailyTrendsOf | sync_service.py:579-610 | The trends raise exactly when the tally does, and hold at most one entry per row. |
| DailyTrends.CountRow | sync_service.py:582-596 | One loop turn gives the specified day map or error. |
| DailyTrends.CountOnDay | sync_service.py:585-596 | The day's entry is created on first sight, then total, success or failed, and cost go up, or the `+=` of a non-numeric cost raises. |
| DailyTrends.ComputeDailyTrends | sync_service.py:579-610 | The imperative aggregation returns the specified result or error. |
| DailyTrends.ListDays | sync_service.py:598-609 | The result lists each day's counters, in sorted date order. |
| DailyTrendsLaws.BelowIrreflexive | sync_service.py:599 | No date sorts before itself. |
| DailyTrendsLaws.BelowTotal | sync_service.py:599 | Of two distinct strings, one sorts before the other. |
| DailyTrendsLaws.BelowAsymmetric | sync_service.py:599 | Two strings never sort before each other. |
| DailyTrendsLaws.BelowTransitive | sync_service.py:599 | String order is transitive. |
| DailyTrendsLaws.InsertAscending | sync_service.py:599 | Inserting into an ascending list keeps it ascending. |
| DailyTrendsLaws.SortAscending | sync_service.py:599 | Sorting distinct dates gives a strictly ascending list. |
| DailyTrendsLaws.RowCallDay | sync_service.py:582-596 | A readable row adds to its own day and to no other, with its own verdict and cost. A row with a falsy start time adds nothing. |
| DailyTrendsLaws.TallyDay | sync_service.py:585-596 | Counting a call changes only its own day's entry. |
| DailyTrendsLaws.TalliedDay | sync_service.py:581-596 | Each day's entry equals an independent count over the rows that started that UTC day: how many, how many succeeded and failed, and their total cost. There is no entry for a day with none. |
| DailyTrendsLaws.DayHoldsItsDate | sync_service.py:587 | Every day entry carries its own date. |
| DailyTrendsLaws.DailyTrendsSorted | sync_service.py:598-609 | The result's dates are strictly ascending. |
| DailyTrendsLaws.DailyTrendsDays | sync_service.py:579-610 | Every result entry equals that independent count for its day, and every day on which some row started has an entry. |
| DailyTrendsLaws.VerdictsWithinTotal | sync_service.py:588-592 | Successes plus failures never exceed a day's total. |
| DailyTrendsLaws.TalliedFails | sync_service.py:582-596 | The loop raises exactly when some row cannot be read, with the first such row's error. |
| DailyTrendsLaws.DailyTrendsFails | sync_service.py:579-610 | The function raises exactly when some row with a truthy start time has no date or a cost that cannot be added. |
| DateOrder.FormatDateDigits | sync_service.py:585 | `%Y-%m-%d` is the zero-padded year, month and day joined by dashes. |
| DateOrder.FormatDateOrder | sync_service.py:585 | Date strings sort as the dates they name, and are equal only for the same date. |
| DateOrder.EarlierIsSooner | sync_service.py:585 | An earlier calendar date is a smaller day number. |
| DateOrder.DayNumberOrder | sync_service.py:585 | Day numbers order exactly as the dates they name. |
| DateOrder.DayStringsFollowCalendar | sync_service.py:585-586 | For two instants in the years 1 to 9999, the day strings compare as their UTC days, and are equal exactly when the instants share a UTC day. |
| DateOrder.DailyTrendsChronological | sync_service.py:598-609 | Every conversation counted in an entry started on an earlier UTC day than every conversation counted in any later entry. |

## Left out

- Floating point: the KPI rates, averages and rounding of `compute_kpis`, the day's `avg_duration`, and float costs, ratings and durations. The model's values are integers, booleans, strings, null, lists and dicts.
- The other KPIs of `compute_kpis`, the empty-KPI dict, the CSV archive, `app.py` and `create_icon.py` are outside this core.
- JSON text: `json.dumps` and `json.loads` of the settings are parameters (`Encoder`, `Decoder`). The JSON-text columns of a conversation hold the value before `json.dumps`. Duplicate keys in a decoded document are not modelled.
- SQLite's type affinity beyond what the model needs: a setting's text, the key of a conversation id, and the start-time comparison of the detail filter. `updated_at` of a setting is not modelled.
- The network: each list request and each detail request is a function from the request to the decoded reply or the error raised. Time-outs, retries and the sleeps between requests are left out.
- `now`: one instant per run stands for every `datetime.utcnow()` of that run.
- Logging, `_log_metadata_debug` apart from whether it raises, and the "phone missing" warning.
- Concurrency and the event loop: a run is sequential and owns the session.
- Which statement raises first after a failed batch commit. The code leaves the detail loop at the next attribute load. The model finishes the pass and discards what it did after the failure, which gives the same table and outcome.
- `error_message = str(e)`: the ledger keeps the error kind, not its text.
- SyncRun.Sync reports every run in which a flush failed as `RolledBack`. The code raises `PendingRollbackError` when the handler's commit at sync_service.py:196 meets an earlier failed flush. When that commit's own flush fails, the code raises the flush error instead (an IntegrityError, or the driver's OverflowError). The model does not tell these errors apart; the table and the ledger row are the same in both cases.
- JsonValue.PyRepr and JsonValue.PyStr always wrap a string in single quotes and escape nothing. Python's `repr` uses double quotes for a string that holds `'` and no `"`, and escapes `\`, the quote, newlines and other control characters. So the model differs on the criterion name of an id-less list item holding such a string (sync_service.py:565), and on the `str()` of a list or dict that a phone source yields (sync_service.py:380-382).
- Pattern search: `\d` is narrowed to the ASCII digits. `\s` and `str.strip()` use Python's white-space set.
- Phone paths: `path.lower()` lower-cases ASCII letters only. The twelve-character cut of a legacy agent name counts code points.
- `%Y` for years below 1000. The model pads the year to four digits, as glibc's `strftime` does not. `DateOrder.DailyTrendsChronological` relies on the padding, so for start times before the year 1000 the model's order is not the code's.
- SyncRun.SyncConversations requires the listing to end within `maxPages` pages. The code reads pages until the server stops offering a cursor. A listing that never ends is not modelled.
- The sum of durations (`sum(durations)`), which can raise for a non-numeric duration, is not modelled, because the average duration is left out.
