# oaiharvester, modelled in Dafny

oaiharvester keeps a MongoDB copy of the MARC 21 records of an Alma
institution up to date. One run of `workflow.py` does three things:

- It opens a task document. Only one task may be in process at a time.
- It harvests the set through OAI-PMH `ListRecords`, following
  resumption tokens. It saves each page as a numbered chunk file in a
  dated harvest directory.
- It reads the chunk files back. Each `<record>` becomes an `XmlRecord`,
  then a `JsonRecord` document. New MMS ids are inserted in bulk.
  Known, changed or deleted ids go through `update_workflow`, which keeps
  older versions in an archive collection.

The task is closed with its statistics. The start time of the latest
cleanly finished task says where the next incremental harvest starts.

The project models this core:

| file | models |
|---|---|
| `wrappers.dfy` | `Option` |
| `text.dfy` | Python string behaviour the core relies on: the `$` anchor's final newline, `rfind`, slices, `split`, `zfill`, `str(n)`, string order and `sorted` |
| `calendar.dfy` | civil dates, day numbers, `date()` validity, the year of a timestamp |
| `marc.dfy` | the OAI/MARC element tree and the JSON document; the `clean_*` validators; resource type and access type classification; the `JsonRecord` constructor |
| `records.py` → `records.dfy` | the `XmlRecord` class: MMS id lookup, the cleaning methods, and `to_json` |
| `records.py` → `archive.dfy` | `to_archive` and the `ArchiveJsonRecord` class (sort, filter, add a version) |
| `mongodb.py` → `sync.dfy` | the database as a value; every `Mongo` and `Task` operation as a function on it |
| `mongodb.py` → `store.dfy` | the `Mongo` and `Task` classes, each method proved against its `sync.dfy` function |
| `harvester.py` → `harvester.dfy` | request parameters, retries, parsing, the resumption token, the record fallback, chunk and directory names, the `Chunk` class and `OaiSet.get_next_chunk` |
| `tools.py` → `tools.dfy` | the free-space check, the chunk-directory date, and the two chunk-list functions |
| `workflow.py` → `workflow.dfy` | `harvest_data_from_alma`, `update_db` and `main` |

How the model is built:

- Every object the source mutates is a Dafny `class`. Each method's new
  state is tied to a specification function of the old state.
- The properties are proved about those functions.
- Python exceptions are explicit outcomes (`raised`, `None`,
  `Outcome`, `Closed`).
- A bare `except Exception` branch of the client is the `Fail` of a
  database that `reachable` marks as not answering.
- The clock, the disk, the HTTP server and the XML parser are
  parameters.

## Model

| member | source | states |
|---|---|---|
| Text.Chomp | oaiharvester/records.py:92 | a string ending in a newline is the chomped string plus that newline, the only extra text a `$` anchor lets through |
| Text.RFind | oaiharvester/harvester.py:258-259 | `rfind`: the pattern occurs at the result, at no later index, and -1 exactly when it occurs nowhere |
| Text.Slice | oaiharvester/harvester.py:260 | a Python slice with negative and out-of-range bounds clipped: the substring between the clipped bounds, or `""` when they cross |
| Text.Split | oaiharvester/harvester.py:411 | `split` always returns at least one piece, and the whole text when the separator does not occur |
| Text.SplitJoin | oaiharvester/harvester.py:411 | joining the pieces of `split` with the separator gives the text back |
| Text.SplitPiecesFree | oaiharvester/harvester.py:411 | no piece of `split` holds the separator |
| Text.NatToStringValue | oaiharvester/harvester.py:105 | the digits of `str(n)` read back as `n` |
| Text.NatToString | oaiharvester/harvester.py:105 | `str(n)` is a non-empty run of digits without a leading zero |
| Text.ZFill | oaiharvester/harvester.py:105 | `zfill` pads with zeros on the left to the width, and leaves a longer string alone |
| Text.SortStrings | oaiharvester/tools.py:87 | `sort()` on strings: ascending in code-point order, and a permutation of the input |
| Text.Greatest | oaiharvester/tools.py:74-76 | the first element of a reverse sort is a listed string that no listed string exceeds |
| Text.LexLeTotal | oaiharvester/tools.py:74 | code-point string order is total |
| Text.LexLeTrans | oaiharvester/tools.py:74 | code-point string order is transitive |
| Text.LexLeAntisym | oaiharvester/tools.py:74 | code-point string order is antisymmetric |
| Calendar.YearFrom | oaiharvester/records.py:754 | the year holding a day number: day `n` after January 1st of the starting year falls on or after January 1st of the result and before January 1st of the year after it; the result lies before the starting year for negative offsets and from it onwards otherwise |
| Calendar.NewYearDay | oaiharvester/records.py:754 | January 1st counted in whole years of 365 or 366 days from 1970 is the civil calendar's January 1st |
| Calendar.DayNumberStep | oaiharvester/records.py:754 | consecutive January 1sts of the civil calendar are the length of the year between them apart |
| Calendar.YearHoldsDay | oaiharvester/records.py:754 | `t.year` is the civil year holding the day of `t`: its January 1st is on or before that day and the next January 1st after it |
| Marc.ErrorIsNoTag | oaiharvester/records.py:92 | "ERROR" is neither a valid tag, nor a valid indicator, nor a valid code |
| Marc.CleanTagContract | oaiharvester/records.py:73-97 | a tag is valid exactly when it is three digits, optionally followed by one newline. A valid tag is kept with no message. Anything else, `None` included, gives "ERROR" with one message. Cleaning twice gives the same tag |
| Marc.CleanIndicatorContract | oaiharvester/records.py:45-71 | a valid indicator is kept with no message; anything else gives "ERROR" with one message; `" "` and `"\n\n"` pass and `"ab"` fails; cleaning twice gives the same indicator |
| Marc.CleanCodeContract | oaiharvester/records.py:99-135 | a lone digit d becomes "n"+d; a letter or "n"+digit is kept; "ERROR" is returned exactly for an invalid code, with one message; cleaning twice gives the same code |
| Marc.ResourceTypeTable | oaiharvester/records.py:498-537 | for each label, the exact leader/06, leader/07 and 008/21 values that produce it, both directions |
| Marc.BibResourceTypeContract | oaiharvester/records.py:471-537 | "ERROR" exactly when a message is due: a leader under 10 characters, else an 008 under 22. Otherwise the label comes from leader/06, leader/07 and 008/21 alone |
| Marc.AccessTypeContract | oaiharvester/records.py:539-571 | the value returned when the call does not raise (see `AccessRaisesContract`): "ERROR" exactly when leader/06 or 008/23 cannot be read. Otherwise M, O, B and P each hold exactly when their test holds and no earlier test does. A format error is also the access error. With a valid format, the only access error is an 008 of exactly 22 characters |
| Marc.AccessRaisesContract | oaiharvester/records.py:564-641 | `get_access_type` raises only after both error returns are passed, and only on a control field's text (or `None`) stored under 338 or 336. A non-empty one under 338 always raises, in `is_micro`. One under 336 raises exactly when the answer would have been B or P, because `is_braille` reads 336 before 008. With 338 and 336 absent or data fields, it never raises |
| Marc.OnlineBy338 | oaiharvester/records.py:574-598 | a 338 $b of "cr" makes a record online, so its access is O, or M when it is micro |
| Marc.NewJsonRecordContract | oaiharvester/records.py:372-408 | the id, date, `deleted` key and `marc` are kept. A live record with `marc` gets format and access; otherwise they are untouched. These hold where the constructor returns; it raises exactly under `NewJsonRecordRaises`, a live record with `marc` on which `get_access_type` raises. Handed-in messages end the message list and raise the flag. An access failure raises the flag; with no handed-in messages, its message is the only one. The document's flag agrees with the attribute |
| Records.IdentifierNumber | oaiharvester/records.py:213-216 | the number taken from a deleted record's identifier is a non-empty run of digits that follows a colon and ends the text (or precedes its final newline) |
| Records.TextMmsId | oaiharvester/records.py:237-243 | an MMS id found in unparsable text is at least three digits and starts with 99 |
| Records.FirstControl | oaiharvester/records.py:221 | the control field found carries the tag, and none carries it when nothing is found |
| Records.DeletedRecordId | oaiharvester/records.py:210-219 | a deleted record whose identifier is a prefix ending in a colon followed by digits, such as `oai:alma.41SLSP_NETWORK:991170526703805501`, gets those digits as MMS id |
| Records.IdentifierNumberOf | oaiharvester/records.py:213-216 | the number read from an identifier ending in a colon and a run of digits is exactly that run: the converse of `IdentifierNumber`'s contract |
| Records.FirstWithCode | oaiharvester/records.py:303-311 | the subfield found carries the code, and none carries it when nothing is found |
| Records.AdminRunEnd | oaiharvester/records.py:307 | the greedy run of `[\d\-:\s]` ends at the first character outside the class |
| Records.AdminDateFrom | oaiharvester/records.py:307 | backtracking returns the longest prefix, no longer than the greedy run, followed by a whitespace and a non-digit; no longer prefix qualifies |
| Records.AdminDate | oaiharvester/records.py:307 | a date found is a non-empty prefix of date characters, followed by a whitespace and a non-digit |
| Records.ConstructionErrors | oaiharvester/records.py:151-156 | the constructor records messages exactly when the data does not parse or no MMS id is found |
| Records.XmlRecord.constructor | oaiharvester/records.py:151-243 | the new record's error flag, messages and MMS id are those of the lookup; no data error yet |
| Records.XmlRecord.CleanFTag | oaiharvester/records.py:73-97 | returns `CleanTag`, appends its messages, and raises the data-error flag on an invalid tag only |
| Records.XmlRecord.CleanFIndicator | oaiharvester/records.py:45-71 | returns `CleanIndicator`, appends its messages, and raises the data-error flag on an invalid indicator only |
| Records.XmlRecord.CleanSubfCode | oaiharvester/records.py:99-135 | returns `CleanCode`, appends its messages, and raises the data-error flag on an invalid code only |
| Records.XmlRecord.ReadSubfields | oaiharvester/records.py:322-324 | returns `SubsOf`, the `sub` list of a data field; appends the messages of its subfield codes, raising the data-error flag exactly when there are some |
| Records.XmlRecord.ReadDataField | oaiharvester/records.py:298-328 | one step of the data-field loop (`FieldStep`); the record's messages are the step's, and the data-error flag rises exactly when the step added one |
| Records.XmlRecord.ToJson | oaiharvester/records.py:245-330 | the result, the new error messages and the new data-error messages are those of `ToJsonSpec`, which is `Raised` when a data field raises or when building the `JsonRecord` raises in `get_access_type`; each flag is raised exactly when its list grew |
| Records.RaisedStops | oaiharvester/records.py:298-316 | once a data field raises, the fields after it are not read |
| Records.ToJsonOutcomes | oaiharvester/records.py:254-289 | there is no JSON without data or MMS id, and no new message then. A missing datestamp gives one message, as does live metadata lacking a leader. A deleted record becomes `{mms_id, p_date, marc: {}, deleted: True}`. A JSON result carries the record's id and datestamp |
| Records.ToJsonRebuilds | oaiharvester/mongodb.py:120-124 | a document `to_json` returns is one the `JsonRecord` constructor accepts again without raising, as `get_active_record` rebuilds it |
| Records.JsonCarriesId | oaiharvester/records.py:254-267 | a JSON result exists only for a record with an MMS id, and carries that id |
| Records.SubsOfContents | oaiharvester/records.py:322-324 | the `sub` list holds exactly the subfields with text, each under its cleaned code |
| Records.SubsOfCodesClean | oaiharvester/records.py:99-135 | every code in a `sub` list is a fixed point of `clean_subf_code` |
| Records.FoldKeys | oaiharvester/records.py:298-328 | the data-field loop never stores "988" and never changes a control field's entry |
| Records.FoldGroups | oaiharvester/records.py:318-328 | the list under a tag no control field uses is that tag's data fields in document order |
| Records.FoldNoRaise | oaiharvester/records.py:302-328 | with every 988 carrying $e and no data field under a control field's key, the loop does not raise |
| Records.ControlFoldKeys | oaiharvester/records.py:292-295 | the control-field loop stores each text under the field's cleaned tag |
| Records.XmlRecord.ReadControlFields | oaiharvester/records.py:291-295 | the `marc` map and data-error messages are `ControlFold` of the old ones, and the data-error flag is raised exactly when a message was added |
| Records.XmlRecord.ReadDataFields | oaiharvester/records.py:297-328 | the accumulated result is `DataFieldsFold` of the fields, the loop stopping at the first field that raises; the data-error flag is raised exactly when a message was added |
| Records.ToJsonMarc | oaiharvester/records.py:298-330 | in a live record's JSON, 988 never reaches `marc`, and every other tag holds exactly its data fields in document order |
| Archive.PDates | oaiharvester/records.py:728-737 | the datestamps of the versions, position by position |
| Archive.InsertByDate | oaiharvester/records.py:726 | inserting into a date-sorted list keeps it sorted and adds exactly that version |
| Archive.SortByDate | oaiharvester/records.py:722-726 | `sort_versions`: sorted by datestamp and a permutation of the versions |
| Archive.SortSorted | oaiharvester/records.py:722-726 | sorting a sorted version list changes nothing |
| Archive.InsertStrict | oaiharvester/records.py:696-705 | a version with a new date keeps strictly increasing dates strictly increasing |
| Archive.YearsSeq | oaiharvester/records.py:754 | the year of each version, position by position |
| Archive.KeptIndices | oaiharvester/records.py:748-756 | the indices kept so far are increasing and start with index 0 |
| Archive.Filtered | oaiharvester/records.py:739-758 | filtering a non-empty list leaves a non-empty list |
| Archive.KeptTail | oaiharvester/records.py:754 | the last three indices are kept |
| Archive.FirstOfYearKept | oaiharvester/records.py:754-756 | the first version of each year is kept |
| Archive.KeptYearsAll | oaiharvester/records.py:748-756 | the years of the versions kept so far are exactly the years read so far |
| Archive.YearsRead | oaiharvester/records.py:748-756 | the loop's `years` set holds exactly the years read so far |
| Archive.PassStep | oaiharvester/records.py:751-756 | one loop step keeps a version exactly when it is the first, one of the last three, or of a year not yet in `years`, and then appends it and adds its year |
| Archive.PassKeptSelects | oaiharvester/records.py:748-756 | the versions the loop appends one by one are the input read at the indices the keep rule selects |
| Archive.KeepVersions | oaiharvester/records.py:748-756 | the loop's list is the input read at the kept indices |
| Archive.FilteredShape | oaiharvester/records.py:739-758 | up to four versions are untouched. Otherwise the result reads the input at increasing indices, starting with the first version and ending with the last three |
| Archive.FilteredYears | oaiharvester/records.py:739-758 | every first-of-year version is kept, so every year still has a version |
| Archive.FilteredContract | oaiharvester/records.py:739-758 | all of `filter_versions`'s promises together |
| Archive.EmbedsStrict | oaiharvester/records.py:739-758 | filtering keeps dates strictly increasing |
| Archive.NewVersions | oaiharvester/records.py:704-706 | the version list after an addition is never empty |
| Archive.ToArchiveContract | oaiharvester/records.py:649-668 | `to_archive` fails exactly without `c_date`, `u_date` or `sup`. Otherwise it gives a well-formed one-version archive with the record's id, deleted flag and data-error flag |
| Archive.FromNewestContract | oaiharvester/records.py:707-717 | the header takes the newest version's dates, `sup` and data-error state; it raises exactly when a needed key is missing |
| Archive.NewVersionsStrict | oaiharvester/records.py:704-706 | adding a version with a new date keeps dates strictly increasing; sorting the appended list is inserting |
| Archive.AddedToArchiveContract | oaiharvester/records.py:687-720 | an already archived date changes nothing. Otherwise the version is added (sorted, then filtered) and the archive stays well formed with the same id and flag. Under four versions it grows by one |
| Archive.NewerIsNew | oaiharvester/records.py:696 | a version newer than the newest has a date not yet archived |
| Archive.SortAppendNewest | oaiharvester/records.py:704-705 | appending the newest version keeps the list sorted |
| Archive.NewestKept | oaiharvester/records.py:704-706 | a version newer than all others ends up last |
| Archive.ArchiveNewest | oaiharvester/records.py:687-720 | archiving the newest version makes it last and the header's date, and archiving it again changes nothing |
| Archive.KeptIndicesKeep | oaiharvester/records.py:748-756 | every index the loop keeps is one the keep rule accepts |
| Archive.PassAllKept | oaiharvester/records.py:748-756 | when the keep rule accepts every version, the loop keeps them all |
| Archive.FilteredIsPass | oaiharvester/records.py:739-758 | past four versions, `filter_versions` is the loop's list |
| Archive.FilteredKeepsAll | oaiharvester/records.py:739-758 | past four versions, the keep rule accepts every version of the filtered list again |
| Archive.FilteredIdempotent | oaiharvester/records.py:739-758 | filtering a filtered list changes nothing |
| Archive.KeepShift | oaiharvester/records.py:754 | removing a dropped version leaves the keep rule's answer for every other version as it was |
| Archive.DropInvariant | oaiharvester/records.py:739-758 | removing a version the filter drops does not change what it keeps |
| Archive.DroppedPosition | oaiharvester/records.py:739-758 | a version the filter leaves out is neither the first nor one of the last three, and an earlier version has its year |
| Archive.DroppedStaysDropped | oaiharvester/records.py:687-720 | a version dropped when added is dropped again when added to the filtered list, which then stays as it is |
| Archive.FromNewestSettled | oaiharvester/records.py:707-717 | taking the header from the newest version twice gives what the first time gave |
| Archive.AddedTwice | oaiharvester/records.py:687-720 | `add_record_to_archive` is idempotent: adding the same version again, kept, newest, older or dropped by the filter, leaves the archive as the first addition made it |
| Archive.ArchiveJsonRecord.constructor | oaiharvester/records.py:676-685 | the archive object holds the document and its deleted flag |
| Archive.ArchiveJsonRecord.SortVersions | oaiharvester/records.py:722-726 | the versions become `SortByDate` of the old ones; nothing else changes |
| Archive.ArchiveJsonRecord.FilterVersions | oaiharvester/records.py:739-758 | the versions become `Filtered` of the old ones; nothing else changes |
| Archive.ArchiveJsonRecord.TakeHeaderFromNewest | oaiharvester/records.py:707-717 | raises exactly when `FromNewest` fails, and otherwise becomes its result |
| Archive.ArchiveJsonRecord.AddRecordToArchive | oaiharvester/records.py:687-720 | raises exactly when `AddedToArchive` fails, and otherwise becomes its result; the deleted attribute is kept |
| Sync.LatestFinishedStart | oaiharvester/mongodb.py:374-381 | none exactly when no task is finished; otherwise the start of a finished task that no finished task's start exceeds |
| Sync.FirstInProcess | oaiharvester/mongodb.py:467-468 | the task found is in process and no earlier one is; nothing found means none is in process |
| Sync.FirstInProcessKept | oaiharvester/mongodb.py:505-517 | rewriting the task in process with a document still in process keeps it the one found |
| Sync.OnlyInProcess | oaiharvester/mongodb.py:467-468 | the only task in process is the one found |
| Sync.CheckErrorGate | oaiharvester/mongodb.py:9-32 | with the client's flag set, every guarded operation returns `None` and changes nothing |
| Sync.ArchiveRecordContract | oaiharvester/mongodb.py:200-233 | without a history entry, the one-version archive is inserted, or the failure recorded. With one, the record is added, or `add_record_to_archive` raises, and the stored deleted flag is kept. Active and tasks are untouched and consistency is kept |
| Sync.ArchiveTwice | oaiharvester/mongodb.py:200-233 | archiving any record a second time, after a first archiving that did not raise, changes nothing and does not raise: a first version, one already there, a newer or an older one, or one the filter dropped |
| Sync.ArchiveTwiceFirst | oaiharvester/mongodb.py:200-233 | archiving a record with no history a second time changes nothing |
| Sync.ArchiveSettled | oaiharvester/mongodb.py:200-223 | an archive the addition leaves unchanged is written back unchanged |
| Sync.ArchiveIntoHistory | oaiharvester/mongodb.py:209-223 | with a history entry, `archive_record` raises exactly when `add_record_to_archive` does; otherwise the entry is replaced by the extended archive, whose stored deleted flag is unchanged. Active and tasks are untouched and consistency is kept |
| Sync.ArchiveFirstVersion | oaiharvester/mongodb.py:225-233 | without a history entry, the one-version archive is inserted, or, when `to_archive` fails, the failure is recorded and nothing is written; nothing raises |
| Sync.DeleteWorkflowContract | oaiharvester/mongodb.py:256-280 | nothing happens without an active record or for an older one. Otherwise the stored record, flagged deleted, is archived and removed from active. When archiving fails, the active record stays. Tasks are untouched |
| Sync.UpdateWorkflowRoutes | oaiharvester/mongodb.py:283-329 | one case per route: deleted goes to `delete_workflow`; same date does nothing; a new id is inserted, or raises with `no_insert`; newer archives the stored record and replaces it; older archives the incoming one |
| Sync.UpdateWorkflowConsistent | oaiharvester/mongodb.py:283-329 | `update_workflow` keeps both collections keyed by id with well-formed archives and never touches tasks |
| Sync.CreateTaskContract | oaiharvester/mongodb.py:429-457 | refused while a task is in process: the flag is set, one message is added and nothing is inserted. Otherwise one new task in process is appended. At most one task stays in process |
| Sync.OpenNewTask | oaiharvester/mongodb.py:406-427 | a task opened while none is in process holds the new document and has not errored |
| Sync.CloseTaskContract | oaiharvester/mongodb.py:542-557 | raises exactly without a task in process. Otherwise the task gets the end time, the whole minutes and the active count, and leaves the in-process state. A task opened afterwards has errored and sees the empty dict |
| Sync.HarvestingFromTimeContract | oaiharvester/mongodb.py:364-386 | the start day of the latest-started finished task, or today when none has finished |
| Store.Mongo.constructor | oaiharvester/mongodb.py:58-90 | without `MONGO_URI` the client starts in error with its message; otherwise it starts clean, answering or not for the whole run as `reachable` says |
| Store.Mongo.GetActiveRecord | oaiharvester/mongodb.py:92-124 | state and result are `GetActive` of the old state |
| Store.Mongo.GetHistoryRecord | oaiharvester/mongodb.py:92-124 | a fresh archive object holding `GetHistory`'s document, or null |
| Store.Mongo.InsertActiveRecord | oaiharvester/mongodb.py:126-153 | the new state is `InsertActive` of the old |
| Store.Mongo.InsertHistoryRecord | oaiharvester/mongodb.py:126-153 | the new state is `InsertHistory` of the old |
| Store.Mongo.UpdateActiveRecord | oaiharvester/mongodb.py:180-197 | the new state is `ReplaceActive` of the old |
| Store.Mongo.UpdateHistoryRecord | oaiharvester/mongodb.py:180-197 | the new state is `ReplaceHistory` of the old |
| Store.Mongo.DeleteRecord | oaiharvester/mongodb.py:235-253 | the new state is `DeleteActive` of the old |
| Store.Mongo.ArchiveRecord | oaiharvester/mongodb.py:199-233 | state and raise are `Sync.ArchiveRecord` of the old state |
| Store.Mongo.DeleteWorkflow | oaiharvester/mongodb.py:255-280 | state and raise are `Sync.DeleteWorkflow` of the old state |
| Store.Mongo.UpdateWorkflow | oaiharvester/mongodb.py:282-329 | state and raise are `Sync.UpdateWorkflow` of the old state |
| Store.Mongo.InsertManyRecords | oaiharvester/mongodb.py:155-178 | the new state is `InsertAll` of the old |
| Store.InsertAllContract | oaiharvester/mongodb.py:155-178 | the stored records are kept and every new id of the batch is inserted, the first record of a repeated id winning. History and tasks are untouched |
| Store.InsertAllKeys | oaiharvester/mongodb.py:155-178 | only the active collection changes: its ids become the old ones plus the batch's, and stored records are kept |
| Store.InsertAllFirstWins | oaiharvester/mongodb.py:155-178 | each newly stored record is the first of the batch with its id |
| Store.InsertAllUnreachable | oaiharvester/mongodb.py:138-153 | on a server that does not answer, the first insert sets the flag and nothing is written |
| Store.Mongo.GetAllMmsIds | oaiharvester/mongodb.py:331-352 | state and result are `Sync.GetAllMmsIds` of the old state |
| Store.Mongo.GetHarvestingFromTime | oaiharvester/mongodb.py:364-386 | state and result are `Sync.GetHarvestingFromTime` of the old state |
| Store.Mongo.GetInProcessTask | oaiharvester/mongodb.py:354-362 | a fresh task on this client; both states are `OpenTask` of the old |
| Store.Task.constructor | oaiharvester/mongodb.py:406-427 | the client's state and the task's are `OpenTask` of the old state |
| Store.Task.Create | oaiharvester/mongodb.py:429-457 | the new state is `CreateTask` of the old |
| Store.Task.GetInProcess | oaiharvester/mongodb.py:459-474 | state and result are `Sync.GetInProcess` of the old state |
| Store.Task.Edit | oaiharvester/mongodb.py:476-502 | the task and the raise are `EditData` of the old task |
| Store.Task.Update | oaiharvester/mongodb.py:504-522 | the new state is `UpdateTask` of the old |
| Store.Task.AddDataErrorMessage | oaiharvester/mongodb.py:524-539 | the new state is `Sync.AddDataErrorMessage` of the old |
| Store.Task.Close | oaiharvester/mongodb.py:541-557 | the client, the task and the raise are `CloseTask` of the old states |
| Harvester.ParamsContract | oaiharvester/harvester.py:284-292 | a continuation sends exactly the verb and the token; a first request sends exactly the verb, `marc21`, the set and both dates |
| Harvester.Tries | oaiharvester/harvester.py:294-306 | one to three requests: every one before the last failed, and stopping early means the last was ok |
| Harvester.FetchContract | oaiharvester/harvester.py:267-320 | content exactly when some try is ok, and then the body of the first ok try. Without content, the failure message. The error flag is set exactly when no try succeeded and the last one answered with a bad status. Three connection failures add the message but leave the flag clear |
| Harvester.TokenFallbackContract | oaiharvester/harvester.py:256-262 | with both tags in order, the text between the last opening and last closing tag. With neither tag, Python's `text[16:-1]` |
| Harvester.FallbackNeverNone | oaiharvester/harvester.py:240-265 | a badly formatted page always yields a token, `""` for a short page without one |
| Harvester.CutAtClose | oaiharvester/harvester.py:413 | a piece is cut just after its last closing record tag |
| Harvester.Fragments | oaiharvester/harvester.py:413-414 | every fragment starts with the namespaced opening tag and ends with the closing tag |
| Harvester.FragmentsBodies | oaiharvester/harvester.py:413-414 | one fragment per piece holding a closing tag, and no fragment body holds a plain opening tag |
| Harvester.RecordsFallbackContract | oaiharvester/harvester.py:407-417 | no opening tag gives no fragments; otherwise one per piece after the first that holds a closing tag, each well delimited |
| Harvester.RecordSources | oaiharvester/harvester.py:395-417 | the record elements of a parsed page; else the fragments of the text; else none |
| Harvester.LoadedContract | oaiharvester/harvester.py:191-213 | a chunk without records is in error with the message, then the server's `error_message` text. Otherwise it keeps the fetch's flag, or is flagged when the content did not parse. A parsed page's token is its non-empty element text. An unparsed page uses the fallback token and records |
| Harvester.Chunk.Fetch | oaiharvester/harvester.py:168-213 | a fetched chunk's state is `Loaded` from `fetch_data`'s content, flag and messages. The constructor raises exactly when one of the records it builds raises (`BuildRaises`: a deleted record without an identifier element), and `raised` records that |
| Harvester.Chunk.FromFile | oaiharvester/harvester.py:195-213 | a chunk read from a file is `FileChunk`; a missing file flags "File not found". `raised` is set exactly when one of its records raises while being built |
| Harvester.Chunk.FetchData | oaiharvester/harvester.py:267-320 | returns `Fetched`'s content, and adds its flag and messages to the chunk's; nothing else changes |
| Harvester.Chunk.ParseXml | oaiharvester/harvester.py:376-393 | the parse of the content; content that does not parse sets the flag and adds "Badly formatted xml data" |
| Harvester.Chunk.Load | oaiharvester/harvester.py:202-213 | the state becomes `Loaded` of the content, flag and messages; `raised` is set exactly when building one of the records raises (harvester.py:403-417 with records.py:211-213) |
| Harvester.PaddedValue | oaiharvester/harvester.py:74 | a zero-padded number has the width and reads back as the number |
| Harvester.DateStampContract | oaiharvester/harvester.py:74 | `%Y%m%d` is eight digits reading back as year, month and day |
| Harvester.DirectoryNameWord | oaiharvester/harvester.py:74 | a harvest directory name is made of word characters |
| Harvester.DirectoryNameShape | oaiharvester/harvester.py:74 | a harvest directory name has the harvest shape, and its stamp is the day |
| Harvester.WordNoSlash | oaiharvester/harvester.py:74 | a word-character name holds no `/` |
| Harvester.BasenameBelowRoot | oaiharvester/tools.py:106 | the basename of `harvested_data/<name>` is the name |
| Harvester.HarvestDirectoryRoundTrip | oaiharvester/harvester.py:74 | the directory a harvest writes to matches `get_newest_chunks_list`'s pattern. `get_date_from_chunk_directory` reads back its day, from the path or the name |
| Harvester.ChunkFileNameMatches | oaiharvester/harvester.py:96-105 | chunk file names match `update_db`'s chunk pattern and carry one more than the files already saved |
| Harvester.PagedExtend | oaiharvester/harvester.py:124-139 | a chunk asked for with the last token that does not stop the harvest extends the paged sequence |
| Harvester.OaiSet.constructor | oaiharvester/harvester.py:36-53 | a new set has its name, no error and no messages |
| Harvester.OaiSet.NextChunk | oaiharvester/harvester.py:125 | the chunk built is `ChunkAt` for the count saved and the token, and building it raises exactly when one of its records raises |
| Harvester.OaiSet.Pages | oaiharvester/harvester.py:122-139 | each chunk yielded is asked for with the previous chunk's token, was built without raising, and all but the last have a token. It ends early exactly when fewer chunks than the fuel were yielded and the last one, if any, had a token. It then raises exactly when building the chunk asked for next raised; otherwise that chunk carries the fetch-failure message or the free-space message. A chunk built here holds the free-space message only through text the server sent, because `save` adds it after the yield |
| Harvester.OaiSet.GetNextChunk | oaiharvester/harvester.py:107-139 | pages as `Pages` does, raising exactly where it raises. The flag seen at each yield is the flag on entry. The flag is raised and the failure message added exactly on an early stop that did not raise; a raise leaves both untouched |
| Tools.FreeSpaceContract | oaiharvester/tools.py:33-56 | enough exactly at or above the error limit. The warning only comes strictly between the limits, never with a failure, and never when the low limit does not exceed the error limit |
| Tools.Basename | oaiharvester/tools.py:106 | a path without `/` is its own basename |
| Tools.ChunkPaths | oaiharvester/tools.py:125 | no more paths than listed names |
| Tools.ChunkListFromDirectory | oaiharvester/tools.py:110-127 | sorted, and a permutation of the matching paths |
| Tools.ChunkPathsMembers | oaiharvester/tools.py:125 | a path is listed exactly when it is `directory/f` for a listed name `f` matching the chunk pattern |
| Tools.ChunkListContract | oaiharvester/tools.py:110-127 | sorted, no longer than the listing, and holding exactly the matching names prefixed by the directory (how often each is held is `ChunkListFromDirectory`'s multiset clause) |
| Tools.HarvestDirs | oaiharvester/tools.py:68-70 | exactly the listed names that match the harvest pattern |
| Tools.NewestChosen | oaiharvester/tools.py:74-76 | the greatest matching name is the one chosen |
| Tools.NewestChunksContract | oaiharvester/tools.py:59-89 | no matching directory gives `[]`. In the newest directory, an impossible date raises, and so does a date to which four days cannot be added (`OverflowError` past `date.max`). Otherwise a newest directory more than four days old gives `[]`, and a younger one its sorted chunk list |
| Tools.ShiftWindow | oaiharvester/tools.py:80 | four days can be added to every valid date up to 9999-12-27 and to none after it |
| Tools.NewestChunksSource | oaiharvester/tools.py:59-89 | a non-empty list comes from the newest matching directory, at most four days old, whose date plus four days exists |
| Workflow.StripSlashes | workflow.py:96 | strips trailing slashes from a prefix; the result never ends in `/` |
| Workflow.DirnameOfPath | workflow.py:96 | the `dirname` of `d/f`, for `f` without `/` and `d` not ending in `/`, is `d` |
| Workflow.PushMessages | workflow.py:144-145 | the new state is `Pushed` of the old |
| Workflow.PushedContract | workflow.py:144-145 | collections and task count are untouched and the flag is never cleared. On a reachable client in error nothing changes. On a reachable client not in error with a task in process, the messages are appended, in order, to that task's data messages |
| Workflow.EditTask | workflow.py:95-97 | the new state is `Edited` of the old |
| Workflow.EditedContract | workflow.py:95-97 | on a healthy client, the assignment lands in the task in process, which stays the one found |
| Workflow.PrepareStats | workflow.py:93-116 | state and ids are `Prepared` of the old state |
| Workflow.PreparedContract | workflow.py:93-116 | on a healthy client, the ids read are the active keys. The task in process gets the first chunk's directory, the chunk count and the active count, and nothing else changes |
| Workflow.UpdateDbGuard | workflow.py:79-81 | with the set or the client in error on entry, `update_db` does nothing |
| Workflow.ProcessRecord | workflow.py:140-166 | state, ids, buffer and raise are `RecordStep` of the old ones |
| Workflow.RecordStepRoutes | workflow.py:140-166 | a record in error only adds messages. One that does not convert raises. A new id is buffered and remembered, deleted or not, leaving collections alone. A known id goes to `update_workflow` with `no_insert` |
| Workflow.RepeatedNewIdRaises | workflow.py:159-166 | an id buffered but not yet inserted that comes again, live, reaches `update_workflow` with no active record and raises |
| Workflow.RecordStepBuffered | workflow.py:159-163 | each record keeps the buffered ids remembered and distinct; only a new record grows the buffer, by itself |
| Workflow.RecordsFoldBuffered | workflow.py:140-166 | a chunk's records keep the buffer invariant and only add ids |
| Workflow.ProcessChunk | workflow.py:136-171 | state, ids, buffer and raise are `ChunkStep` of the old ones |
| Workflow.ChunkLoopBuffered | workflow.py:122-171 | the chunk loop, as written or corrected, keeps the buffer invariant and only adds ids. Unless it raises, it leaves fewer than 5000 records for the final insert |
| Workflow.StopOnError | workflow.py:125-131 | the critical branch as written: state and raise are `CriticalStopAsWritten` of the old state, the `+=` on the fresh task's empty dict raising |
| Workflow.CriticalStopAlwaysRaises | workflow.py:125-131 | as written, the critical branch raises whenever the client is in error, and writes no task (finding 1) |
| Workflow.ChunkLoopRaisesOnError | workflow.py:122-131 | as written, a chunk loop that reaches a chunk with the client in error raises out of `update_db`, writes no task, leaves the collections alone and never inserts the buffer (finding 1) |
| Workflow.RaisedUpdateSkipsClose | workflow.py:197-202 | when `update_db` raises, the end of `main` is that raise: `task.close()` is not reached, so the run's task is left in process |
| Workflow.HarvestRaiseLeavesTaskOpen | workflow.py:192-202 | when building a harvested chunk raises, `main` raises before `update_db` and `task.close()`: the collections are untouched and the run's new task stays the one in process, so every later run is refused |
| Workflow.CriticalStopContract | workflow.py:125-131 | the branch as intended: collections and task count are untouched; on a reachable client the task in process, if any, is marked critical with the client's messages and nothing else changes |
| Workflow.ChunkLoopStopsOnError | workflow.py:124-131 | corrected, with the client in error at a chunk, the loop stops there without raising, records the critical stop, and keeps the buffer for the final insert (finding 1) |
| Workflow.RunChunks | workflow.py:122-171 | the result is `ChunkLoop` of the old state with the branch as written, and the client's state is its database |
| Workflow.UpdateDb | workflow.py:75-175 | state and raise are `UpdateDbOutcome` of the set's flag, the old state and the chunk paths, with the branch as written |
| Workflow.HarvestCheck | workflow.py:57-67 | the check inside the harvest loop, as written: state and raise are `HarvestCheckAsWritten` of the flags seen at the yields. With no flag seen it does nothing; at the first flag seen it marks, updates and closes the task in process, the `+=` raising on an errored task |
| Workflow.HarvestDataFromAlma | workflow.py:38-69 | with the set or client in error on entry, nothing happens. Otherwise chunks are paged as `get_next_chunk` does, the set's flag is never seen raised at a yield, and the check inside the loop therefore leaves the client as it was, even when the harvest failed. It raises exactly when building a chunk raised, with the set's flag untouched |
| Workflow.MainFlow | workflow.py:183-203 | the harvest runs exactly when `MainHarvestDay` gives a day and the set is not in error. It then pages `MainHarvest` of that day, from the day up to today: the set's flag, its messages and whether the harvest raised are those of some paging (`Paged`, `FailedEarly`, `RaisedEarly`); otherwise the set is untouched and nothing is seen or raised. State and raise are `MainOutcome` of the old state and these values, with the program as written: the task opens at the run's start time, a raise out of the harvest ends the run there, the harvest check and `task.close()` use its end time, no flag is seen inside the harvest loop |
| Workflow.FinishRun | workflow.py:197-202 | state and raise are `Finish` of the old state: `update_db` as written only when the task is not in error, then `task.close()` at the end time unless the update raised |
| Workflow.MainRefusedWhileInProcess | workflow.py:189-199 | with a task in process, the run is refused, as written or corrected: the refusal is recorded, nothing is imported or written, and nothing raises |
| Workflow.OpenedTask | oaiharvester/mongodb.py:406-457 | with no task in process, `main` appends its task, which is the one found and has not errored |
| Workflow.ClosedTask | oaiharvester/mongodb.py:542-557 | closing the only task in process stamps it with the end time, the duration in minutes and the active count, and takes it out of process |
| Workflow.FailedHarvestFinishes | workflow.py:57-69 | as written, a harvest that fails without yielding goes unnoticed: no raise, the collections are untouched, and the run's task is closed as finished with a duration of the whole minutes from start to end, so the next run starts from this run's start or later (finding 2) |
| Workflow.FailedHarvestRecorded | workflow.py:57-69 | with the check after the loop, the same failure marks the new task critical with the set's messages and closes it. The latest finished start is unchanged, so the next run harvests this run's period again (finding 2) |

## Left out

- Logging, `configure_logger`, `__repr__`/`__str__` and `etree.tostring` are not modelled; they change no state that the core reads.
- XML parsing is the parameter `parsePage`/`parseRecord`; lxml's behaviour and namespaces are not modelled.
- `datetime.strptime` of the 988 dates is not modelled: `c_date`/`u_date` keep the matched text.
- Datestamps are integers of seconds.
- The HTTP server is the parameter `server`, its answers per try. `time.sleep` between tries is left out.
- The disk is the `Disk` parameter: listings, file contents, and the free space given to `check_free_space`. `Chunk.save`, `Chunk.delete`, `os.mkdir` and the cleaning of the harvest directory write files that the model does not keep. The listing read by `update_db` is an input, not tied to the chunks the harvest saved.
- `tools.get_directory_param` (command line, `normpath`, `sys.exit`) is the input `dirParam`.
- `date.today()` is the input `today` and `isoformat` the parameter `isoDate`. `datetime.now()` is read twice in a run: `start`, when `main` opens its task, and `end`, for every later reading (the harvest check's `task.close()` and the final one). Readings between the two are not told apart; a task's duration is the whole minutes from `start` to `end`.
- Regex classes are ASCII: `\d` is 0-9, `\w` is letters, digits and `_`, and `\s` is Python's ASCII whitespace.
- Harvester.OaiSet.GetNextChunk: the paging stops after `fuel` chunks. An endless token chain is not modelled past that bound.
- Records.XmlRecord.constructor: a deleted record without an identifier element makes Python raise; the constructor requires otherwise. Its callers model the raise before building a record: `Harvester.Chunk` (its `raised` flag, `BuildRaises`), `Harvester.OaiSet.Pages` and `GetNextChunk`, `Workflow.HarvestDataFromAlma` and `MainOutcome` for the harvest, and `Workflow.ChunkStep` for `update_db`.
- Store.Mongo.constructor: whether the server answers (`reachable`) is fixed for the whole run, and the `MongoClient(...)` raise of `oaiharvester/mongodb.py:80-86` is not modelled; the connection is outside the model. A server that answers at first and fails later is therefore not captured. Two paths of that case are lost. First, `len(None)` in `update_db` (workflow.py:108-110) or in `task.close()` raising after the client failed mid-run; the model reaches these only when an earlier call set the flag on a server that answers, such as an archive without `c_date`. Second, `None.isoformat()` (workflow.py:194) when `get_harvesting_from_time` fails after the task was opened.
- Harvester.ElementText: an `error_message` element without text adds `""` to the chunk's messages, where Python appends `None`. The model does not capture a `None` in a message list.
- Store.Mongo.InsertManyRecords: a batch is one value. Whether a failing `insert_many` wrote a prefix before falling back to single inserts is not modelled; the result is the same set of documents.
- Workflow.HarvestDataFromAlma: `chunk.save()` inside the loop is not modelled (file writing); the harvested pages reach `update_db` through the disk listing.
- Tools.CheckFreeSpace: modelled with its contract but called by no other member, because its caller `Chunk.save` is left out. The free-space message reaches the harvest only as text in a chunk's messages.
- Workflow.HarvestCheck: the `task is None` branch is not modelled, because `get_in_process_task()` always returns a `Task`.
- Workflow.StopOnError, Workflow.HarvestCheck, Workflow.HarvestDataFromAlma, Workflow.MainFlow: the `Fixes` parameter of the specification functions selects the program as written (`AsWritten`), which every method follows, or the corrected branches of the two findings (`Corrected`), which only the corrected lemmas use.
- Store.Mongo.GetActiveRecord and the other documents the client rebuilds: the `JsonRecord` constructor is not modelled as raising there. `Records.ToJsonRebuilds` shows that every document `to_json` produced is rebuilt without raising.
- Marc.AccessType, Marc.BibResourceType: an 008 made of data fields (a `datafield` tagged 008 and no `controlfield` 008) is read as missing, giving "ERROR". Python measures that list instead: it also answers "ERROR" below 22 entries (23 for access), and raises from 22 (23) entries on, when it tests a field against a string. The model does not capture that raise.
- Concurrency between runs and MongoDB's `_id`s are not modelled: a task's `_id` is its index.

## Findings

| source | as written | input that shows it | evidently intended | confidence | as-written member | corrected member |
|---|---|---|---|---|---|---|
| workflow.py:125-131 | with `mongo.error` set, `get_in_process_task()` returns a task whose `error` is True, so `task.data` is a fresh `{}`. Line 128's assignment is lost, and line 129's `+=` reads a missing key and raises `KeyError`. The exception leaves `update_db` and `main` before `task.close()`, so the run's task stays in process and every later run is refused | a chunk loop entered after an earlier call failed, e.g. `archive_record` on a record without `c_date` while the server answers | mark the task in process critical with the client's messages, save it, and stop the loop (`Corrected` in `ChunkLoop`) | high, not executed | Workflow.ChunkLoopRaisesOnError | Workflow.ChunkLoopStopsOnError |
| workflow.py:57-67 | `get_next_chunk` sets `oai_set.error` only just before it ends without yielding, so the check inside the loop never fires. `update_db` then returns at its guard, `main` closes the task as finished, and the next harvest starts after this one | the first `ListRecords` request fails three times: no chunk is yielded and the flag is set | after the loop, mark the task in process critical with the set's messages, so the run does not count as a finished harvest (`Corrected` in `MainOutcome`) | high, not executed | Workflow.FailedHarvestFinishes | Workflow.FailedHarvestRecorded |
