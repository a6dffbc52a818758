/**
 * The MongoDB side of the harvester as a state machine over values: the
 * active collection and the history collection are maps keyed by MMS id, the
 * task collection is a list in insertion order, and the client's `error` flag
 * with its messages gates every `@check_error` operation. `reachable` says
 * whether database calls succeed; a call that fails takes Python's `except`
 * branch. Timestamps are seconds, dates day numbers (module `Calendar`).
 */
module Sync {
  import opened Wrappers
  import opened Calendar
  import opened Marc
  import opened Archive

  // Messages the client records (their exception text is not modelled).
  const GetRecordFailed: string := "Error getting record"
  const UpdateFailed: string := "Error updating record"
  const ArchiveFailed: string := "Error archiving record"
  const DeleteFailed: string := "Error deleting record"
  const GetIdsFailed: string := "Error getting all MMS IDs"
  const HarvestDateFailed: string := "Error getting last harvesting date"
  const TaskInProcess: string := "Task already in process"
  const TaskInsertFailed: string := "Error inserting statistics record"
  const TaskGetFailed: string := "Error getting last task in process"
  const TaskUpdateFailed: string := "Error updating task record"

  /** A document of the task collection. */
  datatype TaskDoc = TaskDoc(
    startTime: int,
    endTime: Option<int>,
    duration: Option<int>,
    nbAtStart: Option<int>,
    nbAtEnd: Option<int>,
    nbChunks: Option<int>,
    inProcess: bool,
    chunkDirectory: Option<string>,
    criticalError: bool,
    criticalErrorMessages: seq<string>,
    dataErrorMessages: seq<string>)

  /** The database and the client's error state. */
  datatype Db = Db(
    reachable: bool,
    error: bool,
    errorMessages: seq<string>,
    active: map<string, JsonData>,
    history: map<string, ArchiveData>,
    tasks: seq<TaskDoc>)

  /** A Python `except` branch of the client: the flag is set and a message kept. */
  function Fail(db: Db, msg: string): Db
  {
    db.(error := true, errorMessages := db.errorMessages + [msg])
  }

  /** The result of a workflow operation; `raised` is an uncaught Python exception. */
  datatype Outcome = Outcome(db: Db, raised: bool)

  // ---------------------------------------------------------------
  // Collection primitives (all behind `check_error`)
  // ---------------------------------------------------------------

  /** `get_record(mms_id, active_col)`: the stored document, reclassified by
    * the `JsonRecord` constructor. */
  function GetActive(db: Db, id: string): (Db, Option<JsonRecord>)
  {
    if db.error then (db, None)
    else if !db.reachable then (Fail(db, GetRecordFailed), None)
    else if id in db.active then (db, Some(NewJsonRecord(db.active[id], [])))
    else (db, None)
  }

  /** `get_record(mms_id, hist_col)`. */
  function GetHistory(db: Db, id: string): (Db, Option<ArchiveData>)
  {
    if db.error then (db, None)
    else if !db.reachable then (Fail(db, GetRecordFailed), None)
    else if id in db.history then (db, Some(db.history[id]))
    else (db, None)
  }

  /** `insert_record(record, active_col)`: an id already present is left as it
    * is; when the insert fails, the lookup that follows fails too. */
  function InsertActive(db: Db, d: JsonData): Db
  {
    if db.error then db
    else if !db.reachable then Fail(db, GetRecordFailed)
    else if d.mmsId in db.active then db
    else db.(active := db.active[d.mmsId := d])
  }

  /** `insert_record(archive, hist_col)`. */
  function InsertHistory(db: Db, a: ArchiveData): Db
  {
    if db.error then db
    else if !db.reachable then Fail(db, GetRecordFailed)
    else if a.mmsId in db.history then db
    else db.(history := db.history[a.mmsId := a])
  }

  /** `update_record(record, active_col)`: `replace_one` does not insert. */
  function ReplaceActive(db: Db, d: JsonData): Db
  {
    if db.error then db
    else if !db.reachable then Fail(db, UpdateFailed)
    else if d.mmsId in db.active then db.(active := db.active[d.mmsId := d])
    else db
  }

  /** `update_record(archive, hist_col)`. */
  function ReplaceHistory(db: Db, a: ArchiveData): Db
  {
    if db.error then db
    else if !db.reachable then Fail(db, UpdateFailed)
    else if a.mmsId in db.history then db.(history := db.history[a.mmsId := a])
    else db
  }

  /** `delete_record(mms_id, active_col)`. */
  function DeleteActive(db: Db, id: string): Db
  {
    if db.error then db
    else if !db.reachable then Fail(db, DeleteFailed)
    else db.(active := db.active - {id})
  }

  /** `get_all_mms_ids(active_col)`; `None` is the guard's `None`. */
  function GetAllMmsIds(db: Db): (Db, Option<set<string>>)
  {
    if db.error then (db, None)
    else if !db.reachable then (Fail(db, GetIdsFailed), Some({}))
    else (db, Some(db.active.Keys))
  }

  // ---------------------------------------------------------------
  // Workflows
  // ---------------------------------------------------------------

  /** `archive_record`: with a history entry, the record is added to it (a
    * `KeyError` there is not caught) and the entry replaced; the `deleted`
    * flag set on the fetched archive object is never written. Without one, a
    * one-version archive is inserted, and a `KeyError` from `to_archive` is
    * caught and recorded. */
  function ArchiveRecord(db: Db, rec: JsonRecord): Outcome
  {
    if db.error then Outcome(db, false)
    else
      var (db1, h) := GetHistory(db, rec.data.mmsId);
      if h.Some? then
        var added := AddedToArchive(h.value, rec);
        if added.None? then Outcome(db1, true)
        else Outcome(ReplaceHistory(db1, added.value), false)
      else
        var a := ToArchive(rec);
        if a.None? then Outcome(Fail(db1, ArchiveFailed), false)
        else Outcome(InsertHistory(db1, a.value), false)
  }

  /** `delete_workflow`. */
  function DeleteWorkflow(db: Db, rec: JsonRecord): Outcome
  {
    if db.error then Outcome(db, false)
    else
      var (db1, e) := GetActive(db, rec.data.mmsId);
      if e.None? || rec.data.pDate < e.value.data.pDate then Outcome(db1, false)
      else
        var o := ArchiveRecord(db1, e.value.(deleted := true));
        if o.raised then o
        else Outcome(DeleteActive(o.db, rec.data.mmsId), false)
  }

  /** `update_workflow`; with no active record and `no_insert`, Python
    * dereferences `None` (`raised`). */
  function UpdateWorkflow(db: Db, rec: JsonRecord, noInsert: bool): Outcome
  {
    if db.error then Outcome(db, false)
    else
      var (db1, e) := GetActive(db, rec.data.mmsId);
      if rec.deleted then DeleteWorkflow(db1, rec)
      else if e.Some? && SameVersion(e.value, rec) then Outcome(db1, false)
      else if e.None? && !noInsert then Outcome(InsertActive(db1, rec.data), false)
      else if e.None? then Outcome(db1, true)
      else if rec.data.pDate > e.value.data.pDate then
        var o := ArchiveRecord(db1, e.value);
        if o.raised then o
        else Outcome(ReplaceActive(o.db, rec.data), false)
      else if rec.data.pDate < e.value.data.pDate then ArchiveRecord(db1, rec)
      else Outcome(db1, false)
  }

  // ---------------------------------------------------------------
  // Tasks
  // ---------------------------------------------------------------

  /** A finished task that counts as a harvest: no critical error, an end time,
    * and no longer in process. */
  predicate Finished(t: TaskDoc)
  {
    !t.criticalError && t.endTime.Some? && !t.inProcess
  }

  /** The latest start time among finished tasks. */
  function LatestFinishedStart(tasks: seq<TaskDoc>): (r: Option<int>)
    ensures r.None? <==> forall k :: 0 <= k < |tasks| ==> !Finished(tasks[k])
    ensures r.Some? ==> exists k :: 0 <= k < |tasks| && Finished(tasks[k]) && tasks[k].startTime == r.value
    ensures r.Some? ==> forall k :: 0 <= k < |tasks| && Finished(tasks[k]) ==> tasks[k].startTime <= r.value
  {
    if |tasks| == 0 then None
    else
      var init := tasks[..|tasks| - 1];
      var last := tasks[|tasks| - 1];
      var before := LatestFinishedStart(init);
      assert forall k :: 0 <= k < |init| ==> init[k] == tasks[k];
      if !Finished(last) then before
      else if before.Some? && before.value >= last.startTime then before
      else Some(last.startTime)
  }

  /** `get_harvesting_from_time`: the start day of the latest-started finished
    * task, or `today` when there is none. */
  function GetHarvestingFromTime(db: Db, today: int): (Db, Option<int>)
  {
    if db.error then (db, None)
    else if !db.reachable then (Fail(db, HarvestDateFailed), None)
    else
      var s := LatestFinishedStart(db.tasks);
      (db, Some(if s.None? then today else DayOf(s.value)))
  }

  /** A task document together with its position, which stands for `_id`. */
  datatype Held = Held(id: nat, doc: TaskDoc)

  /** The first task in process, as `find_one({'in_process': True})` returns it. */
  function FirstInProcess(tasks: seq<TaskDoc>, from: nat): (r: Option<Held>)
    requires from <= |tasks|
    decreases |tasks| - from
    ensures r.Some? ==> from <= r.value.id < |tasks| && r.value.doc == tasks[r.value.id] && r.value.doc.inProcess
    ensures r.Some? ==> forall k :: from <= k < r.value.id ==> !tasks[k].inProcess
    ensures r.None? ==> forall k :: from <= k < |tasks| ==> !tasks[k].inProcess
  {
    if from == |tasks| then None
    else if tasks[from].inProcess then Some(Held(from, tasks[from]))
    else FirstInProcess(tasks, from + 1)
  }

  /** Rewriting the first task in process with a document still in process
    * keeps it the first task in process. */
  lemma {:induction false} FirstInProcessKept(tasks: seq<TaskDoc>, from: nat, doc: TaskDoc)
    requires from <= |tasks| && FirstInProcess(tasks, from).Some? && doc.inProcess
    ensures var id := FirstInProcess(tasks, from).value.id;
            FirstInProcess(tasks[id := doc], from) == Some(Held(id, doc))
    decreases |tasks| - from
  {
    if !tasks[from].inProcess {
      FirstInProcessKept(tasks, from + 1, doc);
    }
  }

  /** The only task in process is the first one. */
  lemma {:induction false} OnlyInProcess(tasks: seq<TaskDoc>, from: nat, n: nat)
    requires from <= n < |tasks| && tasks[n].inProcess
    requires forall k :: from <= k < |tasks| && k != n ==> !tasks[k].inProcess
    ensures FirstInProcess(tasks, from) == Some(Held(n, tasks[n]))
    decreases |tasks| - from
  {
    if from < n {
      OnlyInProcess(tasks, from + 1, n);
    }
  }

  /** `Task._get_in_process`: not guarded by `check_error`. */
  function GetInProcess(db: Db): (Db, Option<Held>)
  {
    if !db.reachable then (Fail(db, TaskGetFailed), None)
    else (db, FirstInProcess(db.tasks, 0))
  }

  /** The document `Task._create` inserts. */
  function NewTaskDoc(now: int): TaskDoc
  {
    TaskDoc(now, None, None, None, None, None, true, None, false, [], [])
  }

  /** `Task._create`: refused while a task is in process. */
  function CreateTask(db: Db, now: int): Db
  {
    var (db1, cur) := GetInProcess(db);
    if cur.Some? then Fail(db1, TaskInProcess)
    else if !db1.reachable then Fail(db1, TaskInsertFailed)
    else db1.(tasks := db1.tasks + [NewTaskDoc(now)])
  }

  /** A `Task` object: its `error` flag and its `_data`. */
  datatype TaskState = TaskState(error: bool, held: Option<Held>)

  /** `Task(mongo, new_task)`. */
  function OpenTask(db: Db, newTask: bool, now: int): (Db, TaskState)
  {
    var db1 := if newTask then CreateTask(db, now) else db;
    var (db2, d) := GetInProcess(db1);
    (db2, TaskState(d.None? || db2.error, d))
  }

  /** The `data` property: `None` stands for the empty dict it returns when the
    * task has errored or holds no document. */
  function TaskData(t: TaskState): Option<Held>
  {
    if t.held.None? || t.error then None else t.held
  }

  /** The assignments the workflow makes to `task.data`. */
  datatype DataEdit =
    | SetChunkDirectory(dir: string)
    | SetNbChunks(n: int)
    | SetNbAtStart(n: int)
    | MarkCritical(messages: seq<string>)

  /** A task document after an edit; `MarkCritical` sets the flag and extends
    * the critical messages. */
  function ApplyEdit(doc: TaskDoc, e: DataEdit): TaskDoc
  {
    match e
    case SetChunkDirectory(dir) => doc.(chunkDirectory := Some(dir))
    case SetNbChunks(n) => doc.(nbChunks := Some(n))
    case SetNbAtStart(n) => doc.(nbAtStart := Some(n))
    case MarkCritical(ms) => doc.(criticalError := true, criticalErrorMessages := doc.criticalErrorMessages + ms)
  }

  /** An edit made through the `data` property, and whether it raised. On the
    * empty dict a plain assignment is lost, while the `+=` of `MarkCritical`
    * reads a missing key and raises `KeyError`. */
  function EditData(t: TaskState, e: DataEdit): (TaskState, bool)
  {
    var d := TaskData(t);
    if d.None? then (t, e.MarkCritical?)
    else (TaskState(t.error, Some(Held(d.value.id, ApplyEdit(d.value.doc, e)))), false)
  }

  /** `Task.update`: writes the held document back (behind `check_error` on
    * the task); `update_one` on a missing `_id` writes nothing. Without a held
    * document, `data['_id']` raises inside the `try` and is caught. */
  function UpdateTask(db: Db, t: TaskState): Db
  {
    if t.error then db
    else if t.held.None? || !db.reachable then Fail(db, TaskUpdateFailed)
    else if t.held.value.id < |db.tasks| then db.(tasks := db.tasks[t.held.value.id := t.held.value.doc])
    else db
  }

  /** `Task.add_data_error_message`: pushes onto the stored document; a failure
    * sets the flag without a message. */
  function AddDataErrorMessage(db: Db, t: TaskState, msg: string): Db
  {
    if t.error then db
    else if t.held.None? || !db.reachable then db.(error := true)
    else if t.held.value.id < |db.tasks| then
      var id := t.held.value.id;
      db.(tasks := db.tasks[id := db.tasks[id].(dataErrorMessages := db.tasks[id].dataErrorMessages + [msg])])
    else db
  }

  /** The result of `Task.close`. */
  datatype Closed = Closed(db: Db, task: TaskState, raised: bool)

  /** `Task.close`: counts the active ids, refreshes the document and stamps
    * it finished. With the client in error the count is `None` and `len`
    * raises; with no task in process the empty dict makes the duration raise. */
  function CloseTask(db: Db, t: TaskState, now: int): Closed
  {
    if t.error then Closed(db, t, false)
    else
      var (db1, ids) := GetAllMmsIds(db);
      var (db2, d) := GetInProcess(db1);
      if ids.None? || d.None? then Closed(db2, TaskState(t.error, d), true)
      else
        var doc := d.value.doc;
        var doc1 := doc.(nbAtEnd := Some(|ids.value|), endTime := Some(now),
                         duration := Some((now - doc.startTime) / SecondsPerMinute), inProcess := false);
        var t1 := TaskState(false, Some(Held(d.value.id, doc1)));
        Closed(UpdateTask(db2, t1), t1, false)
  }

  // ---------------------------------------------------------------
  // Properties
  // ---------------------------------------------------------------

  /** Both collections are keyed by the MMS id their documents carry, and
    * every archive is well formed. */
  predicate Consistent(db: Db)
  {
    (forall id :: id in db.active ==> db.active[id].mmsId == id) &&
    (forall id :: id in db.history ==> db.history[id].mmsId == id && ValidArchive(db.history[id]))
  }

  /** The `check_error` guard: with the flag set, every guarded operation
    * returns `None` and touches nothing. */
  lemma CheckErrorGate(db: Db, rec: JsonRecord, noInsert: bool, today: int)
    requires db.error
    ensures UpdateWorkflow(db, rec, noInsert) == Outcome(db, false)
    ensures DeleteWorkflow(db, rec) == Outcome(db, false)
    ensures ArchiveRecord(db, rec) == Outcome(db, false)
    ensures GetActive(db, rec.data.mmsId) == (db, None)
    ensures GetAllMmsIds(db) == (db, None)
    ensures GetHarvestingFromTime(db, today) == (db, None)
  {
  }

  /** `archive_record` on a reachable client: without a history entry the
    * record's one-version archive is inserted (or the error recorded when the
    * record lacks `c_date`, `u_date` or `sup`); with one, the record is added
    * to it and the stored `deleted` flag is left as it was. Nothing else in
    * the database changes, and consistency is kept. */
  lemma ArchiveRecordContract(db: Db, rec: JsonRecord)
    requires !db.error && db.reachable && Consistent(db)
    ensures var o := ArchiveRecord(db, rec);
            var id := rec.data.mmsId;
            o.db.active == db.active && o.db.tasks == db.tasks && Consistent(o.db) &&
            (id !in db.history && ToArchive(rec).Some? ==>
               !o.raised && o.db.history == db.history[id := ToArchive(rec).value] && !o.db.error) &&
            (id !in db.history && ToArchive(rec).None? ==>
               !o.raised && o.db.history == db.history && o.db.error) &&
            (id in db.history ==>
               (o.raised <==> AddedToArchive(db.history[id], rec).None?) &&
               (!o.raised ==> o.db.history == db.history[id := AddedToArchive(db.history[id], rec).value] &&
                              o.db.history[id].deleted == db.history[id].deleted && !o.db.error))
  {
    if rec.data.mmsId in db.history {
      ArchiveIntoHistory(db, rec);
    } else {
      ArchiveFirstVersion(db, rec);
    }
  }

  /** `archive_record` for an id with a history entry. */
  lemma ArchiveIntoHistory(db: Db, rec: JsonRecord)
    requires !db.error && db.reachable && Consistent(db) && rec.data.mmsId in db.history
    ensures var o := ArchiveRecord(db, rec);
            var id := rec.data.mmsId;
            o.db.active == db.active && o.db.tasks == db.tasks && Consistent(o.db) &&
            (o.raised <==> AddedToArchive(db.history[id], rec).None?) &&
            (!o.raised ==> o.db.history == db.history[id := AddedToArchive(db.history[id], rec).value] &&
                           o.db.history[id].deleted == db.history[id].deleted && !o.db.error)
  {
    var id := rec.data.mmsId;
    var a := db.history[id];
    assert GetHistory(db, id) == (db, Some(a));
    AddedToArchiveContract(a, rec);
    var added := AddedToArchive(a, rec);
    if added.Some? {
      var b := added.value;
      assert ArchiveRecord(db, rec) == Outcome(db.(history := db.history[id := b]), false);
      StoredArchiveConsistent(db, b);
    } else {
      assert ArchiveRecord(db, rec) == Outcome(db, true);
    }
  }

  /** Storing a well-formed archive under its own id keeps the database consistent. */
  lemma StoredArchiveConsistent(db: Db, b: ArchiveData)
    requires Consistent(db) && ValidArchive(b)
    ensures Consistent(db.(history := db.history[b.mmsId := b]))
  {
  }

  /** `archive_record` for an id without a history entry. */
  lemma ArchiveFirstVersion(db: Db, rec: JsonRecord)
    requires !db.error && db.reachable && Consistent(db) && rec.data.mmsId !in db.history
    ensures var o := ArchiveRecord(db, rec);
            var id := rec.data.mmsId;
            o.db.active == db.active && o.db.tasks == db.tasks && Consistent(o.db) && !o.raised &&
            (ToArchive(rec).Some? ==> o.db.history == db.history[id := ToArchive(rec).value] && !o.db.error) &&
            (ToArchive(rec).None? ==> o.db.history == db.history && o.db.error)
  {
    var id := rec.data.mmsId;
    assert GetHistory(db, id) == (db, None);
    ToArchiveContract(rec);
    if ToArchive(rec).Some? {
      assert ArchiveRecord(db, rec) == Outcome(db.(history := db.history[id := ToArchive(rec).value]), false);
    } else {
      assert ArchiveRecord(db, rec) == Outcome(Fail(db, ArchiveFailed), false);
    }
  }

  /** Archiving the same record twice: the second time, the archive is left as
    * the first time made it, whatever the record was: the first version
    * archived, one already there, a newer or an older one, or one the
    * yearly filter dropped. */
  lemma ArchiveTwice(db: Db, rec: JsonRecord)
    requires !db.error && db.reachable && Consistent(db)
    requires !ArchiveRecord(db, rec).raised
    ensures var o := ArchiveRecord(db, rec);
            var o2 := ArchiveRecord(o.db, rec);
            !o2.raised && o2.db == o.db
  {
    var id := rec.data.mmsId;
    var o := ArchiveRecord(db, rec);
    if o.db.error {
    } else if id in db.history {
      var h := db.history[id];
      var b := AddedToArchive(h, rec).value;
      assert o.db == db.(history := db.history[id := b]) by {
        AddedToArchiveContract(h, rec);
      }
      AddedTwice(h, rec);
      ArchiveSettled(o.db, rec);
    } else {
      ArchiveTwiceFirst(db, rec);
    }
  }

  /** An archive that adding the record leaves unchanged is not rewritten. */
  lemma ArchiveSettled(db: Db, rec: JsonRecord)
    requires !db.error && db.reachable && rec.data.mmsId in db.history
    requires AddedToArchive(db.history[rec.data.mmsId], rec) == Some(db.history[rec.data.mmsId])
    requires db.history[rec.data.mmsId].mmsId == rec.data.mmsId
    ensures ArchiveRecord(db, rec) == Outcome(db, false)
  {
    var id := rec.data.mmsId;
    assert db.history[id := db.history[id]] == db.history;
  }

  /** The first-version case of `ArchiveTwice`. */
  lemma ArchiveTwiceFirst(db: Db, rec: JsonRecord)
    requires !db.error && db.reachable && Consistent(db)
    requires rec.data.mmsId !in db.history
    requires !ArchiveRecord(db, rec).raised && !ArchiveRecord(db, rec).db.error
    ensures var o := ArchiveRecord(db, rec);
            var o2 := ArchiveRecord(o.db, rec);
            !o2.raised && o2.db == o.db
  {
    var id := rec.data.mmsId;
    ToArchiveContract(rec);
    var a := ToArchive(rec).value;
    var o := ArchiveRecord(db, rec);
    assert o.db == db.(history := db.history[id := a]);
    assert PDates(a.versions)[0] == rec.data.pDate;
    assert AddedToArchive(a, rec) == Some(a);
    ArchiveSettled(o.db, rec);
  }

  /** `delete_workflow` on a reachable client: nothing happens without an active
    * record or when the incoming record is strictly older; otherwise the
    * active record, flagged deleted, is archived and removed from the active
    * collection. */
  lemma DeleteWorkflowContract(db: Db, rec: JsonRecord)
    requires !db.error && db.reachable && Consistent(db)
    ensures var o := DeleteWorkflow(db, rec);
            var id := rec.data.mmsId;
            (id !in db.active || rec.data.pDate < db.active[id].pDate ==> o == Outcome(db, false)) &&
            (id in db.active && rec.data.pDate >= db.active[id].pDate ==>
               var e := NewJsonRecord(db.active[id], []).(deleted := true);
               var a := ArchiveRecord(db, e);
               (o.raised <==> a.raised) &&
               (!o.raised && !a.db.error ==>
                  o.db.active == db.active - {id} && o.db.history == a.db.history && id in o.db.history) &&
               (!o.raised && a.db.error ==> o.db.active == db.active && o.db.history == db.history)) &&
            o.db.tasks == db.tasks && Consistent(o.db)
  {
    var id := rec.data.mmsId;
    if id in db.active {
      var e0 := NewJsonRecord(db.active[id], []);
      assert GetActive(db, id) == (db, Some(e0));
      NewJsonRecordContract(db.active[id], []);
      if rec.data.pDate >= db.active[id].pDate {
        var e := e0.(deleted := true);
        assert e.data.mmsId == id;
        ArchiveRecordContract(db, e);
        var a := ArchiveRecord(db, e);
        if a.raised {
          assert DeleteWorkflow(db, rec) == a;
        } else {
          assert DeleteWorkflow(db, rec) == Outcome(DeleteActive(a.db, id), false);
        }
      } else {
        assert DeleteWorkflow(db, rec) == Outcome(db, false);
      }
    } else {
      assert GetActive(db, id) == (db, None);
    }
  }

  /** `update_workflow` on a reachable client, route by route. */
  lemma UpdateWorkflowRoutes(db: Db, rec: JsonRecord, noInsert: bool)
    requires !db.error && db.reachable && Consistent(db)
    ensures var o := UpdateWorkflow(db, rec, noInsert);
            var id := rec.data.mmsId;
            (rec.deleted ==> o == DeleteWorkflow(db, rec)) &&
            (!rec.deleted && id in db.active && db.active[id].pDate == rec.data.pDate ==> o == Outcome(db, false)) &&
            (!rec.deleted && id !in db.active && !noInsert ==>
               !o.raised && o.db == db.(active := db.active[id := rec.data])) &&
            (!rec.deleted && id !in db.active && noInsert ==> o.raised) &&
            (!rec.deleted && id in db.active && rec.data.pDate > db.active[id].pDate ==>
               var a := ArchiveRecord(db, NewJsonRecord(db.active[id], []));
               (o.raised <==> a.raised) &&
               (!o.raised && !a.db.error ==> o.db.active == db.active[id := rec.data] && o.db.history == a.db.history)) &&
            (!rec.deleted && id in db.active && rec.data.pDate < db.active[id].pDate ==>
               o == ArchiveRecord(db, rec) && o.db.active == db.active)
  {
    var id := rec.data.mmsId;
    if id in db.active {
      NewJsonRecordContract(db.active[id], []);
      if !rec.deleted && rec.data.pDate > db.active[id].pDate {
        ArchiveRecordContract(db, NewJsonRecord(db.active[id], []));
      } else if !rec.deleted && rec.data.pDate < db.active[id].pDate {
        ArchiveRecordContract(db, rec);
      }
    }
  }

  /** `update_workflow` keeps the database consistent and never touches the
    * task collection. */
  lemma UpdateWorkflowConsistent(db: Db, rec: JsonRecord, noInsert: bool)
    requires !db.error && db.reachable && Consistent(db)
    ensures Consistent(UpdateWorkflow(db, rec, noInsert).db)
    ensures UpdateWorkflow(db, rec, noInsert).db.tasks == db.tasks
  {
    var id := rec.data.mmsId;
    if rec.deleted {
      DeleteWorkflowContract(db, rec);
    } else if id in db.active {
      var e := NewJsonRecord(db.active[id], []);
      assert GetActive(db, id) == (db, Some(e));
      NewJsonRecordContract(db.active[id], []);
      if rec.data.pDate > e.data.pDate && !SameVersion(e, rec) {
        ArchiveRecordContract(db, e);
        var o := ArchiveRecord(db, e);
        if !o.raised {
          assert UpdateWorkflow(db, rec, noInsert) == Outcome(ReplaceActive(o.db, rec.data), false);
        }
      } else if rec.data.pDate < e.data.pDate && !SameVersion(e, rec) {
        ArchiveRecordContract(db, rec);
        assert UpdateWorkflow(db, rec, noInsert) == ArchiveRecord(db, rec);
      }
    } else {
      assert GetActive(db, id) == (db, None);
    }
  }

  /** At most one task is in process at any time. */
  predicate SingleInProcess(tasks: seq<TaskDoc>)
  {
    forall i, j :: 0 <= i < |tasks| && 0 <= j < |tasks| && tasks[i].inProcess && tasks[j].inProcess ==> i == j
  }

  /** `Task._create` refuses while a task is in process (setting the client's
    * error and inserting nothing); otherwise it appends one task in process.
    * Either way at most one task stays in process. */
  lemma CreateTaskContract(db: Db, now: int)
    requires db.reachable && SingleInProcess(db.tasks)
    ensures var db1 := CreateTask(db, now);
            SingleInProcess(db1.tasks) &&
            db1.active == db.active && db1.history == db.history &&
            ((exists k :: 0 <= k < |db.tasks| && db.tasks[k].inProcess) ==>
               db1.tasks == db.tasks && db1.error && |db1.errorMessages| == |db.errorMessages| + 1) &&
            ((forall k :: 0 <= k < |db.tasks| ==> !db.tasks[k].inProcess) ==>
               db1.tasks == db.tasks + [NewTaskDoc(now)] && db1.error == db.error)
  {
    var cur := FirstInProcess(db.tasks, 0);
    if cur.None? {
      var ts := db.tasks + [NewTaskDoc(now)];
      assert forall k :: 0 <= k < |db.tasks| ==> ts[k] == db.tasks[k];
    }
  }

  /** A new task opened while none is in process is the one in process: it
    * holds the new document and has not errored. */
  lemma OpenNewTask(db: Db, now: int)
    requires db.reachable && !db.error && forall k :: 0 <= k < |db.tasks| ==> !db.tasks[k].inProcess
    ensures var (db1, t) := OpenTask(db, true, now);
            !t.error && TaskData(t) == Some(Held(|db.tasks|, NewTaskDoc(now))) &&
            db1.tasks == db.tasks + [NewTaskDoc(now)]
  {
    var ts := db.tasks + [NewTaskDoc(now)];
    var f := FirstInProcess(ts, 0);
    assert f.Some? by {
      assert ts[|db.tasks|].inProcess;
    }
    assert forall k :: 0 <= k < |db.tasks| ==> ts[k] == db.tasks[k];
  }

  /** `Task.close` on a reachable client, the task open: the held task is
    * stamped with the end time, the whole minutes elapsed and the number of
    * active ids, and leaves the in-process state; with at most one task in
    * process, none remains, so a task opened afterwards has errored and its
    * `data` is the empty dict. */
  lemma CloseTaskContract(db: Db, t: TaskState, now: int)
    requires db.reachable && !db.error && !t.error && SingleInProcess(db.tasks)
    ensures var c := CloseTask(db, t, now);
            var d := FirstInProcess(db.tasks, 0);
            (d.None? <==> c.raised) &&
            (d.Some? ==>
               var doc := c.db.tasks[d.value.id];
               |c.db.tasks| == |db.tasks| && !doc.inProcess && doc.endTime == Some(now) &&
               doc.nbAtEnd == Some(|db.active.Keys|) &&
               doc.duration == Some((now - db.tasks[d.value.id].startTime) / SecondsPerMinute) &&
               doc.startTime == db.tasks[d.value.id].startTime &&
               c.db.active == db.active && c.db.history == db.history &&
               (forall k :: 0 <= k < |c.db.tasks| ==> !c.db.tasks[k].inProcess) &&
               var (_, t2) := OpenTask(c.db, false, now);
               t2.error && TaskData(t2).None?)
  {
    var d := FirstInProcess(db.tasks, 0);
    if d.Some? {
      var c := CloseTask(db, t, now);
      forall k | 0 <= k < |c.db.tasks| ensures !c.db.tasks[k].inProcess {
        if k != d.value.id {
          assert c.db.tasks[k] == db.tasks[k];
        }
      }
    }
  }

  /** `get_harvesting_from_time` on a reachable client: the start day of a
    * finished task that started no earlier than any other finished task, or
    * `today` when no task has finished. */
  lemma HarvestingFromTimeContract(db: Db, today: int)
    requires !db.error && db.reachable
    ensures var (db1, r) := GetHarvestingFromTime(db, today);
            db1 == db && r.Some? &&
            ((forall k :: 0 <= k < |db.tasks| ==> !Finished(db.tasks[k])) ==> r.value == today) &&
            ((exists k :: 0 <= k < |db.tasks| && Finished(db.tasks[k])) ==>
               exists k :: 0 <= k < |db.tasks| && Finished(db.tasks[k]) && r.value == DayOf(db.tasks[k].startTime) &&
                 forall j :: 0 <= j < |db.tasks| && Finished(db.tasks[j]) ==> db.tasks[j].startTime <= db.tasks[k].startTime)
  {
    var s := LatestFinishedStart(db.tasks);
    if s.Some? {
      var k :| 0 <= k < |db.tasks| && Finished(db.tasks[k]) && db.tasks[k].startTime == s.value;
    }
  }
}
