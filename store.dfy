/**
 * The MongoDB client objects: `Mongo`, whose collections and error state are
 * fields, and `Task`, which holds one document of the task collection. Every
 * method is proved to move the client to the state the matching function of
 * module `Sync` describes.
 */
module Store {
  import opened Wrappers
  import opened Marc
  import opened Archive
  import opened Sync

  const NoUri: string := "MONGO_URI environment variable is not set"

  class Mongo {
    const reachable: bool
    var error: bool
    var errorMessages: seq<string>
    var active: map<string, JsonData>
    var history: map<string, ArchiveData>
    var tasks: seq<TaskDoc>

    function State(): Db
      reads this
    {
      Db(reachable, error, errorMessages, active, history, tasks)
    }

    /** `Mongo(...)` over collections holding `a`, `h` and `t`. Without
      * `MONGO_URI` the client starts in error and has no database, so every
      * call that reaches it fails; `serverUp` says whether the server answers. */
    constructor (uriSet: bool, serverUp: bool, a: map<string, JsonData>, h: map<string, ArchiveData>, t: seq<TaskDoc>)
      ensures State() == Db(uriSet && serverUp, !uriSet, if uriSet then [] else [NoUri], a, h, t)
    {
      reachable := uriSet && serverUp;
      error := !uriSet;
      errorMessages := if uriSet then [] else [NoUri];
      active := a;
      history := h;
      tasks := t;
    }

    /** `get_record(mms_id, active_col)`. */
    method GetActiveRecord(id: string) returns (r: Option<JsonRecord>)
      modifies this
      ensures (State(), r) == GetActive(old(State()), id)
    {
      if error {
        return None;
      }
      if !reachable {
        error := true;
        errorMessages := errorMessages + [GetRecordFailed];
        return None;
      }
      if id in active {
        return Some(NewJsonRecord(active[id], []));
      }
      return None;
    }

    /** `get_record(mms_id, hist_col)`: a fresh `ArchiveJsonRecord`, or null. */
    method GetHistoryRecord(id: string) returns (r: ArchiveJsonRecord?)
      modifies this
      ensures State() == GetHistory(old(State()), id).0
      ensures r == null <==> GetHistory(old(State()), id).1.None?
      ensures r != null ==> fresh(r) && r.data == GetHistory(old(State()), id).1.value && r.deleted == r.data.deleted
    {
      if error {
        return null;
      }
      if !reachable {
        error := true;
        errorMessages := errorMessages + [GetRecordFailed];
        return null;
      }
      if id in history {
        r := new ArchiveJsonRecord(history[id]);
        return;
      }
      return null;
    }

    /** `insert_record(record, active_col)`. */
    method InsertActiveRecord(d: JsonData)
      modifies this
      ensures State() == InsertActive(old(State()), d)
    {
      if error {
        return;
      }
      if !reachable {
        // the insert fails, and so does the lookup in the `except` path
        var _ := GetActiveRecord(d.mmsId);
        return;
      }
      if d.mmsId !in active {
        active := active[d.mmsId := d];
      }
    }

    /** `insert_record(archive, hist_col)`. */
    method InsertHistoryRecord(a: ArchiveData)
      modifies this
      ensures State() == InsertHistory(old(State()), a)
    {
      if error {
        return;
      }
      if !reachable {
        var _ := GetHistoryRecord(a.mmsId);
        return;
      }
      if a.mmsId !in history {
        history := history[a.mmsId := a];
      }
    }

    /** `update_record(record, active_col)`. */
    method UpdateActiveRecord(d: JsonData)
      modifies this
      ensures State() == ReplaceActive(old(State()), d)
    {
      if error {
        return;
      }
      if !reachable {
        error := true;
        errorMessages := errorMessages + [UpdateFailed];
        return;
      }
      if d.mmsId in active {
        active := active[d.mmsId := d];
      }
    }

    /** `update_record(archive, hist_col)`. */
    method UpdateHistoryRecord(a: ArchiveData)
      modifies this
      ensures State() == ReplaceHistory(old(State()), a)
    {
      if error {
        return;
      }
      if !reachable {
        error := true;
        errorMessages := errorMessages + [UpdateFailed];
        return;
      }
      if a.mmsId in history {
        history := history[a.mmsId := a];
      }
    }

    /** `delete_record(mms_id, active_col)`. */
    method DeleteRecord(id: string)
      modifies this
      ensures State() == DeleteActive(old(State()), id)
    {
      if error {
        return;
      }
      if !reachable {
        error := true;
        errorMessages := errorMessages + [DeleteFailed];
        return;
      }
      active := active - {id};
    }

    /** `archive_record`; `raised` is the `KeyError` of `add_record_to_archive`. */
    method ArchiveRecord(rec: JsonRecord) returns (raised: bool)
      modifies this
      ensures Outcome(State(), raised) == Sync.ArchiveRecord(old(State()), rec)
    {
      if error {
        return false;
      }
      var h := GetHistoryRecord(rec.data.mmsId);
      if h != null {
        if rec.deleted {
          h.deleted := true;
        }
        raised := h.AddRecordToArchive(rec);
        if raised {
          return;
        }
        UpdateHistoryRecord(h.data);
        return false;
      }
      var a := ToArchive(rec);
      if a.None? {
        error := true;
        errorMessages := errorMessages + [ArchiveFailed];
        return false;
      }
      InsertHistoryRecord(a.value);
      return false;
    }

    /** `delete_workflow`. */
    method DeleteWorkflow(rec: JsonRecord) returns (raised: bool)
      modifies this
      ensures Outcome(State(), raised) == Sync.DeleteWorkflow(old(State()), rec)
    {
      if error {
        return false;
      }
      var existing := GetActiveRecord(rec.data.mmsId);
      if existing.None? {
        return false;
      }
      if rec.data.pDate < existing.value.data.pDate {
        return false;
      }
      var e := existing.value.(deleted := true);
      raised := ArchiveRecord(e);
      if raised {
        return;
      }
      DeleteRecord(rec.data.mmsId);
      return false;
    }

    /** `update_workflow`; `raised` is an uncaught exception. */
    method UpdateWorkflow(rec: JsonRecord, noInsert: bool) returns (raised: bool)
      modifies this
      ensures Outcome(State(), raised) == Sync.UpdateWorkflow(old(State()), rec, noInsert)
    {
      if error {
        return false;
      }
      var existing := GetActiveRecord(rec.data.mmsId);
      if rec.deleted {
        raised := DeleteWorkflow(rec);
        return;
      }
      if existing.Some? && SameVersion(existing.value, rec) {
        return false;
      }
      if existing.None? && !noInsert {
        InsertActiveRecord(rec.data);
        return false;
      }
      if existing.None? {
        // `existing_record.p_date` on `None`
        return true;
      }
      if rec.data.pDate > existing.value.data.pDate {
        raised := ArchiveRecord(existing.value);
        if raised {
          return;
        }
        UpdateActiveRecord(rec.data);
        return false;
      } else if rec.data.pDate < existing.value.data.pDate {
        raised := ArchiveRecord(rec);
        return;
      }
      return false;
    }

    /** `insert_many_records(records, active_col)`: a batch that hits a
      * duplicate id falls back to inserting the records one by one, which
      * amounts to inserting each record whose id is not yet present. */
    method InsertManyRecords(records: seq<JsonRecord>)
      modifies this
      ensures State() == InsertAll(old(State()), records)
    {
      // with the flag set, every insert below is a no-op, as the guard makes it
      for i := 0 to |records|
        invariant State() == InsertAll(old(State()), records[..i])
      {
        assert records[..i + 1] == records[..i] + [records[i]];
        InsertActiveRecord(records[i].data);
      }
      assert records[..|records|] == records;
    }

    /** `get_all_mms_ids(active_col)`. */
    method GetAllMmsIds() returns (r: Option<set<string>>)
      modifies this
      ensures (State(), r) == Sync.GetAllMmsIds(old(State()))
    {
      if error {
        return None;
      }
      if !reachable {
        error := true;
        errorMessages := errorMessages + [GetIdsFailed];
        return Some({});
      }
      return Some(active.Keys);
    }

    /** `get_harvesting_from_time`, with `today` a day number. */
    method GetHarvestingFromTime(today: int) returns (r: Option<int>)
      modifies this
      ensures (State(), r) == Sync.GetHarvestingFromTime(old(State()), today)
    {
      if error {
        return None;
      }
      if !reachable {
        error := true;
        errorMessages := errorMessages + [HarvestDateFailed];
        return None;
      }
      var latest := LatestFinishedStart(tasks);
      if latest.None? {
        return Some(today);
      }
      return Some(Calendar.DayOf(latest.value));
    }

    /** `get_in_process_task(new_task)`. */
    method GetInProcessTask(newTask: bool, now: int) returns (t: Task)
      modifies this
      ensures fresh(t) && t.mongo == this
      ensures (State(), t.State()) == OpenTask(old(State()), newTask, now)
    {
      t := new Task(this, newTask, now);
    }
  }

  /** `insert_record` applied to each record in turn. */
  function InsertAll(db: Db, records: seq<JsonRecord>): Db
  {
    if |records| == 0 then db
    else InsertActive(InsertAll(db, records[..|records| - 1]), records[|records| - 1].data)
  }

  /** The ids of a batch. */
  function BatchIds(records: seq<JsonRecord>): set<string>
  {
    set k | 0 <= k < |records| :: records[k].data.mmsId
  }

  /** The new entries of `r.active` over `db.active` each come from the first
    * record of `records` with that id. */
  predicate FirstOfBatchWins(db: Db, r: Db, records: seq<JsonRecord>)
  {
    forall id :: id in r.active && id !in db.active ==>
      exists k :: 0 <= k < |records| && r.active[id] == records[k].data &&
        forall j :: 0 <= j < k ==> records[j].data.mmsId != id
  }

  /** `insert_many_records` on a reachable client: every record whose id is
    * new is inserted, the first of the batch winning for a repeated id, and
    * stored records are left as they are; nothing but the active collection
    * changes. */
  lemma InsertAllContract(db: Db, records: seq<JsonRecord>)
    requires !db.error && db.reachable
    ensures var r := InsertAll(db, records);
            r == db.(active := r.active) &&
            r.active.Keys == db.active.Keys + BatchIds(records) &&
            (forall id :: id in db.active ==> r.active[id] == db.active[id]) &&
            FirstOfBatchWins(db, r, records)
  {
    InsertAllKeys(db, records);
    InsertAllFirstWins(db, records);
  }

  /** The part of `InsertAllContract` about what changes and which ids are stored. */
  lemma {:induction false} InsertAllKeys(db: Db, records: seq<JsonRecord>)
    requires !db.error && db.reachable
    ensures var r := InsertAll(db, records);
            r == db.(active := r.active) &&
            r.active.Keys == db.active.Keys + BatchIds(records) &&
            (forall id :: id in db.active ==> r.active[id] == db.active[id])
  {
    if |records| > 0 {
      var init := records[..|records| - 1];
      InsertAllKeys(db, init);
      BatchIdsSnoc(records);
    }
  }

  /** The part of `InsertAllContract` about which record of the batch is stored. */
  lemma {:induction false} InsertAllFirstWins(db: Db, records: seq<JsonRecord>)
    requires !db.error && db.reachable
    ensures FirstOfBatchWins(db, InsertAll(db, records), records)
  {
    if |records| > 0 {
      var init := records[..|records| - 1];
      InsertAllFirstWins(db, init);
      InsertAllKeys(db, init);
      FirstWinsStep(db, InsertAll(db, init), records);
    }
  }

  /** Inserting one more record keeps the first record of each id the winner. */
  lemma FirstWinsStep(db: Db, r0: Db, records: seq<JsonRecord>)
    requires |records| > 0
    requires var init := records[..|records| - 1];
             !r0.error && r0.reachable && FirstOfBatchWins(db, r0, init) &&
             r0.active.Keys == db.active.Keys + BatchIds(init)
    ensures FirstOfBatchWins(db, InsertActive(r0, records[|records| - 1].data), records)
  {
    var init := records[..|records| - 1];
    var last := records[|records| - 1];
    var r := InsertActive(r0, last.data);
    forall id | id in r.active && id !in db.active
      ensures exists k :: 0 <= k < |records| && r.active[id] == records[k].data &&
                forall j :: 0 <= j < k ==> records[j].data.mmsId != id
    {
      if id in r0.active {
        assert r.active[id] == r0.active[id];
        var k :| 0 <= k < |init| && r0.active[id] == init[k].data &&
                 forall j :: 0 <= j < k ==> init[j].data.mmsId != id;
        assert records[k] == init[k];
        assert forall j :: 0 <= j < k ==> records[j] == init[j];
      } else {
        assert id == last.data.mmsId && r.active[id] == last.data;
        NotInBatch(init, id);
        assert forall j :: 0 <= j < |init| ==> records[j] == init[j];
        assert records[|init|] == last;
      }
    }
  }

  /** The ids of a batch grow by the last record's id. */
  lemma BatchIdsSnoc(records: seq<JsonRecord>)
    requires |records| > 0
    ensures BatchIds(records) == BatchIds(records[..|records| - 1]) + {records[|records| - 1].data.mmsId}
  {
    var init := records[..|records| - 1];
    assert forall k :: 0 <= k < |init| ==> init[k] == records[k];
  }

  /** An id outside a batch's ids is the id of none of its records. */
  lemma NotInBatch(records: seq<JsonRecord>, id: string)
    requires id !in BatchIds(records)
    ensures forall j :: 0 <= j < |records| ==> records[j].data.mmsId != id
  {
    forall j | 0 <= j < |records| ensures records[j].data.mmsId != id {
      assert records[j].data.mmsId in BatchIds(records);
    }
  }

  /** `insert_many_records` on an unreachable client: the first insert fails
    * and sets the flag, and nothing is written. */
  lemma {:induction false} InsertAllUnreachable(db: Db, records: seq<JsonRecord>)
    requires !db.reachable && !db.error && |records| > 0
    ensures InsertAll(db, records) == Fail(db, GetRecordFailed)
  {
    if |records| > 1 {
      InsertAllUnreachable(db, records[..|records| - 1]);
    }
  }

  class Task {
    const mongo: Mongo
    var error: bool
    var held: Option<Held>

    function State(): TaskState
      reads this
    {
      TaskState(error, held)
    }

    /** `Task(mongo, new_task)`. */
    constructor (m: Mongo, newTask: bool, now: int)
      modifies m
      ensures mongo == m
      ensures (m.State(), State()) == OpenTask(old(m.State()), newTask, now)
    {
      mongo := m;
      error := false;
      held := None;
      new;
      if newTask {
        Create(now);
      }
      held := GetInProcess();
      error := held.None? || mongo.error;
    }

    /** `_create`. */
    method Create(now: int)
      modifies mongo
      ensures mongo.State() == CreateTask(old(mongo.State()), now)
    {
      var current := GetInProcess();
      if current.Some? {
        mongo.error := true;
        mongo.errorMessages := mongo.errorMessages + [TaskInProcess];
        return;
      }
      if !mongo.reachable {
        mongo.error := true;
        mongo.errorMessages := mongo.errorMessages + [TaskInsertFailed];
        return;
      }
      mongo.tasks := mongo.tasks + [NewTaskDoc(now)];
    }

    /** `_get_in_process`. */
    method GetInProcess() returns (d: Option<Held>)
      modifies mongo
      ensures (mongo.State(), d) == Sync.GetInProcess(old(mongo.State()))
    {
      if !mongo.reachable {
        mongo.error := true;
        mongo.errorMessages := mongo.errorMessages + [TaskGetFailed];
        return None;
      }
      return FirstInProcess(mongo.tasks, 0);
    }

    /** The `data` property; `None` is the empty dict. */
    function Data(): Option<Held>
      reads this
    {
      TaskData(State())
    }

    /** Assignments through the `data` property; `raised` is the `KeyError`
      * of `+=` on the empty dict. */
    method Edit(e: DataEdit) returns (raised: bool)
      modifies this
      ensures (State(), raised) == EditData(old(State()), e)
    {
      var d := Data();
      if d.None? {
        return e.MarkCritical?;
      }
      held := Some(Held(d.value.id, ApplyEdit(d.value.doc, e)));
      return false;
    }

    /** `update`. */
    method Update()
      modifies mongo
      ensures mongo.State() == UpdateTask(old(mongo.State()), State())
    {
      if error {
        return;
      }
      if held.None? || !mongo.reachable {
        mongo.error := true;
        mongo.errorMessages := mongo.errorMessages + [TaskUpdateFailed];
        return;
      }
      var h := held.value;
      if h.id < |mongo.tasks| {
        mongo.tasks := mongo.tasks[h.id := h.doc];
      }
    }

    /** `add_data_error_message`. */
    method AddDataErrorMessage(msg: string)
      modifies mongo
      ensures mongo.State() == Sync.AddDataErrorMessage(old(mongo.State()), State(), msg)
    {
      if error {
        return;
      }
      if held.None? || !mongo.reachable {
        mongo.error := true;
        return;
      }
      var id := held.value.id;
      if id < |mongo.tasks| {
        var doc := mongo.tasks[id];
        mongo.tasks := mongo.tasks[id := doc.(dataErrorMessages := doc.dataErrorMessages + [msg])];
      }
    }

    /** `close`; `raised` is the `TypeError` of `len(None)` or the `KeyError`
      * of the empty dict. */
    method Close(now: int) returns (raised: bool)
      modifies this, mongo
      ensures var c := CloseTask(old(mongo.State()), old(State()), now);
              mongo.State() == c.db && State() == c.task && raised == c.raised
    {
      if error {
        return false;
      }
      var ids := mongo.GetAllMmsIds();
      held := GetInProcess();
      if ids.None? || held.None? {
        return true;
      }
      var h := held.value;
      var doc := h.doc.(nbAtEnd := Some(|ids.value|), endTime := Some(now),
                        duration := Some((now - h.doc.startTime) / Calendar.SecondsPerMinute),
                        inProcess := false);
      held := Some(Held(h.id, doc));
      Update();
      return false;
    }
  }
}
