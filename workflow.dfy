/**
 * `workflow.py`: one run harvests the set into a dated directory, then reads
 * the chunk files back and brings the active and history collections up to
 * date, keeping statistics in the task collection. Each step is a function on
 * the database state of module `Sync`, and each method is proved to move the
 * `Mongo` client to the state its function describes. The module-level
 * `oai_set` and `mongo` objects are parameters; the clock, the directory
 * argument, date formatting and the disk are inputs.
 */
module Workflow {
  import opened Wrappers
  import opened Text
  import opened Calendar
  import opened Marc
  import opened Records
  import opened Sync
  import opened Store
  import Tools
  import Harvester

  /** Buffered new records are inserted once a chunk leaves this many. */
  const BulkSize: nat := 5000

  /** What `update_db` reads from disk: the listing of `harvested_data`, the
    * listing of a directory, the content of a file (`None`: no such file),
    * and the parsers of a page and of a record. */
  datatype Disk = Disk(
    dirs: seq<string>,
    listing: string -> seq<string>,
    files: string -> Option<string>,
    parsePage: string -> Option<Harvester.PageTree>,
    parseRecord: string -> Option<OaiRecord>)

  /** What `main` runs in: the time (seconds) at which the task is opened and
    * the time at which it is closed, the day, the directory argument,
    * `date.isoformat` of a day number, the OAI-PMH server, the number of
    * chunks the harvest may ask for, and the disk as `update_db` finds it. */
  datatype World = World(
    start: int,
    end: int,
    today: Date,
    dirParam: Option<string>,
    isoDate: int -> string,
    server: (nat, seq<Harvester.Param>) -> seq<Harvester.Response>,
    fuel: nat,
    disk: Disk)

  /** Which of the two defects of `workflow.py` a run corrects: the critical
    * branch of the chunk loop, and the check of a failed harvest. The methods
    * below run the program as written; the corrected variant does what the
    * branches' own `logging.critical(... => exiting...)` announce: the task
    * is marked critical and the run stops. */
  datatype Fixes = Fixes(criticalStop: bool, harvestCheck: bool)

  const AsWritten := Fixes(false, false)
  const Corrected := Fixes(true, true)

  // ---------------------------------------------------------------
  // Paths
  // ---------------------------------------------------------------

  /** `s` without its trailing `/`s. */
  function StripSlashes(s: string): (r: string)
    ensures |r| <= |s| && r == s[..|r|]
    ensures |r| > 0 ==> r[|r| - 1] != '/'
  {
    if |s| > 0 && s[|s| - 1] == '/' then StripSlashes(s[..|s| - 1]) else s
  }

  /** `os.path.dirname`: everything up to the last `/`, without trailing
    * `/`s unless it is made of nothing else. */
  function Dirname(p: string): string
  {
    var head := p[..RFind(p, "/") + 1];
    if forall k :: 0 <= k < |head| ==> head[k] == '/' then head else StripSlashes(head)
  }

  /** The chunk paths `update_db` processes: those of the directory argument,
    * or else the newest harvest's; `None` is an exception in the selection. */
  function ChunkPathsFor(dirParam: Option<string>, disk: Disk, today: int): Option<seq<string>>
  {
    if dirParam.Some? then Some(Tools.ChunkListFromDirectory(dirParam.value, disk.listing(dirParam.value)))
    else Tools.NewestChunksList(disk.dirs, disk.listing, today)
  }

  // ---------------------------------------------------------------
  // Task bookkeeping
  // ---------------------------------------------------------------

  /** `mongo.get_in_process_task()`: a `Task` that creates nothing, so the
    * time it is given plays no part. */
  function InProcessTask(db: Db): (Db, TaskState)
  {
    OpenTask(db, false, 0)
  }

  /** `mongo.get_in_process_task().add_data_error_message(m)` for each `m` in turn. */
  function Pushed(db: Db, msgs: seq<string>): Db
    decreases |msgs|
  {
    if |msgs| == 0 then db
    else
      var (db1, t) := InProcessTask(db);
      Pushed(AddDataErrorMessage(db1, t, msgs[0]), msgs[1..])
  }

  /** `task = mongo.get_in_process_task()`, a plain assignment to
    * `task.data`, then `task.update()`. */
  function Edited(db: Db, e: DataEdit): Db
    requires !e.MarkCritical?
  {
    var (db1, t) := InProcessTask(db);
    UpdateTask(db1, EditData(t, e).0)
  }

  // ---------------------------------------------------------------
  // update_db
  // ---------------------------------------------------------------

  /** The state of the chunk loop: the database, `active_mms_ids`,
    * `bulk_new_records`, and whether an exception escaped. */
  datatype Progress = Progress(db: Db, ids: set<string>, bulk: seq<JsonRecord>, raised: bool)

  /** `record.to_json()` of a record whose MMS id was found. */
  function JsonOf(src: XmlSource): Converted
    requires LookupMmsId(src).Found?
  {
    ToJsonSpec(src, LookupMmsId(src).id, [], []).result
  }

  /** One record of a chunk. A record in error has its messages pushed to the
    * task and is skipped. A record without a JSON document raises (`None`
    * has no `error`). Otherwise its data messages are pushed, and a new id is
    * buffered and remembered, while a known one goes to `update_workflow`
    * with `no_insert`. */
  function RecordStep(p: Progress, src: XmlSource): Progress
    requires LookupMmsId(src) != Raises
  {
    var errs := ConstructionErrors(src);
    if |errs| > 0 then p.(db := Pushed(p.db, errs))
    else
      var mmsId := LookupMmsId(src).id;
      var c := JsonOf(src);
      if !c.Json? then p.(raised := true)
      else
        JsonCarriesId(src, mmsId, [], []);
        var rec := c.rec;
        var db1 := if rec.dataError then Pushed(p.db, rec.dataErrorMessages) else p.db;
        if mmsId.value !in p.ids then Progress(db1, p.ids + {mmsId.value}, p.bulk + [rec], false)
        else
          var o := UpdateWorkflow(db1, rec, true);
          Progress(o.db, p.ids, p.bulk, o.raised)
  }

  /** The records of a chunk in order, up to the first exception. */
  function RecordsFold(p: Progress, srcs: seq<XmlSource>): Progress
    requires NoneRaise(srcs)
    decreases |srcs|
  {
    if |srcs| == 0 || p.raised then p
    else RecordsFold(RecordStep(p, srcs[0]), srcs[1..])
  }

  /** One chunk: building it raises when one of its records does; after its
    * records, a buffer holding `BulkSize` or more is inserted and emptied. */
  function ChunkStep(p: Progress, c: Harvester.ChunkState): Progress
  {
    if Harvester.BuildRaises(c) then p.(raised := true)
    else
      var q := RecordsFold(p, c.records);
      if !q.raised && |q.bulk| >= BulkSize then q.(db := InsertAll(q.db, q.bulk), bulk := []) else q
  }

  /** The branch taken when the client is in error at the start of a chunk,
    * as written: the task opened there has errored, so its `data` is the
    * empty dict, and the `+=` on its missing messages key raises. */
  function CriticalStopAsWritten(db: Db): Outcome
  {
    var (db1, t) := InProcessTask(db);
    var (t1, raised) := EditData(t, MarkCritical(db1.errorMessages));
    if raised then Outcome(db1, true) else Outcome(UpdateTask(db1, t1), false)
  }

  /** The branch as intended: the stored document of the task in process is
    * marked critical with the client's messages (written past the client's
    * error flag, which would make the `Task` skip it), and the loop stops. */
  function CriticalStop(db: Db): Db
  {
    var (db1, t) := InProcessTask(db);
    if t.held.None? || !db1.reachable then db1
    else
      var h := t.held.value;
      db1.(tasks := db1.tasks[h.id := ApplyEdit(h.doc, MarkCritical(db1.errorMessages))])
  }

  /** The chunk loop over `paths`, stopping at an exception or, once the
    * client is in error, at the critical branch (as written or corrected). */
  function ChunkLoop(p: Progress, paths: seq<string>, disk: Disk, fix: Fixes): Progress
    decreases |paths|
  {
    if |paths| == 0 || p.raised then p
    else if p.db.error then
      if fix.criticalStop then p.(db := CriticalStop(p.db))
      else
        var o := CriticalStopAsWritten(p.db);
        p.(db := o.db, raised := o.raised)
    else
      var c := Harvester.FileChunk(paths[0], disk.files(paths[0]), disk.parsePage, disk.parseRecord);
      ChunkLoop(ChunkStep(p, c), paths[1..], disk, fix)
  }

  /** Before the loop: the chunk directory (when there are chunks) and the
    * number of chunks are written to the task, the active ids read, and
    * their number written; `None` is the `len(None)` of a client in error. */
  function Prepared(db: Db, paths: seq<string>): (Db, Option<set<string>>)
  {
    var db1 := if |paths| > 0 then Edited(db, SetChunkDirectory(Dirname(paths[0]))) else db;
    var db2 := Edited(db1, SetNbChunks(|paths|));
    var (db3, ids) := Sync.GetAllMmsIds(db2);
    if ids.None? then (db3, None) else (Edited(db3, SetNbAtStart(|ids.value|)), ids)
  }

  /** `update_db`: nothing when the set or the client is in error; else the
    * statistics, the chunk loop, and the insertion of what is still buffered. */
  function UpdateDbOutcome(oaiError: bool, db: Db, paths: Option<seq<string>>, disk: Disk, fix: Fixes): Outcome
  {
    if oaiError || db.error then Outcome(db, false)
    else if paths.None? then Outcome(db, true)
    else
      var (db1, ids) := Prepared(db, paths.value);
      if ids.None? then Outcome(db1, true)
      else
        var p := ChunkLoop(Progress(db1, ids.value, [], false), paths.value, disk, fix);
        if p.raised then Outcome(p.db, true)
        else if |p.bulk| > 0 then Outcome(InsertAll(p.db, p.bulk), false)
        else Outcome(p.db, false)
  }

  // ---------------------------------------------------------------
  // harvest_data_from_alma and main
  // ---------------------------------------------------------------

  /** The check inside the harvest loop, as written: it reads the set's flag
    * after each yielded chunk (`seen`), and on a raised flag marks the task
    * critical, updates and closes it. */
  function HarvestCheckAsWritten(db: Db, seen: seq<bool>, messages: seq<string>, now: int): Outcome
  {
    if forall k :: 0 <= k < |seen| ==> !seen[k] then Outcome(db, false)
    else
      var (db1, t) := InProcessTask(db);
      var (t1, raised) := EditData(t, MarkCritical(messages));
      if raised then Outcome(db1, true)
      else
        var c := CloseTask(UpdateTask(db1, t1), t1, now);
        Outcome(c.db, c.raised)
  }

  /** The check as intended, made once the loop is over: a failed harvest
    * marks the task in process critical with the set's messages. */
  function HarvestRecorded(db: Db, failed: bool, messages: seq<string>): Db
  {
    if !failed then db
    else
      var (db1, t) := InProcessTask(db);
      if TaskData(t).None? then db1
      else UpdateTask(db1, EditData(t, MarkCritical(messages)).0)
  }

  /** The day `main` harvests from: none when a directory is given, the
    * task or the client is in error after the task is opened, or
    * `get_harvesting_from_time` gives `None`. */
  function MainHarvestDay(db: Db, w: World): Option<int>
  {
    var (db1, t) := OpenTask(db, true, w.start);
    if w.dirParam.None? && !t.error && !db1.error then GetHarvestingFromTime(db1, DayNumber(w.today)).1
    else None
  }

  /** The harvest `main` asks the set for: the directory of the day, from the
    * given day up to today, against the run's server and parsers. */
  function MainHarvest(setName: string, w: World, from: int): Harvester.Harvest
    requires ValidDate(w.today)
  {
    Harvester.Harvest(Harvester.HarvestDirectory(setName, w.today),
                      Some(w.isoDate(from)), Some(w.isoDate(DayNumber(w.today))),
                      w.server, w.disk.parsePage, w.disk.parseRecord)
  }

  /** `main`, the set's flag being `oaiBefore` on entry and `oaiAfter`, with
    * `messages`, once the harvest is over, `seen` being the flag as the
    * harvest loop reads it after each yielded chunk, and `harvestRaised`
    * whether building a chunk raised inside the harvest: a new task is
    * opened; without a directory argument and with no error, the harvest
    * runs from the day `get_harvesting_from_time` gives (`None` there raises
    * in `isoformat`); a raise in the harvest ends `main` there, and otherwise
    * the harvest's failure is checked; `update_db` runs unless the task has
    * errored; and the task is closed. */
  function MainOutcome(db: Db, w: World, oaiBefore: bool, oaiAfter: bool, harvestRaised: bool,
                       seen: seq<bool>, messages: seq<string>, fix: Fixes): Outcome
  {
    var (db1, t) := OpenTask(db, true, w.start);
    var harvest := w.dirParam.None? && !t.error && !db1.error;
    var (db2, from) := if harvest then GetHarvestingFromTime(db1, DayNumber(w.today)) else (db1, Some(0));
    if from.None? then Outcome(db2, true)
    else
      var h := if !harvest || oaiBefore || db2.error then Outcome(db2, false)
               else if harvestRaised then Outcome(db2, true)
               else if fix.harvestCheck then Outcome(HarvestRecorded(db2, oaiAfter, messages), false)
               else HarvestCheckAsWritten(db2, seen, messages, w.end);
      if h.raised then h else Finish(h.db, t, w, oaiAfter, fix)
  }

  /** The end of `main`: `update_db` unless the task has errored, then `task.close()`. */
  function Finish(db: Db, t: TaskState, w: World, oaiError: bool, fix: Fixes): Outcome
  {
    var paths := ChunkPathsFor(w.dirParam, w.disk, DayNumber(w.today));
    var u := if !t.error then UpdateDbOutcome(oaiError, db, paths, w.disk, fix) else Outcome(db, false);
    if u.raised then u
    else
      var c := CloseTask(u.db, t, w.end);
      Outcome(c.db, c.raised)
  }

  // ---------------------------------------------------------------
  // The workflow's methods
  // ---------------------------------------------------------------

  /** Each message pushed through a task of its own. */
  method PushMessages(mongo: Mongo, msgs: seq<string>)
    modifies mongo
    ensures mongo.State() == Pushed(old(mongo.State()), msgs)
  {
    for i := 0 to |msgs|
      invariant Pushed(old(mongo.State()), msgs) == Pushed(mongo.State(), msgs[i..])
    {
      assert msgs[i..][1..] == msgs[i + 1..];
      var t := mongo.GetInProcessTask(false, 0);
      t.AddDataErrorMessage(msgs[i]);
    }
  }

  /** An assignment to the data of the task in process, written back. */
  method EditTask(mongo: Mongo, e: DataEdit)
    requires !e.MarkCritical?
    modifies mongo
    ensures mongo.State() == Edited(old(mongo.State()), e)
  {
    var t := mongo.GetInProcessTask(false, 0);
    var _ := t.Edit(e);
    t.Update();
  }

  /** The statistics written before the chunk loop. */
  method PrepareStats(mongo: Mongo, paths: seq<string>) returns (ids: Option<set<string>>)
    modifies mongo
    ensures (mongo.State(), ids) == Prepared(old(mongo.State()), paths)
  {
    if |paths| > 0 {
      EditTask(mongo, SetChunkDirectory(Dirname(paths[0])));
    }
    EditTask(mongo, SetNbChunks(|paths|));
    ids := mongo.GetAllMmsIds();
    if ids.Some? {
      EditTask(mongo, SetNbAtStart(|ids.value|));
    }
  }

  /** The critical branch of the chunk loop: the task in process is marked
    * critical with the client's messages and written back; `raised` is the
    * `KeyError` of the `+=`. */
  method StopOnError(mongo: Mongo) returns (raised: bool)
    modifies mongo
    ensures Outcome(mongo.State(), raised) == CriticalStopAsWritten(old(mongo.State()))
  {
    var t := mongo.GetInProcessTask(false, 0);
    raised := t.Edit(MarkCritical(mongo.errorMessages));
    if !raised {
      t.Update();
    }
  }

  /** One record of a chunk. */
  method ProcessRecord(mongo: Mongo, src: XmlSource, ids: set<string>, bulk: seq<JsonRecord>)
    returns (ids1: set<string>, bulk1: seq<JsonRecord>, raised: bool)
    requires LookupMmsId(src) != Raises
    modifies mongo
    ensures Progress(mongo.State(), ids1, bulk1, raised) == RecordStep(Progress(old(mongo.State()), ids, bulk, false), src)
  {
    ids1, bulk1, raised := ids, bulk, false;
    var record := new XmlRecord(src);
    if record.error {
      PushMessages(mongo, record.errorMessages);
      return;
    }
    var converted := record.ToJson();
    if !converted.Json? {
      return ids, bulk, true;
    }
    var rec := converted.rec;
    if rec.dataError {
      PushMessages(mongo, rec.dataErrorMessages);
    }
    JsonCarriesId(src, record.mmsId, [], []);
    var id := record.mmsId.value;
    if id !in ids {
      return ids + {id}, bulk + [rec], false;
    }
    raised := mongo.UpdateWorkflow(rec, true);
  }

  /** One chunk: its records, then the bulk insertion when the buffer is full. */
  method ProcessChunk(mongo: Mongo, c: Harvester.ChunkState, ids: set<string>, bulk: seq<JsonRecord>)
    returns (ids1: set<string>, bulk1: seq<JsonRecord>, raised: bool)
    modifies mongo
    ensures Progress(mongo.State(), ids1, bulk1, raised) == ChunkStep(Progress(old(mongo.State()), ids, bulk, false), c)
  {
    if Harvester.BuildRaises(c) {
      return ids, bulk, true;
    }
    ids1, bulk1, raised := ids, bulk, false;
    var srcs := c.records;
    ghost var start := Progress(mongo.State(), ids, bulk, false);
    for j := 0 to |srcs|
      invariant NoneRaise(srcs[j..])
      invariant RecordsFold(start, srcs) == RecordsFold(Progress(mongo.State(), ids1, bulk1, false), srcs[j..])
    {
      assert srcs[j..][1..] == srcs[j + 1..];
      ids1, bulk1, raised := ProcessRecord(mongo, srcs[j], ids1, bulk1);
      if raised {
        return;
      }
    }
    if |bulk1| >= BulkSize {
      mongo.InsertManyRecords(bulk1);
      bulk1 := [];
    }
  }

  /** The chunk loop of `update_db`, from the active ids `ids` and an empty
    * buffer; the result's `db` is the state the client is left in. */
  method RunChunks(mongo: Mongo, ps: seq<string>, disk: Disk, ids: set<string>) returns (p: Progress)
    modifies mongo
    ensures p == ChunkLoop(Progress(old(mongo.State()), ids, [], false), ps, disk, AsWritten)
    ensures p.db == mongo.State()
  {
    var known := ids;
    var bulk: seq<JsonRecord> := [];
    ghost var start := Progress(mongo.State(), known, bulk, false);
    var i := 0;
    while i < |ps|
      invariant 0 <= i <= |ps|
      invariant ChunkLoop(start, ps, disk, AsWritten) == ChunkLoop(Progress(mongo.State(), known, bulk, false), ps[i..], disk, AsWritten)
    {
      if mongo.error {
        var stopRaised := StopOnError(mongo);
        return Progress(mongo.State(), known, bulk, stopRaised);
      }
      assert ps[i..][1..] == ps[i + 1..];
      var chunk := new Harvester.Chunk.FromFile(ps[i], disk.files(ps[i]), disk.parsePage, disk.parseRecord);
      var stepRaised;
      known, bulk, stepRaised := ProcessChunk(mongo, chunk.State(), known, bulk);
      if stepRaised {
        return Progress(mongo.State(), known, bulk, true);
      }
      i := i + 1;
    }
    return Progress(mongo.State(), known, bulk, false);
  }

  /** `update_db`; `raised` is an exception that escapes it. */
  method UpdateDb(oaiSet: Harvester.OaiSet, mongo: Mongo, dirParam: Option<string>, today: int, disk: Disk)
    returns (raised: bool)
    modifies mongo
    ensures Outcome(mongo.State(), raised) ==
            UpdateDbOutcome(oaiSet.error, old(mongo.State()), ChunkPathsFor(dirParam, disk, today), disk, AsWritten)
  {
    if oaiSet.error || mongo.error {
      return false;
    }
    var paths := ChunkPathsFor(dirParam, disk, today);
    if paths.None? {
      return true;
    }
    var ps := paths.value;
    var ids := PrepareStats(mongo, ps);
    if ids.None? {
      return true;
    }
    var p := RunChunks(mongo, ps, disk, ids.value);
    if p.raised {
      return true;
    }
    var bulk := p.bulk;
    if |bulk| > 0 {
      mongo.InsertManyRecords(bulk);
    }
    return false;
  }

  /** The check inside the harvest loop, made on the flag `seen` read after
    * each yielded chunk; `raised` is the `KeyError` of the `+=`. */
  method HarvestCheck(mongo: Mongo, seen: seq<bool>, messages: seq<string>, now: int) returns (raised: bool)
    modifies mongo
    ensures Outcome(mongo.State(), raised) == HarvestCheckAsWritten(old(mongo.State()), seen, messages, now)
  {
    for k := 0 to |seen|
      invariant forall j :: 0 <= j < k ==> !seen[j]
    {
      if seen[k] {
        var t := mongo.GetInProcessTask(false, 0);
        raised := t.Edit(MarkCritical(messages));
        if raised {
          return;
        }
        t.Update();
        raised := t.Close(now);
        return;
      }
    }
    return false;
  }

  /** `harvest_data_from_alma`: nothing when the set or the client is in
    * error on entry; else the pages are fetched, `seen` being the set's flag
    * at each yield, and the check inside the loop runs on it. The flag is
    * never raised at a yield, so a failed harvest leaves the client as it
    * was. An exception escapes exactly when building a chunk raised, which
    * ends the harvest with the set's flag untouched. */
  method HarvestDataFromAlma(oaiSet: Harvester.OaiSet, mongo: Mongo, h: Harvester.Harvest, fuel: nat, now: int)
    returns (yielded: seq<Harvester.ChunkState>, seen: seq<bool>, raised: bool)
    modifies oaiSet, mongo
    ensures old(oaiSet.error) || old(mongo.error) ==>
              yielded == [] && seen == [] && !raised && oaiSet.error == old(oaiSet.error) &&
              oaiSet.errorMessages == old(oaiSet.errorMessages) && mongo.State() == old(mongo.State())
    ensures !old(oaiSet.error) && !old(mongo.error) ==>
              |yielded| <= fuel && Harvester.Paged(oaiSet.setName, h, yielded) &&
              |seen| == |yielded| && (forall k :: 0 <= k < |seen| ==> !seen[k]) &&
              oaiSet.error == Harvester.FailedEarly(oaiSet.setName, h, yielded, fuel) &&
              oaiSet.errorMessages == old(oaiSet.errorMessages) + (if oaiSet.error then [Harvester.FetchFailed] else []) &&
              HarvestCheckAsWritten(old(mongo.State()), seen, oaiSet.errorMessages, now) == Outcome(old(mongo.State()), false) &&
              mongo.State() == old(mongo.State()) &&
              raised == Harvester.RaisedEarly(oaiSet.setName, h, yielded, fuel)
  {
    if oaiSet.error || mongo.error {
      return [], [], false;
    }
    // each yielded chunk is saved to disk, which this model leaves out
    ghost var flags;
    var chunkRaised;
    yielded, flags, chunkRaised := oaiSet.GetNextChunk(h, fuel);
    seen := seq(|yielded|, _ => false);
    assert seen == flags;
    var checkRaised := HarvestCheck(mongo, seen, oaiSet.errorMessages, now);
    raised := chunkRaised || checkRaised;
  }

  /** `main`; `raised` is an exception that escapes it, `seen` the set's
    * flag at each chunk the harvest yielded, and `harvestRaised` whether the
    * exception came out of the harvest (`HarvestDataFromAlma`). */
  method MainFlow(oaiSet: Harvester.OaiSet, mongo: Mongo, w: World) returns (raised: bool, seen: seq<bool>, harvestRaised: bool)
    requires ValidDate(w.today) && w.start <= w.end
    modifies oaiSet, mongo
    ensures forall k :: 0 <= k < |seen| ==> !seen[k]
    ensures harvestRaised ==> raised && w.dirParam.None?
    ensures var day := MainHarvestDay(old(mongo.State()), w);
            day.None? || old(oaiSet.error) ==>
              seen == [] && !harvestRaised &&
              oaiSet.error == old(oaiSet.error) && oaiSet.errorMessages == old(oaiSet.errorMessages)
    ensures var day := MainHarvestDay(old(mongo.State()), w);
            day.Some? && !old(oaiSet.error) ==>
              var h := MainHarvest(oaiSet.setName, w, day.value);
              exists yielded :: Harvester.Paged(oaiSet.setName, h, yielded) &&
                |yielded| <= w.fuel && |seen| == |yielded| &&
                harvestRaised == Harvester.RaisedEarly(oaiSet.setName, h, yielded, w.fuel) &&
                oaiSet.error == Harvester.FailedEarly(oaiSet.setName, h, yielded, w.fuel) &&
                oaiSet.errorMessages == old(oaiSet.errorMessages) + (if oaiSet.error then [Harvester.FetchFailed] else [])
    ensures Outcome(mongo.State(), raised) ==
            MainOutcome(old(mongo.State()), w, old(oaiSet.error), oaiSet.error, harvestRaised, seen, oaiSet.errorMessages, AsWritten)
  {
    seen, harvestRaised := [], false;
    var task := mongo.GetInProcessTask(true, w.start);
    if w.dirParam.None? && !task.error && !mongo.error {
      var from := mongo.GetHarvestingFromTime(DayNumber(w.today));
      if from.None? {
        return true, seen, false;
      }
      var h := MainHarvest(oaiSet.setName, w, from.value);
      var yielded, flags, hr := HarvestDataFromAlma(oaiSet, mongo, h, w.fuel, w.end);
      seen, harvestRaised := flags, hr;
      if hr {
        return true, seen, true;
      }
    }
    assert MainOutcome(old(mongo.State()), w, old(oaiSet.error), oaiSet.error, harvestRaised, seen, oaiSet.errorMessages, AsWritten) ==
           Finish(mongo.State(), task.State(), w, oaiSet.error, AsWritten);
    raised := FinishRun(oaiSet, mongo, task, w);
  }

  /** The end of `main`: `update_db` unless the task has errored, then `task.close()`. */
  method FinishRun(oaiSet: Harvester.OaiSet, mongo: Mongo, task: Task, w: World) returns (raised: bool)
    requires task.mongo == mongo
    modifies mongo, task
    ensures Outcome(mongo.State(), raised) == Finish(old(mongo.State()), old(task.State()), w, oaiSet.error, AsWritten)
  {
    if !task.error {
      raised := UpdateDb(oaiSet, mongo, w.dirParam, DayNumber(w.today), w.disk);
      if raised {
        return;
      }
    }
    raised := task.Close(w.end);
  }

  // ---------------------------------------------------------------
  // Properties
  // ---------------------------------------------------------------

  /** Both states hold the same active and history collections. */
  predicate SameCollections(a: Db, b: Db)
  {
    a.active == b.active && a.history == b.history
  }

  /** The directory of a chunk path is the directory it was listed in. */
  lemma DirnameOfPath(d: string, f: string)
    requires |d| > 0 && d[|d| - 1] != '/' && !Contains(f, "/")
    ensures Dirname(d + "/" + f) == d
  {
    var p := d + "/" + f;
    assert OccursAt(p, "/", |d|) by {
      assert p[|d|..|d| + 1] == "/";
    }
    forall j | |d| < j ensures !OccursAt(p, "/", j) {
      if j + 1 <= |p| {
        assert p[j..j + 1] == f[j - |d| - 1..j - |d|];
        assert !OccursAt(f, "/", j - |d| - 1);
      }
    }
    assert RFind(p, "/") == |d|;
    var head := p[..RFind(p, "/") + 1];
    assert head == d + "/";
    assert head[|d| - 1] != '/';
    assert !(forall k :: 0 <= k < |head| ==> head[k] == '/');
    assert StripSlashes(head) == StripSlashes(d);
    assert StripSlashes(d) == d;
  }

  /** Pushing messages touches neither collection nor the task count, and
    * never clears the error flag. With the client in error (and the server
    * answering) nothing changes; otherwise the messages are appended to the
    * data messages of the task in process. */
  lemma {:induction false} PushedContract(db: Db, msgs: seq<string>)
    ensures var r := Pushed(db, msgs);
            SameCollections(r, db) && r.reachable == db.reachable && |r.tasks| == |db.tasks| &&
            (db.error ==> r.error)
    ensures db.error && db.reachable ==> Pushed(db, msgs) == db
    ensures db.reachable && !db.error && FirstInProcess(db.tasks, 0).Some? ==>
              var h := FirstInProcess(db.tasks, 0).value;
              Pushed(db, msgs) == db.(tasks := db.tasks[h.id := h.doc.(dataErrorMessages := h.doc.dataErrorMessages + msgs)])
    decreases |msgs|
  {
    if |msgs| > 0 {
      var (db1, t) := InProcessTask(db);
      var db2 := AddDataErrorMessage(db1, t, msgs[0]);
      PushedContract(db2, msgs[1..]);
      if db.reachable && !db.error && FirstInProcess(db.tasks, 0).Some? {
        var h := FirstInProcess(db.tasks, 0).value;
        var doc1 := h.doc.(dataErrorMessages := h.doc.dataErrorMessages + [msgs[0]]);
        assert db2 == db.(tasks := db.tasks[h.id := doc1]);
        FirstInProcessKept(db.tasks, 0, doc1);
        assert FirstInProcess(db2.tasks, 0) == Some(Held(h.id, doc1));
        assert [msgs[0]] + msgs[1..] == msgs;
        assert doc1.dataErrorMessages + msgs[1..] == h.doc.dataErrorMessages + msgs;
        var doc2 := h.doc.(dataErrorMessages := h.doc.dataErrorMessages + msgs);
        assert doc1.(dataErrorMessages := doc1.dataErrorMessages + msgs[1..]) == doc2;
        assert db2.tasks[h.id := doc2] == db.tasks[h.id := doc2];
      }
    } else if db.reachable && !db.error && FirstInProcess(db.tasks, 0).Some? {
      var h := FirstInProcess(db.tasks, 0).value;
      assert h.doc.dataErrorMessages + msgs == h.doc.dataErrorMessages;
      assert db.tasks[h.id := h.doc] == db.tasks;
    }
  }

  /** A plain assignment to the task in process, written back, on a
    * reachable client out of error. */
  lemma EditedContract(db: Db, e: DataEdit)
    requires !e.MarkCritical? && db.reachable && !db.error && FirstInProcess(db.tasks, 0).Some?
    ensures var h := FirstInProcess(db.tasks, 0).value;
            Edited(db, e) == db.(tasks := db.tasks[h.id := ApplyEdit(h.doc, e)]) &&
            FirstInProcess(Edited(db, e).tasks, 0) == Some(Held(h.id, ApplyEdit(h.doc, e)))
  {
    var h := FirstInProcess(db.tasks, 0).value;
    FirstInProcessKept(db.tasks, 0, ApplyEdit(h.doc, e));
  }

  /** Before the loop, on a reachable client out of error with a task in
    * process: the active ids are read, and that task gets the directory of
    * the first chunk (when there is one), the number of chunks and the number
    * of active ids; nothing else changes. */
  lemma PreparedContract(db: Db, paths: seq<string>)
    requires db.reachable && !db.error && FirstInProcess(db.tasks, 0).Some?
    ensures var (db1, ids) := Prepared(db, paths);
            var h := FirstInProcess(db.tasks, 0).value;
            ids == Some(db.active.Keys) &&
            db1 == db.(tasks := db.tasks[h.id := h.doc.(chunkDirectory := if |paths| > 0 then Some(Dirname(paths[0])) else h.doc.chunkDirectory,
                                                         nbChunks := Some(|paths|), nbAtStart := Some(|db.active.Keys|))])
  {
    var db1 := if |paths| > 0 then Edited(db, SetChunkDirectory(Dirname(paths[0]))) else db;
    if |paths| > 0 {
      EditedContract(db, SetChunkDirectory(Dirname(paths[0])));
    }
    EditedContract(db1, SetNbChunks(|paths|));
    var db2 := Edited(db1, SetNbChunks(|paths|));
    EditedContract(db2, SetNbAtStart(|db.active.Keys|));
  }

  /** `update_db` does nothing when the set or the client is in error on entry. */
  lemma UpdateDbGuard(oaiError: bool, db: Db, paths: Option<seq<string>>, disk: Disk, fix: Fixes)
    requires oaiError || db.error
    ensures UpdateDbOutcome(oaiError, db, paths, disk, fix) == Outcome(db, false)
  {
  }

  /** A record `update_db` buffers as new: it has no error, converts, and its
    * id is not yet known. */
  predicate IsNew(p: Progress, src: XmlSource)
  {
    LookupMmsId(src).Found? && |ConstructionErrors(src)| == 0 && JsonOf(src).Json? &&
    JsonOf(src).rec.data.mmsId !in p.ids
  }

  /** A record with an error only adds task messages. A new id is buffered
    * with its id remembered, whatever the record's `deleted` flag, and the
    * collections are left alone. A record that does not convert raises. A
    * known id goes to `update_workflow` with `no_insert`. */
  lemma RecordStepRoutes(p: Progress, src: XmlSource)
    requires LookupMmsId(src) != Raises
    ensures var q := RecordStep(p, src);
            |ConstructionErrors(src)| > 0 ==>
              q.raised == p.raised && q.ids == p.ids && q.bulk == p.bulk && SameCollections(q.db, p.db)
    ensures |ConstructionErrors(src)| == 0 ==> LookupMmsId(src).Found?
    ensures |ConstructionErrors(src)| == 0 && !JsonOf(src).Json? ==> RecordStep(p, src) == p.(raised := true)
    ensures IsNew(p, src) ==>
              var q := RecordStep(p, src);
              var rec := JsonOf(src).rec;
              !q.raised && q.bulk == p.bulk + [rec] && q.ids == p.ids + {rec.data.mmsId} && SameCollections(q.db, p.db)
    ensures |ConstructionErrors(src)| == 0 && JsonOf(src).Json? && !IsNew(p, src) ==>
              var q := RecordStep(p, src);
              var rec := JsonOf(src).rec;
              var db1 := if rec.dataError then Pushed(p.db, rec.dataErrorMessages) else p.db;
              q.bulk == p.bulk && q.ids == p.ids && Outcome(q.db, q.raised) == UpdateWorkflow(db1, rec, true)
  {
    var errs := ConstructionErrors(src);
    if |errs| > 0 {
      PushedContract(p.db, errs);
      assert RecordStep(p, src) == p.(db := Pushed(p.db, errs));
    } else if JsonOf(src).Json? {
      var rec := JsonOf(src).rec;
      JsonCarriesId(src, LookupMmsId(src).id, [], []);
      if rec.dataError {
        PushedContract(p.db, rec.dataErrorMessages);
      }
    }
  }

  /** An id buffered but not yet inserted, seen again in a record that is
    * not deleted and has no data error, reaches `update_workflow` with no
    * active record and raises. */
  lemma RepeatedNewIdRaises(p: Progress, src: XmlSource)
    requires LookupMmsId(src).Found? && |ConstructionErrors(src)| == 0 && JsonOf(src).Json?
    requires var rec := JsonOf(src).rec;
             rec.data.mmsId in p.ids && rec.data.mmsId !in p.db.active && !rec.deleted && !rec.dataError
    requires p.db.reachable && !p.db.error
    ensures RecordStep(p, src).raised
  {
    JsonCarriesId(src, LookupMmsId(src).id, [], []);
  }

  /** Every buffered record's id is remembered, and no id is buffered twice. */
  predicate Buffered(p: Progress)
  {
    (forall k :: 0 <= k < |p.bulk| ==> p.bulk[k].data.mmsId in p.ids) &&
    (forall j, k :: 0 <= j < k < |p.bulk| ==> p.bulk[j].data.mmsId != p.bulk[k].data.mmsId)
  }

  lemma RecordStepBuffered(p: Progress, src: XmlSource)
    requires LookupMmsId(src) != Raises && Buffered(p)
    ensures Buffered(RecordStep(p, src)) && p.ids <= RecordStep(p, src).ids
    ensures RecordStep(p, src).bulk == p.bulk || IsNew(p, src)
    ensures IsNew(p, src) ==> RecordStep(p, src).bulk == p.bulk + [JsonOf(src).rec]
  {
    RecordStepRoutes(p, src);
  }

  lemma {:induction false} RecordsFoldBuffered(p: Progress, srcs: seq<XmlSource>)
    requires NoneRaise(srcs) && Buffered(p)
    ensures Buffered(RecordsFold(p, srcs)) && p.ids <= RecordsFold(p, srcs).ids
    decreases |srcs|
  {
    if |srcs| > 0 && !p.raised {
      RecordStepBuffered(p, srcs[0]);
      RecordsFoldBuffered(RecordStep(p, srcs[0]), srcs[1..]);
    }
  }

  /** The chunk loop keeps the buffer invariant, only adds ids, and unless an
    * exception escapes it leaves fewer than `BulkSize` records for the final
    * insertion. */
  lemma {:induction false} ChunkLoopBuffered(p: Progress, paths: seq<string>, disk: Disk, fix: Fixes)
    requires Buffered(p) && |p.bulk| < BulkSize
    ensures var q := ChunkLoop(p, paths, disk, fix);
            Buffered(q) && p.ids <= q.ids && (!q.raised ==> |q.bulk| < BulkSize)
    decreases |paths|
  {
    if |paths| > 0 && !p.raised && !p.db.error {
      var c := Harvester.FileChunk(paths[0], disk.files(paths[0]), disk.parsePage, disk.parseRecord);
      var q := ChunkStep(p, c);
      if NoneRaise(c.records) {
        RecordsFoldBuffered(p, c.records);
      }
      if !q.raised {
        ChunkLoopBuffered(q, paths[1..], disk, fix);
      }
    }
  }

  /** As written, the critical branch always raises once the client is in
    * error, before anything is written to the task collection. */
  lemma CriticalStopAlwaysRaises(db: Db)
    requires db.error
    ensures CriticalStopAsWritten(db).raised && CriticalStopAsWritten(db).db.tasks == db.tasks
  {
  }

  /** The corrected branch leaves the collections alone; with the server
    * answering, the task in process (if any) is marked critical with the
    * client's messages and nothing else changes. */
  lemma CriticalStopContract(db: Db)
    ensures SameCollections(CriticalStop(db), db) && |CriticalStop(db).tasks| == |db.tasks|
    ensures db.reachable && FirstInProcess(db.tasks, 0).None? ==> CriticalStop(db) == db
    ensures db.reachable && FirstInProcess(db.tasks, 0).Some? ==>
              var h := FirstInProcess(db.tasks, 0).value;
              CriticalStop(db) == db.(tasks := db.tasks[h.id := h.doc.(criticalError := true,
                                        criticalErrorMessages := h.doc.criticalErrorMessages + db.errorMessages)])
  {
  }

  /** As written, once the client is in error at the start of a chunk the
    * loop raises out of `update_db`, with no task written and the buffer
    * never inserted; `main` then skips `task.close()`, so its task stays in
    * process. */
  lemma ChunkLoopRaisesOnError(p: Progress, paths: seq<string>, disk: Disk)
    requires p.db.error && !p.raised && |paths| > 0
    ensures var q := ChunkLoop(p, paths, disk, AsWritten);
            q.raised && q.db.tasks == p.db.tasks && SameCollections(q.db, p.db) && q.bulk == p.bulk
  {
    CriticalStopAlwaysRaises(p.db);
  }

  /** An exception out of `update_db` ends `main` before `task.close()`:
    * the task opened by the run is left as `update_db` left it. */
  lemma RaisedUpdateSkipsClose(db: Db, t: TaskState, w: World, oaiError: bool, fix: Fixes)
    requires !t.error
    requires UpdateDbOutcome(oaiError, db, ChunkPathsFor(w.dirParam, w.disk, DayNumber(w.today)), w.disk, fix).raised
    ensures Finish(db, t, w, oaiError, fix) == UpdateDbOutcome(oaiError, db, ChunkPathsFor(w.dirParam, w.disk, DayNumber(w.today)), w.disk, fix)
  {
  }

  /** An exception out of the harvest (a chunk whose records raise) ends
    * `main` before `update_db` and `task.close()`: on a reachable client with
    * no task in process, the run's new task is left in process and the
    * collections untouched, so every later run is refused
    * (`MainRefusedWhileInProcess`). */
  lemma HarvestRaiseLeavesTaskOpen(db: Db, w: World, oaiAfter: bool, seen: seq<bool>, messages: seq<string>, fix: Fixes)
    requires db.reachable && !db.error && FirstInProcess(db.tasks, 0).None? && w.dirParam.None?
    ensures var o := MainOutcome(db, w, false, oaiAfter, true, seen, messages, fix);
            o.raised && SameCollections(o.db, db) && o.db.tasks == db.tasks + [NewTaskDoc(w.start)] &&
            o.db.reachable && !o.db.error &&
            FirstInProcess(o.db.tasks, 0) == Some(Held(|db.tasks|, NewTaskDoc(w.start)))
  {
    OpenedTask(db, w.start);
    var (db1, t) := OpenTask(db, true, w.start);
    assert GetHarvestingFromTime(db1, DayNumber(w.today)).0 == db1;
  }

  /** Corrected, once the client is in error at the start of a chunk the loop
    * stops there without raising, keeping the buffer for the final insertion. */
  lemma ChunkLoopStopsOnError(p: Progress, paths: seq<string>, disk: Disk)
    requires p.db.error && !p.raised && |paths| > 0
    ensures ChunkLoop(p, paths, disk, Corrected) == Progress(CriticalStop(p.db), p.ids, p.bulk, false)
  {
  }

  /** With a task already in process, `main` is refused when it opens its
    * own: the client records the refusal, nothing is harvested or imported,
    * no task is written and nothing raises. */
  lemma MainRefusedWhileInProcess(db: Db, w: World, oaiBefore: bool, oaiAfter: bool, harvestRaised: bool,
                                  seen: seq<bool>, messages: seq<string>, fix: Fixes)
    requires db.reachable && !db.error && FirstInProcess(db.tasks, 0).Some?
    ensures MainOutcome(db, w, oaiBefore, oaiAfter, harvestRaised, seen, messages, fix) == Outcome(Fail(db, TaskInProcess), false)
  {
  }

  /** The new task `main` opens on a reachable client with no task in
    * process: appended last, and the only one in process. */
  lemma OpenedTask(db: Db, now: int)
    requires db.reachable && !db.error && FirstInProcess(db.tasks, 0).None?
    ensures var n := |db.tasks|;
            OpenTask(db, true, now) == (db.(tasks := db.tasks + [NewTaskDoc(now)]), TaskState(false, Some(Held(n, NewTaskDoc(now)))))
  {
    var tasks := db.tasks + [NewTaskDoc(now)];
    OnlyInProcess(tasks, 0, |db.tasks|);
  }

  /** Closing the only task in process, `n`, on a reachable client out of
    * error: it is stamped finished at `now` with the count of active ids. */
  lemma ClosedTask(db: Db, t: TaskState, n: nat, now: int)
    requires db.reachable && !db.error && !t.error && n < |db.tasks| && db.tasks[n].inProcess
    requires forall k :: 0 <= k < |db.tasks| && k != n ==> !db.tasks[k].inProcess
    ensures var c := CloseTask(db, t, now);
            var doc := db.tasks[n];
            !c.raised && c.db == db.(tasks := db.tasks[n := doc.(nbAtEnd := Some(|db.active.Keys|), endTime := Some(now),
                                         duration := Some((now - doc.startTime) / SecondsPerMinute), inProcess := false)])
  {
    OnlyInProcess(db.tasks, 0, n);
  }

  /** As written, a harvest that fails without yielding a chunk goes
    * unnoticed: `main` raises nothing, leaves the collections alone and
    * closes its task as finished, so the next run harvests from this run's
    * start onwards. */
  lemma FailedHarvestFinishes(db: Db, w: World, seen: seq<bool>, messages: seq<string>)
    requires db.reachable && !db.error && FirstInProcess(db.tasks, 0).None? && w.dirParam.None? && w.start <= w.end
    requires forall k :: 0 <= k < |seen| ==> !seen[k]
    ensures var o := MainOutcome(db, w, false, true, false, seen, messages, AsWritten);
            var n := |db.tasks|;
            !o.raised && SameCollections(o.db, db) && |o.db.tasks| == n + 1 && o.db.tasks[..n] == db.tasks &&
            Finished(o.db.tasks[n]) && o.db.tasks[n].duration == Some((w.end - w.start) / SecondsPerMinute) &&
            LatestFinishedStart(o.db.tasks).Some? && LatestFinishedStart(o.db.tasks).value >= w.start
  {
    var n := |db.tasks|;
    OpenedTask(db, w.start);
    var (db1, t) := OpenTask(db, true, w.start);
    assert GetHarvestingFromTime(db1, DayNumber(w.today)).0 == db1;
    assert HarvestCheckAsWritten(db1, seen, messages, w.end) == Outcome(db1, false);
    UpdateDbGuard(true, db1, ChunkPathsFor(w.dirParam, w.disk, DayNumber(w.today)), w.disk, AsWritten);
    ClosedTask(db1, t, n, w.end);
    var c := CloseTask(db1, t, w.end);
    assert MainOutcome(db, w, false, true, false, seen, messages, AsWritten) == Outcome(c.db, false) by {
      assert Finish(db1, t, w, true, AsWritten) == Outcome(c.db, false);
    }
    assert c.db.tasks[n].startTime == w.start;
  }

  /** With the check made after the loop, the same failed harvest is
    * recorded: nothing raises, the collections are left alone, the new task
    * is closed but marked critical with the set's messages, and the next run
    * harvests from the same day as this one did. */
  lemma FailedHarvestRecorded(db: Db, w: World, seen: seq<bool>, messages: seq<string>)
    requires db.reachable && !db.error && FirstInProcess(db.tasks, 0).None? && w.dirParam.None?
    ensures var o := MainOutcome(db, w, false, true, false, seen, messages, Corrected);
            var n := |db.tasks|;
            !o.raised && SameCollections(o.db, db) && |o.db.tasks| == n + 1 && o.db.tasks[..n] == db.tasks &&
            o.db.tasks[n].criticalError && o.db.tasks[n].criticalErrorMessages == messages && !o.db.tasks[n].inProcess &&
            LatestFinishedStart(o.db.tasks) == LatestFinishedStart(db.tasks)
  {
    var n := |db.tasks|;
    OpenedTask(db, w.start);
    var (db1, t) := OpenTask(db, true, w.start);
    var doc := ApplyEdit(NewTaskDoc(w.start), MarkCritical(messages));
    var db3 := db1.(tasks := db1.tasks[n := doc]);
    assert HarvestRecorded(db1, true, messages) == db3;
    ClosedTask(db3, t, n, w.end);
    var o := MainOutcome(db, w, false, true, false, seen, messages, Corrected);
    assert o.db.tasks[..n] == db.tasks;
    assert !Finished(o.db.tasks[n]);
  }
}
