/** BigQuery jobs: `info_job`, `done_job` and the `wait_job` poll, the loader's
    data-shape dispatch and configuration, `extract`, and the query reads
    (`get_query_results`, `select`) with their row flattening. Time is the
    logical clock of the remote oracle: a poll happens at a clock value and
    `time.sleep(2)` adds two seconds to it. */
module BigQueryJobs {
  import opened Wrappers
  import opened Values
  import opened Text
  import opened Errors
  import opened Dispatcher
  import opened Paging
  import opened FileFormats
  import opened BigQuery

  /** A job method's answer: the job id when the caller asked for `async`,
      otherwise what it waited for. */
  datatype Completion = Async(jobId: Value) | Finished(result: Value)

  /** The DONE job resource and the clock value of the poll that saw it. */
  datatype Waited = Waited(job: Value, at: nat)

  function InfoJobArgs(c: Client, jobId: Value, o: Bag): Bag {
    map["projectId" := ProjectOption(c, o), "jobId" := jobId]
  }

  function InfoJob(c: Client, now: nat, jobId: Value, o: Bag): Result<Value, Error> {
    Request(c, now, Name("jobs"), "get", InfoJobArgs(c, jobId, o))
  }

  /** `res['status']['state']`. */
  function JobState(job: Value): Result<Value, Error> {
    Index2(job, "status", "state")
  }

  function DoneJob(c: Client, now: nat, jobId: Value, o: Bag): Result<bool, Error> {
    var job :- InfoJob(c, now, jobId, o);
    var state :- JobState(job);
    Success(state == Str("DONE"))
  }

  /** `done_job` is true exactly when the job's `status.state` is DONE, and
      raises whatever reading the job or its state raises. */
  lemma DoneJobIsStateDone(c: Client, now: nat, jobId: Value, o: Bag)
    ensures DoneJob(c, now, jobId, o) == Success(true) <==>
              InfoJob(c, now, jobId, o).Success? && JobState(InfoJob(c, now, jobId, o).value) == Success(Str("DONE"))
    ensures DoneJob(c, now, jobId, o).Failure? <==>
              InfoJob(c, now, jobId, o).Failure? || JobState(InfoJob(c, now, jobId, o).value).Failure?
  {
  }

  // ----- wait_job -----

  /** `signal.alarm(timeout)` accepts integers (booleans among them). */
  function AlarmSeconds(timeout: Value): Result<int, Error> {
    match timeout
    case Int(t) => Success(t)
    case Bool(b) => Success(if b then 1 else 0)
    case _ => Failure(TypeError)
  }

  /** `str(timeout)` of an accepted timeout. */
  function SecondsText(timeout: Value): string {
    match timeout
    case Int(t) => IntToString(t)
    case Bool(b) => if b then "True" else "False"
    case _ => ""
  }

  /** The polls a positive alarm lets through: those at offsets 0, 2, 4, ...
      strictly before the alarm. */
  function PollsWithin(t: int): (r: nat)
    requires t > 0
    ensures 2 * (r - 1) < t <= 2 * r
  {
    (t + 1) / 2
  }

  /** What `info_job` reads for the job at each clock value. */
  function JobProbe(c: Client, jobId: Value): nat -> Result<Value, Error> {
    (at: nat) => InfoJob(c, at, jobId, map[])
  }

  /** Up to `polls` reads of `probe`, two seconds apart from `now`: the first
      DONE job, None when no read sees DONE, or the first error. */
  function Poll(probe: nat -> Result<Value, Error>, now: nat, polls: nat): Result<Option<Waited>, Error>
    decreases polls
  {
    if polls == 0 then Success(None)
    else
      var job :- probe(now);
      var state :- JobState(job);
      if state == Str("DONE") then Success(Some(Waited(job, now)))
      else Poll(probe, now + 2, polls - 1)
  }

  /** `wait_job`: a positive alarm ends the polling with JobWaitTimeoutError
      once its seconds have passed; `alarm(0)` (or a negative value, which
      the signal module turns into a very large one) sets no alarm, so the
      polling is bounded by `fuel` instead. */
  function WaitJob(c: Client, now: nat, jobId: Value, timeout: Value, fuel: nat): Result<Waited, Error> {
    var t :- AlarmSeconds(timeout);
    var found :- Poll(JobProbe(c, jobId), now, if t > 0 then PollsWithin(t) else fuel);
    if found.Some? then Success(found.value)
    else if t > 0 then Failure(JobWaitTimeoutError("timeout: " + SecondsText(timeout) + "sec"))
    else Failure(OutOfFuel)
  }

  /** The `while True` loop of `wait_job`: read the job, stop at DONE, else
      sleep two seconds, for at most `polls` reads. */
  method PollLoop(probe: nat -> Result<Value, Error>, now: nat, polls: nat) returns (r: Result<Option<Waited>, Error>)
    ensures r == Poll(probe, now, polls)
  {
    var at: nat := now;
    var left: nat := polls;
    while left > 0
      invariant left <= polls && at == now + 2 * (polls - left)
      invariant Poll(probe, now, polls) == Poll(probe, at, left)
      decreases left
    {
      var job := probe(at);
      if job.Failure? {
        return Failure(job.error);
      }
      var state := JobState(job.value);
      if state.Failure? {
        return Failure(state.error);
      }
      if state.value == Str("DONE") {
        return Success(Some(Waited(job.value, at)));
      }
      at := at + 2;
      left := left - 1;
    }
    r := Success(None);
  }

  /** `wait_job`: the alarm decides how many polls the loop gets. */
  method WaitJobLoop(c: Client, now: nat, jobId: Value, timeout: Value, fuel: nat) returns (r: Result<Waited, Error>)
    ensures r == WaitJob(c, now, jobId, timeout, fuel)
  {
    var seconds := AlarmSeconds(timeout);
    if seconds.Failure? {
      return Failure(seconds.error);
    }
    var t := seconds.value;
    var found := PollLoop(JobProbe(c, jobId), now, if t > 0 then PollsWithin(t) else fuel);
    if found.Failure? {
      return Failure(found.error);
    }
    if found.value.Some? {
      r := Success(found.value.value);
    } else if t > 0 {
      r := Failure(JobWaitTimeoutError("timeout: " + SecondsText(timeout) + "sec"));
    } else {
      r := Failure(OutOfFuel);
    }
  }

  /** The `k`-th read, at `now + 2k`, sees a job that is DONE. */
  ghost predicate DoneAtPoll(probe: nat -> Result<Value, Error>, now: nat, k: nat) {
    var job := probe(now + 2 * k);
    job.Success? && JobState(job.value) == Success(Str("DONE"))
  }

  /** The `k`-th read sees a job in some other state. */
  ghost predicate PendingAtPoll(probe: nat -> Result<Value, Error>, now: nat, k: nat) {
    var job := probe(now + 2 * k);
    job.Success? && JobState(job.value).Success? && JobState(job.value).value != Str("DONE")
  }

  /** Polling from two seconds later sees the reads after the first one. */
  lemma PollShift(probe: nat -> Result<Value, Error>, now: nat, j: nat)
    ensures PendingAtPoll(probe, now + 2, j) == PendingAtPoll(probe, now, j + 1)
    ensures DoneAtPoll(probe, now + 2, j) == DoneAtPoll(probe, now, j + 1)
  {
    assert now + 2 + 2 * j == now + 2 * (j + 1);
  }

  /** Polling returns the job of the first read that sees DONE, every read
      before it having seen another state. */
  lemma {:induction false} PollFindsFirstDone(probe: nat -> Result<Value, Error>, now: nat, polls: nat)
    ensures Poll(probe, now, polls).Success? && Poll(probe, now, polls).value.Some? ==>
              exists k :: 0 <= k < polls && DoneAtPoll(probe, now, k)
                && Poll(probe, now, polls).value.value == Waited(probe(now + 2 * k).value, now + 2 * k)
                && forall j :: 0 <= j < k ==> PendingAtPoll(probe, now, j)
    decreases polls
  {
    var r := Poll(probe, now, polls);
    if polls > 0 && r.Success? && r.value.Some? {
      var next := now + 2;
      assert now + 2 * 0 == now;
      if JobState(probe(now).value).value == Str("DONE") {
        assert DoneAtPoll(probe, now, 0);
      } else {
        assert PendingAtPoll(probe, now, 0);
        assert r == Poll(probe, next, polls - 1);
        PollFindsFirstDone(probe, next, polls - 1);
        var k :| 0 <= k < polls - 1 && DoneAtPoll(probe, next, k)
                 && r.value.value == Waited(probe(next + 2 * k).value, next + 2 * k)
                 && forall j :: 0 <= j < k ==> PendingAtPoll(probe, next, j);
        assert next + 2 * k == now + 2 * (k + 1);
        PollShift(probe, now, k);
        forall j | 0 <= j < k + 1 ensures PendingAtPoll(probe, now, j) {
          if j > 0 {
            PollShift(probe, now, j - 1);
          }
        }
      }
    }
  }

  /** Polling finds nothing when every read sees a state other than DONE. */
  lemma {:induction false} PollFindsNothingPending(probe: nat -> Result<Value, Error>, now: nat, polls: nat)
    requires forall k :: 0 <= k < polls ==> PendingAtPoll(probe, now, k)
    ensures Poll(probe, now, polls) == Success(None)
    decreases polls
  {
    if polls > 0 {
      var next := now + 2;
      assert PendingAtPoll(probe, now, 0);
      assert now + 2 * 0 == now;
      forall k | 0 <= k < polls - 1 ensures PendingAtPoll(probe, next, k) {
        PollShift(probe, now, k);
      }
      PollFindsNothingPending(probe, next, polls - 1);
    }
  }

  /** Conversely, a read within the budget that sees DONE, every read before
      it having seen another state, is the one polling returns. */
  lemma {:induction false} PollReturnsFirstDone(probe: nat -> Result<Value, Error>, now: nat, polls: nat, k: nat)
    requires k < polls && DoneAtPoll(probe, now, k)
    requires forall j :: 0 <= j < k ==> PendingAtPoll(probe, now, j)
    ensures Poll(probe, now, polls) == Success(Some(Waited(probe(now + 2 * k).value, now + 2 * k)))
    decreases polls
  {
    assert now + 2 * 0 == now;
    if k > 0 {
      assert PendingAtPoll(probe, now, 0);
      var next := now + 2;
      PollShift(probe, now, k - 1);
      forall j | 0 <= j < k - 1 ensures PendingAtPoll(probe, next, j) {
        PollShift(probe, now, j);
      }
      PollReturnsFirstDone(probe, next, polls - 1, k - 1);
      assert next + 2 * (k - 1) == now + 2 * k;
    }
  }

  /** `wait_job` with a positive timeout returns the first polled job that is
      DONE, polled strictly before the timeout, every earlier poll having
      seen another state. */
  lemma WaitJobReturnsFirstDone(c: Client, now: nat, jobId: Value, t: int, fuel: nat)
    requires t > 0 && WaitJob(c, now, jobId, Int(t), fuel).Success?
    ensures var w := WaitJob(c, now, jobId, Int(t), fuel).value;
            exists k :: 0 <= k && 2 * k < t && w.at == now + 2 * k && DoneAtPoll(JobProbe(c, jobId), now, k)
              && w.job == InfoJob(c, w.at, jobId, map[]).value
              && forall j :: 0 <= j < k ==> PendingAtPoll(JobProbe(c, jobId), now, j)
  {
    PollFindsFirstDone(JobProbe(c, jobId), now, PollsWithin(t));
  }

  /** Conversely, when the `k`-th poll, taken before the timeout, sees DONE
      and every earlier poll another state, `wait_job` returns that job. */
  lemma WaitJobFindsFirstDone(c: Client, now: nat, jobId: Value, t: int, fuel: nat, k: nat)
    requires t > 0 && 2 * k < t && DoneAtPoll(JobProbe(c, jobId), now, k)
    requires forall j :: 0 <= j < k ==> PendingAtPoll(JobProbe(c, jobId), now, j)
    ensures WaitJob(c, now, jobId, Int(t), fuel) == Success(Waited(InfoJob(c, now + 2 * k, jobId, map[]).value, now + 2 * k))
  {
    PollReturnsFirstDone(JobProbe(c, jobId), now, PollsWithin(t), k);
  }

  /** ... and raises JobWaitTimeoutError naming the timeout when no poll
      before it sees DONE. */
  lemma WaitJobTimesOut(c: Client, now: nat, jobId: Value, t: int, fuel: nat)
    requires t > 0 && forall k :: 0 <= k && 2 * k < t ==> PendingAtPoll(JobProbe(c, jobId), now, k)
    ensures WaitJob(c, now, jobId, Int(t), fuel) == Failure(JobWaitTimeoutError("timeout: " + IntToString(t) + "sec"))
  {
    PollFindsNothingPending(JobProbe(c, jobId), now, PollsWithin(t));
  }

  /** The default timeout lets 300 polls through, at offsets 0 to 598. */
  lemma DefaultTimeoutPolls()
    ensures PollsWithin(JobWaitTimeout) == 300
  {
  }

  // ----- load -----

  /** What `load` sends: the upload (`media_body`), the source URIs, and the
      detected format and delimiter, each Null where the source leaves None. */
  datatype Source = Source(media: Value, sourceUris: Value, sourceFormat: Value, fieldDelimiter: Value)

  function OptionValue(o: Option<string>): Value {
    match o
    case None => Null
    case Some(s) => Str(s)
  }

  function Detected(media: Value, uris: Value, name: string): Source {
    var f := Detect(name);
    Source(media, uris, OptionValue(f.sourceFormat), OptionValue(f.fieldDelimiter))
  }

  /** The strings `'\n'.join` accepts: every item a `str`. */
  function AllStrings(items: seq<Value>): (r: Result<seq<string>, Error>)
    ensures r.Success? <==> forall i :: 0 <= i < |items| ==> items[i].Str?
    ensures r.Success? ==> |r.value| == |items| && forall i :: 0 <= i < |items| ==> items[i] == Str(r.value[i])
    ensures r.Failure? ==> r.error == TypeError
  {
    if |items| == 0 then Success([])
    else if !items[0].Str? then Failure(TypeError)
    else
      match AllStrings(items[1..])
      case Failure(e) => Failure(e)
      case Success(rest) => Success([items[0].s] + rest)
  }

  /** The data-shape dispatch of `load`; `pathExists` stands for
      `os.path.exists`. */
  function LoadSource(data: Value, pathExists: string -> bool): Result<Source, Error> {
    match data
    case List(items) =>
      if |items| == 0 then Failure(IndexError)
      else (match items[0]
        case Dict(_) => Success(Source(Media(NdjsonUpload(items)), Null, Str("NEWLINE_DELIMITED_JSON"), Null))
        case Str(first) =>
          if StartsWith(first, "gs://") then Success(Detected(Null, data, first))
          else
            var lines :- AllStrings(items);
            Success(Source(Media(MemoryUpload(Join(lines, "\n"))), Null, Str("CSV"), Null))
        case _ => Failure(LoadError("Unknown data type")))
    case Str(s) =>
      if StartsWith(s, "gs://") then Success(Detected(Null, List([data]), s))
      else if pathExists(s) then Success(Detected(Media(FileUpload(s)), Null, s))
      else Success(Source(Media(MemoryUpload(s)), Null, Null, Null))
    case _ => Failure(LoadError("Invalid data type"))
  }

  /** The eight shapes `load` tells apart, and what each sends. */
  lemma LoadShapes(data: Value, pathExists: string -> bool)
    ensures var r := LoadSource(data, pathExists);
            r.Success? ==> (r.value.media == Null) != (r.value.sourceUris == Null)
    ensures var r := LoadSource(data, pathExists);
            r.Success? && r.value.sourceUris != Null ==>
              && r.value.sourceUris == (if data.List? then data else List([data]))
              && r.value.sourceUris.items[0].Str? && StartsWith(r.value.sourceUris.items[0].s, "gs://")
              && r.value.sourceFormat == OptionValue(Detect(r.value.sourceUris.items[0].s).sourceFormat)
              && r.value.fieldDelimiter == OptionValue(Detect(r.value.sourceUris.items[0].s).fieldDelimiter)
    ensures data.List? && |data.items| > 0 && data.items[0].Dict? ==>
              LoadSource(data, pathExists) == Success(Source(Media(NdjsonUpload(data.items)), Null, Str("NEWLINE_DELIMITED_JSON"), Null))
    ensures data.List? && |data.items| > 0 && data.items[0].Str? && !StartsWith(data.items[0].s, "gs://") ==>
              (LoadSource(data, pathExists).Success? <==> forall i :: 0 <= i < |data.items| ==> data.items[i].Str?)
    ensures data.List? && |data.items| > 0 && data.items[0].Str? && !StartsWith(data.items[0].s, "gs://") &&
            LoadSource(data, pathExists).Success? ==>
              LoadSource(data, pathExists).value.sourceFormat == Str("CSV") &&
              LoadSource(data, pathExists).value.media.upload.MemoryUpload?
    ensures data.Str? && !StartsWith(data.s, "gs://") && pathExists(data.s) ==>
              LoadSource(data, pathExists) == Success(Detected(Media(FileUpload(data.s)), Null, data.s))
    ensures data.Str? && !StartsWith(data.s, "gs://") && !pathExists(data.s) ==>
              LoadSource(data, pathExists) == Success(Source(Media(MemoryUpload(data.s)), Null, Null, Null))
    ensures LoadSource(data, pathExists) == Failure(IndexError) <==> data == List([])
    ensures (LoadSource(data, pathExists).Failure? && LoadSource(data, pathExists).error.LoadError?) <==>
              !(data.List? || data.Str?) || (data.List? && |data.items| > 0 && !(data.items[0].Dict? || data.items[0].Str?))
  {
  }

  /** The `load` configuration: the caller's options override every default
      and every detected value. */
  function LoadConfiguration(c: Client, tableId: string, src: Source, o: Bag): Bag {
    var conf := map[
      "allowJaggedRows" := Get(o, "allow_jagged_rows", Null),
      "allowQuotedNewlines" := Get(o, "allow_quoted_newlines", Null),
      "createDisposition" := Get(o, "create_disposition", Str("CREATE_IF_NEEDED")),
      "destinationTable" := TableReference(c, tableId, o),
      "encoding" := Get(o, "encoding", Str("UTF-8")),
      "fieldDelimiter" := Get(o, "field_delimiter", src.fieldDelimiter),
      "ignoreUnknownValues" := Get(o, "ignore_unknown_values", Bool(false)),
      "maxBadRecords" := Get(o, "max_bad_records", Null),
      "projectionFields" := Get(o, "projection_fields", Null),
      "quote" := Get(o, "quote", Null),
      "skipLeadingRows" := Get(o, "skip_leading_rows", Null),
      "sourceFormat" := Get(o, "source_format", src.sourceFormat),
      "sourceUris" := Get(o, "source_uris", src.sourceUris),
      "writeDisposition" := Get(o, "write_disposition", Str("WRITE_APPEND"))];
    if "schema" in o then conf["schema" := Dict(map["fields" := o["schema"]])] else conf
  }

  /** Caller options win over what was detected. */
  lemma LoadOptionsOverride(c: Client, tableId: string, src: Source, o: Bag)
    ensures var conf := LoadConfiguration(c, tableId, src, o);
            && conf["sourceFormat"] == (if "source_format" in o then o["source_format"] else src.sourceFormat)
            && conf["fieldDelimiter"] == (if "field_delimiter" in o then o["field_delimiter"] else src.fieldDelimiter)
            && conf["sourceUris"] == (if "source_uris" in o then o["source_uris"] else src.sourceUris)
            && ("schema" in conf <==> "schema" in o)
  {
  }

  function LoadArgs(c: Client, tableId: string, src: Source, o: Bag): Bag {
    map["projectId" := Str(c.projectId),
        "body" := Dict(map["configuration" := Dict(map["load" := Dict(LoadConfiguration(c, tableId, src, o))]),
                           "dryRun" := Get(o, "dry_run", Bool(false))]),
        "media_body" := src.media]
  }

  /** The common tail of the job methods: the job id of the inserted job, and
      unless `async` is True, waiting for it. */
  function Finish(c: Client, now: nat, res: Value, o: Bag, fuel: nat): Result<Completion, Error> {
    var jobId :- Index2(res, "jobReference", "jobId");
    if IsTrue(Get(o, "async", Null)) then Success(Async(jobId))
    else
      var w :- WaitJob(c, now, jobId, Get(o, "timeout", Int(JobWaitTimeout)), fuel);
      Success(Finished(w.job))
  }

  function Load(c: Client, now: nat, tableId: string, data: Value, pathExists: string -> bool, o: Bag, fuel: nat)
    : Result<Completion, Error>
  {
    var src :- LoadSource(data, pathExists);
    var res :- Request(c, now, Name("jobs"), "insert", LoadArgs(c, tableId, src, o));
    Finish(c, now, res, o, fuel)
  }

  /** A job method returns the inserted job's id at once when `async` is True
      and the waited-for job otherwise. */
  lemma FinishWaitsUnlessAsync(c: Client, now: nat, res: Value, o: Bag, fuel: nat)
    requires Index2(res, "jobReference", "jobId").Success?
    ensures var jobId := Index2(res, "jobReference", "jobId").value;
            && (IsTrue(Get(o, "async", Null)) ==> Finish(c, now, res, o, fuel) == Success(Async(jobId)))
            && (!IsTrue(Get(o, "async", Null)) ==>
                  match WaitJob(c, now, jobId, Get(o, "timeout", Int(JobWaitTimeout)), fuel)
                  case Success(w) => Finish(c, now, res, o, fuel) == Success(Finished(w.job))
                  case Failure(e) => Finish(c, now, res, o, fuel) == Failure(e))
  {
  }

  // ----- extract -----

  function ExtractConfiguration(c: Client, tableId: string, uris: seq<Value>, f: FileFormat, o: Bag): Bag {
    map["compression" := Get(o, "compression", Str(f.compression)),
        "destinationFormat" := Get(o, "destination_format", OptionValue(f.sourceFormat)),
        "destinationUris" := List(uris),
        "fieldDelimiter" := Get(o, "field_delimiter", OptionValue(f.fieldDelimiter)),
        "printHeader" := Get(o, "print_header", Bool(true)),
        "sourceTable" := TableReference(c, tableId, o)]
  }

  /** `extract`: a scalar destination becomes a one-element list; the format
      is detected from the first destination. */
  function Extract(c: Client, now: nat, tableId: string, destination: Value, o: Bag, fuel: nat): Result<Completion, Error> {
    var uris := AsList(destination);
    if |uris| == 0 then Failure(IndexError)
    else if !uris[0].Str? then Failure(TypeError)
    else
      var conf := ExtractConfiguration(c, tableId, uris, Detect(uris[0].s), o);
      var kwargs := map["projectId" := Str(c.projectId),
                        "body" := Dict(map["configuration" := Dict(map["extract" := Dict(conf)])])];
      var res :- Request(c, now, Name("jobs"), "insert", kwargs);
      Finish(c, now, res, o, fuel)
  }

  /** The destinations sent are the given list, or the single given name;
      compression, format and delimiter follow the first one unless the
      caller overrides them. */
  lemma ExtractDestinations(c: Client, tableId: string, destination: Value, o: Bag)
    requires |AsList(destination)| > 0 && AsList(destination)[0].Str?
    ensures var uris := AsList(destination);
            var conf := ExtractConfiguration(c, tableId, uris, Detect(uris[0].s), o);
            && conf["destinationUris"] == (if destination.List? then destination else List([destination]))
            && ("compression" !in o ==> conf["compression"] == Str(Detect(uris[0].s).compression))
            && ("destination_format" !in o ==> conf["destinationFormat"] == OptionValue(Detect(uris[0].s).sourceFormat))
            && ("compression" in o ==> conf["compression"] == o["compression"])
            && ("destination_format" in o ==> conf["destinationFormat"] == o["destination_format"])
            && ("field_delimiter" !in o ==> conf["fieldDelimiter"] == OptionValue(Detect(uris[0].s).fieldDelimiter))
            && ("field_delimiter" in o ==> conf["fieldDelimiter"] == o["field_delimiter"])
            && conf["printHeader"] == (if "print_header" in o then o["print_header"] else Bool(true))
  {
  }

  /** An empty destination list fails before anything is sent. */
  lemma ExtractNeedsADestination(c: Client, now: nat, tableId: string, o: Bag, fuel: nat)
    ensures Extract(c, now, tableId, List([]), o, fuel) == Failure(IndexError)
  {
  }

  // ----- query rows -----

  function ColumnValue(column: Value): Result<Value, Error> {
    Index(column, "v")
  }

  /** `[column['v'] for column in row['f']]`. */
  function FlattenRow(row: Value): Result<Value, Error> {
    var columns :- Index(row, "f");
    var cells :- Items(columns);
    var values :- MapItems(ColumnValue, cells);
    Success(List(values))
  }

  function FlattenRows(rows: seq<Value>): Result<seq<Value>, Error> {
    MapItems(FlattenRow, rows)
  }

  /** Each query row becomes the list of its columns' `v` values, in column
      order. */
  lemma FlattenRowIsColumnValues(row: Value)
    requires Has(row, "f") && row.fields["f"].List?
    requires forall i :: 0 <= i < |row.fields["f"].items| ==> Has(row.fields["f"].items[i], "v")
    ensures FlattenRow(row).Success?
    ensures var cells := row.fields["f"].items;
            FlattenRow(row).value.List? && |FlattenRow(row).value.items| == |cells|
            && forall i :: 0 <= i < |cells| ==> FlattenRow(row).value.items[i] == cells[i].fields["v"]
  {
  }

  /** The appending loop over the rows of a response. */
  method FlattenRowsLoop(rows: seq<Value>) returns (r: Result<seq<Value>, Error>)
    ensures r == FlattenRows(rows)
  {
    var ret: seq<Value> := [];
    for i := 0 to |rows|
      invariant MapItems(FlattenRow, rows[..i]) == Success(ret)
    {
      var row := FlattenRow(rows[i]);
      if row.Failure? {
        MapItemsStopsAt(FlattenRow, rows, i);
        return Failure(row.error);
      }
      MapItemsSnoc(FlattenRow, rows[..i], rows[i]);
      assert rows[..i] + [rows[i]] == rows[..i + 1];
      ret := ret + [row.value];
    }
    assert rows[..|rows|] == rows;
    r := Success(ret);
  }

  // ----- get_query_results and select -----

  /** A `get_query_results` call: the job, its options and the clock. */
  datatype QueryState = QueryState(jobId: Value, options: Bag, now: nat)

  function QueryResultsArgs(c: Client, jobId: Value, o: Bag): Bag {
    map["projectId" := Str(c.projectId), "jobId" := jobId,
        "maxResults" := Get(o, "max_results", Int(MaxResults)), "pageToken" := Get(o, "page_token", Null),
        "startIndex" := Get(o, "start_index", Null), "timeoutMs" := Get(o, "timeout_ms", Null)]
  }

  /** The rows of one response, and the next call when it has a `pageToken`. */
  function ReadRows(res: Value, o: Bag, jobId: Value, at: nat): Result<Step<QueryState, Value>, Error> {
    if !Has(res, "rows") then Success(Last([]))
    else
      var rows :- Items(res.fields["rows"]);
      var flat :- FlattenRows(rows);
      if Has(res, "pageToken") then
        var next :- NextOptions(o, res.fields["pageToken"], |rows|, true);
        Success(More(flat, QueryState(jobId, next, at)))
      else Success(Last(flat))
  }

  /** One non-async `get_query_results` call. As written (`refetch` false),
      when the job is incomplete the rows are read from what `wait_job`
      returns, the `jobs.get` job resource; with `refetch` the results are
      requested again once the job is DONE. */
  function QueryStep(c: Client, fuel: nat, refetch: bool, st: QueryState): Result<Step<QueryState, Value>, Error> {
    var res :- Request(c, st.now, Name("jobs"), "getQueryResults", QueryResultsArgs(c, st.jobId, st.options));
    var jobId :- Index2(res, "jobReference", "jobId");
    var complete :- Index(res, "jobComplete");
    if complete == Bool(false) then
      var w :- WaitJob(c, st.now, jobId, Get(st.options, "timeout", Int(JobWaitTimeout)), fuel);
      if refetch then
        var again :- Request(c, w.at, Name("jobs"), "getQueryResults", QueryResultsArgs(c, jobId, st.options));
        ReadRows(again, st.options, jobId, w.at)
      else ReadRows(w.job, st.options, jobId, w.at)
    else ReadRows(res, st.options, jobId, st.now)
  }

  function QueryPages(c: Client, now: nat, jobId: Value, o: Bag, fuel: nat, refetch: bool): Result<seq<Value>, Error> {
    Paginate((st: QueryState) => QueryStep(c, fuel, refetch, st), QueryState(jobId, o, now), fuel)
  }

  function QueryResultsWith(c: Client, now: nat, jobId: Value, o: Bag, fuel: nat, refetch: bool): Result<Completion, Error> {
    if IsTrue(Get(o, "async", Null)) then
      var res :- Request(c, now, Name("jobs"), "getQueryResults", QueryResultsArgs(c, jobId, o));
      var id :- Index2(res, "jobReference", "jobId");
      Success(Async(id))
    else
      var rows :- QueryPages(c, now, jobId, o, fuel, refetch);
      Success(Finished(List(rows)))
  }

  /** `get_query_results` as written. */
  function GetQueryResults(c: Client, now: nat, jobId: Value, o: Bag, fuel: nat): Result<Completion, Error> {
    QueryResultsWith(c, now, jobId, o, fuel, false)
  }

  /** `get_query_results` reading the results again after waiting. */
  function FixedGetQueryResults(c: Client, now: nat, jobId: Value, o: Bag, fuel: nat): Result<Completion, Error> {
    QueryResultsWith(c, now, jobId, o, fuel, true)
  }

  /** A page of query results with a `pageToken` continues with the same job,
      the token, and `start_index` advanced by the page's row count. */
  lemma QueryContinuation(res: Value, o: Bag, jobId: Value, at: nat)
    requires Has(res, "rows") && res.fields["rows"].List? && FlattenRows(res.fields["rows"].items).Success?
    requires Has(res, "pageToken")
    requires "start_index" !in o || o["start_index"].Int?
    ensures var rows := res.fields["rows"].items;
            ReadRows(res, o, jobId, at).Success? && ReadRows(res, o, jobId, at).value.More?
            && var step := ReadRows(res, o, jobId, at).value;
            && step.items == FlattenRows(rows).value && |step.items| == |rows|
            && step.next.jobId == jobId && step.next.now == at
            && step.next.options["page_token"] == res.fields["pageToken"]
            && step.next.options["start_index"] == Int((if "start_index" in o then o["start_index"].i else 0) + |rows|)
  {
  }

  /** The query-results listing returns the flattened rows of every page in
      page order, once fuel covers its requests. */
  lemma QueryPagesConcatenate(c: Client, jobId: Value, fuel: nat, refetch: bool, states: seq<QueryState>, pages: seq<seq<Value>>)
    requires Chain((st: QueryState) => QueryStep(c, fuel, refetch, st), states, pages) && |states| <= fuel
    requires states[0].jobId == jobId
    ensures QueryPages(c, states[0].now, jobId, states[0].options, fuel, refetch) == Success(Concat(pages))
  {
    PaginateChain((st: QueryState) => QueryStep(c, fuel, refetch, st), states, pages, fuel);
    assert states[0] == QueryState(jobId, states[0].options, states[0].now);
  }

  function SelectArgs(c: Client, query: Value, o: Bag): Bag {
    var body := map[
      "query" := query,
      "maxResults" := Get(o, "max_results", Int(MaxResults)),
      "timeoutMs" := Get(o, "timeout_ms", Null),
      "dryRun" := Get(o, "dry_run", Bool(false)),
      "useQueryCache" := Get(o, "use_query_cache", Bool(true))];
    var withDataset := if "dataset_id" in o then
                         body["defaultDataset" := Dict(map["projectId" := ProjectOption(c, o), "datasetId" := o["dataset_id"]])]
                       else body;
    map["projectId" := Str(c.projectId), "body" := Dict(withDataset)]
  }

  /** The rows `select` reads from `res` at clock `at`: the flattened rows,
      then the pages `get_query_results` reads from `start_index = len(rows)`. */
  function SelectRows(c: Client, res: Value, at: nat, fuel: nat, refetch: bool): Result<seq<Value>, Error> {
    if !Has(res, "rows") then Success([])
    else
      var rows :- Items(res.fields["rows"]);
      var flat :- FlattenRows(rows);
      if Has(res, "pageToken") then
        var jobId :- Index2(res, "jobReference", "jobId");
        var more :- QueryPages(c, at, jobId, map["page_token" := res.fields["pageToken"], "start_index" := Int(|rows|)], fuel, refetch);
        Success(flat + more)
      else Success(flat)
  }

  function SelectWith(c: Client, now: nat, query: Value, o: Bag, fuel: nat, refetch: bool): Result<Completion, Error> {
    var res :- Request(c, now, Name("jobs"), "query", SelectArgs(c, query, o));
    var jobId :- Index2(res, "jobReference", "jobId");
    if IsTrue(Get(o, "async", Null)) then Success(Async(jobId))
    else
      var complete :- Index(res, "jobComplete");
      if complete == Bool(false) then
        var w :- WaitJob(c, now, jobId, Get(o, "timeout", Int(JobWaitTimeout)), fuel);
        if refetch then
          var rows :- QueryPages(c, w.at, jobId, map[], fuel, true);
          Success(Finished(List(rows)))
        else
          var rows :- SelectRows(c, w.job, w.at, fuel, false);
          Success(Finished(List(rows)))
      else
        var rows :- SelectRows(c, res, now, fuel, refetch);
        Success(Finished(List(rows)))
  }

  /** `select` (and its alias `query`) as written. */
  function Select(c: Client, now: nat, query: Value, o: Bag, fuel: nat): Result<Completion, Error> {
    SelectWith(c, now, query, o, fuel, false)
  }

  /** `select` reading the results once the job is DONE. */
  function FixedSelect(c: Client, now: nat, query: Value, o: Bag, fuel: nat): Result<Completion, Error> {
    SelectWith(c, now, query, o, fuel, true)
  }

  /** The query the service answers at once with a `pageToken`: `select`
      returns the flattened rows of the first response followed by the rows
      of every results page read after it, in order. */
  lemma SelectCompleteQuery(c: Client, now: nat, query: Value, o: Bag, fuel: nat, res: Value,
                            rows: seq<Value>, flat: seq<Value>, states: seq<QueryState>, pages: seq<seq<Value>>)
    requires Request(c, now, Name("jobs"), "query", SelectArgs(c, query, o)) == Success(res)
    requires Index2(res, "jobReference", "jobId").Success? && !IsTrue(Get(o, "async", Null))
    requires Index(res, "jobComplete").Success? && Index(res, "jobComplete").value != Bool(false)
    requires Has(res, "rows") && Items(res.fields["rows"]) == Success(rows) && FlattenRows(rows) == Success(flat)
    requires Has(res, "pageToken")
    requires Chain((st: QueryState) => QueryStep(c, fuel, false, st), states, pages) && |states| <= fuel
    requires states[0] == QueryState(Index2(res, "jobReference", "jobId").value,
                                     map["page_token" := res.fields["pageToken"], "start_index" := Int(|rows|)], now)
    ensures Select(c, now, query, o, fuel) == Success(Finished(List(flat + Concat(pages))))
  {
    QueryPagesConcatenate(c, Index2(res, "jobReference", "jobId").value, fuel, false, states, pages);
  }

  /** A complete first response without a `pageToken` is the whole answer:
      `select` returns its flattened rows, or none when it carries no `rows`. */
  lemma SelectCompleteSinglePage(c: Client, now: nat, query: Value, o: Bag, fuel: nat, res: Value,
                                 rows: seq<Value>, flat: seq<Value>)
    requires Request(c, now, Name("jobs"), "query", SelectArgs(c, query, o)) == Success(res)
    requires Index2(res, "jobReference", "jobId").Success? && !IsTrue(Get(o, "async", Null))
    requires Index(res, "jobComplete").Success? && Index(res, "jobComplete").value != Bool(false)
    requires Has(res, "rows") ==> Items(res.fields["rows"]) == Success(rows) && FlattenRows(rows) == Success(flat)
    requires !Has(res, "pageToken")
    ensures Select(c, now, query, o, fuel) == Success(Finished(List(if Has(res, "rows") then flat else [])))
  {
  }

  /** As written, a query still running when `jobs.query` answers yields no
      rows at all: the rows are read from the `jobs.get` job resource that
      `wait_job` returns, which carries no `rows`. */
  lemma SelectDropsRowsOfSlowQuery(c: Client, now: nat, query: Value, o: Bag, fuel: nat, res: Value, w: Waited)
    requires Request(c, now, Name("jobs"), "query", SelectArgs(c, query, o)) == Success(res)
    requires Index2(res, "jobReference", "jobId").Success? && !IsTrue(Get(o, "async", Null))
    requires Index(res, "jobComplete") == Success(Bool(false))
    requires WaitJob(c, now, Index2(res, "jobReference", "jobId").value, Get(o, "timeout", Int(JobWaitTimeout)), fuel) == Success(w)
    requires !Has(w.job, "rows")
    ensures Select(c, now, query, o, fuel) == Success(Finished(List([])))
  {
  }

  /** Corrected, the same query yields the rows the results pages hold once
      the job is DONE. */
  lemma FixedSelectReadsRowsAfterWait(c: Client, now: nat, query: Value, o: Bag, fuel: nat, res: Value, w: Waited, rows: seq<Value>)
    requires Request(c, now, Name("jobs"), "query", SelectArgs(c, query, o)) == Success(res)
    requires Index2(res, "jobReference", "jobId").Success? && !IsTrue(Get(o, "async", Null))
    requires Index(res, "jobComplete") == Success(Bool(false))
    requires WaitJob(c, now, Index2(res, "jobReference", "jobId").value, Get(o, "timeout", Int(JobWaitTimeout)), fuel) == Success(w)
    requires QueryPages(c, w.at, Index2(res, "jobReference", "jobId").value, map[], fuel, true) == Success(rows)
    ensures FixedSelect(c, now, query, o, fuel) == Success(Finished(List(rows)))
    ensures rows != [] && !Has(w.job, "rows") ==> Select(c, now, query, o, fuel) != FixedSelect(c, now, query, o, fuel)
  {
  }

  /** The same holds page by page in `get_query_results`: as written, an
      incomplete job's page contributes no rows and ends the listing. */
  lemma QueryStepDropsRowsOfSlowJob(c: Client, fuel: nat, st: QueryState, res: Value, w: Waited)
    requires Request(c, st.now, Name("jobs"), "getQueryResults", QueryResultsArgs(c, st.jobId, st.options)) == Success(res)
    requires Index2(res, "jobReference", "jobId").Success? && Index(res, "jobComplete") == Success(Bool(false))
    requires WaitJob(c, st.now, Index2(res, "jobReference", "jobId").value, Get(st.options, "timeout", Int(JobWaitTimeout)), fuel) == Success(w)
    requires !Has(w.job, "rows")
    ensures QueryStep(c, fuel, false, st) == Success(Last([]))
  {
  }

  /** Corrected, the page is the one the results hold once the job is DONE,
      read with the same options at the clock value the wait ended. */
  lemma FixedQueryStepReadsRowsAfterWait(c: Client, fuel: nat, st: QueryState, res: Value, w: Waited, again: Value)
    requires Request(c, st.now, Name("jobs"), "getQueryResults", QueryResultsArgs(c, st.jobId, st.options)) == Success(res)
    requires Index2(res, "jobReference", "jobId").Success? && Index(res, "jobComplete") == Success(Bool(false))
    requires var jobId := Index2(res, "jobReference", "jobId").value;
             && WaitJob(c, st.now, jobId, Get(st.options, "timeout", Int(JobWaitTimeout)), fuel) == Success(w)
             && Request(c, w.at, Name("jobs"), "getQueryResults", QueryResultsArgs(c, jobId, st.options)) == Success(again)
    ensures QueryStep(c, fuel, true, st) == ReadRows(again, st.options, Index2(res, "jobReference", "jobId").value, w.at)
  {
  }
}
