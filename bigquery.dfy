/** The BigQuery client (`google_api_clients/bigquery`): error classification
    and body-error sniffing around the dispatcher, the dataset and table
    helpers that turn "already exists" and "not found" into `{}`, and the
    paginated listings. */
module BigQuery {
  import opened Wrappers
  import opened Values
  import opened Text
  import opened Errors
  import opened Dispatcher
  import opened Paging

  const JobWaitTimeout: nat := 600
  const MaxResults: int := 100000

  /** A built client: its dispatcher, its default project and dataset. Nothing
      updates these after construction. */
  datatype Client = Client(api: Service, projectId: string, datasetId: Value)

  /** The first-match classification of a transport error. */
  function Classify(e: HttpError, arg: ResourceArg, methodName: string): (r: Error)
    ensures r.AlreadyExistsError? <==> e.status == 409 && ContainsIgnoreCase(e.message, "Already Exists")
    ensures r.NotFoundError? <==> e.status == 404 && ContainsIgnoreCase(e.message, "Not Found")
    ensures r.ParameterError? <==> e.status == 400 && ContainsIgnoreCase(e.message, "Required parameter is missing")
    ensures r.DatasetIsNotEmptyError? <==>
              e.status == 400 && !ContainsIgnoreCase(e.message, "Required parameter is missing")
              && ContainsIgnoreCase(e.message, "still in use") && arg == Name("datasets") && methodName == "delete"
    ensures r.Http4xxError? <==>
              400 <= e.status <= 499 && !r.AlreadyExistsError? && !r.NotFoundError? && !r.ParameterError? && !r.DatasetIsNotEmptyError?
    ensures r.Http5xxError? <==> 500 <= e.status <= 599
    ensures r.Http? <==> !(400 <= e.status <= 599)
    ensures r.Http? || r.AlreadyExistsError? || r.NotFoundError? || r.ParameterError?
            || r.DatasetIsNotEmptyError? || r.Http4xxError? || r.Http5xxError?
    ensures r.cause == e
  {
    if e.status == 409 && ContainsIgnoreCase(e.message, "Already Exists") then AlreadyExistsError(e)
    else if e.status == 404 && ContainsIgnoreCase(e.message, "Not Found") then NotFoundError(e)
    else if e.status == 400 && ContainsIgnoreCase(e.message, "Required parameter is missing") then ParameterError(e)
    else if e.status == 400 && ContainsIgnoreCase(e.message, "still in use")
            && arg == Name("datasets") && methodName == "delete" then DatasetIsNotEmptyError(e)
    else if 400 <= e.status <= 499 then Http4xxError(e)
    else if 500 <= e.status <= 599 then Http5xxError(e)
    else Http(e)
  }

  /** `[y for x in res['insertErrors'] for y in x['errors']]`, evaluated in
      full before any error is examined. */
  function FlattenRowErrors(rows: seq<Value>): (r: Result<seq<Value>, Error>)
  {
    if |rows| == 0 then Success([])
    else
      var errors :- Index(rows[0], "errors");
      var items :- Items(errors);
      var rest :- FlattenRowErrors(rows[1..]);
      Success(items + rest)
  }

  /** The insertAll row-error loop: a message mentioning "no such field"
      raises; any other message raises unless `skipInvalidRows` is True; an
      error without a message is built but never raised. */
  function ScanRowErrors(errors: seq<Value>, kwargs: Bag): Option<Error>
  {
    if |errors| == 0 then None
    else
      var error := errors[0];
      if Has(error, "message") then
        match error.fields["message"]
        case Str(m) =>
          if ContainsIgnoreCase(m, "no such field") then Some(BigQueryError(error))
          else if "body" !in kwargs then Some(KeyError("body"))
          else (match Index(kwargs["body"], "skipInvalidRows")
            case Failure(e) => Some(e)
            case Success(skip) => if !IsTrue(skip) then Some(BigQueryError(error)) else ScanRowErrors(errors[1..], kwargs))
        case _ => Some(TypeError)
      else ScanRowErrors(errors[1..], kwargs)
  }

  /** The error a successful response body carries, checked in the order
      `insertErrors`, `errors`, `status.errors`. */
  function SniffBody(res: Value, kwargs: Bag): Option<Error>
  {
    if Has(res, "insertErrors") then
      match Items(res.fields["insertErrors"])
      case Failure(e) => Some(e)
      case Success(rows) =>
        match FlattenRowErrors(rows)
        case Failure(e) => Some(e)
        case Success(errors) => ScanRowErrors(errors, kwargs)
    else if Has(res, "errors") then Some(BigQueryError(res.fields["errors"]))
    else if Has(res, "status") && Has(res.fields["status"], "errors") then Some(BigQueryError(res.fields["status"].fields["errors"]))
    else None
  }

  /** `BigQuery.request`. */
  function Request(c: Client, now: nat, arg: ResourceArg, methodName: string, kwargs: Bag): Result<Value, Error>
    requires Dispatchable(c.api.doc, arg)
  {
    match Call(c.api, now, arg, methodName, kwargs)
    case Failure(Http(e)) => Failure(Classify(e, arg, methodName))
    case Failure(err) => Failure(err)
    case Success(res) =>
      match SniffBody(res, kwargs)
      case Some(err) => Failure(err)
      case None => Success(res)
  }

  /** A row error that raises, given the caller's `skipInvalidRows` flag. */
  ghost predicate RaisesRow(error: Value, skip: bool) {
    Has(error, "message") && error.fields["message"].Str?
    && (ContainsIgnoreCase(error.fields["message"].s, "no such field") || !skip)
  }

  /** Row errors whose messages are strings, sent with a `skipInvalidRows` flag. */
  ghost predicate WellFormedRowErrors(errors: seq<Value>, kwargs: Bag) {
    && (forall i :: 0 <= i < |errors| && Has(errors[i], "message") ==> errors[i].fields["message"].Str?)
    && "body" in kwargs && Has(kwargs["body"], "skipInvalidRows")
  }

  ghost function SkipFlag(kwargs: Bag): bool
    requires "body" in kwargs && Has(kwargs["body"], "skipInvalidRows")
  {
    IsTrue(kwargs["body"].fields["skipInvalidRows"])
  }

  /** The row-error scan raises exactly when some row error raises, and then
      it is the first such error, wrapped in BigQueryError. */
  lemma {:induction false} ScanRaisesFirst(errors: seq<Value>, kwargs: Bag)
    requires WellFormedRowErrors(errors, kwargs)
    ensures ScanRowErrors(errors, kwargs).Some? <==> exists i :: 0 <= i < |errors| && RaisesRow(errors[i], SkipFlag(kwargs))
    ensures ScanRowErrors(errors, kwargs).Some? ==>
              exists i :: 0 <= i < |errors| && RaisesRow(errors[i], SkipFlag(kwargs))
                && ScanRowErrors(errors, kwargs) == Some(BigQueryError(errors[i]))
                && forall j :: 0 <= j < i ==> !RaisesRow(errors[j], SkipFlag(kwargs))
  {
    if |errors| > 0 {
      var skip := SkipFlag(kwargs);
      assert WellFormedRowErrors(errors[1..], kwargs) by {
        forall i | 0 <= i < |errors[1..]| && Has(errors[1..][i], "message")
          ensures errors[1..][i].fields["message"].Str?
        {
          assert errors[1..][i] == errors[i + 1];
        }
      }
      ScanRaisesFirst(errors[1..], kwargs);
      if !RaisesRow(errors[0], skip) {
        assert ScanRowErrors(errors, kwargs) == ScanRowErrors(errors[1..], kwargs);
        if ScanRowErrors(errors, kwargs).Some? {
          var i :| 0 <= i < |errors[1..]| && RaisesRow(errors[1..][i], skip)
                   && ScanRowErrors(errors[1..], kwargs) == Some(BigQueryError(errors[1..][i]))
                   && forall j :: 0 <= j < i ==> !RaisesRow(errors[1..][j], skip);
          assert errors[1..][i] == errors[i + 1];
          forall j | 0 <= j < i + 1 ensures !RaisesRow(errors[j], skip) {
            if j > 0 { assert errors[j] == errors[1..][j - 1]; }
          }
        } else {
          forall i | 0 <= i < |errors| ensures !RaisesRow(errors[i], skip) {
            if i > 0 { assert errors[i] == errors[1..][i - 1]; }
          }
        }
      }
    }
  }

  /** "no such field" raises even when the caller asked to skip invalid rows. */
  lemma NoSuchFieldAlwaysRaises(errors: seq<Value>, kwargs: Bag, i: nat)
    requires WellFormedRowErrors(errors, kwargs) && i < |errors|
    requires Has(errors[i], "message") && ContainsIgnoreCase(errors[i].fields["message"].s, "no such field")
    ensures ScanRowErrors(errors, kwargs).Some?
    ensures ScanRowErrors(errors, kwargs).value.BigQueryError?
  {
    ScanRaisesFirst(errors, kwargs);
  }

  /** With `skipInvalidRows` True, only "no such field" messages raise. */
  lemma SkipInvalidRowsRaisesOnlyUnknownFields(errors: seq<Value>, kwargs: Bag)
    requires WellFormedRowErrors(errors, kwargs) && SkipFlag(kwargs)
    ensures ScanRowErrors(errors, kwargs).Some? <==>
              exists i :: 0 <= i < |errors| && Has(errors[i], "message")
                && ContainsIgnoreCase(errors[i].fields["message"].s, "no such field")
  {
    ScanRaisesFirst(errors, kwargs);
  }

  /** Without it, every row error that has a message raises, and an error
      without a message never does. */
  lemma NoSkipRaisesOnAnyMessage(errors: seq<Value>, kwargs: Bag)
    requires WellFormedRowErrors(errors, kwargs) && !SkipFlag(kwargs)
    ensures ScanRowErrors(errors, kwargs).Some? <==> exists i :: 0 <= i < |errors| && Has(errors[i], "message")
  {
    ScanRaisesFirst(errors, kwargs);
  }

  /** Embedded errors are looked for in a fixed order: a response with
      `insertErrors` is judged by its row errors alone. */
  lemma SniffOrder(res: Value, kwargs: Bag)
    ensures !Has(res, "insertErrors") && Has(res, "errors") ==> SniffBody(res, kwargs) == Some(BigQueryError(res.fields["errors"]))
    ensures !Has(res, "insertErrors") && !Has(res, "errors") && Has(res, "status") && Has(res.fields["status"], "errors") ==>
              SniffBody(res, kwargs) == Some(BigQueryError(res.fields["status"].fields["errors"]))
    ensures !Has(res, "insertErrors") && !Has(res, "errors") && !(Has(res, "status") && Has(res.fields["status"], "errors")) ==>
              SniffBody(res, kwargs) == None
    ensures Has(res, "insertErrors") && res.fields["insertErrors"] == List([]) ==> SniffBody(res, kwargs) == None
  {
  }

  /** A transport error reaches the caller classified, with the original
      error attached; an error-free body is returned as the service sent it. */
  lemma RequestOutcome(c: Client, now: nat, arg: ResourceArg, methodName: string, kwargs: Bag, inv: Invocation)
    requires Dispatchable(c.api.doc, arg)
    requires Dispatch(c.api.doc, arg, methodName, kwargs) == Success(inv)
    ensures c.api.remote(inv, now).Failed? ==>
              Request(c, now, arg, methodName, kwargs) == Failure(Classify(c.api.remote(inv, now).error, arg, methodName))
    ensures c.api.remote(inv, now).Response? && SniffBody(c.api.remote(inv, now).body, kwargs).None? ==>
              Request(c, now, arg, methodName, kwargs) == Success(c.api.remote(inv, now).body)
  {
  }

  // ----- idempotent helpers -----

  /** `except AlreadyExistsError: return {}`. */
  function SwallowAlreadyExists(r: Result<Value, Error>): (s: Result<Value, Error>)
    ensures r.Failure? && r.error.AlreadyExistsError? ==> s == Success(EmptyDict)
    ensures !(r.Failure? && r.error.AlreadyExistsError?) ==> s == r
  {
    if r.Failure? && r.error.AlreadyExistsError? then Success(EmptyDict) else r
  }

  /** `except NotFoundError: return {}`. */
  function SwallowNotFound(r: Result<Value, Error>): (s: Result<Value, Error>)
    ensures r.Failure? && r.error.NotFoundError? ==> s == Success(EmptyDict)
    ensures !(r.Failure? && r.error.NotFoundError?) ==> s == r
  {
    if r.Failure? && r.error.NotFoundError? then Success(EmptyDict) else r
  }

  function ProjectOption(c: Client, o: Bag): Value {
    Get(o, "project_id", Str(c.projectId))
  }

  function DatasetOption(c: Client, o: Bag): Value {
    Get(o, "dataset_id", c.datasetId)
  }

  function CreateDatasetArgs(c: Client, datasetId: string, o: Bag): Bag {
    map["projectId" := Str(c.projectId),
        "body" := Dict(map[
          "access" := Get(o, "access", Null),
          "datasetReference" := Dict(map["projectId" := ProjectOption(c, o), "datasetId" := Str(datasetId)]),
          "defaultTableExpirationMs" := Get(o, "default_table_expiration_ms", Null),
          "description" := Get(o, "description", Null),
          "friendlyName" := Get(o, "friendly_name", Null),
          "location" := Get(o, "location", Str("US"))])]
  }

  function CreateDataset(c: Client, now: nat, datasetId: string, o: Bag): Result<Value, Error> {
    SwallowAlreadyExists(Request(c, now, Name("datasets"), "insert", CreateDatasetArgs(c, datasetId, o)))
  }

  function DatasetArgs(c: Client, datasetId: string, o: Bag): Bag {
    map["projectId" := ProjectOption(c, o), "datasetId" := Str(datasetId)]
  }

  function DropDataset(c: Client, now: nat, datasetId: string, o: Bag): Result<Value, Error> {
    SwallowNotFound(Request(c, now, Name("datasets"), "delete",
      DatasetArgs(c, datasetId, o)["deleteContents" := Get(o, "delete_contents", Bool(false))]))
  }

  function InfoDataset(c: Client, now: nat, datasetId: string, o: Bag): Result<Value, Error> {
    SwallowNotFound(Request(c, now, Name("datasets"), "get", DatasetArgs(c, datasetId, o)))
  }

  function ExistsDataset(c: Client, now: nat, datasetId: string, o: Bag): Result<bool, Error> {
    var res :- InfoDataset(c, now, datasetId, o);
    Success(Truthy(res))
  }

  function TableReference(c: Client, tableId: string, o: Bag): Value {
    Dict(map["projectId" := ProjectOption(c, o), "datasetId" := DatasetOption(c, o), "tableId" := Str(tableId)])
  }

  function CreateTableArgs(c: Client, tableId: string, o: Bag): Bag {
    var body := map[
      "description" := Get(o, "description", Null),
      "expirationTime" := Get(o, "expiration_time", Null),
      "externalDataConfiguration" := Get(o, "external_data_configuration", Null),
      "friendlyName" := Get(o, "friendly_name", Null),
      "tableReference" := TableReference(c, tableId, o)];
    var withSchema := if "schema" in o then body["schema" := Dict(map["fields" := o["schema"]])] else body;
    var withView := if "query" in o then withSchema["view" := Dict(map["query" := o["query"]])] else withSchema;
    map["projectId" := ProjectOption(c, o), "datasetId" := DatasetOption(c, o), "body" := Dict(withView)]
  }

  function CreateTable(c: Client, now: nat, tableId: string, o: Bag): Result<Value, Error> {
    SwallowAlreadyExists(Request(c, now, Name("tables"), "insert", CreateTableArgs(c, tableId, o)))
  }

  /** `create_table(table_id, query=query, **options)`; a `query` option as
      well is a duplicate keyword, a TypeError. */
  function CreateView(c: Client, now: nat, tableId: string, query: Value, o: Bag): Result<Value, Error> {
    if "query" in o then Failure(TypeError) else CreateTable(c, now, tableId, o["query" := query])
  }

  function TableArgs(c: Client, tableId: string, o: Bag): Bag {
    map["projectId" := ProjectOption(c, o), "datasetId" := DatasetOption(c, o), "tableId" := Str(tableId)]
  }

  function DropTable(c: Client, now: nat, tableId: string, o: Bag): Result<Value, Error> {
    SwallowNotFound(Request(c, now, Name("tables"), "delete", TableArgs(c, tableId, o)))
  }

  function InfoTable(c: Client, now: nat, tableId: string, o: Bag): Result<Value, Error> {
    SwallowNotFound(Request(c, now, Name("tables"), "get", TableArgs(c, tableId, o)))
  }

  function ExistsTable(c: Client, now: nat, tableId: string, o: Bag): Result<bool, Error> {
    var res :- InfoTable(c, now, tableId, o);
    Success(Truthy(res))
  }

  /** The reply the remote gives to a dispatched call, or None when the
      dispatch itself fails. */
  function ReplyTo(c: Client, now: nat, arg: ResourceArg, methodName: string, kwargs: Bag): Option<Reply>
    requires Dispatchable(c.api.doc, arg)
  {
    match Dispatch(c.api.doc, arg, methodName, kwargs)
    case Success(inv) => Some(c.api.remote(inv, now))
    case Failure(_) => None
  }

  predicate IsAlreadyExists(e: HttpError) {
    e.status == 409 && ContainsIgnoreCase(e.message, "Already Exists")
  }

  predicate IsNotFound(e: HttpError) {
    e.status == 404 && ContainsIgnoreCase(e.message, "Not Found")
  }

  /** Creating what already exists returns the falsy `{}`; any other transport
      error reaches the caller classified. */
  lemma CreateIsIdempotent(c: Client, now: nat, datasetId: string, tableId: string, o: Bag)
    ensures var reply := ReplyTo(c, now, Name("datasets"), "insert", CreateDatasetArgs(c, datasetId, o));
            reply.Some? && reply.value.Failed? ==>
              CreateDataset(c, now, datasetId, o) ==
                if IsAlreadyExists(reply.value.error) then Success(EmptyDict)
                else Failure(Classify(reply.value.error, Name("datasets"), "insert"))
    ensures var reply := ReplyTo(c, now, Name("tables"), "insert", CreateTableArgs(c, tableId, o));
            reply.Some? && reply.value.Failed? ==>
              CreateTable(c, now, tableId, o) ==
                if IsAlreadyExists(reply.value.error) then Success(EmptyDict)
                else Failure(Classify(reply.value.error, Name("tables"), "insert"))
    ensures !Truthy(EmptyDict)
  {
  }

  /** Dropping or reading what is not there returns the falsy `{}`, so
      `exists_*` is false; any other transport error reaches the caller. */
  lemma DropAndInfoSwallowNotFound(c: Client, now: nat, datasetId: string, tableId: string, o: Bag)
    ensures var reply := ReplyTo(c, now, Name("datasets"), "get", DatasetArgs(c, datasetId, o));
            reply.Some? && reply.value.Failed? ==>
              InfoDataset(c, now, datasetId, o) ==
                (if IsNotFound(reply.value.error) then Success(EmptyDict)
                 else Failure(Classify(reply.value.error, Name("datasets"), "get")))
              && ExistsDataset(c, now, datasetId, o) ==
                (if IsNotFound(reply.value.error) then Success(false)
                 else Failure(Classify(reply.value.error, Name("datasets"), "get")))
    ensures var kwargs := DatasetArgs(c, datasetId, o)["deleteContents" := Get(o, "delete_contents", Bool(false))];
            var reply := ReplyTo(c, now, Name("datasets"), "delete", kwargs);
            reply.Some? && reply.value.Failed? ==>
              DropDataset(c, now, datasetId, o) ==
                if IsNotFound(reply.value.error) then Success(EmptyDict)
                else Failure(Classify(reply.value.error, Name("datasets"), "delete"))
    ensures var reply := ReplyTo(c, now, Name("tables"), "get", TableArgs(c, tableId, o));
            reply.Some? && reply.value.Failed? ==>
              InfoTable(c, now, tableId, o) ==
                (if IsNotFound(reply.value.error) then Success(EmptyDict)
                 else Failure(Classify(reply.value.error, Name("tables"), "get")))
              && ExistsTable(c, now, tableId, o) ==
                (if IsNotFound(reply.value.error) then Success(false)
                 else Failure(Classify(reply.value.error, Name("tables"), "get")))
    ensures var reply := ReplyTo(c, now, Name("tables"), "delete", TableArgs(c, tableId, o));
            reply.Some? && reply.value.Failed? ==>
              DropTable(c, now, tableId, o) ==
                if IsNotFound(reply.value.error) then Success(EmptyDict)
                else Failure(Classify(reply.value.error, Name("tables"), "delete"))
  {
  }

  /** `exists_*` is whether the `info_*` result is non-empty. */
  lemma ExistsMeansNonEmptyInfo(c: Client, now: nat, datasetId: string, tableId: string, o: Bag)
    ensures ExistsDataset(c, now, datasetId, o).Success? <==> InfoDataset(c, now, datasetId, o).Success?
    ensures ExistsDataset(c, now, datasetId, o).Success? ==>
              (ExistsDataset(c, now, datasetId, o).value <==>
                 Truthy(InfoDataset(c, now, datasetId, o).value))
    ensures ExistsTable(c, now, tableId, o).Success? <==> InfoTable(c, now, tableId, o).Success?
    ensures ExistsTable(c, now, tableId, o).Success? ==>
              (ExistsTable(c, now, tableId, o).value <==> Truthy(InfoTable(c, now, tableId, o).value))
  {
  }

  // ----- listings -----

  const DatasetListing := Listing("datasets", "nextPageToken", false)
  const TableListing := Listing("tables", "nextPageToken", false)
  const RowListing := Listing("rows", "pageToken", true)

  function ShowDatasetsArgs(c: Client, o: Bag): Bag {
    map["projectId" := ProjectOption(c, o), "all" := Get(o, "all", Null),
        "maxResults" := Get(o, "max_results", Int(MaxResults)), "pageToken" := Get(o, "page_token", Null)]
  }

  function DatasetsFetch(c: Client, now: nat): Bag -> Result<Value, Error> {
    (o: Bag) => Request(c, now, Name("datasets"), "list", ShowDatasetsArgs(c, o))
  }

  function DatasetIdOf(dataset: Value): Result<Value, Error> {
    Index2(dataset, "datasetReference", "datasetId")
  }

  function ShowDatasets(c: Client, now: nat, o: Bag, fuel: nat): Result<seq<Value>, Error> {
    Paging.List(DatasetsFetch(c, now), DatasetListing, DatasetIdOf, o, fuel)
  }

  function ShowTablesArgs(c: Client, o: Bag): Bag {
    map["projectId" := ProjectOption(c, o), "datasetId" := DatasetOption(c, o),
        "maxResults" := Get(o, "max_results", Int(MaxResults)), "pageToken" := Get(o, "page_token", Null)]
  }

  function TablesFetch(c: Client, now: nat): Bag -> Result<Value, Error> {
    (o: Bag) => Request(c, now, Name("tables"), "list", ShowTablesArgs(c, o))
  }

  function TableIdOf(table: Value): Result<Value, Error> {
    Index2(table, "tableReference", "tableId")
  }

  function ShowTables(c: Client, now: nat, o: Bag, fuel: nat): Result<seq<Value>, Error> {
    Paging.List(TablesFetch(c, now), TableListing, TableIdOf, o, fuel)
  }

  function DumpTableArgs(c: Client, tableId: string, o: Bag): Bag {
    map["projectId" := ProjectOption(c, o), "datasetId" := DatasetOption(c, o), "tableId" := Str(tableId),
        "maxResults" := Get(o, "max_results", Int(MaxResults)), "pageToken" := Get(o, "page_token", Null),
        "startIndex" := Get(o, "start_index", Null)]
  }

  function DumpFetch(c: Client, now: nat, tableId: string): Bag -> Result<Value, Error> {
    (o: Bag) => Request(c, now, Name("tabledata"), "list", DumpTableArgs(c, tableId, o))
  }

  function RawRow(row: Value): Result<Value, Error> {
    Success(row)
  }

  function DumpTable(c: Client, now: nat, tableId: string, o: Bag, fuel: nat): Result<seq<Value>, Error> {
    Paging.List(DumpFetch(c, now, tableId), RowListing, RawRow, o, fuel)
  }

  /** show_datasets: the dataset ids of every page, in page order, each
      request after the first carrying the previous `nextPageToken`. */
  lemma ShowDatasetsConcatenatesPages(c: Client, now: nat, o: Bag, resps: seq<Value>, fuel: nat)
    requires Pages(DatasetsFetch(c, now), DatasetListing, DatasetIdOf, o, resps) && |resps| <= fuel
    ensures forall i :: 0 <= i < |resps| ==> Readable(resps[i], DatasetListing, DatasetIdOf)
    ensures ShowDatasets(c, now, o, fuel) == Success(AllItems(resps, DatasetListing, DatasetIdOf))
  {
    ListConcatenatesPages(DatasetsFetch(c, now), DatasetListing, DatasetIdOf, o, resps, fuel);
  }

  /** show_tables: the same for table ids. */
  lemma ShowTablesConcatenatesPages(c: Client, now: nat, o: Bag, resps: seq<Value>, fuel: nat)
    requires Pages(TablesFetch(c, now), TableListing, TableIdOf, o, resps) && |resps| <= fuel
    ensures forall i :: 0 <= i < |resps| ==> Readable(resps[i], TableListing, TableIdOf)
    ensures ShowTables(c, now, o, fuel) == Success(AllItems(resps, TableListing, TableIdOf))
  {
    ListConcatenatesPages(TablesFetch(c, now), TableListing, TableIdOf, o, resps, fuel);
  }

  /** dump_table: the rows of every page, in page order. */
  lemma DumpTableConcatenatesPages(c: Client, now: nat, tableId: string, o: Bag, resps: seq<Value>, fuel: nat)
    requires Pages(DumpFetch(c, now, tableId), RowListing, RawRow, o, resps) && |resps| <= fuel
    ensures forall i :: 0 <= i < |resps| ==> Readable(resps[i], RowListing, RawRow)
    ensures DumpTable(c, now, tableId, o, fuel) == Success(AllItems(resps, RowListing, RawRow))
  {
    var fetch := DumpFetch(c, now, tableId);
    ListConcatenatesPages(fetch, RowListing, RawRow, o, resps, fuel);
  }

  /** The request that follows a page of rows carries its `pageToken` and a
      `startIndex` advanced by the page's row count from the previous one
      (0 when there was none). */
  lemma DumpTableFollowUp(c: Client, tableId: string, o: Bag, token: Value, count: nat)
    requires "start_index" !in o || o["start_index"].Int?
    ensures NextOptions(o, token, count, true).Success?
    ensures var kwargs := DumpTableArgs(c, tableId, NextOptions(o, token, count, true).value);
            && kwargs["pageToken"] == token
            && kwargs["startIndex"] == Int((if "start_index" in o then o["start_index"].i else 0) + count)
            && kwargs["maxResults"] == DumpTableArgs(c, tableId, o)["maxResults"]
            && kwargs["tableId"] == Str(tableId)
  {
  }

  /** The request that follows a page of datasets carries its token and is
      otherwise the same request. */
  lemma ShowDatasetsFollowUp(c: Client, o: Bag, token: Value)
    ensures var next := NextOptions(o, token, 0, false);
            next.Success? &&
            ShowDatasetsArgs(c, next.value) == ShowDatasetsArgs(c, o)["pageToken" := token]
  {
  }
}
