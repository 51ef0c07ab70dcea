# python-google-api-clients in Dafny

A model of the library's decision logic for Google's BigQuery and Pub/Sub REST services. The HTTP plumbing is not modelled. The remote service is an oracle: it takes a dispatched invocation and a logical clock value in seconds, and answers with a response body or with an `HttpError(status, message)`.

The model covers these pieces:

- **Dispatcher** (`GoogleApiClient`). `request` walks a resource path through the discovery document and checks the method name. It then keeps only the keyword arguments the method declares, plus `body` and `media_body`. `build` sets the discovery URI.
- **BigQuery client**:
  - the error classifier, whose first matching rule wins;
  - the sniffing of errors embedded in successful bodies (`insertErrors`, `errors`, `status.errors`), including the `skipInvalidRows` rule;
  - the dataset and table helpers, which turn "already exists" or "not found" into `{}`;
  - the paginated listings, including the `start_index` arithmetic;
  - `detect_file_format`;
  - `info_job`, `done_job` and the `wait_job` poll;
  - `load`'s data-shape dispatch and configuration, and `extract`;
  - `get_query_results` and `select`, with their row flattening.
- **Pub/Sub client**:
  - the two-rule classifier and the resource-name strings;
  - the topic and subscription helpers;
  - the listings and their last-segment extraction;
  - `publish` with its base 64 data (section 4 of RFC 4648);
  - `pull`'s defaults, and `acknowledge`'s re-wrapping of errors.

Python values are one datatype, `Values.Value`. Subscripting and iteration are partial functions that fail with the exception Python would raise (`KeyError`, `TypeError`, `IndexError`). The source recurses without a bound: in listings, and in `wait_job` without an alarm. That recursion takes a `fuel` bound here. Running out of it is the model-only error `OutOfFuel`.

Modules: `Wrappers`, `Values`, `Errors`, `Text`, `Dispatcher`, `Paging`, `Base64`, `BigQuery`, `FileFormats`, `BigQueryJobs`, `PubSub`.

## Model

| member | source | states |
|---|---|---|
| Dispatcher.DiscoveryUri | google_api_clients/__init__.py:42 | the URI is the fixed prefix, the API name, '/', the version and "/rest" |
| Dispatcher.DiscoveryUriInjective | google_api_clients/__init__.py:42 | different API names or versions give different discovery URIs |
| Dispatcher.SingleNameIsOnePath | google_api_clients/__init__.py:50-53 | a single resource name dispatches exactly like the one-element path |
| Dispatcher.FirstMissingSegment | google_api_clients/__init__.py:55-62 | the first segment missing at its level is the one ResourceNameError names; later segments are not examined |
| Dispatcher.UnknownMethod | google_api_clients/__init__.py:65-66 | a resolved resource that lacks the method fails with MethodNameError(method) |
| Dispatcher.FilterParams | google_api_clients/__init__.py:70-80 | the bag holds exactly the declared keys the caller passed, plus `body`/`media_body` when passed, with their values unchanged |
| Dispatcher.DispatchForwards | google_api_clients/__init__.py:70-80 | a successful dispatch forwards a key iff the caller passed it and it is declared or is `body`/`media_body`; values are unchanged |
| Dispatcher.NoRequiredParameterCheck | google_api_clients/__init__.py:71-75 | a method whose parameters are all missing still dispatches, with an empty bag |
| Dispatcher.DispatchIsLocal | google_api_clients/__init__.py:55-80 | a failed dispatch is ResourceNameError, MethodNameError(method) or one of the KeyErrors, never a transport error |
| Dispatcher.Call | google_api_clients/__init__.py:82 | a dispatch failure propagates; otherwise the oracle's response is returned, or its HttpError raised |
| Dispatcher.GoogleApiClient.constructor | google_api_clients/__init__.py:14-18 | the four options are stored (None when absent); no credentials or document yet |
| Dispatcher.GoogleApiClient.Auth | google_api_clients/__init__.py:35-39 | a configured service account gives service-account credentials, otherwise application-default ones |
| Dispatcher.GoogleApiClient.Build | google_api_clients/__init__.py:41-47 | records the discovery URI of the API and version and the fetched document |
| Dispatcher.GoogleApiClient.Request | google_api_clients/__init__.py:49-80 | `request` up to the remote call is exactly `Dispatch` of the stored document; before `build` it raises AttributeError |
| Dispatcher.Walk | google_api_clients/__init__.py:55-63 | the `for` loop over the path returns what the recursive walk `ResolveIn` returns: the resource reached, or the first failure |
| Dispatcher.FillParameters | google_api_clients/__init__.py:70-80 | the copying loop builds exactly the bag `FilterParams` describes |
| Paging.PaginateLoop | google_api_clients/bigquery/__init__.py:131-133 | the accumulating loop returns what the recursive listing returns |
| Paging.NextOptions | google_api_clients/bigquery/__init__.py:236-238 | the next options hold the token as `page_token`; for row listings `start_index` is the old value (0 if absent) plus the page's row count; other options are kept |
| Paging.ListConcatenatesPages | google_api_clients/bigquery/__init__.py:120-134 | over n chained responses the listing makes n requests, each after the first carrying the previous token, and returns every page's items in page order |
| Paging.MissingItemKeyStops | google_api_clients/bigquery/__init__.py:128-129 | a page without the item key contributes `[]` and ends the listing, even when it carries a token |
| Paging.RepeatedPageNeverEnds | google_api_clients/pubsub/__init__.py:163-169 | a listing whose follow-up request gets the same page back never ends, whatever its bound |
| Errors.MapItems | google_api_clients/bigquery/__init__.py:466-468 | mapping succeeds iff every item succeeds, with the results in order; a failure is the first failing item's error |
| Errors.MapItemsStopsAt | google_api_clients/bigquery/__init__.py:466-468 | the first failing item's error is the mapping's error |
| BigQuery.Classify | google_api_clients/bigquery/__init__.py:56-71 | each exception kind holds iff its rule is the first to match (409/"already exists", 404/"not found", 400/"required parameter is missing", 400/"still in use" on datasets.delete, 4xx, 5xx); anything else stays an HttpError; the cause is kept |
| BigQuery.ScanRaisesFirst | google_api_clients/bigquery/__init__.py:42-49 | the row-error scan raises iff some row error raises, and then raises the first one, wrapped in BigQueryError |
| BigQuery.NoSuchFieldAlwaysRaises | google_api_clients/bigquery/__init__.py:44-45 | a "no such field" message raises BigQueryError even with `skipInvalidRows` |
| BigQuery.SkipInvalidRowsRaisesOnlyUnknownFields | google_api_clients/bigquery/__init__.py:44-47 | with `skipInvalidRows` True, the scan raises iff some message mentions "no such field" |
| BigQuery.NoSkipRaisesOnAnyMessage | google_api_clients/bigquery/__init__.py:43-49 | without it, the scan raises iff some row error has a message; one without a message never raises |
| BigQuery.SniffOrder | google_api_clients/bigquery/__init__.py:40-55 | bodies are checked in the order `insertErrors`, `errors`, `status.errors`; with none of them the body is clean |
| BigQuery.RequestOutcome | google_api_clients/bigquery/__init__.py:37-73 | a transport error is raised classified; a clean body is returned unchanged |
| BigQuery.SwallowAlreadyExists | google_api_clients/bigquery/__init__.py:90-93 | AlreadyExistsError becomes `{}`; every other outcome is unchanged |
| BigQuery.SwallowNotFound | google_api_clients/bigquery/__init__.py:101-104 | NotFoundError becomes `{}`; every other outcome is unchanged |
| BigQuery.CreateIsIdempotent | google_api_clients/bigquery/__init__.py:75-93 | `create_dataset`/`create_table` return `{}` when the service says it already exists; any other transport error is raised classified |
| BigQuery.DropAndInfoSwallowNotFound | google_api_clients/bigquery/__init__.py:95-118 | `drop_*`/`info_*` return `{}` on a not-found reply, so `exists_*` is false; any other transport error is raised classified |
| BigQuery.ExistsMeansNonEmptyInfo | google_api_clients/bigquery/__init__.py:106-108 | `exists_*` succeeds iff `info_*` does, and is true iff that result is truthy |
| BigQuery.ShowDatasetsConcatenatesPages | google_api_clients/bigquery/__init__.py:120-134 | `show_datasets` returns the dataset ids of every page in page order |
| BigQuery.ShowDatasetsFollowUp | google_api_clients/bigquery/__init__.py:131-133 | the follow-up request is the same request with the page's token as `pageToken` |
| BigQuery.ShowTablesConcatenatesPages | google_api_clients/bigquery/__init__.py:194-208 | `show_tables` returns the table ids of every page in page order |
| BigQuery.DumpTableConcatenatesPages | google_api_clients/bigquery/__init__.py:223-240 | `dump_table` returns the rows of every page in page order |
| BigQuery.DumpTableFollowUp | google_api_clients/bigquery/__init__.py:236-238 | the follow-up carries the token and a `startIndex` advanced by the page's row count from the previous value or 0 |
| FileFormats.DetectFileFormat | google_api_clients/bigquery/__init__.py:242-262 | the step-by-step reassignment returns `Detect` of the name |
| FileFormats.CsvSuffix | google_api_clients/bigquery/__init__.py:250-252 | a name with a non-empty base whose last character is not a newline, followed by `.csv` or `.csv.gz` in any letter case, is (CSV, ',', GZIP iff `.gz`) |
| FileFormats.TsvSuffix | google_api_clients/bigquery/__init__.py:253-255 | `.tsv` / `.tsv.gz` give (CSV, tab, GZIP iff `.gz`) |
| FileFormats.JsonSuffix | google_api_clients/bigquery/__init__.py:256-257 | `.json` / `.json.gz` give (NEWLINE_DELIMITED_JSON, None, GZIP iff `.gz`) |
| FileFormats.AvroSuffix | google_api_clients/bigquery/__init__.py:258-260 | `.avro` / `.avro.gz` give (AVRO, None, NONE) |
| FileFormats.CompressionRule | google_api_clients/bigquery/__init__.py:245-260 | compression is GZIP iff the name ends in `.gz` and the format is not AVRO; no format means no delimiter |
| FileFormats.UnknownExtensionKeepsGzip | google_api_clients/bigquery/__init__.py:247-248 | `x.txt.gz` gives (None, None, GZIP) |
| FileFormats.BareExtensionIsUnknown | google_api_clients/bigquery/__init__.py:250 | `.csv` alone has nothing before the extension and is not recognised |
| FileFormats.FinalNewlineIsIgnored | google_api_clients/bigquery/__init__.py:250 | `$` also matches before a final newline, so `DATA.CSV\n` is CSV |
| FileFormats.DetectTestCases | test/test_bigquery_detect_file_type.py:21-40 | the uncompressed names of the detection tests get the formats the tests expect |
| FileFormats.DetectGzipTestCases | test/test_bigquery_detect_file_type.py:42-62 | the gzipped names of the detection tests get the formats and the GZIP compression the tests expect |
| BigQueryJobs.DoneJobIsStateDone | google_api_clients/bigquery/__init__.py:271-276 | `done_job` is true iff the job's `status.state` is DONE, and fails iff reading the job or its state fails |
| BigQueryJobs.PollsWithin | google_api_clients/bigquery/__init__.py:283-289 | a positive alarm of t seconds lets through the polls at offsets 0, 2, … below t |
| BigQueryJobs.PollLoop | google_api_clients/bigquery/__init__.py:284-289 | the `while True` loop, given its number of reads, returns what `Poll` returns: the first DONE job with its clock value, none, or the first error |
| BigQueryJobs.WaitJobLoop | google_api_clients/bigquery/__init__.py:278-289 | `wait_job` with its alarm returns exactly `WaitJob` |
| BigQueryJobs.PollFindsFirstDone | google_api_clients/bigquery/__init__.py:284-288 | a poll that finds a job returns the first one read as DONE, at its clock value, with every earlier read in another state |
| BigQueryJobs.PollReturnsFirstDone | google_api_clients/bigquery/__init__.py:282-289 | conversely, when a read within the budget sees DONE and every earlier read saw another state, polling returns that read's job at its clock value |
| BigQueryJobs.PollFindsNothingPending | google_api_clients/bigquery/__init__.py:284-289 | when no read sees DONE, polling finds nothing |
| BigQueryJobs.WaitJobReturnsFirstDone | google_api_clients/bigquery/__init__.py:278-289 | with a positive timeout, `wait_job` returns the first job read as DONE, polled before the timeout |
| BigQueryJobs.WaitJobFindsFirstDone | google_api_clients/bigquery/__init__.py:271-289 | conversely, when the k-th poll (2k below the timeout) sees DONE and every earlier poll another state, wait_job returns that job |
| BigQueryJobs.WaitJobTimesOut | google_api_clients/bigquery/__init__.py:279-283 | with no DONE state before the timeout, `wait_job` raises JobWaitTimeoutError("timeout: <t>sec") |
| BigQueryJobs.DefaultTimeoutPolls | google_api_clients/bigquery/__init__.py:29 | the default 600-second timeout allows 300 polls |
| BigQueryJobs.AllStrings | google_api_clients/bigquery/__init__.py:306 | `'\n'.join` accepts the items iff every one is a string, and then joins those strings; otherwise TypeError |
| BigQueryJobs.LoadShapes | google_api_clients/bigquery/__init__.py:297-319 | the eight data shapes of `load`: what each uploads or names as source URIs, which format it detects, and when IndexError, TypeError or LoadError is raised |
| BigQueryJobs.LoadOptionsOverride | google_api_clients/bigquery/__init__.py:331-344 | the caller's `source_format`, `field_delimiter` and `source_uris` override the detected values; a schema is sent iff given |
| BigQueryJobs.FinishWaitsUnlessAsync | google_api_clients/bigquery/__init__.py:357-363 | `async=True` returns the inserted job's id at once; otherwise the job returned by `wait_job`, or its error |
| BigQueryJobs.ExtractNeedsADestination | google_api_clients/bigquery/__init__.py:407-413 | an empty destination list raises IndexError before any request |
| BigQueryJobs.ExtractDestinations | google_api_clients/bigquery/__init__.py:407-420 | a scalar destination becomes a one-element list; compression, format and field delimiter come from the first destination, each unless the caller's option overrides it; `printHeader` defaults to True |
| BigQueryJobs.FlattenRowIsColumnValues | google_api_clients/bigquery/__init__.py:468 | a row becomes the list of its columns' `v` values, in column order |
| BigQueryJobs.FlattenRowsLoop | google_api_clients/bigquery/__init__.py:466-468 | the appending loop returns the flattened rows, or the first row's error |
| BigQueryJobs.QueryContinuation | google_api_clients/bigquery/__init__.py:469-472 | a results page with a `pageToken` continues with the same job, the token, and `start_index` advanced by the page's row count |
| BigQueryJobs.QueryPagesConcatenate | google_api_clients/bigquery/__init__.py:463-473 | the results listing returns the flattened rows of every page in page order |
| BigQueryJobs.SelectCompleteQuery | google_api_clients/bigquery/__init__.py:493-510 | a query answered complete with a page token returns its flattened rows followed by the flattened rows of every results page read from `start_index = len(rows)`, in order |
| BigQueryJobs.SelectCompleteSinglePage | google_api_clients/bigquery/__init__.py:493-510 | a query answered complete without a page token returns exactly its flattened rows, and [] when it has no `rows` |
| BigQueryJobs.SelectDropsRowsOfSlowQuery | google_api_clients/bigquery/__init__.py:498-502 | as written, a query still running when `jobs.query` answers returns `[]` |
| BigQueryJobs.FixedSelectReadsRowsAfterWait | google_api_clients/bigquery/__init__.py:498-510 | corrected, the same query returns the rows of the results pages read after the wait |
| BigQueryJobs.QueryStepDropsRowsOfSlowJob | google_api_clients/bigquery/__init__.py:460-464 | as written, a results page of an incomplete job yields no rows and ends the listing |
| BigQueryJobs.FixedQueryStepReadsRowsAfterWait | google_api_clients/bigquery/__init__.py:460-473 | corrected, the page is the results re-read after the wait |
| PubSub.Classify | google_api_clients/pubsub/__init__.py:21-31 | NotFoundError iff 404 and "not found"; AlreadyExistsError iff 409 and "already exists"; anything else stays an HttpError (no 4xx/5xx wrapping); the cause is kept |
| PubSub.RequestOutcome | google_api_clients/pubsub/__init__.py:21-31 | a transport error is raised classified; any body is returned as sent |
| PubSub.ProjectOf | google_api_clients/pubsub/__init__.py:34-36 | the project is the `project_id` option if given and the client's otherwise; a non-string raises TypeError |
| PubSub.NamesRoundTrip | google_api_clients/pubsub/__init__.py:36 | the last segment of `projects/p/topics/t` or `projects/p/subscriptions/s` is the short name |
| PubSub.TopicPathInjective | google_api_clients/pubsub/__init__.py:36 | different projects or topics (without '/') give different topic names |
| PubSub.Swallow | google_api_clients/pubsub/__init__.py:38-41 | the expected error becomes `{}`; every other outcome is unchanged |
| PubSub.HelpersSwallowExpectedErrors | google_api_clients/pubsub/__init__.py:33-135 | create helpers return `{}` on already-exists and drop/info helpers on not-found, so `exists_*` is false; other transport errors are raised classified |
| PubSub.ExistsMeansNonEmptyInfo | google_api_clients/pubsub/__init__.py:43-44 | `exists_*` succeeds iff `info_*` does, and is true iff that result is truthy |
| PubSub.ProjectMustBeAString | google_api_clients/pubsub/__init__.py:34-36 | a non-string `project_id` raises TypeError before any request |
| PubSub.ShortName | google_api_clients/pubsub/__init__.py:165 | a string name gives its last '/' segment; anything else has no `split` |
| PubSub.ListTopicsConcatenatesPages | google_api_clients/pubsub/__init__.py:67-82 | `list_topics` returns the short names of every page in page order |
| PubSub.ListSubscriptionsConcatenatesPages | google_api_clients/pubsub/__init__.py:137-152 | `list_subscriptions` returns the short names of every page in page order |
| PubSub.ListedNameIsShortName | google_api_clients/pubsub/__init__.py:77 | a listed topic named by the name builder is listed as its short name |
| PubSub.ListFollowUp | google_api_clients/pubsub/__init__.py:78-80 | the follow-up request is the same request with the token as `pageToken` |
| PubSub.TopicSubscriptionsIgnoresToken | google_api_clients/pubsub/__init__.py:156-158 | as written, the request after a page is the request made before it |
| PubSub.ListTopicSubscriptionsNeverEnds | google_api_clients/pubsub/__init__.py:154-170 | as written, a first page with subscriptions and a token makes the listing run without end |
| PubSub.FixedTopicSubscriptionsSendsToken | google_api_clients/pubsub/__init__.py:156-158 | corrected, the request after a page carries that page's token |
| PubSub.FixedListTopicSubscriptionsConcatenatesPages | google_api_clients/pubsub/__init__.py:154-170 | corrected, the listing returns `{}` for a missing topic and otherwise the short names of every page in page order |
| PubSub.EncodeMessages | google_api_clients/pubsub/__init__.py:94 | one `{'data': …}` entry per message, in order, holding the base 64 of the message's bytes |
| PubSub.PublishDataDecodes | google_api_clients/pubsub/__init__.py:84-97 | a list is published as given and a scalar as one message; decoding each entry's data gives back the message's bytes, so a string or integer message is recovered |
| Base64.DecodeEncode | google_api_clients/pubsub/__init__.py:94 | decoding the base 64 encoding of any bytes gives the bytes back |
| PubSub.PullDefaults | google_api_clients/pubsub/__init__.py:172-181 | `returnImmediately` defaults to True and `maxMessages` to 100000 unless the caller overrides them |
| PubSub.RewrapAcknowledge | google_api_clients/pubsub/__init__.py:196-201 | an unclassified HttpError becomes AcknowledgeError with it attached; everything else is unchanged |
| PubSub.AcknowledgeOutcome | google_api_clients/pubsub/__init__.py:183-201 | ack ids are sent in order (a scalar as a one-element list); not-found raises NotFoundError; other unclassified transport errors raise AcknowledgeError |
| PubSub.Ack | google_api_clients/pubsub/__init__.py:183-204 | `ack` behaves as `acknowledge`: a non-string project raises TypeError before anything is sent, a success returns the body, not-found raises NotFoundError, and any other unclassified transport error raises AcknowledgeError |
| Text.LastSegment | google_api_clients/pubsub/__init__.py:165 | `s.split('/')[-1]` is the suffix of `s` after its last '/', and holds no '/' |
| Text.LastSegmentAfterSlash | google_api_clients/pubsub/__init__.py:77 | `(prefix + "/" + name).split('/')[-1]` is `name` when `name` has no '/' |
| Text.NatToStringRoundTrip | google_api_clients/bigquery/__init__.py:281 | the decimal text of a number reads back as that number |

## Left out

- Credential acquisition is I/O and is not modelled: `auth_using_gcloud`, and `auth_using_service_account` with its key-file read. `Auth` records only which kind of credential is chosen.
- `build`'s HTTP fetch of the discovery document, `json.loads`, and `discovery.build` are not modelled. The fetched document is a parameter of `Build`.
- The `getattr(service, r)()` proxy chain and `.execute()` are replaced by the remote oracle of `Dispatcher.Service`.
- The generated client method's own required-parameter check is not modelled. `googleapiclient` raises TypeError locally, before any HTTP call, when a required parameter is missing (as in `request('datasets', 'list')`). The oracle's replies are only responses or HttpErrors, so this error path is lost.
- The media objects (`MediaIoBaseUpload`, `MediaFileUpload`, `StringIO`) and `json.dumps` are kept opaque. `Values.Upload` records only what an upload is made of.
- `os.path.exists` is the parameter `pathExists` of `BigQueryJobs.LoadSource`.
- `signal.alarm`, SIGALRM and `time.sleep` become a logical clock. A poll happens at a clock value and a sleep adds two.
- BigQueryJobs.WaitJob: a timeout of zero or below sets no alarm, so the model polls at most `fuel` times and then gives `OutOfFuel`. The source polls forever; Python 2's `alarm(0)` disables the alarm, and a negative value wraps to a very large one.
- Unbounded recursion (listings, query pages) is bounded by `fuel`. The model does not capture the recursion-depth error Python raises on very long listings.
- A regular-expression engine is not modelled. The patterns reduce to predicates: ASCII case-insensitive substring search (`Text.ContainsIgnoreCase`) and the suffix test in `FileFormats.HasSuffix`.
- Python 2 `unicode` strings are not modelled. `Value.Str` is a byte string (Python 2 `str`).
- Floating-point numbers are not modelled. JSON numbers are integers, and no client inspects a float.
- Values.Has: the model's `key in v` is false whenever `v` is not a dict. Python's `in` searches a string for a substring and a list for an element. The model misses these cases:
  - A string `status` that contains "errors" makes `res['status']['errors']` (google_api_clients/bigquery/__init__.py:53) raise TypeError. The model returns the body as clean.
  - A string row error that contains "message" raises TypeError at line 43. The model raises nothing.
  - The same holds for every `'rows'`, `'pageToken'` and `'nextPageToken' in res` test on a non-dict response.
- `Errors.Items`: iterating anything but a list raises TypeError in the model.
  - The source would iterate a dict's keys or a string's characters.
  - For a non-empty dict or string, the next subscript then raises TypeError anyway.
  - For an empty dict or string, the source returns an empty result where the model raises.
- Dispatcher.Dispatch: requires `Dispatchable`. An empty resource list is excluded when the top-level `resources` table has an entry literally called "methods". In that case the source would treat a resource entry as a methods table.
- PubSub.Publish: requires every string message to be a byte string.
  - The `repr` of a container message is left to the parameter `containerText`.
  - `str()` of the scalars is modelled: strings, integers, booleans and None.
- `insert` and `insert_from_select` are outside the modelled core. The `insertErrors` check that `insert` relies on is modelled in `BigQuery.SniffBody`.
- google_api_clients/pubsub/errors.py is not part of this model. Its classes are taken to be plain `Exception` subclasses, like those of google_api_clients/bigquery/errors.py. So `acknowledge` re-wraps only an unclassified HttpError.
- Topic, subscription, table and dataset name arguments are strings in the model. In the source, a non-string name would raise TypeError on concatenation.
- `query` is `select` under another name (google_api_clients/bigquery/__init__.py:512-513), so the model has only `BigQueryJobs.Select`.
- The client constructors (`BigQuery.__init__`, `PubSub.__init__`) are reduced to the `Client` datatypes: their service, default project and, for BigQuery, default dataset.

## Findings

| source | as written | input that shows it | evidently intended | confidence | as-written member | corrected member |
|---|---|---|---|---|---|---|
| google_api_clients/bigquery/__init__.py:498-502 | after `jobComplete` is False, `res` is replaced by the `jobs.get` job resource that `wait_job` returns, and the rows are read from it | a `jobs.query` reply `{jobReference: {jobId: j}, jobComplete: False}`, then a DONE job resource without `rows` | read the query results again once the job is DONE | medium, not executed | BigQueryJobs.SelectDropsRowsOfSlowQuery | BigQueryJobs.FixedSelectReadsRowsAfterWait |
| google_api_clients/bigquery/__init__.py:460-464 | the same replacement in `get_query_results`: an incomplete job's page yields `[]` | a `getQueryResults` reply with `jobComplete: False`, then a DONE job resource without `rows` | re-request `getQueryResults` after waiting | medium, not executed | BigQueryJobs.QueryStepDropsRowsOfSlowJob | BigQueryJobs.FixedQueryStepReadsRowsAfterWait |
| google_api_clients/pubsub/__init__.py:156-158 | the kwargs hold only the topic; the `page_token` set at line 167 is never sent, so the follow-up request repeats the first | a first reply `{subscriptions: [...], nextPageToken: t}` | send `pageToken`, as `list_subscriptions` does | high, not executed | PubSub.ListTopicSubscriptionsNeverEnds | PubSub.FixedListTopicSubscriptionsConcatenatesPages |
