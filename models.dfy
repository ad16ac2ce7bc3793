/**
 * Behaviour and wire shapes from pkg/mlflow/models.go: the structured API
 * error with its text and accessors, `IsAPIError`, and the request structs
 * with the JSON objects their `json:"..."` tags produce.
 *
 * Every request struct has an `EncodeX` function (what `json.Marshal` sees, as a
 * key-to-value map) and a reference decoder that fills the struct the way
 * `json.Unmarshal` does (a missing key leaves the zero value); the round-trip
 * lemmas show that `omitempty` drops only what decoding restores.
 */
module Models {
  import opened Wrappers
  import opened GoText
  import opened Json
  import opened UrlQuery

  // ---------------------------------------------------------------------------
  // Errors

  /** The `{error_code, message}` body the service sends with a failure. */
  datatype ErrorResponse = ErrorResponse(errorCode: string, message: string)

  const ErrorTextPrefix := "MLflow API error ["

  /**
   * Reads `<prefix><status><sep><detail>` back into the status and the
   * detail; the status text ends at the first `sep[0]`.
   */
  function ReadStatusText(prefix: string, sep: string, s: string): Option<(int, string)>
    requires sep != []
  {
    var n := |prefix|;
    if |s| < n || s[..n] != prefix then None
    else
      var rest := s[n..];
      var i := IndexOf(rest, sep[0]);
      if i + |sep| > |rest| || rest[i..i + |sep|] != sep then None
      else
        var status :- ParseInt(rest[..i]);
        Some((status, rest[i + |sep|..]))
  }

  /** A status printed with `%d` between a prefix and a separator that is not part of a number reads back. */
  lemma ReadStatusTextOf(prefix: string, sep: string, status: int, detail: string)
    requires sep != [] && !IsDigit(sep[0]) && sep[0] != '-'
    ensures ReadStatusText(prefix, sep, prefix + FormatInt(status) + sep + detail) == Some((status, detail))
  {
    var digits := FormatInt(status);
    var s := prefix + digits + sep + detail;
    var n := |prefix|;
    assert s[..n] == prefix;
    var rest := s[n..];
    assert rest == digits + (sep + detail);
    IndexOfAppend(digits, sep + detail, sep[0]);
    var i := IndexOf(rest, sep[0]);
    assert i == |digits|;
    assert rest[..i] == digits;
    assert rest[i..i + |sep|] == sep;
    assert rest[i + |sep|..] == detail;
    ParseFormatInt(status);
  }

  /** Whatever the reader accepts is a status printed with `%d` between the prefix and the separator. */
  lemma ReadStatusTextCanonical(prefix: string, sep: string, s: string, status: int, detail: string)
    requires sep != []
    requires ReadStatusText(prefix, sep, s) == Some((status, detail))
    ensures s == prefix + FormatInt(status) + sep + detail
  {
    var n := |prefix|;
    var rest := s[n..];
    var i := IndexOf(rest, sep[0]);
    FormatParseInt(rest[..i], status);
    assert rest == rest[..i] + rest[i..i + |sep|] + rest[i + |sep|..];
    assert s == s[..n] + rest;
  }

  /** Reads `MLflow API error [<status>]: <detail>` back into the status and the detail. */
  function ReadErrorText(s: string): Option<(int, string)> {
    ReadStatusText(ErrorTextPrefix, "]: ", s)
  }

  lemma ReadFormattedErrorText(status: int, detail: string)
    ensures ReadErrorText(ErrorTextPrefix + FormatInt(status) + "]: " + detail) == Some((status, detail))
  {
    ReadStatusTextOf(ErrorTextPrefix, "]: ", status, detail);
  }

  /**
   * The reader accepts only the text `Error()` formats: whatever it reads back
   * as a status and a detail is that status printed with `%d` in brackets,
   * then the detail.
   */
  lemma ReadErrorTextCanonical(s: string, status: int, detail: string)
    requires ReadErrorText(s) == Some((status, detail))
    ensures s == ErrorTextPrefix + FormatInt(status) + "]: " + detail
  {
    ReadStatusTextCanonical(ErrorTextPrefix, "]: ", s, status, detail);
  }

  /** The `APIError` record `doRequest` and `doTextRequest` build for a non-2xx response. */
  datatype APIError = APIError(statusCode: int, message: string, responseBody: Bytes, errorCode: string) {

    /**
     * `Error()`: the status in brackets, then the code and message when there
     * is a code, the message alone when there is only a message, and the raw
     * body when both are empty.
     */
    function Error(): (s: string)
      ensures ReadErrorText(s) == Some((statusCode,
        if errorCode != "" then errorCode + " - " + message
        else if message != "" then message
        else Text(responseBody)))
    {
      var detail :=
        if errorCode != "" then errorCode + " - " + message
        else if message != "" then message
        else Text(responseBody);
      ReadFormattedErrorText(statusCode, detail);
      ErrorTextPrefix + FormatInt(statusCode) + "]: " + detail
    }

    function GetStatusCode(): (r: int)
      ensures r == statusCode
    {
      statusCode
    }

    function GetResponseBody(): (r: Bytes)
      ensures r == responseBody
    {
      responseBody
    }

    /** The body as a string: the same bytes, so it determines the body. */
    function GetResponseBodyString(): (r: string)
      ensures |r| == |responseBody|
      ensures forall i :: 0 <= i < |r| ==> r[i] as int == responseBody[i] as int
    {
      Text(responseBody)
    }

    function GetErrorCode(): (r: string)
      ensures r == errorCode
    {
      errorCode
    }

    function GetMessage(): (r: string)
      ensures r == message
    {
      message
    }
  }

  /** A non-nil Go `error`: either an `*APIError` or any other error, known by its text. */
  datatype GoError = ApiError(api: APIError) | TextError(text: string)

  /** `err.Error()` for any error the client returns. */
  function ErrorString(e: GoError): string {
    match e
    case ApiError(a) => a.Error()
    case TextError(t) => t
  }

  /** `IsAPIError(err)`: the `*APIError` inside `err`, if that is what it is (`None` is Go's nil). */
  function IsAPIError(err: Option<GoError>): (r: (Option<APIError>, bool))
    ensures r.1 <==> err.Some? && err.value.ApiError?
    ensures r.1 ==> r.0 == Some(err.value.api)
    ensures !r.1 ==> r.0 == None
  {
    if err.None? then (None, false)
    else match err.value
      case ApiError(a) => (Some(a), true)
      case TextError(_) => (None, false)
  }


  // ---------------------------------------------------------------------------
  // Request structs and their JSON shape. Each `EncodeX` is what
  // `json.Marshal` writes for the struct; each `DecodeX` fills the struct back
  // the way `json.Unmarshal` does.

  /**
   * A `{key, value}` pair: the shape shared by ExperimentTag, RunTag,
   * RegisteredModelTag, ModelVersionTag, DatasetTag, ModelInputTag and Param
   * (models.go:17-20 and the like).
   */
  datatype Tag = Tag(key: string, value: string)

  function EncodeTag(t: Tag): (j: Json)
    ensures j.JObject? && "key" in j.fields && "value" in j.fields
    ensures j.fields.Keys <= {"key", "value"}
  {
    JObject(map["key" := JString(t.key), "value" := JString(t.value)])
  }

  function DecodeTag(j: Json): Option<Tag> {
    if !j.JObject? then None
    else
      var key :- StringField(j.fields, "key");
      var value :- StringField(j.fields, "value");
      Some(Tag(key, value))
  }

  lemma TagsRoundTrip()
    ensures forall t :: DecodeTag(EncodeTag(t)) == Some(t)
  {
  }

  /** CreateExperimentRequest (models.go:23-27). */
  datatype CreateExperimentRequest = CreateExperimentRequest(name: string, artifactLocation: string, tags: seq<Tag>)

  function EncodeCreateExperimentRequest(r: CreateExperimentRequest): (j: Json)
    ensures j.JObject? && "name" in j.fields
    ensures "artifact_location" in j.fields <==> r.artifactLocation != ""
    ensures "tags" in j.fields <==> r.tags != []
    ensures j.fields.Keys <= {"name", "artifact_location", "tags"}
  {
    JObject(map["name" := JString(r.name)]
            + OmitEmpty(map["artifact_location" := JString(r.artifactLocation),
                            "tags" := Items(r.tags, EncodeTag)]))
  }

  function DecodeCreateExperimentRequest(j: Json): Option<CreateExperimentRequest> {
    if !j.JObject? then None
    else
      var name :- StringField(j.fields, "name");
      var artifactLocation :- StringField(j.fields, "artifact_location");
      var tags :- ItemsField(j.fields, "tags", DecodeTag);
      Some(CreateExperimentRequest(name, artifactLocation, tags))
  }

  lemma CreateExperimentRequestRoundTrip(r: CreateExperimentRequest)
    ensures DecodeCreateExperimentRequest(EncodeCreateExperimentRequest(r)) == Some(r)
  {
    TagsRoundTrip();
    ReadOmitEmptyItems(EncodeCreateExperimentRequest(r).fields, "tags", r.tags, EncodeTag, DecodeTag);
  }

  /** CreateRunRequest (models.go:131-137). */
  datatype CreateRunRequest = CreateRunRequest(experimentId: string, userId: string, runName: string, startTime: int, tags: seq<Tag>)

  function EncodeCreateRunRequest(r: CreateRunRequest): (j: Json)
    ensures j.JObject? && "experiment_id" in j.fields
    ensures "user_id" in j.fields <==> r.userId != ""
    ensures "run_name" in j.fields <==> r.runName != ""
    ensures "start_time" in j.fields <==> r.startTime != 0
    ensures "tags" in j.fields <==> r.tags != []
    ensures j.fields.Keys <= {"experiment_id", "user_id", "run_name", "start_time", "tags"}
  {
    JObject(map["experiment_id" := JString(r.experimentId)]
            + OmitEmpty(map["user_id" := JString(r.userId),
                            "run_name" := JString(r.runName),
                            "start_time" := JInt(r.startTime),
                            "tags" := Items(r.tags, EncodeTag)]))
  }

  function DecodeCreateRunRequest(j: Json): Option<CreateRunRequest> {
    if !j.JObject? then None
    else
      var experimentId :- StringField(j.fields, "experiment_id");
      var userId :- StringField(j.fields, "user_id");
      var runName :- StringField(j.fields, "run_name");
      var startTime :- IntField(j.fields, "start_time");
      var tags :- ItemsField(j.fields, "tags", DecodeTag);
      Some(CreateRunRequest(experimentId, userId, runName, startTime, tags))
  }

  lemma CreateRunRequestRoundTrip(r: CreateRunRequest)
    ensures DecodeCreateRunRequest(EncodeCreateRunRequest(r)) == Some(r)
  {
    TagsRoundTrip();
    ReadOmitEmptyItems(EncodeCreateRunRequest(r).fields, "tags", r.tags, EncodeTag, DecodeTag);
  }

  /** LogMetricRequest (models.go:145-151). */
  datatype LogMetricRequest = LogMetricRequest(runId: string, key: string, value: Float64, timestamp: int, step: int)

  function EncodeLogMetricRequest(r: LogMetricRequest): (j: Json)
    ensures j.JObject? && "run_id" in j.fields && "key" in j.fields && "value" in j.fields
    ensures "timestamp" in j.fields <==> r.timestamp != 0
    ensures "step" in j.fields <==> r.step != 0
    ensures j.fields.Keys <= {"run_id", "key", "value", "timestamp", "step"}
  {
    JObject(map["run_id" := JString(r.runId), "key" := JString(r.key), "value" := JFloat(r.value)]
            + OmitEmpty(map["timestamp" := JInt(r.timestamp), "step" := JInt(r.step)]))
  }

  function DecodeLogMetricRequest(j: Json): Option<LogMetricRequest> {
    if !j.JObject? then None
    else
      var runId :- StringField(j.fields, "run_id");
      var key :- StringField(j.fields, "key");
      var value :- FloatField(j.fields, "value");
      var timestamp :- IntField(j.fields, "timestamp");
      var step :- IntField(j.fields, "step");
      Some(LogMetricRequest(runId, key, value, timestamp, step))
  }

  lemma LogMetricRequestRoundTrip(r: LogMetricRequest)
    ensures DecodeLogMetricRequest(EncodeLogMetricRequest(r)) == Some(r)
  {
  }

  /** LogParamRequest and SetTagRequest (models.go:154-165): three plain string fields. */
  datatype RunKeyValueRequest = RunKeyValueRequest(runId: string, key: string, value: string)

  type LogParamRequest = RunKeyValueRequest
  type SetTagRequest = RunKeyValueRequest

  function EncodeRunKeyValueRequest(r: RunKeyValueRequest): (j: Json)
    ensures j.JObject? && "run_id" in j.fields && "key" in j.fields && "value" in j.fields
    ensures j.fields.Keys <= {"run_id", "key", "value"}
  {
    JObject(map["run_id" := JString(r.runId), "key" := JString(r.key), "value" := JString(r.value)])
  }

  function DecodeRunKeyValueRequest(j: Json): Option<RunKeyValueRequest> {
    if !j.JObject? then None
    else
      var runId :- StringField(j.fields, "run_id");
      var key :- StringField(j.fields, "key");
      var value :- StringField(j.fields, "value");
      Some(RunKeyValueRequest(runId, key, value))
  }

  lemma RunKeyValueRequestRoundTrip(r: RunKeyValueRequest)
    ensures DecodeRunKeyValueRequest(EncodeRunKeyValueRequest(r)) == Some(r)
  {
  }

  /** SearchRunsRequest (models.go:168-175). */
  datatype SearchRunsRequest = SearchRunsRequest(experimentIds: seq<string>, filter: string, runViewType: string,
                                                 maxResults: int, orderBy: seq<string>, pageToken: string)

  function EncodeSearchRunsRequest(r: SearchRunsRequest): (j: Json)
    ensures j.JObject?
    ensures "experiment_ids" in j.fields <==> r.experimentIds != []
    ensures "filter" in j.fields <==> r.filter != ""
    ensures "run_view_type" in j.fields <==> r.runViewType != ""
    ensures "max_results" in j.fields <==> r.maxResults != 0
    ensures "order_by" in j.fields <==> r.orderBy != []
    ensures "page_token" in j.fields <==> r.pageToken != ""
    ensures j.fields.Keys <= {"experiment_ids", "filter", "run_view_type", "max_results", "order_by", "page_token"}
  {
    JObject(OmitEmpty(map["experiment_ids" := Strings(r.experimentIds),
                          "filter" := JString(r.filter),
                          "run_view_type" := JString(r.runViewType),
                          "max_results" := JInt(r.maxResults),
                          "order_by" := Strings(r.orderBy),
                          "page_token" := JString(r.pageToken)]))
  }

  function DecodeSearchRunsRequest(j: Json): Option<SearchRunsRequest> {
    if !j.JObject? then None
    else
      var experimentIds :- StringsField(j.fields, "experiment_ids");
      var filter :- StringField(j.fields, "filter");
      var runViewType :- StringField(j.fields, "run_view_type");
      var maxResults :- IntField(j.fields, "max_results");
      var orderBy :- StringsField(j.fields, "order_by");
      var pageToken :- StringField(j.fields, "page_token");
      Some(SearchRunsRequest(experimentIds, filter, runViewType, maxResults, orderBy, pageToken))
  }

  lemma SearchRunsRequestRoundTrip(r: SearchRunsRequest)
    ensures DecodeSearchRunsRequest(EncodeSearchRunsRequest(r)) == Some(r)
  {
    var m := EncodeSearchRunsRequest(r).fields;
    ReadOmitEmptyStrings(m, "experiment_ids", r.experimentIds);
    ReadOmitEmptyStrings(m, "order_by", r.orderBy);
    assert StringField(m, "filter") == Some(r.filter);
    assert StringField(m, "run_view_type") == Some(r.runViewType);
    assert IntField(m, "max_results") == Some(r.maxResults);
    assert StringField(m, "page_token") == Some(r.pageToken);
  }

  /** UpdateRunRequest (models.go:184-188). */
  datatype UpdateRunRequest = UpdateRunRequest(runId: string, status: string, endTime: int)

  function EncodeUpdateRunRequest(r: UpdateRunRequest): (j: Json)
    ensures j.JObject? && "run_id" in j.fields
    ensures "status" in j.fields <==> r.status != ""
    ensures "end_time" in j.fields <==> r.endTime != 0
    ensures j.fields.Keys <= {"run_id", "status", "end_time"}
  {
    JObject(map["run_id" := JString(r.runId)]
            + OmitEmpty(map["status" := JString(r.status), "end_time" := JInt(r.endTime)]))
  }

  function DecodeUpdateRunRequest(j: Json): Option<UpdateRunRequest> {
    if !j.JObject? then None
    else
      var runId :- StringField(j.fields, "run_id");
      var status :- StringField(j.fields, "status");
      var endTime :- IntField(j.fields, "end_time");
      Some(UpdateRunRequest(runId, status, endTime))
  }

  lemma UpdateRunRequestRoundTrip(r: UpdateRunRequest)
    ensures DecodeUpdateRunRequest(EncodeUpdateRunRequest(r)) == Some(r)
  {
  }

  /** CreateRegisteredModelRequest (models.go:237-241). */
  datatype CreateRegisteredModelRequest = CreateRegisteredModelRequest(name: string, tags: seq<Tag>, description: string)

  function EncodeCreateRegisteredModelRequest(r: CreateRegisteredModelRequest): (j: Json)
    ensures j.JObject? && "name" in j.fields
    ensures "tags" in j.fields <==> r.tags != []
    ensures "description" in j.fields <==> r.description != ""
    ensures j.fields.Keys <= {"name", "tags", "description"}
  {
    JObject(map["name" := JString(r.name)]
            + OmitEmpty(map["tags" := Items(r.tags, EncodeTag), "description" := JString(r.description)]))
  }

  function DecodeCreateRegisteredModelRequest(j: Json): Option<CreateRegisteredModelRequest> {
    if !j.JObject? then None
    else
      var name :- StringField(j.fields, "name");
      var tags :- ItemsField(j.fields, "tags", DecodeTag);
      var description :- StringField(j.fields, "description");
      Some(CreateRegisteredModelRequest(name, tags, description))
  }

  lemma CreateRegisteredModelRequestRoundTrip(r: CreateRegisteredModelRequest)
    ensures DecodeCreateRegisteredModelRequest(EncodeCreateRegisteredModelRequest(r)) == Some(r)
  {
    TagsRoundTrip();
    ReadOmitEmptyItems(EncodeCreateRegisteredModelRequest(r).fields, "tags", r.tags, EncodeTag, DecodeTag);
  }

  /** CreateModelVersionRequest (models.go:249-255). */
  datatype CreateModelVersionRequest = CreateModelVersionRequest(name: string, source: string, runId: string,
                                                                 tags: seq<Tag>, description: string)

  function EncodeCreateModelVersionRequest(r: CreateModelVersionRequest): (j: Json)
    ensures j.JObject? && "name" in j.fields && "source" in j.fields
    ensures "run_id" in j.fields <==> r.runId != ""
    ensures "tags" in j.fields <==> r.tags != []
    ensures "description" in j.fields <==> r.description != ""
    ensures j.fields.Keys <= {"name", "source", "run_id", "tags", "description"}
  {
    JObject(map["name" := JString(r.name), "source" := JString(r.source)]
            + OmitEmpty(map["run_id" := JString(r.runId),
                            "tags" := Items(r.tags, EncodeTag),
                            "description" := JString(r.description)]))
  }

  function DecodeCreateModelVersionRequest(j: Json): Option<CreateModelVersionRequest> {
    if !j.JObject? then None
    else
      var name :- StringField(j.fields, "name");
      var source :- StringField(j.fields, "source");
      var runId :- StringField(j.fields, "run_id");
      var tags :- ItemsField(j.fields, "tags", DecodeTag);
      var description :- StringField(j.fields, "description");
      Some(CreateModelVersionRequest(name, source, runId, tags, description))
  }

  lemma CreateModelVersionRequestRoundTrip(r: CreateModelVersionRequest)
    ensures DecodeCreateModelVersionRequest(EncodeCreateModelVersionRequest(r)) == Some(r)
  {
    TagsRoundTrip();
    ReadOmitEmptyItems(EncodeCreateModelVersionRequest(r).fields, "tags", r.tags, EncodeTag, DecodeTag);
  }

  /** SearchExperimentsRequest (models.go:368-374). */
  datatype SearchExperimentsRequest = SearchExperimentsRequest(viewType: string, maxResults: int, pageToken: string,
                                                               filter: string, orderBy: seq<string>)

  function EncodeSearchExperimentsRequest(r: SearchExperimentsRequest): (j: Json)
    ensures j.JObject?
    ensures "view_type" in j.fields <==> r.viewType != ""
    ensures "max_results" in j.fields <==> r.maxResults != 0
    ensures "page_token" in j.fields <==> r.pageToken != ""
    ensures "filter" in j.fields <==> r.filter != ""
    ensures "order_by" in j.fields <==> r.orderBy != []
    ensures j.fields.Keys <= {"view_type", "max_results", "page_token", "filter", "order_by"}
  {
    JObject(OmitEmpty(map["view_type" := JString(r.viewType),
                          "max_results" := JInt(r.maxResults),
                          "page_token" := JString(r.pageToken),
                          "filter" := JString(r.filter),
                          "order_by" := Strings(r.orderBy)]))
  }

  function DecodeSearchExperimentsRequest(j: Json): Option<SearchExperimentsRequest> {
    if !j.JObject? then None
    else
      var viewType :- StringField(j.fields, "view_type");
      var maxResults :- IntField(j.fields, "max_results");
      var pageToken :- StringField(j.fields, "page_token");
      var filter :- StringField(j.fields, "filter");
      var orderBy :- StringsField(j.fields, "order_by");
      Some(SearchExperimentsRequest(viewType, maxResults, pageToken, filter, orderBy))
  }

  lemma SearchExperimentsRequestRoundTrip(r: SearchExperimentsRequest)
    ensures DecodeSearchExperimentsRequest(EncodeSearchExperimentsRequest(r)) == Some(r)
  {
    ReadOmitEmptyStrings(EncodeSearchExperimentsRequest(r).fields, "order_by", r.orderBy);
  }

  /**
   * SearchRegisteredModelsRequest (models.go:508-513) and
   * SearchModelVersionsRequest (models.go:476-481): the same four fields.
   */
  datatype SearchRequest = SearchRequest(filter: string, maxResults: int, orderBy: seq<string>, pageToken: string)

  type SearchRegisteredModelsRequest = SearchRequest
  type SearchModelVersionsRequest = SearchRequest

  function EncodeSearchRequest(r: SearchRequest): (j: Json)
    ensures j.JObject?
    ensures "filter" in j.fields <==> r.filter != ""
    ensures "max_results" in j.fields <==> r.maxResults != 0
    ensures "order_by" in j.fields <==> r.orderBy != []
    ensures "page_token" in j.fields <==> r.pageToken != ""
    ensures j.fields.Keys <= {"filter", "max_results", "order_by", "page_token"}
  {
    JObject(OmitEmpty(map["filter" := JString(r.filter),
                          "max_results" := JInt(r.maxResults),
                          "order_by" := Strings(r.orderBy),
                          "page_token" := JString(r.pageToken)]))
  }

  function DecodeSearchRequest(j: Json): Option<SearchRequest> {
    if !j.JObject? then None
    else
      var filter :- StringField(j.fields, "filter");
      var maxResults :- IntField(j.fields, "max_results");
      var orderBy :- StringsField(j.fields, "order_by");
      var pageToken :- StringField(j.fields, "page_token");
      Some(SearchRequest(filter, maxResults, orderBy, pageToken))
  }

  lemma SearchRequestRoundTrip(r: SearchRequest)
    ensures DecodeSearchRequest(EncodeSearchRequest(r)) == Some(r)
  {
    ReadOmitEmptyStrings(EncodeSearchRequest(r).fields, "order_by", r.orderBy);
  }

  /** LogModelRequest (models.go:426-429). */
  datatype LogModelRequest = LogModelRequest(runId: string, modelJson: string)

  function EncodeLogModelRequest(r: LogModelRequest): (j: Json)
    ensures j.JObject? && "run_id" in j.fields && "model_json" in j.fields
    ensures j.fields.Keys <= {"run_id", "model_json"}
  {
    JObject(map["run_id" := JString(r.runId), "model_json" := JString(r.modelJson)])
  }

  function DecodeLogModelRequest(j: Json): Option<LogModelRequest> {
    if !j.JObject? then None
    else
      var runId :- StringField(j.fields, "run_id");
      var modelJson :- StringField(j.fields, "model_json");
      Some(LogModelRequest(runId, modelJson))
  }

  lemma LogModelRequestRoundTrip(r: LogModelRequest)
    ensures DecodeLogModelRequest(EncodeLogModelRequest(r)) == Some(r)
  {
  }

  /** DatasetSchemaColumn (models.go:119-122); its Go field `Type` is `columnType` here. */
  datatype DatasetSchemaColumn = DatasetSchemaColumn(name: string, columnType: string)

  function EncodeDatasetSchemaColumn(c: DatasetSchemaColumn): (j: Json)
    ensures j.JObject? && "name" in j.fields && "type" in j.fields
    ensures j.fields.Keys <= {"name", "type"}
  {
    JObject(map["name" := JString(c.name), "type" := JString(c.columnType)])
  }

  function DecodeDatasetSchemaColumn(j: Json): Option<DatasetSchemaColumn> {
    if !j.JObject? then None
    else
      var name :- StringField(j.fields, "name");
      var columnType :- StringField(j.fields, "type");
      Some(DatasetSchemaColumn(name, columnType))
  }

  /** DatasetSchema (models.go:114-116). */
  datatype DatasetSchema = DatasetSchema(columns: seq<DatasetSchemaColumn>)

  function EncodeDatasetSchema(s: DatasetSchema): (j: Json)
    ensures j.JObject?
    ensures "columns" in j.fields <==> s.columns != []
    ensures j.fields.Keys <= {"columns"}
  {
    JObject(OmitEmpty(map["columns" := Items(s.columns, EncodeDatasetSchemaColumn)]))
  }

  function DecodeDatasetSchema(j: Json): Option<DatasetSchema> {
    if !j.JObject? then None
    else
      var columns :- ItemsField(j.fields, "columns", DecodeDatasetSchemaColumn);
      Some(DatasetSchema(columns))
  }

  lemma DatasetSchemaRoundTrip(s: DatasetSchema)
    ensures DecodeDatasetSchema(EncodeDatasetSchema(s)) == Some(s)
  {
    assert forall c :: DecodeDatasetSchemaColumn(EncodeDatasetSchemaColumn(c)) == Some(c);
    ReadOmitEmptyItems(EncodeDatasetSchema(s).fields, "columns", s.columns,
                       EncodeDatasetSchemaColumn, DecodeDatasetSchemaColumn);
  }

  /** Dataset (models.go:103-111). `schema` is a struct, so `omitempty` never drops it. */
  datatype Dataset = Dataset(name: string, digest: string, sourceType: string, source: string,
                             schema: DatasetSchema, profile: string, tags: seq<Tag>)

  function EncodeDataset(d: Dataset): (j: Json)
    ensures j.JObject?
    ensures "name" in j.fields && j.fields["name"] == JString(d.name)
    ensures "digest" in j.fields && j.fields["digest"] == JString(d.digest)
    ensures "source_type" in j.fields && j.fields["source_type"] == JString(d.sourceType)
    ensures "source" in j.fields && j.fields["source"] == JString(d.source)
    ensures "schema" in j.fields && j.fields["schema"] == EncodeDatasetSchema(d.schema)
    ensures "profile" in j.fields <==> d.profile != ""
    ensures "tags" in j.fields <==> d.tags != []
    ensures j.fields.Keys <= {"name", "digest", "source_type", "source", "schema", "profile", "tags"}
  {
    JObject(map["name" := JString(d.name),
                "digest" := JString(d.digest),
                "source_type" := JString(d.sourceType),
                "source" := JString(d.source)]
            + OmitEmpty(map["schema" := EncodeDatasetSchema(d.schema),
                            "profile" := JString(d.profile),
                            "tags" := Items(d.tags, EncodeTag)]))
  }

  function DecodeDataset(j: Json): Option<Dataset> {
    if !j.JObject? then None
    else
      var name :- StringField(j.fields, "name");
      var digest :- StringField(j.fields, "digest");
      var sourceType :- StringField(j.fields, "source_type");
      var source :- StringField(j.fields, "source");
      var schema :- if "schema" in j.fields then DecodeDatasetSchema(j.fields["schema"]) else Some(DatasetSchema([]));
      var profile :- StringField(j.fields, "profile");
      var tags :- ItemsField(j.fields, "tags", DecodeTag);
      Some(Dataset(name, digest, sourceType, source, schema, profile, tags))
  }

  /** The required string fields of a dataset read back as written. */
  lemma DatasetStringFields(d: Dataset)
    ensures var m := EncodeDataset(d).fields;
      && StringField(m, "name") == Some(d.name) && StringField(m, "digest") == Some(d.digest)
      && StringField(m, "source_type") == Some(d.sourceType) && StringField(m, "source") == Some(d.source)
  {
  }

  /** The fields behind `omitempty` read back as written; the schema is always there. */
  lemma DatasetOptionalFields(d: Dataset)
    ensures var m := EncodeDataset(d).fields;
      && "schema" in m && m["schema"] == EncodeDatasetSchema(d.schema)
      && StringField(m, "profile") == Some(d.profile)
      && ItemsField(m, "tags", DecodeTag) == Some(d.tags)
  {
    var m := EncodeDataset(d).fields;
    TagsRoundTrip();
    ReadOmitEmptyItems(m, "tags", d.tags, EncodeTag, DecodeTag);
  }

  lemma DatasetRoundTrip(d: Dataset)
    ensures DecodeDataset(EncodeDataset(d)) == Some(d)
  {
    DatasetStringFields(d);
    DatasetOptionalFields(d);
    DatasetSchemaRoundTrip(d.schema);
  }

  /** ModelInput (models.go:439-445). */
  datatype ModelInput = ModelInput(modelName: string, modelVersion: string, modelStage: string, alias: string, tags: seq<Tag>)

  function EncodeModelInput(i: ModelInput): (j: Json)
    ensures j.JObject? && "model_name" in j.fields
    ensures "model_version" in j.fields <==> i.modelVersion != ""
    ensures "model_stage" in j.fields <==> i.modelStage != ""
    ensures "alias" in j.fields <==> i.alias != ""
    ensures "tags" in j.fields <==> i.tags != []
    ensures j.fields.Keys <= {"model_name", "model_version", "model_stage", "alias", "tags"}
  {
    JObject(map["model_name" := JString(i.modelName)]
            + OmitEmpty(map["model_version" := JString(i.modelVersion),
                            "model_stage" := JString(i.modelStage),
                            "alias" := JString(i.alias),
                            "tags" := Items(i.tags, EncodeTag)]))
  }

  function DecodeModelInput(j: Json): Option<ModelInput> {
    if !j.JObject? then None
    else
      var modelName :- StringField(j.fields, "model_name");
      var modelVersion :- StringField(j.fields, "model_version");
      var modelStage :- StringField(j.fields, "model_stage");
      var alias :- StringField(j.fields, "alias");
      var tags :- ItemsField(j.fields, "tags", DecodeTag);
      Some(ModelInput(modelName, modelVersion, modelStage, alias, tags))
  }

  lemma ModelInputRoundTrip(i: ModelInput)
    ensures DecodeModelInput(EncodeModelInput(i)) == Some(i)
  {
    TagsRoundTrip();
    ReadOmitEmptyItems(EncodeModelInput(i).fields, "tags", i.tags, EncodeTag, DecodeTag);
  }

  /** LogInputsRequest (models.go:432-436). */
  datatype LogInputsRequest = LogInputsRequest(runId: string, datasets: seq<Dataset>, modelInputs: seq<ModelInput>)

  function EncodeLogInputsRequest(r: LogInputsRequest): (j: Json)
    ensures j.JObject? && "run_id" in j.fields
    ensures "datasets" in j.fields <==> r.datasets != []
    ensures "model_inputs" in j.fields <==> r.modelInputs != []
    ensures j.fields.Keys <= {"run_id", "datasets", "model_inputs"}
  {
    JObject(map["run_id" := JString(r.runId)]
            + OmitEmpty(map["datasets" := Items(r.datasets, EncodeDataset),
                            "model_inputs" := Items(r.modelInputs, EncodeModelInput)]))
  }

  function DecodeLogInputsRequest(j: Json): Option<LogInputsRequest> {
    if !j.JObject? then None
    else
      var runId :- StringField(j.fields, "run_id");
      var datasets :- ItemsField(j.fields, "datasets", DecodeDataset);
      var modelInputs :- ItemsField(j.fields, "model_inputs", DecodeModelInput);
      Some(LogInputsRequest(runId, datasets, modelInputs))
  }

  lemma LogInputsRequestRoundTrip(r: LogInputsRequest)
    ensures DecodeLogInputsRequest(EncodeLogInputsRequest(r)) == Some(r)
  {
    forall d ensures DecodeDataset(EncodeDataset(d)) == Some(d) {
      DatasetRoundTrip(d);
    }
    forall i ensures DecodeModelInput(EncodeModelInput(i)) == Some(i) {
      ModelInputRoundTrip(i);
    }
    var m := EncodeLogInputsRequest(r).fields;
    ReadOmitEmptyItems(m, "datasets", r.datasets, EncodeDataset, DecodeDataset);
    ReadOmitEmptyItems(m, "model_inputs", r.modelInputs, EncodeModelInput, DecodeModelInput);
  }

  /** RenameRegisteredModelRequest (models.go:454-457). */
  datatype RenameRegisteredModelRequest = RenameRegisteredModelRequest(name: string, newName: string)

  function EncodeRenameRegisteredModelRequest(r: RenameRegisteredModelRequest): (j: Json)
    ensures j.JObject? && "name" in j.fields && "new_name" in j.fields
    ensures j.fields.Keys <= {"name", "new_name"}
  {
    JObject(map["name" := JString(r.name), "new_name" := JString(r.newName)])
  }

  function DecodeRenameRegisteredModelRequest(j: Json): Option<RenameRegisteredModelRequest> {
    if !j.JObject? then None
    else
      var name :- StringField(j.fields, "name");
      var newName :- StringField(j.fields, "new_name");
      Some(RenameRegisteredModelRequest(name, newName))
  }

  lemma RenameRegisteredModelRequestRoundTrip(r: RenameRegisteredModelRequest)
    ensures DecodeRenameRegisteredModelRequest(EncodeRenameRegisteredModelRequest(r)) == Some(r)
  {
  }

  /** GetDownloadURIsRequest (models.go:490-494). */
  datatype GetDownloadURIsRequest = GetDownloadURIsRequest(name: string, version: string, paths: seq<string>)

  function EncodeGetDownloadURIsRequest(r: GetDownloadURIsRequest): (j: Json)
    ensures j.JObject? && "name" in j.fields && "version" in j.fields
    ensures "paths" in j.fields <==> r.paths != []
    ensures j.fields.Keys <= {"name", "version", "paths"}
  {
    JObject(map["name" := JString(r.name), "version" := JString(r.version)]
            + OmitEmpty(map["paths" := Strings(r.paths)]))
  }

  function DecodeGetDownloadURIsRequest(j: Json): Option<GetDownloadURIsRequest> {
    if !j.JObject? then None
    else
      var name :- StringField(j.fields, "name");
      var version :- StringField(j.fields, "version");
      var paths :- StringsField(j.fields, "paths");
      Some(GetDownloadURIsRequest(name, version, paths))
  }

  lemma GetDownloadURIsRequestRoundTrip(r: GetDownloadURIsRequest)
    ensures DecodeGetDownloadURIsRequest(EncodeGetDownloadURIsRequest(r)) == Some(r)
  {
    ReadOmitEmptyStrings(EncodeGetDownloadURIsRequest(r).fields, "paths", r.paths);
  }

  /** SetRegisteredModelTagRequest (models.go:522-526). */
  datatype SetRegisteredModelTagRequest = SetRegisteredModelTagRequest(name: string, key: string, value: string)

  function EncodeSetRegisteredModelTagRequest(r: SetRegisteredModelTagRequest): (j: Json)
    ensures j.JObject? && "name" in j.fields && "key" in j.fields && "value" in j.fields
    ensures j.fields.Keys <= {"name", "key", "value"}
  {
    JObject(map["name" := JString(r.name), "key" := JString(r.key), "value" := JString(r.value)])
  }

  function DecodeSetRegisteredModelTagRequest(j: Json): Option<SetRegisteredModelTagRequest> {
    if !j.JObject? then None
    else
      var name :- StringField(j.fields, "name");
      var key :- StringField(j.fields, "key");
      var value :- StringField(j.fields, "value");
      Some(SetRegisteredModelTagRequest(name, key, value))
  }

  lemma SetRegisteredModelTagRequestRoundTrip(r: SetRegisteredModelTagRequest)
    ensures DecodeSetRegisteredModelTagRequest(EncodeSetRegisteredModelTagRequest(r)) == Some(r)
  {
  }

  /** SetModelVersionTagRequest (models.go:529-534). */
  datatype SetModelVersionTagRequest = SetModelVersionTagRequest(name: string, version: string, key: string, value: string)

  function EncodeSetModelVersionTagRequest(r: SetModelVersionTagRequest): (j: Json)
    ensures j.JObject? && "name" in j.fields && "version" in j.fields && "key" in j.fields && "value" in j.fields
    ensures j.fields.Keys <= {"name", "version", "key", "value"}
  {
    JObject(map["name" := JString(r.name),
                "version" := JString(r.version),
                "key" := JString(r.key),
                "value" := JString(r.value)])
  }

  function DecodeSetModelVersionTagRequest(j: Json): Option<SetModelVersionTagRequest> {
    if !j.JObject? then None
    else
      var name :- StringField(j.fields, "name");
      var version :- StringField(j.fields, "version");
      var key :- StringField(j.fields, "key");
      var value :- StringField(j.fields, "value");
      Some(SetModelVersionTagRequest(name, version, key, value))
  }

  lemma SetModelVersionTagRequestRoundTrip(r: SetModelVersionTagRequest)
    ensures DecodeSetModelVersionTagRequest(EncodeSetModelVersionTagRequest(r)) == Some(r)
  {
  }

  /** SetRegisteredModelAliasRequest (models.go:550-554). */
  datatype SetRegisteredModelAliasRequest = SetRegisteredModelAliasRequest(name: string, alias: string, version: string)

  function EncodeSetRegisteredModelAliasRequest(r: SetRegisteredModelAliasRequest): (j: Json)
    ensures j.JObject? && "name" in j.fields && "alias" in j.fields && "version" in j.fields
    ensures j.fields.Keys <= {"name", "alias", "version"}
  {
    JObject(map["name" := JString(r.name), "alias" := JString(r.alias), "version" := JString(r.version)])
  }

  function DecodeSetRegisteredModelAliasRequest(j: Json): Option<SetRegisteredModelAliasRequest> {
    if !j.JObject? then None
    else
      var name :- StringField(j.fields, "name");
      var alias :- StringField(j.fields, "alias");
      var version :- StringField(j.fields, "version");
      Some(SetRegisteredModelAliasRequest(name, alias, version))
  }

  lemma SetRegisteredModelAliasRequestRoundTrip(r: SetRegisteredModelAliasRequest)
    ensures DecodeSetRegisteredModelAliasRequest(EncodeSetRegisteredModelAliasRequest(r)) == Some(r)
  {
  }

  /** Metric (models.go:83-88), as LogBatch sends it: no field is `omitempty`. */
  datatype Metric = Metric(key: string, value: Float64, timestamp: int, step: int)

  function EncodeMetric(x: Metric): (j: Json)
    ensures j.JObject? && "key" in j.fields && "value" in j.fields && "timestamp" in j.fields && "step" in j.fields
    ensures j.fields.Keys <= {"key", "value", "timestamp", "step"}
  {
    JObject(map["key" := JString(x.key),
                "value" := JFloat(x.value),
                "timestamp" := JInt(x.timestamp),
                "step" := JInt(x.step)])
  }

  function DecodeMetric(j: Json): Option<Metric> {
    if !j.JObject? then None
    else
      var key :- StringField(j.fields, "key");
      var value :- FloatField(j.fields, "value");
      var timestamp :- IntField(j.fields, "timestamp");
      var step :- IntField(j.fields, "step");
      Some(Metric(key, value, timestamp, step))
  }

  lemma MetricRoundTrip(x: Metric)
    ensures DecodeMetric(EncodeMetric(x)) == Some(x)
  {
  }

  lemma MetricsRoundTrip()
    ensures forall x :: DecodeMetric(EncodeMetric(x)) == Some(x)
  {
    forall x: Metric ensures DecodeMetric(EncodeMetric(x)) == Some(x) {
      MetricRoundTrip(x);
    }
  }

  // Requests whose fields travel in the query string rather than in a body.

  /** GetMetricHistoryRequest (models.go:404-409); the client reads its run id as `RunUUID`. */
  datatype GetMetricHistoryRequest = GetMetricHistoryRequest(runId: string, metricKey: string, maxResults: int, pageToken: string)

  /** GetLatestModelVersionsRequest (models.go:465-468). */
  datatype GetLatestModelVersionsRequest = GetLatestModelVersionsRequest(name: string, stages: seq<string>)

  /** DeleteRegisteredModelTagRequest (models.go:537-540). */
  datatype DeleteRegisteredModelTagRequest = DeleteRegisteredModelTagRequest(name: string, key: string)

  /** DeleteModelVersionTagRequest (models.go:543-547). */
  datatype DeleteModelVersionTagRequest = DeleteModelVersionTagRequest(name: string, version: string, key: string)

  /** DeleteRegisteredModelAliasRequest (models.go:557-561); its `version` is never sent. */
  datatype DeleteRegisteredModelAliasRequest = DeleteRegisteredModelAliasRequest(name: string, alias: string, version: string)

  /** GetModelVersionByAliasRequest (models.go:564-567). */
  datatype GetModelVersionByAliasRequest = GetModelVersionByAliasRequest(name: string, alias: string)
}
