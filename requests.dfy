/**
 * What each typed operation of the client hands to its executor: the HTTP
 * method, the endpoint (path plus query string) and the optional JSON body.
 *
 * The request-building code in pkg/mlflow/client.go and in the older
 * client.go is the same text for every operation the two have in common, so
 * one builder here stands for both.
 *
 * Every endpoint is stated as `Join(path, pairs)`, the way `url.Values.Encode`
 * would write the pairs, however the client actually writes it;
 * `UrlQuery.TargetOfJoin` shows that a server reading such a target finds
 * exactly that path and exactly those pairs.
 */
module Requests {
  import opened Wrappers
  import opened GoText
  import opened UrlQuery
  import opened Json
  import opened Models

  /** An operation's request, before the executor adds the base URL and headers. */
  datatype Call = Call(verb: string, endpoint: string, body: Option<Json>)

  /**
   * The body is the JSON object of a Go `map[string]string`: exactly the keys
   * of `m`, each read back as its string.
   */
  predicate CarriesStrings(body: Option<Json>, m: map<string, string>) {
    body.Some? && body.value.JObject? && body.value.fields.Keys == m.Keys
    && forall k :: k in m ==> StringField(body.value.fields, k) == Some(m[k])
  }

  function StringBody(m: map<string, string>): (b: Option<Json>)
    ensures CarriesStrings(b, m)
  {
    Some(StringObject(m))
  }

  // ---------------------------------------------------------------------------
  // Endpoint paths

  const ExperimentsCreate := "/api/2.0/mlflow/experiments/create"
  const ExperimentsGet := "/api/2.0/mlflow/experiments/get"
  const ExperimentsGetByName := "/api/2.0/mlflow/experiments/get-by-name"
  const ExperimentsList := "/api/2.0/mlflow/experiments/list"
  const ExperimentsDelete := "/api/2.0/mlflow/experiments/delete"
  const ExperimentsRestore := "/api/2.0/mlflow/experiments/restore"
  const ExperimentsUpdate := "/api/2.0/mlflow/experiments/update"
  const ExperimentsSetTag := "/api/2.0/mlflow/experiments/set-experiment-tag"
  const ExperimentsDeleteTag := "/api/2.0/mlflow/experiments/delete-experiment-tag"
  const ExperimentsSearch := "/api/2.0/mlflow/experiments/search"
  const RunsCreate := "/api/2.0/mlflow/runs/create"
  const RunsGet := "/api/2.0/mlflow/runs/get"
  const RunsSearch := "/api/2.0/mlflow/runs/search"
  const RunsUpdate := "/api/2.0/mlflow/runs/update"
  const RunsDelete := "/api/2.0/mlflow/runs/delete"
  const RunsRestore := "/api/2.0/mlflow/runs/restore"
  const RunsLogMetric := "/api/2.0/mlflow/runs/log-metric"
  const RunsLogParameter := "/api/2.0/mlflow/runs/log-parameter"
  const RunsSetTag := "/api/2.0/mlflow/runs/set-tag"
  const RunsDeleteTag := "/api/2.0/mlflow/runs/delete-tag"
  const RunsLogBatch := "/api/2.0/mlflow/runs/log-batch"
  const RunsLogModel := "/api/2.0/mlflow/runs/log-model"
  const RunsLogInputs := "/api/2.0/mlflow/runs/log-inputs"
  const MetricsGetHistory := "/api/2.0/mlflow/metrics/get-history"
  const ArtifactsList := "/api/2.0/mlflow/artifacts/list"
  const RegisteredModelsCreate := "/api/2.0/mlflow/registered-models/create"
  const RegisteredModelsGet := "/api/2.0/mlflow/registered-models/get"
  const RegisteredModelsList := "/api/2.0/mlflow/registered-models/list"
  const RegisteredModelsUpdate := "/api/2.0/mlflow/registered-models/update"
  const RegisteredModelsDelete := "/api/2.0/mlflow/registered-models/delete"
  const RegisteredModelsRename := "/api/2.0/mlflow/registered-models/rename"
  const RegisteredModelsGetLatestVersions := "/api/2.0/mlflow/registered-models/get-latest-versions"
  const RegisteredModelsSearch := "/api/2.0/mlflow/registered-models/search"
  const RegisteredModelsSetTag := "/api/2.0/mlflow/registered-models/set-tag"
  const RegisteredModelsDeleteTag := "/api/2.0/mlflow/registered-models/delete-tag"
  const RegisteredModelsAlias := "/api/2.0/mlflow/registered-models/alias"
  const RegisteredModelsGetByAlias := "/api/2.0/mlflow/registered-models/get-model-version-by-alias"
  const ModelVersionsCreate := "/api/2.0/mlflow/model-versions/create"
  const ModelVersionsGet := "/api/2.0/mlflow/model-versions/get"
  const ModelVersionsList := "/api/2.0/mlflow/model-versions/list"
  const ModelVersionsUpdate := "/api/2.0/mlflow/model-versions/update"
  const ModelVersionsDelete := "/api/2.0/mlflow/model-versions/delete"
  const ModelVersionsTransitionStage := "/api/2.0/mlflow/model-versions/transition-stage"
  const ModelVersionsSearch := "/api/2.0/mlflow/model-versions/search"
  const ModelVersionsGetDownloadUris := "/api/2.0/mlflow/model-versions/get-download-uris"
  const ModelVersionsSetTag := "/api/2.0/mlflow/model-versions/set-tag"
  const ModelVersionsDeleteTag := "/api/2.0/mlflow/model-versions/delete-tag"


  // ---------------------------------------------------------------------------
  // Endpoints formatted with fmt.Sprintf and url.QueryEscape; no body

  /** Every query key the client writes; each is its own escape. */
  const QueryKeys: set<string> := IdKeys + NameKeys + PagingKeys

  const IdKeys: set<string> := {"experiment_id", "experiment_name", "run_id", "run_uuid", "metric_key"}
  const NameKeys: set<string> := {"path", "name", "version", "key", "alias"}
  const PagingKeys: set<string> := {"stages", "filter", "max_results", "order_by", "page_token"}

  lemma QueryKeyUnreserved(k: string)
    requires k in QueryKeys
    ensures AllUnreserved(k)
  {
    if k in IdKeys {
      IdKeysUnreserved(k);
    } else if k in NameKeys {
      NameKeysUnreserved(k);
    } else {
      PagingKeysUnreserved(k);
    }
  }

  lemma IdKeysUnreserved(k: string)
    requires k in IdKeys
    ensures AllUnreserved(k)
  {
  }

  lemma NameKeysUnreserved(k: string)
    requires k in NameKeys
    ensures AllUnreserved(k)
  {
  }

  lemma PagingKeysUnreserved(k: string)
    requires k in PagingKeys
    ensures AllUnreserved(k)
  {
  }

  /** `fmt.Sprintf(path + "?k=%s", url.QueryEscape(v))`. */
  function Query1(verb: string, path: string, k: string, v: string): (c: Call)
    requires AllUnreserved(k)
    ensures c.verb == verb && c.body == None
    ensures c.endpoint == Join(path, [(k, v)])
  {
    var sep := "?" + k + "=";
    SprintfOne(path, sep, k, v);
    Call(verb, path + sep + QueryEscape(v), None)
  }

  /** `fmt.Sprintf(path + "?k1=%s&k2=%s", ...)`, both values escaped. */
  function Query2(verb: string, path: string, k1: string, v1: string, k2: string, v2: string): (c: Call)
    requires AllUnreserved(k1) && AllUnreserved(k2)
    ensures c.verb == verb && c.body == None
    ensures c.endpoint == Join(path, [(k1, v1), (k2, v2)])
  {
    var sep1, sep2 := "?" + k1 + "=", "&" + k2 + "=";
    SprintfTwo(path, sep1, k1, v1, sep2, k2, v2);
    Call(verb, path + sep1 + QueryEscape(v1) + sep2 + QueryEscape(v2), None)
  }

  /** `fmt.Sprintf(path + "?k1=%s&k2=%s&k3=%s", ...)`, all three values escaped. */
  function Query3(verb: string, path: string, k1: string, v1: string, k2: string, v2: string,
                  k3: string, v3: string): (c: Call)
    requires AllUnreserved(k1) && AllUnreserved(k2) && AllUnreserved(k3)
    ensures c.verb == verb && c.body == None
    ensures c.endpoint == Join(path, [(k1, v1), (k2, v2), (k3, v3)])
  {
    var sep1, sep2, sep3 := "?" + k1 + "=", "&" + k2 + "=", "&" + k3 + "=";
    SprintfThree(path, sep1, k1, v1, sep2, k2, v2, sep3, k3, v3);
    Call(verb, path + sep1 + QueryEscape(v1) + sep2 + QueryEscape(v2) + sep3 + QueryEscape(v3), None)
  }

  /** GET ExperimentsGet?experiment_id=<experimentId>, with no body. */
  function GetExperiment(experimentId: string): (c: Call)
    ensures c.verb == "GET" && c.body == None
    ensures c.endpoint == Join(ExperimentsGet, [("experiment_id", experimentId)])
  {
    QueryKeyUnreserved("experiment_id");
    Query1("GET", ExperimentsGet, "experiment_id", experimentId)
  }

  /** GET ExperimentsGetByName?experiment_name=<experimentName>, with no body. */
  function GetExperimentByName(experimentName: string): (c: Call)
    ensures c.verb == "GET" && c.body == None
    ensures c.endpoint == Join(ExperimentsGetByName, [("experiment_name", experimentName)])
  {
    QueryKeyUnreserved("experiment_name");
    Query1("GET", ExperimentsGetByName, "experiment_name", experimentName)
  }

  /** POST ExperimentsDelete?experiment_id=<experimentId>, with no body. */
  function DeleteExperiment(experimentId: string): (c: Call)
    ensures c.verb == "POST" && c.body == None
    ensures c.endpoint == Join(ExperimentsDelete, [("experiment_id", experimentId)])
  {
    QueryKeyUnreserved("experiment_id");
    Query1("POST", ExperimentsDelete, "experiment_id", experimentId)
  }

  /** POST ExperimentsRestore?experiment_id=<experimentId>, with no body. */
  function RestoreExperiment(experimentId: string): (c: Call)
    ensures c.verb == "POST" && c.body == None
    ensures c.endpoint == Join(ExperimentsRestore, [("experiment_id", experimentId)])
  {
    QueryKeyUnreserved("experiment_id");
    Query1("POST", ExperimentsRestore, "experiment_id", experimentId)
  }

  /** GET RunsGet?run_id=<runId>, with no body. */
  function GetRun(runId: string): (c: Call)
    ensures c.verb == "GET" && c.body == None
    ensures c.endpoint == Join(RunsGet, [("run_id", runId)])
  {
    QueryKeyUnreserved("run_id");
    Query1("GET", RunsGet, "run_id", runId)
  }

  /** POST RunsDelete?run_id=<runId>, with no body. */
  function DeleteRun(runId: string): (c: Call)
    ensures c.verb == "POST" && c.body == None
    ensures c.endpoint == Join(RunsDelete, [("run_id", runId)])
  {
    QueryKeyUnreserved("run_id");
    Query1("POST", RunsDelete, "run_id", runId)
  }

  /** POST RunsRestore?run_id=<runId>, with no body. */
  function RestoreRun(runId: string): (c: Call)
    ensures c.verb == "POST" && c.body == None
    ensures c.endpoint == Join(RunsRestore, [("run_id", runId)])
  {
    QueryKeyUnreserved("run_id");
    Query1("POST", RunsRestore, "run_id", runId)
  }

  /** GET RegisteredModelsGet?name=<name>, with no body. */
  function GetRegisteredModel(name: string): (c: Call)
    ensures c.verb == "GET" && c.body == None
    ensures c.endpoint == Join(RegisteredModelsGet, [("name", name)])
  {
    QueryKeyUnreserved("name");
    Query1("GET", RegisteredModelsGet, "name", name)
  }

  /** DELETE RegisteredModelsDelete?name=<name>, with no body. */
  function DeleteRegisteredModel(name: string): (c: Call)
    ensures c.verb == "DELETE" && c.body == None
    ensures c.endpoint == Join(RegisteredModelsDelete, [("name", name)])
  {
    QueryKeyUnreserved("name");
    Query1("DELETE", RegisteredModelsDelete, "name", name)
  }

  /** GET ModelVersionsGet?name=<name>&version=<version>, with no body. */
  function GetModelVersion(name: string, version: string): (c: Call)
    ensures c.verb == "GET" && c.body == None
    ensures c.endpoint == Join(ModelVersionsGet, [("name", name), ("version", version)])
  {
    QueryKeyUnreserved("name");
    QueryKeyUnreserved("version");
    Query2("GET", ModelVersionsGet, "name", name, "version", version)
  }

  /** DELETE ModelVersionsDelete?name=<name>&version=<version>, with no body. */
  function DeleteModelVersion(name: string, version: string): (c: Call)
    ensures c.verb == "DELETE" && c.body == None
    ensures c.endpoint == Join(ModelVersionsDelete, [("name", name), ("version", version)])
  {
    QueryKeyUnreserved("name");
    QueryKeyUnreserved("version");
    Query2("DELETE", ModelVersionsDelete, "name", name, "version", version)
  }

  /** DELETE RegisteredModelsDeleteTag?name=<name>&key=<key>, with no body. */
  function DeleteRegisteredModelTag(req: DeleteRegisteredModelTagRequest): (c: Call)
    ensures c.verb == "DELETE" && c.body == None
    ensures c.endpoint == Join(RegisteredModelsDeleteTag, [("name", req.name), ("key", req.key)])
  {
    QueryKeyUnreserved("name");
    QueryKeyUnreserved("key");
    Query2("DELETE", RegisteredModelsDeleteTag, "name", req.name, "key", req.key)
  }

  /** DELETE ModelVersionsDeleteTag?name=<name>&version=<version>&key=<key>, with no body. */
  function DeleteModelVersionTag(req: DeleteModelVersionTagRequest): (c: Call)
    ensures c.verb == "DELETE" && c.body == None
    ensures c.endpoint == Join(ModelVersionsDeleteTag, [("name", req.name), ("version", req.version), ("key", req.key)])
  {
    QueryKeyUnreserved("name");
    QueryKeyUnreserved("version");
    QueryKeyUnreserved("key");
    Query3("DELETE", ModelVersionsDeleteTag, "name", req.name, "version", req.version, "key", req.key)
  }

  /** DELETE RegisteredModelsAlias?name=<name>&alias=<alias>, with no body. The request's `version` is not sent. */
  function DeleteRegisteredModelAlias(req: DeleteRegisteredModelAliasRequest): (c: Call)
    ensures c.verb == "DELETE" && c.body == None
    ensures c.endpoint == Join(RegisteredModelsAlias, [("name", req.name), ("alias", req.alias)])
  {
    QueryKeyUnreserved("name");
    QueryKeyUnreserved("alias");
    Query2("DELETE", RegisteredModelsAlias, "name", req.name, "alias", req.alias)
  }

  /** GET RegisteredModelsGetByAlias?name=<name>&alias=<alias>, with no body. */
  function GetModelVersionByAlias(req: GetModelVersionByAliasRequest): (c: Call)
    ensures c.verb == "GET" && c.body == None
    ensures c.endpoint == Join(RegisteredModelsGetByAlias, [("name", req.name), ("alias", req.alias)])
  {
    QueryKeyUnreserved("name");
    QueryKeyUnreserved("alias");
    Query2("GET", RegisteredModelsGetByAlias, "name", req.name, "alias", req.alias)
  }

  // ---------------------------------------------------------------------------
  // Fixed endpoints whose request struct becomes the JSON body. Each body is
  // the struct's encoding, with exactly the keys its `json` tags send, and it
  // reads back, field for field, as the struct the caller passed.

  function CreateExperiment(req: CreateExperimentRequest): (c: Call)
    ensures c.verb == "POST" && c.endpoint == ExperimentsCreate
    ensures c.body.Some? && DecodeCreateExperimentRequest(c.body.value) == Some(req)
    ensures c.body == Some(EncodeCreateExperimentRequest(req))
  {
    CreateExperimentRequestRoundTrip(req);
    Call("POST", ExperimentsCreate, Some(EncodeCreateExperimentRequest(req)))
  }

  function SearchExperiments(req: SearchExperimentsRequest): (c: Call)
    ensures c.verb == "POST" && c.endpoint == ExperimentsSearch
    ensures c.body.Some? && DecodeSearchExperimentsRequest(c.body.value) == Some(req)
    ensures c.body == Some(EncodeSearchExperimentsRequest(req))
  {
    SearchExperimentsRequestRoundTrip(req);
    Call("POST", ExperimentsSearch, Some(EncodeSearchExperimentsRequest(req)))
  }

  function SearchRuns(req: SearchRunsRequest): (c: Call)
    ensures c.verb == "POST" && c.endpoint == RunsSearch
    ensures c.body.Some? && DecodeSearchRunsRequest(c.body.value) == Some(req)
    ensures c.body == Some(EncodeSearchRunsRequest(req))
  {
    SearchRunsRequestRoundTrip(req);
    Call("POST", RunsSearch, Some(EncodeSearchRunsRequest(req)))
  }

  function UpdateRun(req: UpdateRunRequest): (c: Call)
    ensures c.verb == "POST" && c.endpoint == RunsUpdate
    ensures c.body.Some? && DecodeUpdateRunRequest(c.body.value) == Some(req)
    ensures c.body == Some(EncodeUpdateRunRequest(req))
  {
    UpdateRunRequestRoundTrip(req);
    Call("POST", RunsUpdate, Some(EncodeUpdateRunRequest(req)))
  }

  function LogParam(req: LogParamRequest): (c: Call)
    ensures c.verb == "POST" && c.endpoint == RunsLogParameter
    ensures c.body.Some? && DecodeRunKeyValueRequest(c.body.value) == Some(req)
    ensures c.body == Some(EncodeRunKeyValueRequest(req))
  {
    RunKeyValueRequestRoundTrip(req);
    Call("POST", RunsLogParameter, Some(EncodeRunKeyValueRequest(req)))
  }

  function SetTag(req: SetTagRequest): (c: Call)
    ensures c.verb == "POST" && c.endpoint == RunsSetTag
    ensures c.body.Some? && DecodeRunKeyValueRequest(c.body.value) == Some(req)
    ensures c.body == Some(EncodeRunKeyValueRequest(req))
  {
    RunKeyValueRequestRoundTrip(req);
    Call("POST", RunsSetTag, Some(EncodeRunKeyValueRequest(req)))
  }

  function LogModel(req: LogModelRequest): (c: Call)
    ensures c.verb == "POST" && c.endpoint == RunsLogModel
    ensures c.body.Some? && DecodeLogModelRequest(c.body.value) == Some(req)
    ensures c.body == Some(EncodeLogModelRequest(req))
  {
    LogModelRequestRoundTrip(req);
    Call("POST", RunsLogModel, Some(EncodeLogModelRequest(req)))
  }

  function LogInputs(req: LogInputsRequest): (c: Call)
    ensures c.verb == "POST" && c.endpoint == RunsLogInputs
    ensures c.body.Some? && DecodeLogInputsRequest(c.body.value) == Some(req)
    ensures c.body == Some(EncodeLogInputsRequest(req))
  {
    LogInputsRequestRoundTrip(req);
    Call("POST", RunsLogInputs, Some(EncodeLogInputsRequest(req)))
  }

  function CreateRegisteredModel(req: CreateRegisteredModelRequest): (c: Call)
    ensures c.verb == "POST" && c.endpoint == RegisteredModelsCreate
    ensures c.body.Some? && DecodeCreateRegisteredModelRequest(c.body.value) == Some(req)
    ensures c.body == Some(EncodeCreateRegisteredModelRequest(req))
  {
    CreateRegisteredModelRequestRoundTrip(req);
    Call("POST", RegisteredModelsCreate, Some(EncodeCreateRegisteredModelRequest(req)))
  }

  function CreateModelVersion(req: CreateModelVersionRequest): (c: Call)
    ensures c.verb == "POST" && c.endpoint == ModelVersionsCreate
    ensures c.body.Some? && DecodeCreateModelVersionRequest(c.body.value) == Some(req)
    ensures c.body == Some(EncodeCreateModelVersionRequest(req))
  {
    CreateModelVersionRequestRoundTrip(req);
    Call("POST", ModelVersionsCreate, Some(EncodeCreateModelVersionRequest(req)))
  }

  function RenameRegisteredModel(req: RenameRegisteredModelRequest): (c: Call)
    ensures c.verb == "POST" && c.endpoint == RegisteredModelsRename
    ensures c.body.Some? && DecodeRenameRegisteredModelRequest(c.body.value) == Some(req)
    ensures c.body == Some(EncodeRenameRegisteredModelRequest(req))
  {
    RenameRegisteredModelRequestRoundTrip(req);
    Call("POST", RegisteredModelsRename, Some(EncodeRenameRegisteredModelRequest(req)))
  }

  function GetDownloadURIs(req: GetDownloadURIsRequest): (c: Call)
    ensures c.verb == "POST" && c.endpoint == ModelVersionsGetDownloadUris
    ensures c.body.Some? && DecodeGetDownloadURIsRequest(c.body.value) == Some(req)
    ensures c.body == Some(EncodeGetDownloadURIsRequest(req))
  {
    GetDownloadURIsRequestRoundTrip(req);
    Call("POST", ModelVersionsGetDownloadUris, Some(EncodeGetDownloadURIsRequest(req)))
  }

  function SearchRegisteredModels(req: SearchRegisteredModelsRequest): (c: Call)
    ensures c.verb == "POST" && c.endpoint == RegisteredModelsSearch
    ensures c.body.Some? && DecodeSearchRequest(c.body.value) == Some(req)
    ensures c.body == Some(EncodeSearchRequest(req))
  {
    SearchRequestRoundTrip(req);
    Call("POST", RegisteredModelsSearch, Some(EncodeSearchRequest(req)))
  }

  function SetRegisteredModelTag(req: SetRegisteredModelTagRequest): (c: Call)
    ensures c.verb == "POST" && c.endpoint == RegisteredModelsSetTag
    ensures c.body.Some? && DecodeSetRegisteredModelTagRequest(c.body.value) == Some(req)
    ensures c.body == Some(EncodeSetRegisteredModelTagRequest(req))
  {
    SetRegisteredModelTagRequestRoundTrip(req);
    Call("POST", RegisteredModelsSetTag, Some(EncodeSetRegisteredModelTagRequest(req)))
  }

  function SetModelVersionTag(req: SetModelVersionTagRequest): (c: Call)
    ensures c.verb == "POST" && c.endpoint == ModelVersionsSetTag
    ensures c.body.Some? && DecodeSetModelVersionTagRequest(c.body.value) == Some(req)
    ensures c.body == Some(EncodeSetModelVersionTagRequest(req))
  {
    SetModelVersionTagRequestRoundTrip(req);
    Call("POST", ModelVersionsSetTag, Some(EncodeSetModelVersionTagRequest(req)))
  }

  function SetRegisteredModelAlias(req: SetRegisteredModelAliasRequest): (c: Call)
    ensures c.verb == "POST" && c.endpoint == RegisteredModelsAlias
    ensures c.body.Some? && DecodeSetRegisteredModelAliasRequest(c.body.value) == Some(req)
    ensures c.body == Some(EncodeSetRegisteredModelAliasRequest(req))
  {
    SetRegisteredModelAliasRequestRoundTrip(req);
    Call("POST", RegisteredModelsAlias, Some(EncodeSetRegisteredModelAliasRequest(req)))
  }

  // ---------------------------------------------------------------------------
  // Fixed endpoints whose body is a map literal

  function UpdateExperiment(experimentId: string, newName: string): (c: Call)
    ensures c.verb == "POST" && c.endpoint == ExperimentsUpdate
    ensures CarriesStrings(c.body, map["experiment_id" := experimentId, "new_name" := newName])
  {
    Call("POST", ExperimentsUpdate, StringBody(map["experiment_id" := experimentId, "new_name" := newName]))
  }

  function SetExperimentTag(experimentId: string, key: string, value: string): (c: Call)
    ensures c.verb == "POST" && c.endpoint == ExperimentsSetTag
    ensures CarriesStrings(c.body, map["experiment_id" := experimentId, "key" := key, "value" := value])
  {
    Call("POST", ExperimentsSetTag, StringBody(map["experiment_id" := experimentId, "key" := key, "value" := value]))
  }

  function DeleteExperimentTag(experimentId: string, key: string): (c: Call)
    ensures c.verb == "POST" && c.endpoint == ExperimentsDeleteTag
    ensures CarriesStrings(c.body, map["experiment_id" := experimentId, "key" := key])
  {
    Call("POST", ExperimentsDeleteTag, StringBody(map["experiment_id" := experimentId, "key" := key]))
  }

  function DeleteTag(runId: string, key: string): (c: Call)
    ensures c.verb == "POST" && c.endpoint == RunsDeleteTag
    ensures CarriesStrings(c.body, map["run_id" := runId, "key" := key])
  {
    Call("POST", RunsDeleteTag, StringBody(map["run_id" := runId, "key" := key]))
  }

  lemma LogBatchFields(fields: map<string, Json>, runId: string, metrics: seq<Metric>, params: seq<Tag>, tags: seq<Tag>)
    requires fields == map["run_id" := JString(runId), "metrics" := Items(metrics, EncodeMetric),
                           "params" := Items(params, EncodeTag), "tags" := Items(tags, EncodeTag)]
    ensures fields.Keys == {"run_id", "metrics", "params", "tags"}
    ensures StringField(fields, "run_id") == Some(runId)
    ensures ItemsField(fields, "metrics", DecodeMetric) == Some(metrics)
    ensures ItemsField(fields, "params", DecodeTag) == Some(params)
    ensures ItemsField(fields, "tags", DecodeTag) == Some(tags)
  {
    MetricsRoundTrip();
    TagsRoundTrip();
    ReadItems(fields, "metrics", metrics, EncodeMetric, DecodeMetric);
    ReadItems(fields, "params", params, EncodeTag, DecodeTag);
    ReadItems(fields, "tags", tags, EncodeTag, DecodeTag);
  }

  /**
   * The body of LogBatch: a run id and three lists. Params and run tags have
   * the same key/value shape as `Tag`.
   */
  function LogBatch(runId: string, metrics: seq<Metric>, params: seq<Tag>, tags: seq<Tag>): (c: Call)
    ensures c.verb == "POST" && c.endpoint == RunsLogBatch
    ensures c.body.Some? && c.body.value.JObject?
    ensures c.body.value.fields.Keys == {"run_id", "metrics", "params", "tags"}
    ensures StringField(c.body.value.fields, "run_id") == Some(runId)
    ensures ItemsField(c.body.value.fields, "metrics", DecodeMetric) == Some(metrics)
    ensures ItemsField(c.body.value.fields, "params", DecodeTag) == Some(params)
    ensures ItemsField(c.body.value.fields, "tags", DecodeTag) == Some(tags)
  {
    var fields := map["run_id" := JString(runId), "metrics" := Items(metrics, EncodeMetric),
                      "params" := Items(params, EncodeTag), "tags" := Items(tags, EncodeTag)];
    LogBatchFields(fields, runId, metrics, params, tags);
    Call("POST", RunsLogBatch, Some(JObject(fields)))
  }

  // ---------------------------------------------------------------------------
  // Query strings built with url.Values. Go's `Encode` writes keys in sorted
  // order; every list below is already `SortedByKey`, so writing its pairs in
  // list order is what Go writes.

  /** The paging pairs of the list calls: `max_results` when positive, `page_token` when set. */
  function PageParams(maxResults: int, pageToken: string): (ps: Params)
    ensures ValuesOf(ps, "max_results") == (if maxResults > 0 then [FormatInt(maxResults)] else [])
    ensures ValuesOf(ps, "page_token") == (if pageToken != "" then [pageToken] else [])
    ensures Keys(ps) <= {"max_results", "page_token"}
    ensures SortedByKey(ps)
    ensures ps == [] <==> maxResults <= 0 && pageToken == ""
  {
    var a := if maxResults > 0 then [("max_results", FormatInt(maxResults))] else [];
    var b := if pageToken != "" then [("page_token", pageToken)] else [];
    ValuesOfAppend(a, b, "max_results");
    ValuesOfAppend(a, b, "page_token");
    assert LexLe("max_results", "page_token");
    a + b
  }

  /** `params := url.Values{}`, then `Add` of `max_results` when positive and of `page_token` when set. */
  method PageValues(maxResults: int, pageToken: string) returns (params: Params)
    ensures params == PageParams(maxResults, pageToken)
  {
    params := [];
    if maxResults > 0 {
      params := params + [("max_results", FormatInt(maxResults))];
    }
    if pageToken != "" {
      params := params + [("page_token", pageToken)];
    }
  }

  /** GET experiments/list, with `?` and the paging pairs only when there are any. */
  method ListExperiments(maxResults: int, pageToken: string) returns (c: Call)
    ensures c.verb == "GET" && c.body == None
    ensures c.endpoint == Join(ExperimentsList, PageParams(maxResults, pageToken))
  {
    var endpoint := ExperimentsList;
    if maxResults > 0 || pageToken != "" {
      var params := PageValues(maxResults, pageToken);
      endpoint := endpoint + "?" + Encode(params);
    }
    c := Call("GET", endpoint, None);
  }

  /** GET registered-models/list, with `?` and the paging pairs only when there are any. */
  method ListRegisteredModels(maxResults: int, pageToken: string) returns (c: Call)
    ensures c.verb == "GET" && c.body == None
    ensures c.endpoint == Join(RegisteredModelsList, PageParams(maxResults, pageToken))
  {
    var endpoint := RegisteredModelsList;
    if maxResults > 0 || pageToken != "" {
      var params := PageValues(maxResults, pageToken);
      endpoint := endpoint + "?" + Encode(params);
    }
    c := Call("GET", endpoint, None);
  }

  /** GET model-versions/list?name=<name>, then `&` and the paging pairs when there are any. */
  method ListModelVersions(name: string, maxResults: int, pageToken: string) returns (c: Call)
    ensures c.verb == "GET" && c.body == None
    ensures c.endpoint == Join(ModelVersionsList, [("name", name)] + PageParams(maxResults, pageToken))
  {
    QueryKeyUnreserved("name");
    c := Query1("GET", ModelVersionsList, "name", name);
    if maxResults > 0 || pageToken != "" {
      var params := PageValues(maxResults, pageToken);
      AppendPairs(ModelVersionsList, [("name", name)], params);
      c := c.(endpoint := c.endpoint + "&" + Encode(params));
    } else {
      assert [("name", name)] + PageParams(maxResults, pageToken) == [("name", name)];
    }
  }

  /** GET metrics/get-history?run_uuid=<run id>&metric_key=<key>, then `&` and the paging pairs when there are any. */
  method GetMetricHistory(req: GetMetricHistoryRequest) returns (c: Call)
    ensures c.verb == "GET" && c.body == None
    ensures c.endpoint == Join(MetricsGetHistory, [("run_uuid", req.runId), ("metric_key", req.metricKey)]
                                                 + PageParams(req.maxResults, req.pageToken))
  {
    QueryKeyUnreserved("run_uuid");
    QueryKeyUnreserved("metric_key");
    var fixed := [("run_uuid", req.runId), ("metric_key", req.metricKey)];
    c := Query2("GET", MetricsGetHistory, "run_uuid", req.runId, "metric_key", req.metricKey);
    if req.maxResults > 0 || req.pageToken != "" {
      var params := PageValues(req.maxResults, req.pageToken);
      AppendPairs(MetricsGetHistory, fixed, params);
      c := c.(endpoint := c.endpoint + "&" + Encode(params));
    } else {
      assert fixed + PageParams(req.maxResults, req.pageToken) == fixed;
    }
  }

  /** The pairs of artifacts/list: the run, then the path and the page token when set, in that order. */
  function ArtifactPairs(runId: string, path: string, pageToken: string): (ps: Params)
    ensures ValuesOf(ps, "run_id") == [runId]
    ensures ValuesOf(ps, "path") == (if path != "" then [path] else [])
    ensures ValuesOf(ps, "page_token") == (if pageToken != "" then [pageToken] else [])
    ensures Keys(ps) <= {"run_id", "path", "page_token"}
  {
    var a := [("run_id", runId)];
    var b := if path != "" then [("path", path)] else [];
    var c := if pageToken != "" then [("page_token", pageToken)] else [];
    ValuesOfAppend(a, b, "run_id");
    ValuesOfAppend(a, b, "path");
    ValuesOfAppend(a, b, "page_token");
    ValuesOfAppend(a + b, c, "run_id");
    ValuesOfAppend(a + b, c, "path");
    ValuesOfAppend(a + b, c, "page_token");
    a + b + c
  }

  /** `endpoint += "&k=" + url.QueryEscape(v)` on a target that already has a query: one more pair. */
  function AddPair(endpoint: string, ghost path: string, ghost pairs: Params, k: string, v: string): (e: string)
    requires pairs != [] && endpoint == Join(path, pairs) && AllUnreserved(k)
    ensures e == Join(path, pairs + [(k, v)])
  {
    var sep := "&" + k + "=";
    AppendPair(path, pairs, sep, k, v);
    endpoint + sep + QueryEscape(v)
  }

  /** GET artifacts/list?run_id=<id>, extended by hand with `&path=` and `&page_token=` when set. */
  method ListArtifacts(runId: string, path: string, pageToken: string) returns (c: Call)
    ensures c.verb == "GET" && c.body == None
    ensures c.endpoint == Join(ArtifactsList, ArtifactPairs(runId, path, pageToken))
  {
    QueryKeyUnreserved("run_id");
    QueryKeyUnreserved("path");
    QueryKeyUnreserved("page_token");
    var endpoint := Query1("GET", ArtifactsList, "run_id", runId).endpoint;
    ghost var pairs := [("run_id", runId)];
    if path != "" {
      endpoint := AddPair(endpoint, ArtifactsList, pairs, "path", path);
      pairs := pairs + [("path", path)];
    }
    if pageToken != "" {
      endpoint := AddPair(endpoint, ArtifactsList, pairs, "page_token", pageToken);
      pairs := pairs + [("page_token", pageToken)];
    }
    assert pairs == ArtifactPairs(runId, path, pageToken);
    c := Call("GET", endpoint, None);
  }

  /** The pairs of registered-models/get-latest-versions: the name, then one `stages` pair per stage. */
  function LatestVersionsPairs(req: GetLatestModelVersionsRequest): (ps: Params)
    ensures ValuesOf(ps, "name") == [req.name]
    ensures ValuesOf(ps, "stages") == req.stages
    ensures Keys(ps) <= {"name", "stages"}
  {
    var a := [("name", req.name)];
    var b := Repeated("stages", req.stages);
    ValuesOfRepeated("stages", "name", req.stages);
    ValuesOfAppend(a, b, "name");
    ValuesOfAppend(a, b, "stages");
    a + b
  }

  /** GET registered-models/get-latest-versions?name=<name>, then `&stages=` once per stage, in order. */
  method GetLatestModelVersions(req: GetLatestModelVersionsRequest) returns (c: Call)
    ensures c.verb == "GET" && c.body == None
    ensures c.endpoint == Join(RegisteredModelsGetLatestVersions, LatestVersionsPairs(req))
  {
    QueryKeyUnreserved("name");
    c := Query1("GET", RegisteredModelsGetLatestVersions, "name", req.name);
    if |req.stages| > 0 {
      var params := AddEach([], "stages", req.stages);
      assert params == Repeated("stages", req.stages);
      AppendPairs(RegisteredModelsGetLatestVersions, [("name", req.name)], params);
      c := c.(endpoint := c.endpoint + "&" + Encode(params));
    } else {
      assert [("name", req.name)] + Repeated("stages", req.stages) == [("name", req.name)];
    }
  }

  /** A loop of `params.Add(key, v)` over `vs`: one pair per value, in order, after those already there. */
  method AddEach(params: Params, key: string, vs: seq<string>) returns (ps: Params)
    ensures ps == params + Repeated(key, vs)
  {
    ps := params;
    var i := 0;
    while i < |vs|
      invariant 0 <= i <= |vs|
      invariant ps == params + Repeated(key, vs[..i])
    {
      assert vs[..i + 1][..i] == vs[..i];
      Assoc(params, Repeated(key, vs[..i]), [(key, vs[i])]);
      ps := ps + [(key, vs[i])];
      i := i + 1;
    }
    assert vs[..i] == vs;
  }

  /** A single pair when `present`, no pair otherwise: an `if` around one `params.Add`. */
  function Optional(present: bool, k: string, v: string): Params {
    if present then [(k, v)] else []
  }

  /** The values under `key` of four lists written one after the other. */
  lemma ValuesOfFour(a: Params, b: Params, r: Params, d: Params, key: string)
    ensures ValuesOf(a + b + r + d, key) == ValuesOf(a, key) + ValuesOf(b, key) + ValuesOf(r, key) + ValuesOf(d, key)
  {
    ValuesOfAppend(a, b, key);
    ValuesOfAppend(a + b, r, key);
    ValuesOfAppend(a + b + r, d, key);
  }

  /** The four runs of pairs the search query is made of, in the order they are added. */
  function SearchPieces(req: SearchModelVersionsRequest): (Params, Params, Params, Params) {
    (Optional(req.filter != "", "filter", req.filter),
     Optional(req.maxResults > 0, "max_results", FormatInt(req.maxResults)),
     Repeated("order_by", req.orderBy),
     Optional(req.pageToken != "", "page_token", req.pageToken))
  }

  /**
   * The pairs of model-versions/search: `filter` when set, `max_results` when
   * positive, one `order_by` per ordering, `page_token` when set. What each
   * key carries is `SearchModelVersionsPairsValues`.
   */
  function SearchModelVersionsPairs(req: SearchModelVersionsRequest): (ps: Params)
    ensures Keys(ps) <= {"filter", "max_results", "order_by", "page_token"}
    ensures SortedByKey(ps)
    ensures ps == [] <==> req.filter == "" && req.maxResults <= 0 && req.orderBy == [] && req.pageToken == ""
  {
    var (a, b, r, d) := SearchPieces(req);
    SearchPairsSorted(a, b, r, d);
    a + b + r + d
  }

  /** Each key of the search query carries exactly the request field it comes from. */
  lemma SearchModelVersionsPairsValues(req: SearchModelVersionsRequest)
    ensures ValuesOf(SearchModelVersionsPairs(req), "filter") == (if req.filter != "" then [req.filter] else [])
    ensures ValuesOf(SearchModelVersionsPairs(req), "max_results")
         == (if req.maxResults > 0 then [FormatInt(req.maxResults)] else [])
    ensures ValuesOf(SearchModelVersionsPairs(req), "order_by") == req.orderBy
    ensures ValuesOf(SearchModelVersionsPairs(req), "page_token") == (if req.pageToken != "" then [req.pageToken] else [])
  {
    SearchFilterValues(req);
    SearchMaxResultsValues(req);
    SearchOrderByValues(req);
    SearchPageTokenValues(req);
  }

  lemma SearchFilterValues(req: SearchModelVersionsRequest)
    ensures ValuesOf(SearchModelVersionsPairs(req), "filter") == (if req.filter != "" then [req.filter] else [])
  {
    var (a, b, r, d) := SearchPieces(req);
    var vs := if req.filter != "" then [req.filter] else [];
    assert ValuesOf(a, "filter") == vs;
    assert ValuesOf(b, "filter") == [];
    ValuesOfRepeated("order_by", "filter", req.orderBy);
    assert ValuesOf(d, "filter") == [];
    ValuesOfFour(a, b, r, d, "filter");
    assert vs + [] + [] + [] == vs;
  }

  lemma SearchMaxResultsValues(req: SearchModelVersionsRequest)
    ensures ValuesOf(SearchModelVersionsPairs(req), "max_results")
         == (if req.maxResults > 0 then [FormatInt(req.maxResults)] else [])
  {
    var (a, b, r, d) := SearchPieces(req);
    var vs := if req.maxResults > 0 then [FormatInt(req.maxResults)] else [];
    assert ValuesOf(a, "max_results") == [];
    assert ValuesOf(b, "max_results") == vs;
    ValuesOfRepeated("order_by", "max_results", req.orderBy);
    assert ValuesOf(d, "max_results") == [];
    ValuesOfFour(a, b, r, d, "max_results");
    assert [] + vs + [] + [] == vs;
  }

  lemma SearchOrderByValues(req: SearchModelVersionsRequest)
    ensures ValuesOf(SearchModelVersionsPairs(req), "order_by") == req.orderBy
  {
    var (a, b, r, d) := SearchPieces(req);
    assert ValuesOf(a, "order_by") == [];
    assert ValuesOf(b, "order_by") == [];
    ValuesOfRepeated("order_by", "filter", req.orderBy);
    assert ValuesOf(d, "order_by") == [];
    ValuesOfFour(a, b, r, d, "order_by");
    assert [] + [] + req.orderBy + [] == req.orderBy;
  }

  lemma SearchPageTokenValues(req: SearchModelVersionsRequest)
    ensures ValuesOf(SearchModelVersionsPairs(req), "page_token") == (if req.pageToken != "" then [req.pageToken] else [])
  {
    var (a, b, r, d) := SearchPieces(req);
    var vs := if req.pageToken != "" then [req.pageToken] else [];
    assert ValuesOf(a, "page_token") == [];
    assert ValuesOf(b, "page_token") == [];
    ValuesOfRepeated("order_by", "page_token", req.orderBy);
    assert ValuesOf(d, "page_token") == vs;
    ValuesOfFour(a, b, r, d, "page_token");
    assert [] + [] + [] + vs == vs;
  }

  lemma SearchPairsSorted(a: Params, b: Params, r: Params, d: Params)
    requires forall i :: 0 <= i < |a| ==> a[i].0 == "filter"
    requires |a| <= 1 && |b| <= 1
    requires forall i :: 0 <= i < |b| ==> b[i].0 == "max_results"
    requires forall i :: 0 <= i < |r| ==> r[i].0 == "order_by"
    requires forall i :: 0 <= i < |d| ==> d[i].0 == "page_token"
    ensures SortedByKey(a + b + r + d)
    ensures Keys(a + b + r + d) <= {"filter", "max_results", "order_by", "page_token"}
  {
    assert LexLe("filter", "max_results");
    assert LexLe("filter", "order_by") && LexLe("max_results", "order_by");
    assert LexLe("filter", "page_token") && LexLe("max_results", "page_token") && LexLe("order_by", "page_token");
    SortedAppendRun(a, b, "max_results", {"filter"});
    SortedAppendRun(a + b, r, "order_by", {"filter", "max_results"});
    SortedAppendRun(a + b + r, d, "page_token", {"filter", "max_results", "order_by"});
  }

  /**
   * GET model-versions/search: the pairs are gathered in a url.Values, and
   * `?` and their encoding are appended only when there is at least one.
   */
  method SearchModelVersions(req: SearchModelVersionsRequest) returns (c: Call)
    ensures c.verb == "GET" && c.body == None
    ensures c.endpoint == Join(ModelVersionsSearch, SearchModelVersionsPairs(req))
  {
    ghost var (a, b, r, d) := SearchPieces(req);
    var params: Params := [];
    if req.filter != "" {
      params := params + [("filter", req.filter)];
    }
    assert params == a;
    if req.maxResults > 0 {
      params := params + [("max_results", FormatInt(req.maxResults))];
    }
    ghost var ab := a + b;
    assert params == ab;
    params := AddEach(params, "order_by", req.orderBy);
    if req.pageToken != "" {
      params := params + [("page_token", req.pageToken)];
    }
    assert params == ab + r + d;
    assert params == SearchModelVersionsPairs(req);
    var endpoint := ModelVersionsSearch;
    if |params| > 0 {
      endpoint := endpoint + "?" + Encode(params);
    }
    c := Call("GET", endpoint, None);
  }

  // ---------------------------------------------------------------------------
  // Bodies built as a Go map, with optional entries added only when set

  /** The fields of registered-models/update: the name, and the description when set. */
  function UpdateRegisteredModelFields(name: string, description: string): (m: map<string, string>)
    ensures "name" in m && m["name"] == name
    ensures "description" in m <==> description != ""
    ensures "description" in m ==> m["description"] == description
    ensures m.Keys <= {"name", "description"}
  {
    var m := map["name" := name];
    if description != "" then m["description" := description] else m
  }

  /** PATCH registered-models/update: a map with the name, and the description added when set. */
  method UpdateRegisteredModel(name: string, description: string) returns (c: Call)
    ensures c.verb == "PATCH" && c.endpoint == RegisteredModelsUpdate
    ensures CarriesStrings(c.body, UpdateRegisteredModelFields(name, description))
  {
    var m := map["name" := name];
    if description != "" {
      m := m["description" := description];
    }
    c := Call("PATCH", RegisteredModelsUpdate, StringBody(m));
  }

  /** The fields of model-versions/update: name and version, then description and stage when set. */
  function UpdateModelVersionFields(name: string, version: string, description: string, stage: string)
    : (m: map<string, string>)
    ensures "name" in m && m["name"] == name && "version" in m && m["version"] == version
    ensures "description" in m <==> description != ""
    ensures "description" in m ==> m["description"] == description
    ensures "stage" in m <==> stage != ""
    ensures "stage" in m ==> m["stage"] == stage
    ensures m.Keys <= {"name", "version", "description", "stage"}
  {
    var m := map["name" := name, "version" := version];
    var m := if description != "" then m["description" := description] else m;
    if stage != "" then m["stage" := stage] else m
  }

  /** PATCH model-versions/update: a map with name and version, then description and stage added when set. */
  method UpdateModelVersion(name: string, version: string, description: string, stage: string) returns (c: Call)
    ensures c.verb == "PATCH" && c.endpoint == ModelVersionsUpdate
    ensures CarriesStrings(c.body, UpdateModelVersionFields(name, version, description, stage))
  {
    var m := map["name" := name, "version" := version];
    if description != "" {
      m := m["description" := description];
    }
    if stage != "" {
      m := m["stage" := stage];
    }
    c := Call("PATCH", ModelVersionsUpdate, StringBody(m));
  }

  /**
   * The fields of model-versions/transition-stage: name, version and stage
   * always (an empty stage is still sent), the archive flag when set.
   */
  function TransitionStageFields(name: string, version: string, stage: string, archiveExistingVersions: string)
    : (m: map<string, string>)
    ensures "name" in m && m["name"] == name && "version" in m && m["version"] == version
    ensures "stage" in m && m["stage"] == stage
    ensures "archive_existing_versions" in m <==> archiveExistingVersions != ""
    ensures "archive_existing_versions" in m ==> m["archive_existing_versions"] == archiveExistingVersions
    ensures m.Keys <= {"name", "version", "stage", "archive_existing_versions"}
  {
    var m := map["name" := name, "version" := version, "stage" := stage];
    if archiveExistingVersions != "" then m["archive_existing_versions" := archiveExistingVersions] else m
  }

  /** POST model-versions/transition-stage: name, version and stage, then the archive flag added when set. */
  method TransitionModelVersionStage(name: string, version: string, stage: string, archiveExistingVersions: string)
    returns (c: Call)
    ensures c.verb == "POST" && c.endpoint == ModelVersionsTransitionStage
    ensures CarriesStrings(c.body, TransitionStageFields(name, version, stage, archiveExistingVersions))
  {
    var m := map["name" := name, "version" := version, "stage" := stage];
    if archiveExistingVersions != "" {
      m := m["archive_existing_versions" := archiveExistingVersions];
    }
    c := Call("POST", ModelVersionsTransitionStage, StringBody(m));
  }

  // ---------------------------------------------------------------------------
  // Bodies with a defaulted timestamp. `now` is `time.Now().UnixMilli()`.

  /** runs/create: a zero start time is replaced by `now`; every other field is sent as given. */
  function CreateRun(req: CreateRunRequest, now: int): (c: Call)
    ensures c.verb == "POST" && c.endpoint == RunsCreate && c.body.Some?
    ensures var sent := DecodeCreateRunRequest(c.body.value);
      && sent.Some?
      && sent.value.startTime == (if req.startTime == 0 then now else req.startTime)
      && sent.value.(startTime := req.startTime) == req
    ensures c.body == Some(EncodeCreateRunRequest(if req.startTime == 0 then req.(startTime := now) else req))
  {
    var sent := if req.startTime == 0 then req.(startTime := now) else req;
    CreateRunRequestRoundTrip(sent);
    Call("POST", RunsCreate, Some(EncodeCreateRunRequest(sent)))
  }

  /**
   * runs/log-metric: a zero timestamp is replaced by `now`; the step, zero
   * or not, is sent as given, and so is every other field.
   */
  function LogMetric(req: LogMetricRequest, now: int): (c: Call)
    ensures c.verb == "POST" && c.endpoint == RunsLogMetric && c.body.Some?
    ensures var sent := DecodeLogMetricRequest(c.body.value);
      && sent.Some?
      && sent.value.timestamp == (if req.timestamp == 0 then now else req.timestamp)
      && sent.value.step == req.step
      && sent.value.(timestamp := req.timestamp) == req
    ensures c.body == Some(EncodeLogMetricRequest(if req.timestamp == 0 then req.(timestamp := now) else req))
  {
    var withTime := if req.timestamp == 0 then req.(timestamp := now) else req;
    var sent := if withTime.step == 0 then withTime.(step := 0) else withTime;
    LogMetricRequestRoundTrip(sent);
    Call("POST", RunsLogMetric, Some(EncodeLogMetricRequest(sent)))
  }
}
