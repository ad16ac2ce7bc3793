# MLflow Go client: request, response and error layer

This project models the deterministic layer of a Go client for the MLflow
tracking and model-registry REST API (`/api/2.0/mlflow/...`), and proves
properties of that model:

- **Configuration.** `NewClient` normalises the base URL. `SetAuthToken` and
  `SetTimeout` update the client in place.
- **The executors.** `doRequest` marshals the body and builds the request
  (base URL + endpoint, JSON content type, bearer token). It sends the
  request, then either returns the body of a 2xx answer or fails. A failure
  is one of four prefixed text errors, or a structured `APIError` filled from
  the status, the raw body and the optionally decoded
  `{error_code, message}` body. `doTextRequest` is the plain-text variant
  behind `GetHealth` and `GetVersion`.
- **Typed operations.** Each one hands its executor a method, an endpoint and
  a body. Most endpoints are formatted with `fmt.Sprintf` and
  `url.QueryEscape`. The list and search endpoints grow a `url.Values`.
  Eight bodies are maps: three add optional keys only when set
  (`UpdateRegisteredModel`, `UpdateModelVersion`,
  `TransitionModelVersionStage`), and five have fixed keys. The other
  eighteen bodies are request structs, whose `json` tags and `omitempty`
  decide what is sent. `CreateRun` and `LogMetric` replace a zero time with the current
  time. After `doRequest`, a typed operation either passes the error on
  unchanged or decodes the response.
- **Errors.** `APIError.Error()`, the `Get*` accessors and `IsAPIError`.
- **The older root client** (`client.go`). It builds requests the same way
  but flattens a non-2xx answer into text (`API error: ...`) instead of an
  `APIError`.

Modules:

| module | file | models |
|---|---|---|
| `Wrappers` | wrappers.dfy | `Option` and `Result`, with `:-` |
| `GoText` | gotext.dfy | bytes, `string([]byte)`, `%d`, byte-wise string order |
| `Http` | http.dfy | the request handed to the transport, its outcome, the 2xx class, bearer credentials |
| `Json` | json.dfy | JSON values, `omitempty`, reading fields back as `json.Unmarshal` fills a struct |
| `UrlQuery` | urlquery.dfy | `url.QueryEscape`, `url.Values` (`Add`, `Encode`), and a reference reader of request targets |
| `Models` | models.dfy | `APIError`, `IsAPIError`, and every request struct with its JSON encoder, reference decoder and round trip |
| `Requests` | requests.dfy | what every typed operation hands to its executor (method, endpoint, body) |
| `MlflowClient` | client.dfy | pkg/mlflow's `Client`, `doRequest`, `doTextRequest` and the decoding step of typed operations |
| `RootClient` | rootclient.dfy | the root package's `Client` and its `doRequest` |

Code that changes state step by step is written as methods of a class or as
methods with loops:
- the `Client` setters;
- `doRequest`, which fills `apiErr` in place;
- the `params.Add` loops;
- the conditional map updates;
- the `endpoint +=` chains.

Each of these methods is proved equal to a specification function (for
example `Client.DoRequest` ensures `r == Execute(Configuration(), call,
env)`). The lemmas then state what those functions guarantee.

The foreign calls are parameters, bundled in `MlflowClient.Env`:
- `json.Marshal`;
- the error `http.NewRequest` may return;
- `HTTPClient.Do` followed by `io.ReadAll`;
- `json.Unmarshal` of an error body.

A typed operation's `json.Unmarshal` into its response type is the `decode`
parameter of `Client.Invoke`. `time.Now().UnixMilli()` is the `now`
parameter of `Requests.CreateRun` and `Requests.LogMetric`.

A Go string is modelled as a Dafny `string` with one char per byte.
`url.QueryEscape` is modelled concretely. Its partner is a reference reader,
`UrlQuery.Target`, which gives back exactly the path and pairs of every
target the client writes (`UrlQuery.TargetOfJoin`). A request struct's
partner is a reference decoder. The round-trip lemmas show that `omitempty`
drops only fields that decoding restores as zero values.

Notes on the code that a reader of the API might not expect:
- `doRequest` sets `Content-Type: application/json` on every request, with
  or without a body (pkg/mlflow/client.go:61).
- The search operations do no local check of `MaxResults`. `SearchRuns` and
  `SearchRegisteredModels` send the field as given, and `omitempty` drops
  only a zero. A negative value is sent.
  (pkg/mlflow/client.go:224-237, 278-291).
- `SearchModelVersions` puts `max_results` in the query only when it is
  positive (pkg/mlflow/client.go:671-704).

## Model

| member | source | states |
|---|---|---|
| GoText.TextInjective | pkg/mlflow/models.go:344-346 | `string(body)` loses nothing: two byte slices with the same text are equal |
| GoText.ParseFormatInt | pkg/mlflow/client.go:152-155 | `fmt.Sprintf("%d", n)` can be read back into `n`, negative numbers included |
| GoText.FormatParseInt | pkg/mlflow/client.go:152-155 | the reader accepts only what `%d` prints (no leading zero, no "-0"): any text it reads as `n` is `fmt.Sprintf("%d", n)` |
| Http.ParseBearerCredentials | pkg/mlflow/client.go:62-64 | `"Bearer " + token` carries exactly the token, and only such a value reads back as that token |
| UrlQuery.QueryEscape | pkg/mlflow/client.go:177 | the escaped text holds only unreserved bytes, `+` and `%`, so never a query delimiter |
| UrlQuery.UnescapeEscape | pkg/mlflow/client.go:177 | unescaping the `QueryEscape` of any byte string gives the string back |
| UrlQuery.EscapeUnreserved | pkg/mlflow/client.go:177 | a string of unreserved bytes is its own escape, so literal keys appear as written |
| UrlQuery.DecodeEncode | pkg/mlflow/client.go:152-159 | reading `Encode(ps)` back gives exactly the pairs `ps`, in order |
| UrlQuery.TargetOfJoin | pkg/mlflow/client.go:159 | a server reading `path?Encode(ps)` (or `path` alone when there are no pairs) finds exactly `path` and `ps` |
| UrlQuery.ValuesOfAppend | pkg/mlflow/client.go:152-158 | the values under a key of pairs added one after another are the first list's values followed by the second's |
| UrlQuery.ValuesOfRepeated | pkg/mlflow/client.go:651-653 | one `Add(key, v)` per value gives exactly those values under `key`, in order, and none under any other key |
| UrlQuery.SprintfOne | pkg/mlflow/client.go:177 | `path + "?k=" + QueryEscape(v)` is the target with the single pair `(k, v)` |
| UrlQuery.AppendPairs | pkg/mlflow/client.go:401 | appending `"&" + Encode(qs)` to a target that already has a query adds exactly the pairs `qs` |
| UrlQuery.AppendPair | pkg/mlflow/client.go:420-425 | appending `"&k=" + QueryEscape(v)` to a target that already has a query adds exactly `(k, v)` |
| UrlQuery.SortedAppendRun | pkg/mlflow/client.go:674-691 | adding a run of pairs under a key that sorts after every key already present keeps the pairs in `Encode`'s sorted key order |
| Json.OmitEmpty | pkg/mlflow/models.go:131-137 | an `omitempty` field is written exactly when its value is not the zero value, and is written unchanged |
| Json.ReadOmitEmptyItems | pkg/mlflow/models.go:23-27 | a slice field reads back as written whether or not `omitempty` dropped it |
| Models.APIError.Error | pkg/mlflow/models.go:323-331 | `MLflow API error [<status>]: ` followed by `<code> - <message>` when there is a code, else the message when there is one, else the raw body; the status and that detail can be read back from the text, which with `Models.ReadErrorTextCanonical` fixes the text exactly |
| Models.ReadStatusTextOf | pkg/mlflow/models.go:323-331 | a status printed with `%d` between a prefix and a separator that no number contains reads back with the text after it |
| Models.ReadStatusTextCanonical | pkg/mlflow/models.go:323-331 | any text the status reader accepts is exactly the prefix, the `%d` of the status, the separator and the rest |
| Models.ReadFormattedErrorText | pkg/mlflow/models.go:323-331 | the `MLflow API error [%d]: %s` text gives back its status and its detail |
| Models.ReadErrorTextCanonical | pkg/mlflow/models.go:323-331 | any text read back as a status and a detail is exactly `MLflow API error [` + the `%d` of the status + `]: ` + the detail |
| Models.APIError.GetStatusCode | pkg/mlflow/models.go:334-336 | returns the stored status |
| Models.APIError.GetResponseBody | pkg/mlflow/models.go:339-341 | returns the stored raw body |
| Models.APIError.GetResponseBodyString | pkg/mlflow/models.go:344-346 | has the body's length and, position by position, the body's bytes |
| Models.APIError.GetErrorCode | pkg/mlflow/models.go:349-351 | returns the stored error code |
| Models.APIError.GetMessage | pkg/mlflow/models.go:354-356 | returns the stored message |
| Models.IsAPIError | pkg/mlflow/models.go:359-365 | `true` exactly for a non-nil error that is an `*APIError`, which it returns as itself; nil and any other error give `(nil, false)` |
| Models.EncodeCreateExperimentRequest | pkg/mlflow/models.go:23-27 | `name` always; `artifact_location` and `tags` exactly when set; no other key |
| Models.CreateExperimentRequestRoundTrip | pkg/mlflow/models.go:23-27 | decoding the encoded request gives it back |
| Models.EncodeCreateRunRequest | pkg/mlflow/models.go:131-137 | `experiment_id` always; `user_id`, `run_name`, `start_time` and `tags` exactly when non-zero; no other key |
| Models.CreateRunRequestRoundTrip | pkg/mlflow/models.go:131-137 | decoding the encoded request gives it back, a dropped zero `start_time` included |
| Models.EncodeLogMetricRequest | pkg/mlflow/models.go:145-151 | `run_id`, `key` and `value` always; `timestamp` and `step` exactly when non-zero; no other key |
| Models.LogMetricRequestRoundTrip | pkg/mlflow/models.go:145-151 | decoding the encoded request gives it back |
| Models.EncodeRunKeyValueRequest | pkg/mlflow/models.go:154-165 | `run_id`, `key` and `value` always, and nothing else |
| Models.RunKeyValueRequestRoundTrip | pkg/mlflow/models.go:154-165 | decoding the encoded request gives it back |
| Models.EncodeSearchRunsRequest | pkg/mlflow/models.go:168-175 | each of the six fields is written exactly when non-zero (so a negative `max_results` is sent); no other key |
| Models.SearchRunsRequestRoundTrip | pkg/mlflow/models.go:168-175 | decoding the encoded request gives it back |
| Models.EncodeUpdateRunRequest | pkg/mlflow/models.go:184-188 | `run_id` always; `status` and `end_time` exactly when set; no other key |
| Models.UpdateRunRequestRoundTrip | pkg/mlflow/models.go:184-188 | decoding the encoded request gives it back |
| Models.EncodeCreateRegisteredModelRequest | pkg/mlflow/models.go:237-241 | `name` always; `tags` and `description` exactly when set; no other key |
| Models.CreateRegisteredModelRequestRoundTrip | pkg/mlflow/models.go:237-241 | decoding the encoded request gives it back |
| Models.EncodeCreateModelVersionRequest | pkg/mlflow/models.go:249-255 | `name` and `source` always; `run_id`, `tags` and `description` exactly when set; no other key |
| Models.CreateModelVersionRequestRoundTrip | pkg/mlflow/models.go:249-255 | decoding the encoded request gives it back |
| Models.EncodeSearchExperimentsRequest | pkg/mlflow/models.go:368-374 | each of the five fields is written exactly when non-zero; no other key |
| Models.SearchExperimentsRequestRoundTrip | pkg/mlflow/models.go:368-374 | decoding the encoded request gives it back |
| Models.EncodeSearchRequest | pkg/mlflow/models.go:508-513 | `filter`, `max_results`, `order_by` and `page_token` each exactly when non-zero; no other key |
| Models.SearchRequestRoundTrip | pkg/mlflow/models.go:508-513 | decoding the encoded request gives it back |
| Models.EncodeLogModelRequest | pkg/mlflow/models.go:426-429 | `run_id` and `model_json` always, and nothing else |
| Models.LogModelRequestRoundTrip | pkg/mlflow/models.go:426-429 | decoding the encoded request gives it back |
| Models.DatasetSchemaRoundTrip | pkg/mlflow/models.go:114-116 | decoding the encoded schema gives it back, an empty column list included |
| Models.EncodeDataset | pkg/mlflow/models.go:103-111 | an object that always carries `name`, `digest`, `source_type` and `source` with their values and `schema` as the encoded schema struct, carries `profile` and `tags` exactly when set, and has no key beyond these seven |
| Models.DatasetOptionalFields | pkg/mlflow/models.go:103-111 | the schema is always written and the `omitempty` fields read back as written |
| Models.DatasetRoundTrip | pkg/mlflow/models.go:103-111 | decoding the encoded dataset gives it back |
| Models.EncodeModelInput | pkg/mlflow/models.go:439-445 | `model_name` always; the other four fields exactly when set |
| Models.ModelInputRoundTrip | pkg/mlflow/models.go:439-445 | decoding the encoded model input gives it back |
| Models.LogInputsRequestRoundTrip | pkg/mlflow/models.go:432-436 | decoding the encoded request, datasets and model inputs included, gives it back |
| Models.RenameRegisteredModelRequestRoundTrip | pkg/mlflow/models.go:454-457 | decoding the encoded request gives it back |
| Models.GetDownloadURIsRequestRoundTrip | pkg/mlflow/models.go:490-494 | decoding the encoded request gives it back |
| Models.SetRegisteredModelTagRequestRoundTrip | pkg/mlflow/models.go:522-526 | decoding the encoded request gives it back |
| Models.SetModelVersionTagRequestRoundTrip | pkg/mlflow/models.go:529-534 | decoding the encoded request gives it back |
| Models.SetRegisteredModelAliasRequestRoundTrip | pkg/mlflow/models.go:550-554 | decoding the encoded request gives it back |
| Models.MetricsRoundTrip | pkg/mlflow/models.go:83-88 | every metric decodes back from its encoding |
| Requests.StringBody | pkg/mlflow/client.go:202-206 | a `map[string]string` body has exactly the map's keys, each reading back as its string |
| Requests.GetExperiment | pkg/mlflow/client.go:117-130 | GET, no body, target `experiments/get` with the single pair `experiment_id` |
| Requests.GetExperimentByName | pkg/mlflow/client.go:133-146 | GET, no body, target with the single pair `experiment_name` |
| Requests.DeleteExperiment | pkg/mlflow/client.go:176-180 | POST with no body; the id travels in the query |
| Requests.RestoreExperiment | pkg/mlflow/client.go:183-187 | POST with no body; the id travels in the query |
| Requests.GetRun | pkg/mlflow/client.go:262-275 | GET, no body, the single pair `run_id` |
| Requests.DeleteRun | pkg/mlflow/client.go:310-314 | POST, no body, the single pair `run_id` |
| Requests.RestoreRun | pkg/mlflow/client.go:317-321 | POST, no body, the single pair `run_id` |
| Requests.GetRegisteredModel | pkg/mlflow/client.go:459-472 | GET, no body, the single pair `name` |
| Requests.DeleteRegisteredModel | pkg/mlflow/client.go:515-519 | DELETE, no body, the single pair `name` |
| Requests.GetModelVersion | pkg/mlflow/client.go:538-552 | GET, no body, the pairs `name`, `version` |
| Requests.DeleteModelVersion | pkg/mlflow/client.go:599-604 | DELETE, no body, the pairs `name`, `version` |
| Requests.DeleteRegisteredModelTag | pkg/mlflow/client.go:753-758 | DELETE, no body, the pairs `name`, `key` |
| Requests.DeleteModelVersionTag | pkg/mlflow/client.go:761-766 | DELETE, no body, the pairs `name`, `version`, `key` |
| Requests.DeleteRegisteredModelAlias | pkg/mlflow/client.go:776-781 | DELETE, no body, the pairs `name`, `alias`; the request's version is not sent |
| Requests.GetModelVersionByAlias | pkg/mlflow/client.go:784-798 | GET, no body, the pairs `name`, `alias` |
| Requests.CreateExperiment | pkg/mlflow/client.go:101-114 | POST `experiments/create` with the request's `json.Marshal` encoding as the body (exactly the keys its `json` tags and `omitempty` send), which decodes back to the request |
| Requests.SearchExperiments | pkg/mlflow/client.go:224-237 | POST with the request's `json.Marshal` encoding as the body (exactly the keys its `json` tags and `omitempty` send), which decodes back to the request, `max_results` unchecked |
| Requests.SearchRuns | pkg/mlflow/client.go:278-291 | POST with the request's `json.Marshal` encoding as the body (exactly the keys its `json` tags and `omitempty` send), which decodes back to the request, `max_results` unchecked |
| Requests.UpdateRun | pkg/mlflow/client.go:294-307 | POST with the request's `json.Marshal` encoding as the body (exactly the keys its `json` tags and `omitempty` send), which decodes back to the request |
| Requests.LogParam | pkg/mlflow/client.go:338-342 | POST `runs/log-parameter` with the request's `json.Marshal` encoding as the body (exactly the keys its `json` tags and `omitempty` send), which decodes back to the request |
| Requests.SetTag | pkg/mlflow/client.go:345-349 | POST `runs/set-tag` with the request's `json.Marshal` encoding as the body (exactly the keys its `json` tags and `omitempty` send), which decodes back to the request |
| Requests.LogModel | pkg/mlflow/client.go:376-380 | POST with the request's `json.Marshal` encoding as the body (exactly the keys its `json` tags and `omitempty` send), which decodes back to the request |
| Requests.LogInputs | pkg/mlflow/client.go:383-387 | POST with the request's `json.Marshal` encoding as the body (exactly the keys its `json` tags and `omitempty` send), which decodes back to the request |
| Requests.CreateRegisteredModel | pkg/mlflow/client.go:443-456 | POST with the request's `json.Marshal` encoding as the body (exactly the keys its `json` tags and `omitempty` send), which decodes back to the request |
| Requests.CreateModelVersion | pkg/mlflow/client.go:522-535 | POST with the request's `json.Marshal` encoding as the body (exactly the keys its `json` tags and `omitempty` send), which decodes back to the request |
| Requests.RenameRegisteredModel | pkg/mlflow/client.go:631-644 | POST with the request's `json.Marshal` encoding as the body (exactly the keys its `json` tags and `omitempty` send), which decodes back to the request |
| Requests.GetDownloadURIs | pkg/mlflow/client.go:707-720 | POST with the request's `json.Marshal` encoding as the body (exactly the keys its `json` tags and `omitempty` send), which decodes back to the request |
| Requests.SearchRegisteredModels | pkg/mlflow/client.go:723-736 | POST with the request's `json.Marshal` encoding as the body (exactly the keys its `json` tags and `omitempty` send), which decodes back to the request, `max_results` unchecked |
| Requests.SetRegisteredModelTag | pkg/mlflow/client.go:739-743 | POST with the request's `json.Marshal` encoding as the body (exactly the keys its `json` tags and `omitempty` send), which decodes back to the request |
| Requests.SetModelVersionTag | pkg/mlflow/client.go:746-750 | POST with the request's `json.Marshal` encoding as the body (exactly the keys its `json` tags and `omitempty` send), which decodes back to the request |
| Requests.SetRegisteredModelAlias | pkg/mlflow/client.go:769-773 | POST with the request's `json.Marshal` encoding as the body (exactly the keys its `json` tags and `omitempty` send), which decodes back to the request |
| Requests.UpdateExperiment | pkg/mlflow/client.go:190-198 | POST with exactly `experiment_id` and `new_name` |
| Requests.SetExperimentTag | pkg/mlflow/client.go:201-210 | POST with exactly `experiment_id`, `key` and `value` |
| Requests.DeleteExperimentTag | pkg/mlflow/client.go:213-221 | POST with exactly `experiment_id` and `key` |
| Requests.DeleteTag | pkg/mlflow/client.go:352-360 | POST with exactly `run_id` and `key` |
| Requests.LogBatch | pkg/mlflow/client.go:363-373 | POST with exactly `run_id`, `metrics`, `params` and `tags`, each reading back as passed |
| Requests.PageParams | pkg/mlflow/client.go:151-159 | `max_results` exactly when positive, `page_token` exactly when set, nothing else, in `Encode`'s order; no pair at all exactly when neither holds |
| Requests.PageValues | pkg/mlflow/client.go:152-158 | the step-by-step `Add`s give exactly `PageParams` |
| Requests.ListExperiments | pkg/mlflow/client.go:149-160 | GET, no body; the bare path when there is no paging pair, else `?` and exactly the paging pairs |
| Requests.ListRegisteredModels | pkg/mlflow/client.go:475-486 | GET, no body; the bare path when there is no paging pair, else `?` and exactly the paging pairs |
| Requests.ListModelVersions | pkg/mlflow/client.go:555-566 | GET, no body, `name` and then, after `&`, exactly the paging pairs |
| Requests.GetMetricHistory | pkg/mlflow/client.go:390-402 | GET, no body, `run_uuid` (the request's run id) and `metric_key`, then exactly the paging pairs |
| Requests.ArtifactPairs | pkg/mlflow/client.go:419-425 | `run_id` always, `path` and `page_token` exactly when set, nothing else |
| Requests.AddPair | pkg/mlflow/client.go:420-425 | `endpoint += "&k=" + QueryEscape(v)` adds exactly the pair `(k, v)` |
| Requests.ListArtifacts | pkg/mlflow/client.go:418-427 | GET, no body, target carrying exactly `ArtifactPairs` |
| Requests.LatestVersionsPairs | pkg/mlflow/client.go:648-655 | `name` once and one `stages` value per stage, in order, and nothing else |
| Requests.AddEach | pkg/mlflow/client.go:651-653 | the `Add` loop appends one pair per value, in order, after the pairs already there |
| Requests.GetLatestModelVersions | pkg/mlflow/client.go:647-668 | GET, no body, target carrying exactly `LatestVersionsPairs`; no `&` when there are no stages |
| Requests.SearchModelVersionsPairs | pkg/mlflow/client.go:674-691 | only the four search keys, in `Encode`'s sorted order; no pair exactly when filter, positive max results, orderings and token are all absent |
| Requests.SearchModelVersionsPairsValues | pkg/mlflow/client.go:674-691 | `filter` and `page_token` exactly when set, `max_results` exactly when positive, one `order_by` per ordering, in order |
| Requests.SearchModelVersions | pkg/mlflow/client.go:671-693 | GET, no body; the bare path when there is no pair, else `?` and exactly `SearchModelVersionsPairs` |
| Requests.UpdateRegisteredModelFields | pkg/mlflow/client.go:503-508 | `name` always, `description` exactly when non-empty, no other key |
| Requests.UpdateRegisteredModel | pkg/mlflow/client.go:502-512 | PATCH with a body carrying exactly `UpdateRegisteredModelFields` |
| Requests.UpdateModelVersionFields | pkg/mlflow/client.go:583-592 | `name` and `version` always, `description` and `stage` exactly when non-empty, no other key |
| Requests.UpdateModelVersion | pkg/mlflow/client.go:582-596 | PATCH with a body carrying exactly `UpdateModelVersionFields` |
| Requests.TransitionStageFields | pkg/mlflow/client.go:608-615 | `name`, `version` and `stage` always (an empty stage too), `archive_existing_versions` exactly when non-empty, no other key |
| Requests.TransitionModelVersionStage | pkg/mlflow/client.go:607-617 | POST with a body carrying exactly `TransitionStageFields` |
| Requests.CreateRun | pkg/mlflow/client.go:242-247 | the body is the `json.Marshal` encoding of the request with the defaulted start time; the sent start time is `now` exactly when the request's is zero, else unchanged; every other field is sent as given |
| Requests.LogMetric | pkg/mlflow/client.go:324-334 | the body is the `json.Marshal` encoding of the request with the defaulted timestamp; the sent timestamp is `now` exactly when the request's is zero, else unchanged; the step and every other field are sent as given |
| MlflowClient.NormalizeBaseURL | pkg/mlflow/client.go:21-26 | a URL ending in `/` loses exactly that one `/`; any other URL, `""` included, is kept |
| MlflowClient.NormalizeBaseURLStripsOne | pkg/mlflow/client.go:21-26 | a URL with one `/` added normalises back to itself; the result still ends in `/` exactly when the URL ended in `//` |
| MlflowClient.RequestHeaders | pkg/mlflow/client.go:61-64 | `Content-Type: application/json` exactly for doRequest; `Authorization` exactly when there is a token, carrying `Bearer <token>`; no other header |
| MlflowClient.Payload | pkg/mlflow/client.go:47-54 | no body for a nil body, else the marshalled bytes, else `failed to marshal request body: ` and the error |
| MlflowClient.Prepare | pkg/mlflow/client.go:56-64 | fails exactly when `http.NewRequest` does, with `failed to create request: `; else the request to base URL + endpoint with the payload, the timeout and `RequestHeaders` |
| MlflowClient.StatusError | pkg/mlflow/client.go:78-90 | status and raw body always; code and message from a parsed body, else empty code and the body as message |
| MlflowClient.Classify | pkg/mlflow/client.go:66-95 | success exactly for a received 2xx, with the body unchanged; a non-2xx answer gives `StatusError`; send and read failures give their prefixed errors |
| MlflowClient.SentRequestShape | pkg/mlflow/client.go:46-66 | doRequest sends exactly when marshalling and `NewRequest` succeed, to base URL + endpoint, with the JSON content type, the bearer token when set and the marshalled body |
| MlflowClient.ExecuteSucceeds | pkg/mlflow/client.go:77-95 | doRequest succeeds exactly when the request was sent and the answer is 2xx, and then returns the body unchanged |
| MlflowClient.ExecuteStatusFailure | pkg/mlflow/client.go:77-92 | a non-2xx answer gives an `APIError` with that status and raw body and the parsed code and message, else empty code and the body as message |
| MlflowClient.ExecuteErrors | pkg/mlflow/client.go:46-92 | an error is an `APIError` exactly for a non-2xx answer; a marshal failure, a `NewRequest` error, a failed send and a failed read each give the text error with that step's prefix followed by the foreign error |
| MlflowClient.ExecuteIsAPIError | pkg/mlflow/client.go:77-92 | `IsAPIError` accepts doRequest's error exactly for a non-2xx answer, with that status and body |
| MlflowClient.StatusErrorText | pkg/mlflow/client.go:78-90 | the text of doRequest's status error carries the status and the parsed code and message, the message alone, or the raw body |
| MlflowClient.ClassifyText | pkg/mlflow/client.go:812-831 | success exactly for a received 2xx, with the body as a string; a non-2xx answer gives an `APIError` with the body as message and no code |
| MlflowClient.ExecuteTextShape | pkg/mlflow/client.go:801-831 | doTextRequest sends no body and no content type, the bearer token exactly when set; its status error is the unparsed-body `APIError`, whose text ends in the raw body |
| MlflowClient.ClassifyTextAgrees | pkg/mlflow/client.go:812-831 | the two executors succeed on the same outcomes, doTextRequest returning doRequest's bytes as text, and fail alike on send and read errors |
| MlflowClient.Decoded | pkg/mlflow/client.go:104-113 | a typed operation passes doRequest's error on unchanged, else returns the decoded response, else `failed to unmarshal response: ` and the error |
| MlflowClient.ErrorOf | pkg/mlflow/client.go:176-180 | an operation without a response returns no error exactly when doRequest succeeded, else doRequest's error |
| MlflowClient.DecodedIsAPIError | pkg/mlflow/client.go:104-111 | `IsAPIError` finds an `APIError` in a typed operation's error exactly when doRequest returned one, the same one |
| MlflowClient.Client.constructor | pkg/mlflow/client.go:21-33 | the normalised base URL, no token, a 30 s timeout |
| MlflowClient.Client.SetAuthToken | pkg/mlflow/client.go:36-38 | the token changes and nothing else does |
| MlflowClient.Client.SetTimeout | pkg/mlflow/client.go:41-43 | the timeout changes and nothing else does |
| MlflowClient.Client.DoRequest | pkg/mlflow/client.go:46-96 | the step-by-step executor, filling `apiErr` in place, returns exactly `Execute` of the client's configuration |
| MlflowClient.Client.DoTextRequest | pkg/mlflow/client.go:801-832 | the step-by-step text executor returns exactly `ExecuteText` of the client's configuration |
| MlflowClient.Client.GetHealth | pkg/mlflow/client.go:835-837 | the text executor on `GET /health` |
| MlflowClient.Client.GetVersion | pkg/mlflow/client.go:840-842 | the text executor on `GET /version` |
| MlflowClient.Client.Invoke | pkg/mlflow/client.go:101-114 | a typed operation with a response is `Decoded` of doRequest's result |
| MlflowClient.Client.InvokeNoContent | pkg/mlflow/client.go:176-180 | a typed operation without a response returns doRequest's error, or none |
| RootClient.FlatStatusError | client.go:77-83 | starts with `API error: `; `<code> - <message>` for a parsed body, else `status <n>, body: <body>` |
| RootClient.ReadFlatStatusErrorOf | client.go:82 | the status and the raw body can be read back from the unparsed-body text |
| RootClient.ReadFlatStatusErrorCanonical | client.go:82 | any text read back as a status and a body is exactly `API error: status ` + the `%d` of the status + `, body: ` + the body |
| RootClient.ClassifyFlat | client.go:77-85 | a non-2xx answer is a text error with `FlatStatusError` |
| RootClient.ExecuteFlatAgrees | client.go:46-86 | the root doRequest succeeds exactly when pkg/mlflow's does, with the same bytes; the text errors agree; it never returns an `APIError` |
| RootClient.ExecuteFlatStatusFailure | client.go:77-83 | the root status error carries what pkg/mlflow's `APIError` holds: the parsed code and message, or the status and raw body |
| RootClient.Client.constructor | client.go:21-33 | the normalised base URL, no token, a 30 s timeout |
| RootClient.Client.SetAuthToken | client.go:36-38 | the token changes and nothing else does |
| RootClient.Client.SetTimeout | client.go:41-43 | the timeout changes and nothing else does |
| RootClient.Client.DoRequest | client.go:46-86 | the step-by-step root executor returns exactly `ExecuteFlat` of the client's configuration |
| RootClient.Client.Invoke | client.go:91-104 | a root typed operation with a response is `Decoded` of the root doRequest's result |
| RootClient.Client.InvokeNoContent | client.go:166-170 | a root typed operation without a response returns the root doRequest's error, or none |

## Left out

- The transport: `http.NewRequest`, `HTTPClient.Do`, `io.ReadAll`, the timeout's effect and `resp.Body.Close`. They are I/O. `Env` supplies `NewRequest`'s possible error and the outcome of the exchange, and the timeout is only carried in the request.
- `json.Marshal` and `json.Unmarshal`. These are library calls. Bodies are modelled as JSON values up to `Marshal`, which is the `marshal` parameter. Error bodies and responses are decoded by the `parseError` and `decode` parameters. Key order in a marshalled object is not modelled.
- Response structs (`*Response`, `Experiment`, `Run`, `ModelVersion`, ...). They only receive `json.Unmarshal`'s output, which the `decode` parameter stands for.
- `time.Now()`. It is I/O, so `now` is a parameter.
- Float fields (`LogMetricRequest.Value`, `Metric.Value`). They are kept as opaque `bv64` bit patterns, because no arithmetic is done on them. `omitempty` is not modelled on any float field, since none carries it.
- Go's `nil` versus empty slice. `LogBatch` with a nil slice marshals `null` where an empty slice gives `[]`. The model has one empty sequence and writes `[]`.
- `Requests`: one builder stands for the pkg/mlflow/client.go operation and for its root client.go copy. The root copy's text is the same for every operation the two have in common, so those copies get no separate rows.
- `Requests.SearchModelVersions` and `Requests.GetLatestModelVersions`: their pairs are kept in `Add` order, while Go's `url.Values.Encode` sorts keys. The orders agree because every builder adds its keys in sorted order (`SortedByKey`, proved in `PageParams` and `SearchModelVersionsPairs`).
- `GetMetricHistory` reads `req.RunUUID`, which `GetMetricHistoryRequest` (pkg/mlflow/models.go:404-409) does not declare. The model sends the request's run id as `run_uuid`.
- `IsAPIError` recognises only an error that is itself an `*APIError`. No other error type the client returns wraps one, so wrapping is not modelled.
- The root models.go response structs. They only receive `json.Unmarshal`'s output, as above. Its request structs (`CreateExperimentRequest`, `CreateRunRequest`, `LogMetricRequest`, `LogParamRequest`, `SetTagRequest`, `SearchRunsRequest`, `UpdateRunRequest`, `CreateRegisteredModelRequest`, `CreateModelVersionRequest`, and `Metric`, `Param` and `RunTag`) and its `ErrorResponse` have the same fields, `json` tags and `omitempty` as those of pkg/mlflow/models.go. So they are modelled by the `Models` encoders and by `Models.ErrorResponse`, which the root client's calls share.
- Tests, test utilities and the example program: they drive a live server and do network I/O.
