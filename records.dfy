/**
 * The log record: `OperateLogMixin.deal_arguments` (which diff to keep and
 * the arguments it hands on) and `OperateLogMixin.add_log` (the row written
 * to the log).
 *
 * DeepDiff is an uninterpreted function of the two snapshots and the set of
 * excluded paths; its output, re-read through `json.loads`, is one JSON value.
 */
module Records {
  import opened Values
  import opened Bodies
  import opened Snapshot

  /**
   * The request as the record sees it: `verb` is `request.method`, and the
   * user is reduced to the text of its id and whether it is a `User`.
   */
  datatype Request = Request(
    path: string,
    verb: string,
    body: seq<byte>,
    headers: map<string, string>,
    operatorId: string,
    isManager: bool)

  /** `DeepDiff(before, after, exclude_paths=...)` followed by `to_json` and `json.loads`. */
  type DeepDiff = (Fields, Fields, set<string>) -> Json

  /** The library calls the record is built with. */
  datatype Collaborators = Collaborators(codec: Codec, deepDiff: DeepDiff, resource: Resource)

  const Version: string := "1.0"

  /** The paths DeepDiff is told to skip. */
  const ExcludedPaths: set<string> := {"root['create_time']", "root['update_time']"}

  /** The top-level fields those paths name. */
  const VolatileFields: set<string> := {"create_time", "update_time"}

  /**
   * One logged row. Its keys are fixed: version, url, method, body,
   * response, headers, before, after, diff, operator_id, is_manager and
   * create_time; every entry but the first and the last is read from the
   * arguments with `dict.get`, so it is `null` when the argument is missing.
   */
  datatype LogRow = LogRow(
    version: string,
    url: Json,
    verb: Json,
    body: Json,
    response: Json,
    headers: Json,
    before: Json,
    after: Json,
    diff: Json,
    operatorId: Json,
    isManager: Json,
    createTime: string)

  /**
   * The diff kept in the record (`None` is Python's `None`): nothing when
   * the after-snapshot is falsy, whatever the before-snapshot is; the
   * after-snapshot verbatim when only the before-snapshot is falsy; the
   * DeepDiff of the two, skipping the timestamp paths, when both are truthy.
   */
  function SelectDiff(before: Option<Fields>, after: Option<Fields>, deepDiff: DeepDiff): (diff: Option<Json>)
    ensures diff.None? <==> !Truthy(after)
    ensures !Truthy(before) && Truthy(after) ==> diff == Some(JObject(after.value))
    ensures Truthy(before) && Truthy(after) ==> diff == Some(deepDiff(before.value, after.value, ExcludedPaths))
  {
    if !Truthy(after) then None
    else if !Truthy(before) && Truthy(after) then Some(JObject(after.value))
    else Some(deepDiff(before.value, after.value, ExcludedPaths))
  }

  /** DeepDiff reports no change between a snapshot and itself. */
  ghost predicate EmptyOnIdentical(deepDiff: DeepDiff) {
    forall s: Fields {:trigger deepDiff(s, s, ExcludedPaths)} :: deepDiff(s, s, ExcludedPaths) == EmptyObject
  }

  /** DeepDiff, told to skip the timestamp paths, does not look at the timestamp fields. */
  ghost predicate IgnoresVolatile(deepDiff: DeepDiff) {
    forall b1: Fields, a1: Fields, b2: Fields, a2: Fields
      {:trigger deepDiff(b1, a1, ExcludedPaths), deepDiff(b2, a2, ExcludedPaths)} ::
      b1 - VolatileFields == b2 - VolatileFields && a1 - VolatileFields == a2 - VolatileFields ==>
        deepDiff(b1, a1, ExcludedPaths) == deepDiff(b2, a2, ExcludedPaths)
  }

  /**
   * An update that only touches `create_time` or `update_time` is logged
   * with an empty diff, provided DeepDiff behaves as documented.
   */
  lemma VolatileOnlyChangeGivesEmptyDiff(before: Option<Fields>, after: Option<Fields>, deepDiff: DeepDiff)
    requires EmptyOnIdentical(deepDiff) && IgnoresVolatile(deepDiff)
    requires Truthy(before) && Truthy(after)
    requires before.value - VolatileFields == after.value - VolatileFields
    ensures SelectDiff(before, after, deepDiff) == Some(EmptyObject)
  {
    assert deepDiff(before.value, after.value, ExcludedPaths) == deepDiff(after.value, after.value, ExcludedPaths);
  }

  /**
   * The exclusion only reaches DeepDiff: when there is no before-snapshot,
   * the diff is the whole after-snapshot, timestamps included.
   */
  lemma CreationDiffKeepsVolatileFields(before: Option<Fields>, after: Option<Fields>, deepDiff: DeepDiff)
    requires !Truthy(before) && after.Some? && "create_time" in after.value
    ensures SelectDiff(before, after, deepDiff) == Some(JObject(after.value))
    ensures "create_time" in SelectDiff(before, after, deepDiff).value.fields
  {
  }

  function HeadersJson(headers: map<string, string>): Json {
    JObject(map k | k in headers :: JString(headers[k]))
  }

  /** The keyword arguments `deal_arguments` passes on to `add_log`. */
  function DealKwargs(request: Request, reqData: Json, resp: Response,
                      before: Option<Fields>, after: Option<Fields>, libs: Collaborators): map<string, Json>
  {
    map[
      "path" := JString(request.path),
      "method" := JString(request.verb),
      "body" := reqData,
      "response" := GetRespData(resp, libs.codec),
      "headers" := HeadersJson(request.headers),
      "before" := SnapshotJson(before),
      "after" := SnapshotJson(after),
      "diff" := OptionJson(SelectDiff(before, after, libs.deepDiff)),
      "operator_id" := JString(request.operatorId),
      "is_manager" := JBool(request.isManager)
    ]
  }

  /**
   * `add_log` as the source writes it: the row reads its "headers" entry
   * from the argument "header", which no caller passes.
   */
  function AddLogAsWritten(kwargs: map<string, Json>, now: string): LogRow {
    LogRow(
      version := Version,
      url := Get(kwargs, "path"),
      verb := Get(kwargs, "method"),
      body := Get(kwargs, "body"),
      response := Get(kwargs, "response"),
      headers := Get(kwargs, "header"),
      before := Get(kwargs, "before"),
      after := Get(kwargs, "after"),
      diff := Get(kwargs, "diff"),
      operatorId := Get(kwargs, "operator_id"),
      isManager := Get(kwargs, "is_manager"),
      createTime := now)
  }

  /**
   * The logged headers are always `null` under the source's `add_log`,
   * although `deal_arguments` hands it the request headers as an object.
   */
  lemma HeadersLostAsWritten(request: Request, reqData: Json, resp: Response,
                             before: Option<Fields>, after: Option<Fields>, libs: Collaborators, now: string)
    ensures DealKwargs(request, reqData, resp, before, after, libs)["headers"] != JNull
    ensures AddLogAsWritten(DealKwargs(request, reqData, resp, before, after, libs), now).headers == JNull
  {
    assert "header" !in DealKwargs(request, reqData, resp, before, after, libs);
  }

  /** `add_log` with the headers read from the argument they are passed under. */
  function AddLog(kwargs: map<string, Json>, now: string): LogRow {
    AddLogAsWritten(kwargs, now).(headers := Get(kwargs, "headers"))
  }

  /**
   * The row `AddLog` writes: the schema version, the assembly time, and each
   * argument under its row key (`null` when the argument is missing); every
   * entry but the headers is as the source writes it.
   */
  lemma AddLogRecord(kwargs: map<string, Json>, now: string)
    ensures var row := AddLog(kwargs, now);
      && row.version == Version && row.createTime == now
      && row.url == Get(kwargs, "path") && row.verb == Get(kwargs, "method")
      && row.body == Get(kwargs, "body") && row.response == Get(kwargs, "response")
      && row.headers == Get(kwargs, "headers")
      && row.before == Get(kwargs, "before") && row.after == Get(kwargs, "after")
      && row.diff == Get(kwargs, "diff")
      && row.operatorId == Get(kwargs, "operator_id") && row.isManager == Get(kwargs, "is_manager")
      && row.(headers := JNull) == AddLogAsWritten(kwargs, now).(headers := JNull)
  {
  }

  /** `deal_arguments`: the row logged for one request. */
  function DealArguments(request: Request, reqData: Json, resp: Response,
                         before: Option<Fields>, after: Option<Fields>,
                         libs: Collaborators, now: string): LogRow
  {
    AddLog(DealKwargs(request, reqData, resp, before, after, libs), now)
  }

  /**
   * The row logged for one request holds the schema version and assembly
   * time, the path and method, the parsed request body, the normalised
   * response, the request headers, both snapshots (`null` when absent), the
   * selected diff and the actor.
   */
  lemma DealArgumentsRecord(request: Request, reqData: Json, resp: Response,
                            before: Option<Fields>, after: Option<Fields>,
                            libs: Collaborators, now: string)
    ensures var row := DealArguments(request, reqData, resp, before, after, libs, now);
      && row.version == Version && row.createTime == now
      && row.url == JString(request.path) && row.verb == JString(request.verb)
      && row.body == reqData && row.response == GetRespData(resp, libs.codec)
      && row.headers == HeadersJson(request.headers)
      && row.before == SnapshotJson(before) && row.after == SnapshotJson(after)
      && row.diff == OptionJson(SelectDiff(before, after, libs.deepDiff))
      && row.operatorId == JString(request.operatorId) && row.isManager == JBool(request.isManager)
  {
    AddLogRecord(DealKwargs(request, reqData, resp, before, after, libs), now);
  }
}
