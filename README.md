# Operation-log mixin

A model of `OperateLogMixin`, the Django class mixin that wraps every view of
a REST resource so that each request that returns normally is written to an
operation log (a request whose view or instance lookup raises is logged not
at all). The wrapper snapshots the addressed model instance before and/or after the view
runs. Which snapshots it takes depends on the HTTP action. It then computes a
diff between the snapshots and logs one record per returning request. That
record holds the path, method, request body, normalised response, both
snapshots, the diff and the acting user. It is meant to hold the request
headers too, but `add_log` as written always logs `null` headers (see
"## Findings"). The rows the model's wrapper writes are those of the
corrected `add_log`, which logs the headers.

Modules, in dependency order:

- `Values` (values.dfy): decoded JSON, serialized instances (`Fields`),
  Python's `None` as `Option`, exceptions as `Result`/`Fault`, and Python
  truthiness of a snapshot.
- `Policy` (policy.dfy): `method_conf` and its lookup through
  `request.method.lower()`.
- `Snapshot` (snapshot.dfy): `get_serializer_data`. This is
  `objects.get(field=value)` over a table of rows, with `DoesNotExist` mapped
  to `None` and every other exception left to propagate:
  `MultipleObjectsReturned`, and the exceptions the ORM raises for a lookup
  it cannot run (`FieldError`, `ValueError`, `ValidationError`). How the ORM
  compares a row with the lookup value, after converting the URL's text to
  the field's type, is an abstract relation of the `Resource`, and so is
  which lookups it refuses.
- `Bodies` (bodies.dfy): `get_resp_data` over the three response shapes, and
  the parsing of the request body.
- `Records` (records.dfy): the diff selection and keyword arguments of
  `deal_arguments`, and the row `add_log` writes.
- `Wrapper` (wrapper.dfy): `decorator.wrapper`. `Audit` is a function that
  says what one wrapped call does. `Wrap` is the method that does it. It
  updates a `Database` (the table behind the view) and appends to a `Sink`
  (the log). It also returns a ghost trace of its effects.
- `WrapperProperties` (wrapper_properties.dfy): the promises of the wrapper,
  proved of `Audit`. They carry over to `Wrap` through its postcondition.

The byte decoder, `json.loads`, the ORM's lookup, the serializer and
DeepDiff are library calls. The model takes them as function parameters
(`Codec`, `Resource`, `Collaborators`). The view is a function from the request, its URL arguments
and the table to the new table and a response or an exception. The log
timestamp is an input (`now`).

## Model

| member | source | states |
|---|---|---|
| Policy.LowerPointwise | mixin.py:122 | lower-casing keeps the length and maps each character on its own |
| Policy.PolicyForContract | mixin.py:32-38 | a before-snapshot is taken exactly for put, patch and delete, and an after-snapshot exactly for post, put and patch; any other action (including an unknown one) takes neither |
| Policy.LowerIdempotent | mixin.py:122 | lower-casing an already lower-cased name changes nothing |
| Policy.PolicyIgnoresCase | mixin.py:122-125 | the policy of a method name equals the policy of its lower-cased form |
| Policy.LowerUpperWord | mixin.py:122 | an all-upper-case ASCII name lower-cases to the letter-by-letter lower-case word |
| Policy.UpperCaseSelectsSameRow | mixin.py:122-125 | "DELETE" and the like select the same table row as "delete" |
| Snapshot.MatchIndicesExact | mixin.py:61 | the selected positions are exactly the rows the ORM's lookup selects, in increasing order, each once |
| Snapshot.GetSerializerDataContract | mixin.py:58-64 | a lookup the ORM refuses raises its exception; otherwise no match gives `None` (not an error), exactly one match gives that row's serialization, and two or more raise `MultipleObjectsReturned`, each in both directions |
| Bodies.GetRespDataCases | mixin.py:66-75 | a REST response gives its data; an HTTP response gives `{}` when it has no content, otherwise its parsed content with "{}" standing in for an empty decoding; anything else gives `{}` |
| Bodies.ResponseContentReadLikeRequestBody | mixin.py:70-74 | under a decoder that keeps non-empty content non-empty, HTTP response content is read exactly as the request body is |
| Bodies.EmptyResponsesNormalise | mixin.py:70-75 | every response with nothing readable is logged as the empty object |
| Records.SelectDiff | mixin.py:82-93 | no diff exactly when the after-snapshot is falsy; the whole after-snapshot when only the before-snapshot is falsy; otherwise DeepDiff of the two, skipping the timestamp paths |
| Records.VolatileOnlyChangeGivesEmptyDiff | mixin.py:86-93 | an update that touches only `create_time`/`update_time` is logged with an empty diff, given DeepDiff's documented behaviour |
| Records.CreationDiffKeepsVolatileFields | mixin.py:82-85 | the exclusion reaches DeepDiff only: a creation diff is the whole after-snapshot, timestamps included |
| Records.HeadersLostAsWritten | mixin.py:48 | `add_log` as written logs `null` headers although `deal_arguments` passes a headers object |
| Records.AddLogRecord | mixin.py:41-55 | the row holds version "1.0", the assembly time, and each argument under its row key (`null` when missing); it agrees with the source's row everywhere but the headers |
| Records.DealArgumentsRecord | mixin.py:77-107 | the row the corrected `add_log` writes (see "## Findings"; the source's row has `null` headers) holds the path, method, parsed body, normalised response, request headers, both snapshots (`null` when absent), the selected diff, the user id as text and whether the user is a `User` |
| Wrapper.LookupForContract | mixin.py:123-124 | the lookup compares `lookup_field` with the URL argument named by `lookup_url_kwarg`, or by `lookup_field` when that is unset, and is `None` exactly when that argument is missing |
| Wrapper.Sink.Info | mixin.py:56 | logging appends exactly one row |
| Wrapper.Wrap | mixin.py:111-136 | the table, the returned response or exception, the appended log row (if any) and the effect trace are exactly those `Audit` gives from the table as it was before the call; the row is the one the corrected `add_log` writes, with the request headers, where the source logs `null` headers (see "## Findings") |
| WrapperProperties.PlannedCounts | mixin.py:126-135 | a call that completes resolves each lookup the policy asks for once, runs the view once and emits once |
| WrapperProperties.PlannedOrdered | mixin.py:126-135 | the before-lookup precedes the view, the after-lookup follows it, and both use the same key |
| WrapperProperties.PlannedSequenced | mixin.py:126-135 | the planned effects satisfy all the ordering and counting constraints together |
| WrapperProperties.EntityCallSequenced | mixin.py:122-136 | every entity-bound call that returns has that ordered trace |
| WrapperProperties.PrefixCounts | mixin.py:111-136 | every point the wrapper can stop at has run the view at most once and emitted only at the end |
| WrapperProperties.LoggedExactlyWhenReturned | mixin.py:111-136 | the view runs at most once; a row is logged exactly when the call returns normally, and then as the last effect; an exception is passed on with nothing logged |
| WrapperProperties.ResponseUnchanged | mixin.py:117-136 | a failing before-lookup raises its own exception without running the view, leaving the table untouched; a view that raises has its exception passed on unchanged; a failing after-lookup raises its exception on the table the view left; a call whose lookups succeed returns exactly the view's response and table and is the only one logged |
| WrapperProperties.DegradedPathLogsNoSnapshots | mixin.py:112-120 | a view without a serializer class or `QuerySet` looks nothing up, runs once, and logs before, after and diff as `null`, with `{}` as an empty body |
| WrapperProperties.SnapshotsBracketTheView | mixin.py:122-135 | the logged response is the view's; the before-snapshot is read from the table before the view, the after-snapshot from the table the view left, each only when the policy asks for it, both with the same lookup |
| WrapperProperties.ReadLogsNoSnapshots | mixin.py:125-135 | a get, or any action outside the table, is logged with no snapshots and no diff |
| WrapperProperties.DeleteLogsBeforeOnly | mixin.py:125-135 | a delete of an instance the lookup finds logs that instance as before, with no after and no diff |
| WrapperProperties.CreateLogsAfterAsDiff | mixin.py:125-135 | a create whose URL carries the lookup argument and whose new instance the lookup finds logs no before, and that instance as both after and diff |
| WrapperProperties.CreateOnListUrlLogsNoAfter | mixin.py:123-135 | a create on the list URL, which has no lookup argument, looks up `{lookup_field: None}` and, when no instance has a null lookup field, is logged with no snapshots and no diff |
| WrapperProperties.UpdateLogsBothAndDiff | mixin.py:82-93 | a put or patch of an instance found before and after the view logs both serializations and, when both are non-empty, DeepDiff of the two with the timestamp paths skipped |

## Left out

- `custom_logger` (the logger's configuration and output) is not part of this model. `logger.info` is an append to `Sink`.
- JSON encoding of the row (`json.dumps` with the project's encoder) is left out. The log holds the row as a value.
- Failures of `request.body.decode()`, `json.loads` and DeepDiff are not modelled. In the source they raise before or after the view runs.
- The URL arguments are text. A URL converter such as `<int:pk>` hands the view an integer, which the model's `kwargs` cannot hold; the ORM's conversion of the value to the field's type is left inside the abstract `Resource.matches`.
- Django plumbing is left out: `as_view`, `csrf_exempt`, how `func.cls` is found, and the request object beyond the fields the record reads.
- The ORM is reduced to a table of rows and two abstract functions: which rows a lookup selects, and which lookups raise before any row is read. `objects.get` goes through the model's default manager and ignores the view's `queryset` filters; the model does the same.
- The serializer, the byte decoder and `json.loads` are arbitrary functions. The model does not look inside them.
- DeepDiff is an arbitrary function of the two snapshots and the excluded paths. The properties that need its documented behaviour state that behaviour as a precondition.
- The local clock behind `create_time` is left out. The formatted timestamp is a parameter.
- `Lower` implements ASCII lower-casing only. HTTP method names are ASCII.
- JSON numbers are integers. Floating point is not modelled.
- The view's own exceptions are a named fault. A view that both raises and changes the table is modelled by the table it leaves and its exception.
- Python's `None` for `lookup_url_kwarg` is the empty string. An empty `lookup_url_kwarg` would also fall back to `lookup_field` in the source.
- Emission when the view raises: the source emits nothing (the exception leaves `wrapper` before `deal_arguments`). The model follows the code.
- Wrapper.Wrap: the ghost trace records a lookup just as it is made. A lookup that raises still appears in the trace of that call.

## Findings

| source | as written | input that shows it | evidently intended | confidence | as-written member | corrected member |
|---|---|---|---|---|---|---|
| mixin.py:48 | `add_log` reads the headers from the argument `header`, but `deal_arguments` (mixin.py:99) passes them as `headers`, so the logged `headers` is always `null` | any request, e.g. one with header `Host: example.com` | the request headers are logged | high, not executed | Records.HeadersLostAsWritten | Records.AddLogRecord |
