# pykube core in Dafny

A functional model of the core of pykube, a Python client for the
Kubernetes API, with proofs about it. It covers these parts:

- **Resource documents** (`json.dfy`). A document is decoded JSON: maps,
  lists, strings, integers, booleans and null. It comes with the few Python
  operations the library applies to documents: subscript, `.get`, item
  assignment, iteration, truthiness and `str()`.
- **`obj_merge` / `obj_check`** (`utils.dfy`). This is the recursive merge
  that builds the merge-patch body of `update`.
- **API objects** (`objects.dfy`). Each object is the working document plus
  the snapshot `set_obj` took, tagged with one of the fifteen resource
  classes. The file models:
  - `api_kwargs`;
  - the namespace defaulting of namespaced classes;
  - the status rules of `exists`, `create`, `reload`, `update` and `delete`,
    each behind the request its keyword arguments make through the HTTP
    client's `get_kwargs`;
  - `Pod.ready`.

  The plain wrappers of `resources.py` are in `resources.dfy`.
- **Scaling** (`mixins.dfy`). This covers the `replicas` accessor, the
  `scalable` indirection through `scalable_attr`, and `scale`. `scale`
  checks existence, PATCHes only when the target differs from the current
  value, then reloads until the server reports the target. Values are
  compared with Python's `==`, under which `True` equals `1`.
- **Queries** (`query.dfy`). This covers:
  - `as_selector`: a string passes through, and a mapping renders
    `key = v`, `key != v`, `key in (a,b)` or `key notin (a,b)`, one clause
    per entry joined by `,`;
  - the `filter` state;
  - the URL and namespace of the listing request, with `labelSelector`
    encoded as `urlencode` does;
  - turning the response's `items` into objects.
- **HTTP client** (`http.dfy`). This covers:
  - the API path `get_kwargs` builds from `base`, `version`, `namespace`
    and `url`, following `posixpath.join`. The client's configured
    namespace is an input that may be absent. The `KubeConfig` of
    pykube/config.py defines no `namespace`, so with that configuration it
    is always absent: an empty namespace argument then raises
    `AttributeError`. The present case stands for a configuration object
    that does carry a namespace;
  - `raise_for_status`;
  - the adapter's re-send on 401, at most twice.
- **Kubeconfig** (`config.dfy`, with `base64.dfy` and `decimal.dfy`). This
  covers:
  - `parse` and `set_current_context`;
  - the `clusters`, `users` and `contexts` tables, where a later record
    with the same name wins and every cluster gets a `server`;
  - the `cluster` and `user` lookups;
  - `BytesOrFile`: a path when the text starts with `/`, otherwise base 64
    data decoded as in section 4 of RFC 4648.
- **The rolling updater** (`rolling_updater.py`, modelled in
  `rolling_updater.dfy`). This covers:
  - budget resolution (`extract_max_value`);
  - the selector guards;
  - creating the new controller with zero replicas;
  - the `scale_up` / `scale_down` loop with the readiness poll;
  - deleting the old controller.

Everything the server does is an input to the model: the status codes, the
documents returned and the pod listings. Each blocking loop has no deadline
in the library. In the model each one consumes a finite sequence of server
responses and reports when that sequence runs out. These loops are the
reload loop of `scale`, the readiness poll and the main update loop. The
model reports:

- `converged == false` from `scale`;
- `None` from the poll;
- `Stalled` from `update`.

No termination of the library's loops is claimed.

Where the code and the library's documented design differ, the model
follows the code:

- **The updater's `scale()` call never PATCHes.** The updater sets
  `rc.replicas` locally and then calls `rc.scale()` with no argument. That
  call takes the already-updated local value as its target, so it only
  checks that the controller exists. Only a PATCH would reach the server,
  and none is sent, so the server never hears the new count.
  `Mixins.ScaleWithoutTargetOnlyChecksExistence` and
  `RollingUpdater.ScaleCall` state this. `RollingUpdater.Update` proves
  that a whole rolling update sends no PATCH.
- **Only 4xx and 5xx statuses are errors.** `raise_for_status` of
  `requests` ignores every other status. So `exists` counts, for example,
  a 302 as present.
- **There is a retry.** The HTTP adapter re-sends a request that got 401,
  at most twice, when an auth-provider refresh is configured.
- **Percent budgets use an exact integer ceiling.** The library computes
  `math.ceil(float(value) * (float(v) / 100.))`. The model uses the exact
  ceiling of `value * v / 100`. The two differ where floating point rounds
  upward: for `value = 100` and `"7%"`, the float expression gives 8 and
  the exact ceiling gives 7.

## Model

| member | source | states |
|---|---|---|
| Json.PyEqNumeric | pykube/rolling_updater.py:33-40 | Python's `==` on decoded documents, as the selector checks use it, is equality once every boolean is read as its integer, at any depth |
| Json.PyEqReflSymm | pykube/mixins.py:30-35 | Python's `==` on decoded documents is reflexive and symmetric, so the scale loop's `!=` and `==` agree on which values match |
| Json.PyEqBoolsAreInts | pykube/mixins.py:30 | `True == 1` and `[False] == [0]` hold under Python's `==` although the documents differ |
| Decimal.NatToString | pykube/query.py:77 | `str(n)` of a natural number is a non-empty digit string without a leading zero whose value is `n` |
| Decimal.ParseInt | pykube/rolling_updater.py:171 | `int(s)` succeeds exactly for an optional sign followed by one or more digits |
| Decimal.ParseIntOfString | pykube/rolling_updater.py:171 | `int(str(n)) == n` for every integer |
| Utils.ObjMerge | pykube/utils.py:7-17 | the merge has the keys of both sides; the right side only fills keys the left lacks, and a scalar of the left side is never overwritten |
| Utils.ObjCheck | pykube/utils.py:20-39 | values of different types, and scalars, resolve to the left value; the result is a dict / list exactly when the left value is |
| Utils.ZipCheck | pykube/utils.py:27-36 | the `zip_longest` merge is as long as the longer list |
| Utils.MergeFields | pykube/utils.py:7-17 | `obj_merge(a, b)` has the keys of both; a key only in `a` keeps `a`'s value, a key only in `b` takes `b`'s, a shared key is merged by `obj_check` |
| Utils.CheckLeftWins | pykube/utils.py:20-39 | values of different types, and scalars, resolve to the left value; the result is a dict / list exactly when the left value is |
| Utils.ZipCheckShape | pykube/utils.py:27-36 | the `zip_longest` merge has the longer length, merges shared positions and copies the longer list's tail |
| Utils.MergeEmpty | pykube/utils.py:7-17 | merging with an empty dict on either side returns the other side |
| Utils.CheckSelf | pykube/utils.py:20-39 | `obj_check(a, a) == a` |
| Utils.MergeSelf | pykube/utils.py:7-17 | `obj_merge(a, a) == a` |
| Utils.ZipSelf | pykube/utils.py:27-36 | the list merge of a list with itself is that list |
| Utils.CheckExtends | pykube/utils.py:20-39 | the merged value keeps every key, list position and scalar of the left value |
| Utils.MergeExtends | pykube/utils.py:7-17 | the merged dict keeps every key and scalar of the left dict |
| Utils.CheckAbsorbs | pykube/utils.py:20-39 | merging the result with the same right value again changes nothing |
| Utils.MergeAbsorbs | pykube/utils.py:7-17 | `obj_merge(obj_merge(a, b), b) == obj_merge(a, b)` |
| Utils.ZipAbsorbs | pykube/utils.py:27-36 | the list merge absorbs a second merge with the same right list |
| Resources.Namespace | pykube/resources.py:11-13 | the plain wrapper reads `metadata.namespace` directly; a missing one is a `KeyError` |
| Resources.NamespaceHasNoDefault | pykube/resources.py:11-13 | without `metadata.namespace` the plain wrapper raises while the namespaced class of objects.py answers `"default"` |
| Resources.Name | pykube/resources.py:7-9 | `name` is `metadata.name`, with a `KeyError` for either missing level, the same rule as the objects.py classes |
| Resources.Replicas | pykube/resources.py:18-20 | `replicas` is `spec.replicas`, with a `KeyError` for either missing level, the same as the replicated classes of objects.py |
| Resources.SetReplicas | pykube/resources.py:22-24 | the setter succeeds exactly when `spec` is a dict |
| Resources.ReplicasRoundTrip | pykube/resources.py:18-24 | reading `replicas` after setting it gives the value set; only `spec.replicas` changes |
| Resources.PodReady | pykube/resources.py:29-33 | a pod without `status.conditions` raises `KeyError` here |
| Resources.PodReadyAgreesWithObjects | pykube/resources.py:29-33 | when `status.conditions` exists, the plain and the objects.py `ready` agree |
| Objects.SetObj | pykube/objects.py:23-25 | `set_obj` makes the working document and the snapshot both equal to the new document |
| Objects.Name | pykube/objects.py:27-29 | `name` reads `metadata.name` of the working document; a missing level is a `KeyError` |
| Objects.NamespaceOf | pykube/objects.py:90-95 | cluster-scoped classes have no namespace; namespaced ones use a truthy `metadata.namespace`, otherwise `"default"`; a missing `metadata` raises |
| Objects.ApiKwargs | pykube/objects.py:35-48 | `url` is the endpoint (collection) or endpoint/snapshot name; `version` is the class's; `base` only when truthy; `namespace` only when not `None`; caller arguments override; `collection` is consumed |
| Objects.Defaults | pykube/objects.py:42-46 | the defaults hold `url` and `version`, `base` exactly when truthy, `namespace` exactly when set, and nothing else |
| Objects.ApiKwargsUseSnapshotName | pykube/objects.py:41 | renaming the working document does not change the request arguments: the URL names the snapshot |
| Objects.Request | pykube/http.py:195-230 | the keyword arguments of an object's request pass through `get_kwargs`: the errors of `api_kwargs` propagate; after that the request builds exactly when the namespace is `None`, falsy or a string, else `posixpath.join` raises `TypeError`; that error is fixed by the object alone; the URL is the client's URL followed by the join of base, version, `namespaces/<ns>` when there is one, and the endpoint path without its leading `/` |
| Objects.ClientShapesOnlyTheUrl | pykube/http.py:213-229 | the client contributes only its URL and default namespace: whether a request builds, its error, and `exists()` do not depend on which client sends it |
| Objects.Exists | pykube/objects.py:50-59 | a request that `get_kwargs` cannot build raises its `TypeError` before anything else; otherwise present exactly for a non-error status; absent exactly for 404 without `ensure`; for 404 with `ensure`, `ObjectDoesNotExist` exactly when `name` reads, else the error of reading it; other error statuses raise the HTTP error |
| Objects.Create | pykube/objects.py:61-64 | a request that `get_kwargs` cannot build raises its error; otherwise succeeds exactly when the status is not an error, and the object then holds the server's document |
| Objects.Reload | pykube/objects.py:66-69 | a request that `get_kwargs` cannot build raises its error; otherwise succeeds exactly when the status is not an error, and the object then holds the server's document |
| Objects.Update | pykube/objects.py:71-78 | the PATCH body is the merge of the working document over the snapshot; a request that `get_kwargs` cannot build raises its error; otherwise success exactly when the status is not an error, and the object then holds the server's document |
| Objects.PatchBody | pykube/objects.py:72 | the patch body has the keys of both documents, and is the document itself when nothing changed |
| Objects.PatchBodyKeepsCurrent | pykube/objects.py:72 | the patch body keeps every key, list position and scalar the working document has, and restores from the snapshot the keys it dropped |
| Objects.Delete | pykube/objects.py:80-83 | a request that `get_kwargs` cannot build raises its error; otherwise succeeds exactly for 404 or a non-error status, and any other status raises the HTTP error |
| Objects.PodReady | pykube/objects.py:169-173 | a pod without `status` raises; one without `status.conditions` is not ready |
| Objects.FirstReadySpec | pykube/objects.py:172-173 | the generator search is ready exactly when the first condition of type `Ready` has status `"True"` |
| Objects.FirstReady | pykube/objects.py:172-173 | the generator search yields true only when some condition has type `Ready` and status `"True"`; when every condition has a readable type other than `Ready` it yields false; a failure comes from indexing some condition's `type` or `status` |
| Objects.PodReadyByConditions | pykube/objects.py:169-173 | a pod with a list of conditions is ready exactly when its first `Ready` condition says `"True"` |
| Http.RaiseForStatus | pykube/http.py:232-242 | raises exactly for 4xx and 5xx statuses, with that status |
| Http.Strings | pykube/http.py:229 | `posixpath.join` accepts the parts exactly when every part is a string |
| Http.BaseAndVersion | pykube/http.py:202-210 | `v1` defaults the base to `/api`, a version with `/` to `/apis`; any other version needs an explicit `base` (`TypeError`); an explicit base always wins |
| Http.RelativeUrl | pykube/http.py:225-228 | a missing `url` is empty; exactly one leading `/` is removed |
| Http.NamespaceBits | pykube/http.py:212-224 | no segment for a missing or `None` namespace; a truthy one gives `namespaces/<ns>`; an empty one falls back to the configured namespace, and raises `AttributeError` when the configuration has none, as pykube's `KubeConfig` never does |
| Http.GetKwargs | pykube/http.py:195-230 | `version`, `base` and `namespace` are consumed, `url` becomes a string, every other argument passes through unchanged; a bad version is reported before a bad namespace |
| Http.GetKwargsFromParts | pykube/http.py:202-230 | for any arguments whose base, version, namespace segments and relative URL are strings, the result is the arguments without the consumed keys and with `url` set to the client URL followed by the `posixpath.join` of those parts |
| Http.JoinStep | pykube/http.py:229 | appending a part to `posixpath.join`: an absolute part restarts the path, otherwise one `/` separates |
| Http.PosixJoin | pykube/http.py:229 | `posixpath.join` yields the last part itself when it is absolute |
| Http.JoinEndsWithLast | pykube/http.py:229 | the joined path always ends with the last part |
| Http.JoinRestarts | pykube/http.py:229 | an absolute part discards everything joined before it |
| Http.GetKwargsPath | pykube/http.py:195-230 | a namespaced request URL is `<client><base>/<version>/namespaces/<ns>/<url>` |
| Http.GetKwargsPathNoNamespace | pykube/http.py:211-230 | without a namespace no `namespaces` segment appears |
| Http.DoubleSlashRestartsPath | pykube/http.py:225-229 | a URL starting with `//` keeps one `/` and discards the API prefix |
| Http.DefaultVersionUsesApi | pykube/http.py:202-204 | without a version, any relative URL goes to `<client>/api/v1/<url>` |
| Http.GroupVersionUsesApis | pykube/http.py:205-206 | any version containing `/` (none at either end) goes to `<client>/apis/<version>/<url>` without an explicit base |
| Http.UnknownVersionNeedsBase | pykube/http.py:207-209 | a version other than `v1` without `/` and without `base` raises `TypeError` |
| Http.EmptyNamespaceWithoutConfigRaises | pykube/http.py:216-219 | with pykube's own configuration, which has no `namespace`, an empty namespace argument raises `AttributeError` |
| Http.EmptyNamespaceUsesConfig | pykube/http.py:216-219 | an empty namespace argument uses the configured namespace in the path, for a configuration object that carries one |
| Http.Send | pykube/http.py:123-136 | the final status is the first one that does not call for a retry; every earlier status was a 401 with a refresh available below attempt 2 |
| Http.RetriesBounded | pykube/http.py:126-134 | at most three requests go out; exactly one when no refresh exists or the first status is not 401 |
| Query.SplitWithoutDunder | pykube/query.py:67 | a key without `__` splits into itself |
| Query.SplitOperatorKey | pykube/query.py:67 | `key__op` splits into `[key, op]` when neither holds `__` and the key does not end in `_` |
| Query.SplitPrefix | pykube/query.py:67 | splitting `key__rest` takes `key` off the front |
| Query.SplitDunder | pykube/query.py:67 | `str.split("__")` yields at least one piece, no piece contains `__`, and joining the pieces with `__` gives the key back |
| Query.Requirement | pykube/query.py:76-85 | `eq` and `neq` always render, `in`/`notin` exactly when the values join, other operators raise `ValueError`; a rendered clause starts with the label and a space |
| Query.AsSelector | pykube/query.py:62-86 | a string passes through; a mapping renders exactly when every entry does, as the entries' clauses in order joined by `,` |
| Query.ClausesSpec | pykube/query.py:65-86 | one clause per entry in order; otherwise the error is that of the first entry without a clause |
| Query.EqualityClause | pykube/query.py:69-77 | a key without `__` renders `key = v` |
| Query.OperatorClause | pykube/query.py:72-83 | `key__op` renders with operator `op` |
| Query.RequirementForms | pykube/query.py:76-83 | `neq` renders `!=`; `in`/`notin` render the comma-joined values in parentheses or raise the join's error |
| Query.JoinValues | pykube/query.py:81-83 | `",".join(v)` succeeds exactly for a string or a list of strings, and otherwise raises `TypeError`; a string is joined character by character, a list item by item |
| Query.UnknownOperator | pykube/query.py:84-85 | any other operator raises `ValueError` |
| Query.TooManyDunders | pykube/query.py:67-68 | a key with two `__` fails the assertion |
| Query.NewQuery | pykube/query.py:13-14 | a new query has namespace `"default"` and no selector |
| Query.Filter | pykube/query.py:19-24 | a namespace other than `None` and a given selector replace the current ones; the endpoint is kept |
| Query.FilterNothing | pykube/query.py:19-24 | `filter()` with no arguments changes nothing |
| Query.FilterComposes | pykube/query.py:19-24 | two chained filters equal one filter with the later arguments where given and the earlier ones elsewhere |
| Query.FilterIdempotent | pykube/query.py:19-24 | filtering twice with the same arguments is filtering once |
| Query.QuotePlusRoundTrip | pykube/query.py:32 | decoding the encoded ASCII selector gives it back: it reaches the server unchanged |
| Query.QuotePlus | pykube/query.py:32 | `quote_plus` emits only unreserved characters, `+` and `%`, never shortens its input, and leaves an all-unreserved text unchanged |
| Query.UrlEncodeLabelSelector | pykube/query.py:32 | the query string is `labelSelector=` followed by an encoding that decodes back to an ASCII selector |
| Query.QueryRequest | pykube/query.py:29-36 | `labelSelector` is added exactly when a selector is set; a selector that does not render fails the request |
| Query.QueryResults | pykube/query.py:37-41 | an error status raises; a missing `items` raises `KeyError`; otherwise one object per item, in order, holding that item |
| Query.ToObjects | pykube/query.py:39-40 | each item becomes an object of the query's class holding that item, in order |
| Mixins.SetSpecField | pykube/mixins.py:12-14 | the setter succeeds exactly when `spec` is a dict |
| Mixins.Replicas | pykube/mixins.py:4-10 | only the classes with `ReplicatedMixin` have `replicas`, read as `spec.replicas`; other classes raise `AttributeError` |
| Mixins.SetReplicas | pykube/mixins.py:12-14 | the setter succeeds exactly for a replicated class whose `spec` is a dict |
| Mixins.ReplicasRoundTrip | pykube/mixins.py:8-14 | for a replicated class, reading `replicas` after setting it gives the value set; only `spec.replicas` changes and the snapshot is untouched |
| Mixins.Scalable | pykube/mixins.py:19-21 | `scalable` reads the `spec` field `scalable_attr` names; classes without it raise |
| Mixins.SetScalable | pykube/mixins.py:23-25 | the setter succeeds exactly for a scalable class whose `spec` is a dict; reading `scalable` back gives the value set; only that `spec` entry changes |
| Mixins.ScalableIsReplicasOrParallelism | pykube/mixins.py:6-21 | replicated classes scale `spec.replicas`, a `Job` scales `spec.parallelism`, no other class scales |
| Mixins.AwaitScalable | pykube/mixins.py:33-37 | the reload loop stops at the first reload whose `scalable` equals the target under Python's `==` (so `True` matches `1`), holding that reload's document; a reload error ends it |
| Mixins.Scale | pykube/mixins.py:27-37 | the existence GET comes first and every request after the second is a reload GET; a PATCH is sent exactly when a body was sent, only for a target other than `None` that differs from the current value under Python's `!=`, and its body is the merge of the document with that target written in |
| Mixins.Rescale | pykube/mixins.py:30-37 | exactly one PATCH, second, carrying the merge of the document with the target written in; then at most one GET per reload; on convergence the object's `scalable` equals the target under Python's `==` |
| Mixins.PatchCarriesTarget | pykube/mixins.py:31-32 | the PATCH body keeps everything of the document with the target set, so a scalar target is sent under `spec[scalable_attr]` unchanged |
| Mixins.ScaleWithoutTargetOnlyChecksExistence | pykube/mixins.py:28-30 | `scale()` with no argument succeeds exactly when the object exists, sends one GET and changes nothing |
| Mixins.ScaleOfMissingObjectRaises | pykube/mixins.py:29 | a 404 on the existence check raises `ObjectDoesNotExist`, or the error of reading the name its message formats; a request that cannot be built raises its `TypeError` first |
| Mixins.ScaleToNewTarget | pykube/mixins.py:30-37 | a target unequal to the current value under Python's `!=` sends GET, PATCH, then only GETs, at most one per reload; the PATCH body carries the target; on convergence the object reports a value equal to the target |
| Mixins.ScaleToCurrentValue | pykube/mixins.py:28-30 | asking for a value equal to the current one under Python's `==` (`True` for `1`, say) is the same as giving no target |
| RollingUpdater.CeilDiv | pykube/rolling_updater.py:173 | the result is the exact ceiling of `n / d` |
| RollingUpdater.RemovePercent | pykube/rolling_updater.py:171 | the result holds no `%` and equals the input when it had none |
| RollingUpdater.ExtractMaxValue | pykube/rolling_updater.py:165-173 | an int is taken as is when not negative; a string is parsed without `%` (`ValueError` exactly when not a numeral) and gives the ceiling of `value * v / 100`; negatives and other types fail the assertion |
| RollingUpdater.PercentBudget | pykube/rolling_updater.py:170-173 | `"p%"` resolves to the ceiling of `value * p / 100` |
| RollingUpdater.NegativePercentBudget | pykube/rolling_updater.py:171-172 | a negative percentage fails the `>= 0` assertion |
| RollingUpdater.ScaleUp | pykube/rolling_updater.py:81-98 | no change at `desired` or with no surge headroom; all the way once the old count is zero; never past `desired`; within `original + max_surge` while the old one has replicas |
| RollingUpdater.ScaleDown | pykube/rolling_updater.py:100-130 | no change at zero or without availability headroom; otherwise lowered to keep `min_available` counting the new ready pods, never below zero, and to zero once the new one is complete and ready |
| RollingUpdater.CountReady | pykube/rolling_updater.py:147-153 | the count of ready pods, zero exactly when none is ready; the first `ready` that raises decides the error |
| RollingUpdater.RoundCredits | pykube/rolling_updater.py:142-153 | a round credits the old and the new controller by name (all to the old one when the names are equal under Python's `==`, where `True` equals `1`), and nothing exactly when no pod is ready |
| RollingUpdater.Scan | pykube/rolling_updater.py:141-158 | the poll returns a non-zero reading after at least one round |
| RollingUpdater.ScanStopsAtFirstCredit | pykube/rolling_updater.py:141-158 | the poll returns the first non-zero reading and every earlier one was zero |
| RollingUpdater.Poll | pykube/rolling_updater.py:135-158 | a returned reading has at least one ready pod and took between one and the given number of rounds |
| RollingUpdater.PollCounts | pykube/rolling_updater.py:135-158 | the poll returns the counts of the first round with a ready pod, credited by controller name under Python's `==`; every earlier round saw none; when it gives up no round saw one |
| RollingUpdater.ScaleCall | pykube/rolling_updater.py:94-97 | the updater's `scale()` sends one GET and no PATCH |
| RollingUpdater.Iterate | pykube/rolling_updater.py:63-76 | one pass is `scale_up` then `scale_down` on the updated counts, scaling down against the new ready count of the first poll round with a ready pod; a blocked pass is one whose poll never saw one; no PATCH is sent |
| RollingUpdater.Rollout | pykube/rolling_updater.py:63-76 | the loop starts at the given counts, finishes exactly when the exit condition holds, does nothing when it already holds, and sends no PATCH |
| RollingUpdater.IterateSafe | pykube/rolling_updater.py:81-130 | both halves of a pass keep the counts within the surge and desired bounds, and move the new count up and the old count down |
| RollingUpdater.IterateKeepsAvailable | pykube/rolling_updater.py:100-130 | after a pass the old count plus the polled new ready pods still meets `min_available`, unless the old count was left alone or the cut-over finished the update |
| RollingUpdater.RolloutSafe | pykube/rolling_updater.py:63-76 | every state of the loop stays within the bounds, and each moves on from the one before |
| RollingUpdater.IntReplicas | pykube/rolling_updater.py:23-24 | the replica count is read as an integer exactly when the class has `replicas` and `spec.replicas` is an integer |
| RollingUpdater.Prepare | pykube/rolling_updater.py:23-27 | `desired` and `original` are the two counts; both budgets are resolved against `desired`; a new controller of a class without `replicas` raises `AttributeError`, and so does such an old one once the new count reads |
| RollingUpdater.CheckSelectors | pykube/rolling_updater.py:31-45 | passes only when the selectors differ and the new one equals the template labels, both under Python's `==`, where `True` equals `1`; each failure raises its `KubernetesError` |
| RollingUpdater.Launch | pykube/rolling_updater.py:47-61 | the guards passed; the POSTed document asks for zero replicas; the loop starts from the server's document |
| RollingUpdater.Finish | pykube/rolling_updater.py:63-79 | requests start GET, POST; no PATCH; the loop starts at the created count and the original count |
| RollingUpdater.Conclude | pykube/rolling_updater.py:78-79 | completed exactly when the loop finished, with the DELETE last; an unfinished loop is reported without a delete |
| RollingUpdater.Update | pykube/rolling_updater.py:22-79 | the first request is the existence GET; `False` exactly when nothing was POSTed, after that one GET only; no PATCH is ever sent |
| RollingUpdater.UpdateIsLaunchThenFinish | pykube/rolling_updater.py:22-79 | past the existence check, `update` is the launch followed by the loop and the cleanup |
| RollingUpdater.UpdateCreatesEmpty | pykube/rolling_updater.py:160-162 | the second request is the POST, the guards passed, and the POSTed document asks for zero replicas |
| RollingUpdater.FinishCompletes | pykube/rolling_updater.py:63-79 | the run completes exactly when the exit condition held at the last state; the DELETE comes last |
| RollingUpdater.UpdateCompletes | pykube/rolling_updater.py:63-79 | a completed `update` ended with the new count at `desired` and the old at zero, and deleted last |
| RollingUpdater.UpdateStopsWhenNewExists | pykube/rolling_updater.py:28-30 | an existing new controller gives `False` after one GET |
| RollingUpdater.UpdateRejectsBadSelectors | pykube/rolling_updater.py:31-45 | bad selectors raise before the create, whatever the later responses would be |
| RollingUpdater.UpdateStaysSafe | pykube/rolling_updater.py:63-76 | from a zero-replica new controller every state of the update is within the bounds and moves in the right direction |
| Base64.Decode | pykube/config.py:142 | a length that is not a multiple of four is bad padding; the empty text decodes to no bytes |
| Base64.DecodeEncode | pykube/config.py:142 | decoding the encoding of any bytes gives them back |
| Config.NewBytesOrFile | pykube/config.py:130-142 | a non-string raises `AttributeError` on `startswith`; a string starting with `/` is a path; any other string succeeds exactly when its base 64 decoding does, and holds the decoded bytes |
| Config.InlineDataRoundTrip | pykube/config.py:139-142 | inline data whose encoding does not start with `/` is kept as those bytes |
| Config.InlineDataTakenForPath | pykube/config.py:139-140 | inline data whose first byte is 252 or more encodes to text starting with `/` and is taken for a path |
| Config.MaybeSet | pykube/config.py:120-128 | `<key>-data` wins and is moved under `key`; else `key` is wrapped in place; else nothing changes; other entries are untouched |
| Config.Lookup | pykube/config.py:102 | a lookup succeeds exactly for a hashable key present in the table |
| Config.IndexLastWins | pykube/config.py:57-58 | every record's name is in the table, mapped to the value from the last record with that name; no other names appear |
| Config.Clusters | pykube/config.py:49-63 | the `clusters` table has every record's name, mapped to the completed entry of the last record with that name, and no other name |
| Config.Users | pykube/config.py:65-78 | the `users` table has every record's name, mapped to the completed entry of the last record with that name, and no other name |
| Config.Contexts | pykube/config.py:80-91 | the `contexts` table has every record's name, mapped to the `context` of the last record with that name, and no other name |
| Config.WithServer | pykube/config.py:59-60 | a cluster without `server` gets `http://localhost`; other entries are kept |
| Config.ClusterRecord | pykube/config.py:57-61 | an unhashable `name` raises `TypeError` before the entry is touched; the record succeeds exactly when `cluster` and `name` read, the name is hashable, the cluster is a mapping and its certificate authority wraps; it is keyed by the name, has its own `server` or the default, takes `certificate-authority-data` over `certificate-authority`, wraps it, drops the `-data` key, and keeps every other entry |
| Config.UserRecord | pykube/config.py:73-76 | an unhashable `name` raises `TypeError` before the entry is touched; the record succeeds exactly when `user` and `name` read, the name is hashable, the user is a mapping and both credentials wrap; it is keyed by the name, wraps the client certificate and key (the `-data` form first), drops the `-data` keys, and keeps every non-credential entry as loaded |
| Config.ContextRecord | pykube/config.py:88-89 | a context entry is the record's `context` under its `name` |
| Config.ClustersHaveServers | pykube/config.py:49-63 | every cluster in the table has a `server` |
| Config.NewKubeConfig | pykube/config.py:17-26 | a new configuration has no document and no current context |
| Config.SetCurrentContext | pykube/config.py:40-47 | only the current context changes |
| Config.Parse | pykube/config.py:28-38 | a held document is kept; otherwise the file's content is held and its truthy `current-context` becomes current |
| Config.ParseIdempotent | pykube/config.py:32-34 | parsing twice is parsing once |
| Config.Cluster | pykube/config.py:93-102 | no current context raises; otherwise the cluster is `clusters[contexts[current]["cluster"]]` |
| Config.User | pykube/config.py:104-112 | no current context raises; otherwise the user is `users[contexts[current]["user"]]` |
| Config.NoCurrentContextRaises | pykube/config.py:99-101 | a file without a truthy `current-context` leaves `cluster` and `user` raising |

## Left out

- I/O is not modelled: the HTTP session, reading the kubeconfig file, YAML
  loading, `BytesOrFile.bytes()`/`filename()`, which read files or write
  temporary ones, and `persist_doc`. Every response is an input instead.
- time.sleep and logging are not modelled. They change no state the
  model has.
- Authentication in the adapter's `send` is not modelled: tokens, the GCP
  auth provider, `subprocess`, client certificates and basic auth. Only the
  retry decision on 401 is modelled (`Http.Send`).
- HTTPClient.__init__, the `url` setter (`urlparse`), `version` and
  `resource_list` are not modelled. The per-verb wrappers (`get`, `post`,
  `patch`, …) are not modelled either; they only forward to the session.
- Query.__iter__ and `all()` are not modelled. The result cache is not
  modelled: the first iteration's request and results are.
- `ObjectManager` is not modelled. Its `__init__` requires an `endpoint`,
  but pykube/objects.py:15 calls `ObjectManager()` in the class body of
  `APIObject` (and line 88 passes a `namespace` it does not take), so
  importing objects.py raises `TypeError` as written. The query the updater
  builds with `Pod.objects(self.api)` at rolling_updater.py:143 therefore
  cannot run as written; the model takes each poll round's listings as
  inputs instead.
- APIObject.annotations is not modelled; it is a plain accessor.
- The `KubeConfig` table caches (`_clusters`, `_users`, `_contexts`) are
  not modelled. The tables are recomputed from the held document, which
  never changes after `parse`.
- Query.Requirement renders a value with `Json.Str`, which differs from
  Python's `str()` in two ways. A dict renders as a placeholder, because the
  map does not keep Python's key order. A string inside a list is always
  quoted with `'` and never escaped, whereas `repr` switches to `"` for a
  string holding `'` and escapes backslashes and unprintable characters.
  Strings, integers, booleans, `None` and lists of plain strings render as
  in Python.
- Query.EqualityClause inherits that rendering of the value after `=`.
- Query.RequirementForms inherits that rendering of the value after `!=`.
- Query.AsSelector inherits that rendering, for the clauses and for the
  `KubernetesError` messages of the updater that quote a selector.
- Config.ClusterRecord rejects a `cluster` entry that is not a dict with
  `TypeError`. Python accepts a string or a list that already contains
  `"server"` and none of the certificate keys, because `in` is then a
  substring or membership test; such a cluster fails only when the HTTP
  client reads `cluster["server"]`.
- Config.UserRecord rejects a `user` entry that is not a dict with
  `TypeError`. Python accepts a string or a list without the credential
  keys for the same reason.
- Mixins.SetReplicas reports `AttributeError` for a class without
  `ReplicatedMixin`. Python would create a plain instance attribute there.
  The updater never reaches that case: it reads `replicas` first, which
  raises for those classes.
- Config.Lookup and `Config.Index` do not model that `True == 1` in
  Python, so a dict key `True` and a key `1` collide. The model keeps the
  two apart.
- RollingUpdater.ExtractMaxValue uses the exact ceiling of
  `value * v / 100`. The library's float expression can round one higher:
  `value = 100` with `"7%"` gives 8 there and 7 here.
- RollingUpdater.PercentBudget states that same exact ceiling, so it
  shares the float rounding gap of `RollingUpdater.ExtractMaxValue`.
- Decimal.ParseInt accepts only an optional sign followed by ASCII digits.
  `int()` also strips whitespace and accepts `_` separators and non-ASCII
  digits.
- Base64.Decode rejects characters outside the alphabet and misplaced or
  missing padding, where `b64decode` by default discards such characters
  and accepts some non-canonical padding. Like `b64decode`, it ignores the
  leftover low bits of the last character before the padding, so it
  accepts non-canonical encodings such as `YR==`.
- Http.RaiseForStatus gives `HTTPError(status)` for every error status.
  The library's choice between its own `HTTPError` carrying the server's
  message (for a JSON `Status` body) and the re-raised `requests` error is
  not distinguished.
- RollingUpdater.Poll does not model the listing request itself (the
  namespace and selector of each controller). Each round's two listings
  are inputs.
- RollingUpdater.Prepare rejects a non-integer `replicas` with
  `TypeError` at once. Python would fail later, or would accept a float.
- RollingUpdater.Launch reads both controllers' names up front, as the
  start-of-rollout log line does. A missing name therefore fails at that
  point, and nothing later depends on it.
- RollingUpdater.Rollout, `RollingUpdater.Poll` and
  `Mixins.AwaitScalable` each consume a finite sequence of server
  responses. Running out is reported, never an infinite wait, so
  termination of the library's loops is not claimed.
- Query.QuotePlusRoundTrip is proved for ASCII selectors only; the
  decoder the model uses handles only ASCII.
- Query.UrlEncodeLabelSelector promises that the query decodes back to the
  selector only for an ASCII selector, for the same reason.
- Query.JoinValues does not model `in`/`notin` with a dict value, which
  Python joins over the keys. The model raises `TypeError` instead.
- Query.QueryResults rejects an item that is not a JSON object. Python
  would build the object and fail later.
- Config.Parse approximates a document that is a string or a list. It
  sets the document without a context. Python's `in` test on such a value
  behaves differently (a substring or membership test).
- Config.Parse returns only the error when the context test fails on a
  loaded document that is not a dict. Python has already assigned
  `self.doc` at that point, so a later `parse` would return early there.
- The rest of the repository is outside this model: the package's
  `__init__`, `session.py`, the HTTPie plugin and the exceptions module.
