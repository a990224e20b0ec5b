# WorkerPool operator — create handler model

A Dafny model of the HyperFlow WorkerPool operator's handlers (`handlers.py`).
A WorkerPool is a custom Kubernetes resource describing a pool of workers
bound to a message queue. When one is created, the operator does four things:

- It derives a queue name: the namespace, a dot, and the spec's `taskType`.
- It renders three child manifests from templates: a Deployment, a
  PrometheusRule and a KEDA ScaledObject.
- It stamps the WorkerPool on each child as its owner (`kopf.adopt`).
- It creates the children one after the other, stopping at the first error.

The `delete` handler only returns a message. Removing the children is left to
the cluster's cascade on owner references.

Modules, leaf first:

- `Base` (`base.dfy`): child kinds, decoded values, the WorkerPool identity,
  manifests, errors and a `Result` type.
- `Values` (`values.dfy`): Python subscripting `spec['a']['b']`, which
  raises KeyError or TypeError.
- `Naming` (`naming.dfy`): the queue name and `name.replace('-', '_')`.
- `Rendering` (`rendering.dfy`): the placeholder map of each template and
  the three `get_*` functions. Evaluation order is kept: `get_deployment`
  opens its template before reading the spec; `get_prometheus_rule` reads
  the limits before opening its template.
- `Store` (`store.dfy`): the cluster and the fail-stop sequence of create
  calls.
- `Handlers` (`handlers.py` as a whole): `create_fn`, `delete`, and the
  decorators that register them.

Abstractions:

- The template assets are a parameter `Templates`. It says whether each
  template file opens, and gives an opaque deterministic `fill` from
  placeholder values to a decoded document.
- The cluster API is a parameter `Api`. Given the objects stored so far and a
  manifest, it accepts or refuses the create call.
- The WorkerPool `spec` is a decoded JSON value. Strings, mappings, and
  anything else (kept only as its printed text) are distinguished.
- The WorkerPool `body` is a record of its name, namespace and uid.

Facts about `handlers.py` that the model keeps:

- Resource limits are mandatory. `get_deployment` reads both limits with
  no default.
- The PrometheusRule receives the limits, not the requests.
- The queue name is always derived from the namespace and the task type;
  the spec cannot name it directly.
- There is no update handler, no status condition, and no min or max
  replica count.

## Model

| member | source | states |
|---|---|---|
| `Values.WalkErrorPath` | handlers.py:47-50 | a failing subscript walk stops at the first key it cannot take: the walk up to that key succeeds, and the error is KeyError when the value reached is a mapping without the key, TypeError when it is not a mapping; the error locates the key as the path walked so far plus a non-empty prefix of the remaining keys |
| `Values.Subscript` | handlers.py:46-50 | one subscript `w[key]` returns the mapping's value for `key`; a mapping without `key` raises KeyError, and a value that is not a mapping raises TypeError |
| `Values.Lookup` | handlers.py:46-50 | a chained subscript of the empty path is the value itself, and a failing one raises KeyError or TypeError, nothing else |
| `Values.LookupErrorPath` | handlers.py:47-50 | a failing nested subscript is located at a non-empty prefix of the path; the lookup of the keys before it succeeds, and the error is KeyError for a mapping missing the last key, TypeError for a value that is not a mapping |
| `Values.LookupExtend` | handlers.py:47-50 | looking up a path one key longer is exactly one more subscript on the shorter lookup's value (errors propagate unchanged) |
| `Values.LookupAll` | handlers.py:46-50 | reading several fields in order succeeds iff every lookup succeeds, returns each field's value, and otherwise fails with the error of the first failing lookup, all earlier ones having succeeded |
| `Values.LookupAllFrame` | handlers.py:46-50 | reading several fields depends only on what each of those paths finds |
| `Naming.Underscore` | handlers.py:69 | the underscored pool name has the same length as the name, contains no `-`, has `_` wherever the name had `-`, and every other character unchanged |
| `Naming.UnderscoreIdempotent` | handlers.py:80 | replacing hyphens twice gives the same name as replacing them once |
| `Naming.UnderscoreFixedIff` | handlers.py:69 | the replacement leaves a name unchanged exactly when it has no hyphen |
| `Naming.QueueNameOf` | handlers.py:10 | the queue name exists iff `spec.taskType` is present and a string, and is then namespace + "." + taskType; a spec without `taskType` gives KeyError, a spec that is not a mapping or a non-string task type gives TypeError |
| `Naming.QueueNameFrame` | handlers.py:10 | no spec field other than `taskType` affects the queue name |
| `Naming.JoinQueueNameAt` | handlers.py:10 | the queue name is the namespace, then a dot at index \|namespace\|, then the task type |
| `Naming.JoinQueueNameInjective` | handlers.py:10 | for dot-free namespaces, equal queue names imply equal namespaces and equal task types |
| `Rendering.DeploymentParams` | handlers.py:46-58 | the Deployment's placeholders exist iff the image and the four request/limit fields are all present, and are then exactly poolName, namespace, image, queueName, cpu/memory requests and cpu/memory limits, each fed from its own spec field or argument |
| `Rendering.DeploymentParamsFirstError` | handlers.py:46-50 | the Deployment's placeholder lookup agrees with reading its five inputs in order: same success condition, and on failure the error of the first field that is missing |
| `Rendering.RuleParams` | handlers.py:63-71 | the PrometheusRule's placeholders are exactly poolName, namespace, queueName, poolNameUnderscored and the cpu/memory limits; never the image or the requests; the cpu limit is read (and fails) before the memory limit |
| `Rendering.ScaledObjectParams` | handlers.py:77-80 | the ScaledObject's placeholders are exactly poolName, namespace, queueName and poolNameUnderscored |
| `Rendering.GetDeployment` | handlers.py:44-59 | a missing template fails before any spec field is read; then a missing field fails; then the filled template gives the unowned Deployment with that document, or a TemplateError with the fill's reason |
| `Rendering.Fill` | handlers.py:51-59 | formatting and decoding a template gives the unowned manifest of that kind holding the decoded document, or a TemplateError carrying the reason |
| `Rendering.GetPrometheusRule` | handlers.py:62-72 | a missing limit fails even when the template is missing too; then a missing template fails; then the filled template gives the unowned PrometheusRule with that document, or a TemplateError with the fill's reason |
| `Rendering.GetScaledObject` | handlers.py:75-81 | a missing template fails; otherwise the filled template gives the unowned ScaledObject with that document, or a TemplateError with the fill's reason |
| `Rendering.DeploymentParamsFrame` | handlers.py:46-58 | two specs that agree on the image and the four request/limit fields give the Deployment the same placeholders |
| `Rendering.RuleParamsFrame` | handlers.py:63-71 | the PrometheusRule's placeholders depend on no spec field besides the two limits, so the image and requests cannot change them |
| `Rendering.RuleInputsCoveredByDeployment` | handlers.py:49-64 | once the Deployment's placeholders are found, the rule's limit lookups cannot fail and give the same values |
| `Store.RunCreates` | handlers.py:23-38 | a create pass never removes stored objects or sent requests (no rollback), and fails only with an ApiError |
| `Store.Create` | handlers.py:23 | one create call always adds its request; an accepted manifest is appended to the stored objects and the call succeeds; a refused one leaves the objects unchanged and fails with an ApiError for its kind and the cluster's reason |
| `Store.RunCreatesStored` | handlers.py:23-38 | with k children stored, exactly the first k were added after the existing objects, and the pass succeeds iff k is all of them |
| `Store.RunCreatesSentOnSuccess` | handlers.py:23-38 | a successful pass sent one request per child, in order |
| `Store.RunCreatesSentOnFailure` | handlers.py:23-38 | a failed pass sent the requests of the stored children and then the refused one, and none after it |
| `Store.RunCreatesAccepted` | handlers.py:23-38 | every stored child was accepted in the state the earlier children left |
| `Store.RunCreatesRefused` | handlers.py:23-38 | a failed pass failed on the child right after the stored ones, refused by the cluster, with the cluster's reason |
| `Store.RunCreatesFailStop` | handlers.py:23-38 | the whole fail-stop statement: stored prefix, each accepted, success iff all stored, on failure step k refused, its request the last one sent and nothing after it attempted |
| `Store.CreateInOrder` | handlers.py:23-38 | a loop that creates in order and stops at the first refusal ends in the same cluster with the same outcome as the recursive pass |
| `Handlers.Adopt` | handlers.py:16-18 | adopting a manifest adds exactly the WorkerPool to its owners and changes neither its kind nor its document |
| `Handlers.AdoptIdempotent` | handlers.py:16-18 | adopting a manifest twice by the same owner is adopting it once |
| `Handlers.RenderChildren` | handlers.py:8-18 | rendering succeeds iff the queue name and all three `get_*` succeed; otherwise it fails with the first error in the order queue name, Deployment, PrometheusRule, ScaledObject; on success it yields the three adopted documents in the order Deployment, PrometheusRule, ScaledObject, each owned by the WorkerPool alone |
| `Handlers.CreateFn` | handlers.py:7-41 | the handler with line 38 corrected: a rendering failure sends nothing to the cluster; nothing is ever rolled back; on success exactly the three rendered children were sent and stored, in creation order, and the reply is "Worker pool <name> deployment created" |
| `Handlers.CreateFnAsWritten` | handlers.py:7-41 | the handler as written leaves the same cluster as the corrected one and returns its error when that fails, but where the corrected one succeeds it fails with the AttributeError of line 38 |
| `Handlers.AsWrittenNeverReportsCreation` | handlers.py:33-41 | as written the handler never returns the creation message: when all three children are accepted, they are all sent and stored, and the reply is the AttributeError of line 38 |
| `Handlers.CreateFailStop` | handlers.py:23-38 | after rendering, a failed pass of the corrected handler failed at step k < 3: exactly the children before k are stored, k's request was the last sent, and the error names kind k with the cluster's reason; the handler as written leaves the same cluster, always fails, with that same error when k < 3 and with line 38's AttributeError when k == 3 |
| `Handlers.CreateSucceedsIffAllAccepted` | handlers.py:23-41 | after rendering, the corrected handler succeeds exactly when the cluster accepts each child in the state the earlier ones left; the handler as written ends in line 38's AttributeError in exactly those cases |
| `Handlers.MissingResourceCreatesNothing` | handlers.py:47-50 | a spec missing any of the four request/limit fields fails the pass with no create call sent |
| `Handlers.RenderReadsOnlySpecInputs` | handlers.py:10-14 | two specs that agree on taskType, the image and the four request/limit fields render identical children |
| `Handlers.ScaledObjectReadsOnlyTaskType` | handlers.py:14 | two specs that agree on taskType render the same ScaledObject, whatever else differs |
| `Handlers.FirstChildStored` | handlers.py:23 | a pass that stored anything stored the Deployment |
| `Handlers.RefusedDeploymentStopsPass` | handlers.py:23 | if the Deployment is refused, the pass sends that one request, stores nothing and reports the refusal |
| `Handlers.RetriedCreateStoresNothing` | handlers.py:12-23 | with a cluster that refuses duplicates, re-running the create handler after a pass that stored anything fails at the Deployment with one more request and nothing new stored |
| `Handlers.AsWrittenRetryStoresNothing` | handlers.py:23-38 | as written, re-running the handler after a pass that stored anything (as the framework does after line 38 raises) fails with the Deployment refused and stores nothing new |
| `Handlers.DeleteFn` | handlers.py:85-87 | the delete handler leaves the cluster untouched and replies "Worker pool <name> and children deleted" |
| `Handlers.Handle` | handlers.py:7-87 | running `create_fn` is `CreateFn`, running `delete` is `DeleteFn`, and the delete handler never changes the cluster |
| `Handlers.HandlersFor` | handlers.py:6-84 | a handler is selected for an event exactly when it is registered for that event |
| `Handlers.HandlersForAppend` | handlers.py:6-84 | handlers are selected in registration order: those of a table's front, then those of its back |
| `Handlers.RunSingleHandler` | handlers.py:84-87 | dispatching to one handler yields that handler's cluster and result |
| `Handlers.RunTwoHandlers` | handlers.py:6-87 | dispatching to two handlers runs the second on the cluster the first left and returns both results in order |
| `Handlers.RunHandlers` | handlers.py:6-87 | running handlers in turn yields one result per handler, and a sequence of `delete` handlers leaves the cluster untouched |
| `Handlers.Dispatch` | handlers.py:6-87 | observing an event yields one result per handler registered for it |
| `Handlers.SourceDeleteRunsOnCreation` | handlers.py:84 | as written, a deletion runs no handler, and a creation runs `create_fn` and then `delete`, which reports the pool deleted |
| `Handlers.IntendedDeleteRunsOnDeletion` | handlers.py:84 | registered for deletion, `delete` runs on deletion only, sending nothing; a creation runs only `create_fn` |

## Findings

| source | as written | input that shows it | evidently intended | confidence | as-written member | corrected member |
|---|---|---|---|---|---|---|
| handlers.py:38 | `print(f"HPA {obj.metadata.name} created")`, where `obj` is what `create_namespaced_custom_object` returns: a plain dict | any spec that renders and a cluster that accepts all three children: all three are stored, then `obj.metadata` raises AttributeError, so the handler fails and the creation message of lines 40-41 is never returned; the framework's retry is refused at the Deployment | `obj['metadata']['name']`, so the pass ends with the creation message | high; not executed | `Handlers.AsWrittenNeverReportsCreation` | `Handlers.CreateFn` |
| handlers.py:84 | the `delete` handler is registered with `kopf.on.create` | creating any WorkerPool: both handlers run, and the pool also reports "… and children deleted"; deleting it runs no handler | `kopf.on.delete` | high; not executed | `Handlers.SourceDeleteRunsOnCreation` | `Handlers.IntendedDeleteRunsOnDeletion` |

## Left out

- Template text, `str.format` and `yaml.safe_load` (lines 45, 51-59, 65-72, 76-81) are external assets and library calls. Each is one opaque deterministic `fill` per kind. A failing fill is one `TemplateError`, whatever the cause: an unknown placeholder, bad YAML, or a read error.
- The Kubernetes client classes and transport (lines 20-21) are left out. The API group, version, plural and namespace arguments of each create call (lines 23, 26-29, 33-36) are left out too. The cluster is a single store that records manifests by kind, and its answers come from the abstract `Api`.
- The `print` logging (lines 24, 31, 38) is left out as output. Lines 24 and 31 cannot fail: the Deployment client returns a typed object with `metadata`, and line 31 formats the whole dict. Line 38 does fail; that is the handlers.py:38 finding, modelled by `Handlers.CreateFnAsWritten`.
- `kopf.adopt` is reduced to "adds the WorkerPool to the owners". Its metadata layout (owner-reference fields, namespace defaulting, labels) is not modelled.
- `body['metadata']['name']` and `['namespace']` (lines 8-9, 86) are record fields. The framework only calls handlers for stored objects, and those always carry a string name and namespace.
- kopf's event dispatch is reduced to selecting registered handlers and running them in order. Its retry of a failed handler, backoff, and recording of handler results are not modelled.
- Python values other than strings and mappings keep only their printed text. Only `str()` of them ever reaches a template.
- `Handlers.RetriedCreateStoresNothing` identifies a duplicate by equal manifests, not by equal object names. This is a weaker assumption than the API server's name-based AlreadyExists. It is enough because rendering is deterministic.
- Exception values are coarser in the program than in the model. Python's KeyError at lines 47-50 carries only the missing key: `requests.cpu` and `limits.cpu` both raise `KeyError('cpu')`. The TypeError from subscripting a non-mapping carries only a message. The model's `path` payload stands for the position a traceback would show, not for the exception's value.
- Handlers.CreateFailStop: its API-failure statement (step k refused, the children before k stored) describes the corrected handler. For the handler as written it states only that the cluster is the same, that the handler always fails, and that when k == 3 the error is line 38's AttributeError, not an API refusal.
- Handlers.CreateSucceedsIffAllAccepted: the success it characterises is the corrected handler's. The handler as written never succeeds; the lemma states that it ends in line 38's AttributeError exactly when all three children are accepted.
- `Handle` and `Dispatch` run the corrected `CreateFn`. The registration finding (line 84) is kept separate from the line 38 finding.
