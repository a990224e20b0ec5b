/**
 The WorkerPool handlers. `create_fn` derives the queue name, renders all
 three children, stamps the WorkerPool as their owner and then creates them
 in the order Deployment, PrometheusRule, ScaledObject; any failure stops
 the pass where it happens. The `delete` handler only returns a message:
 removing the children is left to the cluster's cascade on owner references.
 */
module Handlers {
  import opened Base
  import opened Values
  import opened Naming
  import opened Rendering
  import opened Store

  /** `kopf.adopt(manifest, owner=body)`: marks the manifest as owned by the
      WorkerPool, leaving its kind and document as they were. */
  function Adopt(m: Manifest, owner: Body): (r: Manifest)
    ensures r.kind == m.kind && r.doc == m.doc
    ensures r.owners == m.owners + {owner}
  {
    m.(owners := m.owners + {owner})
  }

  /** Adopting twice by the same owner is adopting once. */
  lemma AdoptIdempotent(m: Manifest, owner: Body)
    ensures Adopt(Adopt(m, owner), owner) == Adopt(m, owner)
  {
  }

  /** Lines 8-18 of `create_fn`: the queue name, then the Deployment, the
      PrometheusRule and the ScaledObject, each rendered only if everything
      before it succeeded, and finally all three adopted. */
  function RenderChildren(body: Body, spec: Value, t: Templates): (r: Result<seq<Manifest>>)
    ensures r.Ok? ==> |r.value| == |CreationOrder|
    ensures r.Ok? <==>
              && QueueNameOf(body.namespace, spec).Ok?
              && var queue := QueueNameOf(body.namespace, spec).value;
                 && GetDeployment(t, body.name, body.namespace, queue, spec).Ok?
                 && GetPrometheusRule(t, body.name, body.namespace, queue, spec).Ok?
                 && GetScaledObject(t, body.name, body.namespace, queue).Ok?
    ensures QueueNameOf(body.namespace, spec).Err? ==> r == Err(QueueNameOf(body.namespace, spec).error)
    ensures QueueNameOf(body.namespace, spec).Ok? ==>
              var queue := QueueNameOf(body.namespace, spec).value;
              var deployment := GetDeployment(t, body.name, body.namespace, queue, spec);
              var rule := GetPrometheusRule(t, body.name, body.namespace, queue, spec);
              var hpa := GetScaledObject(t, body.name, body.namespace, queue);
              && (deployment.Err? ==> r == Err(deployment.error))
              && (deployment.Ok? && rule.Err? ==> r == Err(rule.error))
              && (deployment.Ok? && rule.Ok? && hpa.Err? ==> r == Err(hpa.error))
              && (r.Ok? ==>
                    r.value == [Adopt(deployment.value, body), Adopt(rule.value, body), Adopt(hpa.value, body)])
    ensures r.Ok? ==>
              forall i | 0 <= i < |r.value| ::
                r.value[i].kind == CreationOrder[i] && r.value[i].owners == {body}
  {
    var queue :- QueueNameOf(body.namespace, spec);
    var deployment :- GetDeployment(t, body.name, body.namespace, queue, spec);
    var rule :- GetPrometheusRule(t, body.name, body.namespace, queue, spec);
    var hpa :- GetScaledObject(t, body.name, body.namespace, queue);
    Ok([Adopt(deployment, body), Adopt(rule, body), Adopt(hpa, body)])
  }

  /** What a handler returns to the framework, and the cluster it leaves. */
  datatype Reply = Reply(cluster: Cluster, result: Result<string>)

  /** `create_fn`. If rendering fails nothing is sent to the cluster; if it
      succeeds the three children are created in order and the first refusal
      ends the pass, with the earlier children left in place. On success the
      cluster holds the three adopted children, in creation order, after
      everything it held before, and the reply is the creation message. */
  function CreateFn(body: Body, spec: Value, t: Templates, api: Api, c: Cluster): (r: Reply)
    ensures RenderChildren(body, spec, t).Err? ==>
              r == Reply(c, Err(RenderChildren(body, spec, t).error))
    ensures c.objects <= r.cluster.objects && c.requests <= r.cluster.requests
    ensures r.result.Ok? ==> r.result.value == "Worker pool " + body.name + " deployment created"
    ensures r.result.Ok? ==>
              && RenderChildren(body, spec, t).Ok?
              && r.cluster == Cluster(c.objects + RenderChildren(body, spec, t).value,
                                      c.requests + RenderChildren(body, spec, t).value)
    ensures r.result.Ok? ==>
              && |r.cluster.objects| == |c.objects| + |CreationOrder|
              && forall i | 0 <= i < |CreationOrder| ::
                   && r.cluster.objects[|c.objects| + i].kind == CreationOrder[i]
                   && body in r.cluster.objects[|c.objects| + i].owners
  {
    match RenderChildren(body, spec, t)
    case Err(e) => Reply(c, Err(e))
    case Ok(children) =>
      var run := RunCreates(c, children, api);
      RunCreatesStored(c, children, api);
      RunCreatesSentOnSuccess(c, children, api);
      Reply(run.cluster,
            if run.status.Err? then Err(run.status.error)
            else Ok("Worker pool " + body.name + " deployment created"))
  }

  /** What line 38 raises: it reads `obj.metadata.name`, but the custom
      objects client returns the created ScaledObject as a plain dict. */
  const ScaledObjectReportError: Error := AttributeError("metadata")

  /** `create_fn` as written: identical to `CreateFn` up to the last create
      call, but once the ScaledObject is stored, reporting it raises, so the
      creation message is never returned. */
  function CreateFnAsWritten(body: Body, spec: Value, t: Templates, api: Api, c: Cluster): (r: Reply)
    ensures r.cluster == CreateFn(body, spec, t, api, c).cluster
    ensures CreateFn(body, spec, t, api, c).result.Err? ==> r.result == CreateFn(body, spec, t, api, c).result
    ensures CreateFn(body, spec, t, api, c).result.Ok? ==> r.result == Err(ScaledObjectReportError)
  {
    match RenderChildren(body, spec, t)
    case Err(e) => Reply(c, Err(e))
    case Ok(children) =>
      var run := RunCreates(c, children, api);
      Reply(run.cluster, if run.status.Err? then Err(run.status.error) else Err(ScaledObjectReportError))
  }

  /** As written, `create_fn` never returns its message: even when the
      cluster accepts all three children and stores them, the handler ends
      in the AttributeError of line 38. */
  lemma AsWrittenNeverReportsCreation(body: Body, spec: Value, t: Templates, api: Api, c: Cluster)
    ensures CreateFnAsWritten(body, spec, t, api, c).result.Err?
    ensures RenderChildren(body, spec, t).Ok? &&
            CreateFn(body, spec, t, api, c).result.Ok? ==>
              var children := RenderChildren(body, spec, t).value;
              CreateFnAsWritten(body, spec, t, api, c)
              == Reply(Cluster(c.objects + children, c.requests + children), Err(ScaledObjectReportError))
  {
  }

  /** Once the children are rendered, a failed pass failed at some step k of
      the creation order: exactly the children before k were stored, k's
      request was the last one sent, nothing after k was attempted and
      nothing was rolled back; the error names the child kind of step k. */
  lemma CreateFailStop(body: Body, spec: Value, t: Templates, api: Api, c: Cluster)
    requires RenderChildren(body, spec, t).Ok?
    ensures var children := RenderChildren(body, spec, t).value;
      var r := CreateFn(body, spec, t, api, c);
      var k := |r.cluster.objects| - |c.objects|;
      r.result.Err? ==>
        && 0 <= k < |CreationOrder|
        && r.cluster.objects == c.objects + children[..k]
        && r.cluster.requests == c.requests + children[..k + 1]
        && api(r.cluster.objects, children[k]).Rejected?
        && r.result.error == ApiError(CreationOrder[k], api(r.cluster.objects, children[k]).reason)
    ensures var r := CreateFn(body, spec, t, api, c);
      var w := CreateFnAsWritten(body, spec, t, api, c);
      var k := |w.cluster.objects| - |c.objects|;
      && w.cluster == r.cluster
      && w.result.Err?
      && (k < |CreationOrder| ==> w.result == r.result)
      && (k == |CreationOrder| ==> w.result == Err(ScaledObjectReportError))
  {
    RunCreatesFailStop(c, RenderChildren(body, spec, t).value, api);
  }

  /** Once the children are rendered, the pass succeeds exactly when the
      cluster accepts each child in the state that the earlier ones left. */
  lemma CreateSucceedsIffAllAccepted(body: Body, spec: Value, t: Templates, api: Api, c: Cluster)
    requires RenderChildren(body, spec, t).Ok?
    ensures var children := RenderChildren(body, spec, t).value;
      CreateFn(body, spec, t, api, c).result.Ok?
      <==> forall j | 0 <= j < |children| :: api(c.objects + children[..j], children[j]).Accepted?
    ensures var children := RenderChildren(body, spec, t).value;
      CreateFnAsWritten(body, spec, t, api, c).result == Err(ScaledObjectReportError)
      <==> forall j | 0 <= j < |children| :: api(c.objects + children[..j], children[j]).Accepted?
  {
    var children := RenderChildren(body, spec, t).value;
    RunCreatesFailStop(c, children, api);
  }

  /** The code reads `initialResources.limits` unconditionally: a spec
      without any one of the four resource fields fails the pass before a
      single create call is sent. */
  lemma MissingResourceCreatesNothing(body: Body, spec: Value, t: Templates, api: Api, c: Cluster)
    requires || Lookup(spec, CpuRequestsPath).Err?
             || Lookup(spec, MemoryRequestsPath).Err?
             || Lookup(spec, CpuLimitsPath).Err?
             || Lookup(spec, MemoryLimitsPath).Err?
    ensures CreateFn(body, spec, t, api, c).result.Err?
    ensures CreateFn(body, spec, t, api, c).cluster == c
  {
  }

  /** No spec field affects what is rendered besides the task type and the
      five Deployment inputs (which include the PrometheusRule's two). */
  lemma RenderReadsOnlySpecInputs(body: Body, spec1: Value, spec2: Value, t: Templates)
    requires Lookup(spec1, TaskTypePath) == Lookup(spec2, TaskTypePath)
    requires Lookup(spec1, ImagePath) == Lookup(spec2, ImagePath)
    requires Lookup(spec1, CpuRequestsPath) == Lookup(spec2, CpuRequestsPath)
    requires Lookup(spec1, MemoryRequestsPath) == Lookup(spec2, MemoryRequestsPath)
    requires Lookup(spec1, CpuLimitsPath) == Lookup(spec2, CpuLimitsPath)
    requires Lookup(spec1, MemoryLimitsPath) == Lookup(spec2, MemoryLimitsPath)
    ensures RenderChildren(body, spec1, t) == RenderChildren(body, spec2, t)
  {
    QueueNameFrame(body.namespace, spec1, spec2);
    var queue := QueueNameOf(body.namespace, spec1);
    if queue.Ok? {
      DeploymentParamsFrame(body.name, body.namespace, queue.value, spec1, spec2);
      assert GetDeployment(t, body.name, body.namespace, queue.value, spec1)
             == GetDeployment(t, body.name, body.namespace, queue.value, spec2);
      RuleParamsFrame(body.name, body.namespace, queue.value, spec1, spec2);
      assert GetPrometheusRule(t, body.name, body.namespace, queue.value, spec1)
             == GetPrometheusRule(t, body.name, body.namespace, queue.value, spec2);
    }
  }

  /** Whatever else differs between two specs, once both render, their
      ScaledObjects are the same when their task types are: the ScaledObject
      sees no spec field besides the one the queue name is built from. */
  lemma ScaledObjectReadsOnlyTaskType(body: Body, spec1: Value, spec2: Value, t: Templates)
    requires Lookup(spec1, TaskTypePath) == Lookup(spec2, TaskTypePath)
    requires RenderChildren(body, spec1, t).Ok? && RenderChildren(body, spec2, t).Ok?
    ensures RenderChildren(body, spec1, t).value[2] == RenderChildren(body, spec2, t).value[2]
  {
    QueueNameFrame(body.namespace, spec1, spec2);
  }

  /** A cluster that refuses to create a manifest it already stores, as the
      Kubernetes API does with AlreadyExists. */
  ghost predicate RefusesDuplicates(api: Api) {
    forall objects: seq<Manifest>, m: Manifest :: m in objects ==> api(objects, m).Rejected?
  }

  /** Running `create_fn` again for the same WorkerPool after a pass that
      stored at least the Deployment (a redelivered create after a partial
      failure) never gets further: rendering is deterministic, so the same
      Deployment is sent first, it is refused, and nothing new is stored. */
  lemma RetriedCreateStoresNothing(body: Body, spec: Value, t: Templates, api: Api, c: Cluster)
    requires RefusesDuplicates(api)
    requires |CreateFn(body, spec, t, api, c).cluster.objects| > |c.objects|
    ensures RenderChildren(body, spec, t).Ok?
    ensures var first := CreateFn(body, spec, t, api, c);
      var deployment := RenderChildren(body, spec, t).value[0];
      deployment in first.cluster.objects && api(first.cluster.objects, deployment).Rejected?
    ensures var first := CreateFn(body, spec, t, api, c);
      var again := CreateFn(body, spec, t, api, first.cluster);
      && again.result == Err(ApiError(Deployment, api(first.cluster.objects, RenderChildren(body, spec, t).value[0]).reason))
      && again.cluster.objects == first.cluster.objects
      && |again.cluster.requests| == |first.cluster.requests| + 1
  {
    var first := CreateFn(body, spec, t, api, c);
    FirstChildStored(body, spec, t, api, c);
    var deployment := RenderChildren(body, spec, t).value[0];
    assert api(first.cluster.objects, deployment).Rejected?;
    RefusedDeploymentStopsPass(body, spec, t, api, first.cluster);
  }

  /** As written, the framework's retry of a `create_fn` that stored its
      children and then raised at line 38 cannot recover: the retry is
      refused at the Deployment and stores nothing new. */
  lemma AsWrittenRetryStoresNothing(body: Body, spec: Value, t: Templates, api: Api, c: Cluster)
    requires RefusesDuplicates(api)
    requires |CreateFnAsWritten(body, spec, t, api, c).cluster.objects| > |c.objects|
    ensures var first := CreateFnAsWritten(body, spec, t, api, c);
      var again := CreateFnAsWritten(body, spec, t, api, first.cluster);
      && again.result.Err?
      && again.result.error.ApiError?
      && again.result.error.kind == Deployment
      && again.cluster.objects == first.cluster.objects
  {
    RetriedCreateStoresNothing(body, spec, t, api, c);
  }

  /** If the cluster refuses the Deployment, the pass sends only that one
      request, stores nothing and reports the refusal. */
  lemma RefusedDeploymentStopsPass(body: Body, spec: Value, t: Templates, api: Api, c: Cluster)
    requires RenderChildren(body, spec, t).Ok?
    requires api(c.objects, RenderChildren(body, spec, t).value[0]).Rejected?
    ensures var deployment := RenderChildren(body, spec, t).value[0];
      CreateFn(body, spec, t, api, c)
      == Reply(Cluster(c.objects, c.requests + [deployment]),
               Err(ApiError(Deployment, api(c.objects, deployment).reason)))
  {
    var children := RenderChildren(body, spec, t).value;
    assert RunCreates(c, children, api) == Create(c, children[0], api);
  }

  /** A pass that stored anything stored the Deployment, the first child. */
  lemma FirstChildStored(body: Body, spec: Value, t: Templates, api: Api, c: Cluster)
    requires |CreateFn(body, spec, t, api, c).cluster.objects| > |c.objects|
    ensures RenderChildren(body, spec, t).Ok?
    ensures RenderChildren(body, spec, t).value[0] in CreateFn(body, spec, t, api, c).cluster.objects
  {
    var children := RenderChildren(body, spec, t).value;
    var first := CreateFn(body, spec, t, api, c);
    RunCreatesStored(c, children, api);
    var k := |first.cluster.objects| - |c.objects|;
    assert first.cluster.objects[|c.objects|] == children[..k][0] == children[0];
  }

  /** `delete`: sends nothing to the cluster and reports the pool, by name,
      as deleted together with its children. */
  function DeleteFn(body: Body, c: Cluster): (r: Reply)
    ensures r.cluster == c
    ensures r.result.Ok?
    ensures r.result.value == "Worker pool " + body.name + " and children deleted"
  {
    Reply(c, Ok("Worker pool " + body.name + " and children deleted"))
  }

  /** The resource events handlers can be registered for. */
  datatype Event = Creation | Deletion

  /** The two handlers of the module. */
  datatype Handler = CreateHandler | DeleteHandler

  /** A decorator: the handler runs when the event is observed. */
  datatype Registration = Registration(handler: Handler, event: Event)

  /** The registrations as written: both handlers carry the create decorator. */
  const SourceRegistrations: seq<Registration> :=
    [Registration(CreateHandler, Creation), Registration(DeleteHandler, Creation)]

  /** The registrations as evidently intended: `delete` answers deletion. */
  const IntendedRegistrations: seq<Registration> :=
    [Registration(CreateHandler, Creation), Registration(DeleteHandler, Deletion)]

  /** The handlers registered for an event, in registration order. */
  function HandlersFor(regs: seq<Registration>, e: Event): (r: seq<Handler>)
    ensures forall h :: h in r <==> Registration(h, e) in regs
    ensures |r| <= |regs|
  {
    if regs == [] then []
    else (if regs[0].event == e then [regs[0].handler] else []) + HandlersFor(regs[1..], e)
  }

  /** Selection keeps registration order: the handlers of a longer table
      are those of its front followed by those of its back. */
  lemma {:induction false} HandlersForAppend(a: seq<Registration>, b: seq<Registration>, e: Event)
    ensures HandlersFor(a + b, e) == HandlersFor(a, e) + HandlersFor(b, e)
    decreases |a|
  {
    if a == [] {
      assert a + b == b;
    } else {
      assert (a + b)[0] == a[0] && (a + b)[1..] == a[1..] + b;
      HandlersForAppend(a[1..], b, e);
    }
  }

  /** Runs one handler. */
  function Handle(h: Handler, body: Body, spec: Value, t: Templates, api: Api, c: Cluster): (r: Reply)
    ensures h == DeleteHandler ==> r.cluster == c
    ensures h == DeleteHandler ==> r == DeleteFn(body, c)
    ensures h == CreateHandler ==> r == CreateFn(body, spec, t, api, c)
  {
    match h
    case CreateHandler => CreateFn(body, spec, t, api, c)
    case DeleteHandler => DeleteFn(body, c)
  }

  /** The cluster after a series of handlers, and what each returned. */
  datatype Replies = Replies(cluster: Cluster, results: seq<Result<string>>)

  /** Runs handlers one after the other, each on the cluster the previous
      one left, collecting their results. */
  function RunHandlers(hs: seq<Handler>, body: Body, spec: Value, t: Templates, api: Api, c: Cluster): (r: Replies)
    ensures |r.results| == |hs|
    ensures (forall i | 0 <= i < |hs| :: hs[i] == DeleteHandler) ==> r.cluster == c
    decreases |hs|
  {
    if hs == [] then Replies(c, [])
    else
      var first := Handle(hs[0], body, spec, t, api, c);
      var rest := RunHandlers(hs[1..], body, spec, t, api, first.cluster);
      Replies(rest.cluster, [first.result] + rest.results)
  }

  /** What observing an event does under a registration table. */
  function Dispatch(regs: seq<Registration>, e: Event, body: Body, spec: Value, t: Templates, api: Api, c: Cluster)
    : (r: Replies)
    ensures |r.results| == |HandlersFor(regs, e)|
  {
    RunHandlers(HandlersFor(regs, e), body, spec, t, api, c)
  }

  /** Running a single handler is running that handler. */
  lemma RunSingleHandler(h: Handler, body: Body, spec: Value, t: Templates, api: Api, c: Cluster)
    ensures var one := Handle(h, body, spec, t, api, c);
      RunHandlers([h], body, spec, t, api, c) == Replies(one.cluster, [one.result])
  {
    var one := Handle(h, body, spec, t, api, c);
    assert [h][1..] == [];
    assert RunHandlers([], body, spec, t, api, one.cluster) == Replies(one.cluster, []);
    assert [one.result] + [] == [one.result];
  }

  /** Running two handlers runs the second on the cluster the first left. */
  lemma RunTwoHandlers(h1: Handler, h2: Handler, body: Body, spec: Value, t: Templates, api: Api, c: Cluster)
    ensures var one := Handle(h1, body, spec, t, api, c);
      var two := Handle(h2, body, spec, t, api, one.cluster);
      RunHandlers([h1, h2], body, spec, t, api, c) == Replies(two.cluster, [one.result, two.result])
  {
    var one := Handle(h1, body, spec, t, api, c);
    assert [h1, h2][1..] == [h2];
    RunSingleHandler(h2, body, spec, t, api, one.cluster);
  }

  /** As written, deleting a WorkerPool runs no handler at all, while
      creating one runs `delete` right after `create_fn`, so a freshly created
      pool also reports that it and its children were deleted. */
  lemma SourceDeleteRunsOnCreation(body: Body, spec: Value, t: Templates, api: Api, c: Cluster)
    ensures Dispatch(SourceRegistrations, Deletion, body, spec, t, api, c) == Replies(c, [])
    ensures var r := Dispatch(SourceRegistrations, Creation, body, spec, t, api, c);
      && |r.results| == 2
      && r.results[0] == CreateFn(body, spec, t, api, c).result
      && r.results[1] == Ok("Worker pool " + body.name + " and children deleted")
  {
    assert HandlersFor(SourceRegistrations, Deletion) == [];
    var hs := HandlersFor(SourceRegistrations, Creation);
    assert hs == [CreateHandler, DeleteHandler];
    RunTwoHandlers(CreateHandler, DeleteHandler, body, spec, t, api, c);
  }

  /** With `delete` registered for deletion, creating a pool runs only
      `create_fn`, and deleting it sends nothing to the cluster and reports
      the pool and its children deleted. */
  lemma IntendedDeleteRunsOnDeletion(body: Body, spec: Value, t: Templates, api: Api, c: Cluster)
    ensures Dispatch(IntendedRegistrations, Deletion, body, spec, t, api, c)
            == Replies(c, [Ok("Worker pool " + body.name + " and children deleted")])
    ensures var r := Dispatch(IntendedRegistrations, Creation, body, spec, t, api, c);
      r == Replies(CreateFn(body, spec, t, api, c).cluster, [CreateFn(body, spec, t, api, c).result])
  {
    assert HandlersFor(IntendedRegistrations, Deletion) == [DeleteHandler];
    RunSingleHandler(DeleteHandler, body, spec, t, api, c);
    assert HandlersFor(IntendedRegistrations, Creation) == [CreateHandler];
    RunSingleHandler(CreateHandler, body, spec, t, api, c);
  }
}
