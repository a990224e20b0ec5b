/**
 Rendering the three child manifests. Each child has a template file whose
 text is filled in with `str.format(**params)` and decoded with
 `yaml.safe_load`; the template text is an external asset, so a template
 is modelled by whether its file opens and by an opaque deterministic
 `fill` from placeholder values to a document. What the model pins down is
 which spec fields are read, in which order, into which placeholders.
 */
module Rendering {
  import opened Base
  import opened Values
  import opened Naming

  /** The keyword names `str.format` is called with, one constructor each:
      poolName, namespace, image, queueName, cpuRequests, memoryRequests,
      cpuLimits, memoryLimits and poolNameUnderscored. */
  datatype Placeholder =
    | PoolName | Namespace | Image | QueueName
    | CpuRequests | MemoryRequests | CpuLimits | MemoryLimits
    | PoolNameUnderscored

  /** The keyword arguments handed to `str.format`. */
  type Params = map<Placeholder, Value>

  /** What formatting and decoding a template produces. */
  datatype Filled = Filled(doc: Value) | Malformed(reason: string)

  /** The template assets: whether `/templates/<kind>.yml` opens, and the
      result of formatting its text with given placeholders and decoding it. */
  datatype Templates = Templates(opens: ChildKind -> bool, fill: (ChildKind, Params) -> Filled)

  const ImagePath: Path := ["image"]
  const CpuRequestsPath: Path := ["initialResources", "requests", "cpu"]
  const MemoryRequestsPath: Path := ["initialResources", "requests", "memory"]
  const CpuLimitsPath: Path := ["initialResources", "limits", "cpu"]
  const MemoryLimitsPath: Path := ["initialResources", "limits", "memory"]

  /** The spec fields the Deployment reads, in the order it reads them. */
  const DeploymentInputs: seq<Path> :=
    [ImagePath, CpuRequestsPath, MemoryRequestsPath, CpuLimitsPath, MemoryLimitsPath]

  const DeploymentPlaceholders: set<Placeholder> :=
    {PoolName, Namespace, Image, QueueName,
     CpuRequests, MemoryRequests, CpuLimits, MemoryLimits}

  const RulePlaceholders: set<Placeholder> :=
    {PoolName, Namespace, QueueName, PoolNameUnderscored, CpuLimits, MemoryLimits}

  const ScaledObjectPlaceholders: set<Placeholder> :=
    {PoolName, Namespace, QueueName, PoolNameUnderscored}

  /** The placeholders of the Deployment template: the identity and queue of
      the pool, its image, and both its resource requests and limits. The
      five spec fields are read in order and all are mandatory. */
  function DeploymentParams(name: string, namespace: string, queue: string, spec: Value): (r: Result<Params>)
    ensures r.Ok? <==>
              && Lookup(spec, ImagePath).Ok?
              && Lookup(spec, CpuRequestsPath).Ok?
              && Lookup(spec, MemoryRequestsPath).Ok?
              && Lookup(spec, CpuLimitsPath).Ok?
              && Lookup(spec, MemoryLimitsPath).Ok?
    ensures r.Ok? ==> r.value.Keys == DeploymentPlaceholders
    ensures r.Ok? ==>
              && r.value[PoolName] == Str(name)
              && r.value[Namespace] == Str(namespace)
              && r.value[QueueName] == Str(queue)
    ensures r.Ok? ==>
              && r.value[Image] == Lookup(spec, ImagePath).value
              && r.value[CpuRequests] == Lookup(spec, CpuRequestsPath).value
              && r.value[MemoryRequests] == Lookup(spec, MemoryRequestsPath).value
    ensures r.Ok? ==>
              && r.value[CpuLimits] == Lookup(spec, CpuLimitsPath).value
              && r.value[MemoryLimits] == Lookup(spec, MemoryLimitsPath).value
  {
    var image :- Lookup(spec, ImagePath);
    var cpuRequests :- Lookup(spec, CpuRequestsPath);
    var memoryRequests :- Lookup(spec, MemoryRequestsPath);
    var cpuLimits :- Lookup(spec, CpuLimitsPath);
    var memoryLimits :- Lookup(spec, MemoryLimitsPath);
    Ok(map[
      PoolName := Str(name),
      Namespace := Str(namespace),
      Image := image,
      QueueName := Str(queue),
      CpuRequests := cpuRequests,
      MemoryRequests := memoryRequests,
      CpuLimits := cpuLimits,
      MemoryLimits := memoryLimits])
  }

  /** The Deployment fails with the error of the first of its five inputs
      that cannot be read: it agrees with reading `DeploymentInputs` in
      order, and succeeds exactly when every one of them is present. */
  lemma DeploymentParamsFirstError(name: string, namespace: string, queue: string, spec: Value)
    ensures DeploymentParams(name, namespace, queue, spec).Ok? <==>
              forall i | 0 <= i < |DeploymentInputs| :: Lookup(spec, DeploymentInputs[i]).Ok?
    ensures DeploymentParams(name, namespace, queue, spec).Err? ==>
              LookupAll(spec, DeploymentInputs) == Err(DeploymentParams(name, namespace, queue, spec).error)
  {
    var ins := DeploymentInputs;
    assert ins[0] == ImagePath && ins[1] == CpuRequestsPath && ins[2] == MemoryRequestsPath;
    assert ins[3] == CpuLimitsPath && ins[4] == MemoryLimitsPath;
    assert ins[1..][1..][1..][1..][1..] == [];
  }

  /** The placeholders of the PrometheusRule template: the pool's identity,
      queue and hyphen-free name, and its resource limits (not requests).
      The image and the requests never reach it. */
  function RuleParams(name: string, namespace: string, queue: string, spec: Value): (r: Result<Params>)
    ensures r.Ok? <==> Lookup(spec, CpuLimitsPath).Ok? && Lookup(spec, MemoryLimitsPath).Ok?
    ensures Lookup(spec, CpuLimitsPath).Err? ==> r == Err(Lookup(spec, CpuLimitsPath).error)
    ensures Lookup(spec, CpuLimitsPath).Ok? && Lookup(spec, MemoryLimitsPath).Err? ==>
              r == Err(Lookup(spec, MemoryLimitsPath).error)
    ensures r.Ok? ==> r.value.Keys == RulePlaceholders
    ensures r.Ok? ==> Image !in r.value && CpuRequests !in r.value && MemoryRequests !in r.value
    ensures r.Ok? ==>
              && r.value[PoolName] == Str(name)
              && r.value[Namespace] == Str(namespace)
              && r.value[QueueName] == Str(queue)
              && r.value[PoolNameUnderscored] == Str(Underscore(name))
              && r.value[CpuLimits] == Lookup(spec, CpuLimitsPath).value
              && r.value[MemoryLimits] == Lookup(spec, MemoryLimitsPath).value
  {
    var cpuLimits :- Lookup(spec, CpuLimitsPath);
    var memoryLimits :- Lookup(spec, MemoryLimitsPath);
    Ok(map[
      PoolName := Str(name),
      Namespace := Str(namespace),
      QueueName := Str(queue),
      PoolNameUnderscored := Str(Underscore(name)),
      CpuLimits := cpuLimits,
      MemoryLimits := memoryLimits])
  }

  /** The placeholders of the ScaledObject template: the pool's identity,
      queue and hyphen-free name, and nothing read from the spec. */
  function ScaledObjectParams(name: string, namespace: string, queue: string): (r: Params)
    ensures r.Keys == ScaledObjectPlaceholders
    ensures r[PoolName] == Str(name) && r[Namespace] == Str(namespace)
    ensures r[QueueName] == Str(queue) && r[PoolNameUnderscored] == Str(Underscore(name))
  {
    map[
      PoolName := Str(name),
      Namespace := Str(namespace),
      QueueName := Str(queue),
      PoolNameUnderscored := Str(Underscore(name))]
  }

  /** Formats and decodes an opened template into an unowned manifest. */
  function Fill(t: Templates, kind: ChildKind, params: Params): (r: Result<Manifest>)
    ensures t.fill(kind, params).Filled? ==> r == Ok(Manifest(kind, t.fill(kind, params).doc, {}))
    ensures t.fill(kind, params).Malformed? ==> r == Err(TemplateError(kind, t.fill(kind, params).reason))
  {
    match t.fill(kind, params)
    case Filled(doc) => Ok(Manifest(kind, doc, {}))
    case Malformed(why) => Err(TemplateError(kind, why))
  }

  /** `get_deployment`: opens the template first, then reads the five spec
      fields, then fills the template. */
  function GetDeployment(t: Templates, name: string, namespace: string, queue: string, spec: Value): (r: Result<Manifest>)
    ensures !t.opens(Deployment) ==> r == Err(TemplateMissing(Deployment))
    ensures t.opens(Deployment) && DeploymentParams(name, namespace, queue, spec).Err? ==>
              r == Err(DeploymentParams(name, namespace, queue, spec).error)
    ensures t.opens(Deployment) && DeploymentParams(name, namespace, queue, spec).Ok? ==>
              var filled := t.fill(Deployment, DeploymentParams(name, namespace, queue, spec).value);
              && (filled.Filled? ==> r == Ok(Manifest(Deployment, filled.doc, {})))
              && (filled.Malformed? ==> r == Err(TemplateError(Deployment, filled.reason)))
    ensures r.Ok? ==>
              && t.opens(Deployment)
              && DeploymentParams(name, namespace, queue, spec).Ok?
              && t.fill(Deployment, DeploymentParams(name, namespace, queue, spec).value) == Filled(r.value.doc)
              && r.value.kind == Deployment && r.value.owners == {}
  {
    if !t.opens(Deployment) then Err(TemplateMissing(Deployment))
    else
      var params :- DeploymentParams(name, namespace, queue, spec);
      Fill(t, Deployment, params)
  }

  /** `get_prometheus_rule`: reads the two limits first, then opens and
      fills the template. */
  function GetPrometheusRule(t: Templates, name: string, namespace: string, queue: string, spec: Value): (r: Result<Manifest>)
    ensures RuleParams(name, namespace, queue, spec).Err? ==>
              r == Err(RuleParams(name, namespace, queue, spec).error)
    ensures RuleParams(name, namespace, queue, spec).Ok? && !t.opens(PrometheusRule) ==>
              r == Err(TemplateMissing(PrometheusRule))
    ensures RuleParams(name, namespace, queue, spec).Ok? && t.opens(PrometheusRule) ==>
              var filled := t.fill(PrometheusRule, RuleParams(name, namespace, queue, spec).value);
              && (filled.Filled? ==> r == Ok(Manifest(PrometheusRule, filled.doc, {})))
              && (filled.Malformed? ==> r == Err(TemplateError(PrometheusRule, filled.reason)))
    ensures r.Ok? ==>
              && t.opens(PrometheusRule)
              && RuleParams(name, namespace, queue, spec).Ok?
              && t.fill(PrometheusRule, RuleParams(name, namespace, queue, spec).value) == Filled(r.value.doc)
              && r.value.kind == PrometheusRule && r.value.owners == {}
  {
    var params :- RuleParams(name, namespace, queue, spec);
    if !t.opens(PrometheusRule) then Err(TemplateMissing(PrometheusRule))
    else Fill(t, PrometheusRule, params)
  }

  /** `get_hpa`: opens and fills the ScaledObject template; it is not given
      the spec at all. */
  function GetScaledObject(t: Templates, name: string, namespace: string, queue: string): (r: Result<Manifest>)
    ensures !t.opens(ScaledObject) ==> r == Err(TemplateMissing(ScaledObject))
    ensures t.opens(ScaledObject) ==>
              var filled := t.fill(ScaledObject, ScaledObjectParams(name, namespace, queue));
              && (filled.Filled? ==> r == Ok(Manifest(ScaledObject, filled.doc, {})))
              && (filled.Malformed? ==> r == Err(TemplateError(ScaledObject, filled.reason)))
    ensures r.Ok? ==>
              && t.opens(ScaledObject)
              && t.fill(ScaledObject, ScaledObjectParams(name, namespace, queue)) == Filled(r.value.doc)
              && r.value.kind == ScaledObject && r.value.owners == {}
  {
    if !t.opens(ScaledObject) then Err(TemplateMissing(ScaledObject))
    else Fill(t, ScaledObject, ScaledObjectParams(name, namespace, queue))
  }

  /** The Deployment's placeholders depend on no spec field but its five inputs. */
  lemma DeploymentParamsFrame(name: string, namespace: string, queue: string, spec1: Value, spec2: Value)
    requires Lookup(spec1, ImagePath) == Lookup(spec2, ImagePath)
    requires Lookup(spec1, CpuRequestsPath) == Lookup(spec2, CpuRequestsPath)
    requires Lookup(spec1, MemoryRequestsPath) == Lookup(spec2, MemoryRequestsPath)
    requires Lookup(spec1, CpuLimitsPath) == Lookup(spec2, CpuLimitsPath)
    requires Lookup(spec1, MemoryLimitsPath) == Lookup(spec2, MemoryLimitsPath)
    ensures DeploymentParams(name, namespace, queue, spec1) == DeploymentParams(name, namespace, queue, spec2)
  {
  }

  /** The PrometheusRule's placeholders depend on no spec field but the two
      limits: changing the image or the requests cannot change them. */
  lemma RuleParamsFrame(name: string, namespace: string, queue: string, spec1: Value, spec2: Value)
    requires Lookup(spec1, CpuLimitsPath) == Lookup(spec2, CpuLimitsPath)
    requires Lookup(spec1, MemoryLimitsPath) == Lookup(spec2, MemoryLimitsPath)
    ensures RuleParams(name, namespace, queue, spec1) == RuleParams(name, namespace, queue, spec2)
  {
  }

  /** A spec that the Deployment can read is one the PrometheusRule can read:
      the rule's inputs are a subset of the Deployment's, so once the
      Deployment's placeholders are found the rule cannot fail on a lookup. */
  lemma RuleInputsCoveredByDeployment(name: string, namespace: string, queue: string, spec: Value)
    requires DeploymentParams(name, namespace, queue, spec).Ok?
    ensures RuleParams(name, namespace, queue, spec).Ok?
    ensures RuleParams(name, namespace, queue, spec).value[CpuLimits]
            == DeploymentParams(name, namespace, queue, spec).value[CpuLimits]
    ensures RuleParams(name, namespace, queue, spec).value[MemoryLimits]
            == DeploymentParams(name, namespace, queue, spec).value[MemoryLimits]
  {
  }
}
