/**
 The two names the create handler derives from a WorkerPool: the queue the
 workers consume (namespace, a dot, the task type) and the pool name with
 hyphens replaced by underscores, for the places whose naming rules refuse
 hyphens.
 */
module Naming {
  import opened Base
  import opened Values

  /** `name.replace('-', '_')`. */
  function Underscore(name: string): (r: string)
    ensures |r| == |name|
    ensures forall i | 0 <= i < |name| :: name[i] != '-' ==> r[i] == name[i]
    ensures forall i | 0 <= i < |name| :: name[i] == '-' ==> r[i] == '_'
    ensures '-' !in r
  {
    if name == [] then []
    else [if name[0] == '-' then '_' else name[0]] + Underscore(name[1..])
  }

  /** Replacing hyphens a second time changes nothing. */
  lemma UnderscoreIdempotent(name: string)
    ensures Underscore(Underscore(name)) == Underscore(name)
  {
    var once := Underscore(name);
    var twice := Underscore(once);
    assert forall i | 0 <= i < |once| :: once[i] != '-';
    assert |twice| == |once|;
    assert forall i | 0 <= i < |once| :: twice[i] == once[i];
  }

  /** A name is left as it is exactly when it has no hyphen. */
  lemma UnderscoreFixedIff(name: string)
    ensures Underscore(name) == name <==> '-' !in name
  {
    var r := Underscore(name);
    if '-' !in name {
      assert forall i | 0 <= i < |name| :: r[i] == name[i];
    }
  }

  /** The spec field the queue name is built from. */
  const TaskTypePath: Path := ["taskType"]

  /** The queue a pool's workers consume: namespace, a dot, task type. */
  function JoinQueueName(namespace: string, taskType: string): string {
    namespace + "." + taskType
  }

  /** `body['metadata']['namespace'] + '.' + spec['taskType']`: fails when the
      task type is missing, or is not a string and cannot be concatenated. */
  function QueueNameOf(namespace: string, spec: Value): (r: Result<string>)
    ensures r.Ok? <==> Lookup(spec, TaskTypePath).Ok? && Lookup(spec, TaskTypePath).value.Str?
    ensures r.Ok? ==> r.value == JoinQueueName(namespace, Lookup(spec, TaskTypePath).value.s)
    ensures r.Err? && Lookup(spec, TaskTypePath).Ok? ==> r.error == TypeError(TaskTypePath)
    ensures Lookup(spec, TaskTypePath).Err? ==> r == Err(Lookup(spec, TaskTypePath).error)
    ensures !spec.Dict? ==> r == Err(TypeError(TaskTypePath))
    ensures spec.Dict? && "taskType" !in spec.entries ==> r == Err(KeyError(TaskTypePath))
    ensures spec.Dict? && "taskType" in spec.entries ==>
              var taskType := spec.entries["taskType"];
              && (taskType.Str? ==> r == Ok(JoinQueueName(namespace, taskType.s)))
              && (!taskType.Str? ==> r == Err(TypeError(TaskTypePath)))
  {
    assert TaskTypePath[0] == "taskType" && TaskTypePath[1..] == [];
    var taskType :- Lookup(spec, TaskTypePath);
    if taskType.Str? then Ok(JoinQueueName(namespace, taskType.s))
    else Err(TypeError(TaskTypePath))
  }

  /** No spec field other than `taskType` affects the queue name. */
  lemma QueueNameFrame(namespace: string, spec1: Value, spec2: Value)
    requires Lookup(spec1, TaskTypePath) == Lookup(spec2, TaskTypePath)
    ensures QueueNameOf(namespace, spec1) == QueueNameOf(namespace, spec2)
  {
  }

  /** The namespace occupies the front of the queue name and is followed by
      the dot. */
  lemma JoinQueueNameAt(namespace: string, taskType: string)
    ensures var q := JoinQueueName(namespace, taskType);
      && |q| == |namespace| + 1 + |taskType|
      && q[|namespace|] == '.'
      && (forall i | 0 <= i < |namespace| :: q[i] == namespace[i])
      && q[|namespace| + 1..] == taskType
  {
  }

  /** For dot-free namespaces (Kubernetes namespaces are DNS labels) the queue
      name determines both the namespace and the task type, so two pools
      share a queue only if they share both. */
  lemma {:induction false} JoinQueueNameInjective(ns1: string, t1: string, ns2: string, t2: string)
    requires '.' !in ns1 && '.' !in ns2
    requires JoinQueueName(ns1, t1) == JoinQueueName(ns2, t2)
    ensures ns1 == ns2 && t1 == t2
  {
    var q := JoinQueueName(ns1, t1);
    JoinQueueNameAt(ns1, t1);
    JoinQueueNameAt(ns2, t2);
    assert |ns1| == |ns2|;
    assert ns1 == q[..|ns1|] == ns2;
    assert t1 == q[|ns1| + 1..] == t2;
  }
}
