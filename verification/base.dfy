/**
 The shared vocabulary of the WorkerPool operator: the three child kinds,
 the decoded YAML/JSON values a WorkerPool spec is made of, the identity of
 the owning WorkerPool, rendered child manifests and the ways one create
 pass can fail.
 */
module Base {

  /** The three children a WorkerPool owns. */
  datatype ChildKind = Deployment | PrometheusRule | ScaledObject

  /** The order in which the create handler issues its create calls. */
  const CreationOrder: seq<ChildKind> := [Deployment, PrometheusRule, ScaledObject]

  /** A key path into nested mappings: ["a", "b"] stands for v['a']['b']. */
  type Path = seq<string>

  /** A value decoded from a Kubernetes object. Strings are kept apart from
      the other scalars because the handler concatenates them and calls
      `replace` on them; any other scalar or list only ever reaches a
      template through `str()`, so its printed text is all that is kept. */
  datatype Value =
    | Str(s: string)
    | Other(shown: string)
    | Dict(entries: map<string, Value>)

  /** The WorkerPool object a handler is invoked for: its metadata name and
      namespace, and the uid an owner reference points at. */
  datatype Body = Body(name: string, namespace: string, uid: string)

  /** A rendered child: the template it came from, the document the template
      produced, and the objects stamped on it as its owners. */
  datatype Manifest = Manifest(kind: ChildKind, doc: Value, owners: set<Body>)

  /** Everything that can stop a create pass. */
  datatype Error =
      /** A subscript `v[k]` on a mapping without key `k`. `path` is the
          full path up to and including `k`: where the traceback points,
          not the exception's value, which holds `k` alone. */
    | KeyError(path: Path)
      /** A subscript on something that is not a mapping, or a string
          concatenation with something that is not a string; `path` again
          locates the failing expression. */
    | TypeError(path: Path)
      /** The template file of `kind` could not be opened. */
    | TemplateMissing(kind: ChildKind)
      /** Formatting or YAML-decoding the template of `kind` failed. */
    | TemplateError(kind: ChildKind, reason: string)
      /** The cluster refused the create call for `kind`. */
    | ApiError(kind: ChildKind, reason: string)
      /** Attribute access `x.attribute` on a value that has no such
          attribute, such as a plain dict. */
    | AttributeError(attribute: string)

  /** A value or the error that stopped its computation; usable with `:-`. */
  datatype Result<+T> = Ok(value: T) | Err(error: Error) {

    predicate IsFailure() {
      Err?
    }

    function PropagateFailure<U>(): Result<U>
      requires Err?
    {
      Err(error)
    }

    function Extract(): T
      requires Ok?
    {
      value
    }
  }
}
