/** The few pieces of Python semantics the service relies on: optional values,
    truthiness, the exception classes its handlers tell apart, and the
    outcome of a call into a library whose code is not part of this model. */
module Python {

  /** `T | None`; for an attribute of `app.state`, None means "not set". */
  datatype Option<+T> = None | Some(value: T)

  /** Exception classes. Each constructor stands for the class and its
      subclasses, as an `except` clause naming it would catch them. */
  datatype Exc =
    | ValueError
    | RuntimeError
    | AttributeError
    | KeyError
    | StopIteration
    | OtherException   // any other subclass of Exception

  /** What a call into foreign code does: return a value or raise. */
  datatype Outcome<+T> = Returned(value: T) | Raised(exc: Exc)

  /** A reference held by a variable or an attribute: `None` or an object.
      The objects the loaders construct (models, pipelines, converters)
      define no `__bool__` or `__len__`, so they are truthy. */
  datatype Ref = Null | Obj(id: nat)

  /** `bool(r)` for a reference. */
  predicate Truthy(r: Ref)
  {
    r.Obj?
  }

  /** `bool(s)` for a `str | None`: false exactly for None and "". */
  predicate TruthyStr(s: Option<string>)
  {
    s.Some? && s.value != ""
  }
}
