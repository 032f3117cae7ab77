/** The part of the Python runtime that the codec registry and the field
    configuration builder observe: type objects, callables that are only
    stored and handed back, and the protocol checks applied to a value. */
module PyRuntime {
  import opened Wrappers

  /** A type object as seen through `kind.__name__` (`name`), `str(kind)`
      (`text`) and `kind.__class__.__name__` (`aliasClass`: `type` for an
      ordinary class, `_GenericAlias` or `_UnionGenericAlias` for a typing
      alias such as `List[int]` or `Optional[int]`). */
  datatype PyType = PyType(name: string, text: string, aliasClass: string)

  /** A callable the library stores but never looks into. `OptionalWrap(f)`
      is what the helper `optional(f)` builds: `f` lifted so that `None`
      passes through unchanged. */
  datatype Fn = Callable(id: string) | OptionalWrap(inner: Fn)

  /** A Python value as the encoder's `default` hook inspects it: its exact
      type `type(o)`, and, when the value passes the corresponding
      `isinstance` check, what `list(o)`, `dict(o)` (as ordered items) and
      `o.value` give. The three checks are independent here, exactly as the
      hook performs them one after the other. */
  datatype PyObject = PyObject(
    cls: PyType,
    asCollection: Option<seq<PyObject>>,
    asMapping: Option<seq<(PyObject, PyObject)>>,
    enumValue: Option<PyObject>)

  /** Every `Mapping` is a `Collection` (the abstract base classes say so). */
  ghost predicate WellFormed(o: PyObject)
  {
    o.asMapping.Some? ==> o.asCollection.Some?
  }
}
