/**
  The slice of Python's object model that the linkable-code constructor and
  its `name` accessor depend on: which values are true in a boolean context
  and which values are callable.
 */
module PyObjects {

  /**
    A Python value as seen by a boolean test or by `callable`.  Plain values
    carry their payload; an instance of a user class records whether its
    class defines `__call__` and what its `__bool__`/`__len__` make it.
   */
  datatype PyValue =
    | PyNone
    | PyBool(b: bool)
    | PyInt(i: int)
    | PyStr(s: string)
    | PyFunction(id: nat)
    | PyInstance(id: nat, hasCall: bool, isTrue: bool)

  /** Python truth testing: `None`, `False`, `0` and `""` are false. */
  predicate Truthy(v: PyValue)
  {
    match v
    case PyNone => false
    case PyBool(b) => b
    case PyInt(i) => i != 0
    case PyStr(s) => s != []
    case PyFunction(_) => true
    case PyInstance(_, _, t) => t
  }

  /** The builtin `callable`: functions, and instances of classes with `__call__`. */
  predicate Callable(v: PyValue)
  {
    v.PyFunction? || (v.PyInstance? && v.hasCall)
  }
}
