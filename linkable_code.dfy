/**
  Code to be linked from memory: the `LinkableCode` base class, its seven
  variants (PTX source, CUDA C/C++ source, fatbin, cubin, archive, object,
  LTO-IR), construction with callback validation, and the `name` and `data`
  accessors.
 */
module Linkable {
  import opened Wrappers
  import opened PyObjects
  import opened MemoryIO

  /** The seven concrete classes; each fixes only `kind` and `default_name`. */
  datatype Variant = PTXSource | CUSource | Fatbin | Cubin | Archive | Object | LTOIR

  /**
    The extension table (`FILE_EXTENSION_MAP`), supplied from outside.  Its
    values are arbitrary Python values; in particular one of them may be
    the string "cu".
   */
  type ExtensionTable = map<string, PyValue>

  /** The `kind` of `CUSource`, fixed in its class body rather than looked up. */
  const CuKind: PyValue := PyStr("cu")

  /** The extensions the variants look up when their classes are defined. */
  const TableExtensions: set<string> := {"ptx", "fatbin", "cubin", "a", "o", "ltoir"}

  /** The table holds every extension a variant looks up (otherwise defining the classes fails). */
  predicate DefinesVariants(table: ExtensionTable)
  {
    TableExtensions <= table.Keys
  }

  /** The extension under which a variant's kind is looked up; CUDA C/C++ source has none. */
  function Extension(v: Variant): (e: Option<string>)
    ensures e.None? <==> v == CUSource
    ensures e.Some? ==> e.value in TableExtensions
  {
    match v
    case PTXSource => Some("ptx")
    case CUSource => None
    case Fatbin => Some("fatbin")
    case Cubin => Some("cubin")
    case Archive => Some("a")
    case Object => Some("o")
    case LTOIR => Some("ltoir")
  }

  /**
    Every extension in the table lookups belongs to exactly one variant, so
    the six table-backed variants and the six extensions correspond one to one.
   */
  lemma ExtensionOwner(e: string)
    requires e in TableExtensions
    ensures exists v :: Extension(v) == Some(e) && forall w :: Extension(w) == Some(e) ==> w == v
  {
    var v := if e == "ptx" then PTXSource
             else if e == "fatbin" then Fatbin
             else if e == "cubin" then Cubin
             else if e == "a" then Archive
             else if e == "o" then Object
             else LTOIR;
    assert Extension(v) == Some(e);
    forall w | Extension(w) == Some(e) ensures w == v {
    }
  }

  /** The class-level `kind` of a variant. */
  function Kind(v: Variant, table: ExtensionTable): (k: PyValue)
    requires DefinesVariants(table)
    ensures v == CUSource ==> k == CuKind
    ensures v != CUSource ==> exists e :: e in TableExtensions && Extension(v) == Some(e) && k == table[e]
  {
    match Extension(v)
    case None => CuKind
    case Some(e) => table[e]
  }

  /** The class-level `default_name` of a variant. */
  function DefaultName(v: Variant): (n: string)
    ensures |n| > 10 && n[..9] == "<unnamed-" && n[|n| - 1] == '>'
  {
    match v
    case PTXSource => "<unnamed-ptx>"
    case CUSource => "<unnamed-cu>"
    case Fatbin => "<unnamed-fatbin>"
    case Cubin => "<unnamed-cubin>"
    case Archive => "<unnamed-archive>"
    case Object => "<unnamed-object>"
    case LTOIR => "<unnamed-ltoir>"
  }

  /** Different variants have different default names. */
  lemma DefaultNameInjective(v1: Variant, v2: Variant)
    requires DefaultName(v1) == DefaultName(v2)
    ensures v1 == v2
  {
  }

  /**
    The table gives the variants' extensions distinct values, none of them
    the string "cu".
   */
  predicate SeparatesVariants(table: ExtensionTable)
    requires DefinesVariants(table)
  {
    (forall e :: e in TableExtensions ==> table[e] != CuKind) &&
    (forall e1, e2 :: e1 in TableExtensions && e2 in TableExtensions && e1 != e2 ==> table[e1] != table[e2])
  }

  /** When the table separates the variants, `kind` identifies the variant. */
  lemma KindInjective(table: ExtensionTable, v1: Variant, v2: Variant)
    requires DefinesVariants(table) && SeparatesVariants(table)
    requires Kind(v1, table) == Kind(v2, table)
    ensures v1 == v2
  {
  }

  /**
    Nothing in the class bodies keeps a table entry from being "cu": some
    table that defines every variant gives `PTXSource` the same `kind` as
    `CUSource`.
   */
  lemma CuKindMayCollide()
    ensures exists table :: DefinesVariants(table) && Kind(PTXSource, table) == Kind(CUSource, table)
  {
    var table := map e | e in TableExtensions :: CuKind;
    assert DefinesVariants(table) && Kind(PTXSource, table) == Kind(CUSource, table);
  }

  /** The error raised by the constructor. */
  datatype Error = TypeError(message: string)

  const SetupNotCallable := "setup_callback must be callable"
  const TeardownNotCallable := "teardown_callback must be callable"

  /** A callback argument the constructor refuses: true in a boolean context, yet not callable. */
  predicate Rejected(callback: PyValue)
  {
    Truthy(callback) && !Callable(callback)
  }

  /** What `data` was given: an in-memory stream, or any other value (kept as is). */
  datatype Payload = Fixed(value: Buffer) | Stream(stream: MemoryStream)

  /** The stream behind a payload, if it is one. */
  function StreamOf(p: Payload): set<MemoryStream>
  {
    if p.Stream? then {p.stream} else {}
  }

  class LinkableCode {
    const variant: Variant
    var nrt: bool
    var explicitName: PyValue
    var payload: Payload
    var setupCallback: PyValue
    var teardownCallback: PyValue

    /**
      Neither stored callback is a true, non-callable value: the guarantee
      every object handed out by `Create` gives to the code that later
      invokes its callbacks.
     */
    ghost predicate Valid()
      reads this
    {
      !Rejected(setupCallback) && !Rejected(teardownCallback)
    }

    /** The field assignments of `__init__`, reached only once both callbacks have passed. */
    constructor Init(variant: Variant, data: Payload, name: PyValue,
                     setupCallback: PyValue, teardownCallback: PyValue, nrt: bool)
      requires !Rejected(setupCallback) && !Rejected(teardownCallback)
      ensures Valid() && this.variant == variant && this.nrt == nrt
      ensures explicitName == name && payload == data
      ensures this.setupCallback == setupCallback && this.teardownCallback == teardownCallback
    {
      this.variant := variant;
      this.nrt := nrt;
      explicitName := name;
      payload := data;
      this.setupCallback := setupCallback;
      this.teardownCallback := teardownCallback;
    }

    /**
      `Variant(data, name=None, setup_callback=None, teardown_callback=None,
      nrt=False)`: the setup callback is checked first, then the teardown
      callback, and only then are the fields stored.  A refused call
      yields no object and changes nothing.
     */
    static method Create(variant: Variant, data: Payload, name: PyValue := PyNone,
                         setupCallback: PyValue := PyNone, teardownCallback: PyValue := PyNone,
                         nrt: bool := false)
      returns (r: Result<LinkableCode, Error>)
      ensures r.Failure? <==> Rejected(setupCallback) || Rejected(teardownCallback)
      ensures Rejected(setupCallback) ==> r == Failure(TypeError(SetupNotCallable))
      ensures !Rejected(setupCallback) && Rejected(teardownCallback) ==>
                r == Failure(TypeError(TeardownNotCallable))
      ensures r.Success? ==> fresh(r.value) && r.value.Valid() && r.value.variant == variant
      ensures r.Success? ==> r.value.nrt == nrt && r.value.explicitName == name && r.value.payload == data
      ensures r.Success? ==> r.value.setupCallback == setupCallback
      ensures r.Success? ==> r.value.teardownCallback == teardownCallback
    {
      if Truthy(setupCallback) && !Callable(setupCallback) {
        return Failure(TypeError(SetupNotCallable));
      }
      if Truthy(teardownCallback) && !Callable(teardownCallback) {
        return Failure(TypeError(TeardownNotCallable));
      }
      var code := new LinkableCode.Init(variant, data, name, setupCallback, teardownCallback, nrt);
      r := Success(code);
    }

    /** `name`: the explicit name when it is true, otherwise the variant's default. */
    function Name(): (n: PyValue)
      reads this
      ensures Truthy(n)
      ensures Truthy(explicitName) ==> n == explicitName
      ensures !Truthy(explicitName) ==> n == PyStr(DefaultName(variant))
    {
      if Truthy(explicitName) then explicitName else PyStr(DefaultName(variant))
    }

    /**
      `data`: the whole current contents of a stream payload, read afresh on
      every access, or any other payload unchanged.  It reads the stream's
      contents only, never its position.
     */
    function Data(): (d: Buffer)
      reads this, StreamOf(payload)`contents
      ensures payload.Stream? ==> d == payload.stream.contents
      ensures payload.Fixed? ==> d == payload.value
    {
      match payload
      case Fixed(v) => v
      case Stream(s) => s.GetValue()
    }
  }

  /**
    With the object's fields and the stream's contents untouched, `data`
    gives the same value again, even if the stream position has moved.
   */
  twostate lemma DataDependsOnlyOnContents(code: LinkableCode)
    requires unchanged(code)
    requires code.payload.Stream? ==> unchanged(code.payload.stream`contents)
    ensures code.Data() == old(code.Data())
  {
  }
}
