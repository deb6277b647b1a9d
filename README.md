# Linkable code held in memory

A Dafny model of `numba_cuda/numba/cuda/cudadrv/linkable_code.py`: the
`LinkableCode` class that wraps code to be linked into a CUDA module from
memory, and its seven variants `PTXSource`, `CUSource`, `Fatbin`, `Cubin`,
`Archive`, `Object` and `LTOIR`.

- `wrappers.dfy` (`Wrappers`): `Option` and `Result`; a raised exception is a `Failure`.
- `py_objects.dfy` (`PyObjects`): Python values as the constructor sees them,
  with truth testing (`Truthy`) and the builtin `callable` (`Callable`).
- `memory_io.dfy` (`MemoryIO`): `io.StringIO` / `io.BytesIO` as a class
  `MemoryStream` with a buffer and a position; `getvalue`, `seek` and `write`.
  This is Python's standard library, modelled only so that the `data`
  accessor has a mutable buffer to read.
- `linkable_code.dfy` (`Linkable`): the variant table (`Extension`, `Kind`,
  `DefaultName`), the class `LinkableCode` with the five instance attributes
  `nrt`, `_name` (`explicitName`), `_data` (`payload`), `setup_callback` and
  `teardown_callback`, the constructor `Create` (Python's defaults written as
  Dafny default parameters), and the accessors `Name` and `Data`.
- `scenarios.dfy` (`Scenarios`): callers building each kind of object, with
  the expected outcomes asserted.

The variant classes differ only in their class constants, so a variant is a
value of the datatype `Variant` held in a `const` field of the object.
`FILE_EXTENSION_MAP` comes from a module that is not part of this model; it is
a parameter `table` from extensions to arbitrary Python values, and
`DefinesVariants(table)` says it has the six keys the class bodies look up
(Python would fail with `KeyError` while defining the classes otherwise). A
value may be anything, the string `"cu"` included (`CuKindMayCollide`);
`KindInjective` takes distinct values other than `"cu"` as a hypothesis.

`data` is not memoised: every access calls `getvalue()` again
(linkable_code.py:48-49), so later writes to the stream are visible, as
`CubinFromStream` shows. The constructor raises `TypeError` (:32, :34).
`name` falls back to the default for any false explicit name, the empty
string included (:44).

## Model

| member | source | states |
|---|---|---|
| `Linkable.LinkableCode.Create` | numba_cuda/numba/cuda/cudadrv/linkable_code.py:23-40 | Fails exactly when a callback is true but not callable; a bad setup callback gives `TypeError("setup_callback must be callable")` whatever the teardown callback is; a bad teardown callback with an acceptable setup callback gives the teardown message; false values pass; on success a fresh object stores variant, `nrt` (default false), name, payload and both callbacks exactly as passed; a failure yields no object and changes nothing |
| `Linkable.LinkableCode.Init` | numba_cuda/numba/cuda/cudadrv/linkable_code.py:36-40 | The field assignments, reached only after validation: every field equals its argument and the stored callbacks satisfy the object invariant `Valid` |
| `Linkable.LinkableCode.Name` | numba_cuda/numba/cuda/cudadrv/linkable_code.py:42-44 | The result is always true (never an empty string); it is the explicit name when that is true, and the variant's default name otherwise (for `None`, `""` or any other false value) |
| `Linkable.LinkableCode.Data` | numba_cuda/numba/cuda/cudadrv/linkable_code.py:46-50 | A stream payload yields the stream's whole current contents; any other payload is returned unchanged; its frame reads the stream's contents and not its position |
| `Linkable.DataDependsOnlyOnContents` | numba_cuda/numba/cuda/cudadrv/linkable_code.py:46-50 | Between two states where the object and the stream's contents are unchanged, `data` returns the same value, even if the position moved |
| `MemoryIO.MemoryStream.GetValue` | numba_cuda/numba/cuda/cudadrv/linkable_code.py:48-49 | `getvalue()` returns text for a `StringIO` and bytes for a `BytesIO` |
| `Linkable.Extension` | numba_cuda/numba/cuda/cudadrv/linkable_code.py:53-99 | `CUSource` is the only variant without a table lookup; every other variant looks up one of `ptx`, `fatbin`, `cubin`, `a`, `o`, `ltoir` |
| `Linkable.ExtensionOwner` | numba_cuda/numba/cuda/cudadrv/linkable_code.py:53-99 | Each of the six looked-up extensions belongs to exactly one variant |
| `Linkable.Kind` | numba_cuda/numba/cuda/cudadrv/linkable_code.py:53-99 | `CUSource`'s `kind` is the string `"cu"`; every other variant's `kind` is the table entry at that variant's extension; it depends on the variant and the table alone |
| `Linkable.KindInjective` | numba_cuda/numba/cuda/cudadrv/linkable_code.py:53-99 | If the table gives the six extensions distinct values, none of them `"cu"`, then `kind` determines the variant |
| `Linkable.CuKindMayCollide` | numba_cuda/numba/cuda/cudadrv/linkable_code.py:56-63 | Some table holding all six extensions gives `PTXSource` the same `kind` as `CUSource`: the class bodies do not keep a looked-up kind apart from `"cu"` |
| `Linkable.DefaultName` | numba_cuda/numba/cuda/cudadrv/linkable_code.py:53-99 | Every default name is non-empty, of the form `<unnamed-…>` |
| `Linkable.DefaultNameInjective` | numba_cuda/numba/cuda/cudadrv/linkable_code.py:53-99 | Distinct variants have distinct default names |
| `MemoryIO.MemoryStream.StringIO` | numba_cuda/numba/cuda/cudadrv/linkable_code.py:48 | Standard-library model (`io.StringIO`), present so that `data` has a text stream to read: a new text stream holds the initial text at position 0 |
| `MemoryIO.MemoryStream.BytesIO` | numba_cuda/numba/cuda/cudadrv/linkable_code.py:48 | Standard-library model (`io.BytesIO`): a new byte stream holds the initial bytes at position 0 |
| `MemoryIO.MemoryStream.Seek` | numba_cuda/numba/cuda/cudadrv/linkable_code.py:47-50 | Standard-library model, used to show `data` ignores the position: moves the position only, the contents are untouched |
| `MemoryIO.MemoryStream.Write` | numba_cuda/numba/cuda/cudadrv/linkable_code.py:47-50 | Standard-library model, used to show `data` is not memoised: writing a non-empty value of the stream's own type replaces the span at the position (padding a gap) and advances past it; an empty write returns 0 and changes nothing; writing the other type raises `TypeError` and changes nothing |
| `MemoryIO.Overwrite` | numba_cuda/numba/cuda/cudadrv/linkable_code.py:47-50 | Standard-library model behind `Write`: the written span holds the new data, every other index keeps the old value or the fill, and the length is the larger of the old end and the written end |

## Left out

- The contents of `FILE_EXTENSION_MAP`: its module is not part of this model, so the table is a parameter.
- Invoking the callbacks: the class only stores them; the kernel launcher and module unloader that call them are not part of this model.
- `name` on a bare `LinkableCode`, which has no `default_name` and raises `AttributeError`: only the seven variants are modelled.
- Payloads other than immutable text and bytes are not modelled: `None`, `bytearray`, `memoryview`, open file objects and other values cannot be represented, and the aliasing of a mutable buffer (the same object comes back from `data`, so later changes to it show) is lost. A `Fixed` payload holds a text or bytes value and is returned unchanged.
- File objects other than `StringIO`/`BytesIO`: although the class documentation says a file object is read when `data` is accessed, the code reads only those two classes (linkable_code.py:48) and returns any other file object unread; the model has no such objects.
- Subclasses of `StringIO`/`BytesIO` are not distinguished from the classes themselves.
- Stream behaviour beyond `getvalue`, `seek` and `write`: reading, closing (and the error `getvalue` raises on a closed stream), `whence` in `seek`, and thread safety.
- `explicitName` and the callbacks are Python values of a few shapes (`None`, `bool`, `int`, `str`, functions, instances with or without `__call__`); other types are not modelled.
- `nrt` is a `bool`, following the constructor's documented "If True" use; `__init__` stores any value unchanged without checking it, and non-boolean values are not modelled.
