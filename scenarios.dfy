/** Uses of the linkable-code model by a caller, each checked statically. */
module Scenarios {
  import opened Wrappers
  import opened PyObjects
  import opened MemoryIO
  import opened Linkable

  /** PTX text with every optional argument left at its default. */
  method PtxFromText(table: ExtensionTable)
    requires DefinesVariants(table)
  {
    var r := LinkableCode.Create(PTXSource, Fixed(Text("some-ptx-text")));
    assert r.Success?;
    var code := r.value;
    assert Kind(code.variant, table) == table["ptx"];
    assert code.Name() == PyStr("<unnamed-ptx>");
    assert code.Data() == Text("some-ptx-text");
    assert !code.nrt && code.setupCallback == PyNone && code.teardownCallback == PyNone;
  }

  /**
    A cubin held in a `BytesIO`: `data` follows the buffer, ignoring the
    position and showing later writes, because nothing is cached.
   */
  method CubinFromStream()
  {
    var stream := new MemoryStream.BytesIO([0x7f, 0x45, 0x4c, 0x46]);
    var r := LinkableCode.Create(Cubin, Stream(stream), PyStr("k.cubin"), nrt := true);
    assert r.Success?;
    var code := r.value;
    assert code.Name() == PyStr("k.cubin") && code.nrt;
    var first := code.Data();
    assert first == Bytes([0x7f, 0x45, 0x4c, 0x46]);
    var _ := stream.Seek(2);
    assert code.Data() == first;
    var w := stream.Write(Bytes([0]));
    assert w == Success(1);
    assert code.Data() == Bytes([0x7f, 0x45, 0, 0x46]) != first;
    var _ := stream.Seek(10);
    w := stream.Write(Bytes([]));
    assert w == Success(0) && code.Data() == Bytes([0x7f, 0x45, 0, 0x46]);
  }

  /** An integer setup callback is refused before anything is stored. */
  method CuSourceWithIntegerCallback()
  {
    var r := LinkableCode.Create(CUSource, Fixed(Text("")), setupCallback := PyInt(42));
    assert r == Failure(TypeError("setup_callback must be callable"));
  }

  /** When both callbacks are bad, the setup callback's error is the one raised. */
  method BothCallbacksRefused()
  {
    var r := LinkableCode.Create(Object, Fixed(Bytes([])), PyNone, PyStr("setup"), PyBool(true));
    assert r == Failure(TypeError("setup_callback must be callable"));
    r := LinkableCode.Create(Object, Fixed(Bytes([])), PyNone, PyFunction(1), PyBool(true));
    assert r == Failure(TypeError("teardown_callback must be callable"));
  }

  /** False values skip the check and are stored as given; an empty name falls back. */
  method FalseCallbacksKept()
  {
    var r := LinkableCode.Create(LTOIR, Fixed(Bytes([1])), PyStr(""), PyInt(0), PyStr(""));
    assert r.Success?;
    var code := r.value;
    assert code.setupCallback == PyInt(0) && code.teardownCallback == PyStr("");
    assert code.Name() == PyStr("<unnamed-ltoir>");
  }
}
