/**
  In-memory text and byte streams (`io.StringIO`, `io.BytesIO`): the payload
  kind whose current contents a linkable-code object reads on every access.
  Only what that reading depends on is modelled: the buffer, the stream
  position, `getvalue`, `seek` and `write`.
 */
module MemoryIO {
  import opened Wrappers

  newtype byte = x: int | 0 <= x < 256

  /** The contents of a buffer: text (`str`) or bytes (`bytes`). */
  datatype Buffer = Text(chars: string) | Bytes(octets: seq<byte>)
  {
    /** Number of characters or bytes held. */
    function Length(): nat
    {
      match this
      case Text(c) => |c|
      case Bytes(o) => |o|
    }
  }

  /**
    The buffer after writing `w` at offset `at`: a gap between the old end
    and `at` is filled with `fill`, the written span replaces what was
    there, and everything outside it is kept.
   */
  function Overwrite<T>(s: seq<T>, at: nat, w: seq<T>, fill: T): (r: seq<T>)
    ensures |r| == if at + |w| <= |s| then |s| else at + |w|
    ensures forall i :: 0 <= i < |w| ==> r[at + i] == w[i]
    ensures forall i :: 0 <= i < |r| && (i < at || at + |w| <= i) ==>
              r[i] == if i < |s| then s[i] else fill
  {
    var padded := if at <= |s| then s else s + seq(at - |s|, _ => fill);
    padded[..at] + w + (if at + |w| <= |padded| then padded[at + |w|..] else [])
  }

  /** An `io.StringIO` (textual) or `io.BytesIO` (not textual) object. */
  class MemoryStream {
    const textual: bool
    var contents: Buffer
    var position: nat

    /** A text stream holds text and a byte stream holds bytes. */
    ghost predicate Valid()
      reads this`contents
    {
      contents.Text? == textual
    }

    /** `io.StringIO(initial)`: positioned at the start. */
    constructor StringIO(initial: string)
      ensures Valid() && textual
      ensures contents == Text(initial) && position == 0
    {
      textual := true;
      contents := Text(initial);
      position := 0;
    }

    /** `io.BytesIO(initial)`: positioned at the start. */
    constructor BytesIO(initial: seq<byte>)
      ensures Valid() && !textual
      ensures contents == Bytes(initial) && position == 0
    {
      textual := false;
      contents := Bytes(initial);
      position := 0;
    }

    /** `getvalue()`: the entire contents, wherever the position is. */
    function GetValue(): (v: Buffer)
      reads this`contents
      ensures Valid() ==> v.Text? == textual
    {
      contents
    }

    /** `seek(p)`: moves the position and leaves the contents alone. */
    method Seek(p: nat) returns (newPosition: nat)
      modifies this`position
      ensures position == p && newPosition == p
    {
      position := p;
      newPosition := p;
    }

    /**
      `write(b)`: writes at the current position and advances past the
      written data; an empty write returns 0 and changes nothing, even
      past the end; writing bytes to a text stream, or text to a byte
      stream, raises `TypeError` and changes nothing.
     */
    method Write(b: Buffer) returns (r: Result<nat, string>)
      requires Valid()
      modifies this`contents, this`position
      ensures Valid()
      ensures r.Failure? <==> b.Text? != textual
      ensures r.Failure? ==> contents == old(contents) && position == old(position)
      ensures r.Success? ==> r.value == b.Length() && position == old(position) + b.Length()
      ensures r.Success? && b.Length() == 0 ==> contents == old(contents)
      ensures r.Success? && b.Length() > 0 ==> contents == match b
                case Text(c) => Text(Overwrite(old(contents).chars, old(position), c, '\0'))
                case Bytes(o) => Bytes(Overwrite(old(contents).octets, old(position), o, 0))
    {
      if b.Text? != textual {
        return Failure(if textual then "string argument expected, got 'bytes'"
                       else "a bytes-like object is required, not 'str'");
      }
      if b.Length() == 0 {
        return Success(0);
      }
      contents := match b
        case Text(c) => Text(Overwrite(contents.chars, position, c, '\0'))
        case Bytes(o) => Bytes(Overwrite(contents.octets, position, o, 0));
      position := position + b.Length();
      r := Success(b.Length());
    }
  }
}
