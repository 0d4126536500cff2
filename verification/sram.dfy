/** bn_hw_sram.bn_ewram.cpp: the byte loops that read and write the
    cartridge SRAM. A pointer and a size become an array holding at least
    `size` bytes; source and destination are distinct buffers. */
module Sram {

  /** uint8_t */
  newtype Byte = x: int | 0 <= x < 0x100

  /** The buffer after copying the first `size` bytes of `source` over
      `destination`; a size of zero or less copies nothing. */
  function Copied(destination: seq<Byte>, source: seq<Byte>, size: int): (r: seq<Byte>)
    requires size <= |source| && size <= |destination|
    ensures |r| == |destination|
    ensures forall i | 0 <= i < |r| :: r[i] == if i < size then source[i] else destination[i]
  {
    if size <= 0 then destination else source[..size] + destination[size..]
  }

  /** The buffer after writing `value` over its first `size` bytes. */
  function Filled(destination: seq<Byte>, value: Byte, size: int): (r: seq<Byte>)
    requires size <= |destination|
    ensures |r| == |destination|
    ensures forall i | 0 <= i < |r| :: r[i] == if i < size then value else destination[i]
  {
    if size <= 0 then destination else seq(size, _ => value) + destination[size..]
  }

  /** Copying twice is copying once. */
  lemma {:induction false} CopiedIdempotent(destination: seq<Byte>, source: seq<Byte>, size: int)
    requires size <= |source| && size <= |destination|
    ensures Copied(Copied(destination, source, size), source, size) == Copied(destination, source, size)
  {
    var once := Copied(destination, source, size);
    var twice := Copied(once, source, size);
    assert forall i | 0 <= i < |twice| :: twice[i] == once[i];
  }

  /** A copy of the whole source makes the destination's prefix equal to the
      source, whatever it held before. */
  lemma {:induction false} CopiedPrefix(destination: seq<Byte>, source: seq<Byte>)
    requires |source| <= |destination|
    ensures Copied(destination, source, |source|)[..|source|] == source
  {
    var r := Copied(destination, source, |source|);
    assert forall i | 0 <= i < |source| :: r[..|source|][i] == source[i];
  }

  /** A fill of the whole buffer leaves nothing of its previous content. */
  lemma {:induction false} FilledWhole(destination: seq<Byte>, value: Byte)
    ensures Filled(destination, value, |destination|) == seq(|destination|, _ => value)
  {
    var r := Filled(destination, value, |destination|);
    assert forall i | 0 <= i < |r| :: r[i] == value;
  }

  /** _copy */
  method Copy(source: array<Byte>, size: int, destination: array<Byte>)
    requires source != destination
    requires size <= source.Length && size <= destination.Length
    modifies destination
    ensures destination[..] == Copied(old(destination[..]), source[..], size)
    ensures source[..] == old(source[..])
  {
    var index := 0;
    while index < size
      invariant 0 <= index <= if size < 0 then 0 else size
      invariant forall i | 0 <= i < index :: destination[i] == source[i]
      invariant forall i | index <= i < destination.Length :: destination[i] == old(destination[i])
    {
      destination[index] := source[index];
      index := index + 1;
    }
  }

  /** _fill */
  method Fill(value: Byte, size: int, destination: array<Byte>)
    requires size <= destination.Length
    modifies destination
    ensures destination[..] == Filled(old(destination[..]), value, size)
  {
    var index := 0;
    while index < size
      invariant 0 <= index <= if size < 0 then 0 else size
      invariant forall i | 0 <= i < index :: destination[i] == value
      invariant forall i | index <= i < destination.Length :: destination[i] == old(destination[i])
    {
      destination[index] := value;
      index := index + 1;
    }
  }
}
