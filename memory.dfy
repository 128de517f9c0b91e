/** Utils/Memory.swift: the byte alias, the output-buffer growth cap and the buffer reallocation. */
module Memory {

  newtype byte = x: int | 0 <= x < 256

  /** `typealias Bytes = [UInt8]` */
  type Bytes = seq<byte>

  /** `maxBuff`: the largest single growth step of the inflate output buffer. */
  const MaxBuff: nat := 0x10000

  /**
   * `UnsafeMutableBufferPointer.realloc(size:)`: allocate a buffer of `size`
   * elements, copy every old index across, and hand back the new buffer in
   * place of the old one (the caller reassigns). The copy writes every old
   * index into the new buffer, so the new size may not be smaller.
   */
  method Realloc<T(0)>(buffer: array<T>, size: nat) returns (grown: array<T>)
    requires buffer.Length <= size
    ensures fresh(grown)
    ensures grown.Length == size
    ensures grown[..buffer.Length] == buffer[..]
  {
    grown := new T[size];
    for index := 0 to buffer.Length
      invariant forall j :: 0 <= j < index ==> grown[j] == buffer[j]
    {
      grown[index] := buffer[index];
    }
  }
}
