/** Copying a binary string into a byte buffer (src/utils.js, stringToBuffer). */
module StringBuffer {

  /** One element of a Node.js Buffer. */
  newtype Byte = b: int | 0 <= b < 0x100

  /** What `buf[i] = str.charCodeAt(i)` stores: the code unit reduced modulo
      256, as a Buffer element keeps only the low eight bits. */
  function CodeUnitByte(c: char): Byte
  {
    ((c as int) % 0x100) as Byte
  }

  /** A buffer of the string's length whose byte `i` comes from character `i`. */
  method StringToBuffer(str: string) returns (buf: array<Byte>)
    ensures fresh(buf)
    ensures buf.Length == |str|
    ensures forall i :: 0 <= i < |str| ==> buf[i] == CodeUnitByte(str[i])
  {
    var len := |str|;
    buf := new Byte[len];
    for i := 0 to len
      invariant forall j :: 0 <= j < i ==> buf[j] == CodeUnitByte(str[j])
    {
      buf[i] := CodeUnitByte(str[i]);
    }
  }

  /** A string whose every character fits in one byte, as `atob` produces. */
  predicate IsBinaryString(str: string)
  {
    forall i :: 0 <= i < |str| ==> (str[i] as int) < 0x100
  }

  /** Reading a buffer back one character per byte (the "binary" encoding). */
  function BinaryString(bytes: seq<Byte>): (s: string)
    ensures |s| == |bytes|
  {
    if bytes == [] then "" else [(bytes[0] as int) as char] + BinaryString(bytes[1..])
  }

  /** For a binary string the copy loses nothing: reading the bytes back
      gives the string again. */
  lemma {:induction false} BinaryRoundTrip(str: string, bytes: seq<Byte>)
    requires IsBinaryString(str)
    requires |bytes| == |str|
    requires forall i :: 0 <= i < |str| ==> bytes[i] == CodeUnitByte(str[i])
    ensures BinaryString(bytes) == str
  {
    if str != [] {
      BinaryRoundTrip(str[1..], bytes[1..]);
    }
  }
}
