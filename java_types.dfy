/** Java's fixed-width integers, its narrowing casts, and the boxed values that
    the realtime maps and payloads may hold. */
module JavaTypes {

  /** Java `int`. */
  type Int32 = x: int | -0x8000_0000 <= x < 0x8000_0000

  /** Java `long`. */
  type Int64 = x: int | -0x8000_0000_0000_0000 <= x < 0x8000_0000_0000_0000

  /** Java's `(int)` cast of a `long`: keeps the low 32 bits as a two's-complement value. */
  function ToInt(x: int): (r: Int32)
    ensures -0x8000_0000 <= x < 0x8000_0000 ==> r == x
    ensures (x - r) % 0x1_0000_0000 == 0
  {
    var m := x % 0x1_0000_0000;
    if m < 0x8000_0000 then m else m - 0x1_0000_0000
  }

  /** Java's `(byte)` cast of an `int`: keeps the low 8 bits as a two's-complement value. */
  function ToByte(x: int): (r: int)
    ensures -128 <= r < 128
    ensures -128 <= x < 128 ==> r == x
    ensures (x - r) % 256 == 0
  {
    var m := x % 256;
    if m < 128 then m else m - 256
  }

  /** The boxed Java objects that can reach a realtime map or a message payload.
      `Double` values matter only through their fixed size, so a `real` stands for them;
      `ByteArray` is a `byte[]`, `ByteBuffer` a `java.nio.ByteBuffer`; any other class
      is `Unsupported`. Java's `null` is not a `Value`: it is `None` in an `Option`. */
  datatype Value =
    | Integer(i: Int32)
    | Long(l: Int64)
    | Double(d: real)
    | Boolean(b: bool)
    | String(s: string)
    | ByteArray(bytes: seq<bv8>)
    | ByteBuffer(buffer: seq<bv8>)
    | Unsupported(className: string)
}
