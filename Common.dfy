/** Shared vocabulary: optional values, results, the fixed-width integer
    types of the Go and C sources, Go's integer conversions, and the
    byte order used for every value shared with the kernel. */
module Common {

  datatype Option<+T> = None | Some(value: T)

  datatype Result<+T, +E> = Ok(value: T) | Err(error: E)

  type byte = x: int | 0 <= x < 0x100
  type uint16 = x: int | 0 <= x < 0x1_0000
  type uint32 = x: int | 0 <= x < 0x1_0000_0000
  type int32 = x: int | -0x8000_0000 <= x < 0x8000_0000
  type uint64 = x: int | 0 <= x < 0x1_0000_0000_0000_0000
  type int64 = x: int | -0x8000_0000_0000_0000 <= x < 0x8000_0000_0000_0000

  /** Go's `uint32(x)` for any integer x: keeps the low 32 bits. */
  function ToUint32(x: int): (r: uint32)
    ensures (r - x) % 0x1_0000_0000 == 0
    ensures 0 <= x < 0x1_0000_0000 ==> r == x
  {
    x % 0x1_0000_0000
  }

  /** Go's `int32(x)`: keeps the low 32 bits, read as two's complement. */
  function ToInt32(x: int): (r: int32)
    ensures (r - x) % 0x1_0000_0000 == 0
    ensures -0x8000_0000 <= x < 0x8000_0000 ==> r == x
  {
    var u := x % 0x1_0000_0000;
    if u < 0x8000_0000 then u else u - 0x1_0000_0000
  }

  /** Go's `int64(x)` (and the wrap-around of int64 arithmetic). */
  function ToInt64(x: int): (r: int64)
    ensures (r - x) % 0x1_0000_0000_0000_0000 == 0
    ensures -0x8000_0000_0000_0000 <= x < 0x8000_0000_0000_0000 ==> r == x
  {
    var u := x % 0x1_0000_0000_0000_0000;
    if u < 0x8000_0000_0000_0000 then u else u - 0x1_0000_0000_0000_0000
  }

  // The tracer's byte order is a process-wide constant; this model fixes it
  // as little-endian, the order of the platforms the agent runs on.

  /** `ByteOrder.Uint32(b)`: the first four bytes, least significant first. */
  function Uint32LE(b: seq<byte>): uint32
    requires |b| >= 4
  {
    b[0] as int + 0x100 * (b[1] as int) + 0x1_0000 * (b[2] as int) + 0x100_0000 * (b[3] as int)
  }

  /** `ByteOrder.PutUint32` into a fresh 4-byte buffer. */
  function PutUint32LE(x: uint32): (r: seq<byte>)
    ensures |r| == 4
  {
    [x % 0x100, (x / 0x100) % 0x100, (x / 0x1_0000) % 0x100, x / 0x100_0000]
  }

  /** `ByteOrder.Uint64(b)`: two 32-bit halves, low half first. */
  function Uint64LE(b: seq<byte>): uint64
    requires |b| >= 8
  {
    Uint32LE(b[..4]) + 0x1_0000_0000 * Uint32LE(b[4..8])
  }

  /** `ByteOrder.PutUint64` into a fresh 8-byte buffer. */
  function PutUint64LE(x: uint64): (r: seq<byte>)
    ensures |r| == 8
  {
    PutUint32LE(x % 0x1_0000_0000) + PutUint32LE(x / 0x1_0000_0000)
  }

  lemma Uint32RoundTrip(x: uint32)
    ensures Uint32LE(PutUint32LE(x)) == x
  {
    var b := PutUint32LE(x);
    var q1, q2, q3 := x / 0x100, x / 0x1_0000, x / 0x100_0000;
    assert q1 == 0x100 * (q1 / 0x100) + q1 % 0x100;
    assert q2 == q1 / 0x100;
    assert q2 == 0x100 * (q2 / 0x100) + q2 % 0x100;
    assert q3 == q2 / 0x100;
  }

  /** Encoding a decoded value gives back the bytes it was read from. */
  lemma Uint32Bytes(b: seq<byte>)
    requires |b| >= 4
    ensures PutUint32LE(Uint32LE(b)) == b[..4]
  {
    var x := Uint32LE(b);
    assert x / 0x100 == b[1] as int + 0x100 * (b[2] as int) + 0x1_0000 * (b[3] as int);
    assert x / 0x1_0000 == b[2] as int + 0x100 * (b[3] as int);
    assert x / 0x100_0000 == b[3] as int;
  }

  lemma Uint64RoundTrip(x: uint64)
    ensures Uint64LE(PutUint64LE(x)) == x
  {
    var b := PutUint64LE(x);
    assert b[..4] == PutUint32LE(x % 0x1_0000_0000);
    assert b[4..8] == PutUint32LE(x / 0x1_0000_0000);
    Uint32RoundTrip(x % 0x1_0000_0000);
    Uint32RoundTrip(x / 0x1_0000_0000);
  }

  /** Distinct pids give distinct kernel-table keys. */
  lemma PutUint32Injective(x: uint32, y: uint32)
    ensures PutUint32LE(x) == PutUint32LE(y) ==> x == y
  {
    Uint32RoundTrip(x);
    Uint32RoundTrip(y);
  }

  /** Distinct inodes give distinct kernel-table keys. */
  lemma PutUint64Injective(x: uint64, y: uint64)
    ensures PutUint64LE(x) == PutUint64LE(y) ==> x == y
  {
    Uint64RoundTrip(x);
    Uint64RoundTrip(y);
  }
}
