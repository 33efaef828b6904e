/**
 * Machine integer types, the error values the display stack returns, and
 * the little-endian byte encoding the kernel's binary interface uses.
 */
module Base {

  type uint8 = x: int | 0 <= x < 0x100
  type uint16 = x: int | 0 <= x < 0x1_0000
  type uint32 = x: int | 0 <= x < 0x1_0000_0000
  type uint64 = x: int | 0 <= x < 0x1_0000_0000_0000_0000
  type byte = uint8

  /** The errors the Go code can return. */
  datatype Error =
    | Errno(code: nat)   // an operating-system error, passed up verbatim
    | NotEnough          // drm.ErrNotEnough: the event read was too short
    | NoMatchingMode     // "no matching mode found" from Modeset.setup

  /** A value or the error that replaced it (Go's `(T, error)` pair). */
  datatype Result<T> = Ok(value: T) | Err(error: Error)

  /** A Go pointer that may be nil. */
  datatype Option<T> = None | Some(value: T)

  /** Go's bare `error` return: nil or an error. */
  datatype Outcome = Pass | Fail(error: Error)

  /**
   * Go's copy(dst, src): the first min(len(dst), len(src)) elements come
   * from src and the rest of dst stays. The kernel fills a caller's array
   * the same way, writing no further than the storage the caller supplied.
   */
  function Copy<T>(dst: seq<T>, src: seq<T>): (r: seq<T>)
    ensures |r| == |dst|
    ensures forall i :: 0 <= i < |r| ==> r[i] == if i < |src| then src[i] else dst[i]
  {
    if |src| >= |dst| then src[..|dst|] else src + dst[|src|..]
  }

  /** Go's conversion `int64(x)` of a uint64: two's-complement wrap-around. */
  function Int64(x: uint64): (r: int)
    ensures -0x8000_0000_0000_0000 <= r < 0x8000_0000_0000_0000
    ensures (r - x) % 0x1_0000_0000_0000_0000 == 0
  {
    if x < 0x8000_0000_0000_0000 then x else x - 0x1_0000_0000_0000_0000
  }

  /** The 32-bit little-endian integer held in four bytes. */
  function LeUint32(b: seq<byte>): (r: uint32)
    requires |b| == 4
  {
    b[0] as int + 0x100 * b[1] as int + 0x1_0000 * b[2] as int + 0x100_0000 * b[3] as int
  }

  /** The four little-endian bytes of a 32-bit integer. */
  function LeBytes(x: uint32): (b: seq<byte>)
    ensures |b| == 4
  {
    [x % 0x100, x / 0x100 % 0x100, x / 0x1_0000 % 0x100, x / 0x100_0000]
  }

  lemma LeUint32OfLeBytes(x: uint32)
    ensures LeUint32(LeBytes(x)) == x
  {
    var q1, q2, q3 := x / 0x100, x / 0x1_0000, x / 0x100_0000;
    assert x == x % 0x100 + 0x100 * q1;
    assert q2 == q1 / 0x100 && q1 == q1 % 0x100 + 0x100 * q2;
    assert q3 == q2 / 0x100 && q2 == q2 % 0x100 + 0x100 * q3;
    assert LeBytes(x) == [x % 0x100, q1 % 0x100, q2 % 0x100, q3];
  }

  lemma LeBytesOfLeUint32(b: seq<byte>)
    requires |b| == 4
    ensures LeBytes(LeUint32(b)) == b
  {
    var x := LeUint32(b);
    var r1, r2 : int := b[1] as int + 0x100 * b[2] as int + 0x1_0000 * b[3] as int, b[2] as int + 0x100 * b[3] as int;
    assert x == b[0] as int + 0x100 * r1 && r1 == b[1] as int + 0x100 * r2;
    assert x / 0x100 == r1 && x % 0x100 == b[0];
    assert x / 0x1_0000 == r1 / 0x100 == r2 && r1 % 0x100 == b[1];
    assert x / 0x100_0000 == r2 / 0x100 == b[3] && r2 % 0x100 == b[2];
  }
}
