/**
 * Reading one event header from the device (drm/event.go).
 *
 * The blocking read itself is the kernel's business; ReadEvent here is the
 * pure part of Card.ReadEvent: given what the read produced, it returns the
 * read's error, ErrNotEnough, or the little-endian header from the start of
 * the buffer.
 */
module DrmEvent {
  import opened Base

  /** Event types. */
  const EventVBlank: uint32 := 0x1
  const EventPageFlip: uint32 := 0x2
  const EventCrtcSequence: uint32 := 0x3

  /** Size of the buffer handed to the read call. */
  const ReadBufferSize: nat := 1024

  /** Size of the event header: two 32-bit fields. */
  const HeaderSize: nat := 8

  /** The fixed header every event starts with. */
  datatype EventHeader = EventHeader(typ: uint32, len: uint32)

  /**
   * The outcome of the read call: its error, or the count n it returned and
   * the whole buffer, of which the kernel filled the first n bytes.
   */
  datatype ReadOutcome = ReadFailed(errno: nat) | ReadDone(n: nat, buf: seq<byte>)

  /** What the read call guarantees: a full buffer and a count that fits it. */
  predicate WellFormed(r: ReadOutcome) {
    r.ReadDone? ==> |r.buf| == ReadBufferSize && r.n <= |r.buf|
  }

  /** The wire form of a header: type, then length, both little-endian. */
  function EncodeHeader(h: EventHeader): (b: seq<byte>)
    ensures |b| == HeaderSize
  {
    LeBytes(h.typ) + LeBytes(h.len)
  }

  /** binary.Read of a header from the front of a byte sequence. */
  function DecodeHeader(b: seq<byte>): (h: EventHeader)
    requires |b| >= HeaderSize
    ensures EncodeHeader(h) == b[..HeaderSize]
  {
    LeBytesOfLeUint32(b[0..4]);
    LeBytesOfLeUint32(b[4..8]);
    EventHeader(LeUint32(b[0..4]), LeUint32(b[4..8]))
  }

  /**
   * Card.ReadEvent after the read. A read error comes back verbatim; a read
   * of 0 bytes, or of fewer bytes than the header, is ErrNotEnough; otherwise
   * the header is decoded from the first n bytes. (binary.Read cannot fail
   * once n >= 8, so its error branch is unreachable and not modelled.)
   */
  function ReadEvent(r: ReadOutcome): (res: Result<EventHeader>)
    requires WellFormed(r)
    ensures r.ReadFailed? ==> res == Err(Errno(r.errno))
    ensures r.ReadDone? ==> (res.Ok? <==> r.n >= HeaderSize)
    ensures r.ReadDone? && r.n < HeaderSize ==> res == Err(NotEnough)
    ensures res.Ok? ==> r.ReadDone? && EncodeHeader(res.value) == r.buf[..HeaderSize]
  {
    match r
    case ReadFailed(e) => Err(Errno(e))
    case ReadDone(n, buf) =>
      if n == 0 then
        Err(NotEnough)
      else if n < HeaderSize then
        Err(NotEnough)
      else
        Ok(DecodeHeader(buf[..n]))
  }

  /** Decoding inverts encoding, whatever follows the header. */
  lemma DecodeEncodeHeader(h: EventHeader, rest: seq<byte>)
    ensures DecodeHeader(EncodeHeader(h) + rest) == h
  {
    var b := EncodeHeader(h) + rest;
    assert b[0..4] == LeBytes(h.typ);
    assert b[4..8] == LeBytes(h.len);
    LeUint32OfLeBytes(h.typ);
    LeUint32OfLeBytes(h.len);
  }

  /**
   * A read that delivered an encoded header (and possibly more) yields exactly
   * that header, whatever its type and length values are.
   */
  lemma ReadEventOfEncoded(h: EventHeader, n: nat, buf: seq<byte>)
    requires |buf| == ReadBufferSize && HeaderSize <= n <= |buf|
    requires buf[..HeaderSize] == EncodeHeader(h)
    ensures ReadEvent(ReadDone(n, buf)) == Ok(h)
  {
    assert buf[..n] == EncodeHeader(h) + buf[HeaderSize..n];
    DecodeEncodeHeader(h, buf[HeaderSize..n]);
  }

  /** Only the first n bytes of the buffer are looked at. */
  lemma ReadEventReadsOnlyFilled(n: nat, buf: seq<byte>, buf': seq<byte>)
    requires |buf| == |buf'| == ReadBufferSize && n <= ReadBufferSize
    requires buf[..n] == buf'[..n]
    ensures ReadEvent(ReadDone(n, buf)) == ReadEvent(ReadDone(n, buf'))
  {
    if n >= HeaderSize {
      assert buf[..n][0..4] == buf'[..n][0..4];
      assert buf[..n][4..8] == buf'[..n][4..8];
    }
  }
}
