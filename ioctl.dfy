/**
 * The device-control command word (drm/ioctl/ioctl.go).
 *
 * A command packs a direction (bits 31..30), a payload size (bits 29..16),
 * a subsystem magic byte (bits 15..8) and an opcode (bits 7..0) into one
 * 32-bit word. NewCmd is modelled with its guards exactly as written; the
 * decoders Dir, Size, Magic and Opcode are the kernel's view of the same
 * layout and serve as NewCmd's inverse.
 */
module Ioctl {

  /** Direction flags. */
  const None: bv8 := 0x0
  const Write: bv8 := 0x1
  const Read: bv8 := 0x2

  /** Why NewCmd panics. */
  datatype Panic = InvalidDirection(typ: bv8) | InvalidSize(sz: bv16)

  /** A command word, or the panic that construction raises instead. */
  datatype CmdResult = Word(cmd: bv32) | Panicked(reason: Panic)

  /**
   * NewCmd(typ, sz, uniq, fn). The direction is checked first, then the size;
   * the size bound is `2<<14` (32768) as written, although the field that
   * holds the size is only 14 bits wide.
   */
  function NewCmd(typ: bv8, sz: bv16, uniq: bv8, fn: bv8): (r: CmdResult)
    ensures r.Panicked? <==> typ > Write | Read || sz > 2 << 14
    ensures typ > Write | Read ==> r.Panicked? && r.reason == InvalidDirection(typ)
    ensures typ <= Write | Read && sz > 2 << 14 ==> r.Panicked? && r.reason == InvalidSize(sz)
  {
    if typ > Write | Read then
      Panicked(InvalidDirection(typ))
    else if sz > 2 << 14 then
      Panicked(InvalidSize(sz))
    else
      Word((typ as bv32 << 30) | (sz as bv32 << 16) | (uniq as bv32 << 8) | fn as bv32)
  }

  /** The direction field, 2 bits wide. */
  function Dir(cmd: bv32): bv8 {
    (cmd >> 30) as bv8
  }

  /** The size field, 14 bits wide. */
  function Size(cmd: bv32): bv16 {
    ((cmd >> 16) & 0x3FFF) as bv16
  }

  /** The magic (subsystem) byte. */
  function Magic(cmd: bv32): bv8 {
    ((cmd >> 8) & 0xFF) as bv8
  }

  /** The opcode byte. */
  function Opcode(cmd: bv32): bv8 {
    (cmd & 0xFF) as bv8
  }

  /** Every accepted input keeps its magic byte and opcode in the low 16 bits. */
  lemma NewCmdLowFields(typ: bv8, sz: bv16, uniq: bv8, fn: bv8)
    requires typ <= Write | Read && sz <= 2 << 14
    ensures NewCmd(typ, sz, uniq, fn).Word?
    ensures Magic(NewCmd(typ, sz, uniq, fn).cmd) == uniq
    ensures Opcode(NewCmd(typ, sz, uniq, fn).cmd) == fn
  {
    var w := (typ as bv32 << 30) | (sz as bv32 << 16) | (uniq as bv32 << 8) | fn as bv32;
    assert (typ as bv32 << 30) & 0xFFFF == 0;
    assert (sz as bv32 << 16) & 0xFFFF == 0;
    assert w & 0xFF == fn as bv32;
    assert (w >> 8) & 0xFF == uniq as bv32;
  }

  /** Where the four fields of a word land, stated on 32-bit operands. */
  lemma FieldBits(t: bv32, z: bv32, u: bv32, f: bv32)
    requires t < 4 && z < 0x4000 && u < 0x100 && f < 0x100
    ensures ((t << 30) | (z << 16) | (u << 8) | f) >> 30 == t
    ensures (((t << 30) | (z << 16) | (u << 8) | f) >> 16) & 0x3FFF == z
  {
  }

  /** The direction and size fields of an accepted word with a size below 2^14. */
  lemma NewCmdHighFields(typ: bv8, sz: bv16, uniq: bv8, fn: bv8)
    requires typ <= Write | Read && sz < 1 << 14
    ensures NewCmd(typ, sz, uniq, fn).Word?
    ensures Dir(NewCmd(typ, sz, uniq, fn).cmd) == typ
    ensures Size(NewCmd(typ, sz, uniq, fn).cmd) == sz
  {
    FieldBits(typ as bv32, sz as bv32, uniq as bv32, fn as bv32);
  }

  /** For sizes that fit the 14-bit field, all four fields are recovered. */
  lemma NewCmdRoundTrip(typ: bv8, sz: bv16, uniq: bv8, fn: bv8)
    requires typ <= Write | Read && sz < 1 << 14
    ensures NewCmd(typ, sz, uniq, fn).Word?
    ensures var cmd := NewCmd(typ, sz, uniq, fn).cmd;
      Dir(cmd) == typ && Size(cmd) == sz && Magic(cmd) == uniq && Opcode(cmd) == fn
  {
    NewCmdHighFields(typ, sz, uniq, fn);
    NewCmdLowFields(typ, sz, uniq, fn);
  }

  /** Distinct valid inputs (sizes below 2^14) give distinct command words. */
  lemma NewCmdInjective(typ: bv8, sz: bv16, uniq: bv8, fn: bv8,
                        typ': bv8, sz': bv16, uniq': bv8, fn': bv8)
    requires typ <= Write | Read && sz < 1 << 14
    requires typ' <= Write | Read && sz' < 1 << 14
    requires NewCmd(typ, sz, uniq, fn) == NewCmd(typ', sz', uniq', fn')
    ensures typ == typ' && sz == sz' && uniq == uniq' && fn == fn'
  {
    NewCmdRoundTrip(typ, sz, uniq, fn);
    NewCmdRoundTrip(typ', sz', uniq', fn');
  }

  /** With no direction, size or magic, the command word is the opcode itself. */
  lemma NewCmdZeroIsOpcode(fn: bv8)
    ensures NewCmd(None, 0, 0, fn) == Word(fn as bv32)
  {
  }

  /**
   * The size guard as written lets through sizes that overflow the 14-bit
   * field into the direction bits: a request with no direction and size
   * 0x4000 encodes to the same word as a "write" request of size 0.
   */
  lemma OversizeCorruptsDirection()
    ensures NewCmd(None, 0x4000, 0, 0) == NewCmd(Write, 0, 0, 0) == Word(0x4000_0000)
    ensures Dir(NewCmd(None, 0x4000, 0, 0).cmd) == Write
    ensures Size(NewCmd(None, 0x4000, 0, 0).cmd) == 0
  {
  }

  /**
   * NewCmd with the size bound the 14-bit field needs (sizes of at most 0x3FFF).
   */
  function NewCmdChecked(typ: bv8, sz: bv16, uniq: bv8, fn: bv8): (r: CmdResult)
    ensures r.Panicked? <==> typ > Write | Read || sz >= 1 << 14
    ensures r.Word? ==> Dir(r.cmd) == typ && Size(r.cmd) == sz && Magic(r.cmd) == uniq && Opcode(r.cmd) == fn
    ensures r.Word? ==> NewCmd(typ, sz, uniq, fn) == r
  {
    if typ > Write | Read then
      Panicked(InvalidDirection(typ))
    else if sz >= 1 << 14 then
      Panicked(InvalidSize(sz))
    else
      NewCmdRoundTrip(typ, sz, uniq, fn);
      NewCmd(typ, sz, uniq, fn)
  }

  /** The corrected encoder is injective on everything it accepts. */
  lemma NewCmdCheckedInjective(typ: bv8, sz: bv16, uniq: bv8, fn: bv8,
                               typ': bv8, sz': bv16, uniq': bv8, fn': bv8)
    requires NewCmdChecked(typ, sz, uniq, fn).Word?
    requires NewCmdChecked(typ, sz, uniq, fn) == NewCmdChecked(typ', sz', uniq', fn')
    ensures typ == typ' && sz == sz' && uniq == uniq' && fn == fn'
  {
  }
}
