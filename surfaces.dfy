/**
 * The double-buffered surface (surface.go).
 *
 * A Surface owns a Modeset and two framebuffers created one after the other;
 * `frontbuffer` is the index of the one on screen and FB(), the other one,
 * is where all drawing goes. Swap flips to the back buffer, waits for the
 * flip to complete and toggles the index. Set, Clear and Rect write into
 * the back buffer's mapped memory in place; the pixel store of Rect is
 * specified by the byte-sequence functions RowPainted and RowsPainted.
 */
module Surfaces {
  import opened Base
  import opened DrmMode
  import opened DrmCard
  import opened Modesetting

  /** What color.Color.RGBA() returns: red, green, blue and alpha, as Go uint32 values. */
  datatype Color = Color(r: bv32, g: bv32, b: bv32, a: bv32)

  /** image.Rectangle: the pixels with minX <= x < maxX and minY <= y < maxY. */
  datatype Rectangle = Rectangle(minX: int, minY: int, maxX: int, maxY: int)

  /** `x ^ 1` on a non-negative int: the lowest bit flipped, the rest kept. */
  function Xor1(x: nat): (r: nat)
    ensures r % 2 != x % 2 && r / 2 == x / 2
  {
    if x % 2 == 0 then x + 1 else x - 1
  }

  /** Toggling twice is the identity. */
  lemma Xor1Involutive(x: nat)
    ensures Xor1(Xor1(x)) == x
  {
  }

  /** A source at least as long as the destination replaces it entirely. */
  lemma CopyWholeFrame(dst: seq<byte>, src: seq<byte>)
    requires |src| >= |dst|
    ensures Copy(dst, src) == src[..|dst|]
  {
  }

  /**
   * The pixel word of Rect: `(r << 16) | (g << 8) | b` in 32-bit unsigned
   * arithmetic, on the channel values RGBA() returned.
   */
  function Pack(c: Color): (w: bv32)
    ensures w & 0xFF == c.b & 0xFF
    ensures c.r < 0x100 && c.g < 0x100 && c.b < 0x100 ==> w < 0x100_0000
  {
    (c.r << 16) | (c.g << 8) | c.b
  }

  /** For 8-bit channels the word's bytes, low to high, are blue, green, red and zero. */
  lemma PackChannels(c: Color)
    requires c.r < 0x100 && c.g < 0x100 && c.b < 0x100
    ensures Pack(c) & 0xFF == c.b && (Pack(c) >> 8) & 0xFF == c.g
    ensures (Pack(c) >> 16) & 0xFF == c.r && Pack(c) >> 24 == 0
  {
  }

  /**
   * RGBA() channels are 16-bit, and with 16-bit channels the 8-bit shifts
   * overlap: full green packs to the same pixel as 8-bit yellow.
   */
  lemma PackSixteenBitGreen()
    ensures Pack(Color(0, 0xFFFF, 0, 0xFFFF)) == Pack(Color(0xFF, 0xFF, 0, 0xFF)) == 0xFF_FF00
  {
  }

  /** The byte offset of pixel (x, y): `int(Stride)*y + x*4`. */
  function Offset(stride: int, x: int, y: int): (o: int)
    ensures 0 <= stride && 0 <= x && 0 <= y ==> 0 <= o
    ensures 0 <= x ==> stride * y <= o
  {
    stride * y + x * 4
  }

  /** The 4-byte word store at offset o, little-endian (the host's byte order is assumed little-endian). */
  function Store(s: seq<byte>, o: int, v: uint32): (r: seq<byte>)
    requires 0 <= o && o + 4 <= |s|
    ensures |r| == |s|
    ensures forall i :: 0 <= i < |s| ==> r[i] == if o <= i < o + 4 then LeBytes(v)[i - o] else s[i]
  {
    s[..o] + LeBytes(v) + s[o + 4..]
  }

  /** Every pixel of row y from x0 up to x1 lies within n bytes. */
  predicate RowFits(n: int, stride: int, y: int, x0: int, x1: int) {
    forall x :: x0 <= x < x1 ==> 0 <= Offset(stride, x, y) && Offset(stride, x, y) + 4 <= n
  }

  /**
   * Every pixel of the rectangle lies within n bytes: what Rect needs of its
   * caller. Go checks the index of `&fb.Buffer[offset]` and panics outside
   * the slice (a panic this model does not include), but the three further
   * bytes of the 4-byte store go through an unsafe pointer and are not
   * checked at all.
   */
  predicate Fits(n: int, stride: int, rect: Rectangle) {
    forall y, x :: rect.minY <= y < rect.maxY && rect.minX <= x < rect.maxX ==>
      0 <= Offset(stride, x, y) && Offset(stride, x, y) + 4 <= n
  }

  /** Each row of a rectangle that fits, fits. */
  lemma FitsRow(n: int, stride: int, rect: Rectangle, y: int)
    requires Fits(n, stride, rect) && rect.minY <= y < rect.maxY
    ensures RowFits(n, stride, y, rect.minX, rect.maxX)
  {
  }

  /** Row y painted from x0 up to x1, one store after the other. */
  function RowPainted(s: seq<byte>, stride: int, y: int, x0: int, x1: int, v: uint32): (r: seq<byte>)
    requires RowFits(|s|, stride, y, x0, x1)
    ensures |r| == |s|
    decreases x1 - x0
  {
    if x0 >= x1 then s else RowPainted(Store(s, Offset(stride, x0, y), v), stride, y, x0 + 1, x1, v)
  }

  /** The rectangle's rows from y up to maxY painted, one row after the other. */
  function RowsPainted(s: seq<byte>, stride: int, rect: Rectangle, y: int, v: uint32): (r: seq<byte>)
    requires Fits(|s|, stride, rect) && rect.minY <= y
    ensures |r| == |s|
    decreases rect.maxY - y
  {
    if y >= rect.maxY then
      s
    else
      assert RowFits(|s|, stride, y, rect.minX, rect.maxX);
      RowsPainted(RowPainted(s, stride, y, rect.minX, rect.maxX, v), stride, rect, y + 1, v)
  }

  /** Byte i lies in the 4-byte cell of pixel (x, y). */
  predicate InCell(i: int, stride: int, x: int, y: int) {
    Offset(stride, x, y) <= i < Offset(stride, x, y) + 4
  }

  /** A byte outside every cell of the row is left as it was. */
  lemma {:induction false} RowPaintedOutside(s: seq<byte>, stride: int, y: int, x0: int, x1: int, v: uint32, i: int)
    requires RowFits(|s|, stride, y, x0, x1) && 0 <= i < |s|
    requires forall x :: x0 <= x < x1 ==> !InCell(i, stride, x, y)
    ensures RowPainted(s, stride, y, x0, x1, v)[i] == s[i]
    decreases x1 - x0
  {
    if x0 < x1 {
      assert !InCell(i, stride, x0, y);
      RowPaintedOutside(Store(s, Offset(stride, x0, y), v), stride, y, x0 + 1, x1, v, i);
    }
  }

  /** A byte outside every cell of the rectangle's rows from y on is left as it was. */
  lemma {:induction false} RowsPaintedOutside(s: seq<byte>, stride: int, rect: Rectangle, y: int, v: uint32, i: int)
    requires Fits(|s|, stride, rect) && rect.minY <= y && 0 <= i < |s|
    requires forall y', x :: y <= y' < rect.maxY && rect.minX <= x < rect.maxX ==> !InCell(i, stride, x, y')
    ensures RowsPainted(s, stride, rect, y, v)[i] == s[i]
    decreases rect.maxY - y
  {
    if y < rect.maxY {
      assert RowFits(|s|, stride, y, rect.minX, rect.maxX);
      RowPaintedOutside(s, stride, y, rect.minX, rect.maxX, v, i);
      RowsPaintedOutside(RowPainted(s, stride, y, rect.minX, rect.maxX, v), stride, rect, y + 1, v, i);
    }
  }

  /** An empty rectangle writes nothing. */
  lemma EmptyRectWritesNothing(s: seq<byte>, stride: int, rect: Rectangle, v: uint32)
    requires Fits(|s|, stride, rect)
    requires rect.minX >= rect.maxX || rect.minY >= rect.maxY
    ensures RowsPainted(s, stride, rect, rect.minY, v) == s
  {
    forall i | 0 <= i < |s|
      ensures RowsPainted(s, stride, rect, rect.minY, v)[i] == s[i]
    {
      RowsPaintedOutside(s, stride, rect, rect.minY, v, i);
    }
  }

  /** The cell at offset o holds the little-endian bytes of v. */
  predicate Holds(s: seq<byte>, o: int, v: uint32) {
    0 <= o && o + 4 <= |s| && s[o..o + 4] == LeBytes(v)
  }

  /** With a stride that is a multiple of 4, every pixel offset is one too. */
  lemma OffsetAligned(stride: int, x: int, y: int)
    requires stride % 4 == 0
    ensures Offset(stride, x, y) % 4 == 0
  {
    var q := stride / 4;
    assert stride == 4 * q;
    assert Offset(stride, x, y) == 4 * (q * y + x);
  }

  /** Storing v at another aligned offset keeps a cell that holds v: the two cells coincide or are apart. */
  lemma StoreKeeps(s: seq<byte>, o: int, o': int, v: uint32)
    requires Holds(s, o, v) && o % 4 == 0
    requires 0 <= o' && o' + 4 <= |s| && o' % 4 == 0
    ensures Holds(Store(s, o', v), o, v)
  {
    var r := Store(s, o', v);
    assert o == o' || o + 4 <= o' || o' + 4 <= o;
    forall j | 0 <= j < 4
      ensures r[o + j] == LeBytes(v)[j]
    {
      assert s[o..o + 4][j] == s[o + j];
    }
  }

  /** Painting a row keeps every aligned cell that already holds v. */
  lemma {:induction false} RowPaintedKeeps(s: seq<byte>, stride: int, y: int, x0: int, x1: int, v: uint32, o: int)
    requires RowFits(|s|, stride, y, x0, x1) && stride % 4 == 0
    requires Holds(s, o, v) && o % 4 == 0
    ensures Holds(RowPainted(s, stride, y, x0, x1, v), o, v)
    decreases x1 - x0
  {
    if x0 < x1 {
      OffsetAligned(stride, x0, y);
      StoreKeeps(s, o, Offset(stride, x0, y), v);
      RowPaintedKeeps(Store(s, Offset(stride, x0, y), v), stride, y, x0 + 1, x1, v, o);
    }
  }

  /** After a row is painted with an aligned stride, every pixel of it holds v. */
  lemma {:induction false} RowPaintedCovers(s: seq<byte>, stride: int, y: int, x0: int, x1: int, v: uint32)
    requires RowFits(|s|, stride, y, x0, x1) && stride % 4 == 0
    ensures forall x :: x0 <= x < x1 ==> Holds(RowPainted(s, stride, y, x0, x1, v), Offset(stride, x, y), v)
    decreases x1 - x0
  {
    if x0 < x1 {
      var o := Offset(stride, x0, y);
      var s' := Store(s, o, v);
      assert s'[o..o + 4] == LeBytes(v);
      OffsetAligned(stride, x0, y);
      RowPaintedKeeps(s', stride, y, x0 + 1, x1, v, o);
      RowPaintedCovers(s', stride, y, x0 + 1, x1, v);
    }
  }

  /** Painting rows keeps every aligned cell that already holds v. */
  lemma {:induction false} RowsPaintedKeeps(s: seq<byte>, stride: int, rect: Rectangle, y: int, v: uint32, o: int)
    requires Fits(|s|, stride, rect) && rect.minY <= y && stride % 4 == 0
    requires Holds(s, o, v) && o % 4 == 0
    ensures Holds(RowsPainted(s, stride, rect, y, v), o, v)
    decreases rect.maxY - y
  {
    if y < rect.maxY {
      assert RowFits(|s|, stride, y, rect.minX, rect.maxX);
      RowPaintedKeeps(s, stride, y, rect.minX, rect.maxX, v, o);
      RowsPaintedKeeps(RowPainted(s, stride, y, rect.minX, rect.maxX, v), stride, rect, y + 1, v, o);
    }
  }

  /**
   * After the rows from y on are painted with an aligned stride, every pixel
   * of them holds v: a read-back of any pixel yields the fill value.
   */
  lemma {:induction false} RowsPaintedCovers(s: seq<byte>, stride: int, rect: Rectangle, y: int, v: uint32)
    requires Fits(|s|, stride, rect) && rect.minY <= y && stride % 4 == 0
    ensures forall y', x :: y <= y' < rect.maxY && rect.minX <= x < rect.maxX ==>
      Holds(RowsPainted(s, stride, rect, y, v), Offset(stride, x, y'), v)
    decreases rect.maxY - y
  {
    if y < rect.maxY {
      FitsRow(|s|, stride, rect, y);
      var s' := RowPainted(s, stride, y, rect.minX, rect.maxX, v);
      var t := RowsPainted(s', stride, rect, y + 1, v);
      assert RowsPainted(s, stride, rect, y, v) == t;
      RowPaintedCovers(s, stride, y, rect.minX, rect.maxX, v);
      RowsPaintedKeepRow(s', stride, rect, y + 1, y, v);
      RowsPaintedCovers(s', stride, rect, y + 1, v);
    }
  }

  /** Painting rows keeps a row whose every pixel already holds v. */
  lemma RowsPaintedKeepRow(s: seq<byte>, stride: int, rect: Rectangle, y: int, row: int, v: uint32)
    requires Fits(|s|, stride, rect) && rect.minY <= y && stride % 4 == 0
    requires forall x :: rect.minX <= x < rect.maxX ==> Holds(s, Offset(stride, x, row), v)
    ensures forall x :: rect.minX <= x < rect.maxX ==> Holds(RowsPainted(s, stride, rect, y, v), Offset(stride, x, row), v)
  {
    forall x | rect.minX <= x < rect.maxX
      ensures Holds(RowsPainted(s, stride, rect, y, v), Offset(stride, x, row), v)
    {
      OffsetAligned(stride, x, row);
      RowsPaintedKeeps(s, stride, rect, y, v, Offset(stride, x, row));
    }
  }

  /** The read-back of a cell that holds v is v. */
  lemma ReadBack(s: seq<byte>, o: int, v: uint32)
    requires Holds(s, o, v)
    ensures LeUint32(s[o..o + 4]) == v
  {
    LeUint32OfLeBytes(v);
  }

  /** The loops of Surface.Rect: the rectangle's rows, top to bottom, stored into a in place. */
  method PaintRect(a: array<byte>, stride: uint32, rect: Rectangle, val: uint32)
    requires Fits(a.Length, stride, rect)
    modifies a
    ensures a[..] == RowsPainted(old(a[..]), stride, rect, rect.minY, val)
  {
    var y := rect.minY;
    while y < rect.maxY
      invariant rect.minY <= y
      invariant RowsPainted(a[..], stride, rect, y, val) == RowsPainted(old(a[..]), stride, rect, rect.minY, val)
      decreases rect.maxY - y
    {
      FitsRow(a.Length, stride, rect, y);
      PaintRow(a, stride, y, rect.minX, rect.maxX, val);
      y := y + 1;
    }
  }

  /** The inner loop of Surface.Rect: row y of the rectangle, left to right, stored into a in place. */
  method PaintRow(a: array<byte>, stride: uint32, y: int, x0: int, x1: int, val: uint32)
    requires RowFits(a.Length, stride, y, x0, x1)
    modifies a
    ensures a[..] == RowPainted(old(a[..]), stride, y, x0, x1, val)
  {
    var x := x0;
    while x < x1
      invariant x0 <= x
      invariant RowPainted(a[..], stride, y, x, x1, val) == RowPainted(old(a[..]), stride, y, x0, x1, val)
      decreases x1 - x
    {
      var offset := stride as int * y + x * 4;
      assert offset == Offset(stride, x, y);
      ghost var before := a[..];
      forall j | 0 <= j < 4 {
        a[offset + j] := LeBytes(val)[j];
      }
      assert a[..] == Store(before, offset, val);
      x := x + 1;
    }
  }

  /** What the kernel's answers determine about a new surface: the selection and both framebuffers. */
  datatype SurfaceInfo = SurfaceInfo(sel: Selection, fbs: seq<FramebufferInfo>)

  /**
   * The two CreateFB calls of NewSurface for the selected output; an error
   * of the first ends construction before the second is tried.
   */
  function FramebufferPair(K: Kernel, k: nat, sel: Selection): (s: Step<seq<FramebufferInfo>>)
    ensures var a := CreateFBSpec(K, k, sel.mode, sel.conn, sel.crtc);
      && |a.ops| <= |s.ops| && s.ops[..|a.ops|] == a.ops
      && (a.result.Err? ==> s == Step(Err(a.result.error), a.ops))
    ensures s.result.Ok? ==>
      && |s.ops| == 10 && |s.result.value| == 2
      && forall i :: 0 <= i < 2 ==>
           s.result.value[i].width == sel.mode.hdisplay as uint32
           && s.result.value[i].height == sel.mode.vdisplay as uint32
  {
    var a := CreateFBSpec(K, k, sel.mode, sel.conn, sel.crtc);
    if a.result.Err? then
      Step(Err(a.result.error), a.ops)
    else
      var b := CreateFBSpec(K, k + |a.ops|, sel.mode, sel.conn, sel.crtc);
      if b.result.Err? then
        Step(Err(b.result.error), a.ops + b.ops)
      else
        Step(Ok([a.result.value, b.result.value]), a.ops + b.ops)
  }

  /**
   * NewSurface, given what its setup step starting at call k did: a setup
   * error is returned, otherwise the two framebuffers follow; the first
   * error ends construction and is returned.
   */
  function NewSurfaceSpec(K: Kernel, k: nat, setup: Step<Selection>): (s: Step<SurfaceInfo>)
    ensures |setup.ops| <= |s.ops| && s.ops[..|setup.ops|] == setup.ops
    ensures setup.result.Err? ==> s == Step(Err(setup.result.error), setup.ops)
    ensures s.result.Ok? ==> setup.result.Ok? && s.result.value.sel == setup.result.value && |s.result.value.fbs| == 2
  {
    if setup.result.Err? then
      Step(Err(setup.result.error), setup.ops)
    else
      var p := FramebufferPair(K, k + |setup.ops|, setup.result.value);
      Step(if p.result.Err? then Err(p.result.error) else Ok(SurfaceInfo(setup.result.value, p.result.value)),
           setup.ops + p.ops)
  }

  /** NewSurfaceSpec after a successful setup, in terms of the framebuffer pair that follows it. */
  lemma NewSurfaceSpecAfterSetup(K: Kernel, k: nat, setup: Step<Selection>)
    requires setup.result.Ok?
    ensures var p := FramebufferPair(K, k + |setup.ops|, setup.result.value);
      && NewSurfaceSpec(K, k, setup).ops == setup.ops + p.ops
      && NewSurfaceSpec(K, k, setup).result == if p.result.Err? then Err(p.result.error) else Ok(SurfaceInfo(setup.result.value, p.result.value))
  {
  }

  class Surface {
    const modeset: Modeset
    const fbs: seq<Framebuffer>
    var frontbuffer: nat

    /**
     * Two framebuffers over different memory, and a front index in {0, 1}:
     * then the back index `frontbuffer ^ 1` is also in range and differs from it.
     */
    predicate Valid()
      reads this
      ensures Valid() ==> Xor1(frontbuffer) < |fbs| && Xor1(frontbuffer) != frontbuffer
    {
      |fbs| == 2 && frontbuffer < 2 && fbs[0].buffer != fbs[1].buffer
    }

    constructor (modeset: Modeset, fbs: seq<Framebuffer>)
      requires |fbs| == 2 && fbs[0].buffer != fbs[1].buffer
      ensures this.modeset == modeset && this.fbs == fbs && frontbuffer == 1
      ensures Valid()
    {
      this.modeset := modeset;
      this.fbs := fbs;
      frontbuffer := 1;
    }

    /** The framebuffer on screen: one of the two, over other memory than the back buffer. */
    function Front(): (f: Framebuffer)
      reads this
      requires Valid()
      ensures f in fbs && f.buffer != fbs[Xor1(frontbuffer)].buffer
    {
      fbs[frontbuffer]
    }

    /** Surface.FB: the back buffer, the one of the two that is not on screen. */
    function FB(): (f: Framebuffer)
      reads this
      requires Valid()
      ensures f == fbs[1 - frontbuffer] && f.buffer != Front().buffer
    {
      fbs[Xor1(frontbuffer)]
    }

    /** Surface.Set: copy buf into the back buffer; the front buffer is untouched. */
    method Set(buf: seq<byte>)
      requires Valid()
      modifies FB().buffer
      ensures FB().buffer[..] == Copy(old(FB().buffer[..]), buf)
      ensures Front().buffer[..] == old(Front().buffer[..])
    {
      var fb := FB();
      var n := if |buf| < fb.buffer.Length then |buf| else fb.buffer.Length;
      forall i | 0 <= i < n {
        fb.buffer[i] := buf[i];
      }
    }

    /** Surface.Clear: zero the whole back buffer. The colour is not used. */
    method Clear(col: Color)
      requires Valid()
      modifies FB().buffer
      ensures FB().buffer[..] == Filled(FB().buffer.Length, 0)
      ensures Front().buffer[..] == old(Front().buffer[..])
    {
      var zeros := Filled(FB().buffer.Length, 0);
      Set(zeros);
      CopyWholeFrame(old(FB().buffer[..]), zeros);
    }

    /**
     * Surface.Rect: store the packed colour at every pixel of the rectangle,
     * row by row and left to right, in the back buffer.
     */
    method Rect(rect: Rectangle, col: Color)
      requires Valid() && Fits(FB().buffer.Length, FB().stride, rect)
      modifies FB().buffer
      ensures FB().buffer[..] == RowsPainted(old(FB().buffer[..]), FB().stride, rect, rect.minY, Pack(col) as uint32)
      ensures Front().buffer[..] == old(Front().buffer[..])
    {
      var fb := FB();
      PaintRect(fb.buffer, fb.stride, rect, Pack(col) as uint32);
    }

    /**
     * Surface.Swap: flip to the back buffer and wait; on success the two
     * buffers change roles, on failure nothing but the requests changes.
     */
    method Swap() returns (r: Outcome)
      requires Valid()
      modifies this, modeset.card
      ensures Valid()
      ensures var t := WaitFlipSpec(modeset.card.kernel, |old(modeset.card.trace)|, modeset.crtc, old(FB()).id);
        modeset.card.trace == old(modeset.card.trace) + t.ops && r == t.outcome
      ensures r.Pass? ==> frontbuffer == Xor1(old(frontbuffer)) && FB() == old(Front()) && Front() == old(FB())
      ensures r.Fail? ==> frontbuffer == old(frontbuffer)
    {
      r := modeset.WaitFlip(fbs[Xor1(frontbuffer)].id);
      if r.Fail? {
        return;
      }
      frontbuffer := Xor1(frontbuffer);
    }

    /** Surface.Close: DestroyFB on the first framebuffer, then on the second, up to the first error. */
    method Close() returns (r: Outcome)
      requires Valid()
      modifies modeset.card
      ensures var t := Sequence(modeset.card.kernel, |old(modeset.card.trace)|, DestroyFBPlan(fbs[0]) + DestroyFBPlan(fbs[1]));
        modeset.card.trace == old(modeset.card.trace) + t.ops && r == t.outcome
    {
      SequenceAppend(modeset.card.kernel, |modeset.card.trace|, DestroyFBPlan(fbs[0]), DestroyFBPlan(fbs[1]));
      r := modeset.DestroyFB(fbs[0]);
      if r.Fail? {
        return;
      }
      r := modeset.DestroyFB(fbs[1]);
    }
  }

  /**
   * NewSurface, given the opened card: a Modeset, then two framebuffers;
   * the first framebuffer starts as the back buffer.
   */
  method NewSurface(card: Card) returns (r: Result<Surface>)
    modifies card
    ensures var s := NewSurfaceSpec(card.kernel, |old(card.trace)|, SetupSpec(card.kernel, |old(card.trace)|));
      && card.trace == old(card.trace) + s.ops
      && (r.Ok? <==> s.result.Ok?)
      && (r.Err? ==> r.error == s.result.error)
      && (r.Ok? ==>
            && fresh(r.value) && r.value.Valid() && r.value.frontbuffer == 1
            && r.value.FB() == r.value.fbs[0]
            && r.value.modeset.card == card
            && r.value.modeset.mode.Some?
            && Selection(r.value.modeset.conn, r.value.modeset.crtc, r.value.modeset.mode.value) == s.result.value.sel
            && InfoOf(r.value.fbs[0]) == s.result.value.fbs[0]
            && InfoOf(r.value.fbs[1]) == s.result.value.fbs[1])
  {
    ghost var K, k := card.kernel, |card.trace|;
    var m := NewModeset(card);
    if m.Err? {
      return Err(m.error);
    }
    ghost var setup := SetupSpec(K, k);
    ghost var sel := setup.result.value;
    assert Selection(m.value.conn, m.value.crtc, m.value.mode.value) == sel;
    ghost var middle := card.trace;
    assert |middle| == k + |setup.ops|;
    ghost var p := FramebufferPair(K, |middle|, sel);
    ghost var s := NewSurfaceSpec(K, k, setup);
    NewSurfaceSpecAfterSetup(K, k, setup);
    var fbs := CreateBuffers(m.value);
    assert card.trace == middle + p.ops;
    Concat3(old(card.trace), setup.ops, p.ops);
    if fbs.Err? {
      return Err(fbs.error);
    }
    var surface := new Surface(m.value, fbs.value);
    return Ok(surface);
  }

  /** The two CreateFB calls of NewSurface; the second buffer's memory is not the first's. */
  method CreateBuffers(modeset: Modeset) returns (r: Result<seq<Framebuffer>>)
    requires modeset.mode.Some?
    modifies modeset.card
    ensures var s := FramebufferPair(modeset.card.kernel, |old(modeset.card.trace)|,
                                     Selection(modeset.conn, modeset.crtc, modeset.mode.value));
      && modeset.card.trace == old(modeset.card.trace) + s.ops
      && (r.Ok? <==> s.result.Ok?)
      && (r.Err? ==> r.error == s.result.error)
      && (r.Ok? ==> && |r.value| == 2 && r.value[0].buffer != r.value[1].buffer
                    && fresh(r.value[0].buffer) && fresh(r.value[1].buffer)
                    && InfoOf(r.value[0]) == s.result.value[0] && InfoOf(r.value[1]) == s.result.value[1])
  {
    var f0 := modeset.CreateFB();
    if f0.Err? {
      return Err(f0.error);
    }
    ghost var first := modeset.card.trace;
    var f1 := modeset.CreateFB();
    Concat3(old(modeset.card.trace), first[|old(modeset.card.trace)|..], modeset.card.trace[|first|..]);
    if f1.Err? {
      return Err(f1.error);
    }
    return Ok([f0.value, f1.value]);
  }
}
