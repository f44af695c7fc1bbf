/** The packed 2-bit-per-pixel framebuffer of the WASM-4 console and the
    bounds-checked pixel writer `pset` that draws into it.

    The framebuffer is 160 x 160 pixels, four pixels per byte, rows in order,
    and the pixel with the smallest x of a byte in its two lowest bits. The
    draw-colour register is a 16-bit word of which `pset` reads only the low
    nibble: 1..4 select palette entries 0..3, anything else draws nothing. */
module Pixels {

  const WIDTH: int := 160
  const HEIGHT: int := 160
  /** 160 * 160 pixels at 2 bits each. */
  const FB_BYTES: int := 6400

  predicate IsFramebuffer(fb: seq<bv8>) {
    |fb| == FB_BYTES
  }

  predicate InScreen(x: int, y: int) {
    0 <= x < WIDTH && 0 <= y < HEIGHT
  }

  /** The byte holding pixel (x, y): `(y * 160 + x) >> 2`; the operand is
      non-negative on screen, so the shift is a division by 4. */
  function ByteIndex(x: int, y: int): (i: int)
    requires InScreen(x, y)
    ensures 0 <= i < FB_BYTES
    ensures i == y * (WIDTH / 4) + x / 4
  {
    (y * WIDTH + x) / 4
  }

  /** The 2-bit slot of pixel (x, y) within its byte: `x & 3`, which is
      `x % 4` for the non-negative x that pass the bounds check. */
  function SlotOf(x: int): (k: nat)
    requires 0 <= x
    ensures k < 4
  {
    x % 4
  }

  /** The 2-bit value held in slot k of byte b. */
  function Slot(b: bv8, k: nat): (v: bv8)
    requires k < 4
    ensures v <= 3
  {
    (b >> (2 * k)) & 3
  }

  /** Read-modify-write of slot k: clear the two bits at offset 2k, then OR
      in v shifted to that offset. */
  function WriteSlot(b: bv8, k: nat, v: bv8): bv8
    requires k < 4
  {
    var mask: bv8 := 3 << (2 * k);
    (b & !mask) | (v << (2 * k))
  }

  /** The colour index `pset` derives from the register: the low nibble minus
      one, truncated to `u8`, so a nibble of 0 wraps to 255. */
  function ColorIndex(drawColors: bv16): (c: bv8)
    ensures c <= 3 <==> 1 <= drawColors & 0xF <= 4
    ensures c <= 3 ==> c as bv16 + 1 == drawColors & 0xF
    ensures drawColors & 0xF == 0 ==> c == 0xFF
  {
    (((drawColors & 0xF) - 1) & 0xFF) as bv8
  }

  /** The palette index displayed at on-screen pixel (x, y). */
  function Pixel(fb: seq<bv8>, x: int, y: int): (v: bv8)
    requires IsFramebuffer(fb) && InScreen(x, y)
    ensures v <= 3
  {
    Slot(fb[ByteIndex(x, y)], SlotOf(x))
  }

  /** `pset`: silently ignores off-screen coordinates and colour indices
      above 3, otherwise rewrites the one 2-bit slot of pixel (x, y). */
  function Pset(fb: seq<bv8>, drawColors: bv16, x: int, y: int): (r: seq<bv8>)
    requires IsFramebuffer(fb)
    ensures IsFramebuffer(r)
    ensures !InScreen(x, y) || ColorIndex(drawColors) > 3 ==> r == fb
    ensures InScreen(x, y) ==>
      forall i :: 0 <= i < FB_BYTES && i != ByteIndex(x, y) ==> r[i] == fb[i]
  {
    if x < 0 || x >= WIDTH || y < 0 || y >= HEIGHT then fb
    else
      var c := ColorIndex(drawColors);
      if c > 3 then fb
      else
        var i := ByteIndex(x, y);
        fb[i := WriteSlot(fb[i], SlotOf(x), c)]
  }

  /** Writing slot k and reading it back gives the written value; every other
      slot of the byte keeps its value. */
  lemma WriteSlotSpec(b: bv8, k: nat, v: bv8)
    requires k < 4 && v <= 3
    ensures Slot(WriteSlot(b, k, v), k) == v
    ensures forall j :: 0 <= j < 4 && j != k ==> Slot(WriteSlot(b, k, v), j) == Slot(b, j)
  {
    forall j | 0 <= j < 4 && j != k
      ensures Slot(WriteSlot(b, k, v), j) == Slot(b, j)
    {
      WriteSlotOther(b, k, v, j);
    }
  }

  /** One other slot of a written byte, by cases on the written slot. */
  lemma WriteSlotOther(b: bv8, k: nat, v: bv8, j: nat)
    requires k < 4 && j < 4 && j != k && v <= 3
    ensures Slot(WriteSlot(b, k, v), j) == Slot(b, j)
  {
    if k == 0 {} else if k == 1 {} else if k == 2 {} else {}
  }

  /** Two on-screen pixels share a byte exactly when they are on the same row
      and in the same aligned group of four columns. */
  lemma ByteIndexShared(x: int, y: int, x': int, y': int)
    requires InScreen(x, y) && InScreen(x', y')
    ensures ByteIndex(x, y) == ByteIndex(x', y') <==> y == y' && x / 4 == x' / 4
  {
    var i, i' := ByteIndex(x, y), ByteIndex(x', y');
    if i == i' {
      assert y == i / 40 && x / 4 == i % 40;
      assert y' == i' / 40 && x' / 4 == i' % 40;
    }
  }

  /** The byte-level effect of an effective `pset`: the target byte holds the
      colour index in the pixel's slot and keeps its other three slots. */
  lemma PsetTargetByte(fb: seq<bv8>, drawColors: bv16, x: int, y: int)
    requires IsFramebuffer(fb) && InScreen(x, y) && ColorIndex(drawColors) <= 3
    ensures var r := Pset(fb, drawColors, x, y);
      && Slot(r[ByteIndex(x, y)], SlotOf(x)) as bv16 + 1 == drawColors & 0xF
      && forall j :: 0 <= j < 4 && j != SlotOf(x) ==>
           Slot(r[ByteIndex(x, y)], j) == Slot(fb[ByteIndex(x, y)], j)
  {
    WriteSlotSpec(fb[ByteIndex(x, y)], SlotOf(x), ColorIndex(drawColors));
  }

  /** Pixel packing round trip: after `pset` with a register whose low nibble
      n is in 1..4, the pixel reads back as n - 1. */
  lemma PsetThenPixel(fb: seq<bv8>, drawColors: bv16, x: int, y: int)
    requires IsFramebuffer(fb) && InScreen(x, y) && 1 <= drawColors & 0xF <= 4
    ensures Pixel(Pset(fb, drawColors, x, y), x, y) as bv16 + 1 == drawColors & 0xF
  {
    PsetTargetByte(fb, drawColors, x, y);
  }

  /** `pset` changes no pixel other than (x, y). */
  lemma PsetFrame(fb: seq<bv8>, drawColors: bv16, x: int, y: int, x': int, y': int)
    requires IsFramebuffer(fb) && InScreen(x', y') && (x', y') != (x, y)
    ensures Pixel(Pset(fb, drawColors, x, y), x', y') == Pixel(fb, x', y')
  {
    if InScreen(x, y) && ColorIndex(drawColors) <= 3 {
      var r := Pset(fb, drawColors, x, y);
      var i := ByteIndex(x, y);
      ByteIndexShared(x, y, x', y');
      if ByteIndex(x', y') == i {
        assert SlotOf(x') != SlotOf(x);
        WriteSlotSpec(fb[i], SlotOf(x), ColorIndex(drawColors));
      }
    }
  }
}
