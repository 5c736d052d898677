/**
 * `neopixel.c`: the status LED, a WS2812 driven through the RMT peripheral. A colour
 * becomes a 24-bit GRB word, and each bit, most significant first, becomes one RMT item: a
 * high pulse then a low pulse, 9 + 4 ticks for a 1 and 4 + 9 ticks for a 0. The playback
 * mode is shown as one of four colours. The RMT driver's answers are parameters.
 */
module Neopixel {
  import opened Esp
  import AudioPlayer

  type Byte = x: int | 0 <= x < 256

  /** `rgb_color_t`. */
  datatype Rgb = Rgb(red: Byte, green: Byte, blue: Byte)

  /** `rmt_item32_t`: a level held for a number of ticks, then another. */
  datatype Item = Item(level0: int, duration0: int, level1: int, duration1: int)

  const T0H_TICKS := 4
  const T0L_TICKS := 9
  const T1H_TICKS := 9
  const T1L_TICKS := 4

  /** The items of one pixel. */
  const PIXEL_ITEMS := 24

  /** `mode_colors`: red, green, blue and yellow for the four playback modes. */
  const MODE_COLORS: seq<Rgb> := [Rgb(255, 0, 0), Rgb(0, 255, 0), Rgb(0, 0, 255), Rgb(255, 255, 0)]

  const OFF := Rgb(0, 0, 0)

  /** The GRB word: green in bits 23 to 16, red in 15 to 8, blue in 7 to 0. */
  function Word(c: Rgb): (w: nat)
    ensures w < 0x100_0000
    ensures w / 0x1_0000 == c.green && (w / 0x100) % 0x100 == c.red && w % 0x100 == c.blue
  {
    c.green * 0x1_0000 + c.red * 0x100 + c.blue
  }

  /** Bit `k` of `w`, the bit `w & (1 << k)` tests. */
  function Bit(w: nat, k: nat): bool
    decreases k
  {
    if k == 0 then w % 2 == 1 else Bit(w / 2, k - 1)
  }

  /** The item for one bit. */
  function ItemFor(one: bool): (it: Item)
    ensures it.level0 == 1 && it.level1 == 0
    ensures it.duration0 + it.duration1 == T0H_TICKS + T0L_TICKS
    ensures it.duration0 == T1H_TICKS <==> one
  {
    if one then Item(1, T1H_TICKS, 0, T1L_TICKS) else Item(1, T0H_TICKS, 0, T0L_TICKS)
  }

  /** The items of a colour: item `i` encodes bit 23 - i of the word. */
  function Items(c: Rgb): (s: seq<Item>)
    ensures |s| == PIXEL_ITEMS
    ensures forall i :: 0 <= i < |s| ==> s[i] == ItemFor(Bit(Word(c), 23 - i))
  {
    seq(PIXEL_ITEMS, i requires 0 <= i < PIXEL_ITEMS => ItemFor(Bit(Word(c), 23 - i)))
  }

  function Pow2(n: nat): (p: nat)
    ensures p >= 1
  {
    if n == 0 then 1 else 2 * Pow2(n - 1)
  }

  /** The `n` low bits of `w`, most significant first. */
  function Bits(w: nat, n: nat): (bs: seq<bool>)
    ensures |bs| == n
  {
    if n == 0 then [] else Bits(w / 2, n - 1) + [w % 2 == 1]
  }

  /** The number a sequence of bits spells, most significant first. */
  function Value(bs: seq<bool>): nat {
    if bs == [] then 0 else Value(bs[..|bs| - 1]) * 2 + (if bs[|bs| - 1] then 1 else 0)
  }

  /** A receiver's reading of a frame: a long high pulse is a 1. */
  function Decode(items: seq<Item>): (c: Rgb) {
    var w := Value(seq(|items|, i requires 0 <= i < |items| => items[i].duration0 == T1H_TICKS));
    Rgb((w / 0x100) % 0x100, (w / 0x1_0000) % 0x100, w % 0x100)
  }

  /** Position `i` of the most-significant-first bits is bit `n - 1 - i`. */
  lemma {:induction false} BitsAt(w: nat, n: nat, i: nat)
    requires i < n
    ensures Bits(w, n)[i] == Bit(w, n - 1 - i)
    decreases n
  {
    if i < n - 1 {
      BitsAt(w / 2, n - 1, i);
    }
  }

  /** The low bits of a number below 2^n spell it. */
  lemma {:induction false} ValueOfBits(w: nat, n: nat)
    requires w < Pow2(n)
    ensures Value(Bits(w, n)) == w
    decreases n
  {
    if n > 0 {
      var bs := Bits(w, n);
      assert bs[..n - 1] == Bits(w / 2, n - 1);
      ValueOfBits(w / 2, n - 1);
    }
  }

  lemma Pow2Of24()
    ensures Pow2(24) == 0x100_0000
  {
    assert Pow2(4) == 16;
    assert Pow2(8) == 256;
    assert Pow2(12) == 4096;
    assert Pow2(16) == 65536;
    assert Pow2(20) == 0x10_0000;
  }

  /** Reading the frame of a colour gives the colour back. */
  lemma DecodeItems(c: Rgb)
    ensures Decode(Items(c)) == c
  {
    var items := Items(c);
    var w := Word(c);
    var read := seq(|items|, i requires 0 <= i < |items| => items[i].duration0 == T1H_TICKS);
    forall i | 0 <= i < PIXEL_ITEMS
      ensures read[i] == Bits(w, PIXEL_ITEMS)[i]
    {
      BitsAt(w, PIXEL_ITEMS, i);
    }
    assert read == Bits(w, PIXEL_ITEMS);
    Pow2Of24();
    ValueOfBits(w, PIXEL_ITEMS);
  }

  /** The encoding is injective: two colours give the same frame only if they are the same. */
  lemma ItemsInjective(c: Rgb, d: Rgb)
    ensures Items(c) == Items(d) <==> c == d
  {
    if Items(c) == Items(d) {
      DecodeItems(c);
      DecodeItems(d);
    }
  }

  /** Every item lasts 13 ticks, so a frame lasts 24 * 13 ticks whatever the colour. */
  lemma FrameLength(c: Rgb)
    ensures forall i :: 0 <= i < PIXEL_ITEMS ==> Items(c)[i].duration0 + Items(c)[i].duration1 == 13
  {
  }

  lemma {:induction false} BitOfZero(k: nat)
    ensures !Bit(0, k)
    decreases k
  {
    if k > 0 {
      BitOfZero(k - 1);
    }
  }

  /** Off is 24 zero bits: each a 4-tick high pulse then a 9-tick low one. */
  lemma OffItems()
    ensures forall i :: 0 <= i < PIXEL_ITEMS ==> Items(OFF)[i] == Item(1, T0H_TICKS, 0, T0L_TICKS)
  {
    hide Bit, Items, Word;
    assert Word(OFF) == 0;
    forall i | 0 <= i < PIXEL_ITEMS
      ensures Items(OFF)[i] == Item(1, T0H_TICKS, 0, T0L_TICKS)
    {
      BitOfZero(23 - i);
    }
  }

  /** `neopixel_set_pixel`: the first 24 items of `items` become the frame of `color`. */
  method SetPixel(items: array<Item>, color: Rgb)
    requires items.Length >= PIXEL_ITEMS
    modifies items
    ensures items[..PIXEL_ITEMS] == Items(color)
    ensures items[PIXEL_ITEMS..] == old(items[PIXEL_ITEMS..])
  {
    var bits := color.green * 0x1_0000 + color.red * 0x100 + color.blue;
    for i := 0 to PIXEL_ITEMS
      invariant forall k :: 0 <= k < i ==> items[k] == Items(color)[k]
      invariant items[PIXEL_ITEMS..] == old(items[PIXEL_ITEMS..])
    {
      if Bit(bits, 23 - i) {
        items[i] := Item(1, T1H_TICKS, 0, T1L_TICKS);
      } else {
        items[i] := Item(1, T0H_TICKS, 0, T0L_TICKS);
      }
    }
  }

  /**
   * `neopixel_set_color`: the frame of `color` goes to `rmt_write_items`, whose answer is
   * `write` and is returned.
   */
  method SetColor(color: Rgb, write: ErrCode) returns (r: ErrCode, frame: seq<Item>)
    ensures r == write && frame == Items(color)
  {
    var items := new Item[PIXEL_ITEMS](_ => Item(0, 0, 0, 0));
    SetPixel(items, color);
    frame := items[..];
    r := write;
  }

  /** `neopixel_off`: the frame of black. */
  method Off(write: ErrCode) returns (r: ErrCode, frame: seq<Item>)
    ensures r == write && frame == Items(OFF)
  {
    r, frame := SetColor(OFF, write);
  }

  /** `neopixel_blink`: the colour, then, if it was sent, off after the delay. */
  method Blink(color: Rgb, write: ErrCode, writeOff: ErrCode) returns (r: ErrCode, frames: seq<seq<Item>>)
    ensures write != EspOk ==> r == write && frames == [Items(color)]
    ensures write == EspOk ==> r == writeOff && frames == [Items(color), Items(OFF)]
  {
    var frame;
    r, frame := SetColor(color, write);
    if r != EspOk {
      return r, [frame];
    }
    var offFrame;
    r, offFrame := Off(writeOff);
    frames := [frame, offFrame];
  }

  /** The colour of a playback mode. */
  function ModeColor(mode: nat): (c: Option<Rgb>)
    ensures mode >= AudioPlayer.MODE_MAX <==> c.None?
    ensures c.Some? ==> c.value == MODE_COLORS[mode]
  {
    if mode >= AudioPlayer.MODE_MAX then None else Some(MODE_COLORS[mode])
  }

  /** The four modes have four different colours, so four different frames. */
  lemma ModeColorsDistinct(m: nat, n: nat)
    requires m < AudioPlayer.MODE_MAX && n < AudioPlayer.MODE_MAX && m != n
    ensures ModeColor(m) != ModeColor(n) && Items(ModeColor(m).value) != Items(ModeColor(n).value)
  {
    ItemsInjective(ModeColor(m).value, ModeColor(n).value);
  }

  /**
   * `neopixel_indicate_mode`: INVALID_ARG and nothing sent for a mode out of range;
   * otherwise a blink of the mode's colour.
   */
  method IndicateMode(mode: nat, write: ErrCode, writeOff: ErrCode) returns (r: ErrCode, frames: seq<seq<Item>>)
    ensures ModeColor(mode).None? ==> r == InvalidArg && frames == []
    ensures ModeColor(mode).Some? && write != EspOk ==> r == write && frames == [Items(ModeColor(mode).value)]
    ensures ModeColor(mode).Some? && write == EspOk ==>
      r == writeOff && frames == [Items(ModeColor(mode).value), Items(OFF)]
  {
    if mode >= AudioPlayer.MODE_MAX {
      return InvalidArg, [];
    }
    r, frames := Blink(MODE_COLORS[mode], write, writeOff);
  }
}
