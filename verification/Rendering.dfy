// crates/gb-core/src/ppu/render.rs and the pixel half of sprite.rs: one scanline.
module Rendering {
  import opened Words
  import opened Sprites

  type Vram = s: seq<u8> | |s| == 0x2000 witness seq<u8>(0x2000, (i: nat) => 0)
  type ColorNumber = c: int | 0 <= c < 4

  // What a scanline is computed from.
  datatype Video = Video(vram: Vram, registers: Registers, windowLine: u8, selected: seq<Sprite>)

  datatype PixelSource = Background | Window | Object(oamIndex: u8)

  // The palette shade that is stored, the background colour underneath and where it came from.
  datatype Pixel = Pixel(shade: ColorNumber, color: ColorNumber, source: PixelSource)

  datatype RenderedRow = RenderedRow(pixels: seq<Pixel>, windowDrawn: bool)

  function MapPalette(register: u8, color: ColorNumber): ColorNumber {
    if color == 0 then register % 4
    else if color == 1 then register / 4 % 4
    else if color == 2 then register / 16 % 4
    else register / 64 % 4
  }

  function DecodeTileRow(low: u8, high: u8): (r: seq<ColorNumber>)
    ensures |r| == 8
  {
    var weights := [128, 64, 32, 16, 8, 4, 2, 1];
    seq(8, (i: nat) requires i < 8 => (high / weights[i]) % 2 * 2 + (low / weights[i]) % 2)
  }

  // One bit plane of a row of colours, as a game packs it: leftmost pixel first.
  function Packed(bits: seq<int>): int
    requires |bits| == 8
  {
    128 * bits[0] + 64 * bits[1] + 32 * bits[2] + 16 * bits[3] + 8 * bits[4] + 4 * bits[5] + 2 * bits[6] + bits[7]
  }

  function LowPlane(row: seq<ColorNumber>): (bits: seq<int>)
    ensures |bits| == |row|
  {
    seq(|row|, (i: nat) requires i < |row| => row[i] % 2)
  }

  function HighPlane(row: seq<ColorNumber>): (bits: seq<int>)
    ensures |bits| == |row|
  {
    seq(|row|, (i: nat) requires i < |row| => row[i] / 2)
  }

  function BitsOf(b: u8): (bits: seq<int>)
    ensures |bits| == 8
  {
    [b / 128 % 2, b / 64 % 2, b / 32 % 2, b / 16 % 2, b / 8 % 2, b / 4 % 2, b / 2 % 2, b % 2]
  }

  lemma {:induction false} EightBits(b: u8)
    ensures Packed(BitsOf(b)) == b
  {
    assert b / 64 == 2 * (b / 128) + b / 64 % 2;
    assert b / 32 == 2 * (b / 64) + b / 32 % 2;
    assert b / 16 == 2 * (b / 32) + b / 16 % 2;
    assert b / 8 == 2 * (b / 16) + b / 8 % 2;
    assert b / 4 == 2 * (b / 8) + b / 4 % 2;
    assert b / 2 == 2 * (b / 4) + b / 2 % 2;
  }

  // Decoding loses nothing: the two planes of a decoded row are the two bytes it came from.
  lemma {:induction false} DecodingIsFaithful(low: u8, high: u8)
    ensures Packed(LowPlane(DecodeTileRow(low, high))) == low
    ensures Packed(HighPlane(DecodeTileRow(low, high))) == high
  {
    hide DecodeTileRow, BitsOf, Packed;
    EightBits(low);
    EightBits(high);
    var row := DecodeTileRow(low, high);
    forall i | 0 <= i < 8 ensures LowPlane(row)[i] == BitsOf(low)[i] && HighPlane(row)[i] == BitsOf(high)[i] {
      PlaneBit(low, high, i);
    }
    assert LowPlane(row) == BitsOf(low) && HighPlane(row) == BitsOf(high);
  }

  lemma PlaneBit(low: u8, high: u8, i: nat)
    requires i < 8
    ensures DecodeTileRow(low, high)[i] == 2 * BitsOf(high)[i] + BitsOf(low)[i]
    ensures 0 <= BitsOf(low)[i] < 2 && 0 <= BitsOf(high)[i] < 2
  {
  }

  // The loop over the bits, most significant first.
  method DecodeTileRowBits(low: u8, high: u8) returns (pixels: array<ColorNumber>)
    ensures fresh(pixels) && pixels[..] == DecodeTileRow(low, high)
  {
    pixels := new ColorNumber[8](i => 0);
    var index, weight := 0, 128;
    while index < 8
      invariant 0 <= index <= 8
      invariant weight == if index == 8 then 0 else [128, 64, 32, 16, 8, 4, 2, 1][index]
      invariant forall k :: 0 <= k < index ==> pixels[k] == DecodeTileRow(low, high)[k]
    {
      pixels[index] := (high / weight) % 2 * 2 + (low / weight) % 2;
      index, weight := index + 1, weight / 2;
    }
  }

  function TileRowAddress(unsigned: bool, tile: u8, row: nat): (a: nat)
    requires row < 8
    ensures 0x8000 <= a < 0x97ff
  {
    if unsigned then 0x8000 + tile * 16 + row * 2
    else 0x9000 + (if tile < 128 then tile else tile - 256) * 16 + row * 2
  }

  // The two addressing modes name the same rows for the upper half of the tile numbers only, and
  // within a mode no two rows share a byte.
  lemma TileRowsAreApart(unsigned: bool, tile: u8, row: nat, other: u8, otherRow: nat)
    requires row < 8 && otherRow < 8
    ensures TileRowAddress(true, tile, row) == TileRowAddress(false, tile, row) <==> tile >= 128
    ensures (tile, row) != (other, otherRow) ==>
              var a, b := TileRowAddress(unsigned, tile, row), TileRowAddress(unsigned, other, otherRow);
              a + 1 < b || b + 1 < a
  {
  }

  function TileColor(v: Video, mapBase: nat, pixelX: u8, pixelY: u8): ColorNumber
    requires mapBase == 0x9800 || mapBase == 0x9c00
  {
    var tile := v.vram[mapBase + pixelY / 8 * 32 + pixelX / 8 - 0x8000];
    var offset := TileRowAddress(v.registers.TileDataUnsigned(), tile, pixelY % 8) - 0x8000;
    DecodeTileRow(v.vram[offset], v.vram[offset + 1])[pixelX % 8]
  }

  function SpriteColor(v: Video, s: Sprite, screenX: int, line: u8): ColorNumber {
    var height := v.registers.ObjectHeight();
    var x := screenX - (s.rawX as int - 8);
    var y := line - (s.rawY as int - 16);
    if !(0 <= x < 8 && 0 <= y < height) then 0
    else
      var column := if Bit(s.flags, 0x20) then 7 - x else x;
      var row := if Bit(s.flags, 0x40) then height - 1 - y else y;
      var tile := if height == 16 then (s.tile - s.tile % 2 + row / 8) % 0x100 else s.tile;
      var offset := tile * 16 + row % 8 * 2;
      DecodeTileRow(v.vram[offset], v.vram[offset + 1])[column]
  }

  // The flip flags mirror an object inside its own box.
  lemma FlipMirrors(v: Video, s: Sprite, t: Sprite, x: nat, y: nat)
    requires t == s.(flags := t.flags) && x < 8 && y < v.registers.ObjectHeight()
    requires 0 <= s.rawY as int - 16 + y && s.rawY - 16 + v.registers.ObjectHeight() <= 0x100
    ensures var left, top := s.rawX as int - 8, s.rawY as int - 16;
            var mirrored := if Bit(t.flags, 0x20) == Bit(s.flags, 0x20) then x else 7 - x;
            var turned := if Bit(t.flags, 0x40) == Bit(s.flags, 0x40) then y else v.registers.ObjectHeight() - 1 - y;
            top + turned >= 0 ==>
                SpriteColor(v, t, left + x, top + y) == SpriteColor(v, s, left + mirrored, top + turned)
  {
  }

  // ---- The layers under the objects ----

  function BackgroundColor(v: Video, line: u8, x: nat): ColorNumber
    requires x < SCREEN_WIDTH
  {
    if !v.registers.BackgroundEnabled() then 0
    else TileColor(v, if v.registers.BackgroundMapHigh() then 0x9c00 else 0x9800,
                   (x + v.registers.scx) % 0x100, (line + v.registers.scy) % 0x100)
  }

  predicate InWindow(v: Video, line: u8, x: nat) {
    v.registers.WindowVisible(line) && x as int >= v.registers.wx as int - 7
  }

  function BaseColor(v: Video, line: u8, x: nat): ColorNumber
    requires x < SCREEN_WIDTH
  {
    if InWindow(v, line, x) then
      TileColor(v, if v.registers.WindowMapHigh() then 0x9c00 else 0x9800, x + 7 - v.registers.wx, v.windowLine)
    else BackgroundColor(v, line, x)
  }

  function BasePixel(v: Video, line: u8, x: nat): Pixel
    requires x < SCREEN_WIDTH
  {
    var color := BaseColor(v, line, x);
    Pixel(MapPalette(v.registers.bgp, color), color, if InWindow(v, line, x) then Window else Background)
  }

  // ---- Objects ----

  predicate Opaque(v: Video, line: u8, x: nat, s: Sprite) {
    s in v.selected && SpriteColor(v, s, x, line) != 0
  }

  // The opaque selected object with the least (x, OAM index).
  predicate Wins(v: Video, line: u8, x: nat, s: Sprite) {
    Opaque(v, line, x, s) && forall t :: t in v.selected && Opaque(v, line, x, t) ==> KeyLeq(s, t)
  }

  function ObjectPixel(v: Video, line: u8, x: nat, s: Sprite): Pixel
    requires x < SCREEN_WIDTH
  {
    var palette := if Bit(s.flags, 0x10) then v.registers.obp1 else v.registers.obp0;
    Pixel(MapPalette(palette, SpriteColor(v, s, x, line)), BaseColor(v, line, x), Object(s.oamIndex))
  }

  // The declarative rule: with objects on, only the winner matters; it shows unless it is flagged
  // behind a nonzero background, and then the background shows even if a lower-priority object
  // would be in front of it.
  predicate PixelRule(v: Video, line: u8, x: nat, p: Pixel)
    requires x < SCREEN_WIDTH
  {
    && (forall s :: s in v.selected && v.registers.ObjectsEnabled() && Wins(v, line, x, s) ==>
          p == if Bit(s.flags, 0x80) && BaseColor(v, line, x) != 0 then BasePixel(v, line, x)
               else ObjectPixel(v, line, x, s))
    && ((!v.registers.ObjectsEnabled() || forall s :: s in v.selected ==> !Opaque(v, line, x, s)) ==>
          p == BasePixel(v, line, x))
  }

  // Some object wins whenever one is opaque, so the rule leaves no pixel open.
  lemma {:induction false} SomeoneWins(v: Video, line: u8, x: nat, among: seq<Sprite>) returns (w: Sprite)
    requires exists s :: s in among && Opaque(v, line, x, s)
    ensures w in among && Opaque(v, line, x, w)
    ensures forall t :: t in among && Opaque(v, line, x, t) ==> KeyLeq(w, t)
  {
    var sorted := SortByKey(among);
    var i := 0;
    var s :| s in among && Opaque(v, line, x, s);
    assert s in sorted;
    while !Opaque(v, line, x, sorted[i])
      invariant 0 <= i < |sorted|
      invariant forall j :: 0 <= j < i ==> !Opaque(v, line, x, sorted[j])
      decreases |sorted| - i
    {
      i := i + 1;
    }
    w := sorted[i];
    forall t | t in among && Opaque(v, line, x, t)
      ensures KeyLeq(w, t)
    {
      assert t in sorted;
      var j :| 0 <= j < |sorted| && sorted[j] == t;
    }
  }

  lemma {:induction false} RuleIsDeterministic(v: Video, line: u8, x: nat, p: Pixel, q: Pixel)
    requires x < SCREEN_WIDTH
    ensures PixelRule(v, line, x, p) && PixelRule(v, line, x, q) ==> p == q
  {
    if v.registers.ObjectsEnabled() && exists s :: s in v.selected && Opaque(v, line, x, s) {
      var w := SomeoneWins(v, line, x, v.selected);
      assert Wins(v, line, x, w);
    }
  }

  lemma {:induction false} RuleIsMet(v: Video, line: u8, x: nat)
    requires x < SCREEN_WIDTH && DistinctIndices(v.selected)
    ensures exists p: Pixel :: PixelRule(v, line, x, p)
  {
    if v.registers.ObjectsEnabled() && exists s :: s in v.selected && Opaque(v, line, x, s) {
      var w := SomeoneWins(v, line, x, v.selected);
      var p := if Bit(w.flags, 0x80) && BaseColor(v, line, x) != 0 then BasePixel(v, line, x)
               else ObjectPixel(v, line, x, w);
      OnlyWinnerCounts(v, line, x, w, p);
    } else {
      assert PixelRule(v, line, x, BasePixel(v, line, x));
    }
  }

  // The pixel the rule demands.
  ghost function PixelOf(v: Video, line: u8, x: nat): Pixel
    requires x < SCREEN_WIDTH
  {
    if exists p: Pixel :: PixelRule(v, line, x, p) then
      var p: Pixel :| PixelRule(v, line, x, p);
      p
    else Pixel(0, 0, Background)
  }

  lemma {:induction false} PixelOfIsRight(v: Video, line: u8, x: nat, p: Pixel)
    requires x < SCREEN_WIDTH && DistinctIndices(v.selected)
    ensures PixelRule(v, line, x, PixelOf(v, line, x))
    ensures PixelRule(v, line, x, p) <==> p == PixelOf(v, line, x)
  {
    RuleIsMet(v, line, x);
    RuleIsDeterministic(v, line, x, p, PixelOf(v, line, x));
    hide PixelRule;
  }

  predicate RowRule(v: Video, line: u8, row: RenderedRow) {
    && |row.pixels| == SCREEN_WIDTH
    && (forall x :: 0 <= x < SCREEN_WIDTH ==> PixelRule(v, line, x, row.pixels[x]))
    && (row.windowDrawn <==> exists x :: 0 <= x < SCREEN_WIDTH && InWindow(v, line, x))
  }

  // A window is drawn on every line it is visible on, because WX is at most 166.
  lemma {:induction false} WindowReachesScreen(v: Video, line: u8)
    ensures v.registers.WindowVisible(line) <==> exists x :: 0 <= x < SCREEN_WIDTH && InWindow(v, line, x)
  {
    if v.registers.WindowVisible(line) {
      assert InWindow(v, line, SCREEN_WIDTH - 1);
    }
  }

  method BackgroundColorNumbers(v: Video, line: u8) returns (colors: array<ColorNumber>)
    ensures fresh(colors) && colors.Length == SCREEN_WIDTH
    ensures forall x :: 0 <= x < SCREEN_WIDTH ==> colors[x] == BackgroundColor(v, line, x)
  {
    colors := new ColorNumber[SCREEN_WIDTH](i => 0);
    if !v.registers.BackgroundEnabled() {
      return;
    }
    var mapBase := if v.registers.BackgroundMapHigh() then 0x9c00 else 0x9800;
    var mapY := (line + v.registers.scy) % 0x100;
    for x := 0 to SCREEN_WIDTH
      invariant forall k :: 0 <= k < x ==> colors[k] == BackgroundColor(v, line, k)
    {
      var mapX := (x + v.registers.scx) % 0x100;
      colors[x] := TileColor(v, mapBase, mapX, mapY);
    }
  }

  // Background and window: every pixel of the row is the base pixel.
  method RenderLayers(v: Video, line: u8) returns (row: array<Pixel>, windowDrawn: bool)
    ensures fresh(row) && row.Length == SCREEN_WIDTH
    ensures forall x :: 0 <= x < SCREEN_WIDTH ==> row[x] == BasePixel(v, line, x)
    ensures windowDrawn <==> v.registers.WindowVisible(line)
  {
    hide Bit, TileColor, MapPalette, BackgroundColor;
    var colors := BackgroundColorNumbers(v, line);
    row := new Pixel[SCREEN_WIDTH](i => Pixel(0, 0, Background));
    for x := 0 to SCREEN_WIDTH
      invariant forall k :: 0 <= k < SCREEN_WIDTH ==> colors[k] == BackgroundColor(v, line, k)
      invariant forall k :: 0 <= k < x ==>
                  row[k] == Pixel(MapPalette(v.registers.bgp, BackgroundColor(v, line, k)),
                      BackgroundColor(v, line, k), Background)
    {
      row[x] := Pixel(MapPalette(v.registers.bgp, colors[x]), colors[x], Background);
    }
    windowDrawn := false;
    if v.registers.WindowVisible(line) {
      var origin := v.registers.wx as int - 7;
      var mapBase := if v.registers.WindowMapHigh() then 0x9c00 else 0x9800;
      for x := 0 to SCREEN_WIDTH
        invariant forall k :: 0 <= k < x ==> row[k] == BasePixel(v, line, k)
        invariant forall k :: x <= k < SCREEN_WIDTH ==>
                    row[k] == Pixel(MapPalette(v.registers.bgp, BackgroundColor(v, line, k)),
                        BackgroundColor(v, line, k), Background)
        invariant windowDrawn <==> exists k :: 0 <= k < x && InWindow(v, line, k)
      {
        var windowX := x - origin;
        if 0 <= windowX <= 255 {
          var color := TileColor(v, mapBase, windowX, v.windowLine);
          row[x] := Pixel(MapPalette(v.registers.bgp, color), color, Window);
          windowDrawn := true;
          assert InWindow(v, line, x) && windowX == x + 7 - v.registers.wx;
        }
        assert row[x] == BasePixel(v, line, x);
      }
      WindowReachesScreen(v, line);
    }
  }

  // The walk over the sorted objects at one column, with its two ways of stopping.
  method OverlayObjects(v: Video, line: u8, x: nat, sprites: seq<Sprite>, base: Pixel) returns (p: Pixel)
    requires x < SCREEN_WIDTH && base == BasePixel(v, line, x) && v.registers.ObjectsEnabled()
    requires Sorted(sprites) && forall s :: s in sprites <==> s in v.selected
    requires DistinctIndices(v.selected)
    ensures PixelRule(v, line, x, p)
  {
    p := base;
    for i := 0 to |sprites|
      invariant p == base
      invariant forall j :: 0 <= j < i ==> !Opaque(v, line, x, sprites[j])
    {
      var sprite := sprites[i];
      var color := SpriteColor(v, sprite, x, line);
      if color == 0 {
        continue;
      }
      assert Wins(v, line, x, sprite) by {
        forall t | t in v.selected && Opaque(v, line, x, t)
          ensures KeyLeq(sprite, t)
        {
          var j :| 0 <= j < |sprites| && sprites[j] == t;
        }
      }
      if !(Bit(sprite.flags, 0x80) && base.color != 0) {
        var palette := if Bit(sprite.flags, 0x10) then v.registers.obp1 else v.registers.obp0;
        p := Pixel(MapPalette(palette, color), base.color, Object(sprite.oamIndex));
      }
      OnlyWinnerCounts(v, line, x, sprite, p);
      return;
    }
    forall s | s in v.selected
      ensures !Opaque(v, line, x, s)
    {
      var j :| 0 <= j < |sprites| && sprites[j] == s;
    }
  }

  lemma OnlyWinnerCounts(v: Video, line: u8, x: nat, w: Sprite, p: Pixel)
    requires x < SCREEN_WIDTH && v.registers.ObjectsEnabled() && Wins(v, line, x, w)
    requires p == if Bit(w.flags, 0x80) && BaseColor(v, line, x) != 0 then BasePixel(v, line, x)
                  else ObjectPixel(v, line, x, w)
    requires DistinctIndices(v.selected)
    ensures PixelRule(v, line, x, p)
  {
  }

  lemma WithoutObjects(v: Video, line: u8, x: nat)
    requires x < SCREEN_WIDTH && !v.registers.ObjectsEnabled()
    ensures PixelRule(v, line, x, BasePixel(v, line, x))
  {
  }

  method RenderScanline(v: Video, line: u8) returns (row: RenderedRow)
    requires DistinctIndices(v.selected)
    ensures RowRule(v, line, row)
    ensures |row.pixels| == SCREEN_WIDTH && (row.windowDrawn <==> v.registers.WindowVisible(line))
  {
    hide PixelRule, BasePixel, InWindow;
    var pixels, windowDrawn := RenderLayers(v, line);
    WindowReachesScreen(v, line);
    if v.registers.ObjectsEnabled() {
      var sprites := SortByKey(v.selected);
      for x := 0 to SCREEN_WIDTH
        invariant forall k :: 0 <= k < x ==> PixelRule(v, line, k, pixels[k])
        invariant forall k :: x <= k < SCREEN_WIDTH ==> pixels[k] == BasePixel(v, line, k)
      {
        var p := OverlayObjects(v, line, x, sprites, pixels[x]);
        pixels[x] := p;
      }
    } else {
      forall x | 0 <= x < SCREEN_WIDTH
        ensures PixelRule(v, line, x, pixels[x])
      {
        WithoutObjects(v, line, x);
      }
    }
    row := RenderedRow(pixels[..], windowDrawn);
  }
}
