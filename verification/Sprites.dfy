// crates/gb-core/src/ppu/registers.rs and sprite.rs: the register file, the ten objects a line
// selects and the mode-3 dots they cost.
module Sprites {
  import opened Words

  const OBJECTS := 40
  const MAX_PER_LINE := 10
  const SCREEN_WIDTH := 160
  const OFF_SCREEN_X := 168

  datatype Registers = Registers(lcdc: u8, stat: u8, scy: u8, scx: u8, lyc: u8, dma: u8,
                                 bgp: u8, obp0: u8, obp1: u8, wy: u8, wx: u8)
  {
    predicate LcdEnabled() { Bit(lcdc, 0x80) }
    predicate WindowMapHigh() { Bit(lcdc, 0x40) }
    predicate WindowEnabled() { Bit(lcdc, 0x20) }
    predicate TileDataUnsigned() { Bit(lcdc, 0x10) }
    predicate BackgroundMapHigh() { Bit(lcdc, 0x08) }
    predicate ObjectsEnabled() { Bit(lcdc, 0x02) }
    predicate BackgroundEnabled() { Bit(lcdc, 0x01) }
    function ObjectHeight(): (h: int)
      ensures h == 8 || h == 16
    {
      if Bit(lcdc, 0x04) then 16 else 8
    }

    // crates/gb-core/src/ppu/render.rs: window_visible_on_line
    predicate WindowVisible(line: u8) {
      BackgroundEnabled() && WindowEnabled() && line >= wy && wx <= 166
    }
  }

  datatype Sprite = Sprite(rawY: u8, rawX: u8, tile: u8, flags: u8, oamIndex: u8)

  type Oam = s: seq<u8> | |s| == 4 * OBJECTS witness seq<u8>(160, (i: nat) => 0)

  function Entry(oam: Oam, i: nat): Sprite
    requires i < OBJECTS
  {
    Sprite(oam[4 * i], oam[4 * i + 1], oam[4 * i + 2], oam[4 * i + 3], i)
  }

  predicate OnLine(oam: Oam, height: int, line: u8, i: nat)
    requires i < OBJECTS
  {
    var top := oam[4 * i] as int - 16;
    top <= line < top + height
  }

  // The filter and the take(10) of the iterator chain, from object i with `room` slots left.
  function Scan(oam: Oam, height: int, line: u8, i: nat, room: nat): (s: seq<Sprite>)
    requires i <= OBJECTS
    ensures |s| <= room
    decreases OBJECTS - i
  {
    if i == OBJECTS || room == 0 then []
    else if OnLine(oam, height, line, i) then [Entry(oam, i)] + Scan(oam, height, line, i + 1, room - 1)
    else Scan(oam, height, line, i + 1, room)
  }

  function SelectSprites(oam: Oam, registers: Registers, line: u8): (s: seq<Sprite>)
    ensures |s| <= MAX_PER_LINE
  {
    Scan(oam, registers.ObjectHeight(), line, 0, MAX_PER_LINE)
  }

  // How many of the objects i..k cover the line.
  function Covering(oam: Oam, height: int, line: u8, i: nat, k: nat): nat
    requires i <= k <= OBJECTS
  {
    if i == k then 0
    else Covering(oam, height, line, i, k - 1) + (if OnLine(oam, height, line, k - 1) then 1 else 0)
  }

  lemma {:induction false} CoveringFromFront(oam: Oam, height: int, line: u8, i: nat, k: nat)
    requires i < k <= OBJECTS
    ensures Covering(oam, height, line, i, k)
            == (if OnLine(oam, height, line, i) then 1 else 0) + Covering(oam, height, line, i + 1, k)
    decreases k
  {
    if i + 1 < k {
      CoveringFromFront(oam, height, line, i, k - 1);
    }
  }

  lemma {:induction false} ScanSelects(oam: Oam, height: int, line: u8, i: nat, room: nat, k: nat)
    requires i <= k < OBJECTS
    ensures Entry(oam, k) in Scan(oam, height, line, i, room)
            <==> OnLine(oam, height, line, k) && Covering(oam, height, line, i, k) < room
    decreases OBJECTS - i
  {
    if room > 0 {
      if k == i {
        ScanIsLater(oam, height, line, i + 1, if OnLine(oam, height, line, i) then room - 1 else room);
      } else {
        CoveringFromFront(oam, height, line, i, k);
        ScanSelects(oam, height, line, i + 1, if OnLine(oam, height, line, i) then room - 1 else room, k);
      }
    }
  }

  predicate Ascending(sprites: seq<Sprite>) {
    forall i, j :: 0 <= i < j < |sprites| ==> sprites[i].oamIndex < sprites[j].oamIndex
  }

  lemma {:induction false} ScanIsLater(oam: Oam, height: int, line: u8, i: nat, room: nat)
    requires i <= OBJECTS
    ensures forall s :: s in Scan(oam, height, line, i, room) ==>
            i <= s.oamIndex < OBJECTS
            && s == Entry(oam, s.oamIndex)
    ensures Ascending(Scan(oam, height, line, i, room))
    decreases OBJECTS - i
  {
    if i < OBJECTS && room > 0 {
      ScanIsLater(oam, height, line, i + 1, if OnLine(oam, height, line, i) then room - 1 else room);
    }
  }

  // An object is drawn on a line exactly when it covers the line and fewer than ten objects
  // before it in OAM do.
  lemma {:induction false} SelectionIsFirstTen(oam: Oam, registers: Registers, line: u8, k: nat)
    requires k < OBJECTS
    ensures Entry(oam, k) in SelectSprites(oam, registers, line)
            <==> OnLine(oam, registers.ObjectHeight(), line, k)
                 && Covering(oam, registers.ObjectHeight(), line, 0, k) < MAX_PER_LINE
  {
    ScanSelects(oam, registers.ObjectHeight(), line, 0, MAX_PER_LINE, k);
  }

  predicate DistinctIndices(sprites: seq<Sprite>) {
    forall s, t :: s in sprites && t in sprites && s.oamIndex == t.oamIndex ==> s == t
  }

  lemma SelectionIsDistinct(oam: Oam, registers: Registers, line: u8)
    ensures DistinctIndices(SelectSprites(oam, registers, line))
  {
    ScanIsLater(oam, registers.ObjectHeight(), line, 0, MAX_PER_LINE);
  }

  // The selection is in OAM order, so no object is in it twice.
  lemma SelectionIsInOam(oam: Oam, registers: Registers, line: u8)
    ensures Ascending(SelectSprites(oam, registers, line))
    ensures forall s :: s in SelectSprites(oam, registers, line) ==> s.oamIndex < OBJECTS && s == Entry(oam, s.oamIndex)
  {
    ScanIsLater(oam, registers.ObjectHeight(), line, 0, MAX_PER_LINE);
  }

  // ---- sort_by_key((raw_x, oam_index)) ----

  predicate KeyLeq(a: Sprite, b: Sprite) {
    a.rawX < b.rawX || (a.rawX == b.rawX && a.oamIndex <= b.oamIndex)
  }

  predicate Sorted(s: seq<Sprite>) {
    forall i, j :: 0 <= i < j < |s| ==> KeyLeq(s[i], s[j])
  }

  function Insert(x: Sprite, s: seq<Sprite>): (r: seq<Sprite>)
    requires Sorted(s)
    ensures Sorted(r) && |r| == |s| + 1
    ensures forall y :: y in r <==> y == x || y in s
  {
    if s == [] || KeyLeq(x, s[0]) then [x] + s
    else
      var rest := Insert(x, s[1..]);
      assert forall y :: y in rest ==> KeyLeq(s[0], y);
      [s[0]] + rest
  }

  function SortByKey(s: seq<Sprite>): (r: seq<Sprite>)
    ensures Sorted(r) && |r| == |s|
    ensures forall y :: y in r <==> y in s
  {
    if s == [] then [] else Insert(s[0], SortByKey(s[1..]))
  }

  lemma {:induction false} InsertAddsOne(x: Sprite, s: seq<Sprite>)
    requires Sorted(s)
    ensures multiset(Insert(x, s)) == multiset(s) + multiset{x}
  {
    if s != [] && !KeyLeq(x, s[0]) {
      InsertAddsOne(x, s[1..]);
      assert s == [s[0]] + s[1..];
    }
  }

  // The sort neither loses nor repeats an object.
  lemma {:induction false} SortRearranges(s: seq<Sprite>)
    ensures Sorted(SortByKey(s)) && multiset(SortByKey(s)) == multiset(s)
  {
    if s != [] {
      assert s == [s[0]] + s[1..];
      SortRearranges(s[1..]);
      InsertAddsOne(s[0], SortByKey(s[1..]));
    }
  }

  // ---- mode-3 penalty ----

  // The background or window tile a sprite's leftmost column falls in (window tiles are 32..)
  // and the column's offset inside it.
  function ChargedTile(r: Registers, line: u8, s: Sprite): (t: (nat, nat))
    requires s.rawX < OFF_SCREEN_X
    ensures t.0 < 64 && t.1 < 8
  {
    var screenX := s.rawX as int - 8;
    var origin := r.wx as int - 7;
    if s.rawX >= 8 && r.WindowVisible(line) && screenX >= origin then
      var x := screenX - origin;
      (32 + x / 8, x % 8)
    else
      var x := (s.rawX + r.scx) % 0x100;
      (x / 8, x % 8)
  }

  predicate Charges(s: Sprite) { s.rawX < OFF_SCREEN_X }

  // Some sprite before position i is charged to tile t.
  predicate TileTaken(r: Registers, line: u8, sorted: seq<Sprite>, i: nat, t: nat)
    requires i <= |sorted|
  {
    exists j :: 0 <= j < i && Charges(sorted[j]) && ChargedTile(r, line, sorted[j]).0 == t
  }

  // Six dots for every visible sprite; the first one on a tile also waits for the pixels to its
  // right, all but two of them.
  function ChargeOf(r: Registers, line: u8, sorted: seq<Sprite>, i: nat): (c: nat)
    requires i < |sorted|
    ensures Charges(sorted[i]) ==> 6 <= c <= 11
    ensures !Charges(sorted[i]) ==> c == 0
  {
    if !Charges(sorted[i]) then 0
    else
      var (tile, localX) := ChargedTile(r, line, sorted[i]);
      6 + if TileTaken(r, line, sorted, i, tile) || localX >= 5 then 0 else 5 - localX
  }

  function ChargeSum(r: Registers, line: u8, sorted: seq<Sprite>, n: nat): nat
    requires n <= |sorted|
  {
    if n == 0 then 0 else ChargeSum(r, line, sorted, n - 1) + ChargeOf(r, line, sorted, n - 1)
  }

  function Penalty(r: Registers, line: u8, selected: seq<Sprite>): nat {
    if !r.ObjectsEnabled() then 0
    else
      var sorted := SortByKey(selected);
      ChargeSum(r, line, sorted, |sorted|)
  }

  // How many objects of a list reach the visible columns.
  function Visible(sprites: seq<Sprite>): (n: nat)
    ensures n <= |sprites|
    ensures n == 0 <==> forall s :: s in sprites ==> !Charges(s)
  {
    if sprites == [] then 0 else Visible(sprites[1..]) + (if Charges(sprites[0]) then 1 else 0)
  }

  lemma {:induction false} VisibleAppend(sprites: seq<Sprite>, s: Sprite)
    ensures Visible(sprites + [s]) == Visible(sprites) + (if Charges(s) then 1 else 0)
  {
    if sprites == [] {
      assert sprites + [s] == [s];
    } else {
      assert (sprites + [s])[1..] == sprites[1..] + [s];
      VisibleAppend(sprites[1..], s);
    }
  }

  lemma {:induction false} VisibleInsert(x: Sprite, s: seq<Sprite>)
    requires Sorted(s)
    ensures Visible(Insert(x, s)) == Visible(s) + (if Charges(x) then 1 else 0)
  {
    if s == [] || KeyLeq(x, s[0]) {
      assert ([x] + s)[1..] == s;
    } else {
      VisibleInsert(x, s[1..]);
      assert Insert(x, s)[1..] == Insert(x, s[1..]);
    }
  }

  lemma {:induction false} VisibleSorted(s: seq<Sprite>)
    ensures Visible(SortByKey(s)) == Visible(s)
  {
    if s != [] {
      VisibleSorted(s[1..]);
      VisibleInsert(s[0], SortByKey(s[1..]));
    }
  }

  lemma {:induction false} ChargeSumBounds(r: Registers, line: u8, sorted: seq<Sprite>, n: nat)
    requires n <= |sorted|
    ensures 6 * Visible(sorted[..n]) <= ChargeSum(r, line, sorted, n) <= 11 * Visible(sorted[..n])
  {
    if n > 0 {
      ChargeSumBounds(r, line, sorted, n - 1);
      assert sorted[..n] == sorted[..n - 1] + [sorted[n - 1]];
      VisibleAppend(sorted[..n - 1], sorted[n - 1]);
    }
  }

  // Six to eleven dots for every selected object that reaches the visible columns, and none for the
  // others.
  lemma {:induction false} PenaltyBounds(r: Registers, line: u8, selected: seq<Sprite>)
    ensures !r.ObjectsEnabled() ==> Penalty(r, line, selected) == 0
    ensures r.ObjectsEnabled() ==> 6 * Visible(selected) <= Penalty(r, line, selected) <= 11 * Visible(selected)
  {
    if r.ObjectsEnabled() {
      var sorted := SortByKey(selected);
      ChargeSumBounds(r, line, sorted, |sorted|);
      assert sorted[..|sorted|] == sorted;
      VisibleSorted(selected);
    }
  }

  lemma TakenAfter(r: Registers, line: u8, sorted: seq<Sprite>, i: nat)
    requires i < |sorted|
    ensures forall t: nat :: TileTaken(r, line, sorted, i + 1, t) <==>
                             TileTaken(r, line, sorted, i, t)
                                 || (Charges(sorted[i]) && ChargedTile(r, line, sorted[i]).0 == t)
  {
    forall t: nat
      ensures TileTaken(r, line, sorted, i + 1, t) <==>
              TileTaken(r, line, sorted, i, t) || (Charges(sorted[i]) && ChargedTile(r, line, sorted[i]).0 == t)
    {
      if Charges(sorted[i]) && ChargedTile(r, line, sorted[i]).0 == t {
        assert 0 <= i < i + 1;
      }
    }
  }

  // The loop over the sorted sprites with its table of charged tiles.
  method SpriteMode3Penalty(r: Registers, line: u8, selected: seq<Sprite>) returns (penalty: nat)
    ensures penalty == Penalty(r, line, selected)
  {
    if !r.ObjectsEnabled() {
      return 0;
    }
    var sprites := SortByKey(selected);
    var chargedTiles := new bool[64](i => false);
    penalty := 0;
    for i := 0 to |sprites|
      invariant penalty == ChargeSum(r, line, sprites, i)
      invariant forall t :: 0 <= t < 64 ==> (chargedTiles[t] <==> TileTaken(r, line, sprites, i, t))
    {
      var sprite := sprites[i];
      if sprite.rawX < OFF_SCREEN_X {
        var (tile, localX) := ChargedTile(r, line, sprite);
        TakenAfter(r, line, sprites, i);
        if !chargedTiles[tile] {
          var strictlyRight := 7 - localX;
          penalty := penalty + (if strictlyRight < 2 then 0 else strictlyRight - 2);
          chargedTiles[tile] := true;
        }
        penalty := penalty + 6;
      } else {
        TakenAfter(r, line, sprites, i);
      }
    }
  }
}
