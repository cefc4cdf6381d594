// crates/gb-core/src/ppu/mod.rs and timing.rs: the video device in place. Every method leaves what
// the module Dots says of its value.
module Ppus {
  import opened Words
  import opened Sprites
  import opened Rendering
  import opened Dots
  import opened Frames

  // `after` is `before` with one row of shades written at `start`.
  predicate RowStored(before: Picture, after: Picture, start: nat, row: seq<Pixel>)
    requires start + |row| <= FRAME_PIXELS
  {
    && (forall p :: 0 <= p < FRAME_PIXELS && !(start <= p < start + |row|) ==> after[p] == before[p])
    && forall x :: 0 <= x < |row| ==> after[start + x] == row[x].shade
  }

  method CopyRow(framebuffer: Picture, start: nat, row: seq<Pixel>) returns (r: Picture)
    requires start + |row| <= FRAME_PIXELS
    ensures RowStored(framebuffer, r, start, row)
  {
    r := framebuffer;
    for x := 0 to |row|
      invariant forall p :: 0 <= p < FRAME_PIXELS && !(start <= p < start + |row|) ==> r[p] == framebuffer[p]
      invariant forall k :: 0 <= k < x ==> r[start + k] == row[k].shade
    {
      r := r[start + x := row[x].shade];
    }
  }

  // A row that obeys the pixel rule is the row that is painted.
  lemma RowIsPainted(v: Video, line: u8, before: Picture, after: Picture, row: RenderedRow)
    requires line < VISIBLE_LINES && DistinctIndices(v.selected) && RowRule(v, line, row)
    requires RowStored(before, after, line * SCREEN_WIDTH, row.pixels)
    ensures after == Painted(v, line, before)
  {
    hide PixelRule, PixelOf, InWindow, DistinctIndices;
    forall p | 0 <= p < FRAME_PIXELS ensures after[p] == ShadeAt(v, line, before, p) {
      if line * SCREEN_WIDTH <= p < line * SCREEN_WIDTH + SCREEN_WIDTH {
        var x := p - line * SCREEN_WIDTH;
        PixelOfIsRight(v, line, x, row.pixels[x]);
        assert after[line * SCREEN_WIDTH + x] == row.pixels[x].shade;
      }
    }
  }

  class Ppu {
    const vram: array<u8>
    const oam: array<u8>
    var registers: Registers
    var mode: LcdMode
    var dot: nat
    var line: LineNumber
    var visibleHblankDot: nat
    var mode3EndDot: nat
    var statLineHigh: bool
    var lycEqual: bool
    var startupLine: bool
    var lcdPhase: nat
    var windowLine: u8
    var blankFirstFrame: bool
    var framebuffer: Picture
    var pendingFrame: Option<Frame>
    var nextSequence: nat
    var selectedSprites: seq<Sprite>
    ghost var rowsStored: nat

    predicate Wired() {
      vram.Length == 0x2000 && oam.Length == 4 * OBJECTS
    }

    ghost function ScanView(): Scan
      reads this`mode, this`dot, this`line, this`visibleHblankDot, this`mode3EndDot, this`statLineHigh, this`lycEqual,
            this`startupLine, this`lcdPhase, this`rowsStored
    {
      Scan(mode, dot, line, visibleHblankDot, mode3EndDot, statLineHigh, lycEqual, startupLine, lcdPhase, rowsStored)
    }

    ghost function FilmView(): Film
      reads this`framebuffer, this`blankFirstFrame, this`windowLine, this`pendingFrame, this`nextSequence
    {
      Film(framebuffer, blankFirstFrame, windowLine, pendingFrame, nextSequence)
    }

    ghost function View(): State
      requires Wired()
      reads this, vram, oam
    {
      State(vram[..], oam[..], registers, ScanView(), selectedSprites, FilmView())
    }

    // The invariant of the value, which does not depend on the memories.
    ghost predicate Valid()
      reads this
    {
      && Wired() && DistinctIndices(selectedSprites) && ScanView().Valid(registers)
      && (pendingFrame.Some? ==> pendingFrame.value.sequence + 1 == nextSequence)
    }

    lemma ValueIsValid()
      requires Valid()
      ensures View().Valid()
    {
    }

    function Mode3Start(): nat
      reads this`startupLine, this`lcdPhase
    {
      Mode3Dot(startupLine, lcdPhase)
    }

    function ReadableLy(): nat
      reads this`line, this`dot, this`lcdPhase
    {
      if line == 153 && dot >= 4 then 0
      else if lcdPhase == 0 && line < 153 && dot >= 452 then line + 1
      else line
    }

    predicate StatLevel(enables: u8)
      reads this`registers, this`mode, this`startupLine, this`dot, this`mode3EndDot, this`line, this`lycEqual
    {
      || (registers.LcdEnabled() && mode == HBlank && (startupLine || dot >= mode3EndDot) && Bit(enables, 0x08))
      || (registers.LcdEnabled() && mode == VBlank && Bit(enables, 0x10))
      || (registers.LcdEnabled() && (mode == OamScan || (line == VISIBLE_LINES && dot == 0)) && Bit(enables, 0x20))
      || (lycEqual && Bit(enables, 0x40))
    }

    constructor PostBoot()
      ensures Valid() && fresh(vram) && fresh(oam) && vram != oam && View() == PowerOn()
    {
      vram := new u8[0x2000](i => 0);
      oam := new u8[4 * OBJECTS](i => 0);
      registers := Registers(0x91, 0, 0, 0, 0, 0xff, 0xfc, 0xff, 0xff, 0, 0);
      mode, dot, line := OamScan, 0, 0;
      visibleHblankDot, mode3EndDot := MODE2_DOTS + BASE_MODE3_DOTS, MODE2_DOTS + BASE_MODE3_DOTS;
      statLineHigh, lycEqual, startupLine, lcdPhase := false, true, false, 0;
      windowLine, blankFirstFrame := 0, false;
      framebuffer := WhiteFrame();
      pendingFrame, nextSequence, selectedSprites, rowsStored := None, 1, [], 0;
    }

    // ---- STAT and LYC ----

    method EvaluateStatWith(enables: u8) returns (effects: Effects)
      modifies this`statLineHigh
      ensures ScanView() == old(ScanView()).(high := old(ScanView()).Level(registers, enables))
      ensures effects == Effects(false, !old(ScanView()).high && ScanView().high)
    {
      var level := StatLevel(enables);
      var rising := level && !statLineHigh;
      statLineHigh := level;
      effects := Effects(false, rising);
    }

    method EvaluateStat() returns (effects: Effects)
      modifies this`statLineHigh
      ensures ScanView() == old(ScanView()).Evaluated(registers)
      ensures effects == Effects(false, !old(ScanView()).high && ScanView().high)
    {
      hide Scan.Level;
      effects := EvaluateStatWith(registers.stat);
    }

    method UpdateLycComparison()
      modifies this`lycEqual
      ensures ScanView() == old(ScanView()).Compared(registers)
    {
      lycEqual := ReadableLy() == registers.lyc;
    }

    // ---- Drawing ----

    // What the current line is drawn from, and the objects that would be selected for it now.
    ghost predicate Sees(v: Video, selection: seq<Sprite>)
      requires Wired()
      reads this`registers, this`windowLine, this`selectedSprites, this`line, vram, oam
    {
      && v == Video(vram[..], registers, windowLine, selectedSprites)
      && selection == SelectSprites(oam[..], registers, line)
    }

    method StoreScanline(ghost v: Video)
      requires Wired() && DistinctIndices(selectedSprites) && line < VISIBLE_LINES
      requires v == Video(vram[..], registers, windowLine, selectedSprites)
      modifies this`framebuffer, this`windowLine
      ensures FilmView() == Exposed(old(FilmView()), v, line)
    {
      hide Bit, RowRule, DistinctIndices, RowStored, Painted;
      var row := RenderScanline(Video(vram[..], registers, windowLine, selectedSprites), line);
      if !blankFirstFrame {
        ghost var before := framebuffer;
        RowFits(v, line, row);
        framebuffer := CopyRow(framebuffer, line * SCREEN_WIDTH, row.pixels);
        RowIsPainted(v, line, before, framebuffer, row);
      }
      if row.windowDrawn {
        windowLine := (windowLine + 1) % 0x100;
      }
    }

    static lemma RowFits(v: Video, line: u8, row: RenderedRow)
      requires line < VISIBLE_LINES && RowRule(v, line, row)
      ensures line * SCREEN_WIDTH + |row.pixels| <= FRAME_PIXELS
    {
    }

    method PublishFrame()
      modifies this`framebuffer, this`blankFirstFrame, this`pendingFrame, this`nextSequence
      ensures FilmView() == Published(old(FilmView()))
    {
      if blankFirstFrame {
        framebuffer := WhiteFrame();
        blankFirstFrame := false;
      }
      pendingFrame := Some(Frame(nextSequence, framebuffer));
      nextSequence := nextSequence + 1;
    }

    // ---- One dot ----

    // The fixed dots at which the comparison or the level is sampled.
    method TickSamplePoints() returns (effects: Effects)
      modifies this`mode, this`lycEqual, this`statLineHigh
      ensures ScanView() == old(ScanView()).Sampled(registers)
      ensures effects == Effects(false, !old(ScanView()).high && ScanView().high)
    {
      hide Scan.Level, Scan.ReadableLy;
      effects := NO_EFFECTS;
      if line == 153 && dot == 4 {
        UpdateLycComparison();
        var e := EvaluateStat();
        effects := effects.Union(e);
      }
      if line == VISIBLE_LINES && dot == 1 {
        var e := EvaluateStat();
        effects := effects.Union(e);
      }
      if !startupLine && line < VISIBLE_LINES && lcdPhase != 0 && dot == lcdPhase {
        mode := OamScan;
        UpdateLycComparison();
        var e := EvaluateStat();
        effects := effects.Union(e);
      }
    }

    // The part of a dot that follows drawing through a visible line.
    method TickVisible(ghost v: Video, ghost selection: seq<Sprite>) returns (effects: Effects)
      requires Wired() && DistinctIndices(selectedSprites) && Sees(v, selection)
      modifies this`mode, this`selectedSprites, this`mode3EndDot, this`visibleHblankDot, this`statLineHigh,
               this`framebuffer, this`windowLine, this`rowsStored
      ensures ScanView() ==
              old(ScanView()).Drawn(registers, Mode3Length(registers, line, selection),
                                    Penalty(registers, line, selection) > 0)
      ensures selectedSprites == if old(ScanView()).StartsHere() then selection else old(selectedSprites)
      ensures FilmView() == if old(ScanView()).DrawsHere() then Exposed(old(FilmView()), v, line) else old(FilmView())
      ensures effects == Effects(false, !old(ScanView()).high && ScanView().high)
    {
      hide Scan.Level, Mode3Dot, Exposed, Mode3Length, Penalty, SelectSprites, DistinctIndices;
      effects := NO_EFFECTS;
      if line >= VISIBLE_LINES {
        return;
      }
      if dot == Mode3Start() {
        StartDrawing(selection);
        effects := EvaluateStat();
      } else if dot == visibleHblankDot {
        FinishDrawing(v);
        effects := EvaluateStat();
      } else if dot == mode3EndDot {
        effects := EvaluateStat();
      }
    }

    // The length of mode 3 is settled where it begins.
    method StartDrawing(ghost selection: seq<Sprite>)
      requires Wired() && line < VISIBLE_LINES && dot == Mode3Start()
      requires selection == SelectSprites(oam[..], registers, line)
      modifies this`mode, this`selectedSprites, this`mode3EndDot, this`visibleHblankDot
      ensures selectedSprites == selection
      ensures var end := dot + Mode3Length(registers, line, selection);
              ScanView() == old(ScanView()).(mode := Drawing, end := end,
                                             hblank := end - (if Penalty(registers, line, selection) > 0 then 1 else 0))
    {
      hide SelectSprites, Penalty, Mode3Length, Mode3Dot;
      mode := Drawing;
      selectedSprites := SelectSprites(oam[..], registers, line);
      mode3EndDot := Mode3Start() + Mode3Length(registers, line, selectedSprites);
      var penalty := SpriteMode3Penalty(registers, line, selectedSprites);
      visibleHblankDot := if penalty == 0 then mode3EndDot else mode3EndDot - 1;
    }

    method FinishDrawing(ghost v: Video)
      requires Wired() && DistinctIndices(selectedSprites) && line < VISIBLE_LINES
      requires v == Video(vram[..], registers, windowLine, selectedSprites)
      modifies this`mode, this`framebuffer, this`windowLine, this`rowsStored
      ensures ScanView() == old(ScanView()).(mode := HBlank, rows := old(rowsStored) + 1)
      ensures FilmView() == Exposed(old(FilmView()), v, line)
    {
      hide Exposed, DistinctIndices;
      StoreScanline(v);
      rowsStored := rowsStored + 1;
      mode := HBlank;
    }

    // The part of a dot that ends a line.
    method NextLine() returns (effects: Effects)
      requires Wired()
      modifies this
      ensures registers == old(registers) && ScanView() == old(ScanView()).Ended(registers)
      ensures selectedSprites ==
              if line < VISIBLE_LINES then SelectSprites(oam[..], registers, line) else old(selectedSprites)
      ensures FilmView() == if line == VISIBLE_LINES then Published(old(FilmView()))
                            else if line == 0 then old(FilmView()).(windowLine := 0) else old(FilmView())
      ensures effects == Effects(line == VISIBLE_LINES, !old(ScanView()).high && ScanView().high)
    {
      hide Scan.Level, SelectSprites, Published, FilmView;
      var vblank := StepLine();
      if lcdPhase == 0 || line >= VISIBLE_LINES {
        UpdateLycComparison();
      } else if ReadableLy() != registers.lyc {
        lycEqual := false;
      }
      var e := EvaluateStat();
      effects := Effects(vblank, e.stat);
    }

    // The line counter, the mode and the frame.
    method StepLine() returns (vblank: bool)
      requires Wired()
      modifies this`dot, this`line, this`startupLine, this`rowsStored, this`mode, this`windowLine, this`selectedSprites,
               this`mode3EndDot, this`visibleHblankDot, this`framebuffer, this`blankFirstFrame, this`pendingFrame,
               this`nextSequence
      ensures ScanView() == old(ScanView()).NextLine() && vblank == (line == VISIBLE_LINES)
      ensures selectedSprites ==
              if line < VISIBLE_LINES then SelectSprites(oam[..], registers, line) else old(selectedSprites)
      ensures FilmView() == if line == VISIBLE_LINES then Published(old(FilmView()))
                            else if line == 0 then old(FilmView()).(windowLine := 0) else old(FilmView())
    {
      hide SelectSprites, Published, Scan.AtLine;
      LineEntered(ScanView(), (line + 1) % LINES_PER_FRAME);
      EnterLine((line + 1) % LINES_PER_FRAME);
      vblank := line == VISIBLE_LINES;
      if vblank {
        PublishFrame();
      } else if line == 0 {
        windowLine := 0;
      }
    }

    static lemma LineEntered(c: Scan, next: LineNumber)
      ensures c.AtLine(next).line == next
    {
    }

    method EnterLine(next: LineNumber)
      requires Wired()
      modifies this`dot, this`line, this`startupLine, this`rowsStored, this`mode, this`selectedSprites,
               this`mode3EndDot, this`visibleHblankDot
      ensures ScanView() == old(ScanView()).AtLine(next)
      ensures selectedSprites ==
              if next < VISIBLE_LINES then SelectSprites(oam[..], registers, next) else old(selectedSprites)
    {
      hide SelectSprites;
      dot, startupLine, rowsStored, line := 0, false, 0, next;
      if line == VISIBLE_LINES {
        mode := VBlank;
      } else if line < VISIBLE_LINES {
        mode := if lcdPhase == 0 then OamScan else HBlank;
        selectedSprites := SelectSprites(oam[..], registers, line);
        mode3EndDot := MODE2_DOTS + BASE_MODE3_DOTS;
        visibleHblankDot := mode3EndDot;
      }
    }

    method NextDot()
      modifies this`dot
      ensures ScanView() == old(ScanView()).(dot := old(ScanView()).dot + 1)
    {
      dot := dot + 1;
    }

    // A dot up to the end of its line.
    method TickWithinLine(ghost v: Video, ghost selection: seq<Sprite>) returns (effects: Effects)
      requires Valid() && registers.LcdEnabled() && Sees(v, selection)
      modifies this`dot, this`mode, this`lycEqual, this`statLineHigh, this`selectedSprites, this`mode3EndDot,
               this`visibleHblankDot, this`framebuffer, this`windowLine, this`rowsStored
      ensures ScanView() ==
              old(ScanView()).Within(registers, Mode3Length(registers, line, selection),
                                     Penalty(registers, line, selection) > 0)
      ensures selectedSprites == if old(ScanView()).StartsNext() then selection else old(selectedSprites)
      ensures FilmView() == if old(ScanView()).DrawsNext() then Exposed(old(FilmView()), v, line) else old(FilmView())
      ensures effects == Effects(false, !old(ScanView()).high && ScanView().high)
    {
      hide Scan.Sampled, Scan.Drawn, Mode3Dot, Exposed, Mode3Length, Penalty, SelectSprites, DistinctIndices,
           Scan.InLine, Scan.Level, FilmView, ScanView;
      OneEvaluation(ScanView(), registers, Mode3Length(registers, line, selection),
                    Penalty(registers, line, selection) > 0);
      NextDot();
      SampledFields(ScanView(), registers);
      var early := TickSamplePoints();
      var drawing := TickVisible(v, selection);
      effects := early.Union(drawing);
    }

    // One dot. The level is re-evaluated at most once, and always when it may have changed.
    method TickOne() returns (effects: Effects)
      requires Valid() && registers.LcdEnabled()
      modifies this
      ensures Valid() && View() == Dot(old(View()))
      ensures effects == Effects(old(View().PublishesNext()), old(Rises(View())))
    {
      ghost var s := View();
      ghost var selection := SelectSprites(oam[..], registers, line);
      DotInTwoParts(s);
      DotKeepsValid(s);
      hide Scan.Valid, Scan.InLine, Scan.Within, Scan.Ended, Scan.Level, Dot, Exposed, Published, Mode3Length, Penalty,
           SelectSprites, DistinctIndices;
      var within := TickWithinLine(s.Line(), selection);
      var ending := NO_EFFECTS;
      if dot == DOTS_PER_LINE {
        ending := NextLine();
      }
      effects := within.Union(ending);
    }

    // n dots: the value they make of the old one, LcdStat exactly if the level rises across one of them,
    // and VBlank exactly if one of them enters line 144. With the LCD off nothing happens.
    method Tick(tCycles: nat) returns (effects: Effects)
      requires Valid()
      modifies this
      ensures Valid() && View() == Ran(old(View()), tCycles) && registers == old(registers)
      ensures registers.LcdEnabled() ==>
                && (effects.stat <==> old(RisesWithin(View(), tCycles)))
                && (effects.vblank <==> VBlankEntries(old(ScanView().Position()), tCycles) > 0)
                && ScanView().Position() == (old(ScanView().Position()) + tCycles) % DOTS_PER_FRAME
                && nextSequence == old(nextSequence) + VBlankEntries(old(ScanView().Position()), tCycles)
      ensures !registers.LcdEnabled() ==> effects == NO_EFFECTS && View() == old(View())
    {
      hide Valid, State.Valid, Ran, VBlankEntries, RisesWithin, Scan.Position, ScanView;
      ValueIsValid();
      RanAdvances(View(), tCycles);
      if registers.LcdEnabled() {
        effects := TickDots(tCycles, View());
      } else {
        effects := NO_EFFECTS;
      }
    }

    method TickDots(tCycles: nat, ghost s: State) returns (effects: Effects)
      requires Valid() && View() == s && s.Valid() && s.Enabled()
      modifies this
      ensures Valid() && View() == Ran(s, tCycles)
      ensures effects.stat <==> RisesWithin(s, tCycles)
      ensures effects.vblank <==> VBlankEntries(s.scan.Position(), tCycles) > 0
    {
      hide Valid, State.Valid, Rises, Dot, Ran, VBlankEntries, RisesWithin, Scan.Position, ScanView, FilmView,
           State.PublishesNext;
      NoDotsYet(s);
      effects := NO_EFFECTS;
      for i := 0 to tCycles
        invariant Valid() && View() == Ran(s, i)
        invariant effects.stat <==> RisesWithin(s, i)
        invariant effects.vblank <==> VBlankEntries(s.scan.Position(), i) > 0
      {
        OneMoreDot(s, i);
        var e := TickOne();
        effects := effects.Union(e);
      }
    }

    // ---- CPU access ----

    function AccessHblankDot(): nat
      reads this
    {
      if lcdPhase == 0 then visibleHblankDot else mode3EndDot
    }

    predicate VramAccessible()
      reads this
    {
      || !registers.LcdEnabled() || line >= VISIBLE_LINES
      || (if startupLine then dot < Mode3Start() || dot >= AccessHblankDot()
          else dot < MODE2_DOTS || dot >= AccessHblankDot())
    }

    predicate VramWritable()
      reads this
      ensures VramWritable() == ScanView().VramWritable(registers)
    {
      VramAccessible() || (registers.LcdEnabled() && !startupLine && line < VISIBLE_LINES && dot == MODE2_DOTS)
    }

    predicate OamAccessible()
      reads this
    {
      || !registers.LcdEnabled() || line >= VISIBLE_LINES
      || (if startupLine then dot < Mode3Start() || dot >= AccessHblankDot() else dot >= AccessHblankDot())
    }

    predicate OamWritable()
      reads this
      ensures OamWritable() == ScanView().OamWritable(registers)
    {
      OamAccessible()
      || (registers.LcdEnabled() && !startupLine && line < VISIBLE_LINES && (dot < 4 || dot == MODE2_DOTS))
    }

    // Any CPU write.
    method Write(address: u16, value: u8) returns (effects: Effects)
      requires Valid() && vram != oam
      modifies this, vram, oam
      ensures Valid() && View() == Written(old(View()), address, value)
      ensures effects == Effects(false, old(WriteRises(View(), address, value)))
      ensures registers == WriteRegister(old(registers), address, value)
      ensures vram[..] == if 0x8000 <= address < 0xa000 && old(VramWritable())
                          then old(vram[..])[address - 0x8000 := value] else old(vram[..])
      ensures oam[..] == if 0xfe00 <= address < 0xfea0 && old(OamWritable())
                         then old(oam[..])[address - 0xfe00 := value] else old(oam[..])
    {
      WrittenKeepsValid(View(), address, value);
      hide Scan.Valid, Scan.Level, Scan.VramWritable, Scan.OamWritable, DistinctIndices, LcdcWritten, StatEnables;
      effects := NO_EFFECTS;
      if 0x8000 <= address < 0xa000 && VramWritable() {
        vram[address - 0x8000] := value;
      } else if 0xfe00 <= address < 0xfea0 && OamWritable() {
        oam[address - 0xfe00] := value;
      } else if address == 0xff40 {
        effects := WriteLcdc(value);
      } else if address == 0xff41 {
        effects := WriteStat(value);
      } else if address == 0xff45 {
        effects := WriteLyc(value);
      } else {
        registers := WriteRegister(registers, address, value);
      }
    }

    // The write first enables every source for an instant, then the ones asked for.
    method WriteStat(value: u8) returns (effects: Effects)
      requires Wired()
      modifies this`registers, this`statLineHigh
      ensures View() == Written(old(View()), 0xff41, value)
      ensures effects == Effects(false, old(WriteRises(View(), 0xff41, value)))
    {
      hide Scan.Level, Scan.VramWritable, Scan.OamWritable, StatEnables;
      ghost var c, r := ScanView(), registers.(stat := StatEnables(value));
      var transient := EvaluateStatWith(0x78);
      LevelIgnoresCache(c, statLineHigh, r, r.stat);
      registers := registers.(stat := StatEnables(value));
      var e := EvaluateStat();
      effects := transient.Union(e);
    }

    method WriteLyc(value: u8) returns (effects: Effects)
      requires Wired()
      modifies this`registers, this`lycEqual, this`statLineHigh
      ensures View() == Written(old(View()), 0xff45, value)
      ensures effects == Effects(false, old(WriteRises(View(), 0xff45, value)))
    {
      hide Scan.Level, Scan.VramWritable, Scan.OamWritable;
      registers := registers.(lyc := value);
      if registers.LcdEnabled() {
        UpdateLycComparison();
      }
      effects := EvaluateStat();
    }

    method WriteLcdc(value: u8) returns (effects: Effects)
      requires Wired()
      modifies this
      ensures View() == LcdcWritten(old(View()), value)
      ensures effects == Effects(false, old(WriteRises(View(), 0xff40, value)))
    {
      hide Scan.Level, Scan.VramWritable, Scan.OamWritable, Bit;
      var wasEnabled := registers.LcdEnabled();
      registers := registers.(lcdc := value);
      var enabled := registers.LcdEnabled();
      if wasEnabled && !enabled {
        SwitchOff();
        return NO_EFFECTS;
      }
      if !wasEnabled && enabled {
        SwitchOn();
      }
      effects := EvaluateStat();
    }

    // The position from which the scan restarts.
    method Restart(from: nat, startup: bool, phase: nat)
      modifies this`mode, this`dot, this`line, this`startupLine, this`lcdPhase
      ensures ScanView() == old(ScanView()).(mode := HBlank, dot := from, line := 0, startup := startup, phase := phase)
    {
      mode, dot, line := HBlank, from, 0;
      startupLine, lcdPhase := startup, phase;
    }

    method BlankFrame()
      modifies this`windowLine, this`blankFirstFrame
      ensures FilmView() == old(FilmView()).(windowLine := 0, blank := true)
    {
      windowLine, blankFirstFrame := 0, true;
    }

    method ForgetMeasures()
      modifies this`mode3EndDot, this`visibleHblankDot, this`rowsStored
      ensures ScanView() == old(ScanView()).(end := DEFAULT_HBLANK_DOT, hblank := DEFAULT_HBLANK_DOT, rows := 0)
    {
      mode3EndDot, rowsStored := MODE2_DOTS + BASE_MODE3_DOTS, 0;
      visibleHblankDot := mode3EndDot;
    }

    method SwitchOff()
      modifies this`mode, this`dot, this`line, this`windowLine, this`startupLine, this`lcdPhase, this`selectedSprites,
               this`visibleHblankDot
      ensures ScanView() == old(ScanView()).SwitchedOff() && selectedSprites == []
      ensures FilmView() == old(FilmView()).(windowLine := 0)
    {
      Restart(0, false, 0);
      windowLine, selectedSprites := 0, [];
      visibleHblankDot := MODE2_DOTS + BASE_MODE3_DOTS;
    }

    method SwitchOn()
      modifies this`mode, this`dot, this`line, this`windowLine, this`startupLine, this`lcdPhase, this`selectedSprites,
               this`visibleHblankDot, this`mode3EndDot, this`blankFirstFrame, this`lycEqual, this`rowsStored
      ensures ScanView() == old(ScanView()).SwitchedOn(registers) && selectedSprites == []
      ensures FilmView() == old(FilmView()).(windowLine := 0, blank := true)
    {
      hide Scan.Compared, ScanView, FilmView;
      Restart(8, true, 2);
      BlankFrame();
      ForgetMeasures();
      selectedSprites := [];
      UpdateLycComparison();
    }

    method DmaWriteOam(index: u8, value: u8)
      requires Valid() && vram != oam
      modifies oam
      ensures Valid() && View() == Copied(old(View()), index, value)
      ensures oam[..] == if index < 4 * OBJECTS then old(oam[..])[index := value] else old(oam[..])
    {
      if index < oam.Length {
        oam[index] := value;
      }
    }

    method TakeFrame() returns (frame: Option<Frame>)
      requires Valid()
      modifies this`pendingFrame
      ensures Valid() && View() == Taken(old(View())) && frame == old(pendingFrame)
    {
      frame := pendingFrame;
      pendingFrame := None;
    }
  }

  lemma NoDotsYet(s: State)
    ensures Ran(s, 0) == s && !RisesWithin(s, 0) && VBlankEntries(s.scan.Position(), 0) == 0
  {
  }

  // One more dot of a run, as far as its requests go.
  lemma OneMoreDot(s: State, i: nat)
    requires s.Valid() && s.Enabled()
    ensures Ran(s, i + 1) == Dot(Ran(s, i))
    ensures RisesWithin(s, i + 1) <==> RisesWithin(s, i) || Rises(Ran(s, i))
    ensures VBlankEntries(s.scan.Position(), i + 1)
            == VBlankEntries(s.scan.Position(), i) + (if Ran(s, i).PublishesNext() then 1 else 0)
    ensures VBlankEntries(s.scan.Position(), i) >= 0 && Ran(s, i).registers == s.registers
  {
    hide State.Valid, Dot, RisesWithin, Rises, Scan.Position, VBlankEntries, State.PublishesNext;
    RanAdvances(s, i);
    EntriesAreCounted(s.scan.Position(), i);
    OneMoreRise(s, i);
    DotMoves(Ran(s, i));
    NextEntry(s.scan.Position(), i);
  }

  lemma EntriesAreCounted(from: nat, n: nat)
    ensures VBlankEntries(from, n) >= 0
  {
  }

  // ---- Runs ----

  // What the rest of the machine can do to the video device.
  datatype Access = Dots(n: nat) | Cpu(address: u16, value: u8) | Dma(index: u8, value: u8) | Take

  function EventsOf(access: Access): seq<Event> {
    match access
    case Dots(n) => seq(n, i => DotPassed)
    case Cpu(address, value) => [CpuWrite(address, value)]
    case Dma(index, value) => [DmaByte(index, value)]
    case Take => [FrameTaken]
  }

  function Events(accesses: seq<Access>): seq<Event> {
    if accesses == [] then []
    else Events(accesses[..|accesses| - 1]) + EventsOf(accesses[|accesses| - 1])
  }

  // The device follows the run of its events from power-on whatever the accesses, so the frame it holds
  // is the last one published, numbered in order and white after an LCD start or else in each of its
  // 144 rows what the pixel rule demands of the video state at the dot that drew it.
  method Run(accesses: seq<Access>) returns (p: Ppu)
    ensures fresh(p) && p.Valid() && p.View() == At(Events(accesses), |Events(accesses)|)
    ensures p.registers.LcdEnabled() ==> p.statLineHigh == p.StatLevel(p.registers.stat)
    ensures var events := Events(accesses);
            && (p.pendingFrame.Some? <==> exists k :: 0 <= k < |events| && PublishedLast(events, k, |events|))
            && forall k :: 0 <= k < |events| && PublishedLast(events, k, |events|) ==>
                 p.pendingFrame.Some? && IsFrame(events, k, p.pendingFrame.value)
  {
    p := new Ppu.PostBoot();
    hide Ppu.Valid, Dot, Written, Copied, Taken;
    assert accesses[..0] == [];
    for i := 0 to |accesses|
      invariant fresh(p) && fresh(p.vram) && fresh(p.oam) && p.vram != p.oam && p.Valid()
      invariant p.View() == At(Events(accesses[..i]), |Events(accesses[..i])|)
    {
      ghost var s := p.View();
      match accesses[i] {
        case Dots(n) => var effects := p.Tick(n);
        case Cpu(address, value) => var effects := p.Write(address, value);
        case Dma(index, value) => p.DmaWriteOam(index, value);
        case Take => var frame := p.TakeFrame();
      }
      OneMoreAccess(accesses, i);
    }
    assert accesses[..|accesses|] == accesses;
    PendingFrame(Events(accesses), |Events(accesses)|);
    CachedLevel(p);
  }

  lemma CachedLevel(p: Ppu)
    requires p.Valid()
    ensures p.registers.LcdEnabled() ==> p.statLineHigh == p.StatLevel(p.registers.stat)
  {
  }

  // The states of a run depend only on the events so far.
  lemma {:induction false} AtPrefix(before: seq<Event>, after: seq<Event>, k: nat)
    requires k <= |before|
    ensures At(before + after, k) == At(before, k)
  {
    hide Step;
    if k > 0 {
      AtPrefix(before, after, k - 1);
    }
  }

  lemma {:induction false} AtDots(before: seq<Event>, n: nat)
    ensures At(before + seq(n, i => DotPassed), |before| + n) == Ran(At(before, |before|), n)
  {
    hide Dot;
    var events := before + seq(n, i => DotPassed);
    if n == 0 {
      AtPrefix(before, [], |before|);
      assert events == before + [];
    } else {
      AtDots(before, n - 1);
      var fewer := before + seq(n - 1, i => DotPassed);
      assert events == fewer + [DotPassed];
      AtPrefix(fewer, [DotPassed], |fewer|);
    }
  }

  ghost function Accessed(s: State, access: Access): State {
    match access
    case Dots(n) => Ran(s, n)
    case Cpu(address, value) => Written(s, address, value)
    case Dma(index, value) => Copied(s, index, value)
    case Take => Taken(s)
  }

  lemma {:induction false} AtAccess(before: seq<Event>, access: Access)
    ensures var after := before + EventsOf(access); At(after, |after|) == Accessed(At(before, |before|), access)
  {
    hide Ran, Written, Copied, Taken, Dot;
    if access.Dots? {
      AtDots(before, access.n);
    } else {
      var after := before + EventsOf(access);
      AtPrefix(before, EventsOf(access), |before|);
      assert |after| == |before| + 1 && after[|before|] == EventsOf(access)[0];
    }
  }

  lemma {:induction false} OneMoreAccess(accesses: seq<Access>, i: nat)
    requires i < |accesses|
    ensures var before, after := Events(accesses[..i]), Events(accesses[..i + 1]);
            At(after, |after|) == Accessed(At(before, |before|), accesses[i])
  {
    hide Accessed, At;
    assert accesses[..i + 1][..i] == accesses[..i];
    AtAccess(Events(accesses[..i]), accesses[i]);
  }
}
