// crates/gb-core/src/ppu/timing.rs and the register half of ppu/mod.rs, on values: what one dot and
// one access make of the whole video device, and the invariant they keep.
module Dots {
  import opened Words
  import opened Sprites
  import opened Rendering

  const DOTS_PER_LINE := 456
  const VISIBLE_LINES := 144
  const LINES_PER_FRAME := 154
  const DOTS_PER_FRAME := 70224
  const VBLANK_POSITION := 65664 // VISIBLE_LINES * DOTS_PER_LINE
  const MODE2_DOTS := 80
  const STARTUP_MODE3_DOT := 84
  const BASE_MODE3_DOTS := 172
  const LONGEST_MODE3 := 289
  const DEFAULT_HBLANK_DOT := 252
  const FRAME_PIXELS := 23040

  datatype LcdMode = HBlank | VBlank | OamScan | Drawing

  // Interrupts requested by one operation.
  datatype Effects = Effects(vblank: bool, stat: bool) {
    function Union(other: Effects): Effects {
      Effects(vblank || other.vblank, stat || other.stat)
    }
  }

  const NO_EFFECTS := Effects(false, false)

  type LineNumber = n: nat | n < LINES_PER_FRAME

  type Picture = p: seq<ColorNumber> | |p| == FRAME_PIXELS witness seq<ColorNumber>(23040, (i: nat) => 0)

  datatype Frame = Frame(sequence: nat, pixels: Picture)

  function WhiteFrame(): (picture: Picture)
    ensures forall p :: 0 <= p < FRAME_PIXELS ==> picture[p] == 0
  {
    seq(FRAME_PIXELS, i => 0)
  }

  // The picture being drawn and the frame published last.
  datatype Film = Film(picture: Picture, blank: bool, windowLine: u8, pending: Option<Frame>, next: nat)

  function Mode3Dot(startup: bool, phase: nat): (start: nat)
    ensures MODE2_DOTS <= start <= STARTUP_MODE3_DOT + phase
  {
    if startup then STARTUP_MODE3_DOT else MODE2_DOTS + phase
  }

  // Where the scan is and what the STAT logic has cached; `rows` counts the scanlines stored since the
  // line began.
  datatype Scan = Scan(mode: LcdMode, dot: nat, line: LineNumber, hblank: nat, end: nat, high: bool, lycEqual: bool,
                       startup: bool, phase: nat, rows: nat)
  {
    function Position(): nat { line * DOTS_PER_LINE + dot }

    function Mode3Start(): nat { Mode3Dot(startup, phase) }

    function ReadableLy(): nat {
      if line == 153 && dot >= 4 then 0
      else if phase == 0 && line < 153 && dot >= 452 then line + 1
      else line
    }

    // The STAT line as the given enables and the position define it.
    predicate Level(r: Registers, enables: u8) {
      || (r.LcdEnabled() && mode == HBlank && (startup || dot >= end) && Bit(enables, 0x08))
      || (r.LcdEnabled() && mode == VBlank && Bit(enables, 0x10))
      || (r.LcdEnabled() && (mode == OamScan || (line == VISIBLE_LINES && dot == 0)) && Bit(enables, 0x20))
      || (lycEqual && Bit(enables, 0x40))
    }

    function Evaluated(r: Registers): Scan {
      this.(high := Level(r, r.stat))
    }

    function Compared(r: Registers): Scan {
      this.(lycEqual := ReadableLy() == r.lyc)
    }

    // The fixed dots at which the comparison or the level is sampled.
    function Sampled(r: Registers): Scan {
      if line == 153 && dot == 4 then Compared(r).Evaluated(r)
      else if line == VISIBLE_LINES && dot == 1 then Evaluated(r)
      else if !startup && line < VISIBLE_LINES && phase != 0 && dot == phase then
        this.(mode := OamScan).Compared(r).Evaluated(r)
      else this
    }

    // The part of a dot that follows drawing through a visible line, given how long mode 3 takes if it
    // begins here and whether objects are part of that.
    function Drawn(r: Registers, length: nat, objects: bool): Scan
      requires length > 0
    {
      if line >= VISIBLE_LINES then this
      else if dot == Mode3Start() then
        this.(mode := Drawing, end := dot + length, hblank := dot + length - (if objects then 1 else 0)).Evaluated(r)
      else if dot == hblank then this.(mode := HBlank, rows := rows + 1).Evaluated(r)
      else if dot == end then Evaluated(r)
      else this
    }

    // A dot up to the end of its line.
    function Within(r: Registers, length: nat, objects: bool): Scan
      requires length > 0
    {
      this.(dot := dot + 1).Sampled(r).Drawn(r, length, objects)
    }

    function AtLine(next: LineNumber): Scan {
      var begun := this.(dot := 0, startup := false, rows := 0, line := next);
      if next == VISIBLE_LINES then begun.(mode := VBlank)
      else if next < VISIBLE_LINES then
        begun.(mode := if phase == 0 then OamScan else HBlank, end := DEFAULT_HBLANK_DOT, hblank := DEFAULT_HBLANK_DOT)
      else begun
    }

    // The line counter and the mode at the end of a line.
    function NextLine(): Scan {
      AtLine((line + 1) % LINES_PER_FRAME)
    }

    // After an LCD start the comparison can only be cleared here on visible lines.
    function Ended(r: Registers): Scan {
      var next := NextLine();
      if phase == 0 || next.line >= VISIBLE_LINES then next.Compared(r).Evaluated(r)
      else next.(lycEqual := lycEqual && next.ReadableLy() == r.lyc).Evaluated(r)
    }

    function Moved(r: Registers, length: nat, objects: bool): Scan
      requires length > 0
    {
      var within := Within(r, length, objects);
      if within.dot == DOTS_PER_LINE then within.Ended(r) else within
    }

    predicate Visible() { line < VISIBLE_LINES }

    // Drawing starts or ends at this very dot.
    predicate StartsHere() { Visible() && dot == Mode3Start() }

    predicate DrawsHere() { Visible() && dot == hblank && dot != Mode3Start() }

    predicate StartsNext() { Visible() && dot + 1 == Mode3Start() }

    // The next dot ends the drawing of the current line.
    predicate DrawsNext() { Visible() && dot + 1 == hblank && dot + 1 != Mode3Start() }

    // The next dot is one of those at which the level is sampled.
    predicate EvaluatesNext() {
      || (Visible() && dot + 1 in {Mode3Start(), hblank, end})
      || (Visible() && !startup && phase != 0 && dot + 1 == phase)
      || (line == VISIBLE_LINES && dot == 0) || (line == 153 && dot == 3)
    }

    predicate EndsNext() { dot + 1 == DOTS_PER_LINE }

    // The mode at a position, given where this line's drawing starts and where it becomes HBlank.
    function ModeHere(): LcdMode {
      if line >= VISIBLE_LINES then VBlank
      else if dot < Mode3Start() then if startup || dot < phase then HBlank else OamScan
      else if dot < hblank then Drawing
      else HBlank
    }

    // Everything that holds of the position while the LCD is on, up to the instant at the end of a
    // line before the next one begins. A line stores its scanline exactly once.
    predicate InLine() {
      && dot <= DOTS_PER_LINE && phase in {0, 2}
      && (startup ==> line == 0 && phase == 2)
      && mode == ModeHere()
      && (Visible() ==>
            if dot < Mode3Start() then hblank == end == DEFAULT_HBLANK_DOT && rows == 0
            else
              && Mode3Start() + BASE_MODE3_DOTS <= end <= Mode3Start() + LONGEST_MODE3
              && Mode3Start() < hblank <= end <= hblank + 1
              && rows == if dot >= hblank then 1 else 0)
    }

    // While the LCD is on, the cached STAT line is the level the registers and the position define,
    // even though it is only re-evaluated on selected dots.
    predicate Valid(r: Registers) {
      r.LcdEnabled() ==> InLine() && dot < DOTS_PER_LINE && high == Level(r, r.stat)
    }

    function SwitchedOff(): Scan {
      this.(mode := HBlank, dot := 0, line := 0, startup := false, phase := 0, hblank := DEFAULT_HBLANK_DOT)
    }

    // Where the dot counter resumes after the LCD was off.
    function SwitchedOn(r: Registers): Scan {
      this.(mode := HBlank, dot := 8, line := 0, startup := true, phase := 2, rows := 0,
            end := DEFAULT_HBLANK_DOT, hblank := DEFAULT_HBLANK_DOT).Compared(r)
    }

    // ---- CPU access to the memories ----

    function AccessHblankDot(): nat {
      if phase == 0 then hblank else end
    }

    predicate VramAccessible(r: Registers) {
      || !r.LcdEnabled() || line >= VISIBLE_LINES
      || (if startup then dot < Mode3Start() || dot >= AccessHblankDot()
          else dot < MODE2_DOTS || dot >= AccessHblankDot())
    }

    predicate VramWritable(r: Registers) {
      VramAccessible(r) || (r.LcdEnabled() && !startup && line < VISIBLE_LINES && dot == MODE2_DOTS)
    }

    predicate OamAccessible(r: Registers) {
      || !r.LcdEnabled() || line >= VISIBLE_LINES
      || (if startup then dot < Mode3Start() || dot >= AccessHblankDot() else dot >= AccessHblankDot())
    }

    predicate OamWritable(r: Registers) {
      OamAccessible(r) || (r.LcdEnabled() && !startup && line < VISIBLE_LINES && (dot < 4 || dot == MODE2_DOTS))
    }
  }

  // ---- What is drawn ----

  // Length of mode 3, whatever the registers and the selected objects.
  function Mode3Length(r: Registers, line: u8, selected: seq<Sprite>): (n: nat)
    requires |selected| <= MAX_PER_LINE
    ensures BASE_MODE3_DOTS <= n <= LONGEST_MODE3
    ensures Penalty(r, line, selected) > 0 ==> n > BASE_MODE3_DOTS + 1
  {
    PenaltyBounds(r, line, selected);
    var fine := r.scx % 8;
    var window := if !r.WindowVisible(line) then 0 else if r.wx == 0 && fine != 0 then 5 else 6;
    var length := BASE_MODE3_DOTS + fine + window + Penalty(r, line, selected);
    if length <= LONGEST_MODE3 then length else LONGEST_MODE3
  }

  // How long mode 3 of a line takes if it begins now, and whether objects are part of that.
  function LineLength(oam: Oam, r: Registers, line: LineNumber): (n: nat)
    ensures BASE_MODE3_DOTS <= n <= LONGEST_MODE3
  {
    Mode3Length(r, line, SelectSprites(oam, r, line))
  }

  predicate ObjectsCost(oam: Oam, r: Registers, line: LineNumber) {
    Penalty(r, line, SelectSprites(oam, r, line)) > 0
  }

  ghost function ShadeAt(v: Video, line: u8, picture: Picture, p: nat): ColorNumber
    requires p < FRAME_PIXELS
  {
    var x := p - line * SCREEN_WIDTH;
    if 0 <= x < SCREEN_WIDTH then PixelOf(v, line, x).shade else picture[p]
  }

  // A picture with one line drawn anew.
  ghost function Painted(v: Video, line: u8, picture: Picture): (painted: Picture)
    ensures forall p :: 0 <= p < FRAME_PIXELS ==> painted[p] == ShadeAt(v, line, picture, p)
  {
    seq(FRAME_PIXELS, (p: nat) requires p < FRAME_PIXELS => ShadeAt(v, line, picture, p))
  }

  // A frame that is to be blank keeps its picture.
  ghost function Exposed(f: Film, v: Video, line: u8): Film {
    Film(if f.blank then f.picture else Painted(v, line, f.picture), f.blank,
         if v.registers.WindowVisible(line) then (f.windowLine + 1) % 0x100 else f.windowLine, f.pending, f.next)
  }

  // The first frame after an LCD start is published white.
  function Published(f: Film): Film {
    var picture := if f.blank then WhiteFrame() else f.picture;
    Film(picture, false, f.windowLine, Some(Frame(f.next, picture)), f.next + 1)
  }

  // ---- The whole device ----

  datatype State = State(vram: Vram, oam: Oam, registers: Registers, scan: Scan, selected: seq<Sprite>, film: Film) {
    predicate Enabled() { registers.LcdEnabled() }

    // What the current line is drawn from.
    function Line(): Video {
      Video(vram, registers, film.windowLine, selected)
    }

    predicate DrawsNext() { Enabled() && scan.DrawsNext() }

    // The next dot enters line 144.
    predicate PublishesNext() { Enabled() && scan.EndsNext() && scan.line == VISIBLE_LINES - 1 }

    predicate Valid() {
      && DistinctIndices(selected) && scan.Valid(registers)
      && (film.pending.Some? ==> film.pending.value.sequence + 1 == film.next)
    }
  }

  function PowerOn(): State {
    State(seq(0x2000, i => 0), seq(4 * OBJECTS, i => 0), Registers(0x91, 0, 0, 0, 0, 0xff, 0xfc, 0xff, 0xff, 0, 0),
          Scan(OamScan, 0, 0, DEFAULT_HBLANK_DOT, DEFAULT_HBLANK_DOT, false, true, false, 0, 0), [],
          Film(WhiteFrame(), false, 0, None, 1))
  }

  // The scan after the next dot.
  function Advanced(s: State): Scan {
    s.scan.Moved(s.registers, LineLength(s.oam, s.registers, s.scan.line), ObjectsCost(s.oam, s.registers, s.scan.line))
  }

  // A row is stored for the current line, a publication ends line 143 and a frame ends with line 153.
  ghost function Filmed(s: State): Film {
    if s.DrawsNext() then Exposed(s.film, s.Line(), s.scan.line)
    else if s.PublishesNext() then Published(s.film)
    else if s.scan.EndsNext() && s.scan.line == LINES_PER_FRAME - 1 then s.film.(windowLine := 0)
    else s.film
  }

  // One dot.
  ghost function Dot(s: State): State {
    if !s.Enabled() then s
    else
      var next := Advanced(s);
      s.(scan := next, film := Filmed(s),
         selected := if s.scan.StartsNext() || (s.scan.EndsNext() && next.Visible())
                     then SelectSprites(s.oam, s.registers, next.line) else s.selected)
  }

  ghost predicate Rises(s: State) {
    !s.scan.high && Dot(s).scan.high
  }

  ghost function Ran(s: State, n: nat): State {
    if n == 0 then s else Dot(Ran(s, n - 1))
  }

  // LcdStat over n dots: the level rises across one of them.
  ghost predicate RisesWithin(s: State, n: nat) {
    exists i :: 0 <= i < n && Rises(Ran(s, i))
  }

  // ---- Accesses ----

  // The STAT register keeps only its four enable bits.
  function StatEnables(value: u8): u8 {
    value % 0x80 - value % 8
  }

  function WriteRegister(r: Registers, address: u16, value: u8): Registers {
    if address == 0xff40 then r.(lcdc := value)
    else if address == 0xff41 then r.(stat := StatEnables(value))
    else if address == 0xff42 then r.(scy := value)
    else if address == 0xff43 then r.(scx := value)
    else if address == 0xff45 then r.(lyc := value)
    else if address == 0xff46 then r.(dma := value)
    else if address == 0xff47 then r.(bgp := value)
    else if address == 0xff48 then r.(obp0 := value)
    else if address == 0xff49 then r.(obp1 := value)
    else if address == 0xff4a then r.(wy := value)
    else if address == 0xff4b then r.(wx := value)
    else r
  }

  function SwitchedOff(s: State): State {
    s.(scan := s.scan.SwitchedOff(), selected := [], film := s.film.(windowLine := 0))
  }

  function SwitchedOn(s: State): State {
    s.(scan := s.scan.SwitchedOn(s.registers), selected := [], film := s.film.(windowLine := 0, blank := true))
  }

  function Evaluated(s: State): State {
    s.(scan := s.scan.Evaluated(s.registers))
  }

  function LcdcWritten(s: State, value: u8): State {
    var t := s.(registers := s.registers.(lcdc := value));
    if s.Enabled() && !t.Enabled() then SwitchedOff(t)
    else if !s.Enabled() && t.Enabled() then Evaluated(SwitchedOn(t))
    else Evaluated(t)
  }

  function Written(s: State, address: u16, value: u8): State {
    if 0x8000 <= address < 0xa000 && s.scan.VramWritable(s.registers) then
      s.(vram := s.vram[address - 0x8000 := value])
    else if 0xfe00 <= address < 0xfea0 && s.scan.OamWritable(s.registers) then
      s.(oam := s.oam[address - 0xfe00 := value])
    else if address == 0xff40 then LcdcWritten(s, value)
    else
      var t := s.(registers := WriteRegister(s.registers, address, value));
      if address == 0xff41 then Evaluated(t)
      else if address == 0xff45 && s.Enabled() then Evaluated(t.(scan := t.scan.Compared(t.registers)))
      else if address == 0xff45 then Evaluated(t)
      else t
  }

  // A STAT write first enables every source for an instant, then the ones asked for.
  predicate WriteRises(s: State, address: u16, value: u8) {
    if address == 0xff41 then
      var transient := s.scan.Level(s.registers, 0x78);
      (!s.scan.high && transient) || (!transient && Written(s, address, value).scan.high)
    else if address == 0xff40 && s.Enabled() && !Written(s, address, value).Enabled() then false
    else !s.scan.high && Written(s, address, value).scan.high
  }

  function Taken(s: State): State {
    s.(film := s.film.(pending := None))
  }

  function Copied(s: State, index: u8, value: u8): State {
    if index < 4 * OBJECTS then s.(oam := s.oam[index := value]) else s
  }

  // ---- Where a dot leads ----

  lemma WithinFields(c: Scan, r: Registers, length: nat, objects: bool)
    requires length > 0
    ensures var d := c.Within(r, length, objects);
            && d.dot == c.dot + 1 && d.line == c.line && d.phase == c.phase && d.startup == c.startup
            && d.mode == (if c.StartsNext() then Drawing else if c.DrawsNext() then HBlank
                          else if c.Visible() && !c.startup && c.phase != 0 && c.dot + 1 == c.phase then OamScan
                          else c.mode)
            && d.end == (if c.StartsNext() then c.dot + 1 + length else c.end)
            && d.hblank == (if c.StartsNext() then c.dot + 1 + length - (if objects then 1 else 0) else c.hblank)
            && d.rows == c.rows + (if c.DrawsNext() then 1 else 0)
  {
    hide Scan.Level, Scan.ReadableLy, Mode3Dot;
  }

  lemma WithinKeepsPlace(c: Scan, r: Registers, length: nat, objects: bool)
    requires c.InLine() && c.dot < DOTS_PER_LINE
    requires BASE_MODE3_DOTS <= length <= LONGEST_MODE3 && (objects ==> length > BASE_MODE3_DOTS + 1)
    ensures c.Within(r, length, objects).InLine()
  {
    WithinFields(c, r, length, objects);
    hide Scan.Within, Mode3Dot;
  }

  lemma WithinEvaluates(c: Scan, r: Registers, length: nat, objects: bool)
    requires length > 0
    ensures var d := c.Within(r, length, objects);
            if c.EvaluatesNext() then d.high == d.Level(r, r.stat) else d == c.(dot := c.dot + 1)
  {
    hide Scan.ReadableLy, Mode3Dot, Bit;
  }

  lemma SampledFields(c: Scan, r: Registers)
    ensures var d := c.Sampled(r);
            && d == c.(mode := d.mode, lycEqual := d.lycEqual, high := d.high)
            && d.StartsHere() == c.StartsHere() && d.DrawsHere() == c.DrawsHere()
  {
    hide Scan.Level, Scan.ReadableLy;
  }

  lemma LevelIgnoresCache(c: Scan, high: bool, r: Registers, enables: u8)
    ensures c.(high := high).Level(r, enables) == c.Level(r, enables)
  {
  }

  // No dot evaluates the level twice to different effect.
  lemma OneEvaluation(c: Scan, r: Registers, length: nat, objects: bool)
    requires c.InLine() && length > 0
    ensures var sampled := c.(dot := c.dot + 1).Sampled(r);
            sampled.high != c.high ==> c.Within(r, length, objects) == sampled
  {
    hide Scan.ReadableLy, Mode3Dot, Bit;
  }

  // Between the dots at which it is sampled the level cannot change.
  lemma LevelHolds(c: Scan, r: Registers, enables: u8)
    requires c.InLine() && !c.EvaluatesNext()
    ensures c.(dot := c.dot + 1).Level(r, enables) == c.Level(r, enables)
  {
    hide Mode3Dot, Bit;
  }

  lemma WithinKeepsLevel(c: Scan, r: Registers, length: nat, objects: bool)
    requires r.LcdEnabled() && c.Valid(r) && length > 0
    ensures var d := c.Within(r, length, objects);
            d.high == d.Level(r, r.stat) && (c.EndsNext() ==> d.high == c.high)
  {
    WithinEvaluates(c, r, length, objects);
    if !c.EvaluatesNext() {
      LevelHolds(c, r, r.stat);
    }
    hide Scan.Within, Scan.Level, Mode3Dot;
  }

  lemma EndedKeepsPlace(c: Scan, r: Registers)
    requires c.InLine() && c.dot == DOTS_PER_LINE
    ensures c.Ended(r).Valid(r) && c.Ended(r).Position() == c.Position() % DOTS_PER_FRAME
  {
    hide Bit, Scan.ReadableLy;
  }

  lemma EndedKeepsLyc(c: Scan, r: Registers)
    ensures var d := c.Ended(r);
            d.lycEqual == if d.phase == 0 || d.line >= VISIBLE_LINES then d.ReadableLy() == r.lyc
                          else c.lycEqual && d.ReadableLy() == r.lyc
    ensures c.Ended(r) == c.NextLine().(lycEqual := c.Ended(r).lycEqual, high := c.Ended(r).high)
    ensures c.Ended(r).high == c.Ended(r).Level(r, r.stat)
  {
    hide Bit;
  }

  // ---- What one dot does to the scan ----

  // The invariant holds again.
  lemma {:induction false} MovedKeepsValid(c: Scan, r: Registers, length: nat, objects: bool)
    requires c.Valid(r) && r.LcdEnabled()
    requires BASE_MODE3_DOTS <= length <= LONGEST_MODE3 && (objects ==> length > BASE_MODE3_DOTS + 1)
    ensures c.Moved(r, length, objects).Valid(r)
  {
    WithinKeepsPlace(c, r, length, objects);
    WithinKeepsLevel(c, r, length, objects);
    WithinFields(c, r, length, objects);
    if c.EndsNext() {
      EndedKeepsPlace(c.Within(r, length, objects), r);
    }
    hide Scan.Within, Scan.Ended, Scan.Level, Scan.InLine;
  }

  // The dots of a frame in order.
  lemma PositionsInOrder(line: LineNumber, dot: nat)
    requires dot < DOTS_PER_LINE
    ensures var next := (line * DOTS_PER_LINE + dot + 1) % DOTS_PER_FRAME;
            && next == (if dot + 1 < DOTS_PER_LINE then line * DOTS_PER_LINE + dot + 1
                        else if line + 1 < LINES_PER_FRAME then (line + 1) * DOTS_PER_LINE else 0)
            && (dot + 1 == DOTS_PER_LINE && line == VISIBLE_LINES - 1 <==> next == VBLANK_POSITION)
  {
  }

  // The position moves by one.
  lemma {:induction false} MovedByOne(c: Scan, r: Registers, length: nat, objects: bool)
    requires c.Valid(r) && r.LcdEnabled() && length > 0
    ensures var d := c.Moved(r, length, objects);
            && d.Position() == (c.Position() + 1) % DOTS_PER_FRAME
            && d.phase == c.phase && d.startup == (c.startup && d.line == 0)
            && (c.EndsNext() && c.line == VISIBLE_LINES - 1 <==> d.Position() == VBLANK_POSITION)
  {
    PositionsInOrder(c.line, c.dot);
    var next := (c.Position() + 1) % DOTS_PER_FRAME;
    assert next == (c.line * DOTS_PER_LINE + c.dot + 1) % DOTS_PER_FRAME;
    MovedFields(c, r, length, objects);
    hide Scan.Moved, Mode3Dot, Scan.Level;
  }

  lemma MovedFields(c: Scan, r: Registers, length: nat, objects: bool)
    requires length > 0
    ensures var d := c.Moved(r, length, objects);
            && d.phase == c.phase
            && (if c.EndsNext() then d.dot == 0 && d.line == (c.line + 1) % LINES_PER_FRAME && !d.startup
                else d.dot == c.dot + 1 && d.line == c.line && d.startup == c.startup)
  {
    WithinFields(c, r, length, objects);
    EndedKeepsLyc(c.Within(r, length, objects), r);
    hide Scan.Within, Scan.Ended, Scan.Level, Scan.ReadableLy, Mode3Dot;
  }

  // A visible line that is completed has stored exactly one scanline, and where drawing starts its
  // length is fixed for the line.
  lemma {:induction false} MovedMeasures(c: Scan, r: Registers, length: nat, objects: bool)
    requires c.Valid(r) && r.LcdEnabled() && length > 0
    ensures var d := c.Moved(r, length, objects);
            && !(c.DrawsNext() && c.EndsNext()) && !(c.StartsNext() && c.EndsNext())
            && (c.Visible() && c.EndsNext() ==> c.rows == 1)
            && (c.Visible() && c.DrawsNext() ==> c.rows == 0)
            && d.rows == (if c.EndsNext() then 0 else if c.DrawsNext() then c.rows + 1 else c.rows)
            && (!c.EndsNext() ==>
                  && d.end == (if c.StartsNext() then c.Mode3Start() + length else c.end)
                  && d.hblank == (if c.StartsNext() then d.end - (if objects then 1 else 0) else c.hblank))
  {
    WithinFields(c, r, length, objects);
    if c.EndsNext() {
      EndedKeepsLyc(c.Within(r, length, objects), r);
    }
    hide Scan.Within, Scan.Ended, Scan.Level, Scan.ReadableLy, Mode3Dot;
  }

  lemma WithinKeepsLyc(c: Scan, r: Registers, length: nat, objects: bool)
    requires length > 0
    ensures var d := c.Within(r, length, objects);
            var begins := d.Visible() && !d.startup && d.phase != 0 && d.dot == d.phase;
            d.lycEqual == if begins || (d.line == 153 && d.dot == 4) then c.(dot := c.dot + 1).ReadableLy() == r.lyc
                          else c.lycEqual
  {
    hide Scan.Level, Mode3Dot;
  }

  // LYC is sampled when a line starts, two dots into it after an LCD start, and at 153.4.
  lemma {:induction false} MovedComparesLyc(c: Scan, r: Registers, length: nat, objects: bool)
    requires c.Valid(r) && r.LcdEnabled() && length > 0
    ensures var d := c.Moved(r, length, objects);
            var restarted := d.phase != 0 && d.line < VISIBLE_LINES;
            var begins := if restarted then !d.startup && d.dot == d.phase else d.dot == 0;
            d.lycEqual ==
              if begins || (d.line == 153 && d.dot == 4) then d.ReadableLy() == r.lyc
              else if d.dot == 0 then c.lycEqual && d.ReadableLy() == r.lyc
              else c.lycEqual
  {
    WithinFields(c, r, length, objects);
    WithinKeepsLyc(c, r, length, objects);
    var w := c.Within(r, length, objects);
    if c.EndsNext() {
      EndedKeepsLyc(w, r);
    } else {
      assert w.ReadableLy() == c.(dot := c.dot + 1).ReadableLy();
    }
    hide Scan.Within, Scan.Ended, Scan.Level, Scan.ReadableLy, Mode3Dot;
  }

  // ---- What one dot does ----

  lemma {:induction false} DotKeepsValid(s: State)
    requires s.Valid()
    ensures Dot(s).Valid()
    ensures Dot(s).registers == s.registers && Dot(s).vram == s.vram && Dot(s).oam == s.oam
  {
    hide Scan.Valid, Scan.Moved, Mode3Length, Penalty, SelectSprites, DistinctIndices, Exposed;
    if s.Enabled() {
      SelectionIsDistinct(s.oam, s.registers, Advanced(s).line);
      LengthBounds(s);
      MovedKeepsValid(s.scan, s.registers, LineLength(s.oam, s.registers, s.scan.line),
                      ObjectsCost(s.oam, s.registers, s.scan.line));
      ExposedKeeps(s.film, s.Line(), s.scan.line);
    }
  }

  lemma LengthBounds(s: State)
    ensures var length := LineLength(s.oam, s.registers, s.scan.line);
            BASE_MODE3_DOTS <= length <= LONGEST_MODE3
            && (ObjectsCost(s.oam, s.registers, s.scan.line) ==> length > BASE_MODE3_DOTS + 1)
  {
    hide Penalty, SelectSprites;
  }

  // The position moves by one; the dot that enters line 144 is the one that publishes.
  lemma {:induction false} DotMoves(s: State)
    requires s.Valid() && s.Enabled()
    ensures var c, d := s.scan, Dot(s).scan;
            && d.Position() == (c.Position() + 1) % DOTS_PER_FRAME
            && d.phase == c.phase && d.startup == (c.startup && d.line == 0)
            && (s.PublishesNext() <==> d.Position() == VBLANK_POSITION)
  {
    hide Scan.Moved, Scan.Valid, Scan.Position, Filmed, SelectSprites, LineLength, ObjectsCost, DistinctIndices;
    LengthBounds(s);
    MovedByOne(s.scan, s.registers, LineLength(s.oam, s.registers, s.scan.line),
               ObjectsCost(s.oam, s.registers, s.scan.line));
  }

  // LcdStat is requested exactly when the level rises across the dot.
  lemma {:induction false} RiseIsOfTheLevel(s: State)
    requires s.Valid() && s.Enabled()
    ensures var t := Dot(s);
            Rises(s) <==> !s.scan.Level(s.registers, s.registers.stat) && t.scan.Level(t.registers, t.registers.stat)
  {
    DotKeepsValid(s);
    hide Scan.Level, Dot, Scan.InLine;
  }

  // A dot is the part within its line and, at the end of the line, the part that ends it.
  lemma DotInTwoParts(s: State)
    requires s.Valid() && s.Enabled()
    ensures var within := s.scan.Within(s.registers, LineLength(s.oam, s.registers, s.scan.line),
                                        ObjectsCost(s.oam, s.registers, s.scan.line));
            var t := Dot(s);
            && (s.scan.EndsNext() <==> within.dot == DOTS_PER_LINE) && within.line == s.scan.line
            && t == State(s.vram, s.oam, s.registers, t.scan, t.selected, t.film)
            && (if !s.scan.EndsNext() then
                  && t.scan == within && !s.PublishesNext()
                  && t.selected == (if s.scan.StartsNext() then SelectSprites(s.oam, s.registers, s.scan.line)
                                    else s.selected)
                  && t.film == (if s.scan.DrawsNext() then Exposed(s.film, s.Line(), s.scan.line) else s.film)
                else
                  && t.scan == within.Ended(s.registers) && within.high == s.scan.high
                  && !s.scan.StartsNext() && !s.scan.DrawsNext()
                  && (s.PublishesNext() <==> t.scan.line == VISIBLE_LINES)
                  && t.selected == (if t.scan.line < VISIBLE_LINES
                                    then SelectSprites(s.oam, s.registers, t.scan.line) else s.selected)
                  && t.film == (if t.scan.line == VISIBLE_LINES then Published(s.film)
                                else if t.scan.line == 0 then s.film.(windowLine := 0) else s.film))
  {
    var length, objects := LineLength(s.oam, s.registers, s.scan.line), ObjectsCost(s.oam, s.registers, s.scan.line);
    hide LineLength, ObjectsCost, Exposed, Published, SelectSprites, DistinctIndices, Scan.Within, Scan.Ended,
         Scan.Level, Scan.InLine, Mode3Dot;
    LengthBounds(s);
    WithinFields(s.scan, s.registers, length, objects);
    WithinKeepsLevel(s.scan, s.registers, length, objects);
    MovedMeasures(s.scan, s.registers, length, objects);
    MovedFields(s.scan, s.registers, length, objects);
  }

  // Where drawing starts, the line's objects and its length are settled.
  lemma {:induction false} DotMeasures(s: State)
    requires s.Valid() && s.Enabled()
    ensures var t := Dot(s);
            if s.scan.StartsNext() then
              && t.selected == SelectSprites(s.oam, s.registers, s.scan.line)
              && t.scan.end == s.scan.Mode3Start() + Mode3Length(s.registers, s.scan.line, t.selected)
              && t.scan.hblank == t.scan.end - (if Penalty(s.registers, s.scan.line, t.selected) == 0 then 0 else 1)
            else !s.scan.EndsNext() ==>
              t.selected == s.selected && t.scan.end == s.scan.end && t.scan.hblank == s.scan.hblank
  {
    LengthBounds(s);
    MovedMeasures(s.scan, s.registers, LineLength(s.oam, s.registers, s.scan.line),
                  ObjectsCost(s.oam, s.registers, s.scan.line));
    MovedFields(s.scan, s.registers, LineLength(s.oam, s.registers, s.scan.line),
                ObjectsCost(s.oam, s.registers, s.scan.line));
    hide Scan.Moved, Mode3Length, Penalty, SelectSprites, DistinctIndices, Exposed, Scan.Level, Mode3Dot, Filmed;
  }

  // ---- Runs of dots ----

  // How many of the dots `from+1 .. from+n` enter line 144.
  function VBlankEntries(from: nat, n: nat): nat {
    var untilNext := DOTS_PER_FRAME - VBLANK_POSITION;
    (from + n + untilNext) / DOTS_PER_FRAME - (from + untilNext) / DOTS_PER_FRAME
  }

  // One more dot enters line 144 exactly when it lands on its first dot.
  lemma NextEntry(from: nat, i: nat)
    ensures VBlankEntries(from, i + 1) == VBlankEntries(from, i)
            + (if (from + i + 1) % DOTS_PER_FRAME == VBLANK_POSITION then 1 else 0)
    ensures VBlankEntries(from, 0) == 0
    ensures ((from + i) % DOTS_PER_FRAME + 1) % DOTS_PER_FRAME == (from + i + 1) % DOTS_PER_FRAME
  {
  }

  // The position advances by exactly n, and every entry into line 144 publishes one frame, numbered
  // consecutively; with the LCD off nothing happens.
  lemma {:induction false} RanAdvances(s: State, n: nat)
    requires s.Valid()
    ensures var t := Ran(s, n);
            && t.Valid() && t.registers == s.registers && t.vram == s.vram && t.oam == s.oam
            && (!s.Enabled() ==> t == s)
            && (s.Enabled() ==>
                  && t.scan.Position() == (s.scan.Position() + n) % DOTS_PER_FRAME
                  && t.film.next == s.film.next + VBlankEntries(s.scan.Position(), n)
                  && (VBlankEntries(s.scan.Position(), n) == 0 ==> t.film.pending == s.film.pending))
  {
    hide State.Valid, Dot, VBlankEntries, Scan.Position, State.PublishesNext;
    NextEntry(s.scan.Position(), n);
    if n == 0 {
      InFrame(s);
    } else {
      RanAdvances(s, n - 1);
      NextEntry(s.scan.Position(), n - 1);
      DotCounts(Ran(s, n - 1));
    }
  }

  lemma DotCounts(s: State)
    requires s.Valid()
    ensures var t := Dot(s);
            && t.Valid() && t.registers == s.registers && t.vram == s.vram && t.oam == s.oam
            && (!s.Enabled() ==> t == s) && t.Enabled() == s.Enabled()
            && (s.Enabled() ==>
                  && t.scan.Position() == (s.scan.Position() + 1) % DOTS_PER_FRAME
                  && t.film.next == s.film.next + (if t.scan.Position() == VBLANK_POSITION then 1 else 0)
                  && (t.scan.Position() != VBLANK_POSITION ==> t.film.pending == s.film.pending))
  {
    hide State.Valid, Dot, Scan.Position;
    DotKeepsValid(s);
    if s.Enabled() {
      DotMoves(s);
      DotNumbers(s);
    } else {
      DotWhileOff(s);
    }
  }

  lemma DotWhileOff(s: State)
    requires !s.Enabled()
    ensures Dot(s) == s
  {
  }

  lemma InFrame(s: State)
    requires s.Valid()
    ensures s.Enabled() ==> s.scan.Position() % DOTS_PER_FRAME == s.scan.Position()
  {
  }

  lemma DotNumbers(s: State)
    requires s.Valid() && s.Enabled()
    ensures var f := Dot(s).film;
            if s.PublishesNext() then f == Published(s.film)
            else f.next == s.film.next && f.pending == s.film.pending
  {
    hide Exposed, Published, Advanced, LineLength, ObjectsCost, SelectSprites;
    LengthBounds(s);
    MovedMeasures(s.scan, s.registers, LineLength(s.oam, s.registers, s.scan.line),
                  ObjectsCost(s.oam, s.registers, s.scan.line));
    ExposedKeeps(s.film, s.Line(), s.scan.line);
    hide State.Valid;
  }

  lemma ExposedKeeps(f: Film, v: Video, line: u8)
    ensures var g := Exposed(f, v, line); g.pending == f.pending && g.next == f.next && g.blank == f.blank
  {
  }

  lemma OneMoreRise(s: State, n: nat)
    ensures RisesWithin(s, n + 1) <==> RisesWithin(s, n) || Rises(Ran(s, n))
    ensures !RisesWithin(s, 0)
  {
    hide Rises, Ran;
    if RisesWithin(s, n) {
      var i :| 0 <= i < n && Rises(Ran(s, i));
      assert 0 <= i < n + 1;
    }
  }

  // Two batches of dots are one, in the state they lead to and in the requests they make.
  lemma {:induction false} BatchesCompose(s: State, m: nat, n: nat)
    ensures Ran(s, m + n) == Ran(Ran(s, m), n)
    ensures RisesWithin(s, m + n) <==> RisesWithin(s, m) || RisesWithin(Ran(s, m), n)
  {
    hide Dot, Rises, RisesWithin;
    if n == 0 {
      OneMoreRise(Ran(s, m), 0);
    } else {
      BatchesCompose(s, m, n - 1);
      OneMoreRise(s, m + n - 1);
      OneMoreRise(Ran(s, m), n - 1);
    }
  }

  // ---- What an access does ----

  lemma SteadyIsValid(c: Scan, r: Registers, to: Registers)
    requires c.Valid(r) && to.LcdEnabled() == r.LcdEnabled() && to.stat == r.stat
    ensures c.Valid(to)
  {
    hide Bit, Scan.InLine;
  }

  lemma EvaluatedIsValid(c: Scan, r: Registers, to: Registers)
    requires c.Valid(r) && (to.LcdEnabled() ==> r.LcdEnabled())
    ensures c.Evaluated(to).Valid(to) && c.Compared(to).Evaluated(to).Valid(to)
  {
    hide Bit, Mode3Dot;
  }

  lemma SwitchedOnIsValid(s: State)
    requires s.film.pending.Some? ==> s.film.pending.value.sequence + 1 == s.film.next
    ensures Evaluated(SwitchedOn(s)).Valid()
  {
    hide Bit, Mode3Dot;
  }

  lemma LcdcWrittenIsValid(s: State, value: u8)
    requires s.Valid()
    ensures LcdcWritten(s, value).Valid() && LcdcWritten(s, value).registers == s.registers.(lcdc := value)
  {
    var t := s.(registers := s.registers.(lcdc := value));
    if s.Enabled() && t.Enabled() {
      EvaluatedIsValid(s.scan, s.registers, t.registers);
    } else if t.Enabled() {
      SwitchedOnIsValid(t);
    }
    hide Scan.InLine, Scan.Level, Scan.ReadableLy;
  }

  lemma {:induction false} WrittenKeepsValid(s: State, address: u16, value: u8)
    requires s.Valid()
    ensures Written(s, address, value).Valid()
    ensures Written(s, address, value).registers == WriteRegister(s.registers, address, value)
  {
    LcdcWrittenIsValid(s, value);
    var to := WriteRegister(s.registers, address, value);
    if address != 0xff40 && address != 0xff41 {
      SteadyIsValid(s.scan, s.registers, to);
    }
    if address != 0xff40 {
      EvaluatedIsValid(s.scan, s.registers, to);
    }
    hide Scan.Valid, Scan.Level, Scan.ReadableLy, Scan.VramWritable, Scan.OamWritable, LcdcWritten, StatEnables;
  }

  lemma AllSourcesEnabled()
    ensures Bit(0x78, 0x08) && Bit(0x78, 0x10) && Bit(0x78, 0x20) && Bit(0x78, 0x40)
  {
  }

  // While the LCD stays on, a write requests LcdStat for a level that rose, either across the write or
  // in the instant a STAT write enables every source.
  lemma {:induction false} WriteRequestsRises(s: State, address: u16, value: u8)
    requires s.Valid() && s.Enabled() && Written(s, address, value).Enabled()
    ensures var t := Written(s, address, value);
            WriteRises(s, address, value) <==>
              && !s.scan.Level(s.registers, s.registers.stat)
              && (t.scan.Level(t.registers, t.registers.stat) || (address == 0xff41 && s.scan.Level(s.registers, 0x78)))
  {
    WrittenKeepsValid(s, address, value);
    AllSourcesEnabled();
    hide Scan.InLine, Scan.ReadableLy, Scan.VramWritable, Scan.OamWritable, Bit;
  }

  // Only switching the LCD touches the position or what is drawn.
  lemma {:induction false} WrittenKeepsFilm(s: State, address: u16, value: u8)
    ensures var t := Written(s, address, value);
            && (t.Enabled() == s.Enabled() ==>
                  && t.film == s.film && t.selected == s.selected
                  && t.scan == s.scan.(high := t.scan.high, lycEqual := t.scan.lycEqual))
            && (s.Enabled() && !t.Enabled() ==>
                  t.film == s.film.(windowLine := 0) && t.scan.Position() == 0 && t.scan.high == s.scan.high)
            && (!s.Enabled() && t.Enabled() ==>
                  && t.film == s.film.(windowLine := 0, blank := true)
                  && t.scan.Position() == 8 && t.scan.startup && t.scan.rows == 0)
            && (t.Enabled() != s.Enabled() ==> address == 0xff40)
  {
    hide Scan.Level, Bit, Scan.VramWritable, Scan.OamWritable;
  }

  // LYC is compared at once while the LCD is on, and when it is switched on.
  lemma {:induction false} WrittenComparesLyc(s: State, address: u16, value: u8)
    ensures var t := Written(s, address, value);
            t.scan.lycEqual ==
              if t.Enabled() && (address == 0xff45 || (address == 0xff40 && !s.Enabled()))
              then t.scan.ReadableLy() == t.registers.lyc else s.scan.lycEqual
  {
    hide Scan.Level, Bit, Scan.VramWritable, Scan.OamWritable;
  }
}
