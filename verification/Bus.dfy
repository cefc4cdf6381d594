// crates/gb-core/src/bus/mod.rs and bus/dma.rs: the clocked bus, its OAM DMA and the two copies
// of the divider. Cartridge, video, audio, serial, joypad and interrupt reads are arbitrary bytes.
module Buses {
  import opened Words
  import opened Sprites
  import Timers
  import Dots
  import Ppus
  import Apus
  import Cpus

  const TRANSFER_LENGTH := 160

  predicate IsHram(address: u16) { 0xff80 <= address <= 0xfffe }
  predicate IsWram(address: u16) { 0xc000 <= address <= 0xfdff }

  // Work RAM and its echo.
  function WramIndex(address: u16): (i: nat)
    requires IsWram(address)
    ensures i < 0x2000
  {
    if address <= 0xdfff then address - 0xc000 else address - 0xe000
  }

  // The pages a transfer reads from work RAM only.
  predicate WramPage(page: u8) { 0xc0 <= page <= 0xfd }

  function SourceAddress(page: u8, index: nat): u16
    requires index < TRANSFER_LENGTH
  {
    page * 0x100 + index
  }

  // What the bus and the CPU can see of the machine, apart from the devices whose reads are
  // arbitrary.
  datatype Snapshot = Snapshot(timer: Timers.State, clocks: nat, registers: Registers, vram: seq<u8>, oam: seq<u8>,
                               powered: bool, wram: seq<u8>, hram: seq<u8>, transfer: Transfer)

  datatype Transfer = Transfer(page: u8, index: u8, active: bool)

  predicate WellSized(s: Snapshot) {
    && |s.vram| == 0x2000 && |s.oam| == TRANSFER_LENGTH && |s.wram| == 0x2000 && |s.hram| == 0x7f
    && (s.transfer.active ==> s.transfer.index < TRANSFER_LENGTH)
    && (s.timer.o.pending.Some? ==> 1 <= s.timer.o.pending.value <= 4)
  }

  // One machine cycle of the transfer: an active one moves exactly one byte.
  predicate Copies(wram: seq<u8>, before: seq<u8>, transfer: Transfer, after: seq<u8>, next: Transfer)
    requires |wram| == 0x2000 && |before| == |after| == TRANSFER_LENGTH
    requires transfer.active ==> transfer.index < TRANSFER_LENGTH
  {
    var page, index := transfer.page, transfer.index;
    if !transfer.active then after == before && next == transfer
    else
      && after == before[index := after[index]]
      && (WramPage(page) ==> after[index] == wram[WramIndex(SourceAddress(page, index))])
      && next == Transfer(page, index + 1, index + 1 < TRANSFER_LENGTH)
  }

  // One machine cycle of the whole: four T-cycles of every device, and one byte of a transfer.
  predicate Ticks(s: Snapshot, t: Snapshot)
    requires WellSized(s)
  {
    && WellSized(t)
    && t.timer == Timers.Cycled(s.timer, 4)
    && t.clocks == s.clocks + Apus.SequencerClocks(s.timer.divider, 4)
    && t.registers == s.registers && t.vram == s.vram && t.powered == s.powered
    && t.wram == s.wram && t.hram == s.hram
    && Copies(s.wram, s.oam, s.transfer, t.oam, t.transfer)
  }

  // Which video memory the position of the scan lets the CPU write.
  datatype Open = Open(oam: bool, vram: bool)

  // What a write does once the bus lets it through.
  function Stored(s: Snapshot, address: u16, value: u8, open: Open): (t: Snapshot)
    requires WellSized(s)
    ensures WellSized(t)
  {
    if IsWram(address) then s.(wram := s.wram[WramIndex(address) := value])
    else if IsHram(address) then s.(hram := s.hram[address - 0xff80 := value])
    else if address == 0xff04 then DividerReset(s)
    else if 0xff05 <= address <= 0xff07 then s.(timer := Timers.Written(s.timer, address, value))
    else if address == 0xff26 then s.(powered := Bit(value, 0x80))
    else if 0x8000 <= address <= 0x9fff && open.vram then s.(vram := s.vram[address - 0x8000 := value])
    else if 0xfe00 <= address <= 0xfe9f && open.oam then s.(oam := s.oam[address - 0xfe00 := value])
    else if address == 0xff46 then
      s.(registers := Dots.WriteRegister(s.registers, address, value), transfer := Transfer(value, 0, true))
    else if 0xff40 <= address <= 0xff4b then s.(registers := Dots.WriteRegister(s.registers, address, value))
    else s
  }

  // Both copies of the divider restart, and each does what its falling bit asks for.
  function DividerReset(s: Snapshot): (t: Snapshot)
    requires WellSized(s)
    ensures WellSized(t)
  {
    s.(timer := Timers.Written(s.timer, 0xff04, 0), clocks := s.clocks + Apus.ResetClocks(s.timer.divider))
  }

  predicate Allowed(active: bool, address: u16) {
    !active || IsHram(address) || address == 0xff46
  }

  // Timer and video-memory writes take effect before the machine cycle, the others after it.
  predicate TakesEffectFirst(address: u16) {
    0xff04 <= address <= 0xff07 || 0x8000 <= address <= 0x9fff || 0xfe00 <= address <= 0xfe9f
  }

  ghost predicate Writes(s: Snapshot, address: u16, value: u8, open: Open, t: Snapshot)
    requires WellSized(s)
  {
    if !Allowed(s.transfer.active, address) then Ticks(s, t)
    else if TakesEffectFirst(address) then Ticks(Stored(s, address, value, open), t)
    else exists u :: Ticks(s, u) && t == Stored(u, address, value, open)
  }

  // What the CPU reads where the machine itself keeps the byte.
  function Remembered(s: Snapshot, address: u16): Option<u8>
    requires WellSized(s)
  {
    if IsHram(address) then Some(s.hram[address - 0xff80])
    else if s.transfer.active then Some(0xff)
    else if IsWram(address) then Some(s.wram[WramIndex(address)])
    else None
  }

  // What the CPU can do to the bus.
  datatype Access = Read(address: u16) | Write(address: u16, value: u8) | Idle | Stop

  ghost predicate Performs(s: Snapshot, a: Access, open: Open, t: Snapshot)
    requires WellSized(s)
  {
    match a
    case Write(address, value) => Writes(s, address, value, open, t)
    case Stop => t == DividerReset(s)
    case _ => Ticks(s, t)
  }

  class OamDma {
    var sourceHigh: u8
    var index: u8
    var active: bool

    ghost predicate Valid()
      reads this
    {
      active ==> index < TRANSFER_LENGTH
    }

    constructor ()
      ensures Valid() && !active
    {
      sourceHigh, index, active := 0, 0, false;
    }

    method Start(sourceHigh: u8)
      modifies this
      ensures Valid() && active && index == 0 && this.sourceHigh == sourceHigh
    {
      this.sourceHigh, index, active := sourceHigh, 0, true;
    }

    function NextAddress(): (next: Option<(u16, u8)>)
      requires Valid()
      reads this
      ensures next.Some? <==> active
    {
      if active then Some((SourceAddress(sourceHigh, index), index)) else None
    }

    method Advance()
      requires Valid() && active
      modifies this`index, this`active
      ensures Valid() && index == old(index) + 1 && active == (index < TRANSFER_LENGTH)
    {
      index := (index + 1) % 0x100;
      if index == TRANSFER_LENGTH {
        active := false;
      }
    }
  }

  class MachineBus {
    const sampleRate: nat
    const mix: nat -> Apus.Stereo
    const wram: array<u8>
    const hram: array<u8>
    var timer: Timers.Timer
    var video: Ppus.Ppu
    var audio: Apus.Apu
    var dma: OamDma
    var elapsedTCycles: nat

    ghost function Devices(): set<object>
      reads this`timer, this`video, this`audio, this`dma
    {
      {timer, video, video.vram, video.oam, audio, audio.pcm, dma, wram, hram}
    }

    ghost predicate Wiring()
      reads this`video
    {
      && 0 < sampleRate
      && wram.Length == 0x2000 && hram.Length == 0x7f
      && video.vram.Length == 0x2000 && video.oam.Length == TRANSFER_LENGTH
      && video.vram != video.oam && video.vram != wram && video.vram != hram
      && video.oam != wram && video.oam != hram && wram != hram
    }

    ghost predicate Assembled()
      reads this, Devices()
    {
      Wiring() && timer.Valid() && video.Valid() && audio.Valid() && dma.Valid()
    }

    // The timer and the APU keep separate dividers; they never disagree.
    ghost predicate Valid()
      reads this, Devices()
    {
      Assembled() && timer.divider == audio.dividerMirror
    }

    ghost function View(): (s: Snapshot)
      requires Assembled()
      reads this, Devices()
      ensures WellSized(s)
    {
      Snapshot(timer.Whole(), audio.clocks, video.registers, video.vram[..], video.oam[..], audio.masterEnabled,
               wram[..], hram[..], Transfer(dma.sourceHigh, dma.index, dma.active))
    }

    function Accessible(): Open
      reads this`video, video
    {
      Open(video.OamWritable(), video.VramWritable())
    }

    constructor (sampleRate: nat, mix: nat -> Apus.Stereo)
      requires 0 < sampleRate
      ensures Valid() && this.sampleRate == sampleRate && this.mix == mix
      ensures !dma.active && elapsedTCycles == 0 && timer.divider == 0xabcc && audio.clocks == 0
      ensures Timers.InStep(timer.Whole())
      ensures fresh(wram) && fresh(hram) && fresh(timer) && fresh(dma)
      ensures fresh(video) && fresh(video.vram) && fresh(video.oam) && fresh(audio) && fresh(audio.pcm)
    {
      hide Apus.Apu.Valid, Timers.Timer.Valid, Ppus.Ppu.Valid, Timers.InStep;
      this.sampleRate, this.mix, elapsedTCycles := sampleRate, mix, 0;
      wram := new u8[0x2000](i => 0);
      hram := new u8[0x7f](i => 0);
      var newTimer, newDma, newVideo, newAudio := PowerOnDevices(sampleRate, mix);
      timer, dma, video, audio := newTimer, newDma, newVideo, newAudio;
    }

    // The devices as construction and reset build them: both dividers start from one value.
    static method PowerOnDevices(sampleRate: nat, mix: nat -> Apus.Stereo)
      returns (timer: Timers.Timer, dma: OamDma, video: Ppus.Ppu, audio: Apus.Apu)
      requires 0 < sampleRate
      ensures timer.Valid() && dma.Valid() && video.Valid() && audio.Valid()
      ensures timer.divider == audio.dividerMirror == 0xabcc && !dma.active && audio.clocks == 0
      ensures Timers.InStep(timer.Whole())
      ensures video.vram.Length == 0x2000 && video.oam.Length == TRANSFER_LENGTH && video.vram != video.oam
      ensures fresh(timer) && fresh(dma) && fresh(video) && fresh(video.vram) && fresh(video.oam)
      ensures fresh(audio) && fresh(audio.pcm)
    {
      timer := new Timers.Timer();
      dma := new OamDma();
      video := new Ppus.Ppu.PostBoot();
      audio := new Apus.Apu(sampleRate, mix);
    }

    method Outside() returns (value: u8) {
      value := *;
    }

    method ReadUnclocked(address: u16) returns (value: u8)
      requires Wiring() && timer.Valid()
      ensures IsWram(address) ==> value == wram[WramIndex(address)]
      ensures IsHram(address) ==> value == hram[address - 0xff80]
      ensures 0xff04 <= address <= 0xff07 ==> value == timer.Read(address)
    {
      if IsWram(address) {
        value := wram[WramIndex(address)];
      } else if 0xff04 <= address <= 0xff07 {
        value := timer.Read(address);
      } else if IsHram(address) {
        value := hram[address - 0xff80];
      } else {
        value := Outside();
      }
    }

    method TickMCycle()
      requires Valid()
      modifies this`elapsedTCycles, Devices()
      ensures Valid() && elapsedTCycles == old(elapsedTCycles) + 4
      ensures Ticks(old(View()), View())
    {
      hide Timers.After, Timers.Timer.Valid, Ppus.Ppu.Valid, Apus.Apu.Valid, Apus.SequencerClocks, Apus.FramesIn,
           Apus.PhaseAfter, Apus.Apu.Appended, Copies, Dots.VBlankEntries, Dots.Ran, Dots.RisesWithin,
           Dots.Scan.Position, Ppus.Ppu.View, Ppus.Ppu.ScanView;
      elapsedTCycles := elapsedTCycles + 4;
      var overflow := timer.Tick(4);
      Copy();
      var effects := video.Tick(4);
      audio.Tick(4);
    }

    // The transfer's share of a machine cycle.
    method Copy()
      requires Assembled()
      modifies dma, video.oam
      ensures Assembled()
      ensures View() == old(View()).(oam := video.oam[..], transfer := View().transfer)
      ensures Copies(wram[..], old(video.oam[..]), old(View()).transfer, video.oam[..], View().transfer)
    {
      match dma.NextAddress()
      case None =>
      case Some((source, index)) =>
        var value := ReadUnclocked(source);
        video.DmaWriteOam(index, value);
        dma.Advance();
    }

    method WriteUnclocked(address: u16, value: u8)
      requires Valid()
      modifies Devices()
      ensures Valid()
      ensures View() == Stored(old(View()), address, value, old(Accessible()))
    {
      hide Bit, Dots.WriteRegister, Ppus.Ppu.Valid, Timers.Timer.Valid, Apus.ResetClocks, Timers.Written;
      if IsWram(address) {
        wram[WramIndex(address)] := value;
      } else if IsHram(address) {
        hram[address - 0xff80] := value;
      } else if address == 0xff04 {
        ResetDivider();
      } else if 0xff05 <= address <= 0xff07 {
        Timers.WrittenDivider(timer.Whole(), address, value);
        timer.Write(address, value);
      } else if 0xff10 <= address <= 0xff3f {
        audio.Write(address, value);
      } else if 0x8000 <= address <= 0x9fff || 0xfe00 <= address <= 0xfe9f || 0xff40 <= address <= 0xff4b {
        WriteVideo(address, value);
      }
    }

    method WriteVideo(address: u16, value: u8)
      requires Valid()
      requires 0x8000 <= address <= 0x9fff || 0xfe00 <= address <= 0xfe9f || 0xff40 <= address <= 0xff4b
      modifies video, video.vram, video.oam, dma
      ensures Valid()
      ensures View() == Stored(old(View()), address, value, old(Accessible()))
    {
      hide Bit, Ppus.Ppu.StatLevel, Ppus.Ppu.OamWritable, Ppus.Ppu.VramWritable;
      var effects := video.Write(address, value);
      if address == 0xff46 {
        dma.Start(value);
      }
    }

    // STOP resets the divider the same way a DIV write does.
    method ResetDivider()
      requires Valid()
      modifies timer, audio, audio.pcm
      ensures Valid() && View() == DividerReset(old(View()))
    {
      hide Timers.Written, Apus.ResetClocks, Bit;
      Timers.WrittenDivider(timer.Whole(), 0xff04, 0);
      timer.Write(0xff04, 0);
      audio.Write(0xff04, 0);
    }

    method Read8(address: u16) returns (value: u8)
      requires Valid()
      modifies this`elapsedTCycles, Devices()
      ensures Valid() && elapsedTCycles == old(elapsedTCycles) + 4
      ensures Ticks(old(View()), View())
      // during a transfer only HRAM can be read
      ensures old(dma.active) && !IsHram(address) ==> value == 0xff
      ensures IsHram(address) ==> value == old(hram[address - 0xff80])
      ensures !old(dma.active) && IsWram(address) ==> value == old(wram[WramIndex(address)])
      ensures !old(dma.active) && 0xff04 <= address <= 0xff07 ==> value == old(timer.Read(address))
      ensures var read := Remembered(old(View()), address); read.Some? ==> value == read.value
    {
      hide Ticks;
      if dma.active && !IsHram(address) {
        value := 0xff;
      } else {
        value := ReadUnclocked(address);
      }
      TickMCycle();
    }

    method IdleMCycle()
      requires Valid()
      modifies this`elapsedTCycles, Devices()
      ensures Valid() && elapsedTCycles == old(elapsedTCycles) + 4
      ensures Ticks(old(View()), View())
    {
      TickMCycle();
    }

    // During a transfer only HRAM and the transfer register can be written.
    method Write8(address: u16, value: u8)
      requires Valid()
      modifies this`elapsedTCycles, Devices()
      ensures Valid() && elapsedTCycles == old(elapsedTCycles) + 4
      ensures Writes(old(View()), address, value, old(Accessible()), View())
    {
      hide Ticks, Stored, Assembled;
      var allowed := !dma.active || IsHram(address) || address == 0xff46;
      var timerWrite := allowed && 0xff04 <= address <= 0xff07;
      var ppuMemoryWrite := allowed && (0x8000 <= address <= 0x9fff || 0xfe00 <= address <= 0xfe9f);
      if timerWrite || ppuMemoryWrite {
        WriteUnclocked(address, value);
      }
      TickMCycle();
      if allowed && !timerWrite && !ppuMemoryWrite {
        ghost var mid := View();
        LateWritesNeedNoOpening(mid, address, value, Accessible(), old(Accessible()));
        WriteUnclocked(address, value);
      }
    }

    method ClearMemory()
      requires wram != hram
      modifies wram, hram
      ensures (forall i :: 0 <= i < wram.Length ==> wram[i] == 0) && forall i :: 0 <= i < hram.Length ==> hram[i] == 0
    {
      forall i | 0 <= i < wram.Length { wram[i] := 0; }
      forall i | 0 <= i < hram.Length { hram[i] := 0; }
    }

    // A reset builds every device anew, both dividers included.
    method Reset()
      requires Valid()
      modifies this, wram, hram
      ensures Valid() && fresh(timer) && fresh(dma) && Timers.InStep(timer.Whole())
      ensures fresh(video) && fresh(video.vram) && fresh(video.oam) && fresh(audio) && fresh(audio.pcm)
      ensures timer.divider == 0xabcc && !dma.active && elapsedTCycles == 0
      ensures (forall i :: 0 <= i < wram.Length ==> wram[i] == 0) && forall i :: 0 <= i < hram.Length ==> hram[i] == 0
    {
      hide Apus.Apu.Valid, Timers.Timer.Valid, Ppus.Ppu.Valid, Timers.InStep;
      ClearMemory();
      timer, dma, video, audio := PowerOnDevices(sampleRate, mix);
      elapsedTCycles := 0;
    }

    // Any access the CPU makes.
    method Perform(a: Access)
      requires Valid()
      modifies this`elapsedTCycles, Devices()
      ensures Valid() && Performs(old(View()), a, old(Accessible()), View())
      ensures elapsedTCycles == old(elapsedTCycles) + (if a.Stop? then 0 else 4)
    {
      hide Valid, Ticks, Writes, DividerReset;
      match a
      case Read(address) =>
        var value := Read8(address);
      case Write(address, value) =>
        Write8(address, value);
      case Idle =>
        IdleMCycle();
      case Stop =>
        ResetDivider();
    }
  }

  // With no transfer active a fetch leaves every byte of work RAM and HRAM as it reads, so a CB prefix
  // whose second byte is there is stable.
  lemma {:induction false} FetchKeepsMemory(s: Snapshot, address: u16, open: Open, t: Snapshot, next: u16)
    requires WellSized(s) && Performs(s, Read(address), open, t)
    requires !s.transfer.active && (IsWram(next) || IsHram(next))
    ensures WellSized(t) && Remembered(t, next) == Remembered(s, next) && Remembered(s, next).Some?
  {
  }

  // Only the writes that take effect first depend on where the scan is.
  lemma LateWritesNeedNoOpening(s: Snapshot, address: u16, value: u8, one: Open, other: Open)
    requires WellSized(s) && !TakesEffectFirst(address)
    ensures Stored(s, address, value, one) == Stored(s, address, value, other)
  {
  }

  // STOP takes no machine cycle of its own.
  function MCycles(accesses: seq<Access>): (n: nat)
    ensures n <= |accesses|
  {
    if accesses == [] then 0
    else MCycles(accesses[..|accesses| - 1]) + (if accesses[|accesses| - 1].Stop? then 0 else 1)
  }

  lemma MCyclesStep(accesses: seq<Access>, i: nat)
    requires i < |accesses|
    ensures MCycles(accesses[..0]) == 0
    ensures MCycles(accesses[..i + 1]) == MCycles(accesses[..i]) + (if accesses[i].Stop? then 0 else 1)
  {
    assert accesses[..i + 1][..i] == accesses[..i];
  }

  lemma {:induction false} MCyclesPrefix(accesses: seq<Access>, i: nat)
    requires i <= |accesses|
    ensures MCycles(accesses[..i]) <= MCycles(accesses)
  {
    if i < |accesses| {
      MCyclesPrefix(accesses[..|accesses| - 1], i);
      assert accesses[..|accesses| - 1][..i] == accesses[..i];
    } else {
      assert accesses[..i] == accesses;
    }
  }

  // The transfer -----------------------------------------------------------------------------

  predicate StartsTransfer(a: Access) {
    a.Write? && a.address == 0xff46
  }

  // While a transfer is active the CPU reaches nothing but HRAM: everything else is as a machine
  // cycle without it would have left it.
  lemma {:induction false} OnlyHramDuringTransfer(s: Snapshot, a: Access, open: Open, t: Snapshot)
    requires WellSized(s) && s.transfer.active && Performs(s, a, open, t)
    requires !StartsTransfer(a) && !a.Stop?
    ensures Ticks(s, t.(hram := s.hram))
    ensures t.hram == if a.Write? && IsHram(a.address) then s.hram[a.address - 0xff80 := a.value] else s.hram
  {
    hide Copies, Timers.Cycled, Apus.SequencerClocks;
    if a.Write? && IsHram(a.address) {
      var u :| Ticks(s, u) && t == Stored(u, a.address, a.value, open);
      assert t.(hram := s.hram) == u;
    } else {
      assert t.(hram := s.hram) == t;
    }
  }

  // What only the CPU changes, HRAM apart.
  predicate Untouched(s: Snapshot, t: Snapshot) {
    && t.registers == s.registers && t.vram == s.vram && t.wram == s.wram && t.powered == s.powered
    && t.timer.tma == s.timer.tma && t.timer.tac == s.timer.tac
  }

  function WithTransferRegister(s: Snapshot, page: u8): Snapshot {
    s.(registers := Dots.WriteRegister(s.registers, 0xff46, page))
  }

  // The bytes a transfer from a work-RAM page copies.
  function FirstOfPage(wram: seq<u8>, page: u8): seq<u8>
    requires |wram| == 0x2000 && WramPage(page)
  {
    var start := WramIndex(SourceAddress(page, 0));
    wram[start..start + TRANSFER_LENGTH]
  }

  // How far a transfer from a work-RAM page has come after n machine cycles.
  ghost predicate Transferred(s: Snapshot, page: u8, n: nat)
    requires WellSized(s) && WramPage(page) && n <= TRANSFER_LENGTH
  {
    && s.transfer.active == (n < TRANSFER_LENGTH)
    && (s.transfer.active ==> s.transfer.index == n && s.transfer.page == page)
    && forall i :: 0 <= i < n ==> s.oam[i] == s.wram[WramIndex(SourceAddress(page, i))]
  }

  lemma {:induction false} TransferTick(s: Snapshot, t: Snapshot, page: u8, n: nat)
    requires WellSized(s) && WramPage(page) && n < TRANSFER_LENGTH
    requires Transferred(s, page, n) && Ticks(s, t)
    ensures Transferred(t, page, n + 1) && Untouched(s, t)
  {
    hide Timers.After;
  }

  lemma {:induction false} TransferContinues(s: Snapshot, a: Access, open: Open, t: Snapshot, page: u8, n: nat)
    requires WellSized(s) && WramPage(page) && n <= TRANSFER_LENGTH && Transferred(s, page, n)
    requires Performs(s, a, open, t) && !StartsTransfer(a) && (a.Stop? || n < TRANSFER_LENGTH)
    ensures WellSized(t) && Transferred(t, page, if a.Stop? then n else n + 1) && Untouched(s, t)
  {
    if !a.Stop? {
      OnlyHramDuringTransfer(s, a, open, t);
      TransferTick(s, t.(hram := s.hram), page, n);
    }
  }

  lemma {:induction false} TransferStarts(s: Snapshot, page: u8, open: Open, t: Snapshot)
    requires WellSized(s) && WramPage(page) && Performs(s, Write(0xff46, page), open, t)
    ensures WellSized(t) && Transferred(t, page, 0)
    ensures Untouched(WithTransferRegister(s, page), t)
  {
    hide Timers.After;
  }

  method BeginTransfer(bus: MachineBus, page: u8)
    requires bus.Valid() && WramPage(page)
    modifies bus`elapsedTCycles, bus.Devices()
    ensures bus.Valid() && Transferred(bus.View(), page, 0)
    ensures Untouched(WithTransferRegister(old(bus.View()), page), bus.View())
    ensures bus.elapsedTCycles == old(bus.elapsedTCycles) + 4
  {
    ghost var s, open := bus.View(), bus.Accessible();
    hide MachineBus.Assembled, MachineBus.View, WellSized, Transferred, Performs, Untouched;
    bus.Perform(Write(0xff46, page));
    TransferStarts(s, page, open, bus.View());
  }

  method PerformDuringTransfer(bus: MachineBus, page: u8, n: nat, a: Access)
    requires bus.Valid() && WramPage(page) && n <= TRANSFER_LENGTH && Transferred(bus.View(), page, n)
    requires !StartsTransfer(a) && (a.Stop? || n < TRANSFER_LENGTH)
    modifies bus`elapsedTCycles, bus.Devices()
    ensures bus.Valid() && Transferred(bus.View(), page, if a.Stop? then n else n + 1)
    ensures Untouched(old(bus.View()), bus.View())
    ensures bus.elapsedTCycles == old(bus.elapsedTCycles) + (if a.Stop? then 0 else 4)
  {
    ghost var s, open := bus.View(), bus.Accessible();
    hide MachineBus.Assembled, MachineBus.View, WellSized, Transferred, Performs, Untouched;
    bus.Perform(a);
    TransferContinues(s, a, open, bus.View(), page, n);
  }

  lemma StaysUntouched(s: Snapshot)
    ensures Untouched(s, s)
  {
  }

  lemma StillUntouched(s: Snapshot, t: Snapshot, u: Snapshot)
    requires Untouched(s, t) && Untouched(t, u)
    ensures Untouched(s, u)
  {
  }

  lemma MCyclesEmpty(accesses: seq<Access>)
    ensures MCycles(accesses[..0]) == 0
  {
  }

  lemma TransferEnds(s: Snapshot, page: u8, n: nat)
    requires WellSized(s) && WramPage(page) && n <= TRANSFER_LENGTH && Transferred(s, page, n)
    ensures s.transfer.active <==> n < TRANSFER_LENGTH
    ensures n == TRANSFER_LENGTH ==> s.oam == FirstOfPage(s.wram, page)
  {
  }

  // The loop of a run within one transfer.
  method ContinueTransfer(bus: MachineBus, page: u8, accesses: seq<Access>)
    requires bus.Valid() && WramPage(page) && Transferred(bus.View(), page, 0)
    requires forall a :: a in accesses ==> !StartsTransfer(a)
    requires MCycles(accesses) <= TRANSFER_LENGTH
    modifies bus`elapsedTCycles, bus.Devices()
    ensures bus.Valid() && Transferred(bus.View(), page, MCycles(accesses))
    ensures Untouched(old(bus.View()), bus.View())
    ensures bus.elapsedTCycles == old(bus.elapsedTCycles) + 4 * MCycles(accesses)
  {
    MCyclesEmpty(accesses);
    ghost var start := bus.View();
    StaysUntouched(start);
    hide MachineBus.Assembled, MachineBus.View, WellSized, Transferred, MCycles, Untouched;
    for i := 0 to |accesses|
      invariant bus.Valid() && Untouched(start, bus.View())
      invariant MCycles(accesses[..i]) <= MCycles(accesses)
      invariant Transferred(bus.View(), page, MCycles(accesses[..i]))
      invariant bus.elapsedTCycles == old(bus.elapsedTCycles) + 4 * MCycles(accesses[..i])
    {
      MCyclesStep(accesses, i);
      MCyclesPrefix(accesses, i + 1);
      ghost var s := bus.View();
      PerformDuringTransfer(bus, page, MCycles(accesses[..i]), accesses[i]);
      StillUntouched(start, s, bus.View());
    }
    assert accesses[..|accesses|] == accesses;
  }

  // A transfer from a work-RAM page runs to completion whatever else the CPU does, as long as it
  // does not start another: it is active for exactly 160 machine cycles and leaves OAM equal to
  // the first 160 bytes of the page. Meanwhile no access changes work RAM, VRAM, a video register,
  // TMA, TAC or the sound power switch.
  method RunTransfer(bus: MachineBus, page: u8, accesses: seq<Access>)
    requires bus.Valid() && WramPage(page)
    requires forall a :: a in accesses ==> !StartsTransfer(a)
    requires MCycles(accesses) <= TRANSFER_LENGTH
    modifies bus`elapsedTCycles, bus.Devices()
    ensures bus.Valid()
    ensures Untouched(WithTransferRegister(old(bus.View()), page), bus.View())
    ensures bus.dma.active <==> MCycles(accesses) < TRANSFER_LENGTH
    ensures bus.elapsedTCycles == old(bus.elapsedTCycles) + 4 + 4 * MCycles(accesses)
    ensures MCycles(accesses) == TRANSFER_LENGTH ==>
              bus.video.oam[..] == FirstOfPage(old(bus.wram[..]), page)
  {
    ghost var touched := WithTransferRegister(bus.View(), page);
    BeginTransfer(bus, page);
    ghost var s := bus.View();
    ContinueTransfer(bus, page, accesses);
    hide Transferred, MCycles, WellSized, FirstOfPage;
    StillUntouched(touched, s, bus.View());
    TransferEnds(bus.View(), page, MCycles(accesses));
  }

  // The divider ------------------------------------------------------------------------------

  // As much of the machine as decides when the frame sequencer is clocked: `left` is the number of
  // machine cycles an active transfer still takes.
  datatype Course = Course(divider: u16, left: nat, clocks: nat)

  function CourseIn(s: Snapshot): Course
    requires WellSized(s)
  {
    Course(s.timer.divider, if s.transfer.active then TRANSFER_LENGTH - s.transfer.index else 0, s.clocks)
  }

  predicate Resets(c: Course, a: Access) {
    a.Stop? || (a.Write? && a.address == 0xff04 && c.left == 0)
  }

  function Advance(c: Course, a: Access): Course {
    var resets := Resets(c, a);
    Course(if a.Stop? then 0 else ((if resets then 0 else c.divider) + 4) % 0x1_0000,
           if StartsTransfer(a) then TRANSFER_LENGTH else if a.Stop? || c.left == 0 then c.left else c.left - 1,
           c.clocks + (if resets then Apus.ResetClocks(c.divider) else Apus.SequencerClocks(c.divider, 4)))
  }

  function CourseOf(c: Course, accesses: seq<Access>): Course {
    if accesses == [] then c
    else Advance(CourseOf(c, accesses[..|accesses| - 1]), accesses[|accesses| - 1])
  }

  lemma {:induction false} CourseStep(c: Course, accesses: seq<Access>, i: nat)
    requires i < |accesses|
    ensures CourseOf(c, accesses[..0]) == c
    ensures CourseOf(c, accesses[..i + 1]) == Advance(CourseOf(c, accesses[..i]), accesses[i])
  {
    assert accesses[..i + 1][..i] == accesses[..i];
  }

  lemma {:induction false} TickAdvances(s: Snapshot, t: Snapshot)
    requires WellSized(s) && Ticks(s, t)
    ensures WellSized(t) && CourseIn(t) == Advance(CourseIn(s), Idle)
  {
    hide Timers.After;
  }

  lemma DividerRestarts(s: Snapshot)
    requires WellSized(s)
    ensures CourseIn(DividerReset(s)) == Advance(CourseIn(s), Stop)
  {
    Timers.WrittenDivider(s.timer, 0xff04, 0);
    hide Timers.Written;
  }

  lemma StoredKeepsCourse(s: Snapshot, address: u16, value: u8, open: Open)
    requires WellSized(s) && address != 0xff04
    ensures CourseIn(Stored(s, address, value, open)) ==
            CourseIn(s).(left := if address == 0xff46 then TRANSFER_LENGTH else CourseIn(s).left)
  {
    Timers.WrittenDivider(s.timer, address, value);
    hide Timers.Written, Bit, Dots.WriteRegister;
  }

  lemma {:induction false} PerformsAdvances(s: Snapshot, a: Access, open: Open, t: Snapshot)
    requires WellSized(s) && Performs(s, a, open, t)
    ensures WellSized(t) && CourseIn(t) == Advance(CourseIn(s), a)
  {
    hide Copies, Timers.Cycled, Apus.SequencerClocks, Apus.ResetClocks, Timers.Written, DividerReset;
    match a
    case Stop => DividerRestarts(s);
    case Write(address, value) =>
      if !Allowed(s.transfer.active, address) {
        TickAdvances(s, t);
      } else if address == 0xff04 {
        DividerRestarts(s);
        TickAdvances(DividerReset(s), t);
        NoClockYet();
      } else if TakesEffectFirst(address) {
        StoredKeepsCourse(s, address, value, open);
        TickAdvances(Stored(s, address, value, open), t);
      } else {
        var u :| Ticks(s, u) && t == Stored(u, address, value, open);
        TickAdvances(s, u);
        StoredKeepsCourse(u, address, value, open);
      }
    case _ => TickAdvances(s, t);
  }

  lemma NoClockYet()
    ensures Apus.SequencerClocks(0, 4) == 0
  {
  }

  // A run splits at any access, so the clocks of a run with resets are the sum over its segments.
  lemma {:induction false} CoursesCompose(c: Course, a: seq<Access>, b: seq<Access>)
    ensures CourseOf(c, a + b) == CourseOf(CourseOf(c, a), b)
  {
    hide Advance;
    if b == [] {
      assert a + b == a;
    } else {
      assert (a + b)[..|a + b| - 1] == a + b[..|b| - 1];
      CoursesCompose(c, a, b[..|b| - 1]);
    }
  }

  // While nothing resets the divider, the clocks are the 8192-cycle boundaries it crosses.
  lemma {:induction false} ClockedByTime(c: Course, accesses: seq<Access>)
    requires forall k :: 0 <= k < |accesses| ==> !Resets(CourseOf(c, accesses[..k]), accesses[k])
    ensures var end, n := CourseOf(c, accesses), 4 * |accesses|;
            end.divider == (c.divider + n) % 0x1_0000 && end.clocks == c.clocks + Apus.SequencerClocks(c.divider, n)
  {
    hide Advance, Resets;
    Apus.NoCycles(c.divider, 0, 0);
    hide Apus.SequencerClocks;
    if accesses != [] {
      var init := accesses[..|accesses| - 1];
      forall k | 0 <= k < |init| ensures !Resets(CourseOf(c, init[..k]), init[k]) {
        assert init[..k] == accesses[..k];
      }
      ClockedByTime(c, init);
      assert accesses[..|init|] == init;
      Unreset(CourseOf(c, init), accesses[|init|]);
      MoreClocks(c.divider, 4 * |init|);
    }
  }

  lemma Unreset(c: Course, a: Access)
    requires !Resets(c, a)
    ensures Advance(c, a).divider == (c.divider + 4) % 0x1_0000
    ensures Advance(c, a).clocks == c.clocks + Apus.SequencerClocks(c.divider, 4)
  {
  }

  lemma {:induction false} MoreClocks(divider: u16, n: nat)
    ensures Apus.SequencerClocks(divider, n + 4)
            == Apus.SequencerClocks(divider, n) + Apus.SequencerClocks((divider + n) % 0x1_0000, 4)
    ensures ((divider + n) % 0x1_0000 + 4) % 0x1_0000 == (divider + n + 4) % 0x1_0000
  {
    var y := divider + n;
    var q, r := y / 0x1_0000, y % 0x1_0000;
    DivModUnique(y, Apus.SEQUENCER_PERIOD, 8 * q + r / Apus.SEQUENCER_PERIOD, r % Apus.SEQUENCER_PERIOD);
    DivModUnique(y + 4, Apus.SEQUENCER_PERIOD, 8 * q + (r + 4) / Apus.SEQUENCER_PERIOD,
                 (r + 4) % Apus.SEQUENCER_PERIOD);
    DivModSplit(y, 4, 0x1_0000);
  }

  // The timer --------------------------------------------------------------------------------

  predicate TakesCycle(a: Access) {
    a.Read? || a.Idle?
  }

  // The order in which a CPU makes its accesses: STOP puts it to sleep, and what a sleeping or waking
  // CPU does first is an idle cycle or a fetch.
  predicate CpuOrdered(accesses: seq<Access>) {
    forall k :: 0 < k < |accesses| && accesses[k - 1].Stop? ==> TakesCycle(accesses[k])
  }

  // The order a CPU would remember of these accesses.
  function OrderOf(accesses: seq<Access>): Cpus.Order {
    if accesses == [] then Cpus.Kept
    else
      var before := OrderOf(accesses[..|accesses| - 1]);
      match accesses[|accesses| - 1]
      case Stop => Cpus.AfterReset(before)
      case Write(_, _) => Cpus.AfterWrite(before)
      case _ => Cpus.AfterCycle(before)
  }

  // It is the order that every run of the CPU keeps.
  lemma {:induction false} OrderIsCpuOrder(accesses: seq<Access>)
    ensures OrderOf(accesses) != Cpus.Broken <==> CpuOrdered(accesses)
    ensures OrderOf(accesses) == Cpus.JustReset <==>
            CpuOrdered(accesses) && accesses != [] && accesses[|accesses| - 1].Stop?
  {
    if accesses != [] {
      var init := accesses[..|accesses| - 1];
      OrderIsCpuOrder(init);
      assert forall k :: 0 <= k < |init| ==> init[k] == accesses[k];
      assert CpuOrdered(accesses) ==> CpuOrdered(init);
    }
  }

  // The timer after a run of accesses.
  predicate Settled(accesses: seq<Access>, timer: Timers.State) {
    if accesses != [] && accesses[|accesses| - 1].Stop? then Timers.Ready(timer) else Timers.InStep(timer)
  }

  lemma {:induction false} TimerKeepsStep(s: Snapshot, a: Access, open: Open, t: Snapshot)
    requires WellSized(s) && Performs(s, a, open, t)
    requires Timers.InStep(s.timer) || (Timers.Ready(s.timer) && TakesCycle(a))
    ensures if a.Stop? then Timers.Ready(t.timer) else Timers.InStep(t.timer)
  {
    hide Timers.Cycled, Timers.Written, Bit, Dots.WriteRegister, Copies;
    if Timers.InStep(s.timer) {
      Timers.InStepIsReady(s.timer);
    }
    hide Timers.Ready;
    if Timers.InStep(s.timer) && a.Stop? {
      Timers.ReadyAfterWrite(s.timer, 0xff04, 0);
    } else if Timers.InStep(s.timer) && a.Write? && Allowed(s.transfer.active, a.address)
        && 0xff04 <= a.address <= 0xff07 {
      Timers.ReadyAfterWrite(s.timer, a.address, if a.address == 0xff04 then 0 else a.value);
      Timers.MachineCycle(Stored(s, a.address, a.value, open).timer);
    } else {
      Timers.MachineCycle(s.timer);
    }
  }

  // Any run of accesses keeps the two dividers equal, so the frame sequencer is clocked once for
  // every 8192-cycle boundary of the timer's own divider, and once for every reset of it with
  // bit 12 high; `ClockedByTime` sums a run without resets. A run in the CPU's order also keeps the
  // timer in step: whenever it stops between two accesses, a pending reload means TIMA reads zero.
  method Run(bus: MachineBus, accesses: seq<Access>)
    requires bus.Valid()
    modifies bus`elapsedTCycles, bus.Devices()
    ensures bus.Valid() && bus.timer.divider == bus.audio.dividerMirror
    ensures CourseIn(bus.View()) == CourseOf(old(CourseIn(bus.View())), accesses)
    ensures bus.elapsedTCycles == old(bus.elapsedTCycles) + 4 * MCycles(accesses)
    ensures CpuOrdered(accesses) && old(Timers.InStep(bus.timer.Whole())) ==>
              Settled(accesses, bus.timer.Whole()) && bus.timer.PendingMeansZero()
  {
    MCyclesEmpty(accesses);
    ghost var start := CourseIn(bus.View());
    ghost var ordered := CpuOrdered(accesses) && Timers.InStep(bus.timer.Whole());
    hide MachineBus.Assembled, Performs, CourseIn, Advance, MCycles, Timers.InStep, Timers.Ready;
    for i := 0 to |accesses|
      invariant bus.Valid() && CourseIn(bus.View()) == CourseOf(start, accesses[..i])
      invariant bus.elapsedTCycles == old(bus.elapsedTCycles) + 4 * MCycles(accesses[..i])
      invariant ordered ==> Settled(accesses[..i], bus.timer.Whole())
    {
      ghost var s, open := bus.View(), bus.Accessible();
      bus.Perform(accesses[i]);
      PerformsAdvances(s, accesses[i], open, bus.View());
      CourseStep(start, accesses, i);
      MCyclesStep(accesses, i);
      if ordered {
        TimerKeepsStep(s, accesses[i], open, bus.View());
      }
    }
    assert accesses[..|accesses|] == accesses;
    if ordered {
      SettledReadsZero(accesses, bus.timer.Whole());
    }
  }

  lemma SettledReadsZero(accesses: seq<Access>, timer: Timers.State)
    requires Settled(accesses, timer)
    ensures timer.o.pending.Some? ==> timer.o.tima == 0
  {
  }
}
