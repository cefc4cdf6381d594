# Verification of the Game Boy emulator and its LAN controller

A Dafny model of the emulator core, of the path that carries a phone's buttons into it, and of the
audio and session machinery around it, with proofs of what these parts promise over whole runs.
`dafny verify dfyconfig.toml` checks everything.

One module per component of the program:

- `Timer`, `Apu`, `Bus`, `Rtc`: the clocked devices. Objects whose methods update fields in place
  are classes; the cycle loops are proved equal to closed forms, and the closed forms are then
  reasoned about. The bus runs the real timer, PPU and APU classes.
- `Sprites`, `Rendering`, `Dots`, `Frames`, `Ppu`: object selection, one scanline against a
  declarative pixel rule, the per-dot machine on values with its cached STAT line, what the frames of
  a whole run show, and the object that follows these values.
- `Cpu`: the predictor of an instruction's cost against the executor, and the run loop on top, over
  arbitrary devices behind the bus.
- `Protocol`, `Tracker`, `ControllerSession`, `ControllerInput`, `Sessions`, `SocketServer`,
  `Generations`, `Replication`: from the pointers on the phone's screen to the buttons the core sees.
  Threads and socket tasks are state machines over their atomic steps, and the objects behind them
  follow these; `Replication` composes the stages.
- `AudioQueue`, `Pacing`: the flush handshake between the worker and the audio callback, and the
  bound that keeps the worker from overrunning the queue.
- `SessionManager`, `RateLimiter`: the server lifecycle and the token bucket.

Interleaved protocols have a `Step` function over labels, one label per atomic step of some thread;
a label that is not enabled leaves the state alone, so every sequence of labels is a run. A class
that is driven from outside has a `Run` method that performs any sequence of its operations. Where the
state of a class is large its methods are proved to leave what a function of the whole old state says,
and the properties are lemmas about these functions.

Four claims turned out to hold only under a condition, which is proved to be exact:

- A step costs what the predictor said if and only if the byte behind a CB prefix has the same cost
  after the machine cycle that fetches the prefix (`Cpus.Instruction`, `Cpus.Prefix`,
  `Cpus.UnstablePrefix`), as it has when that byte is in work RAM or HRAM and no OAM transfer is active
  (`Cpus.KeptByteIsStable`, `Buses.FetchKeepsMemory`). A run stays within its budget if its steps are stable in this sense, and is
  never more than 8 T-cycles over (`GameBoy.RunCycles`).
- For the `Timer` object alone, a pending reload means TIMA = 0 except after TMA is written with a
  nonzero value in the very cycle of a reload while another reload is already pending (`Timer.Write`,
  `PendingReloadOverNonzeroTima`). The bus never brings this about: in every run of accesses in the
  order in which a CPU makes them the property holds after each access (`Buses.Run`), and every run of
  the CPU keeps that order (`Cpus.RunsInOrder`, `Buses.OrderIsCpuOrder`).
- Writing an RTC register's own value back changes nothing if and only if the clock is halted or was
  not last updated in the future (`OwnValueWriteBack`, `WriteBackStartsWaitingClock`).
- The audio watermarks are accepted if and only if the rate is at least 19 Hz; at every such rate a
  queue at its target has room for one more tick (`AcceptedRates`, `OneTickFits`).

What is assumed of the surroundings: atomic operations are sequentially consistent; no message of a
connection is delivered after the client closed it, and listeners do not re-enter; the audio device asks
for an even number of samples; a server begins no upgrade once it has stopped serving, and publishes
events only after its pairing has been handed out and before its shutdown returns; setting the wall
clock twice to one reading is setting it once, and the reading is a function of the machine cycle, where
two runs are compared with one. A phone's heartbeat timers are exclusive as long as the server sends no
second welcome while a pong is awaited.

## Model

| member | source | states |
|---|---|---|
| `Ppus.Run` | crates/gb-core/src/ppu/mod.rs:121-249 | after any mix of ticks, CPU writes, DMA writes and frame takes the device is where the run of its single events from power-on leads; a frame is pending exactly when the last one published has not been taken, and that frame has the next number and is white after an LCD start or else in each of its 144 rows what the pixel rule demands of the video state before the dot that drew the row |
| `Frames.PendingFrame` | crates/gb-core/src/ppu/mod.rs:228-249 | the same for every list of events: which publication a pending frame comes from, its number and all of its rows |
| `Frames.FrameIsUnique` | crates/gb-core/src/ppu/mod.rs:236-249 | what is said of a published frame determines every pixel of it, so no other frame would do |
| `Frames.RowsAreDrawn` | crates/gb-core/src/ppu/render.rs:168-180 | while a frame is being drawn every row above the current line shows its line as of the last dot that drew it, with no publication in between, whatever is written meanwhile |
| `Frames.BlankAfterStart` | crates/gb-core/src/ppu/mod.rs:195-240 | the next frame is to be white exactly when the LCD was switched on since the last publication |
| `Frames.FramesAreCounted` | crates/gb-core/src/ppu/mod.rs:241-248 | frames are numbered by the publications before them |
| `Frames.PaintedShows` | crates/gb-core/src/ppu/render.rs:168-180 | the row that is stored is the one the pixel rule demands |
| `Frames.PaintedKeeps` | crates/gb-core/src/ppu/render.rs:168-180 | storing a row leaves what every other row shows |
| `Ppus.Ppu.TickOne` | crates/gb-core/src/ppu/timing.rs:61-143 | the object makes of its whole state what `Dots.Dot` says, requests VBlank exactly on the dot that publishes and LcdStat exactly when the STAT line rises across the dot |
| `Ppus.Ppu.Tick` | crates/gb-core/src/ppu/mod.rs:217-226 | n dots with the LCD on lead n positions further modulo 70224 and publish one frame per entry into line 144; VBlank is requested exactly if there is one and LcdStat exactly if the STAT line rises across one of the dots; with the LCD off nothing happens |
| `Dots.DotKeepsValid` | crates/gb-core/src/ppu/timing.rs:61-143 | a dot keeps the invariant: the mode is the one of the position, a visible line stores one scanline, and the cached STAT line equals the level although it is re-evaluated on selected dots only |
| `Dots.DotMoves` | crates/gb-core/src/ppu/timing.rs:61-143 | a dot moves the position by one modulo 70224, and the dot that publishes is the one that reaches position 65664 |
| `Dots.RiseIsOfTheLevel` | crates/gb-core/src/ppu/timing.rs:28-39 | LcdStat is requested exactly when the level itself, and not only its cached copy, rises across the dot |
| `Dots.OneEvaluation` | crates/gb-core/src/ppu/timing.rs:65-102 | no dot evaluates the level twice to different effect, so merging its requests loses none |
| `Dots.MovedMeasures` | crates/gb-core/src/ppu/timing.rs:84-134 | a visible line is completed with exactly one stored scanline, and its length is fixed where its drawing starts |
| `Dots.DotMeasures` | crates/gb-core/src/ppu/timing.rs:85-94 | where drawing starts the objects of the line are selected and its HBlank dot is one before the end of mode 3 exactly if an object costs anything |
| `Dots.MovedComparesLyc` | crates/gb-core/src/ppu/timing.rs:65-139 | LYC is compared when a line starts, two dots into it after an LCD start, and at 153.4; after an LCD start the end of a visible line can only clear it |
| `Dots.Mode3Length` | crates/gb-core/src/ppu/timing.rs:41-51 | for every SCX, WX, WY and selection mode 3 lasts 172 to 289 dots, and at least two dots longer than 172 when an object costs anything |
| `Dots.NextEntry` | crates/gb-core/src/ppu/timing.rs:108-113 | the number of entries into line 144 grows by one exactly on position 65664 |
| `Dots.RanAdvances` | crates/gb-core/src/ppu/mod.rs:217-226 | n dots keep the invariant, the registers and the memories, advance the position by n, number one frame per entry into line 144 and otherwise leave the pending frame |
| `Dots.BatchesCompose` | crates/gb-core/src/ppu/mod.rs:217-226 | ticking m and then n dots is ticking m + n, in the state it leads to and in the requests it makes |
| `Ppus.Ppu.Write` | crates/gb-core/src/ppu/mod.rs:121-178 | a CPU write makes of the whole state what `Dots.Written` says and keeps the invariant; VRAM and OAM change only as addressed and accessible |
| `Dots.WrittenKeepsValid` | crates/gb-core/src/ppu/mod.rs:121-209 | every write keeps the invariant, the cached STAT line included |
| `Dots.WriteRequestsRises` | crates/gb-core/src/ppu/mod.rs:121-178 | while the LCD stays on a write requests LcdStat exactly for a level that rose across it or in the instant a STAT write enables every source |
| `Dots.WrittenKeepsFilm` | crates/gb-core/src/ppu/mod.rs:180-209 | only switching the LCD touches the position and the frame: off returns to position 0 without re-evaluating, on resumes at dot 8 of a startup line whose frame is to be white |
| `Dots.WrittenComparesLyc` | crates/gb-core/src/ppu/mod.rs:145-209 | LYC is compared at once when it is written with the LCD on and when the LCD is switched on, and by no other write |
| `Ppus.Ppu.PostBoot` | crates/gb-core/src/ppu/mod.rs:71-93 | the power-on state satisfies the invariant at position 0 |
| `Ppus.Ppu.DmaWriteOam` | crates/gb-core/src/ppu/mod.rs:211-215 | an OAM DMA byte lands at its index whatever the mode |
| `Sprites.SelectionIsFirstTen` | crates/gb-core/src/ppu/sprite.rs:14-35 | an object is selected for a line exactly when it covers it and fewer than ten earlier objects do |
| `Sprites.SelectionIsInOam` | crates/gb-core/src/ppu/sprite.rs:14-35 | the selected objects are OAM entries in strictly increasing OAM order, so none is selected twice |
| `Sprites.SortRearranges` | crates/gb-core/src/ppu/render.rs:139-139 | the order by (x, OAM index) is sorted and has the same objects the same number of times |
| `Sprites.SpriteMode3Penalty` | crates/gb-core/src/ppu/sprite.rs:76-110 | the loop with its table of charged tiles computes the per-object sum in which only the first object on a tile waits for the pixels to its right |
| `Sprites.PenaltyBounds` | crates/gb-core/src/ppu/sprite.rs:76-110 | six to eleven dots for every selected object that reaches the screen and none for the others |
| `Rendering.RenderScanline` | crates/gb-core/src/ppu/render.rs:106-166 | the rendered row refines the declarative per-pixel rule for all VRAM, registers and selections, with every index in bounds |
| `Rendering.RenderLayers` | crates/gb-core/src/ppu/render.rs:107-135 | background overridden by the window wherever the window reaches |
| `Rendering.BackgroundColorNumbers` | crates/gb-core/src/ppu/render.rs:79-97 | the background loop gives every column the colour of its map tile, zero when the background is off |
| `Rendering.OverlayObjects` | crates/gb-core/src/ppu/render.rs:141-162 | walking the sorted objects with its two ways of stopping picks the pixel the rule demands, including a behind-flagged winner that hides every lower object |
| `Rendering.RuleIsDeterministic` | crates/gb-core/src/ppu/render.rs:137-164 | the pixel rule leaves exactly one pixel possible |
| `Rendering.SomeoneWins` | crates/gb-core/src/ppu/render.rs:139-148 | among opaque objects one has the least (x, OAM index) |
| `Rendering.WindowReachesScreen` | crates/gb-core/src/ppu/render.rs:99-104 | a window visible on a line covers at least one of its columns |
| `Rendering.DecodingIsFaithful` | crates/gb-core/src/ppu/render.rs:59-68 | the two bit planes of a decoded tile row are the two bytes it was decoded from |
| `Rendering.DecodeTileRowBits` | crates/gb-core/src/ppu/render.rs:59-68 | the loop over the bits computes the decoded row |
| `Rendering.TileRowsAreApart` | crates/gb-core/src/ppu/render.rs:49-57 | signed and unsigned addressing agree exactly for tiles 128 to 255, and rows never overlap |
| `Rendering.FlipMirrors` | crates/gb-core/src/ppu/sprite.rs:48-58 | the two flip flags mirror an object inside its box, 8 or 16 lines high |
| `Timers.Timer.Tick` | crates/gb-core/src/timer.rs:68-89 | n T-cycles without a register write leave the divider, TIMA, the pending reload, the reload flag and the interrupt request given by the closed form, from any state |
| `Timers.Timer.TickCycle` | crates/gb-core/src/timer.rs:70-87 | one T-cycle: a due reload first, then the falling edge of the selected divider bit |
| `Timers.CyclesAreClosedForm` | crates/gb-core/src/timer.rs:68-89 | iterating single cycles and the closed form agree for every start and length |
| `Timers.NoIncrementLost` | crates/gb-core/src/timer.rs:70-114 | every falling edge is either in TIMA or was spent, 256 - TMA at a time, on a reload |
| `Timers.FallingEdge` | crates/gb-core/src/timer.rs:78-102 | the selected bit falls exactly when the divider reaches a multiple of the period, 16-bit wrap included |
| `Timers.Timer.Write` | crates/gb-core/src/timer.rs:37-66 | what each register write does to the whole timer; as a fact about this object it breaks `pending means TIMA = 0` exactly when TMA is written nonzero in a reload cycle with another reload pending |
| `Timers.PendingReloadOverNonzeroTima` | crates/gb-core/src/timer.rs:37-66 | a sequence of calls from construction that leaves a reload pending over TIMA = 7, with single cycles no bus produces |
| `Timers.MachineCycle` | crates/gb-core/src/timer.rs:68-89 | the four cycles of a bus access leave a pending reload only if it started with the last of them, and then TIMA is 0 |
| `Timers.ReadyAfterWrite` | crates/gb-core/src/timer.rs:37-66 | no register write, whatever the address and value, spoils that for the machine cycle that follows it |
| `Timers.Timer.IncrementTima` | crates/gb-core/src/timer.rs:104-114 | an increment is ignored while a reload is pending and overflows into a four-cycle delay |
| `Cpus.Stepped` | crates/gb-core/src/cpu/execute.rs:13-118 | for every mode, IME, halt bug, flags, opcode and devices behind the bus a step fails exactly when it was predicted to, consumes what was predicted if the bytes of a prefixed instruction are stable, at most 8 T-cycles more otherwise, and never makes more bus accesses than fit |
| `Cpus.Cpu.Step` | crates/gb-core/src/cpu/execute.rs:48-118 | the object steps as that function says, so the cycles it returns are the ones the side-effect-free predictor announced |
| `Cpus.Instruction` | crates/gb-core/src/cpu/execute.rs:85-105 | fetch, execute and pad: the cost is the predicted one if and only if the next instruction is stable |
| `Cpus.Prefix` | crates/gb-core/src/cpu/execute.rs:85-93 | a CB-prefixed instruction costs what was predicted if and only if its second byte still has that cost after the cycle that fetches the prefix |
| `Cpus.UnstablePrefix` | crates/gb-core/src/cpu/execute.rs:13-46 | with the program counter at SCX holding 0xcb and LY about to step from 5 to 6, RLC L is predicted for 8 T-cycles and RLC (HL) takes 16 |
| `Cpus.KeptByteIsStable` | crates/gb-core/src/cpu/execute.rs:13-46 | if fetching the prefix leaves the byte behind it, the step costs what was predicted |
| `Cpus.Executed` | crates/gb-core/src/cpu/execute.rs:262-470 | every unprefixed instruction, with its real loads, stores, stack and jumps, stays within its declared cycles and takes the branch the predictor evaluated |
| `Cpus.Cpu.ExecuteBase` | crates/gb-core/src/cpu/execute.rs:262-470 | the object executes as that function says and keeps the same bound |
| `Cpus.Low` | crates/gb-core/src/cpu/execute.rs:269-347 | the same for opcodes 0x00 to 0x3f, STOP and the relative jumps included |
| `Cpus.Loads` | crates/gb-core/src/cpu/execute.rs:348-358 | the same for opcodes 0x40 to 0x7f, HALT with its bug included |
| `Cpus.Accumulate` | crates/gb-core/src/cpu/execute.rs:359-363 | the same for opcodes 0x80 to 0xbf |
| `Cpus.High` | crates/gb-core/src/cpu/execute.rs:364-470 | the same for opcodes 0xc0 to 0xff |
| `Cpus.Prefixed` | crates/gb-core/src/cpu/execute.rs:591-625 | a prefixed operation reads its operand once and writes it back unless it is BIT |
| `Cpus.Serviced` | crates/gb-core/src/cpu/execute.rs:627-637 | an interrupt is acknowledged and takes five M-cycles with two bus writes; IME is off at its vector |
| `Cpus.Padded` | crates/gb-core/src/cpu/execute.rs:137-142 | padding ends exactly at the target and touches nothing of the CPU |
| `Cpus.BaseCycles` | crates/gb-core/src/cpu/decode.rs:49-132 | every declared cycle count is a positive multiple of four |
| `Cpus.OpcodeParts` | crates/gb-core/src/cpu/decode.rs:49-132 | the instructions there are, by their parts, are exactly the opcodes that are neither illegal nor the prefix |
| `Cpus.PairsReadBack` | crates/gb-core/src/cpu/execute.rs:179-213 | a register pair reads back what was written to it, except the lower half of F |
| `Cpus.GameBoy.RunCycles` | crates/gb-core/src/machine.rs:88-106 | for every machine the run loop ends, leaves exactly the cycles it reports on the clock and the machine the step function defines, stays within its budget if every step it takes is stable, and is never more than 8 T-cycles over |
| `Cpus.RanWithinBudget` | crates/gb-core/src/machine.rs:91-100 | the two bounds on the run that the step function defines |
| `Cpus.RunsCompose` | crates/gb-core/src/machine.rs:88-106 | running with budget a, which executes e, and then with budget b ends in the same registers, devices and cycle as running once with e + b |
| `Cpus.GameBoy.RunTwice` | crates/gb-core/src/machine.rs:88-106 | two calls of run_cycles in a row on one machine are one such run |
| `Cpus.RunsInOrder` | crates/gb-core/src/cpu/execute.rs:48-118 | in every run, whatever the program and the devices, the reset of the divider by STOP is followed by a read or an idle cycle before any write or other reset |
| `Cpus.StepInOrder` | crates/gb-core/src/cpu/execute.rs:48-118 | the same for one step, over all instructions, interrupts and modes |
| `Apus.Apu.Tick` | crates/gb-core/src/apu/mod.rs:168-207 | n cycles advance the divider mirror by n, clock the frame sequencer once per 8192-cycle boundary, leave phase (p + n*rate) mod 4194304 and push exactly floor((p + n*rate)/4194304) frames, in order |
| `Apus.Apu.TickTCycle` | crates/gb-core/src/apu/mod.rs:168-207 | one cycle of the above |
| `Apus.Apu.EmitFrames` | crates/gb-core/src/apu/mod.rs:181-206 | the inner loop pushes one frame per whole clock period in the phase, silent while the APU is off |
| `Apus.Apu.Write` | crates/gb-core/src/apu/mod.rs:91-138 | a DIV write clocks the sequencer once exactly if bit 12 was high; other writes leave the divider, the phase and the clock count alone |
| `Apus.Apu.WriteNr52` | crates/gb-core/src/apu/mod.rs:144-161 | power-off empties the PCM buffer and both switches restart the sequencer at step 0 |
| `Apus.Bit12Falls` | crates/gb-core/src/apu/mod.rs:169-173 | bit 12 falls exactly on a multiple of 8192, 16-bit wrap included |
| `Apus.OneMoreCycle` | crates/gb-core/src/apu/mod.rs:180-182 | the sample phase loses nothing when it is reduced every cycle |
| `Apus.TickBound` | apps/desktop/src-tauri/src/emulator/runtime.rs:1218-1219 | cycles within one tick's budget generate at most floor(budget*rate/4194304) + 1 frames |
| `Apus.PcmBuffer.PushStereo` | crates/gb-core/src/apu/pcm.rs:24-32 | frames pushed = drained + dropped + buffered, and the buffer is the newest at most 4096 frames in order |
| `Apus.PcmBuffer.DropOldest` | crates/gb-core/src/apu/pcm.rs:25-29 | a full buffer drops its oldest frame and counts it |
| `Apus.PcmBuffer.Drain` | crates/gb-core/src/apu/pcm.rs:38-44 | a drain hands over the whole buffer once |
| `Apus.InterleavedDropsFirst` | crates/gb-core/src/apu/pcm.rs:25-28 | two pops from the front remove exactly one stereo frame |
| `Buses.MachineBus.TickMCycle` | crates/gb-core/src/bus/mod.rs:87-98 | one machine cycle: the timer by its closed form, the two dividers equal, one byte of an active transfer moved from WRAM or its echo when the page is there; registers, VRAM and memories untouched |
| `Buses.MachineBus.Read8` | crates/gb-core/src/bus/mod.rs:219-227 | during a transfer only HRAM can be read, everything else reads 0xff |
| `Buses.MachineBus.Write8` | crates/gb-core/src/bus/mod.rs:229-241 | during a transfer a write that is not to HRAM or FF46 leaves exactly an idle cycle behind; timer and video-memory writes act before the cycle, the others after it |
| `Buses.MachineBus.WriteUnclocked` | crates/gb-core/src/bus/mod.rs:119-167 | each address changes its own device and nothing else; a DIV write resets both dividers |
| `Buses.MachineBus.ReadUnclocked` | crates/gb-core/src/bus/mod.rs:100-117 | WRAM, echo, HRAM and timer reads |
| `Buses.MachineBus.ResetDivider` | crates/gb-core/src/bus/mod.rs:262-266 | STOP resets both dividers and clocks the sequencer as a DIV write does |
| `Buses.MachineBus.Reset` | crates/gb-core/src/bus/mod.rs:176-190 | a reset rebuilds both dividers from one value, clears the memories and stops a transfer |
| `Buses.OamDma.Advance` | crates/gb-core/src/bus/dma.rs:27-32 | an active transfer's index stays below 160 and the 160th byte ends it |
| `Buses.FetchKeepsMemory` | crates/gb-core/src/bus/mod.rs:219-227 | with no transfer active a fetch leaves every byte of work RAM and HRAM as it reads, which makes a CB prefix in front of one stable |
| `Buses.OnlyHramDuringTransfer` | crates/gb-core/src/bus/mod.rs:219-241 | during a transfer any access but a write of FF46 leaves the whole machine as an idle cycle would have, except for HRAM |
| `Buses.RunTransfer` | crates/gb-core/src/bus/mod.rs:87-98 | a transfer from a work-RAM page is active for exactly 160 machine cycles whatever else the CPU does, leaves OAM equal to the first 160 bytes of the page, and meanwhile no access changes work RAM, VRAM, a video register, TMA, TAC or the sound power switch |
| `Buses.TransferContinues` | crates/gb-core/src/bus/mod.rs:87-98 | one access of that run, as a fact about the values before and after |
| `Buses.Run` | crates/gb-core/src/bus/mod.rs:218-266 | over any accesses the dividers stay equal and the sequencer's clocks are what the accesses and the starting divider determine; in the CPU's order every run keeps a pending reload at TIMA = 0 |
| `Buses.PerformsAdvances` | crates/gb-core/src/bus/mod.rs:218-266 | per access: one clock per 8192 boundary of the divider, and one for each reset that gets through with bit 12 high |
| `Buses.ClockedByTime` | crates/gb-core/src/apu/mod.rs:169-176 | while nothing resets the divider d the clocks of n machine cycles are floor((d + 4n)/8192) - floor(d/8192) |
| `Buses.CoursesCompose` | crates/gb-core/src/bus/mod.rs:218-266 | a run splits at any access, so clocks add up over the segments between resets |
| `Buses.OrderIsCpuOrder` | crates/gb-core/src/bus/mod.rs:218-266 | the order in question is exactly the one that every run of the CPU keeps |
| `Buses.TimerKeepsStep` | crates/gb-core/src/bus/mod.rs:229-266 | every access in the CPU's order keeps the timer in step with the machine cycles, from which `pending means TIMA = 0` follows |
| `Rtcs.ObservationIndependence` | crates/gb-core/src/cartridge/mbc3.rs:57-136 | for nondecreasing clocks any syncs, latches, resets, saves and reloads between register writes leave every later counter and carry as if only the writes had happened |
| `Rtcs.Run` | crates/gb-core/src/cartridge/mbc3.rs:57-136 | the same for every run of the object from power-on, whose counter stays below 512 days |
| `Rtcs.SyncIsInvisible` | crates/gb-core/src/cartridge/mbc3.rs:68-75 | synchronising splits the elapsed time without losing seconds or the sticky carry |
| `Rtcs.WriteKeepsSame` | crates/gb-core/src/cartridge/mbc3.rs:102-124 | clocks that read alike still do after the same register write |
| `Rtcs.WriteThenRead` | crates/gb-core/src/cartridge/mbc3.rs:102-124 | a written register reads what was stored and the others read as before |
| `Rtcs.OwnValueWriteBack` | crates/gb-core/src/cartridge/mbc3.rs:102-124 | writing back a register's own value is invisible if and only if the clock is halted or was not last updated in the future |
| `Rtcs.WriteBackStartsWaitingClock` | crates/gb-core/src/cartridge/mbc3.rs:121-123 | the failing case: a clock waiting for second 100 starts at 50 |
| `Rtcs.CounterComposes` | crates/gb-core/src/cartridge/mbc3.rs:77-117 | registers in range and the counter determine each other |
| `Rtcs.OwnValue` | crates/gb-core/src/cartridge/mbc3.rs:77-112 | storing the byte a register reads leaves every register as it was |
| `Rtcs.SaveRoundTrip` | crates/gb-core/src/cartridge/mbc3.rs:126-136 | every clock is recovered from its 22 bytes |
| `Rtcs.SavesAreUnique` | crates/gb-core/src/cartridge/mbc3.rs:31-55 | every accepted byte string is the save of the clock it decodes to |
| `Rtcs.FromBytes` | crates/gb-core/src/cartridge/mbc3.rs:31-55 | loading succeeds on exactly the saves of valid clocks and continues them to the present |
| `Rtcs.RtcState.Bytes` | crates/gb-core/src/cartridge/mbc3.rs:126-136 | a save is the clock synchronised to that instant, and changes nothing |
| `Rtcs.RtcState.Latch` | crates/gb-core/src/cartridge/mbc3.rs:90-100 | writing 0 and then 1 copies the registers as they read at the second write; nothing else does |
| `Rtcs.RtcState.WriteRegister` | crates/gb-core/src/cartridge/mbc3.rs:102-124 | the in-place update is the specified one |
| `Rtcs.LeUnique` | crates/gb-core/src/cartridge/mbc3.rs:37-38 | eight little-endian bytes and the number they hold determine each other |
| `SocketServer.TraceIsBracketed` | crates/gb-network/src/server.rs:446-480 | for any number of socket tasks in any interleaving the sink sees complete blocks Connected, messages, Disconnected that never overlap |
| `SocketServer.TraceIsAnnounced` | crates/gb-network/src/server.rs:446-480 | whatever any run of the tasks puts on the sink, some run of the runtime announces exactly that, so what is proved of the runtime's publisher covers every server |
| `SocketServer.ControllerIsExclusive` | crates/gb-network/src/server.rs:446-453 | at most one task holds the controller claim |
| `SocketServer.NoConnectionMissesShutdown` | crates/gb-network/src/server.rs:330-349 | a task past the token check subscribed before the shutdown broadcast |
| `SocketServer.NothingOutlivesShutdown` | crates/gb-network/src/server.rs:330-349 | once the server thread has exited no task is left, every block is closed and nothing is published again |
| `SocketServer.RunKeepsInv` | crates/gb-network/src/server.rs:369-480 | claim, trace, token order and task count hold in every run |
| `Sessions.SessionMachine.Apply` | crates/gb-network/src/session.rs:248-287 | after the hello a numbered message is accepted exactly when it continues a list contiguous modulo 2^53 |
| `Sessions.SessionMachine.AcceptHello` | crates/gb-network/src/session.rs:209-246 | a hello is welcomed exactly once, with the right token, before expiry and for protocol v1; every refusal has the reason of the first test it fails |
| `Sessions.SessionMachine.Disconnect` | crates/gb-network/src/session.rs:289-298 | one disconnect per authenticated connection |
| `RateLimiters.InputRateLimiter.Allow` | crates/gb-network/src/rate_limit.rs:25-37 | a call passes if and only if no window of calls that ends with it would exceed capacity plus refill, judged by the running-maximum clock and without rounding |
| `RateLimiters.WindowBound` | crates/gb-network/src/rate_limit.rs:25-37 | the calls allowed in any window are at most capacity plus rate times elapsed |
| `RateLimiters.RefillStep` | crates/gb-network/src/rate_limit.rs:26-30 | refilling in steps with a cap loses nothing against the exact bucket |
| `RateLimiters.TakeStep` | crates/gb-network/src/rate_limit.rs:32-36 | a call takes its token out of every window |
| `RateLimiters.SaturationIsHarmless` | crates/gb-network/src/rate_limit.rs:26-29 | the saturating operations never change the outcome |
| `RateLimiters.Run` | crates/gb-network/src/rate_limit.rs:15-37 | both for every run of calls with clocks in any order |
| `Generations.ControllerGenerations.Prepare` | apps/desktop/src-tauri/src/emulator/runtime.rs:55-104 | for any events generations only grow, a connect gets one newer than all before, a disconnect of the current controller cancels through its own, and no event is ever given a cancelled generation |
| `Generations.RemoteInputs.ApplyControllerEvent` | apps/desktop/src-tauri/src/emulator/runtime.rs:1076-1147 | a message of a live generation updates the retained snapshot and a loaded core alike; a cancelled one does nothing |
| `Generations.RemoteInputs.DrainCancelled` | apps/desktop/src-tauri/src/emulator/runtime.rs:1165-1185 | after a drain no owner is cancelled, and a core that agreed with the retained snapshot still does if and only if no newer owner had one |
| `Generations.DrainKeepsInv` | apps/desktop/src-tauri/src/emulator/runtime.rs:1165-1185 | the drain that would clear the core under a newer owner's snapshot cannot happen |
| `Generations.HandleKeepsInv` | apps/desktop/src-tauri/src/emulator/runtime.rs:857-1050 | events, ROM open, restart, close and shutdown keep the core equal to the retained snapshot |
| `Generations.AfterEveryDrain` | apps/desktop/src-tauri/src/emulator/runtime.rs:715-779 | in every run, right after a drain a loaded core holds exactly the retained snapshot, which is the sum of its generation's messages and newer than every cancellation drained |
| `Generations.NoInputOutlivesItsBlock` | apps/desktop/src-tauri/src/emulator/runtime.rs:450-477 | once the controller's block is closed, whatever became of its queued commands, the next drain leaves no remote button pressed |
| `Generations.RunKeepsInv` | apps/desktop/src-tauri/src/emulator/runtime.rs:693-785 | the barrier, queue and worker invariant over every interleaving, failed admissions and stale messages included |
| `Generations.AppliedInOrder` | apps/desktop/src-tauri/src/emulator/runtime.rs:450-477 | in every run, while a connection is open the worker has applied an initial stretch of the inputs it passed on, and all of them once none is under way and no call failed |
| `Generations.StepConserves` | apps/desktop/src-tauri/src/emulator/runtime.rs:450-477 | every step keeps applied inputs plus inputs under way equal to admitted inputs |
| `Generations.Interleave` | apps/desktop/src-tauri/src/emulator/runtime.rs:693-785 | the objects follow the step function through every interleaving, so a loaded core always holds the retained snapshot |
| `Generations.Runtime.Perform` | apps/desktop/src-tauri/src/emulator/runtime.rs:450-477 | one atomic step of the objects is the step the runs are made of |
| `Tracker.PointerButtonTracker.Set` | apps/remote-controller/src/features/controller/pointer-button-tracker.ts:9-15 | following the reported transitions leads from the buttons held before to the union of all held pointers |
| `Tracker.PointerButtonTracker.ReleaseButtons` | apps/remote-controller/src/features/controller/pointer-button-tracker.ts:25-34 | the buttons leave every pointer, emptied pointers go, and the transitions say so |
| `Tracker.PointerButtonTracker.Clear` | apps/remote-controller/src/features/controller/pointer-button-tracker.ts:36-40 | clearing reports exactly the buttons that were held |
| `Tracker.ChangesLeadThere` | apps/remote-controller/src/features/controller/pointer-button-tracker.ts:47-52 | the listed transitions turn one held set into the other |
| `Tracker.OnlyChangesAreListed` | apps/remote-controller/src/features/controller/pointer-button-tracker.ts:47-52 | nothing but a change is listed |
| `Tracker.ListedButtons` | apps/remote-controller/src/features/controller/pointer-button-tracker.ts:42-45 | filtering the button order lists exactly the held buttons |
| `ControllerSessions.Run` | apps/remote-controller/src/features/session/controller-session.ts:55-380 | the object follows its happenings as the values do; in every reachable state it is never stuck, its timers fit its status, its retry count is the number scheduled since the delays were last reset and the connection replicates the desired buttons |
| `ControllerSessions.LossRecovers` | apps/remote-controller/src/features/session/controller-session.ts:205-343 | whatever costs a session its connection, except a disconnect asked for and a refusal, is followed by one more retry if a delay is left, by the end of the session if none is, and by a recovery put off while the page is inactive |
| `ControllerSessions.RetriesAreBounded` | apps/remote-controller/src/features/session/controller-session.ts:275-298 | in every stretch of a run without a welcome and without an explicit connect or disconnect at most as many retries fire as there are delays |
| `ControllerSessions.UnavailableWhenExhausted` | apps/remote-controller/src/features/session/controller-session.ts:275-298 | the server is reported unavailable only when every delay has been used by a retry since the last reset, or when the server calls a message malformed |
| `ControllerSessions.DelaysAreConsumed` | apps/remote-controller/src/features/session/controller-session.ts:275-298 | for every happening: a retry that is scheduled consumes one delay, nothing else does, and only a connect, disconnect or welcome makes them available again |
| `ControllerSessions.RetriesAreCounted` | apps/remote-controller/src/features/session/controller-session.ts:275-298 | in every run the retry count is the number of retries scheduled since the last reset and at most the number of delays |
| `ControllerSessions.HappenedKeepsValid` | apps/remote-controller/src/features/session/controller-session.ts:105-343 | every happening keeps the invariant of recovery, heartbeat and replication |
| `ControllerSessions.ControllerSession.Connect` | apps/remote-controller/src/features/session/controller-session.ts:105-112 | an explicit connect starts one new generation with all delays available unless one is under way |
| `ControllerSessions.ControllerSession.SetActive` | apps/remote-controller/src/features/session/controller-session.ts:114-135 | hiding the page stops the timers and remembers to recover; showing it recovers |
| `ControllerSessions.ControllerSession.Disconnect` | apps/remote-controller/src/features/session/controller-session.ts:137-150 | an explicit disconnect releases every button and ends recovery |
| `ControllerSessions.ControllerSession.SetButton` | apps/remote-controller/src/features/session/controller-session.ts:152-167 | a changed button is sent once with the next number, an unchanged one not at all; a send that throws is recovered from |
| `ControllerSessions.ControllerSession.SyncButtons` | apps/remote-controller/src/features/session/controller-session.ts:169-174 | the desired set is replaced and a connected session sends it whole |
| `ControllerSessions.ControllerSession.StartConnection` | apps/remote-controller/src/features/session/controller-session.ts:176-198 | an active page opens a connection of the next generation, an inactive one only marks recovery |
| `ControllerSessions.ControllerSession.HandleMessage` | apps/remote-controller/src/features/session/controller-session.ts:205-240 | messages of an old generation are ignored; a rejection ends the session with its reason, a welcome resets the retries, a disconnected controller recovers; the invariant is kept unless, and only unless, a second welcome arrives while a pong is awaited, which disturbs the heartbeat alone |
| `ControllerSessions.ControllerSession.HandleClose` | apps/remote-controller/src/features/session/controller-session.ts:242-247 | only the current connection's close drops it, and it is recovered from: a retry if a delay is left, unavailable exactly if none is, pending while inactive |
| `ControllerSessions.ControllerSession.HandleTransportFailure` | apps/remote-controller/src/features/session/controller-session.ts:249-263 | the same for a transport failure, a failed send and a missed pong; a retry already scheduled is left running |
| `ControllerSessions.ControllerSession.FailTerminal` | apps/remote-controller/src/features/session/controller-session.ts:265-273 | a terminal failure leaves no timer and no recovery |
| `ControllerSessions.ControllerSession.ScheduleRetry` | apps/remote-controller/src/features/session/controller-session.ts:275-298 | each retry consumes one delay; after the last the session reports the server unavailable |
| `ControllerSessions.ControllerSession.RetryFires` | apps/remote-controller/src/features/session/controller-session.ts:294-297 | a retry that fires opens a connection of the next generation, or uses the next delay if that fails |
| `ControllerSessions.ControllerSession.PingFires` | apps/remote-controller/src/features/session/controller-session.ts:300-318 | a ping takes the next number and arms exactly the pong deadline; one that cannot be sent is recovered from |
| `ControllerSessions.ControllerSession.PongDeadlineFires` | apps/remote-controller/src/features/session/controller-session.ts:310-316 | an unanswered ping drops the connection and recovers from it |
| `ControllerSessions.SendKeeps` | apps/remote-controller/src/features/session/controller-session.ts:328-343 | numbers stay contiguous modulo 2^53 and every message adds up to the buttons desired when it was sent; one that cannot be sent drops the connection and recovers |
| `ControllerInputs.Run` | apps/remote-controller/src/features/controller/use-controller-input.ts:15-72 | however touches, releases, losses of the connection and recoveries interleave, the session wants exactly the buttons held on the screen, unless a disconnect or another caller changed them since they were last all released |
| `ControllerInputs.ControllerInput.SetPointerButtons` | apps/remote-controller/src/features/controller/use-controller-input.ts:21-33 | feeding the tracker's transitions to the session keeps the two in agreement |
| `ControllerInputs.ControllerInput.ReleaseButtons` | apps/remote-controller/src/features/controller/use-controller-input.ts:45-48 | the same for released buttons, which are gone from the session too |
| `ControllerInputs.ControllerInput.ReleaseAll` | apps/remote-controller/src/features/controller/use-controller-input.ts:50-54 | releasing everything brings them into agreement whatever was before |
| `ControllerInputs.OthersKeepDesired` | apps/remote-controller/src/features/session/controller-session.ts:105-343 | no connect, retry, timer, message or loss of the connection changes the desired buttons |
| `Replication.Deliver` | apps/desktop/src-tauri/src/emulator/runtime.rs:1101-1140 | contiguous messages of one connection are all accepted and fold into the core's remote buttons |
| `Replication.ReplicatePrefix` | apps/remote-controller/src/features/session/controller-session.ts:320-343 | whatever prefix of a connection's messages arrives, also after the phone gave it up, the core holds exactly the buttons the phone wanted at the last of them |
| `Replication.CoreFollowsPhone` | apps/desktop/src-tauri/src/emulator/runtime.rs:450-477 | through the command queue and every interleaving a loaded core holds at each moment a set the phone wanted at one of its messages, and once nothing is under way the set at the last that arrived |
| `AudioQueue.FlushIsABarrier` | apps/desktop/src-tauri/src/audio/queue.rs:135-138 | in every interleaving a fill that starts after a flush call returned never puts out a sample enqueued before it |
| `AudioQueue.RingIsCurrent` | apps/desktop/src-tauri/src/audio/queue.rs:190-207 | with no flush pending the ring holds only current-epoch samples; occupancy is even and within capacity |
| `AudioQueue.FirstInFirstOut` | apps/desktop/src-tauri/src/audio/queue.rs:75-109 | samples come out in order, at most once, and are lost only to a later flush |
| `AudioQueue.RunKeepsInv` | apps/desktop/src-tauri/src/audio/queue.rs:75-219 | the epoch, ring and output invariant over every interleaving of the two threads' atomic operations |
| `AudioQueue.RunKeepsBarrier` | apps/desktop/src-tauri/src/audio/queue.rs:190-207 | once a flush is requested its barrier holds for the rest of the run |
| `Pacing.AcceptedRates` | apps/desktop/src-tauri/src/audio/policy.rs:16-32 | the watermarks are strictly ordered if and only if the rate is at least 19 Hz |
| `Pacing.OneTickFits` | apps/desktop/src-tauri/src/audio/policy.rs:16-36 | target plus the frames of a tick that overruns its budget by 8 cycles fit the capacity if and only if the rate is at least 7 Hz |
| `Pacing.WaitStopsAtTarget` | apps/desktop/src-tauri/src/audio/policy.rs:50-54 | a pacing wait is never empty, at most 5 ms, and too short for the device to fall below the target |
| `Pacing.PacedAudio.Pump` | apps/desktop/src-tauri/src/emulator/runtime.rs:787-844 | one pump round never overruns the queue although its reading of it may be out of date |
| `Pacing.PacedAudio.PrimeBatches` | apps/desktop/src-tauri/src/emulator/runtime.rs:805-819 | up to four priming ticks never overrun it either |
| `Pacing.PacedAudio.RunTick` | apps/desktop/src-tauri/src/emulator/runtime.rs:1206-1235 | a tick started with the queue at or below its target fits |
| `Pacing.PacedAudio.Enqueue` | apps/desktop/src-tauri/src/audio/queue.rs:75-109 | a batch is accepted exactly when no flush is pending and it fits; a refusal disables the output |
| `Pacing.Run` | apps/desktop/src-tauri/src/emulator/runtime.rs:693-785 | at every accepted rate, for any rounds, ROM replacements, starts, pauses, restarts, closes and device callbacks, no batch is refused for room or arrives during a flush |
| `Pacing.PacedAudio.OpenRom` | apps/desktop/src-tauri/src/emulator/runtime.rs:882-893 | a ROM comes with an output and an empty queue of its own if one opens |
| `SessionManager.AtMostOneServer` | apps/desktop/src-tauri/src/remote/manager.rs:310-387 | at most one server runs, and between lifecycle calls only the one the manager holds |
| `SessionManager.NeverSuperseded` | apps/desktop/src-tauri/src/remote/manager.rs:414-429 | the branch for a superseded start is never taken |
| `SessionManager.ObserversSeeOrder` | apps/desktop/src-tauri/src/remote/manager.rs:631-644 | delivered revisions strictly increase, and every delivered snapshot is one the model had, in the shape the frontend parses |
| `SessionManager.NewestIsPublished` | apps/desktop/src-tauri/src/remote/manager.rs:452-462 | when nobody is publishing, the newest delivery has been published |
| `SessionManager.RunKeepsInv` | apps/desktop/src-tauri/src/remote/manager.rs:310-600 | the invariant over every interleaving of start, end, subscribe and server events |
| `SessionManager.InstallKeepsInv` | apps/desktop/src-tauri/src/remote/manager.rs:414-429 | a finishing start still owns the operation in progress |
| `SessionManager.StopServerKeepsInv` | apps/desktop/src-tauri/src/remote/manager.rs:353-380 | ending hands the server from the state to its shutdown and nowhere else |
| `SessionManager.EventDeliverKeepsInv` | apps/desktop/src-tauri/src/remote/manager.rs:504-571 | connects, disconnects and runtime failures keep the snapshot in the shape of its phase |
| `SessionManager.RecordKeepsInv` | apps/desktop/src-tauri/src/remote/manager.rs:543-551 | a latency is only ever recorded while connected, and at most 128 are kept |
| `SessionManager.SettleKeepsInv` | apps/desktop/src-tauri/src/remote/manager.rs:382-385 | turning off or failing happens only while no server runs |

## Left out

- Cpus: results and flags of the arithmetic unit are an arbitrary function of the operation, its operand and the registers; everything else an instruction does is modelled.
- Cpus.CpuBus: the devices are arbitrary functions of their own state, not the classes of `Bus`, so a program's effect on a device is whatever these functions say.
- Cpus.GameBoy.RunTwice: stated for a positive second budget; with none the first call may have set the clock once more.
- Buses.MachineBus: the cartridge, joypad, serial port, interrupt registers and video and audio register reads are arbitrary bytes, and interrupt requests are not collected.
- Buses.RunTransfer: stated for pages C0 to FD, which read work RAM; other pages copy whatever the cartridge or video memory gives.
- Apus.Apu: channels, mixer and filters; a generated frame is an opaque value of its number, and clocking the sequencer is counted without the length, sweep and envelope effects.
- Rendering: RGBA bytes and the palette colours; a pixel is its shade number, its underlying colour number and its source.
- Rtcs: wrap-around of 64-bit seconds.
- Generations.RemoteInputs: the map of snapshots is reduced to the one reserved source the runtime admits, and the keyboard source to nothing.
- SocketServer: HTTP, frames, JSON, heartbeat timeouts and rate limiting only end a connection, at any moment.
- ControllerSessions.Run: a second welcome while a pong is awaited, which the server never sends, is left out of the runs; `HandleMessage` says what it does.
- ControllerSessions: listeners and the transport's close codes.
- Tracker: press and release, which call set.
- ControllerInputs: the pressed set shown on the screen, and which browser events release everything.
- AudioQueue, SocketServer, SessionManager: values advanced by atomic steps instead of objects updated in place, so the ring's storage, the output slice and the mutex guards are not represented.
- AudioQueue.FlushIsABarrier: sample values, gain and the underrun counter.
- Pacing.PacedAudio.RunTick: the batch is any number of frames up to what the elapsed cycles generate, because the core's buffer is bounded and a program may clear it.
- SessionManager: messages of errors, latency percentiles, and events of a server whose shutdown reported a failure.
- SessionManager.AtMostOneServer: a server whose shutdown fails is counted as unstopped and no longer as running.
- Frame delivery, ROM loading, MBC1 and MBC5 banking, save files and the user interfaces: each is a few branches without an invariant of its own.
- Wrap-around of 64-bit sequence, revision, generation and cycle counters, lock poisoning, scheduling fairness and wall-clock timeouts.
