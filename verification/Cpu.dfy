// crates/gb-core/src/cpu/decode.rs, execute.rs and machine.rs: what an instruction costs, what the
// side-effect-free predictor says it will cost, and the run loop that relies on their agreement.
// The devices behind the bus and the arithmetic unit are arbitrary functions.
module Cpus {
  import opened Words

  datatype Interrupt = VBlank | LcdStat | Timer | Serial | Joypad

  datatype CpuMode = Running | Halted | Stopped

  datatype Flags = Flags(z: bool, n: bool, h: bool, c: bool)

  datatype Result<+T> = Ok(value: T) | Illegal

  datatype Decoded = Decoded(cyclesTaken: nat, cyclesNotTaken: nat, illegal: bool)

  predicate IsIllegal(opcode: u8) {
    opcode in {0xd3, 0xdb, 0xdd, 0xe3, 0xe4, 0xeb, 0xec, 0xed, 0xf4, 0xfc, 0xfd}
  }

  function Decode(opcode: u8, prefixed: bool): Decoded {
    if prefixed then
      var cycles := if opcode % 8 != 6 then 8 else if opcode / 64 == 1 then 12 else 16;
      Decoded(cycles, cycles, false)
    else
      var (taken, notTaken) := BaseCycles(opcode / 64, opcode / 8 % 8, opcode % 8);
      Decoded(taken, notTaken, IsIllegal(opcode))
  }

  // By the two top bits, the middle three and the low three.
  function BaseCycles(x: nat, y: nat, z: nat): (c: (nat, nat))
    ensures c.0 % 4 == 0 && c.1 % 4 == 0 && c.0 >= 4 && c.1 >= 4
  {
    if x == 0 then
      if z == 0 then
        if y == 0 then (4, 4) else if y == 1 then (20, 20) else if y == 2 then (4, 4)
        else if y == 3 then (12, 12) else (12, 8)
      else if z == 1 then if y % 2 == 0 then (12, 12) else (8, 8)
      else if z == 2 || z == 3 then (8, 8)
      else if z == 4 || z == 5 then if y == 6 then (12, 12) else (4, 4)
      else if z == 6 then if y == 6 then (12, 12) else (8, 8)
      else (4, 4)
    else if x == 1 then
      if y == 6 && z == 6 then (4, 4) else if y == 6 || z == 6 then (8, 8) else (4, 4)
    else if x == 2 then
      if z == 6 then (8, 8) else (4, 4)
    else
      if z == 0 then
        if y <= 3 then (20, 8) else if y == 5 then (16, 16) else (12, 12)
      else if z == 1 then
        if y % 2 == 0 then (12, 12) else if y / 2 <= 1 then (16, 16) else if y / 2 == 2 then (4, 4) else (8, 8)
      else if z == 2 then
        if y < 4 then (16, 12) else if y == 5 || y == 7 then (16, 16) else (8, 8)
      else if z == 3 then
        if y == 0 then (16, 16) else if y == 1 then (8, 8) else (4, 4)
      else if z == 4 then (24, 12)
      else if z == 5 then if y % 2 == 0 then (16, 16) else (24, 24)
      else if z == 6 then (8, 8)
      else (16, 16)
  }

  // The instructions there are, the CB prefix apart.
  predicate Defined(x: nat, y: nat, z: nat) {
    x == 3 ==> (z == 3 ==> y in {0, 6, 7}) && (z == 4 ==> y < 4) && (z == 5 ==> y % 2 == 0 || y == 1)
  }

  lemma OpcodeParts(opcode: u8)
    ensures var x, y, z := opcode / 64, opcode / 8 % 8, opcode % 8;
            opcode == 64 * x + 8 * y + z && (Defined(x, y, z) <==> !IsIllegal(opcode) && opcode != 0xcb)
  {
  }

  function Declared(x: nat, y: nat, z: nat, taken: bool): (n: nat)
    ensures n % 4 == 0 && n >= 4
  {
    if taken then BaseCycles(x, y, z).0 else BaseCycles(x, y, z).1
  }

  function MCycles(x: nat, y: nat, z: nat, taken: bool): (n: nat)
    ensures Declared(x, y, z, taken) == 4 * n
  {
    Declared(x, y, z, taken) / 4
  }

  predicate BranchTaken(f: Flags, opcode: nat) {
    if opcode in {0x20, 0xc0, 0xc2, 0xc4} then !f.z
    else if opcode in {0x28, 0xc8, 0xca, 0xcc} then f.z
    else if opcode in {0x30, 0xd0, 0xd2, 0xd4} then !f.c
    else if opcode in {0x38, 0xd8, 0xda, 0xdc} then f.c
    else true
  }

  predicate Condition(f: Flags, code: nat) {
    if code == 0 then !f.z else if code == 1 then f.z else if code == 2 then !f.c else f.c
  }

  // ---- The machine as a value ----

  function Joined(high: u8, low: u8): u16 {
    high as int * 0x100 + low
  }

  function FlagBits(f: Flags): u8 {
    (if f.z then 0x80 else 0) + (if f.n then 0x40 else 0) + (if f.h then 0x20 else 0) + (if f.c then 0x10 else 0)
  }

  datatype Registers = Registers(a: u8, f: Flags, b: u8, c: u8, d: u8, e: u8, h: u8, l: u8, sp: u16, pc: u16) {
    function Hl(): u16 { Joined(h, l) }

    function WithHl(value: u16): Registers {
      this.(h := value / 0x100, l := value % 0x100)
    }

    function Pair(code: nat): u16 {
      if code == 0 then Joined(b, c) else if code == 1 then Joined(d, e) else if code == 2 then Hl() else sp
    }

    function WithPair(code: nat, value: u16): Registers {
      if code == 0 then this.(b := value / 0x100, c := value % 0x100)
      else if code == 1 then this.(d := value / 0x100, e := value % 0x100)
      else if code == 2 then WithHl(value)
      else this.(sp := value)
    }

    // The pairs of PUSH and POP, with AF in the place of SP.
    function StackPair(code: nat): u16 {
      if code < 3 then Pair(code) else Joined(a, FlagBits(f))
    }

    function WithStackPair(code: nat, value: u16): Registers {
      if code < 3 then WithPair(code, value)
      else this.(a := value / 0x100, f := Flags(Bit(value, 0x80), Bit(value, 0x40), Bit(value, 0x20), Bit(value, 0x10)))
    }

    function Single(code: nat): u8 {
      if code == 0 then b else if code == 1 then c else if code == 2 then d else if code == 3 then e
      else if code == 4 then h else if code == 5 then l else a
    }

    function WithSingle(code: nat, value: u8): Registers {
      if code == 0 then this.(b := value) else if code == 1 then this.(c := value)
      else if code == 2 then this.(d := value) else if code == 3 then this.(e := value)
      else if code == 4 then this.(h := value) else if code == 5 then this.(l := value) else this.(a := value)
    }

    function Skipped(offset: u8): Registers {
      this.(pc := (pc as int + (if offset < 0x80 then offset as int else offset as int + 0xff00)) % 0x1_0000)
    }
  }

  // The upper half of a word's low byte is its four flags.
  lemma FlagNibble(value: u16)
    ensures FlagBits(Flags(Bit(value, 0x80), Bit(value, 0x40), Bit(value, 0x20), Bit(value, 0x10))) ==
            value % 0x100 - value % 0x10
  {
    DivModDouble(value, 0x80);
    DivModDouble(value, 0x40);
    DivModDouble(value, 0x20);
    DivModDouble(value, 0x10);
  }

  // A pair reads back what was written to it, except that the lower half of F does not exist.
  lemma PairsReadBack(r: Registers, code: nat, value: u16)
    ensures r.WithPair(code, value).Pair(code) == value
    ensures r.WithStackPair(code, value).StackPair(code) == if code < 3 then value else value - value % 0x10
  {
    FlagNibble(value);
    hide Bit, FlagBits;
  }

  datatype Core = Core(r: Registers, ime: bool, imeEnableDelay: nat, mode: CpuMode, haltBug: bool)

  // A number stands for the state of everything behind the bus, however it is encoded.
  type Devices = nat

  // The order of what the CPU asks of its bus: whether the latest was STOP's reset of the divider, and
  // whether one such reset was ever followed by a write or another reset.
  datatype Order = Kept | JustReset | Broken

  function AfterCycle(order: Order): Order {
    if order == Broken then Broken else Kept
  }

  function AfterWrite(order: Order): Order {
    if order == Kept then Kept else Broken
  }

  function AfterReset(order: Order): Order {
    if order == Kept then JustReset else Broken
  }

  // The CPU, whatever is behind its bus, the M-cycles elapsed, and of the bus accesses among them
  // their number and their order.
  datatype Machine = Machine(core: Core, devices: Devices, cycle: nat, accesses: nat, order: Order) {
    function At(r: Registers): Machine {
      this.(core := core.(r := r))
    }

    function Elapsed(): nat { 4 * cycle }
  }

  datatype Computed = Computed(high: u8, low: u8, flags: Flags)

  // The other side of the bus as functions of its own state, the arithmetic unit, and the wall
  // clock as it reads at each M-cycle. `read` and `write` advance the devices by the M-cycle they
  // take; the byte read is the one that peek shows before it.
  datatype Platform = Platform(
    peek: (Devices, u16) -> u8,
    pending: Devices -> set<Interrupt>,
    read: (Devices, u16) -> Devices,
    write: (Devices, u16, u8) -> Devices,
    idle: Devices -> Devices,
    acknowledge: (Devices, Interrupt) -> Devices,
    resetDivider: Devices -> Devices,
    setClock: (Devices, nat) -> Devices,
    clock: nat -> nat,
    arithmetic: (bool, u8, u8, Registers) -> Computed)

  // One bus access costs one M-cycle.
  predicate Spends(m: Machine, n: Machine, accesses: nat) {
    n.cycle == m.cycle + accesses && n.accesses == m.accesses + accesses
  }

  function Read8(p: Platform, m: Machine, address: u16): (r: (Machine, u8))
    ensures Spends(m, r.0, 1) && r.0.core == m.core
  {
    (m.(devices := p.read(m.devices, address), cycle := m.cycle + 1, accesses := m.accesses + 1,
        order := AfterCycle(m.order)),
     p.peek(m.devices, address))
  }

  function Write8(p: Platform, m: Machine, address: u16, value: u8): (n: Machine)
    ensures Spends(m, n, 1) && n.core == m.core
  {
    m.(devices := p.write(m.devices, address, value), cycle := m.cycle + 1, accesses := m.accesses + 1,
       order := AfterWrite(m.order))
  }

  function Idled(p: Platform, m: Machine): Machine {
    m.(devices := p.idle(m.devices), cycle := m.cycle + 1, order := AfterCycle(m.order))
  }

  function Fetched8(p: Platform, m: Machine): (r: (Machine, u8))
    ensures Spends(m, r.0, 1) && r.1 == p.peek(m.devices, m.core.r.pc) && r.0.core.r.f == m.core.r.f
  {
    var (n, value) := Read8(p, m, m.core.r.pc);
    (if n.core.haltBug then n.(core := n.core.(haltBug := false))
     else n.At(n.core.r.(pc := (n.core.r.pc + 1) % 0x1_0000)), value)
  }

  function Fetched16(p: Platform, m: Machine): (r: (Machine, u16))
    ensures Spends(m, r.0, 2) && r.0.core.r.f == m.core.r.f
  {
    var (n, low) := Fetched8(p, m);
    var (o, high) := Fetched8(p, n);
    (o, Joined(high, low))
  }

  function Pushed(p: Platform, m: Machine, value: u16): (n: Machine)
    ensures Spends(m, n, 2) && n.core == m.core.(r := m.core.r.(sp := (m.core.r.sp as int + 0xfffe) % 0x1_0000))
  {
    var first := (m.core.r.sp as int + 0xffff) % 0x1_0000;
    var second := (first + 0xffff) % 0x1_0000;
    var high := Write8(p, m.At(m.core.r.(sp := first)), first, value / 0x100);
    Write8(p, high.At(high.core.r.(sp := second)), second, value % 0x100)
  }

  function Popped(p: Platform, m: Machine): (r: (Machine, u16))
    ensures Spends(m, r.0, 2) && r.0.core.r.f == m.core.r.f
  {
    var (n, low) := Read8(p, m, m.core.r.sp);
    var next := n.At(n.core.r.(sp := (n.core.r.sp + 1) % 0x1_0000));
    var (o, high) := Read8(p, next, next.core.r.sp);
    (o.At(o.core.r.(sp := (o.core.r.sp + 1) % 0x1_0000)), Joined(high, low))
  }

  function ReadOperand(p: Platform, m: Machine, code: nat): (r: (Machine, u8))
    ensures Spends(m, r.0, if code == 6 then 1 else 0) && r.0.core == m.core
  {
    if code == 6 then Read8(p, m, m.core.r.Hl()) else (m, m.core.r.Single(code))
  }

  function WriteOperand(p: Platform, m: Machine, code: nat, value: u8): (n: Machine)
    ensures Spends(m, n, if code == 6 then 1 else 0)
  {
    if code == 6 then Write8(p, m, m.core.r.Hl(), value) else m.At(m.core.r.WithSingle(code, value))
  }

  // ---- Instructions, by the two top opcode bits ----

  // What every unprefixed instruction keeps: it takes the branch the predictor evaluated, and its
  // accesses stay within the M-cycles its declared cost leaves beside the opcode fetch.
  predicate WithinBudget(m: Machine, x: nat, y: nat, z: nat, r: (Machine, bool))
    requires x < 4 && y < 8 && z < 8
  {
    && r.1 == BranchTaken(m.core.r.f, 64 * x + 8 * y + z)
    && r.0.cycle - m.cycle == r.0.accesses - m.accesses
    && m.cycle <= r.0.cycle < m.cycle + MCycles(x, y, z, r.1)
  }

  function Indirect(p: Platform, m: Machine, y: u8): (n: Machine)
    requires y < 8
    ensures Spends(m, n, 1) && n.core.r.f == m.core.r.f
  {
    var address := if y / 2 < 2 then m.core.r.Pair(y / 2) else m.core.r.Hl();
    var n := if y % 2 == 0 then Write8(p, m, address, m.core.r.a)
             else var (o, value) := Read8(p, m, address); o.At(o.core.r.(a := value));
    if y / 2 == 2 then n.At(n.core.r.WithHl((address + 1) % 0x1_0000))
    else if y / 2 == 3 then n.At(n.core.r.WithHl((address as int + 0xffff) % 0x1_0000))
    else n
  }

  // NOP, the SP store, STOP and the relative jumps.
  function Control(p: Platform, m: Machine, y: u8): (r: (Machine, bool))
    requires y < 8
    ensures WithinBudget(m, 0, y, 0, r)
  {
    if y == 0 then (m, true)
    else if y == 1 then
      var (n, address) := Fetched16(p, m);
      var o := Write8(p, n, address, n.core.r.sp % 0x100);
      (Write8(p, o, (address as int + 1) % 0x1_0000, n.core.r.sp / 0x100), true)
    else if y == 2 then
      var n := m.At(m.core.r.(pc := (m.core.r.pc + 1) % 0x1_0000));
      (n.(devices := p.resetDivider(n.devices), order := AfterReset(n.order), core := n.core.(mode := Stopped)), true)
    else
      var (n, offset) := Fetched8(p, m);
      if y != 3 && !Condition(n.core.r.f, y - 4) then (n, false) else (n.At(n.core.r.Skipped(offset)), true)
  }

  // Increments and decrements of one byte.
  function Adjusted(p: Platform, m: Machine, y: nat, opcode: u8): (n: Machine)
    ensures Spends(m, n, if y == 6 then 2 else 0)
  {
    var (n, value) := ReadOperand(p, m, y);
    var result := p.arithmetic(false, opcode, value, n.core.r);
    var o := WriteOperand(p, n, y, result.low);
    o.At(o.core.r.(f := result.flags))
  }

  // Sixteen-bit loads and arithmetic.
  function Words16(p: Platform, m: Machine, y: nat, z: nat): (r: (Machine, bool))
    requires y < 8 && (z == 1 || z == 3)
    ensures WithinBudget(m, 0, y, z, r)
  {
    if z == 3 then
      (m.At(m.core.r.WithPair(y / 2, (m.core.r.Pair(y / 2) as int + (if y % 2 == 0 then 1 else 0xffff)) % 0x1_0000)),
       true)
    else if y % 2 == 0 then
      var (n, value) := Fetched16(p, m);
      (n.At(n.core.r.WithPair(y / 2, value)), true)
    else
      var sum := p.arithmetic(false, 8 * y + z, 0, m.core.r);
      (m.At(m.core.r.(h := sum.high, l := sum.low, f := sum.flags)), true)
  }

  // Immediate loads and the operations on the accumulator alone.
  function Bytes(p: Platform, m: Machine, y: nat, z: nat): (r: (Machine, bool))
    requires y < 8 && (z == 6 || z == 7)
    ensures WithinBudget(m, 0, y, z, r)
  {
    if z == 6 then
      var (n, value) := Fetched8(p, m);
      (WriteOperand(p, n, y, value), true)
    else
      var result := p.arithmetic(false, 8 * y + z, 0, m.core.r);
      (m.At(m.core.r.(a := result.low, f := result.flags)), true)
  }

  function Low(p: Platform, m: Machine, y: nat, z: nat): (r: (Machine, bool))
    requires y < 8 && z < 8
    ensures WithinBudget(m, 0, y, z, r)
  {
    if z == 0 then Control(p, m, y)
    else if z == 1 || z == 3 then Words16(p, m, y, z)
    else if z == 2 then (Indirect(p, m, y), true)
    else if z == 4 || z == 5 then (Adjusted(p, m, y, 8 * y + z), true)
    else Bytes(p, m, y, z)
  }

  // The accumulator operation `y`, which keeps its result unless it only compares.
  function Accumulated(p: Platform, m: Machine, y: nat, opcode: u8, value: u8): (n: Machine)
    ensures Spends(m, n, 0)
  {
    var result := p.arithmetic(false, opcode, value, m.core.r);
    m.At(m.core.r.(a := if y == 7 then m.core.r.a else result.low, f := result.flags))
  }

  // Loads and HALT.
  function Loads(p: Platform, m: Machine, y: nat, z: nat): (r: (Machine, bool))
    requires y < 8 && z < 8
    ensures WithinBudget(m, 1, y, z, r)
  {
    if y == 6 && z == 6 then
      if !m.core.ime && p.pending(m.devices) != {} then (m.(core := m.core.(haltBug := true)), true)
      else (m.(core := m.core.(mode := Halted)), true)
    else
      var (n, value) := ReadOperand(p, m, z);
      (WriteOperand(p, n, y, value), true)
  }

  // The accumulator operations on a register.
  function Accumulate(p: Platform, m: Machine, y: nat, z: nat): (r: (Machine, bool))
    requires y < 8 && z < 8
    ensures WithinBudget(m, 2, y, z, r)
  {
    var (n, value) := ReadOperand(p, m, z);
    (Accumulated(p, n, y, 128 + 8 * y + z, value), true)
  }

  // Conditional returns, the high page by offset and the SP sums.
  function Returns(p: Platform, m: Machine, y: nat): (r: (Machine, bool))
    requires y < 8
    ensures WithinBudget(m, 3, y, 0, r)
  {
    if y <= 3 then
      if !Condition(m.core.r.f, y) then (m, false)
      else
        var (n, address) := Popped(p, m);
        (n.At(n.core.r.(pc := address)), true)
    else
      var (n, offset) := Fetched8(p, m);
      if y == 4 then (Write8(p, n, offset as int + 0xff00, n.core.r.a), true)
      else if y == 6 then
        var (o, value) := Read8(p, n, offset as int + 0xff00);
        (o.At(o.core.r.(a := value)), true)
      else
        var sum := p.arithmetic(false, 192 + 8 * y, offset, n.core.r);
        var flagged := n.core.r.(f := sum.flags);
        (n.At(if y == 5 then flagged.(sp := Joined(sum.high, sum.low)) else flagged.(h := sum.high, l := sum.low)),
         true)
  }

  // POP, RET, RETI and the jumps and loads through HL.
  function Pops(p: Platform, m: Machine, y: nat): (r: (Machine, bool))
    requires y < 8
    ensures WithinBudget(m, 3, y, 1, r)
  {
    if y == 5 then (m.At(m.core.r.(pc := m.core.r.Hl())), true)
    else if y == 7 then (m.At(m.core.r.(sp := m.core.r.Hl())), true)
    else
      var (n, value) := Popped(p, m);
      if y % 2 == 0 then (n.At(n.core.r.WithStackPair(y / 2, value)), true)
      else if y == 1 then (n.At(n.core.r.(pc := value)), true)
      else (n.(core := n.core.(r := n.core.r.(pc := value), ime := true, imeEnableDelay := 0)), true)
  }

  // Conditional jumps, and the loads by C and by address.
  function Jumps(p: Platform, m: Machine, y: nat): (r: (Machine, bool))
    requires y < 8
    ensures WithinBudget(m, 3, y, 2, r)
  {
    if y == 4 then (Write8(p, m, m.core.r.c as int + 0xff00, m.core.r.a), true)
    else if y == 6 then
      var (n, value) := Read8(p, m, m.core.r.c as int + 0xff00);
      (n.At(n.core.r.(a := value)), true)
    else
      var (n, address) := Fetched16(p, m);
      if y < 4 then
        if Condition(n.core.r.f, y) then (n.At(n.core.r.(pc := address)), true) else (n, false)
      else if y == 5 then (Write8(p, n, address, n.core.r.a), true)
      else
        var (o, value) := Read8(p, n, address);
        (o.At(o.core.r.(a := value)), true)
  }

  function Called(p: Platform, m: Machine, address: u16): (n: Machine)
    ensures Spends(m, n, 2)
  {
    var n := Pushed(p, m, m.core.r.pc);
    n.At(n.core.r.(pc := address))
  }

  // JP, DI and EI.
  function Switches(p: Platform, m: Machine, y: nat): (r: (Machine, bool))
    requires y in {0, 6, 7}
    ensures WithinBudget(m, 3, y, 3, r)
  {
    if y == 0 then
      var (n, address) := Fetched16(p, m);
      (n.At(n.core.r.(pc := address)), true)
    else if y == 6 then (m.(core := m.core.(ime := false, imeEnableDelay := 0)), true)
    else (if m.core.imeEnableDelay == 0 then m.(core := m.core.(imeEnableDelay := 2)) else m, true)
  }

  // The conditional calls.
  function Calls(p: Platform, m: Machine, y: nat): (r: (Machine, bool))
    requires y < 4
    ensures WithinBudget(m, 3, y, 4, r)
  {
    var (n, address) := Fetched16(p, m);
    if !Condition(n.core.r.f, y) then (n, false) else (Called(p, n, address), true)
  }

  // The pushes and the unconditional call.
  function Pushes(p: Platform, m: Machine, y: nat): (r: (Machine, bool))
    requires y < 8 && (y % 2 == 0 || y == 1)
    ensures WithinBudget(m, 3, y, 5, r)
  {
    if y % 2 == 0 then (Pushed(p, m, m.core.r.StackPair(y / 2)), true)
    else
      var (n, address) := Fetched16(p, m);
      (Called(p, n, address), true)
  }

  // The accumulator operations on an immediate byte, and the restarts.
  function Immediates(p: Platform, m: Machine, y: nat, z: nat): (r: (Machine, bool))
    requires y < 8 && 6 <= z < 8
    ensures WithinBudget(m, 3, y, z, r)
  {
    if z == 6 then
      var (n, value) := Fetched8(p, m);
      (Accumulated(p, n, y, 192 + 8 * y + z, value), true)
    else (Called(p, m, y * 8), true)
  }

  function High(p: Platform, m: Machine, y: nat, z: nat): (r: (Machine, bool))
    requires y < 8 && z < 8 && Defined(3, y, z)
    ensures WithinBudget(m, 3, y, z, r)
  {
    if z == 0 then Returns(p, m, y)
    else if z == 1 then Pops(p, m, y)
    else if z == 2 then Jumps(p, m, y)
    else if z == 3 then Switches(p, m, y)
    else if z == 4 then Calls(p, m, y)
    else if z == 5 then Pushes(p, m, y)
    else Immediates(p, m, y, z)
  }

  function Executed(p: Platform, m: Machine, x: nat, y: nat, z: nat): (r: (Machine, bool))
    requires x < 4 && y < 8 && z < 8 && Defined(x, y, z)
    ensures WithinBudget(m, x, y, z, r)
  {
    hide BaseCycles, BranchTaken, Low, Loads, Accumulate, High;
    if x == 0 then Low(p, m, y, z)
    else if x == 1 then Loads(p, m, y, z)
    else if x == 2 then Accumulate(p, m, y, z)
    else High(p, m, y, z)
  }

  // BIT only reads its operand; every other prefixed operation writes it back.
  function Prefixed(p: Platform, m: Machine, opcode: u8): (n: Machine)
    ensures Spends(m, n, if opcode % 8 != 6 then 0 else if opcode / 64 == 1 then 1 else 2)
  {
    var z := opcode % 8;
    var (n, value) := ReadOperand(p, m, z);
    var result := p.arithmetic(true, opcode, value, n.core.r);
    var flagged := if opcode < 0x80 then n.At(n.core.r.(f := result.flags)) else n;
    if opcode / 64 == 1 then flagged else WriteOperand(p, flagged, z, result.low)
  }

  function Padded(p: Platform, m: Machine, until: nat): (n: Machine)
    requires m.cycle <= until
    ensures n.cycle == until && n.accesses == m.accesses && n.core == m.core
    decreases until - m.cycle
  {
    if m.cycle == until then m else Padded(p, Idled(p, m), until)
  }

  // ---- The predictor ----

  // In STOP only the joypad can wake the CPU.
  function WakeCapable(p: Platform, m: Machine): set<Interrupt> {
    if m.core.mode == Stopped then p.pending(m.devices) * {Joypad} else p.pending(m.devices)
  }

  // Where the byte after a CB prefix at pc is fetched from.
  function PrefixedAddress(c: Core): u16 {
    if c.haltBug then c.r.pc else (c.r.pc + 1) % 0x1_0000
  }

  function Predicted(p: Platform, m: Machine): (r: Result<nat>)
    ensures r.Ok? ==> r.value % 4 == 0
  {
    var pending := WakeCapable(p, m);
    if m.core.mode == Stopped && pending == {} then Ok(0)
    else if m.core.ime && pending != {} then Ok(20)
    else if m.core.mode == Halted && pending == {} then Ok(4)
    else PredictedInstruction(p, m)
  }

  function PredictedInstruction(p: Platform, m: Machine): (r: Result<nat>)
    ensures r.Ok? ==> r.value % 4 == 0 && r.value >= 4
  {
    var opcode := p.peek(m.devices, m.core.r.pc);
    var decoded := if opcode == 0xcb then Decode(p.peek(m.devices, PrefixedAddress(m.core)), true)
                   else Decode(opcode, false);
    if decoded.illegal then Illegal
    else Ok(if BranchTaken(m.core.r.f, opcode) then decoded.cyclesTaken else decoded.cyclesNotTaken)
  }

  // If the next byte is a CB prefix, the byte behind it still has the same cost after the M-cycle
  // that fetches the prefix.
  predicate Stable(p: Platform, m: Machine) {
    p.peek(m.devices, m.core.r.pc) == 0xcb ==>
      Decode(p.peek(p.read(m.devices, m.core.r.pc), PrefixedAddress(m.core)), true).cyclesTaken
      == Decode(p.peek(m.devices, PrefixedAddress(m.core)), true).cyclesTaken
  }

  // ---- One step ----

  function HighestPriority(pending: set<Interrupt>): Interrupt {
    if VBlank in pending then VBlank
    else if LcdStat in pending then LcdStat
    else if Timer in pending then Timer
    else if Serial in pending then Serial
    else Joypad
  }

  function Vector(i: Interrupt): u16 {
    match i
    case VBlank => 0x40
    case LcdStat => 0x48
    case Timer => 0x50
    case Serial => 0x58
    case Joypad => 0x60
  }

  // The interrupt is acknowledged before the first of the five M-cycles.
  function Serviced(p: Platform, m: Machine, i: Interrupt): (n: Machine)
    ensures n.cycle == m.cycle + 5 && n.accesses == m.accesses + 2
    ensures !n.core.ime && n.core.imeEnableDelay == 0 && n.core.mode == Running && n.core.r.pc == Vector(i)
  {
    var awake := m.(core := m.core.(ime := false, imeEnableDelay := 0, mode := Running),
                   devices := p.acknowledge(m.devices, i));
    var called := Pushed(p, Idled(p, Idled(p, awake)), m.core.r.pc);
    var n := Idled(p, called);
    n.At(n.core.r.(pc := Vector(i)))
  }

  // `cycles` T-cycles have passed, and no more bus accesses than fit in them.
  predicate Consumes(m: Machine, n: Machine, cycles: nat) {
    n.Elapsed() == m.Elapsed() + cycles && m.accesses <= n.accesses && 4 * (n.accesses - m.accesses) <= cycles
  }

  // Execute and pad what was fetched on the way from `start` to m.
  function Finished(p: Platform, start: Machine, m: Machine, x: nat, y: nat, z: nat): (r: (Machine, nat))
    requires x < 4 && y < 8 && z < 8 && Defined(x, y, z)
    requires Spends(start, m, 1) && m.core.r.f == start.core.r.f
    ensures r.1 == Declared(x, y, z, BranchTaken(start.core.r.f, 64 * x + 8 * y + z)) && Consumes(start, r.0, r.1)
  {
    hide Declared, MCycles, BranchTaken, Executed, Padded, Defined;
    var (n, taken) := Executed(p, m, x, y, z);
    (Padded(p, n, start.cycle + MCycles(x, y, z, taken)), Declared(x, y, z, taken))
  }

  // Fetch, execute and pad one instruction without a prefix.
  function Plain(p: Platform, m: Machine): (r: (Machine, Result<nat>))
    requires p.peek(m.devices, m.core.r.pc) != 0xcb
    ensures r.1 == PredictedInstruction(p, m)
    ensures r.1.Ok? ==> Consumes(m, r.0, r.1.value)
  {
    hide BaseCycles, BranchTaken, IsIllegal, Finished, Defined, Consumes;
    var opcode := p.peek(m.devices, m.core.r.pc);
    OpcodeParts(opcode);
    var (n, _) := Fetched8(p, m);
    if IsIllegal(opcode) then (n, Illegal)
    else
      var (o, cycles) := Finished(p, m, n, opcode / 64, opcode / 8 % 8, opcode % 8);
      (o, Ok(cycles))
  }

  // The same behind a CB prefix, whose second byte may have changed since it was predicted.
  function Prefix(p: Platform, m: Machine): (r: (Machine, Result<nat>))
    requires p.peek(m.devices, m.core.r.pc) == 0xcb
    ensures r.1.Ok? && r.1.value in {8, 12, 16} && Consumes(m, r.0, r.1.value)
    ensures PredictedInstruction(p, m).Ok? && PredictedInstruction(p, m).value in {8, 12, 16}
    ensures Stable(p, m) <==> r.1 == PredictedInstruction(p, m)
  {
    hide BaseCycles, IsIllegal, Prefixed, Padded;
    var (n, _) := Fetched8(p, m);
    var (o, prefixed) := Fetched8(p, n);
    var cycles := Decode(prefixed, true).cyclesTaken;
    (Padded(p, Prefixed(p, o, prefixed), m.cycle + cycles / 4), Ok(cycles))
  }

  function Instruction(p: Platform, m: Machine): (r: (Machine, Result<nat>))
    ensures PredictedInstruction(p, m).Illegal? <==> r.1.Illegal?
    ensures Stable(p, m) <==> r.1 == PredictedInstruction(p, m)
    ensures r.1.Ok? ==> Consumes(m, r.0, r.1.value)
    ensures r.1.Ok? ==> 4 <= r.1.value <= PredictedInstruction(p, m).value + 8
  {
    hide PredictedInstruction, Plain, Prefix, Decode;
    if p.peek(m.devices, m.core.r.pc) == 0xcb then Prefix(p, m) else Plain(p, m)
  }

  function Delayed(c: Core): Core {
    if c.imeEnableDelay == 0 then c
    else c.(imeEnableDelay := c.imeEnableDelay - 1, ime := c.ime || c.imeEnableDelay == 1)
  }

  // The rest of a step that finds nothing to serve or to wait for.
  function Awake(p: Platform, m: Machine): (r: (Machine, Result<nat>))
    ensures PredictedInstruction(p, m).Illegal? <==> r.1.Illegal?
    ensures Stable(p, m) <==> r.1 == PredictedInstruction(p, m)
    ensures r.1.Ok? ==> Consumes(m, r.0, r.1.value)
    ensures r.1.Ok? ==> 4 <= r.1.value <= PredictedInstruction(p, m).value + 8
  {
    hide Instruction, Decode, BranchTaken, Delayed;
    var running := m.(core := m.core.(mode := Running));
    var (n, result) := Instruction(p, running);
    (if result.Ok? then n.(core := Delayed(n.core)) else n, result)
  }

  // A step consumes what was predicted. Only an unstable prefixed instruction can differ, and it
  // runs over by at most eight T-cycles.
  function Stepped(p: Platform, m: Machine): (r: (Machine, Result<nat>))
    ensures Predicted(p, m).Illegal? <==> r.1.Illegal?
    ensures Stable(p, m) ==> r.1 == Predicted(p, m)
    ensures r.1.Ok? ==> Consumes(m, r.0, r.1.value)
    ensures r.1.Ok? ==> r.1.value <= Predicted(p, m).value + 8 && (r.1.value == 0 <==> Predicted(p, m).value == 0)
  {
    hide PredictedInstruction, Stable, Awake, HighestPriority, Serviced, Pushed;
    var pending := WakeCapable(p, m);
    if m.core.ime && pending != {} then (Serviced(p, m, HighestPriority(pending)), Ok(20))
    else if m.core.mode == Stopped && pending == {} then (m, Ok(0))
    else if m.core.mode == Halted && pending == {} then (Idled(p, m), Ok(4))
    else Awake(p, m)
  }

  // A byte that the fetch of the prefix leaves as it was makes the prefix stable.
  lemma KeptByteIsStable(p: Platform, m: Machine)
    requires p.peek(p.read(m.devices, m.core.r.pc), PrefixedAddress(m.core))
             == p.peek(m.devices, PrefixedAddress(m.core))
    ensures Stable(p, m) && Stepped(p, m).1 == Predicted(p, m)
  {
    hide Predicted, Stepped, Decode;
  }

  // What an unstable prefix does. With SCX holding 0xcb and the scan four dots before LY reads 6, the
  // program counter at SCX makes the prefix SCX and the byte behind it LY: RLC L is predicted for 8
  // cycles, RLC (HL) is fetched and takes 16. The number of the devices' state is the dot of the frame.
  lemma UnstablePrefix() returns (p: Platform, m: Machine)
    ensures m.core.r.pc == 0xff43
    ensures !Stable(p, m) && Predicted(p, m) == Ok(8) && Stepped(p, m).1 == Ok(16)
  {
    var registers := (dot: Devices, address: u16) =>
      if address == 0xff43 then 0xcb else if address == 0xff44 then (dot + 4) / 456 % 154 else 0;
    p := Platform(registers, dot => {}, (dot, address) => dot + 4, (dot, address, value) => dot + 4, dot => dot + 4,
                  (dot, i) => dot, dot => dot, (dot, now) => dot, cycle => 0,
                  (prefixed, opcode, operand, r) => Computed(0, 0, Flags(false, false, false, false)));
    m := Machine(Core(Registers(0, Flags(false, false, false, false), 0, 0, 0, 0, 0, 0, 0, 0xff43), false, 0, Running,
                      false), 5 * 456 + 448, 0, 0, Kept);
    assert p.peek(m.devices, 0xff44) == 5 && p.peek(p.read(m.devices, 0xff43), 0xff44) == 6;
    var (n, _) := Fetched8(p, m);
    assert Fetched8(p, n).1 == 6;
  }

  // ---- run_cycles ----

  function Timed(p: Platform, m: Machine): Machine {
    m.(devices := p.setClock(m.devices, p.clock(m.cycle)))
  }

  function Plus(e: nat, more: Result<nat>): Result<nat> {
    if more.Illegal? then Illegal else Ok(e + more.value)
  }

  // A run stops before a step that is predicted not to fit or not to advance, and fails on one
  // that is illegal.
  function Ran(p: Platform, m: Machine, budget: int): (Machine, Result<nat>)
    decreases if budget > 0 then budget else 0
  {
    hide Predicted, Stepped;
    if budget <= 0 then (m, Ok(0))
    else
      var t := Timed(p, m);
      match Predicted(p, t)
      case Illegal => (t, Illegal)
      case Ok(next) =>
        if next == 0 || next > budget then (t, Ok(0))
        else
          var (n, taken) := Stepped(p, t);
          var rest := Ran(p, n, budget - taken.value);
          (rest.0, Plus(taken.value, rest.1))
  }

  // Every step such a run takes is stable.
  predicate Steady(p: Platform, m: Machine, budget: int)
    decreases if budget > 0 then budget else 0
  {
    hide Predicted, Stepped;
    budget <= 0 ||
    var t := Timed(p, m);
    match Predicted(p, t)
    case Illegal => true
    case Ok(next) =>
      next == 0 || next > budget || (Stable(p, t) && Steady(p, Stepped(p, t).0, budget - next))
  }

  // Setting the clock again to the same reading changes nothing.
  ghost predicate ClockSettles(p: Platform) {
    forall d: Devices, t: nat :: p.setClock(p.setClock(d, t), t) == p.setClock(d, t)
  }

  // Whether a run takes its next step, and what it comes to if it does.
  predicate Advances(p: Platform, m: Machine, budget: nat) {
    var next := Predicted(p, Timed(p, m)); next.Ok? && 0 < next.value <= budget
  }

  lemma RanUnrolls(p: Platform, m: Machine, budget: nat)
    ensures Advances(p, m, budget) ==>
              var (n, taken) := Stepped(p, Timed(p, m));
              var rest := Ran(p, n, budget - taken.value);
              Ran(p, m, budget) == (rest.0, Plus(taken.value, rest.1))
    ensures !Advances(p, m, budget) ==>
              Ran(p, m, budget) == if budget == 0 then (m, Ok(0))
                                   else (Timed(p, m), if Predicted(p, Timed(p, m)).Illegal? then Illegal else Ok(0))
    ensures Steady(p, m, budget) && Advances(p, m, budget) ==>
              var (n, taken) := Stepped(p, Timed(p, m));
              taken == Predicted(p, Timed(p, m)) && Steady(p, n, budget - taken.value)
  {
    hide Predicted, Stepped, Stable;
  }

  // What a run reports has passed on the clock. It stays within its budget if every step is
  // stable; an unstable prefixed instruction at its end can exceed it, by eight T-cycles at most.
  lemma {:induction false} RanWithinBudget(p: Platform, m: Machine, budget: nat, n: Machine, e: nat)
    requires Ran(p, m, budget) == (n, Ok(e))
    ensures Consumes(m, n, e)
    ensures e <= budget + 8
    ensures Steady(p, m, budget) ==> e <= budget
    decreases budget
  {
    hide Predicted, Stepped, Stable, Ran, Steady;
    RanUnrolls(p, m, budget);
    if Advances(p, m, budget) {
      var (o, taken) := Stepped(p, Timed(p, m));
      if taken.value <= budget {
        RanWithinBudget(p, o, budget - taken.value, n, e - taken.value);
      } else {
        OverBudget(p, o, budget - taken.value);
      }
    }
  }

  lemma OverBudget(p: Platform, m: Machine, budget: int)
    requires budget <= 0
    ensures Ran(p, m, budget) == (m, Ok(0))
  {
  }

  // Running with budget a, which executes e, and then with budget b, ends in the same machine and
  // reports the same cycles as running once with e + b. With b = 0 the first run may have set
  // the clock once more.
  lemma {:induction false} RunsCompose(p: Platform, m: Machine, a: nat, b: nat, n: Machine, e: nat)
    requires Ran(p, m, a) == (n, Ok(e)) && Steady(p, m, a) && ClockSettles(p)
    ensures b > 0 ==> Ran(p, m, e + b) == (Ran(p, n, b).0, Plus(e, Ran(p, n, b).1))
    ensures b == 0 ==> Ran(p, m, e).1 == Ok(e) && (n == Ran(p, m, e).0 || n == Timed(p, Ran(p, m, e).0))
    decreases a
  {
    hide Predicted, Stepped, Stable, Ran, Steady;
    var t := Timed(p, m);
    assert Timed(p, t) == t;
    RanUnrolls(p, m, a);
    RanUnrolls(p, m, e + b);
    if Advances(p, m, a) {
      var (o, taken) := Stepped(p, t);
      RunsCompose(p, o, a - taken.value, b, n, e - taken.value);
      assert e + b - taken.value == e - taken.value + b;
    } else {
      RanUnrolls(p, m, b);
      RanUnrolls(p, t, b);
    }
  }

  // ---- The order of bus accesses ----

  lemma OperandsInOrder(p: Platform, m: Machine, code: nat, value: u8)
    requires m.order == Kept
    ensures ReadOperand(p, m, code).0.order == WriteOperand(p, m, code, value).order == Kept
  {
  }

  lemma StackInOrder(p: Platform, m: Machine, value: u16)
    requires m.order == Kept
    ensures Pushed(p, m, value).order == Popped(p, m).0.order == Kept
  {
  }

  lemma FetchesInOrder(p: Platform, m: Machine)
    requires m.order != Broken
    ensures Fetched8(p, m).0.order == Fetched16(p, m).0.order == Kept
  {
  }

  lemma ControlInOrder(p: Platform, m: Machine, y: nat)
    requires y < 8 && m.order == Kept
    ensures Control(p, m, y).0.order != Broken && Indirect(p, m, y).order == Kept
  {
    FetchesInOrder(p, m);
    hide Fetched8, Fetched16, Registers.Skipped, Condition, Registers.Pair, Registers.WithHl, Registers.Hl;
  }

  lemma LowInOrder(p: Platform, m: Machine, y: nat, z: nat)
    requires y < 8 && z < 8 && m.order == Kept
    ensures Low(p, m, y, z).0.order != Broken
  {
    ControlInOrder(p, m, y);
    FetchesInOrder(p, m);
    var (n, byte) := Fetched8(p, m);
    OperandsInOrder(p, n, y, byte);
    OperandsInOrder(p, m, y, 0);
    var (o, value) := ReadOperand(p, m, y);
    OperandsInOrder(p, o, y, p.arithmetic(false, (8 * y + z) % 0x100, value, o.core.r).low);
    hide Control, Indirect, Fetched8, Fetched16, ReadOperand, WriteOperand, Registers.WithPair,
         Registers.Pair;
  }

  lemma MiddleInOrder(p: Platform, m: Machine, y: nat, z: nat)
    requires y < 8 && z < 8 && m.order == Kept
    ensures Loads(p, m, y, z).0.order == Accumulate(p, m, y, z).0.order == Kept
  {
    var (n, value) := ReadOperand(p, m, z);
    OperandsInOrder(p, m, z, value);
    OperandsInOrder(p, n, y, value);
    hide ReadOperand, WriteOperand;
  }

  lemma HighInOrder(p: Platform, m: Machine, y: nat, z: nat)
    requires y < 8 && z < 8 && Defined(3, y, z) && m.order == Kept
    ensures High(p, m, y, z).0.order == Kept
  {
    FetchesInOrder(p, m);
    StackInOrder(p, m, m.core.r.StackPair(y / 2));
    StackInOrder(p, m, m.core.r.pc);
    var (n, _) := Fetched16(p, m);
    StackInOrder(p, n, n.core.r.pc);
    hide Pushed, Popped, Fetched8, Fetched16, Registers.StackPair, Registers.WithStackPair, Registers.Hl, Condition;
  }

  lemma PrefixedInOrder(p: Platform, m: Machine, opcode: u8)
    requires m.order == Kept
    ensures Prefixed(p, m, opcode).order == Kept
  {
    var (n, value) := ReadOperand(p, m, opcode % 8);
    var result := p.arithmetic(true, opcode, value, n.core.r);
    OperandsInOrder(p, m, opcode % 8, value);
    OperandsInOrder(p, if opcode < 0x80 then n.At(n.core.r.(f := result.flags)) else n, opcode % 8, result.low);
    hide ReadOperand, WriteOperand;
  }

  lemma {:induction false} PaddingInOrder(p: Platform, m: Machine, until: nat)
    requires m.cycle <= until && m.order != Broken
    ensures Padded(p, m, until).order != Broken
    decreases until - m.cycle
  {
    if m.cycle < until {
      PaddingInOrder(p, Idled(p, m), until);
    }
  }

  lemma InstructionInOrder(p: Platform, m: Machine)
    requires m.order != Broken
    ensures Instruction(p, m).0.order != Broken
  {
    var opcode := p.peek(m.devices, m.core.r.pc);
    FetchesInOrder(p, m);
    var (n, _) := Fetched8(p, m);
    FetchesInOrder(p, n);
    OpcodeParts(opcode);
    hide Fetched16, Executed, Prefixed, Padded, IsIllegal, BaseCycles, Defined, PredictedInstruction,
         Stable, BranchTaken;
    if opcode == 0xcb {
      var (o, prefixed) := Fetched8(p, n);
      PrefixedInOrder(p, o, prefixed);
      PaddingInOrder(p, Prefixed(p, o, prefixed), m.cycle + Decode(prefixed, true).cyclesTaken / 4);
    } else if !IsIllegal(opcode) {
      ExecutedInOrder(p, m, n, opcode / 64, opcode / 8 % 8, opcode % 8);
    }
  }

  lemma ExecutedInOrder(p: Platform, start: Machine, m: Machine, x: nat, y: nat, z: nat)
    requires x < 4 && y < 8 && z < 8 && Defined(x, y, z) && Spends(start, m, 1) && m.core.r.f == start.core.r.f
    requires m.order == Kept
    ensures Finished(p, start, m, x, y, z).0.order != Broken
  {
    hide Low, Loads, Accumulate, High, Padded, Declared, BranchTaken, Defined;
    if x == 0 {
      LowInOrder(p, m, y, z);
    } else if x < 3 {
      MiddleInOrder(p, m, y, z);
    } else {
      HighInOrder(p, m, y, z);
    }
    var (n, taken) := Executed(p, m, x, y, z);
    PaddingInOrder(p, n, start.cycle + MCycles(x, y, z, taken));
  }

  lemma StepInOrder(p: Platform, m: Machine)
    requires m.order != Broken
    ensures Stepped(p, m).0.order != Broken
  {
    var i := HighestPriority(WakeCapable(p, m));
    var awake := m.(core := m.core.(ime := false, imeEnableDelay := 0, mode := Running),
                   devices := p.acknowledge(m.devices, i));
    StackInOrder(p, Idled(p, Idled(p, awake)), m.core.r.pc);
    InstructionInOrder(p, m.(core := m.core.(mode := Running)));
    hide Pushed, Instruction, HighestPriority, Predicted, PredictedInstruction, Stable;
  }

  // In every run, whatever the program and the devices, STOP's reset of the divider is followed by a
  // read or an idle cycle: no write and no other reset comes between.
  lemma {:induction false} RunsInOrder(p: Platform, m: Machine, budget: int)
    requires m.order != Broken
    ensures Ran(p, m, budget).0.order != Broken
    decreases if budget > 0 then budget else 0
  {
    if budget > 0 {
      hide Predicted, Stepped, Stable, Ran, Steady, Consumes;
      var t := Timed(p, m);
      RanUnrolls(p, m, budget);
      if Advances(p, m, budget) {
        var (n, taken) := Stepped(p, t);
        StepInOrder(p, t);
        RunsInOrder(p, n, budget - taken.value);
      }
    } else {
      OverBudget(p, m, budget);
    }
  }

  // ---- The bus and the CPU in place ----

  class CpuBus {
    const platform: Platform
    var devices: Devices
    var cycle: nat
    ghost var accesses: nat
    ghost var order: Order

    constructor (platform: Platform, devices: Devices)
      ensures this.platform == platform && this.devices == devices && cycle == 0 && accesses == 0 && order == Kept
    {
      this.platform, this.devices, cycle, accesses, order := platform, devices, 0, 0, Kept;
    }

    function Peek8(address: u16): u8
      reads this
    {
      platform.peek(devices, address)
    }

    function PendingInterrupts(): set<Interrupt>
      reads this
    {
      platform.pending(devices)
    }

    method Read8(address: u16) returns (value: u8)
      modifies this
      ensures value == old(Peek8(address)) && devices == platform.read(old(devices), address)
      ensures cycle == old(cycle) + 1 && accesses == old(accesses) + 1 && order == AfterCycle(old(order))
    {
      value := Peek8(address);
      devices := platform.read(devices, address);
      cycle, accesses, order := cycle + 1, accesses + 1, AfterCycle(order);
    }

    method Write8(address: u16, value: u8)
      modifies this
      ensures devices == platform.write(old(devices), address, value)
      ensures cycle == old(cycle) + 1 && accesses == old(accesses) + 1 && order == AfterWrite(old(order))
    {
      devices := platform.write(devices, address, value);
      cycle, accesses, order := cycle + 1, accesses + 1, AfterWrite(order);
    }

    method IdleMCycle()
      modifies this`devices, this`cycle, this`order
      ensures devices == platform.idle(old(devices)) && cycle == old(cycle) + 1 && order == AfterCycle(old(order))
    {
      devices := platform.idle(devices);
      cycle, order := cycle + 1, AfterCycle(order);
    }

    method ResetDivider()
      modifies this`devices, this`order
      ensures devices == platform.resetDivider(old(devices)) && order == AfterReset(old(order))
    {
      devices := platform.resetDivider(devices);
      order := AfterReset(order);
    }

    method SetUnixSeconds(now: nat)
      modifies this`devices
      ensures devices == platform.setClock(old(devices), now)
    {
      devices := platform.setClock(devices, now);
    }
  }

  class Cpu {
    const bus: CpuBus
    var registers: Registers
    var ime: bool
    var imeEnableDelay: nat
    var mode: CpuMode
    var haltBug: bool

    constructor PostBoot(bus: CpuBus)
      ensures this.bus == bus && mode == Running && !ime && imeEnableDelay == 0 && !haltBug && registers.pc == 0x100
    {
      this.bus := bus;
      registers := Registers(0x01, Flags(true, false, true, true), 0x00, 0x13, 0x00, 0xd8, 0x01, 0x4d, 0xfffe, 0x0100);
      ime, imeEnableDelay, mode, haltBug := false, 0, Running, false;
    }

    ghost function View(): Machine
      reads this, bus
    {
      Machine(Core(registers, ime, imeEnableDelay, mode, haltBug), bus.devices, bus.cycle, bus.accesses, bus.order)
    }

    // The predictor, which changes nothing.
    function NextStepTCycles(): (r: Result<nat>)
      reads this, bus
      ensures r == Predicted(bus.platform, View())
    {
      var pending := if mode == Stopped then bus.PendingInterrupts() * {Joypad} else bus.PendingInterrupts();
      if mode == Stopped && pending == {} then Ok(0)
      else if ime && pending != {} then Ok(20)
      else if mode == Halted && pending == {} then Ok(4)
      else
        var opcode := bus.Peek8(registers.pc);
        var prefixedAddress := if haltBug then registers.pc else (registers.pc + 1) % 0x1_0000;
        var decoded := if opcode == 0xcb then Decode(bus.Peek8(prefixedAddress), true) else Decode(opcode, false);
        if decoded.illegal then Illegal
        else Ok(if BranchTaken(registers.f, opcode) then decoded.cyclesTaken else decoded.cyclesNotTaken)
    }

    // ---- Fetching and the stack ----

    method Fetch8() returns (value: u8)
      modifies this`registers, this`haltBug, bus
      ensures (View(), value) == Fetched8(bus.platform, old(View()))
    {
      value := bus.Read8(registers.pc);
      if haltBug {
        haltBug := false;
      } else {
        registers := registers.(pc := (registers.pc + 1) % 0x1_0000);
      }
    }

    method Fetch16() returns (value: u16)
      modifies this`registers, this`haltBug, bus
      ensures (View(), value) == Fetched16(bus.platform, old(View()))
    {
      hide Fetched8;
      var low := Fetch8();
      var high := Fetch8();
      value := Joined(high, low);
    }

    method Push(value: u16)
      modifies this`registers, bus
      ensures View() == Pushed(bus.platform, old(View()), value)
    {
      registers := registers.(sp := (registers.sp as int + 0xffff) % 0x1_0000);
      bus.Write8(registers.sp, value / 0x100);
      registers := registers.(sp := (registers.sp as int + 0xffff) % 0x1_0000);
      bus.Write8(registers.sp, value % 0x100);
    }

    method Pop() returns (value: u16)
      modifies this`registers, bus
      ensures (View(), value) == Popped(bus.platform, old(View()))
    {
      hide Joined;
      var low := bus.Read8(registers.sp);
      registers := registers.(sp := (registers.sp + 1) % 0x1_0000);
      var high := bus.Read8(registers.sp);
      registers := registers.(sp := (registers.sp + 1) % 0x1_0000);
      value := Joined(high, low);
    }

    // ---- Operands ----

    method ReadR(code: nat) returns (value: u8)
      modifies bus
      ensures (View(), value) == ReadOperand(bus.platform, old(View()), code)
    {
      if code == 6 {
        value := bus.Read8(registers.Hl());
      } else {
        value := registers.Single(code);
      }
    }

    method WriteR(code: nat, value: u8)
      modifies this`registers, bus
      ensures View() == WriteOperand(bus.platform, old(View()), code, value)
    {
      if code == 6 {
        bus.Write8(registers.Hl(), value);
      } else {
        registers := registers.WithSingle(code, value);
      }
    }

    // ---- execute_base ----

    method AccessIndirect(y: u8)
      requires y < 8
      modifies this`registers, bus
      ensures View() == Indirect(bus.platform, old(View()), y)
    {
      hide Registers.Pair, Registers.WithHl, Registers.Hl;
      var address := if y / 2 < 2 then registers.Pair(y / 2) else registers.Hl();
      if y % 2 == 0 {
        bus.Write8(address, registers.a);
      } else {
        var value := bus.Read8(address);
        registers := registers.(a := value);
      }
      if y / 2 == 2 {
        registers := registers.WithHl((address + 1) % 0x1_0000);
      }
      if y / 2 == 3 {
        registers := registers.WithHl((address as int + 0xffff) % 0x1_0000);
      }
    }

    method ExecuteControl(y: nat) returns (taken: bool)
      requires y < 8
      modifies this`registers, this`haltBug, this`mode, bus
      ensures (View(), taken) == Control(bus.platform, old(View()), y)
    {
      hide Fetched8, Fetched16, Registers.Skipped;
      if y == 0 {
      } else if y == 1 {
        var address := Fetch16();
        var sp := registers.sp;
        bus.Write8(address, sp % 0x100);
        bus.Write8((address as int + 1) % 0x1_0000, sp / 0x100);
      } else if y == 2 {
        registers := registers.(pc := (registers.pc + 1) % 0x1_0000);
        bus.ResetDivider();
        mode := Stopped;
      } else {
        var offset := Fetch8();
        if y != 3 && !Condition(registers.f, y - 4) {
          return false;
        }
        registers := registers.Skipped(offset);
      }
      taken := true;
    }

    method ExecuteLow(y: nat, z: nat) returns (taken: bool)
      requires y < 8 && z < 8
      modifies this`registers, this`haltBug, this`mode, bus
      ensures (View(), taken) == Low(bus.platform, old(View()), y, z)
    {
      hide Fetched8, Fetched16, Control, Indirect, ReadOperand, WriteOperand, Registers.WithPair, Registers.Pair;
      var opcode := 8 * y + z;
      taken := true;
      if z == 0 {
        taken := ExecuteControl(y);
      } else if z == 1 {
        if y % 2 == 0 {
          var value := Fetch16();
          registers := registers.WithPair(y / 2, value);
        } else {
          var sum := bus.platform.arithmetic(false, opcode, 0, registers);
          registers := registers.(h := sum.high, l := sum.low, f := sum.flags);
        }
      } else if z == 2 {
        AccessIndirect(y);
      } else if z == 3 {
        var value := (registers.Pair(y / 2) as int + (if y % 2 == 0 then 1 else 0xffff)) % 0x1_0000;
        registers := registers.WithPair(y / 2, value);
      } else if z == 4 || z == 5 {
        var value := ReadR(y);
        var result := bus.platform.arithmetic(false, opcode, value, registers);
        WriteR(y, result.low);
        registers := registers.(f := result.flags);
      } else if z == 6 {
        var value := Fetch8();
        WriteR(y, value);
      } else {
        var result := bus.platform.arithmetic(false, opcode, 0, registers);
        registers := registers.(a := result.low, f := result.flags);
      }
    }

    method Alu(y: nat, opcode: u8, value: u8)
      modifies this`registers
      ensures View() == Accumulated(bus.platform, old(View()), y, opcode, value)
    {
      var result := bus.platform.arithmetic(false, opcode, value, registers);
      registers := registers.(f := result.flags);
      if y != 7 {
        registers := registers.(a := result.low);
      }
    }

    method ExecuteMiddle(x: nat, y: nat, z: nat)
      requires 1 <= x < 3 && y < 8 && z < 8
      modifies this, bus
      ensures (View(), true) == if x == 1 then Loads(bus.platform, old(View()), y, z)
              else Accumulate(bus.platform, old(View()), y, z)
    {
      hide ReadOperand, WriteOperand, Accumulated;
      if x == 2 {
        var value := ReadR(z);
        Alu(y, 128 + 8 * y + z, value);
      } else if y == 6 && z == 6 {
        if !ime && bus.PendingInterrupts() != {} {
          haltBug := true;
        } else {
          mode := Halted;
        }
      } else {
        var value := ReadR(z);
        WriteR(y, value);
      }
    }

    method ExecuteReturns(y: nat) returns (taken: bool)
      requires y < 8
      modifies this`registers, this`haltBug, bus
      ensures (View(), taken) == Returns(bus.platform, old(View()), y)
    {
      hide Fetched8, Popped;
      taken := true;
      if y <= 3 {
        if !Condition(registers.f, y) {
          return false;
        }
        var address := Pop();
        registers := registers.(pc := address);
      } else {
        var offset := Fetch8();
        if y == 4 {
          bus.Write8(offset as int + 0xff00, registers.a);
        } else if y == 6 {
          var value := bus.Read8(offset as int + 0xff00);
          registers := registers.(a := value);
        } else {
          var sum := bus.platform.arithmetic(false, 192 + 8 * y, offset, registers);
          registers := registers.(f := sum.flags);
          if y == 5 {
            registers := registers.(sp := Joined(sum.high, sum.low));
          } else {
            registers := registers.(h := sum.high, l := sum.low);
          }
        }
      }
    }

    method ExecutePops(y: nat)
      requires y < 8
      modifies this`registers, this`ime, this`imeEnableDelay, bus
      ensures (View(), true) == Pops(bus.platform, old(View()), y)
    {
      hide Popped, Registers.WithStackPair;
      if y == 5 {
        registers := registers.(pc := registers.Hl());
      } else if y == 7 {
        registers := registers.(sp := registers.Hl());
      } else {
        var value := Pop();
        if y % 2 == 0 {
          registers := registers.WithStackPair(y / 2, value);
        } else {
          registers := registers.(pc := value);
          if y == 3 {
            ime := true;
            imeEnableDelay := 0;
          }
        }
      }
    }

    method ExecuteJumps(y: nat) returns (taken: bool)
      requires y < 8
      modifies this`registers, this`haltBug, bus
      ensures (View(), taken) == Jumps(bus.platform, old(View()), y)
    {
      hide Fetched16;
      taken := true;
      if y == 4 {
        bus.Write8(registers.c as int + 0xff00, registers.a);
      } else if y == 6 {
        var value := bus.Read8(registers.c as int + 0xff00);
        registers := registers.(a := value);
      } else {
        var address := Fetch16();
        if y < 4 {
          if !Condition(registers.f, y) {
            return false;
          }
          registers := registers.(pc := address);
        } else if y == 5 {
          bus.Write8(address, registers.a);
        } else {
          var value := bus.Read8(address);
          registers := registers.(a := value);
        }
      }
    }

    method Call(address: u16)
      modifies this`registers, bus
      ensures View() == Called(bus.platform, old(View()), address)
    {
      hide Pushed;
      Push(registers.pc);
      registers := registers.(pc := address);
    }

    method ExecuteCalls(y: nat, z: nat) returns (taken: bool)
      requires y < 8 && 3 <= z < 8 && Defined(3, y, z)
      modifies this, bus
      ensures (View(), taken) == High(bus.platform, old(View()), y, z)
    {
      hide Fetched8, Fetched16, Called, Accumulated, Pushed, Registers.StackPair;
      taken := true;
      if z == 3 {
        if y == 0 {
          var address := Fetch16();
          registers := registers.(pc := address);
        } else if y == 6 {
          ime := false;
          imeEnableDelay := 0;
        } else if imeEnableDelay == 0 {
          imeEnableDelay := 2;
        }
      } else if z == 4 {
        var address := Fetch16();
        if !Condition(registers.f, y) {
          return false;
        }
        Call(address);
      } else if z == 5 {
        if y % 2 == 0 {
          Push(registers.StackPair(y / 2));
        } else {
          var address := Fetch16();
          Call(address);
        }
      } else if z == 6 {
        var value := Fetch8();
        Alu(y, 192 + 8 * y + z, value);
      } else {
        Call(y * 8);
      }
    }

    // An unprefixed instruction takes the branch the predictor evaluated and stays within what it
    // declares.
    method ExecuteBase(x: nat, y: nat, z: nat) returns (taken: bool)
      requires x < 4 && y < 8 && z < 8 && Defined(x, y, z)
      modifies this, bus
      ensures (View(), taken) == Executed(bus.platform, old(View()), x, y, z)
      ensures WithinBudget(old(View()), x, y, z, (View(), taken))
    {
      hide Low, Loads, Accumulate, Returns, Pops, Jumps, Switches, Calls, Pushes, Immediates, WithinBudget, Defined;
      if x == 0 {
        taken := ExecuteLow(y, z);
      } else if x < 3 {
        ExecuteMiddle(x, y, z);
        taken := true;
      } else if z == 0 {
        taken := ExecuteReturns(y);
      } else if z == 1 {
        ExecutePops(y);
        taken := true;
      } else if z == 2 {
        taken := ExecuteJumps(y);
      } else {
        taken := ExecuteCalls(y, z);
      }
    }

    method ExecuteCb(opcode: u8)
      modifies this`registers, bus
      ensures View() == Prefixed(bus.platform, old(View()), opcode)
    {
      hide ReadOperand, WriteOperand;
      var z := opcode % 8;
      var value := ReadR(z);
      var result := bus.platform.arithmetic(true, opcode, value, registers);
      if opcode < 0x80 {
        registers := registers.(f := result.flags);
      }
      if opcode / 64 != 1 {
        WriteR(z, result.low);
      }
    }

    method Acknowledge(i: Interrupt)
      modifies this`ime, this`imeEnableDelay, this`mode, bus`devices
      ensures var m := old(View());
              View() == m.(core := m.core.(ime := false, imeEnableDelay := 0, mode := Running),
                           devices := bus.platform.acknowledge(m.devices, i))
    {
      ime := false;
      imeEnableDelay := 0;
      mode := Running;
      bus.devices := bus.platform.acknowledge(bus.devices, i);
    }

    // Five M-cycles with two writes, entered with the interrupt already acknowledged.
    method ServiceInterrupt(i: Interrupt)
      modifies this, bus
      ensures View() == Serviced(bus.platform, old(View()), i)
    {
      hide Pushed, Vector, AfterCycle;
      Acknowledge(i);
      bus.IdleMCycle();
      bus.IdleMCycle();
      Push(registers.pc);
      bus.IdleMCycle();
      registers := registers.(pc := Vector(i));
    }

    method PadTo(until: nat)
      requires bus.cycle <= until
      modifies bus`devices, bus`cycle, bus`order
      ensures View() == Padded(bus.platform, old(View()), until)
    {
      while bus.cycle < until
        invariant bus.cycle <= until
        invariant Padded(bus.platform, View(), until) == Padded(bus.platform, old(View()), until)
      {
        bus.IdleMCycle();
      }
    }

    // Fetch, execute and pad one instruction.
    method ExecuteNext() returns (r: Result<nat>)
      modifies this, bus
      ensures (View(), r) == Instruction(bus.platform, old(View()))
    {
      hide BaseCycles, IsIllegal, Prefixed, Executed, Padded, Defined, MCycles, PredictedInstruction, Stable,
           BranchTaken;
      var start := bus.cycle;
      var opcode := Fetch8();
      if opcode == 0xcb {
        var prefixed := Fetch8();
        ExecuteCb(prefixed);
        var cycles := Decode(prefixed, true).cyclesTaken;
        PadTo(start + cycles / 4);
        r := Ok(cycles);
      } else {
        OpcodeParts(opcode);
        if IsIllegal(opcode) {
          return Illegal;
        }
        var x, y, z := opcode / 64, opcode / 8 % 8, opcode % 8;
        var taken := ExecuteBase(x, y, z);
        PadTo(start + MCycles(x, y, z, taken));
        r := Ok(Declared(x, y, z, taken));
      }
    }

    // One step. It consumes what was predicted, in whole M-cycles, and never more bus accesses
    // than that.
    method Step() returns (r: Result<nat>)
      modifies this, bus
      ensures (View(), r) == Stepped(bus.platform, old(View()))
      ensures r.Illegal? <==> old(NextStepTCycles()).Illegal?
      ensures Stable(bus.platform, old(View())) ==> r == old(NextStepTCycles())
      ensures r.Ok? ==> Consumes(old(View()), View(), r.value)
    {
      hide Instruction, Serviced, HighestPriority, Stable, PredictedInstruction, Consumes;
      var pending := if mode == Stopped then bus.PendingInterrupts() * {Joypad} else bus.PendingInterrupts();
      if ime && pending != {} {
        ServiceInterrupt(HighestPriority(pending));
        return Ok(20);
      }
      if mode == Stopped {
        if pending == {} {
          return Ok(0);
        }
        mode := Running;
      }
      if mode == Halted {
        if pending == {} {
          bus.IdleMCycle();
          return Ok(4);
        }
        mode := Running;
      }
      r := ExecuteNext();
      if r.Illegal? {
        return;
      }
      if imeEnableDelay > 0 {
        imeEnableDelay := imeEnableDelay - 1;
        if imeEnableDelay == 0 {
          ime := true;
        }
      }
    }
  }

  class GameBoy {
    const cpu: Cpu

    constructor (cpu: Cpu)
      ensures this.cpu == cpu
    {
      this.cpu := cpu;
    }

    // The run loop, whatever the devices do: it ends, leaves the cycles it reports on the clock,
    // and stays within its budget as long as every step it takes is stable.
    method RunCycles(cycleBudget: nat) returns (r: Result<nat>)
      modifies cpu, cpu.bus
      ensures (cpu.View(), r) == Ran(cpu.bus.platform, old(cpu.View()), cycleBudget)
      ensures r.Ok? ==> Consumes(old(cpu.View()), cpu.View(), r.value) && r.value <= cycleBudget + 8
      ensures r.Ok? && Steady(cpu.bus.platform, old(cpu.View()), cycleBudget) ==> r.value <= cycleBudget
    {
      hide Predicted, Stepped, Stable, Consumes, Ran, Steady, Cpu.NextStepTCycles;
      ghost var p, start := cpu.bus.platform, cpu.View();
      var executed := 0;
      OverBudget(p, start, 0);
      while executed < cycleBudget
        invariant executed <= cycleBudget + 8
        invariant var rest := Ran(p, cpu.View(), cycleBudget - executed);
                  Ran(p, start, cycleBudget) == (rest.0, Plus(executed, rest.1))
        decreases cycleBudget + 8 - executed
      {
        RanUnrolls(p, cpu.View(), cycleBudget - executed);
        cpu.bus.SetUnixSeconds(cpu.bus.platform.clock(cpu.bus.cycle));
        var next := cpu.NextStepTCycles();
        if next.Illegal? {
          return Illegal;
        }
        if next.value == 0 || next.value > cycleBudget - executed {
          RanWithinBudget(p, start, cycleBudget, cpu.View(), executed);
          return Ok(executed);
        }
        var taken := cpu.Step();
        executed := executed + taken.value;
      }
      OverBudget(p, cpu.View(), cycleBudget - executed);
      RanWithinBudget(p, start, cycleBudget, cpu.View(), executed);
      r := Ok(executed);
    }

    // Two runs in a row are one run of what the first executed and what the second was allowed.
    method RunTwice(first: nat, second: nat) returns (e: Result<nat>, r: Result<nat>)
      requires second > 0 && ClockSettles(cpu.bus.platform)
      modifies cpu, cpu.bus
      ensures e.Ok? && Steady(cpu.bus.platform, old(cpu.View()), first) ==>
                (cpu.View(), Plus(e.value, r)) == Ran(cpu.bus.platform, old(cpu.View()), e.value + second)
    {
      hide Ran, Steady, ClockSettles, Consumes;
      ghost var start := cpu.View();
      e := RunCycles(first);
      if e.Illegal? {
        return e, Illegal;
      }
      if Steady(cpu.bus.platform, start, first) {
        RunsCompose(cpu.bus.platform, start, first, second, cpu.View(), e.value);
      }
      r := RunCycles(second);
    }
  }
}
