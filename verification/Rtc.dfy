// crates/gb-core/src/cartridge/mbc3.rs: the battery-backed real-time clock.
module Rtcs {
  import opened Words

  const PERIOD := 44236800 // 512 days of seconds
  const DAY := 86400
  const STATE_BYTES := 22
  const TWO_64 := 0x1_0000_0000_0000_0000

  type Seconds = x: int | 0 <= x < TWO_64

  // The part of the state that determines every later reading.
  datatype Clock = Clock(counter: nat, lastUpdate: Seconds, halted: bool, carry: bool) {
    predicate Valid() { counter < PERIOD }
  }

  // Counter and carry as they read at an instant.
  function Live(c: Clock, now: Seconds): (nat, bool) {
    if c.halted || now < c.lastUpdate then (c.counter, c.carry)
    else
      var total := c.counter + (now - c.lastUpdate);
      (total % PERIOD, c.carry || total >= PERIOD)
  }

  function Synced(c: Clock, now: Seconds): (d: Clock)
    ensures c.Valid() ==> d.Valid()
  {
    Clock(Live(c, now).0, if now >= c.lastUpdate then now else c.lastUpdate, c.halted, Live(c, now).1)
  }

  // The five readable registers.
  datatype Registers = Registers(seconds: nat, minutes: nat, hours: nat, days: nat, halted: bool, carry: bool) {
    predicate Valid() { seconds < 60 && minutes < 60 && hours < 24 && days < 512 }

    function Counter(): nat {
      days * DAY + hours * 3600 + minutes * 60 + seconds
    }

    function Byte(selector: u8): u8
      requires Valid() && 0x08 <= selector <= 0x0c
    {
      if selector == 0x08 then seconds
      else if selector == 0x09 then minutes
      else if selector == 0x0a then hours
      else if selector == 0x0b then days % 0x100
      else days / 0x100 + (if halted then 0x40 else 0) + (if carry then 0x80 else 0)
    }

    // What a write of a byte stores: the unused bits and the out-of-range values are lost.
    function With(selector: u8, value: u8): (r: Registers)
      requires Valid()
      ensures r.Valid()
    {
      if selector == 0x08 then this.(seconds := value % 60)
      else if selector == 0x09 then this.(minutes := value % 60)
      else if selector == 0x0a then this.(hours := value % 24)
      else if selector == 0x0b then this.(days := days / 0x100 * 0x100 + value)
      else if selector == 0x0c then this.(days := value % 2 * 0x100 + days % 0x100, halted := Bit(value, 0x40),
          carry := Bit(value, 0x80))
      else this
    }
  }

  function ReadAt(c: Clock, now: Seconds): (r: Registers)
    requires c.Valid()
    ensures r.Valid()
  {
    var (counter, carry) := Live(c, now);
    var inDay := counter % DAY;
    Registers(inDay % 60, (inDay / 60) % 60, inDay / 3600, counter / DAY, c.halted, carry)
  }

  function Written(c: Clock, selector: u8, value: u8, now: Seconds): (d: Clock)
    requires c.Valid()
    ensures d.Valid()
  {
    var s := Synced(c, now);
    if !(0x08 <= selector <= 0x0c) then s
    else
      var r := ReadAt(s, now).With(selector, value);
      Clock(r.Counter(), if s.halted != r.halted || !r.halted then now else s.lastUpdate, r.halted, r.carry)
  }

  // Two clocks nobody can tell apart from an instant on.
  ghost predicate Same(c: Clock, d: Clock, from: Seconds) {
    c.halted == d.halted && forall u: Seconds :: from <= u ==> Live(c, u) == Live(d, u)
  }

  lemma CounterDecomposes(counter: nat)
    requires counter < PERIOD
    ensures var inDay := counter % DAY;
            counter == counter / DAY * DAY + inDay / 3600 * 3600 + (inDay / 60) % 60 * 60 + inDay % 60
    ensures counter / DAY < 512
  {
  }

  lemma {:induction false} CounterComposes(r: Registers)
    requires r.Valid()
    ensures var c := r.Counter(); var inDay := c % DAY;
            && c < PERIOD && c / DAY == r.days
            && inDay / 3600 == r.hours && (inDay / 60) % 60 == r.minutes && inDay % 60 == r.seconds
  {
    var inDay := r.hours * 3600 + r.minutes * 60 + r.seconds;
    DivModUnique(r.Counter(), DAY, r.days, inDay);
    DivModUnique(inDay, 3600, r.hours, r.minutes * 60 + r.seconds);
    DivModUnique(inDay, 60, r.hours * 60 + r.minutes, r.seconds);
    DivModUnique(r.hours * 60 + r.minutes, 60, r.hours, r.minutes);
  }

  // Synchronising is invisible: splitting the elapsed time loses neither seconds nor the carry.
  lemma SyncIsInvisible(c: Clock, now: Seconds, from: Seconds)
    requires now <= from
    ensures Same(c, Synced(c, now), from)
  {
  }

  // A write sees nothing but what readers see.
  lemma {:induction false} WriteKeepsSame(c: Clock, d: Clock, selector: u8, value: u8, now: Seconds)
    requires c.Valid() && d.Valid() && Same(c, d, now)
    ensures Same(Written(c, selector, value, now), Written(d, selector, value, now), now)
  {
    var s, t := Synced(c, now), Synced(d, now);
    assert Live(c, now) == Live(d, now);
    SyncIsInvisible(c, now, now);
    SyncIsInvisible(d, now, now);
    assert Live(s, now) == Live(c, now) && Live(t, now) == Live(d, now);
    assert ReadAt(s, now) == ReadAt(t, now);
  }

  // After a write the register reads what was stored, and every other one reads as before.
  lemma {:induction false} WriteThenRead(c: Clock, selector: u8, value: u8, now: Seconds)
    requires c.Valid() && 0x08 <= selector <= 0x0c
    ensures ReadAt(Written(c, selector, value, now), now) == ReadAt(c, now).With(selector, value)
  {
    SyncIsInvisible(c, now, now);
    var r := ReadAt(Synced(c, now), now).With(selector, value);
    CounterComposes(r);
    assert Live(Written(c, selector, value, now), now) == (r.Counter(), r.carry);
  }

  // Writing back what a register reads is invisible exactly when the clock is stopped or was not
  // last updated in the future; otherwise it restarts a clock that was waiting for that instant.
  lemma {:induction false} OwnValueWriteBack(c: Clock, selector: u8, now: Seconds)
    requires c.Valid() && 0x08 <= selector <= 0x0c && now + 1 < TWO_64
    ensures Same(c, Written(c, selector, ReadAt(c, now).Byte(selector), now), now) <==> c.halted || c.lastUpdate <= now
  {
    var s, r := Synced(c, now), ReadAt(c, now);
    var value := r.Byte(selector);
    var w := Written(c, selector, value, now);
    SyncIsInvisible(c, now, now);
    assert Live(s, now) == Live(c, now);
    assert ReadAt(s, now) == r;
    OwnValue(r, selector);
    CounterDecomposes(Live(c, now).0);
    assert w.counter == s.counter && w.halted == c.halted && w.carry == s.carry;
    if c.halted || c.lastUpdate <= now {
      forall u: Seconds | now <= u ensures Live(c, u) == Live(w, u) {
        assert Live(c, u) == Live(s, u);
      }
    } else {
      assert Live(c, now + 1).0 == c.counter;
      assert Live(w, now + 1).0 == (c.counter + 1) % PERIOD;
    }
  }

  // The failing case: stopped at second 100 by a clock set back to 50, the counter would have
  // stayed at zero until 100, and runs at once when seconds are written back unchanged.
  lemma WriteBackStartsWaitingClock()
    ensures var c := Clock(0, 100, false, false);
            var w := Written(c, 0x08, ReadAt(c, 50).Byte(0x08), 50);
            ReadAt(c, 60).seconds == 0 && ReadAt(w, 60).seconds == 10
  {
    var c := Clock(0, 100, false, false);
    var r := Registers(0, 0, 0, 0, false, false);
    assert Synced(c, 50) == c && ReadAt(c, 50) == r;
    assert r.With(0x08, 0) == r && r.Byte(0x08) == 0;
    assert Written(c, 0x08, 0, 50) == Clock(0, 50, false, false);
  }

  lemma OwnValue(r: Registers, selector: u8)
    requires r.Valid() && 0x08 <= selector <= 0x0c
    ensures r.With(selector, r.Byte(selector)) == r
  {
    if selector == 0x0c {
      var high := r.days / 0x100;
      assert high == 0 || high == 1;
      var value := r.Byte(selector);
      assert value % 2 == high;
      assert value / 0x80 == if r.carry then 1 else 0;
      assert value / 0x40 == (if r.carry then 2 else 0) + (if r.halted then 1 else 0);
    }
  }

  // The 22 bytes a battery save holds.
  const MAGIC: seq<u8> := [0x4d, 0x33, 0x52, 0x31]

  function LeBytes(n: nat, width: nat): (s: seq<u8>)
    ensures |s| == width
  {
    if width == 0 then [] else [n % 0x100] + LeBytes(n / 0x100, width - 1)
  }

  function FromLe(s: seq<u8>): nat {
    if s == [] then 0 else s[0] + 0x100 * FromLe(s[1..])
  }

  function Pow256(n: nat): nat {
    if n == 0 then 1 else 0x100 * Pow256(n - 1)
  }

  lemma {:induction false} LeRoundTrip(n: nat, width: nat)
    requires n < Pow256(width)
    ensures FromLe(LeBytes(n, width)) == n
  {
    if width > 0 {
      LeRoundTrip(n / 0x100, width - 1);
    }
  }

  lemma {:induction false} LeUnique(s: seq<u8>)
    ensures FromLe(s) < Pow256(|s|) && LeBytes(FromLe(s), |s|) == s
  {
    if s != [] {
      LeUnique(s[1..]);
      DivModUnique(FromLe(s), 0x100, FromLe(s[1..]), s[0]);
    }
  }

  lemma EightBytes()
    ensures Pow256(8) == TWO_64
  {
  }

  function Flag(b: bool): u8 { if b then 1 else 0 }

  function Encoded(c: Clock): (s: seq<u8>)
    ensures |s| == STATE_BYTES
  {
    MAGIC + LeBytes(c.counter, 8) + LeBytes(c.lastUpdate, 8) + [Flag(c.halted), Flag(c.carry)]
  }

  function Decoded(s: seq<u8>): Option<Clock> {
    if |s| != STATE_BYTES || s[..4] != MAGIC then None
    else
      var counter := FromLe(s[4..12]);
      var lastUpdate := FromLe(s[12..20]);
      if counter >= PERIOD || lastUpdate >= TWO_64 || s[20] > 1 || s[21] > 1 then None
      else Some(Clock(counter, lastUpdate, s[20] != 0, s[21] != 0))
  }

  // The save format loses nothing, and every byte string it accepts is the save of one clock.
  lemma {:induction false} SaveRoundTrip(c: Clock)
    requires c.Valid()
    ensures Decoded(Encoded(c)) == Some(c)
  {
    EightBytes();
    LeRoundTrip(c.counter, 8);
    LeRoundTrip(c.lastUpdate, 8);
    Slices(MAGIC, LeBytes(c.counter, 8), LeBytes(c.lastUpdate, 8), [Flag(c.halted), Flag(c.carry)]);
    hide LeBytes, FromLe, Pow256;
  }

  // The fields of a save, by position.
  lemma Slices(magic: seq<u8>, counter: seq<u8>, timestamp: seq<u8>, flags: seq<u8>)
    requires |magic| == 4 && |counter| == |timestamp| == 8 && |flags| == 2
    ensures var s := magic + counter + timestamp + flags;
            s[..4] == magic && s[4..12] == counter && s[12..20] == timestamp && s[20] == flags[0] && s[21] == flags[1]
  {
  }

  lemma {:induction false} SavesAreUnique(s: seq<u8>)
    requires Decoded(s).Some?
    ensures Decoded(s).value.Valid() && Encoded(Decoded(s).value) == s
  {
    LeUnique(s[4..12]);
    LeUnique(s[12..20]);
    assert s == s[..4] + s[4..12] + s[12..20] + s[20..];
  }

  // A timestamp of eight bytes always fits, so nothing is refused for it.
  lemma {:induction false} TimestampFits(s: seq<u8>)
    requires |s| == STATE_BYTES
    ensures FromLe(s[12..20]) < TWO_64
  {
    EightBytes();
    LeUnique(s[12..20]);
  }

  class RtcState {
    var counterSeconds: nat
    var lastUpdateUnix: Seconds
    var halted: bool
    var carry: bool
    var latched: Registers
    var latchArmed: bool

    function View(): Clock
      reads this
    {
      Clock(counterSeconds, lastUpdateUnix, halted, carry)
    }

    ghost predicate Valid()
      reads this
    {
      View().Valid() && latched.Valid()
    }

    constructor (now: Seconds)
      ensures Valid() && View() == Clock(0, now, false, false) && !latchArmed
      ensures latched == Registers(0, 0, 0, 0, false, false)
    {
      counterSeconds, lastUpdateUnix, halted, carry := 0, now, false, false;
      latched, latchArmed := ReadAt(Clock(0, now, false, false), now), false;
    }

    constructor FromClock(c: Clock, now: Seconds)
      requires c.Valid()
      ensures Valid() && View() == Synced(c, now) && latched == ReadAt(Synced(c, now), now) && !latchArmed
    {
      counterSeconds, lastUpdateUnix, halted, carry := c.counter, c.lastUpdate, c.halted, c.carry;
      latched, latchArmed := Registers(0, 0, 0, 0, false, false), false;
      new;
      Sync(now);
      latched := ReadAt(View(), now);
    }

    method Sync(now: Seconds)
      requires View().Valid()
      modifies this`counterSeconds, this`carry, this`lastUpdateUnix
      ensures View() == Synced(old(View()), now)
    {
      var (counter, newCarry) := Live(View(), now);
      counterSeconds := counter;
      carry := newCarry;
      if now >= lastUpdateUnix {
        lastUpdateUnix := now;
      }
    }

    // Writing 0 and then 1 copies the registers as they read at the second write.
    method Latch(value: u8, now: Seconds)
      requires Valid()
      modifies this
      ensures Valid() && latchArmed == (value == 0)
      ensures if value == 1 && old(latchArmed)
              then View() == Synced(old(View()), now) && latched == ReadAt(old(View()), now)
              else View() == old(View()) && latched == old(latched)
    {
      if value == 0 {
        latchArmed := true;
      } else if value == 1 && latchArmed {
        SyncIsInvisible(View(), now, now);
        Sync(now);
        latched := ReadAt(View(), now);
        latchArmed := false;
      } else {
        latchArmed := false;
      }
    }

    method WriteRegister(selector: u8, value: u8, now: Seconds)
      requires Valid()
      modifies this
      ensures Valid() && View() == Written(old(View()), selector, value, now)
      ensures latched == old(latched) && latchArmed == old(latchArmed)
    {
      Sync(now);
      var registers := ReadAt(View(), now);
      if !(0x08 <= selector <= 0x0c) {
        return;
      }
      registers := registers.With(selector, value);
      CounterComposes(registers);
      counterSeconds := registers.Counter();
      var wasHalted := halted;
      halted := registers.halted;
      carry := registers.carry;
      if wasHalted != halted || !halted {
        lastUpdateUnix := now;
      }
    }

    // Saving does not change the clock; what is saved is the clock synchronised to that instant.
    method Bytes(now: Seconds) returns (bytes: seq<u8>)
      requires Valid()
      ensures Decoded(bytes) == Some(Synced(View(), now))
    {
      var (counter, liveCarry) := Live(View(), now);
      var timestamp := if lastUpdateUnix < now then now else lastUpdateUnix;
      SaveRoundTrip(Synced(View(), now));
      bytes := MAGIC + LeBytes(counter, 8) + LeBytes(timestamp, 8) + [Flag(halted), Flag(liveCarry)];
    }

    method Reset(now: Seconds)
      requires Valid()
      modifies this
      ensures Valid() && View() == Synced(old(View()), now) && !latchArmed && latched == old(latched)
    {
      Sync(now);
      latchArmed := false;
    }
  }

  // Loading succeeds on exactly the saves of valid clocks.
  method FromBytes(bytes: seq<u8>, now: Seconds) returns (rtc: Option<RtcState>)
    ensures rtc.Some? <==> exists c: Clock :: c.Valid() && bytes == Encoded(c)
    ensures rtc.Some? ==>
              && fresh(rtc.value) && rtc.value.Valid() && Decoded(bytes).Some?
              && rtc.value.View() == Synced(Decoded(bytes).value, now)
              && rtc.value.latched == ReadAt(rtc.value.View(), now)
  {
    forall c: Clock | c.Valid() && bytes == Encoded(c) ensures Decoded(bytes).Some? {
      SaveRoundTrip(c);
    }
    if |bytes| != STATE_BYTES || bytes[..4] != MAGIC {
      return None;
    }
    TimestampFits(bytes);
    var counter := FromLe(bytes[4..12]);
    var lastUpdate := FromLe(bytes[12..20]);
    if counter >= PERIOD || bytes[20] > 1 || bytes[21] > 1 {
      return None;
    }
    SavesAreUnique(bytes);
    var state := new RtcState.FromClock(Clock(counter, lastUpdate, bytes[20] != 0, bytes[21] != 0), now);
    rtc := Some(state);
  }

  // What can happen to the clock between two power-offs. All but a register write only observe;
  // Reload saves and loads again at a later instant.
  datatype Event =
    | WriteRegister(selector: u8, value: u8, now: Seconds)
    | Latch(value: u8, now: Seconds)
    | Reset(now: Seconds)
    | Save(now: Seconds)
    | Reload(saved: Seconds, now: Seconds)

  predicate Timely(events: seq<Event>, from: Seconds) {
    events == [] ||
    (from <= (if events[0].Reload? then events[0].saved else events[0].now) <= events[0].now
     && Timely(events[1..], events[0].now))
  }

  function Writes(events: seq<Event>): seq<Event> {
    if events == [] then []
    else if events[0].WriteRegister? then [events[0]] + Writes(events[1..])
    else Writes(events[1..])
  }

  // Whether a latch write synchronises the clock depends on its being armed, so either may happen.
  ghost predicate Happens(c: Clock, e: Event, d: Clock)
    requires c.Valid()
  {
    match e
    case WriteRegister(selector, value, now) => d == Written(c, selector, value, now)
    case Latch(_, now) => d == c || d == Synced(c, now)
    case Reset(now) => d == Synced(c, now)
    case Save(_) => d == c
    case Reload(saved, now) => d == Synced(Synced(c, saved), now)
  }

  function LastInstant(events: seq<Event>, from: Seconds): Seconds {
    if events == [] then from else events[|events| - 1].now
  }

  lemma SameIsTransitive(c: Clock, d: Clock, e: Clock, from: Seconds, later: Seconds)
    requires Same(c, d, from) && Same(d, e, later) && from <= later
    ensures Same(c, e, later)
  {
  }

  lemma {:induction false} ObserverIsInvisible(c: Clock, e: Event, d: Clock, from: Seconds)
    requires c.Valid() && !e.WriteRegister? && Happens(c, e, d)
    requires from <= (if e.Reload? then e.saved else e.now) <= e.now
    ensures d.Valid() && Same(d, c, e.now)
  {
    SyncIsInvisible(c, e.now, e.now);
    if e.Reload? {
      SyncIsInvisible(c, e.saved, e.saved);
      SyncIsInvisible(Synced(c, e.saved), e.now, e.now);
      SameIsTransitive(c, Synced(c, e.saved), d, e.saved, e.now);
    }
  }

  // A run of events through the states it passes.
  ghost predicate RunOf(states: seq<Clock>, events: seq<Event>) {
    && |states| == |events| + 1
    && (forall i :: 0 <= i < |states| ==> states[i].Valid())
    && forall i :: 0 <= i < |events| ==> Happens(states[i], events[i], states[i + 1])
  }

  // The register writes alone.
  function AfterWrites(c: Clock, writes: seq<Event>): (d: Clock)
    requires c.Valid() && forall e :: e in writes ==> e.WriteRegister?
    ensures d.Valid()
    decreases |writes|
  {
    if writes == [] then c
    else AfterWrites(Written(c, writes[0].selector, writes[0].value, writes[0].now), writes[1..])
  }

  lemma {:induction false} WritesAreWrites(events: seq<Event>)
    ensures forall e :: e in Writes(events) ==> e.WriteRegister?
  {
    if events != [] {
      WritesAreWrites(events[1..]);
    }
  }

  // Observation independence: however often a run is observed, saved and reloaded between its
  // register writes, from its last instant on the clock reads as if only the writes had happened.
  lemma {:induction false} ObservationIndependence(states: seq<Clock>, events: seq<Event>, c: Clock, from: Seconds)
    requires RunOf(states, events) && Timely(events, from)
    requires c.Valid() && Same(states[0], c, from)
    ensures forall e :: e in Writes(events) ==> e.WriteRegister?
    ensures Same(states[|events|], AfterWrites(c, Writes(events)), LastInstant(events, from))
  {
    WritesAreWrites(events);
    if events != [] {
      var e := events[0];
      var rest := states[1..];
      assert Happens(states[0], e, states[1]);
      forall i | 0 <= i < |events| - 1 ensures Happens(rest[i], events[1..][i], rest[i + 1]) {
        assert Happens(states[i + 1], events[i + 1], states[i + 2]);
      }
      assert RunOf(rest, events[1..]);
      assert rest[|events| - 1] == states[|events|];
      if e.WriteRegister? {
        SameLater(states[0], c, from, e.now);
        WriteKeepsSame(states[0], c, e.selector, e.value, e.now);
        var d := Written(c, e.selector, e.value, e.now);
        ObservationIndependence(rest, events[1..], d, e.now);
        assert Writes(events)[1..] == Writes(events[1..]);
      } else {
        ObserverIsInvisible(states[0], e, states[1], from);
        SameLater(states[0], c, from, e.now);
        SameIsTransitive(states[1], states[0], c, e.now, e.now);
        ObservationIndependence(rest, events[1..], c, e.now);
      }
    }
  }

  lemma SameLater(c: Clock, d: Clock, from: Seconds, later: Seconds)
    requires Same(c, d, from) && from <= later
    ensures Same(c, d, later)
  {
  }

  method Perform(rtc: RtcState, e: Event) returns (next: RtcState)
    requires rtc.Valid()
    modifies rtc
    ensures next.Valid() && (next == rtc || fresh(next))
    ensures Happens(old(rtc.View()), e, next.View())
  {
    next := rtc;
    match e
    case WriteRegister(selector, value, now) =>
      rtc.WriteRegister(selector, value, now);
    case Latch(value, now) =>
      rtc.Latch(value, now);
    case Reset(now) =>
      rtc.Reset(now);
    case Save(now) =>
      var bytes := rtc.Bytes(now);
    case Reload(saved, now) =>
      var bytes := rtc.Bytes(saved);
      SavesAreUnique(bytes);
      var loaded := FromBytes(bytes, now);
      next := loaded.value;
  }

  // Every run of the clock, from power-on: its counter stays below 512 days, and it reads as if
  // only the register writes had happened.
  method Run(start: Seconds, events: seq<Event>) returns (rtc: RtcState)
    requires Timely(events, start)
    ensures rtc.Valid() && rtc.counterSeconds < PERIOD
    ensures forall e :: e in Writes(events) ==> e.WriteRegister?
    ensures Same(rtc.View(), AfterWrites(Clock(0, start, false, false), Writes(events)), LastInstant(events, start))
  {
    rtc := new RtcState(start);
    ghost var states := [rtc.View()];
    for i := 0 to |events|
      invariant fresh(rtc) && rtc.Valid()
      invariant |states| == i + 1 && states[0] == Clock(0, start, false, false) && states[i] == rtc.View()
      invariant forall k :: 0 <= k <= i ==> states[k].Valid()
      invariant forall k :: 0 <= k < i ==> Happens(states[k], events[k], states[k + 1])
    {
      rtc := Perform(rtc, events[i]);
      states := states + [rtc.View()];
    }
    ObservationIndependence(states, events, states[0], start);
  }
}
