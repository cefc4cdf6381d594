// crates/gb-core/src/timer.rs: the divider, TIMA and the delayed reload.
module Timers {
  import opened Words

  // What a run of T-cycles leaves behind: TIMA, the reload still pending, how many reloads
  // completed, and whether the last cycle was one of them.
  datatype Outcome = Outcome(tima: u8, pending: Option<nat>, reloads: nat, justReloaded: bool)

  // Everything the timer holds.
  datatype State = State(divider: u16, tma: u8, tac: u8, o: Outcome)

  predicate Enabled(tac: u8) { Bit(tac, 4) }

  // The divider bit TAC selects, as a weight.
  function SelectedBit(tac: u8): (w: nat)
    ensures w in {0x200, 0x8, 0x20, 0x80}
  {
    match tac % 4
    case 0 => 0x200
    case 1 => 0x8
    case 2 => 0x20
    case _ => 0x80
  }

  // A falling edge of the selected bit happens once every Period(tac) cycles.
  function Period(tac: u8): (p: nat)
    ensures p in {1024, 16, 64, 256}
  {
    2 * SelectedBit(tac)
  }

  function Edges(divider: nat, n: nat, tac: u8): nat {
    var p := Period(tac);
    (divider + n) / p - divider / p
  }

  function Rounds(x: nat, m: nat): nat
    requires 0 < m
  {
    x / m
  }

  function Phase(x: nat, m: nat): (r: nat)
    requires 0 < m
    ensures r < m
  {
    x % m
  }

  lemma RoundStart(m: nat)
    requires 0 < m
    ensures Phase(0, m) == 0 && Rounds(0, m) == 0
  {
  }

  lemma RoundStep(x: nat, m: nat)
    requires 0 < m
    ensures Phase(x, m) == m - 1 ==> Phase(x + 1, m) == 0 && Rounds(x + 1, m) == Rounds(x, m) + 1
    ensures Phase(x, m) != m - 1 ==> Phase(x + 1, m) == Phase(x, m) + 1 && Rounds(x + 1, m) == Rounds(x, m)
  {
    DivModStep(x, m);
  }

  // The closed form for a run that starts with no reload pending: TIMA counts edges; it
  // overflows after 256 - tima of them and then after every 256 - tma, and each overflow
  // reads as zero for four cycles before TMA is loaded.
  function Counted(divider: nat, tima: u8, tma: u8, tac: u8, n: nat): Outcome {
    if !Enabled(tac) then Outcome(tima, None, 0, false)
    else
      var edges := Edges(divider, n, tac);
      var phase := (divider + n) % Period(tac);
      var first, round := 256 - tima, 256 - tma;
      if edges < first then Outcome(tima + edges, None, 0, false)
      else
        var since := Phase(edges - first, round);
        var overflows := 1 + Rounds(edges - first, round);
        if since == 0 && phase < 4 then Outcome(0, Some(4 - phase), overflows - 1, false)
        else Outcome(tma + since, None, overflows, since == 0 && phase == 4)
  }

  // The closed form from any state. A pending reload freezes TIMA until the cycle that
  // completes it; from that cycle on the run counts from TMA.
  function After(divider: u16, tima: u8, tma: u8, tac: u8, pending: Option<nat>, n: nat): Outcome
    requires pending.Some? ==> 1 <= pending.value <= 4
  {
    match pending
    case None => Counted(divider, tima, tma, tac, n)
    case Some(d) =>
      if n < d then Outcome(tima, Some(d - n), 0, false)
      else
        var c := Counted(divider + d - 1, tma, tma, tac, n - (d - 1));
        Outcome(c.tima, c.pending, c.reloads + 1, n == d || c.justReloaded)
  }

  // TIMA ignores an increment while a reload is pending.
  function Bumped(o: Outcome): Outcome {
    if o.pending.Some? then o
    else if o.tima == 255 then o.(tima := 0, pending := Some(4))
    else o.(tima := o.tima + 1)
  }

  // One cycle: the reload, if it is due, then the edge, if there is one.
  function Next(o: Outcome, tma: u8, edge: bool): Outcome
    requires o.pending.Some? ==> 1 <= o.pending.value <= 4
  {
    var due := o.pending == Some(1);
    var tima := if due then tma else o.tima;
    var pending := if due || o.pending.None? then None else Some(o.pending.value - 1);
    var reloads := o.reloads + (if due then 1 else 0);
    var loaded := Outcome(tima, pending, reloads, due);
    if edge then Bumped(loaded) else loaded
  }

  function EdgeAt(divider: nat, tac: u8): bool {
    Enabled(tac) && divider % Period(tac) == 0
  }

  // The cycle loop itself, as n applications of Next.
  function Cycles(divider: u16, start: Outcome, tma: u8, tac: u8, n: nat): (o: Outcome)
    requires start.pending.Some? ==> 1 <= start.pending.value <= 4
    ensures o.pending.Some? ==> 1 <= o.pending.value <= 4
  {
    if n == 0 then start
    else Next(Cycles(divider, start, tma, tac, n - 1), tma, EdgeAt(divider + n, tac))
  }

  lemma {:induction false} EdgesStep(divider: nat, n: nat, tac: u8)
    ensures (divider + n + 1) % Period(tac) == 0 ==> Edges(divider, n + 1, tac) == Edges(divider, n, tac) + 1
    ensures (divider + n + 1) % Period(tac) != 0 ==>
              Edges(divider, n + 1, tac) == Edges(divider, n, tac)
              && (divider + n + 1) % Period(tac) == (divider + n) % Period(tac) + 1
  {
    DivModStep(divider + n, Period(tac));
  }

  lemma {:induction false} CountedStep(divider: nat, tima: u8, tma: u8, tac: u8, n: nat)
    ensures Next(Counted(divider, tima, tma, tac, n), tma, EdgeAt(divider + n + 1, tac))
            == Counted(divider, tima, tma, tac, n + 1)
  {
    EdgesStep(divider, n, tac);
    var edges := Edges(divider, n, tac);
    RoundStart(256 - tma);
    if edges >= 256 - tima {
      RoundStep(edges - (256 - tima), 256 - tma);
    }
    hide Edges, Rounds, Phase;
  }

  // The cycle that completes a pending reload, seen as the first cycle of a run from TMA.
  lemma {:induction false} ReloadCycle(from: nat, tima: u8, tma: u8, tac: u8)
    ensures var c := Counted(from, tma, tma, tac, 1);
            Next(Outcome(tima, Some(1), 0, false), tma, EdgeAt(from + 1, tac)) ==
                Outcome(c.tima, c.pending, c.reloads + 1, true)
            && c.reloads == 0
  {
    CountedStep(from, tma, tma, tac, 0);
  }

  // A reload counted earlier in the run does not affect the cycles after it.
  lemma {:induction false} LaterCycle(from: nat, tma: u8, tac: u8, k: nat, just: bool)
    ensures var c, c' := Counted(from, tma, tma, tac, k), Counted(from, tma, tma, tac, k + 1);
            Next(Outcome(c.tima, c.pending, c.reloads + 1, just), tma, EdgeAt(from + k + 1, tac))
            == Outcome(c'.tima, c'.pending, c'.reloads + 1, c'.justReloaded)
  {
    CountedStep(from, tma, tma, tac, k);
  }

  lemma {:induction false} CountedFromStart(divider: nat, tima: u8, tma: u8, tac: u8, just: bool)
    ensures Counted(divider, tima, tma, tac, 0) == Outcome(tima, None, 0, false)
    ensures Next(Outcome(tima, None, 0, just), tma, EdgeAt(divider + 1, tac)) == Counted(divider, tima, tma, tac, 1)
  {
    CountedStep(divider, tima, tma, tac, 0);
  }

  // The closed form moves one cycle at a time.
  lemma {:induction false} AfterStep(divider: u16, start: Outcome, tma: u8, tac: u8, n: nat)
    requires start.pending.Some? ==> 1 <= start.pending.value <= 4
    requires start.reloads == 0
    ensures var before := if n == 0 then start else After(divider, start.tima, tma, tac, start.pending, n);
            Next(before, tma, EdgeAt(divider + n + 1, tac)) ==
                After(divider, start.tima, tma, tac, start.pending, n + 1)
  {
    hide Counted;
    match start.pending
    case None =>
      CountedFromStart(divider, start.tima, tma, tac, start.justReloaded);
      CountedStep(divider, start.tima, tma, tac, n);
    case Some(d) =>
      var from := divider + d - 1;
      if n + 1 == d {
        ReloadCycle(from, start.tima, tma, tac);
      } else if n + 1 > d {
        assert from + (n - (d - 1)) + 1 == divider + n + 1;
        LaterCycle(from, tma, tac, n - (d - 1), After(divider, start.tima, tma, tac, start.pending, n).justReloaded);
      }
  }

  // The loop and the closed form agree from every state and for every number of cycles.
  lemma {:induction false} CyclesAreClosedForm(divider: u16, start: Outcome, tma: u8, tac: u8, n: nat)
    requires start.pending.Some? ==> 1 <= start.pending.value <= 4
    requires start.reloads == 0
    ensures Cycles(divider, start, tma, tac, n)
            == if n == 0 then start else After(divider, start.tima, tma, tac, start.pending, n)
  {
    hide Counted;
    if n > 0 {
      CyclesAreClosedForm(divider, start, tma, tac, n - 1);
      AfterStep(divider, start, tma, tac, n - 1);
    }
  }

  // Every edge is accounted for: those that did not end up in TIMA were spent, 256 - TMA at a
  // time, on reloads. The four-cycle delay swallows none.
  lemma {:induction false} NoIncrementLost(divider: nat, tima: u8, tma: u8, tac: u8, n: nat)
    requires Enabled(tac)
    ensures var o := Counted(divider, tima, tma, tac, n);
            tima + Edges(divider, n, tac) == o.reloads * (256 - tma) + (if o.pending.Some? then 256 else o.tima)
  {
    var edges, m := Edges(divider, n, tac), 256 - tma;
    if edges >= 256 - tima {
      var x := edges - (256 - tima);
      assert x == m * (x / m) + x % m;
      assert (1 + x / m) * m == m + m * (x / m);
    }
  }

  lemma WrapKeepsBit(d: u16, w: nat)
    requires w in {0x200, 0x8, 0x20, 0x80}
    ensures Bit((d + 1) % 0x1_0000, w) == Bit(d + 1, w)
  {
  }

  // The selected bit falls across one cycle exactly when the divider reaches a multiple of the
  // period; the 16-bit wrap does not disturb the multiples.
  lemma {:induction false} FallingEdge(d: u16, w: nat)
    requires w in {0x200, 0x8, 0x20, 0x80}
    ensures Bit(d, w) && !Bit((d + 1) % 0x1_0000, w) <==> (d + 1) % (2 * w) == 0
  {
    DivModStep(d, w);
    DivModDouble(d + 1, w);
    WrapKeepsBit(d, w);
    assert w * ((d + 1) / w % 2) == if (d + 1) / w % 2 == 0 then 0 else w;
  }

  lemma {:induction false} WrapKeepsPhase(x: nat, w: nat)
    requires w in {0x200, 0x8, 0x20, 0x80}
    ensures (x % 0x1_0000 + 1) % (2 * w) == (x + 1) % (2 * w)
  {
    var periods := if w == 0x200 then 0x40 else if w == 0x8 then 0x1000 else if w == 0x20 then 0x400 else 0x100;
    WrapKeepsRest(x, 2 * w, periods);
  }

  lemma {:induction false} WrapKeepsRest(x: nat, m: nat, k: nat)
    requires m > 0 && m * k == 0x1_0000
    ensures (x % 0x1_0000 + 1) % m == (x + 1) % m
  {
    var q, y := x / 0x1_0000, x % 0x1_0000 + 1;
    assert x + 1 == m * (k * q + y / m) + y % m by {
      assert m * (k * q) == (m * k) * q;
    }
    DivModUnique(x + 1, m, k * q + y / m, y % m);
  }

  predicate InputHigh(divider: nat, tac: u8) {
    Enabled(tac) && Bit(divider, SelectedBit(tac))
  }

  // What a register write leaves.
  function Written(s: State, address: u16, value: u8): State {
    var t := s.(divider := if address == 0xff04 then 0 else s.divider,
                tma := if address == 0xff06 then value else s.tma,
                tac := if address == 0xff07 then value % 8 else s.tac);
    var falls := InputHigh(s.divider, s.tac) && !InputHigh(t.divider, t.tac);
    t.(o := if address == 0xff05 && !s.o.justReloaded then s.o.(tima := value, pending := None)
            else if address == 0xff06 && s.o.justReloaded then s.o.(tima := value)
            else if address in {0xff04, 0xff07} && falls then Bumped(s.o)
            else s.o)
  }

  lemma WrittenDivider(s: State, address: u16, value: u8)
    ensures Written(s, address, value).divider == if address == 0xff04 then 0 else s.divider
  {
  }

  // What n cycles leave, for n > 0.
  function Cycled(s: State, n: nat): State
    requires s.o.pending.Some? ==> 1 <= s.o.pending.value <= 4
  {
    State((s.divider + n) % 0x1_0000, s.tma, s.tac,
        After(s.divider, s.o.tima, s.tma, s.tac, s.o.pending, n).(reloads := 0))
  }

  // The timer between two machine cycles: a reload can only just have started.
  predicate InStep(s: State) {
    && s.divider % 4 == 0
    && (s.o.pending.Some? ==> s.o.pending == Some(4) && s.o.tima == 0 && s.divider % 16 == 0 && !s.o.justReloaded)
  }

  // What is left of that after a register write, until the machine cycle that comes with it.
  predicate Ready(s: State) {
    && s.divider % 4 == 0
    && (s.o.pending.Some? ==> s.o.pending == Some(4) && s.o.tima == 0 && !EdgeAt(s.divider + 4, s.tac))
  }

  lemma {:induction false} Nested(a: nat, b: nat, k: nat)
    requires b < 4 && 0 < k
    ensures Phase(16 * a + 4 * b, 16 * k) == 16 * Phase(a, k) + 4 * b
  {
    assert a == k * (a / k) + a % k;
    assert (16 * k) * (a / k) == 16 * (k * (a / k));
    DivModUnique(16 * a + 4 * b, 16 * k, a / k, 16 * (a % k) + 4 * b);
  }

  lemma {:induction false} NextNested(a: nat, b: nat, k: nat)
    requires b < 4 && 0 < k
    ensures var now, next := Phase(16 * a + 4 * b, 16 * k), Phase(16 * a + 4 * b + 4, 16 * k);
            && (now < 4 ==> b == 0)
            && (b == 0 ==> next != 0)
            && (now < 8 * k ==> next != 0)
  {
    Nested(a, b, k);
    RoundStep(a, k);
    if b < 3 {
      Nested(a, b + 1, k);
    } else {
      Nested(a + 1, 0, k);
    }
    hide Phase, Rounds;
  }

  lemma {:induction false} NextMultiple(x: nat, m: nat)
    requires m in {16, 64, 256, 1024} && x % 4 == 0
    ensures x % m < 4 ==> x % 16 == 0
    ensures x % 16 == 0 ==> (x + 4) % m != 0
    ensures x % m < m / 2 ==> (x + 4) % m != 0
  {
    var a, b := x / 16, x % 16 / 4;
    if m == 16 {
      NextNested(a, b, 1);
    } else if m == 64 {
      NextNested(a, b, 4);
    } else if m == 256 {
      NextNested(a, b, 16);
    } else {
      NextNested(a, b, 64);
    }
  }

  // An input that is low at a multiple of four cycles does not fall within the next four.
  lemma {:induction false} NoEdgeAhead(divider: nat, tac: u8)
    requires divider % 4 == 0 && !InputHigh(divider, tac)
    ensures !EdgeAt(divider + 4, tac)
  {
    var w := SelectedBit(tac);
    DivModDouble(divider, w);
    NextMultiple(divider, 2 * w);
    if Enabled(tac) {
      assert divider / w % 2 == 0;
      assert w * (divider / w % 2) == 0;
    }
  }

  lemma InStepIsReady(s: State)
    requires InStep(s)
    ensures Ready(s)
  {
    NextMultiple(s.divider, Period(s.tac));
  }

  // No register write spoils a timer that is in step for its next machine cycle.
  lemma {:induction false} ReadyAfterWrite(s: State, address: u16, value: u8)
    requires InStep(s)
    ensures Ready(Written(s, address, value))
  {
    var t := Written(s, address, value);
    NextMultiple(s.divider, Period(t.tac));
    NextMultiple(0, Period(t.tac));
    if !InputHigh(t.divider, t.tac) {
      NoEdgeAhead(t.divider, t.tac);
    }
    hide InputHigh, EdgeAt;
  }

  lemma PendingCompletes(divider: u16, tima: u8, tma: u8, tac: u8)
    requires !EdgeAt(divider + 4, tac)
    ensures After(divider, tima, tma, tac, Some(4), 4) == Outcome(tma, None, 1, true)
  {
    CountedFromStart(divider + 3, tma, tma, tac, false);
    hide Counted;
  }

  lemma ReloadStartsAligned(divider: u16, tima: u8, tma: u8, tac: u8)
    requires divider % 4 == 0
    ensures var o := After(divider, tima, tma, tac, None, 4);
            o.pending.Some? ==> o == Outcome(0, Some(4), o.reloads, false) && (divider + 4) % 16 == 0
  {
    NextMultiple(divider + 4, Period(tac));
    hide Edges, Rounds, Phase;
  }

  lemma AlignedWrap(divider: u16)
    requires divider % 4 == 0
    ensures (divider + 4) % 0x1_0000 % 4 == 0
    ensures (divider + 4) % 16 == 0 ==> (divider + 4) % 0x1_0000 % 16 == 0
  {
  }

  // Four cycles of a ready timer: a reload that is pending completes, and one that starts, starts
  // with the last of them.
  lemma {:induction false} MachineCycle(s: State)
    requires Ready(s)
    ensures InStep(Cycled(s, 4))
  {
    hide After, EdgeAt, Counted, Next, Bumped, InputHigh;
    AlignedWrap(s.divider);
    if s.o.pending.Some? {
      PendingCompletes(s.divider, s.o.tima, s.tma, s.tac);
    } else {
      ReloadStartsAligned(s.divider, s.o.tima, s.tma, s.tac);
    }
  }

  // Reloads are only counted, never consulted.
  lemma NextIgnoresCount(o: Outcome, tma: u8, edge: bool)
    requires o.pending.Some? ==> 1 <= o.pending.value <= 4
    ensures var one, all := Next(o.(reloads := 0), tma, edge), Next(o, tma, edge);
            all == one.(reloads := o.reloads + one.reloads) && one.reloads <= 1
  {
  }

  lemma {:induction false} EdgeAfterWrap(x: nat, tac: u8)
    ensures EdgeAt(x % 0x1_0000 + 1, tac) == EdgeAt(x + 1, tac)
    ensures (x % 0x1_0000 + 1) % 0x1_0000 == (x + 1) % 0x1_0000
  {
    WrapKeepsPhase(x, SelectedBit(tac));
    DivModSplit(x, 1, 0x1_0000);
  }

  class Timer {
    var divider: u16
    var tima: u8
    var tma: u8
    var tac: u8
    var reloadDelay: Option<nat>
    var reloadedThisCycle: bool

    ghost predicate Valid()
      reads this
    {
      && tac < 8
      && (reloadDelay.Some? ==> 1 <= reloadDelay.value <= 4)
    }

    predicate Input()
      reads this
    {
      InputHigh(divider, tac)
    }

    constructor ()
      ensures Valid()
      ensures divider == 0xabcc && tima == 0 && tma == 0 && tac == 0
      ensures reloadDelay == None && !reloadedThisCycle
    {
      divider, tima, tma, tac := 0xabcc, 0, 0, 0;
      reloadDelay, reloadedThisCycle := None, false;
    }

    ghost function View(): Outcome
      reads this
    {
      Outcome(tima, reloadDelay, 0, reloadedThisCycle)
    }

    ghost function Whole(): State
      reads this
    {
      State(divider, tma, tac, View())
    }

    // Returns whether the Timer interrupt was requested.
    method Tick(tCycles: nat) returns (requested: bool)
      requires Valid()
      modifies this
      ensures Valid()
      ensures tCycles == 0 ==> !requested && Whole() == old(Whole())
      ensures tCycles > 0 ==>
                && Whole() == Cycled(old(Whole()), tCycles)
                && requested == (After(old(divider), old(tima), old(tma), old(tac), old(reloadDelay),
                    tCycles).reloads > 0)
    {
      hide Counted, Bit, EdgeAt, Next;
      requested := false;
      ghost var start := View();
      ghost var o := start;
      for i := 0 to tCycles
        invariant Valid() && tma == old(tma) && tac == old(tac)
        invariant divider == (old(divider) + i) % 0x1_0000
        invariant o == Cycles(old(divider), start, tma, tac, i)
        invariant View() == o.(reloads := 0) && requested == (o.reloads > 0)
      {
        EdgeAfterWrap(old(divider) + i, tac);
        NextIgnoresCount(o, tma, EdgeAt(old(divider) + i + 1, tac));
        var reloaded := TickCycle();
        requested := requested || reloaded;
        o := Next(o, tma, EdgeAt(old(divider) + i + 1, tac));
      }
      CyclesAreClosedForm(old(divider), start, tma, tac, tCycles);
    }

    // The body of that loop: one T-cycle.
    method TickCycle() returns (reloaded: bool)
      requires Valid()
      modifies this
      ensures Valid()
      ensures divider == (old(divider) + 1) % 0x1_0000
      ensures tma == old(tma) && tac == old(tac)
      ensures View().(reloads := if reloaded then 1 else 0)
              == Next(old(View()), tma, EdgeAt(old(divider) + 1, tac))
      ensures old(PendingMeansZero()) ==> PendingMeansZero()
    {
      FallingEdge(divider, SelectedBit(tac));
      reloadedThisCycle := false;
      if reloadDelay.Some? {
        var delay := reloadDelay.value;
        if delay == 1 {
          reloadDelay := None;
          tima := tma;
          reloadedThisCycle := true;
        } else {
          reloadDelay := Some(delay - 1);
        }
      }
      reloaded := reloadedThisCycle;
      var was := Input();
      divider := (divider + 1) % 0x1_0000;
      if was && !Input() {
        IncrementTima();
      }
    }

    // Register writes never request an interrupt themselves.
    method Write(address: u16, value: u8)
      requires Valid()
      modifies this
      ensures Valid()
      ensures Whole() == Written(old(Whole()), address, value)
      ensures old(PendingMeansZero()) ==>
                (PendingMeansZero() <==>
                 !(address == 0xff06 && old(reloadedThisCycle) && old(reloadDelay).Some? && value != 0))
    {
      if address == 0xff04 {
        var was := Input();
        divider := 0;
        if was && !Input() {
          IncrementTima();
        }
      } else if address == 0xff05 && !reloadedThisCycle {
        tima := value;
        reloadDelay := None;
      } else if address == 0xff06 {
        tma := value;
        if reloadedThisCycle {
          tima := value;
        }
      } else if address == 0xff07 {
        var was := Input();
        tac := value % 8;
        if was && !Input() {
          IncrementTima();
        }
      }
    }

    function Read(address: u16): u8
      requires Valid()
      reads this
    {
      if address == 0xff04 then divider / 0x100
      else if address == 0xff05 then tima
      else if address == 0xff06 then tma
      else if address == 0xff07 then 0xf8 + tac
      else 0xff
    }

    // The reading a program relies on while a reload is pending. Cycles keep it, and so does
    // every register write except the one `Write` singles out.
    predicate PendingMeansZero()
      reads this
    {
      reloadDelay.Some? ==> tima == 0
    }

    method IncrementTima()
      requires Valid()
      modifies this`tima, this`reloadDelay
      ensures Valid()
      ensures View() == Bumped(old(View()))
    {
      if reloadDelay.Some? {
        return;
      }
      if tima == 0xff {
        tima := 0;
        reloadDelay := Some(4);
      } else {
        tima := (tima + 1) % 0x100;
      }
    }
  }

  // Called cycle by cycle the object can be brought to a reload pending over a nonzero TIMA: the
  // input is cut by TAC while it is high, which overflows TIMA, and restored so that it falls in the
  // very cycle of the reload. A bus, whose accesses are four cycles apart, never does this.
  method PendingReloadOverNonzeroTima() returns (t: Timer)
    ensures t.Valid() && t.reloadDelay == Some(4) && t.tima == 7
  {
    t := CutInput();
    hide Counted;
    t.Write(0xff07, 5);
    assert t.View() == Outcome(0, Some(1), 0, false);
    var reloaded := t.TickCycle();
    assert t.View() == Outcome(0, Some(4), 0, true);
    t.Write(0xff06, 7);
  }

  // Power-on leaves bit 3 of the divider high.
  method CutInput() returns (t: Timer)
    ensures fresh(t) && t.Valid() && t.divider == 0xabcf && t.tma == 0xff && t.View() == Outcome(0, Some(1), 0, false)
            && t.tac == 0
  {
    hide Counted;
    t := new Timer();
    t.Write(0xff06, 0xff);
    t.Write(0xff05, 0xff);
    t.Write(0xff07, 5);
    assert t.View() == Outcome(0xff, None, 0, false);
    t.Write(0xff07, 0);
    assert t.View() == Outcome(0, Some(4), 0, false);
    for i := 0 to 3
      invariant t.Valid() && t.divider == 0xabcc + i && t.tma == 0xff && t.tac == 0
      invariant t.View() == Outcome(0, Some(4 - i), 0, false)
    {
      var reloaded := t.TickCycle();
    }
  }
}
