// apps/desktop/src-tauri/src/audio/policy.rs and the pump of emulator/runtime.rs: how far the
// emulator runs ahead of the audio device, and why its batches always fit the queue.
module Pacing {
  import opened Words
  import Apus

  // A tick asks for 70224 T-cycles, and run_cycles ends at most 8 past what it is asked for.
  const FRAME_CYCLE_BUDGET := 70224
  const MOST_TICK_CYCLES := FRAME_CYCLE_BUDGET + 8
  const MAX_PRIME_BATCHES := 4
  const POLL_NANOS := 5_000_000

  // Levels of the queue, in stereo frames.
  datatype Marks = Marks(sampleRate: nat, low: nat, target: nat, high: nat, capacity: nat) {
    // What `for_rate` asserts about its own result.
    predicate Ordered() { low < target < high < capacity }
  }

  function ForRate(sampleRate: nat): Marks {
    Marks(sampleRate, sampleRate * 40 / 1000, sampleRate * 80 / 1000, sampleRate * 120 / 1000, sampleRate * 160 / 1000)
  }

  // The most frames one tick can generate.
  function MostFrames(sampleRate: nat): nat {
    MOST_TICK_CYCLES * sampleRate / Apus.DMG_CLOCK_HZ + 1
  }

  // The rates whose marks are accepted are exactly those of at least 19 Hz.
  lemma AcceptedRates(rate: nat)
    ensures ForRate(rate).Ordered() <==> 19 <= rate
  {
  }

  // A queue at its target has room for one more tick's frames at exactly the rates from 7 Hz on,
  // so at every accepted rate.
  lemma {:induction false} OneTickFits(rate: nat)
    ensures ForRate(rate).target + MostFrames(rate) <= ForRate(rate).capacity <==> 7 <= rate
  {
  }

  datatype Decision = Prime | RunOneBatch | Wait(nanos: nat) | Backpressured(nanos: nat) | FallbackFrameDeadline

  function CeilDiv(x: nat, y: nat): nat
    requires 0 < y
  {
    (x + (y - 1)) / y
  }

  function WaitFor(excess: nat, sampleRate: nat): nat
    requires 0 < sampleRate
  {
    var nanos := CeilDiv(excess * 1_000_000_000, sampleRate);
    if nanos < POLL_NANOS then nanos else POLL_NANOS
  }

  function PacingDecision(usable: bool, queued: nat, marks: Marks): Decision
    requires 0 < marks.sampleRate
  {
    if !usable then FallbackFrameDeadline
    else if queued < marks.low then Prime
    else if queued <= marks.target then RunOneBatch
    else
      var wait := WaitFor(queued - marks.target, marks.sampleRate);
      if queued > marks.high then Backpressured(wait) else Wait(wait)
  }

  // A wait is never empty, and a device that plays at its rate meanwhile takes at most what the
  // queue holds beyond its target.
  lemma {:induction false} WaitStopsAtTarget(excess: nat, rate: nat)
    requires 0 < rate <= 1_000_000_000 && 0 < excess
    ensures 0 < WaitFor(excess, rate) <= POLL_NANOS
    ensures WaitFor(excess, rate) * rate / 1_000_000_000 <= excess
  {
    var owed := excess * 1_000_000_000;
    var nanos := CeilDiv(owed, rate);
    var wait := WaitFor(excess, rate);
    assert owed + (rate - 1) == rate * nanos + (owed + (rate - 1)) % rate;
    assert nanos == 0 ==> rate * nanos == 0;
    assert wait * rate <= nanos * rate == rate * nanos;
    assert wait * rate < owed + 1_000_000_000;
  }

  datatype Reason = CapacityExceeded | FlushPending | Unusable | NoAudioWhilePriming | OpenFailed | BackendFailed

  class PacedAudio {
    const marks: Marks
    var loaded: bool
    var running: bool
    var hasOutput: bool
    var playing: bool
    var flushPending: bool
    var usable: bool
    var occupied: nat // samples in the ring
    var samplePhase: nat
    var disabledReason: Option<Reason>

    ghost predicate Valid()
      reads this
    {
      && 19 <= marks.sampleRate && marks == ForRate(marks.sampleRate)
      && occupied % 2 == 0 && occupied <= 2 * marks.capacity
      && samplePhase < Apus.DMG_CLOCK_HZ
      && (running ==> loaded)
    }

    // The queue was never offered more than it can hold, nor anything during a flush.
    predicate NeverOverrun()
      reads this
    {
      disabledReason != Some(CapacityExceeded) && disabledReason != Some(FlushPending)
    }

    constructor (sampleRate: nat)
      requires ForRate(sampleRate).Ordered()
      ensures Valid() && NeverOverrun() && marks.sampleRate == sampleRate && disabledReason == None
    {
      AcceptedRates(sampleRate);
      marks := ForRate(sampleRate);
      loaded, running, hasOutput, playing, flushPending, usable := false, false, false, false, false, true;
      occupied, samplePhase, disabledReason := 0, 0, None;
    }

    function Queued(): nat
      reads this`occupied
    {
      occupied / 2
    }

    // Anything the device callback may have done since the last statement of this thread.
    method Callback()
      requires Valid()
      modifies this`occupied, this`flushPending, this`usable
      ensures Valid() && occupied <= old(occupied)
      ensures flushPending ==> old(flushPending)
      ensures !playing && !old(flushPending) ==> occupied == old(occupied)
    {
      var flushes, breaks, frames: nat := *, *, *;
      if flushPending && flushes > 0 {
        occupied, flushPending := 0, false;
      }
      if playing {
        occupied := if 2 * frames <= occupied then occupied - 2 * frames else 0;
      }
      if breaks > 0 {
        usable := false;
      }
    }

    method Disable(reason: Reason)
      modifies this`hasOutput, this`playing, this`disabledReason
      ensures !hasOutput && !playing && disabledReason == Some(reason)
    {
      hasOutput, playing, disabledReason := false, false, Some(reason);
    }

    method Enqueue(frames: nat)
      requires Valid()
      modifies this`occupied, this`hasOutput, this`playing, this`disabledReason
      ensures Valid()
      ensures var same := hasOutput == old(hasOutput) && playing == old(playing)
                          && disabledReason == old(disabledReason);
              var fits := occupied == old(occupied) + 2 * frames && same;
              if frames == 0 || !old(hasOutput) then occupied == old(occupied) && same
              else if flushPending then disabledReason == Some(FlushPending)
              else if old(Queued()) + frames <= marks.capacity then fits
              else disabledReason == Some(CapacityExceeded)
    {
      if frames == 0 || !hasOutput {
        return;
      }
      if flushPending {
        Disable(FlushPending);
      } else if 2 * marks.capacity - occupied < 2 * frames {
        Disable(CapacityExceeded);
      } else {
        occupied := occupied + 2 * frames;
      }
    }

    // One tick of the core and the batch it drains. The core's own buffer is bounded and may have
    // been cleared by the program, so the batch may be shorter than what was generated.
    method RunTick()
      requires Valid() && NeverOverrun()
      requires hasOutput ==> !flushPending && Queued() <= marks.target
      modifies this`loaded, this`running, this`occupied, this`hasOutput, this`playing, this`usable, this`samplePhase,
               this`disabledReason,
               this`flushPending
      ensures Valid() && NeverOverrun()
      ensures !flushPending || old(flushPending)
      ensures hasOutput ==> old(hasOutput) && playing == old(playing)
    {
      var executed: nat, lost: nat, failed: bool := *, *, *;
      executed := if executed <= MOST_TICK_CYCLES then executed else MOST_TICK_CYCLES;
      var generated := Apus.FramesIn(samplePhase, executed, marks.sampleRate);
      var batch := if lost <= generated then generated - lost else 0;
      Apus.TickBound(samplePhase, executed, MOST_TICK_CYCLES, marks.sampleRate);
      OneTickFits(marks.sampleRate);
      samplePhase := Apus.PhaseAfter(samplePhase, executed, marks.sampleRate);
      Callback();
      Enqueue(batch);
      if failed {
        loaded, running, hasOutput, playing := false, false, false, false;
      }
    }

    method StartPlaybackIfPrimed()
      modifies this`hasOutput, this`playing, this`disabledReason
      ensures if old(hasOutput) && !flushPending && Queued() >= marks.target then hasOutput ==> playing
              else hasOutput == old(hasOutput) && playing == old(playing)
      ensures hasOutput ==> old(hasOutput)
      ensures disabledReason == old(disabledReason) || disabledReason == Some(BackendFailed)
    {
      if hasOutput && !flushPending && Queued() >= marks.target && !playing {
        var fails: bool := *;
        if fails {
          Disable(BackendFailed);
        } else {
          playing := true;
        }
      }
    }

    // One round of the worker: it decides by a reading of the queue that may be out of date by
    // the time a batch arrives, but only because the device has taken samples since.
    method Pump() returns (waitNanos: nat)
      requires Valid() && NeverOverrun()
      modifies this`loaded, this`running, this`occupied, this`hasOutput, this`playing, this`flushPending, this`usable,
               this`samplePhase,
               this`disabledReason
      ensures Valid() && NeverOverrun()
      ensures waitNanos <= POLL_NANOS
    {
      AcceptedRates(marks.sampleRate);
      hide WaitFor, ForRate;
      Callback();
      if !hasOutput {
        return 0;
      }
      if flushPending {
        return POLL_NANOS;
      }
      var queuedBefore := Queued();
      match PacingDecision(usable, queuedBefore, marks)
      case Prime =>
        PrimeBatches();
        StartPlaybackIfPrimed();
        Callback();
        if hasOutput && Queued() == queuedBefore && !playing {
          Disable(NoAudioWhilePriming);
        }
        waitNanos := 0;
      case RunOneBatch =>
        RunTick();
        StartPlaybackIfPrimed();
        waitNanos := 0;
      case Wait(nanos) =>
        StartPlaybackIfPrimed();
        WaitIsShort(queuedBefore - marks.target);
        waitNanos := nanos;
      case Backpressured(nanos) =>
        StartPlaybackIfPrimed();
        WaitIsShort(queuedBefore - marks.target);
        waitNanos := nanos;
      case FallbackFrameDeadline =>
        waitNanos := 0;
    }

    lemma WaitIsShort(excess: nat)
      requires 0 < marks.sampleRate
      ensures WaitFor(excess, marks.sampleRate) <= POLL_NANOS
    {
    }

    // Up to four ticks, each run only while the queue is below its target.
    method PrimeBatches()
      requires Valid() && NeverOverrun() && hasOutput && !flushPending && Queued() <= marks.target
      modifies this`loaded, this`running, this`occupied, this`hasOutput, this`playing, this`flushPending, this`usable,
               this`samplePhase,
               this`disabledReason
      ensures Valid() && NeverOverrun() && !flushPending
    {
      hide ForRate;
      for batch := 0 to MAX_PRIME_BATCHES
        invariant Valid() && NeverOverrun() && !flushPending
        invariant hasOutput ==> Queued() <= marks.target
      {
        RunTick();
        if !running || !hasOutput {
          break;
        }
        Callback();
        if flushPending || Queued() >= marks.target {
          break;
        }
      }
    }

    method DisableIfUnusable()
      requires Valid()
      modifies this`hasOutput, this`playing, this`disabledReason
      ensures Valid() && (hasOutput ==> old(hasOutput) && usable)
      ensures disabledReason == if old(hasOutput) && !usable then Some(Unusable) else old(disabledReason)
    {
      if hasOutput && !usable {
        Disable(Unusable);
      }
    }

    // What the worker does between two commands: without an output it ticks by the frame clock.
    method WorkerRound()
      requires Valid() && NeverOverrun()
      modifies this`loaded, this`running, this`occupied, this`hasOutput, this`playing, this`flushPending, this`usable,
               this`samplePhase,
               this`disabledReason
      ensures Valid() && NeverOverrun()
    {
      Callback();
      DisableIfUnusable();
      if running && hasOutput {
        var wait := Pump();
      } else if running {
        RunTick();
      }
    }

    // Pausing asks the callback to discard what is queued.
    method PauseOutput(fails: bool)
      requires Valid() && NeverOverrun()
      modifies this`playing, this`flushPending, this`hasOutput, this`disabledReason
      ensures Valid() && NeverOverrun() && !playing && hasOutput == (old(hasOutput) && !fails)
      ensures hasOutput ==> flushPending
    {
      if hasOutput {
        if fails {
          Disable(BackendFailed);
        } else {
          flushPending := true;
        }
      }
      playing := false;
    }

    method ShutdownOutput()
      modifies this`hasOutput, this`playing
      ensures !hasOutput && !playing
    {
      hasOutput, playing := false, false;
    }

    // The commands that change what is played. A ROM comes with an output and a queue of its own,
    // if one opens.
    method OpenRom(loads: bool, opens: bool)
      requires Valid() && NeverOverrun()
      modifies this
      ensures Valid() && NeverOverrun() && loaded == loads && !running && !playing && hasOutput == (loads && opens)
      ensures hasOutput ==> occupied == 0 && !flushPending && usable
    {
      ShutdownOutput();
      loaded, running := false, false;
      disabledReason := if opens then None else Some(OpenFailed);
      if loads {
        loaded, samplePhase := true, 0;
        Activate(opens);
      }
    }

    method Activate(opens: bool)
      requires Valid()
      modifies this`hasOutput, this`playing, this`occupied, this`flushPending, this`usable
      ensures Valid() && hasOutput == opens && !playing
      ensures opens ==> occupied == 0 && !flushPending && usable
    {
      hasOutput, playing := opens, false;
      if opens {
        occupied, flushPending, usable := 0, false, true;
      }
    }

    method Start()
      requires Valid() && NeverOverrun()
      modifies this`running
      ensures Valid() && NeverOverrun() && running == loaded
    {
      running := loaded;
    }

    method Pause(fails: bool)
      requires Valid() && NeverOverrun()
      modifies this`running, this`playing, this`flushPending, this`hasOutput, this`disabledReason
      ensures Valid() && NeverOverrun() && !running && !playing
    {
      PauseOutput(fails);
      running := false;
    }

    // A restarted core begins a new sample phase; the flush of what the old one produced is pending.
    method Restart(resets: bool, fails: bool)
      requires Valid() && NeverOverrun()
      modifies this`running, this`playing, this`flushPending, this`hasOutput, this`disabledReason, this`samplePhase
      ensures Valid() && NeverOverrun() && !playing && running == (if loaded && resets then true else old(running))
      ensures hasOutput ==> flushPending
    {
      PauseOutput(fails);
      if loaded && resets {
        running, samplePhase := true, 0;
      }
    }

    method Close()
      requires Valid() && NeverOverrun()
      modifies this`loaded, this`running, this`hasOutput, this`playing
      ensures Valid() && NeverOverrun() && !loaded && !running && !hasOutput
    {
      ShutdownOutput();
      loaded, running := false, false;
    }
  }

  datatype Round =
    | Work
    | OpenRom(loads: bool, opens: bool)
    | Start
    | Pause(fails: bool)
    | Restart(resets: bool, fails: bool)
    | Close

  // However the rounds, the commands and the device callback fall, through every output opened, at
  // every accepted rate no batch is ever refused for want of room and none arrives while a flush is
  // pending.
  method Run(sampleRate: nat, rounds: seq<Round>) returns (audio: PacedAudio)
    requires ForRate(sampleRate).Ordered()
    ensures fresh(audio) && audio.Valid() && audio.NeverOverrun()
  {
    audio := new PacedAudio(sampleRate);
    hide PacedAudio.Valid;
    for i := 0 to |rounds|
      invariant fresh(audio) && audio.Valid() && audio.NeverOverrun()
    {
      match rounds[i]
      case Work => audio.WorkerRound();
      case OpenRom(loads, opens) => audio.OpenRom(loads, opens);
      case Start => audio.Start();
      case Pause(fails) => audio.Pause(fails);
      case Restart(resets, fails) => audio.Restart(resets, fails);
      case Close => audio.Close();
    }
  }
}
