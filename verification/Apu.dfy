// crates/gb-core/src/apu/pcm.rs and apu/mod.rs: the divider mirror that clocks the frame
// sequencer, the sample-phase accumulator and the bounded PCM buffer. Mixed samples are tokens.
module Apus {
  import opened Words

  const MAX_CORE_STEREO_FRAMES := 4096
  const DMG_CLOCK_HZ := 4194304
  const SEQUENCER_PERIOD := 8192

  type Sample = int
  datatype Stereo = Stereo(left: Sample, right: Sample)

  function Interleaved(frames: seq<Stereo>): (s: seq<Sample>)
    ensures |s| == 2 * |frames|
  {
    if frames == [] then []
    else Interleaved(frames[..|frames| - 1]) + [frames[|frames| - 1].left, frames[|frames| - 1].right]
  }

  lemma InterleavedAppend(frames: seq<Stereo>, f: Stereo)
    ensures Interleaved(frames + [f]) == Interleaved(frames) + [f.left, f.right]
  {
  }

  lemma {:induction false} InterleavedDropsFirst(frames: seq<Stereo>)
    requires frames != []
    ensures Interleaved(frames)[2..] == Interleaved(frames[1..])
  {
    if |frames| > 1 {
      var init := frames[..|frames| - 1];
      InterleavedDropsFirst(init);
      assert frames[1..][..|frames| - 2] == init[1..];
    }
  }

  class PcmBuffer {
    var samples: seq<Sample>
    var droppedStereoFrames: nat
    ghost var pushed: seq<Stereo>   // every frame since the buffer was last cleared
    ghost var drained: nat

    // Conservation: a frame is drained, dropped or buffered, and the buffer is the newest of
    // them in order.
    ghost predicate Valid()
      reads this
    {
      && |samples| % 2 == 0 && |samples| / 2 <= MAX_CORE_STEREO_FRAMES
      && |pushed| == drained + droppedStereoFrames + |samples| / 2
      && samples == Interleaved(pushed[|pushed| - |samples| / 2..])
    }

    function Available(): nat
      reads this
    {
      |samples| / 2
    }

    constructor ()
      ensures Valid() && samples == [] && droppedStereoFrames == 0 && pushed == [] && drained == 0
    {
      samples, droppedStereoFrames, pushed, drained := [], 0, [], 0;
    }

    // The two pops at the front of a full buffer.
    method DropOldest()
      requires Valid() && Available() > 0
      modifies this`samples, this`droppedStereoFrames
      ensures Valid() && Available() == old(Available()) - 1
    {
      ghost var kept := pushed[|pushed| - |samples| / 2..];
      InterleavedDropsFirst(kept);
      assert kept[1..] == pushed[|pushed| - (|samples| - 2) / 2..];
      hide Interleaved;
      samples := samples[2..];
      droppedStereoFrames := droppedStereoFrames + 1;
    }

    // The two pushes at the back of a buffer with room.
    method Append(left: Sample, right: Sample)
      requires Valid() && Available() < MAX_CORE_STEREO_FRAMES
      modifies this`samples, this`pushed
      ensures Valid() && pushed == old(pushed) + [Stereo(left, right)]
      ensures Available() == old(Available()) + 1
    {
      ghost var kept := pushed[|pushed| - |samples| / 2..];
      InterleavedAppend(kept, Stereo(left, right));
      hide Interleaved;
      samples := samples + [left, right];
      pushed := pushed + [Stereo(left, right)];
      assert pushed[|pushed| - |samples| / 2..] == kept + [Stereo(left, right)];
    }

    method PushStereo(left: Sample, right: Sample)
      requires Valid()
      modifies this
      ensures Valid() && pushed == old(pushed) + [Stereo(left, right)] && drained == old(drained)
      ensures Available() == if old(Available()) == MAX_CORE_STEREO_FRAMES then MAX_CORE_STEREO_FRAMES
                             else old(Available()) + 1
    {
      hide Interleaved;
      if Available() == MAX_CORE_STEREO_FRAMES {
        DropOldest();
      }
      Append(left, right);
    }

    method Drain() returns (batch: seq<Sample>)
      requires Valid()
      modifies this
      ensures Valid() && samples == [] && pushed == old(pushed)
      ensures batch == old(samples) && |batch| % 2 == 0
      ensures drained == old(drained) + |batch| / 2 && droppedStereoFrames == old(droppedStereoFrames)
    {
      batch := samples;
      drained := drained + |samples| / 2;
      samples := [];
    }

    method Clear()
      modifies this
      ensures Valid() && samples == [] && droppedStereoFrames == 0 && pushed == [] && drained == 0
    {
      samples, droppedStereoFrames := [], 0;
      pushed, drained := [], 0;
    }
  }

  // Frames generated, and phase left, by n cycles at a rate.
  function FramesIn(phase: nat, n: nat, rate: nat): nat {
    (phase + n * rate) / DMG_CLOCK_HZ
  }

  function PhaseAfter(phase: nat, n: nat, rate: nat): nat {
    (phase + n * rate) % DMG_CLOCK_HZ
  }

  lemma OneMoreCycle(phase: nat, n: nat, rate: nat)
    ensures PhaseAfter(phase, n + 1, rate) == (PhaseAfter(phase, n, rate) + rate) % DMG_CLOCK_HZ
    ensures FramesIn(phase, n + 1, rate) == FramesIn(phase, n, rate) +
            (PhaseAfter(phase, n, rate) + rate) / DMG_CLOCK_HZ
  {
  }

  // One emulation tick never generates more than its share of a second, rounded up.
  lemma TickBound(phase: nat, n: nat, budget: nat, rate: nat)
    requires phase < DMG_CLOCK_HZ && n <= budget
    ensures FramesIn(phase, n, rate) <= budget * rate / DMG_CLOCK_HZ + 1
  {
  }

  // Boundaries of 8192 divider cycles crossed by n cycles.
  function SequencerClocks(divider: nat, n: nat): nat {
    (divider + n) / SEQUENCER_PERIOD - divider / SEQUENCER_PERIOD
  }

  // Bit 12 falls across one cycle exactly when a boundary is crossed, 16-bit wrap included.
  lemma Bit12Falls(divider: u16)
    ensures Bit(divider, 0x1000) && !Bit((divider + 1) % 0x1_0000, 0x1000) <==> (divider + 1) % SEQUENCER_PERIOD == 0
  {
  }

  // The 16-bit wrap does not disturb the boundaries.
  lemma {:induction false} WrapKeepsBoundaries(x: nat)
    ensures (x % 0x1_0000 + 1) % SEQUENCER_PERIOD == (x + 1) % SEQUENCER_PERIOD
    ensures (x % 0x1_0000 + 1) % 0x1_0000 == (x + 1) % 0x1_0000
  {
    var q, r := x / 0x1_0000, x % 0x1_0000 + 1;
    DivModUnique(x + 1, SEQUENCER_PERIOD, 8 * q + r / SEQUENCER_PERIOD, r % SEQUENCER_PERIOD);
    DivModSplit(x, 1, 0x1_0000);
  }

  lemma {:induction false} OneMoreClock(divider: nat, n: nat)
    ensures SequencerClocks(divider, n + 1) ==
            SequencerClocks(divider, n) + (if ((divider + n) % 0x1_0000 + 1) % SEQUENCER_PERIOD == 0 then 1 else 0)
    ensures ((divider + n) % 0x1_0000 + 1) % 0x1_0000 == (divider + n + 1) % 0x1_0000
  {
    WrapKeepsBoundaries(divider + n);
    DivModStep(divider + n, SEQUENCER_PERIOD);
  }

  lemma NoCycles(divider: nat, phase: nat, rate: nat)
    requires phase < DMG_CLOCK_HZ
    ensures SequencerClocks(divider, 0) == 0 && PhaseAfter(phase, 0, rate) == phase && FramesIn(phase, 0, rate) == 0
  {
  }

  // Writing DIV clocks the sequencer once more if bit 12 was high.
  function ResetClocks(divider: u16): nat {
    if Bit(divider, 0x1000) then 1 else 0
  }

  class Apu {
    const sampleRate: nat
    const mix: nat -> Stereo // what the mixer yields for the n-th generated frame
    const pcm: PcmBuffer
    var masterEnabled: bool
    var dividerMirror: u16
    var frameStep: nat
    var samplePhase: nat
    var clocks: nat    // times the frame sequencer was clocked
    var generated: nat // frames generated so far

    ghost predicate Valid()
      reads this, pcm
    {
      pcm.Valid() && frameStep < 8 && samplePhase < DMG_CLOCK_HZ && 0 < sampleRate
    }

    constructor (sampleRate: nat, mix: nat -> Stereo)
      requires 0 < sampleRate
      ensures Valid() && fresh(pcm) && this.sampleRate == sampleRate && this.mix == mix && masterEnabled
      ensures dividerMirror == 0xabcc && frameStep == 0 && samplePhase == 0
      ensures clocks == 0 && generated == 0 && pcm.pushed == []
    {
      hide Interleaved, PcmBuffer.Valid;
      this.sampleRate, this.mix := sampleRate, mix;
      masterEnabled, dividerMirror, frameStep, samplePhase := true, 0xabcc, 0, 0;
      clocks, generated := 0, 0;
      pcm := new PcmBuffer();
    }

    // What the frame generated as number n is worth.
    function FrameAt(n: nat): Stereo
      reads this`masterEnabled
    {
      if masterEnabled then mix(n) else Stereo(0, 0)
    }

    // The frames pushed since `before` are the ones generated from number `first` on.
    ghost predicate Appended(before: seq<Stereo>, first: nat)
      reads this`masterEnabled, this`generated, pcm
    {
      && first <= generated && |pcm.pushed| == |before| + (generated - first) && before <= pcm.pushed
      && forall k :: |before| <= k < |pcm.pushed| ==> pcm.pushed[k] == FrameAt(first + (k - |before|))
    }

    method ClockFrameSequencer()
      requires frameStep < 8
      modifies this`frameStep, this`clocks
      ensures frameStep == (old(frameStep) + 1) % 8 && clocks == old(clocks) + 1
    {
      frameStep := (frameStep + 1) % 8;
      clocks := clocks + 1;
    }

    // The while loop of a cycle: one frame for every whole clock period in the phase.
    method EmitFrames()
      requires pcm.Valid()
      modifies this`samplePhase, this`generated, pcm
      ensures pcm.Valid() && pcm.drained == old(pcm.drained)
      ensures samplePhase == old(samplePhase) % DMG_CLOCK_HZ
      ensures generated == old(generated) + old(samplePhase) / DMG_CLOCK_HZ
      ensures Appended(old(pcm.pushed), old(generated))
    {
      hide Interleaved, PcmBuffer.Valid;
      while samplePhase >= DMG_CLOCK_HZ
        invariant pcm.Valid() && pcm.drained == old(pcm.drained)
        invariant samplePhase % DMG_CLOCK_HZ == old(samplePhase) % DMG_CLOCK_HZ
        invariant generated - old(generated) == old(samplePhase) / DMG_CLOCK_HZ - samplePhase / DMG_CLOCK_HZ
        invariant Appended(old(pcm.pushed), old(generated))
        decreases samplePhase
      {
        samplePhase := samplePhase - DMG_CLOCK_HZ;
        var frame := if masterEnabled then mix(generated) else Stereo(0, 0);
        pcm.PushStereo(frame.left, frame.right);
        generated := generated + 1;
      }
    }

    method TickTCycle()
      requires Valid()
      modifies this, pcm
      ensures Valid() && pcm.drained == old(pcm.drained) && masterEnabled == old(masterEnabled)
      ensures dividerMirror == (old(dividerMirror) + 1) % 0x1_0000
      ensures clocks - old(clocks) == if (old(dividerMirror) + 1) % SEQUENCER_PERIOD == 0 then 1 else 0
      ensures frameStep == (old(frameStep) + (clocks - old(clocks))) % 8
      ensures samplePhase == (old(samplePhase) + sampleRate) % DMG_CLOCK_HZ
      ensures generated == old(generated) + (old(samplePhase) + sampleRate) / DMG_CLOCK_HZ
      ensures Appended(old(pcm.pushed), old(generated))
    {
      Bit12Falls(dividerMirror);
      var oldHigh := Bit(dividerMirror, 0x1000);
      dividerMirror := (dividerMirror + 1) % 0x1_0000;
      if oldHigh && !Bit(dividerMirror, 0x1000) {
        ClockFrameSequencer();
      }
      samplePhase := samplePhase + sampleRate;
      EmitFrames();
    }

    // The cycle loop against its closed form.
    method Tick(tCycles: nat)
      requires Valid()
      modifies this, pcm
      ensures Valid() && pcm.drained == old(pcm.drained) && masterEnabled == old(masterEnabled)
      ensures dividerMirror == (old(dividerMirror) + tCycles) % 0x1_0000
      ensures clocks == old(clocks) + SequencerClocks(old(dividerMirror), tCycles)
      ensures frameStep == (old(frameStep) + (clocks - old(clocks))) % 8
      ensures samplePhase == PhaseAfter(old(samplePhase), tCycles, sampleRate)
      ensures generated == old(generated) + FramesIn(old(samplePhase), tCycles, sampleRate)
      ensures Appended(old(pcm.pushed), old(generated))
    {
      hide SequencerClocks, PhaseAfter, FramesIn, Interleaved, PcmBuffer.Valid;
      NoCycles(old(dividerMirror), samplePhase, sampleRate);
      for i := 0 to tCycles
        invariant Valid() && pcm.drained == old(pcm.drained) && masterEnabled == old(masterEnabled)
        invariant dividerMirror == (old(dividerMirror) + i) % 0x1_0000
        invariant clocks == old(clocks) + SequencerClocks(old(dividerMirror), i)
        invariant frameStep == (old(frameStep) + (clocks - old(clocks))) % 8
        invariant samplePhase == PhaseAfter(old(samplePhase), i, sampleRate)
        invariant generated == old(generated) + FramesIn(old(samplePhase), i, sampleRate)
        invariant Appended(old(pcm.pushed), old(generated))
      {
        OneMoreClock(old(dividerMirror), i);
        OneMoreCycle(old(samplePhase), i, sampleRate);
        TickTCycle();
      }
    }

    method WriteDivider()
      requires Valid()
      modifies this`frameStep, this`clocks, this`dividerMirror
      ensures Valid() && dividerMirror == 0
      ensures clocks == old(clocks) + ResetClocks(old(dividerMirror))
      ensures frameStep == (old(frameStep) + (clocks - old(clocks))) % 8
    {
      if Bit(dividerMirror, 0x1000) {
        ClockFrameSequencer();
      }
      dividerMirror := 0;
    }

    // Switching power off discards the buffered frames; either switch restarts the sequencer.
    method WriteNr52(value: u8)
      requires Valid()
      modifies this`masterEnabled, this`frameStep, pcm
      ensures Valid() && masterEnabled == Bit(value, 0x80)
      ensures frameStep == if masterEnabled == old(masterEnabled) then old(frameStep) else 0
      ensures if old(masterEnabled) && !masterEnabled then pcm.samples == [] && pcm.pushed == [] && pcm.drained == 0
              else pcm.samples == old(pcm.samples) && pcm.pushed == old(pcm.pushed) && pcm.drained == old(pcm.drained)
    {
      hide Bit, Interleaved, PcmBuffer.Valid;
      var enable := Bit(value, 0x80);
      if masterEnabled && !enable {
        masterEnabled := false;
        frameStep := 0;
        pcm.Clear();
      } else if !masterEnabled && enable {
        masterEnabled := true;
        frameStep := 0;
      }
    }

    // The registers behind the other addresses belong to the channels and the mixer.
    method Write(address: u16, value: u8)
      requires Valid()
      modifies this, pcm
      ensures Valid() && samplePhase == old(samplePhase) && generated == old(generated)
      ensures dividerMirror == if address == 0xff04 then 0 else old(dividerMirror)
      ensures clocks == old(clocks) + (if address == 0xff04 then ResetClocks(old(dividerMirror)) else 0)
      ensures masterEnabled == if address == 0xff26 then Bit(value, 0x80) else old(masterEnabled)
      ensures frameStep == if address == 0xff26 && masterEnabled != old(masterEnabled) then 0
                           else (old(frameStep) + (clocks - old(clocks))) % 8
      ensures if address == 0xff26 && old(masterEnabled) && !masterEnabled then pcm.pushed == [] && pcm.drained == 0
              else pcm.pushed == old(pcm.pushed) && pcm.drained == old(pcm.drained)
    {
      hide Bit, Interleaved, PcmBuffer.Valid;
      if address == 0xff04 {
        WriteDivider();
      } else if address == 0xff26 {
        WriteNr52(value);
      }
    }

    method Drain() returns (batch: seq<Sample>)
      requires Valid()
      modifies pcm
      ensures Valid() && pcm.pushed == old(pcm.pushed) && batch == old(pcm.samples)
      ensures pcm.drained == old(pcm.drained) + |batch| / 2
    {
      batch := pcm.Drain();
    }
  }
}
