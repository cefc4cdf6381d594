// apps/desktop/src-tauri/src/audio/queue.rs: the sample ring shared by the runtime worker and the
// audio callback, with the epoch handshake that flushes it. Each atomic operation is a step.
module AudioQueue {
  // The producer's calls, stopped between their atomic operations.
  datatype Producer =
    | Idle
    | EnqueueLoaded(samples: nat, epoch: nat)   // flush_epoch loaded, flushed_epoch not yet
    | EnqueueUnflushed(samples: nat)            // no flush pending
    | EnqueueFits(samples: nat)                 // and enough room
    | PausedForFlush                            // paused stored, epoch not yet advanced
    | PlayLoaded(epoch: nat)
    | PlayUnflushed

  // The consumer's fill of an even number of samples.
  datatype Consumer =
    | Waiting
    | FillLoaded(fill: Fill)   // flush_epoch loaded
    | FillCleared(fill: Fill)  // ring cleared, flushed_epoch not yet stored
    | FillCurrent(fill: Fill)  // observed epoch up to date
    | FillPopping(fill: Fill)  // found not paused

  datatype Fill = Fill(length: nat, epoch: nat, startedAt: nat)

  // Which accepted sample was put out, and by which fill.
  datatype Emission = Emission(position: nat, fill: Fill)

  // Samples are named by the order in which they were accepted; `accepted` records the flush
  // epoch each was accepted in. The ring is accepted[head..].
  datatype Queue = Queue(capacity: nat, paused: bool, flushEpoch: nat, flushedEpoch: nat, observed: nat,
                         accepted: seq<nat>, head: nat, emitted: seq<Emission>,
                         producer: Producer, consumer: Consumer, clock: nat)
  {
    function Occupied(): int { |accepted| - head }
  }

  datatype Label =
    | BeginEnqueue(samples: nat) | LoadFlushed | CheckVacant | Push
    | StorePaused | AdvanceEpoch
    | BeginPlay | StorePlaying
    | BeginFill(length: nat) | ClearRing | StoreFlushed | CheckPaused | Pop

  function Init(capacity: nat): Queue {
    Queue(capacity, true, 0, 0, 0, [], 0, [], Idle, Waiting, 0)
  }

  function Popped(q: Queue, fill: Fill): seq<Emission> {
    var n := if fill.length <= q.Occupied() then fill.length else if q.Occupied() >= 0 then q.Occupied() else 0;
    seq(n, (i: nat) => Emission(q.head + i, fill))
  }

  function Act(q: Queue, l: Label): Queue {
    match l
    case BeginEnqueue(samples) =>
      if q.producer.Idle? && samples % 2 == 0 then q.(producer := EnqueueLoaded(samples, q.flushEpoch)) else q
    case LoadFlushed =>
      if q.producer.EnqueueLoaded? then
        q.(producer := if q.producer.epoch == q.flushedEpoch then EnqueueUnflushed(q.producer.samples) else Idle)
      else if q.producer.PlayLoaded? then
        q.(producer := if q.producer.epoch == q.flushedEpoch then PlayUnflushed else Idle)
      else q
    case CheckVacant =>
      if !q.producer.EnqueueUnflushed? then q
      else if q.capacity - q.Occupied() < q.producer.samples then q.(producer := Idle)
      else q.(producer := EnqueueFits(q.producer.samples))
    case Push =>
      if !q.producer.EnqueueFits? then q
      else q.(accepted := q.accepted + seq(q.producer.samples, (i: nat) => q.flushEpoch), producer := Idle)
    case StorePaused => if q.producer.Idle? then q.(paused := true, producer := PausedForFlush) else q
    case AdvanceEpoch => if q.producer.PausedForFlush? then q.(flushEpoch := q.flushEpoch + 1, producer := Idle) else q
    case BeginPlay => if q.producer.Idle? then q.(producer := PlayLoaded(q.flushEpoch)) else q
    case StorePlaying => if q.producer.PlayUnflushed? then q.(paused := false, producer := Idle) else q
    case BeginFill(length) =>
      if !q.consumer.Waiting? || length % 2 != 0 then q
      else
        var fill := Fill(length, q.flushEpoch, q.clock);
        q.(consumer := if q.flushEpoch != q.observed then FillLoaded(fill) else FillCurrent(fill))
    case ClearRing =>
      if q.consumer.FillLoaded? then q.(head := |q.accepted|, consumer := FillCleared(q.consumer.fill)) else q
    case StoreFlushed =>
      if !q.consumer.FillCleared? then q
      else q.(observed := q.consumer.fill.epoch, flushedEpoch := q.consumer.fill.epoch,
          consumer := FillCurrent(q.consumer.fill))
    case CheckPaused =>
      if !q.consumer.FillCurrent? then q
      else q.(consumer := if q.paused then Waiting else FillPopping(q.consumer.fill))
    case Pop =>
      if !q.consumer.FillPopping? then q
      else
        var out := Popped(q, q.consumer.fill);
        q.(head := q.head + |out|, emitted := q.emitted + out, consumer := Waiting)
  }

  function Step(q: Queue, l: Label): Queue {
    Act(q, l).(clock := q.clock + 1)
  }

  function Run(capacity: nat, labels: seq<Label>): Queue {
    if labels == [] then Init(capacity)
    else Step(Run(capacity, labels[..|labels| - 1]), labels[|labels| - 1])
  }

  // ---- Invariant ----

  predicate Shape(q: Queue) {
    && q.head <= |q.accepted|
    && q.Occupied() <= q.capacity
    && q.head % 2 == 0 && |q.accepted| % 2 == 0
    && (q.producer.EnqueueLoaded? || q.producer.EnqueueUnflushed? || q.producer.EnqueueFits? ==>
          q.producer.samples % 2 == 0)
    && (q.producer.EnqueueFits? ==> q.Occupied() + q.producer.samples <= q.capacity)
    && (!q.consumer.Waiting? ==> q.consumer.fill.length % 2 == 0)
  }

  predicate Epochs(q: Queue) {
    && q.observed == q.flushedEpoch <= q.flushEpoch
    && (q.producer.EnqueueLoaded? || q.producer.PlayLoaded? ==> q.producer.epoch == q.flushEpoch)
    && (q.producer.EnqueueUnflushed? || q.producer.EnqueueFits? || q.producer.PlayUnflushed? ==>
          q.flushEpoch == q.flushedEpoch)
    && (q.consumer.FillLoaded? || q.consumer.FillCleared? ==> q.flushedEpoch < q.consumer.fill.epoch <= q.flushEpoch)
    && (q.consumer.FillCurrent? || q.consumer.FillPopping? ==> q.consumer.fill.epoch == q.flushedEpoch)
    && (q.consumer.FillCleared? ==> q.head == |q.accepted|)
  }

  // Everything in the ring was accepted in the epoch the consumer has acknowledged; everything
  // ever accepted, in that epoch or an earlier one.
  predicate Tags(q: Queue) {
    && (forall p :: 0 <= p < |q.accepted| ==> q.accepted[p] <= q.flushedEpoch)
    && (forall p :: q.head <= p < |q.accepted| ==> q.accepted[p] == q.flushedEpoch)
  }

  predicate IsEmitted(q: Queue, p: nat) {
    exists i :: 0 <= i < |q.emitted| && q.emitted[i].position == p
  }

  // Output is in order and without repetition, belongs to the epoch of its fill, and a sample
  // that left the ring unheard was flushed.
  predicate Output(q: Queue) {
    && (forall i, j :: 0 <= i < j < |q.emitted| ==> q.emitted[i].position < q.emitted[j].position)
    && (forall i :: 0 <= i < |q.emitted| ==>
          q.emitted[i].position < q.head && q.head <= |q.accepted|
          && q.accepted[q.emitted[i].position] >= q.emitted[i].fill.epoch)
    && (forall p :: 0 <= p < q.head && q.head <= |q.accepted| && !IsEmitted(q, p) ==> q.accepted[p] < q.flushEpoch)
  }

  predicate Inv(q: Queue) {
    Shape(q) && Epochs(q) && Tags(q) && Output(q)
  }

  lemma EmittedStays(q: Queue, r: Queue)
    requires q.emitted <= r.emitted
    ensures forall p :: IsEmitted(q, p) ==> IsEmitted(r, p)
  {
  }

  lemma PopEmits(q: Queue, p: nat)
    requires q.consumer.FillPopping? && q.head <= p < Step(q, Pop).head
    ensures IsEmitted(Step(q, Pop), p)
  {
    assert Step(q, Pop).emitted[|q.emitted| + (p - q.head)].position == p;
  }

  lemma PopKeepsOutput(q: Queue)
    requires Shape(q) && Epochs(q) && Tags(q) && Output(q) && q.consumer.FillPopping?
    ensures Output(Step(q, Pop))
  {
    var r := Step(q, Pop);
    EmittedStays(q, r);
    forall p | q.head <= p < r.head
      ensures IsEmitted(r, p)
    {
      PopEmits(q, p);
    }
    hide IsEmitted;
  }

  lemma QuietOutput(q: Queue, r: Queue)
    requires Output(q) && q.head <= |q.accepted|
    requires r.emitted == q.emitted && q.head <= r.head <= |r.accepted| && q.accepted <= r.accepted
    requires r.flushEpoch >= q.flushEpoch
    requires forall p :: q.head <= p < r.head ==> r.accepted[p] < r.flushEpoch
    ensures Output(r)
  {
  }

  lemma StepKeepsShape(q: Queue, l: Label)
    requires Shape(q) && Epochs(q) && Tags(q)
    ensures Shape(Step(q, l)) && Epochs(Step(q, l))
  {
  }

  lemma StepKeepsTags(q: Queue, l: Label)
    requires Shape(q) && Epochs(q) && Tags(q)
    ensures Tags(Step(q, l))
  {
  }

  lemma StepKeepsRing(q: Queue, l: Label)
    requires Shape(q) && Epochs(q) && Tags(q)
    ensures Shape(Step(q, l)) && Epochs(Step(q, l)) && Tags(Step(q, l))
  {
    hide Shape, Epochs, Tags, Step;
    StepKeepsShape(q, l);
    StepKeepsTags(q, l);
  }

  // The ring's front moves past unheard samples only to clear those of an older epoch.
  lemma StepIsQuiet(q: Queue, l: Label)
    requires Shape(q) && Epochs(q) && Tags(q) && !(l == Pop && q.consumer.FillPopping?)
    ensures var r := Step(q, l);
            && q.head <= |q.accepted|
            && r.emitted == q.emitted && q.head <= r.head <= |r.accepted| && q.accepted <= r.accepted
            && r.flushEpoch >= q.flushEpoch
            && forall p :: q.head <= p < r.head ==> r.accepted[p] < r.flushEpoch
  {
  }

  lemma StepKeepsInv(q: Queue, l: Label)
    requires Inv(q)
    ensures Inv(Step(q, l))
  {
    StepKeepsRing(q, l);
    if !(l == Pop && q.consumer.FillPopping?) {
      StepIsQuiet(q, l);
    }
    hide Output, Shape, Epochs, Tags;
    var r := Step(q, l);
    if l == Pop && q.consumer.FillPopping? {
      PopKeepsOutput(q);
    } else {
      QuietOutput(q, r);
    }
  }

  lemma {:induction false} RunKeepsInv(capacity: nat, labels: seq<Label>)
    requires capacity % 2 == 0
    ensures Inv(Run(capacity, labels))
  {
    if labels != [] {
      RunKeepsInv(capacity, labels[..|labels| - 1]);
      StepKeepsInv(Run(capacity, labels[..|labels| - 1]), labels[|labels| - 1]);
    }
  }

  // ---- Main results, for every interleaving ----

  // With no flush pending the ring holds only samples of the current epoch; occupancy is always
  // even and within capacity.
  lemma {:induction false} RingIsCurrent(capacity: nat, labels: seq<Label>, p: nat)
    requires capacity % 2 == 0
    ensures var q := Run(capacity, labels);
            && 0 <= q.Occupied() <= capacity && q.Occupied() % 2 == 0
            && (q.flushEpoch == q.flushedEpoch && q.head <= p < |q.accepted| ==> q.accepted[p] == q.flushEpoch)
  {
    RunKeepsInv(capacity, labels);
    CapacityIsFixed(capacity, labels);
  }

  lemma {:induction false} CapacityIsFixed(capacity: nat, labels: seq<Label>)
    ensures Run(capacity, labels).capacity == capacity && Run(capacity, labels).clock == |labels|
  {
    if labels != [] {
      CapacityIsFixed(capacity, labels[..|labels| - 1]);
    }
  }

  // Samples come out in the order they were accepted, each at most once, and one that never
  // comes out was overtaken by a flush requested after it was accepted.
  lemma {:induction false} FirstInFirstOut(capacity: nat, labels: seq<Label>)
    requires capacity % 2 == 0
    ensures var q := Run(capacity, labels);
            && (forall i, j :: 0 <= i < j < |q.emitted| ==> q.emitted[i].position < q.emitted[j].position)
            && (forall p :: 0 <= p < q.head && !IsEmitted(q, p) ==> p < |q.accepted| && q.accepted[p] < q.flushEpoch)
  {
    RunKeepsInv(capacity, labels);
  }

  // What a flush completed at `mark` has established for every fill that starts later.
  predicate Barrier(q: Queue, epoch: nat, mark: nat, before: nat) {
    && q.clock >= mark
    && q.flushEpoch >= epoch
    && before <= |q.accepted| && (forall p :: 0 <= p < before ==> q.accepted[p] < epoch)
    && (!q.consumer.Waiting? && q.consumer.fill.startedAt >= mark ==> q.consumer.fill.epoch >= epoch)
    && (forall i :: 0 <= i < |q.emitted| && q.emitted[i].fill.startedAt >= mark ==> q.emitted[i].fill.epoch >= epoch)
  }

  lemma StepKeepsBarrier(q: Queue, l: Label, epoch: nat, mark: nat, before: nat)
    requires Inv(q) && Barrier(q, epoch, mark, before)
    ensures Barrier(Step(q, l), epoch, mark, before)
  {
    hide Inv, Output;
  }

  lemma {:induction false} RunKeepsBarrier(capacity: nat, labels: seq<Label>, more: seq<Label>, epoch: nat, mark: nat,
      before: nat)
    requires capacity % 2 == 0
    requires Barrier(Run(capacity, labels), epoch, mark, before)
    ensures Barrier(Run(capacity, labels + more), epoch, mark, before)
  {
    if more == [] {
      assert labels + more == labels;
    } else {
      var init := more[..|more| - 1];
      RunKeepsBarrier(capacity, labels, init, epoch, mark, before);
      RunKeepsInv(capacity, labels + init);
      StepKeepsBarrier(Run(capacity, labels + init), more[|more| - 1], epoch, mark, before);
      assert (labels + more)[..|labels + more| - 1] == labels + init;
    }
  }

  lemma {:induction false} EmittedBefore(capacity: nat, labels: seq<Label>)
    ensures var q := Run(capacity, labels);
            && (!q.consumer.Waiting? ==> q.consumer.fill.startedAt < |labels|)
            && (forall i :: 0 <= i < |q.emitted| ==> q.emitted[i].fill.startedAt < |labels|)
  {
    if labels != [] {
      EmittedBefore(capacity, labels[..|labels| - 1]);
      CapacityIsFixed(capacity, labels[..|labels| - 1]);
    }
  }

  // A fill that starts after `pause_and_flush` has returned never puts out a sample enqueued
  // before it, however the two threads interleave and however often they are flushed again.
  lemma {:induction false} FlushIsABarrier(capacity: nat, labels: seq<Label>, more: seq<Label>, i: nat)
    requires capacity % 2 == 0
    requires Run(capacity, labels).producer.PausedForFlush?
    requires var q := Run(capacity, labels + [AdvanceEpoch] + more);
             i < |q.emitted| && q.emitted[i].fill.startedAt > |labels|
    ensures Run(capacity, labels + [AdvanceEpoch] + more).emitted[i].position >= |Run(capacity, labels).accepted|
  {
    var flushed := labels + [AdvanceEpoch];
    assert flushed[..|flushed| - 1] == labels;
    var q0, q1 := Run(capacity, labels), Run(capacity, flushed);
    RunKeepsInv(capacity, labels);
    EmittedBefore(capacity, flushed);
    CapacityIsFixed(capacity, flushed);
    RunKeepsBarrier(capacity, flushed, more, q1.flushEpoch, |flushed|, |q0.accepted|);
    RunKeepsInv(capacity, flushed + more);
  }
}
