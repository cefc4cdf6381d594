// apps/desktop/src-tauri/src/emulator/runtime.rs: the generation barrier between the network
// threads that publish controller events and the worker that owns the core.
module Generations {
  import opened Words
  import opened Protocol

  const COMMAND_QUEUE_CAPACITY := 32

  type ConnectionId = nat

  datatype ControllerEvent =
    | Connected(id: ConnectionId)
    | Message(id: ConnectionId, message: ClientMessage)
    | Disconnected(id: ConnectionId)

  datatype Controller = Controller(id: ConnectionId, generation: nat)

  // ---- ControllerGenerations: shared between the threads ----

  datatype Barrier = Barrier(current: Option<Controller>, next: nat, cancelled: nat)

  function Prepared(b: Barrier, event: ControllerEvent): (Barrier, Option<nat>) {
    match event
    case Connected(id) =>
      (b.(next := b.next + 1, current := Some(Controller(id, b.next + 1))), Some(b.next + 1))
    case Message(id, _) =>
      (b, if b.current.Some? && b.current.value.id == id then Some(b.current.value.generation) else None)
    case Disconnected(id) =>
      if b.current.Some? && b.current.value.id == id then
        var g := b.current.value.generation;
        (b.(cancelled := if g > b.cancelled then g else b.cancelled, current := None), Some(g))
      else (b, None)
  }

  class ControllerGenerations {
    var current: Option<Controller>
    var nextGeneration: nat
    var cancelledThrough: nat

    // Only generations that were handed out are cancelled, and never the current one.
    predicate Valid()
      reads this
    {
      && cancelledThrough <= nextGeneration
      && (current.Some? ==> cancelledThrough < current.value.generation == nextGeneration)
    }

    constructor ()
      ensures Valid() && View() == Barrier(None, 0, 0)
    {
      current, nextGeneration, cancelledThrough := None, 0, 0;
    }

    function View(): Barrier
      reads this
    {
      Barrier(current, nextGeneration, cancelledThrough)
    }

    // A connect supersedes whatever is current by a generation newer than every one before. A
    // disconnect cancels its own generation, and with it every older one; a cancelled generation
    // stays cancelled and is never handed to an event again.
    method Prepare(event: ControllerEvent) returns (generation: Option<nat>)
      requires Valid()
      modifies this
      ensures Valid()
      ensures (View(), generation) == Prepared(old(View()), event)
      ensures old(nextGeneration) <= nextGeneration && old(cancelledThrough) <= cancelledThrough
      ensures generation.Some? ==> old(cancelledThrough) < generation.value <= nextGeneration
      ensures event.Connected? ==>
                generation == Some(nextGeneration) && old(nextGeneration) < nextGeneration
                && current == Some(Controller(event.id, nextGeneration))
      ensures event.Disconnected? && generation.Some? ==> cancelledThrough == nextGeneration && current.None?
    {
      match event
      case Connected(id) =>
        var previous := nextGeneration;
        nextGeneration := nextGeneration + 1;
        current := Some(Controller(id, previous + 1));
        generation := Some(previous + 1);
      case Message(id, _) =>
        generation := if current.Some? && current.value.id == id then Some(current.value.generation) else None;
      case Disconnected(id) =>
        if current.None? || current.value.id != id {
          return None;
        }
        var g := current.value.generation;
        if cancelledThrough < g {
          cancelledThrough := g;
        }
        current := None;
        generation := Some(g);
    }
  }

  // ---- RemoteInputs and the core: owned by the worker ----

  datatype Snapshot = Snapshot(generation: nat, state: set<Button>)

  // `core` is None when no ROM is loaded; inside is what the loaded core holds for the remote
  // input source. `applied` records the messages behind the retained snapshot.
  datatype Worker = Worker(core: Option<Option<set<Button>>>, snapshot: Option<Snapshot>, owner: Option<Controller>,
                           clearedThrough: nat, applied: seq<ClientMessage>)
  {
    function Retained(): Option<set<Button>> {
      if snapshot.Some? then Some(snapshot.value.state) else None
    }
  }

  // What a message does to the state it finds, which counts only if it is of the same generation.
  function Incoming(w: Worker, message: ClientMessage, generation: nat): set<Button> {
    var found := if w.snapshot.Some? && w.snapshot.value.generation == generation then w.snapshot.value.state else {};
    Applied(found, message)
  }

  function Handled(w: Worker, event: ControllerEvent, generation: nat, cancelled: nat): Worker {
    if generation <= cancelled then w
    else match event
      case Connected(id) =>
        w.(owner := Some(Controller(id, generation)), applied := if w.snapshot.None? then [] else w.applied)
      case Disconnected(_) => w
      case Message(id, message) =>
        if !IsInput(message) then w
        else
          var state := Incoming(w, message, generation);
          var same := w.snapshot.Some? && w.snapshot.value.generation == generation;
          w.(owner := Some(Controller(id, generation)),
             snapshot := Some(Snapshot(generation, state)),
             core := if w.core.Some? then Some(Some(state)) else None,
             applied := (if same then w.applied else []) + [message])
  }

  function Drained(w: Worker, cancelled: nat): Worker {
    if cancelled <= w.clearedThrough then w
    else
      var stale := w.owner.Some? && w.owner.value.generation <= cancelled;
      w.(clearedThrough := cancelled,
         owner := if stale then None else w.owner,
         snapshot := if stale then None else w.snapshot,
         applied := if stale then [] else w.applied,
         core := if w.core.Some? then Some(None) else None)
  }

  class RemoteInputs {
    var core: Option<Option<set<Button>>>
    var snapshot: Option<Snapshot>
    var owner: Option<Controller>
    var clearedThrough: nat
    ghost var applied: seq<ClientMessage>

    ghost function View(): Worker
      reads this
    {
      Worker(core, snapshot, owner, clearedThrough, applied)
    }

    constructor ()
      ensures View() == Worker(None, None, None, 0, [])
    {
      core, snapshot, owner, clearedThrough, applied := None, None, None, 0, [];
    }

    // Returns whether the runtime reports success.
    method ApplyControllerEvent(event: ControllerEvent, generation: nat, cancelledThrough: nat) returns (ok: bool)
      modifies this
      ensures View() == Handled(old(View()), event, generation, cancelledThrough)
      ensures !ok <==> generation > cancelledThrough && event.Message? && !IsInput(event.message)
    {
      if generation <= cancelledThrough {
        return true;
      }
      match event
      case Connected(id) =>
        owner := Some(Controller(id, generation));
        applied := if snapshot.None? then [] else applied;
        ok := true;
      case Disconnected(_) =>
        ok := true;
      case Message(id, message) =>
        var state: set<Button> := {};
        if snapshot.Some? && snapshot.value.generation == generation {
          state := snapshot.value.state;
        }
        match message {
          case StateSync(buttons, _) =>
            state := {};
            for i := 0 to |buttons|
              invariant state == ButtonsOf(buttons[..i])
            {
              assert buttons[..i + 1] == buttons[..i] + [buttons[i]];
              state := state + {buttons[i]};
            }
            assert buttons[..|buttons|] == buttons;
          case ButtonDown(button, _) => state := state + {button};
          case ButtonUp(button, _) => state := state - {button};
          case _ => return false;
        }
        applied := (if snapshot.Some? && snapshot.value.generation == generation then applied else []) + [message];
        owner := Some(Controller(id, generation));
        snapshot := Some(Snapshot(generation, state));
        if core.Some? {
          core := Some(Some(state));
        }
        ok := true;
    }

    // Afterwards nothing cancelled is left, and unless the drain would desynchronise it, a core
    // that agreed with the retained snapshot still does.
    method DrainCancelled(cancelledThrough: nat)
      modifies this
      ensures View() == Drained(old(View()), cancelledThrough)
      ensures clearedThrough >= cancelledThrough && clearedThrough >= old(clearedThrough)
      ensures old(clearedThrough) < cancelledThrough && owner.Some? ==> owner.value.generation > cancelledThrough
      ensures old(core.Some? && core.value == View().Retained()) && old(snapshot.Some? ==> owner.Some?) ==>
                (core.value == View().Retained()
                 <==> !(DrainDesynchronises(old(View()), cancelledThrough) && snapshot.Some?))
    {
      if cancelledThrough <= clearedThrough {
        return;
      }
      clearedThrough := cancelledThrough;
      if owner.Some? && owner.value.generation <= cancelledThrough {
        owner := None;
        snapshot := None;
        applied := [];
      }
      if core.Some? {
        core := Some(None);
      }
    }

    // Opening a ROM releases the core before it tries to load another.
    method OpenRom(loads: bool)
      modifies this`core
      ensures View() == old(View()).(core := if loads then Some(View().Retained()) else None)
    {
      core := None;
      if loads {
        core := Some(if snapshot.Some? then Some(snapshot.value.state) else None);
      }
    }

    method Restart(resets: bool)
      modifies this`core
      ensures core == if old(core).Some? && resets && snapshot.Some? then Some(Some(snapshot.value.state))
                      else old(core)
    {
      if core.Some? && resets && snapshot.Some? {
        core := Some(Some(snapshot.value.state));
      }
    }

    method HandleCommand(command: Command, cancelledThrough: nat) returns (shutDown: bool)
      modifies this
      ensures View() == Execute(old(View()), command, cancelledThrough)
      ensures shutDown <==> command.Shutdown?
    {
      match command {
        case Event(event, generation) =>
          var ok := ApplyControllerEvent(event, generation, cancelledThrough);
        case OpenRom(loads) => OpenRom(loads);
        case Restart(resets) => Restart(resets);
        case Close => core := None;
        case Shutdown => core := None;
        case Unrelated =>
      }
      shutDown := command.Shutdown?;
    }
  }

  // ---- The interleaved system ----

  datatype Command =
    | Event(event: ControllerEvent, generation: nat)
    | OpenRom(loads: bool)
    | Restart(resets: bool)
    | Close
    | Unrelated
    | Shutdown

  // The publishing side is one bracketed sequence of events: between blocks, inside one, or in
  // the middle of a call that still has to get its command into the bounded queue. A connection
  // whose call failed publishes nothing more but its disconnect.
  datatype Publisher =
    | Between
    | Within(id: ConnectionId, failed: bool)
    | Admitting(command: Command, inside: Option<ConnectionId>)

  datatype Phase = AtTop | Polling | Received(command: Command) | Ready(command: Command) | Stopped

  // `published` and `admitted` record the inputs of the latest block, as the connection passed them
  // on and as they entered the queue.
  datatype System = System(barrier: Barrier, publisher: Publisher, queue: seq<Command>, worker: Worker, phase: Phase,
                           published: seq<ClientMessage>, admitted: seq<ClientMessage>)

  datatype Label =
    | BeginBlock(id: ConnectionId, delivered: bool)
    | PublishMessage(message: ClientMessage)
    | LoseReply
    | EndBlock
    | Admit
    | GiveUp
    | Enqueue(command: Command)
    | DrainAtTop
    | TimeOut
    | Receive
    | DrainReceived
    | Handle

  function Init(): System {
    System(Barrier(None, 0, 0), Between, [], Worker(None, None, None, 0, []), AtTop, [], [])
  }

  function Resting(inside: Option<ConnectionId>, failed: bool): Publisher {
    if inside.Some? then Within(inside.value, failed) else Between
  }

  // The call to prepare an event, up to the point where its command (if any) must be admitted.
  function Publish(s: System, event: ControllerEvent, inside: Option<ConnectionId>): System {
    var (barrier, generation) := Prepared(s.barrier, event);
    s.(barrier := barrier,
       publisher := if generation.Some? then Admitting(Event(event, generation.value), inside)
                    else Resting(inside, false))
  }

  function InputIn(message: ClientMessage): seq<ClientMessage> {
    if IsInput(message) then [message] else []
  }

  // The input a command carries, if any.
  function Inputs(c: Command): seq<ClientMessage> {
    if c.Event? && c.event.Message? then InputIn(c.event.message) else []
  }

  function Execute(w: Worker, command: Command, cancelled: nat): Worker {
    match command
    case Event(event, generation) => Handled(w, event, generation, cancelled)
    case OpenRom(loads) => w.(core := if loads then Some(w.Retained()) else None)
    case Restart(resets) =>
      if w.core.Some? && resets && w.snapshot.Some? then w.(core := Some(w.Retained())) else w
    case Close => w.(core := None)
    case Shutdown => w.(core := None)
    case Unrelated => w
  }

  // One atomic step; a label that is not enabled leaves the system as it is.
  function Step(s: System, l: Label): System {
    match l
    case BeginBlock(id, delivered) =>
      if s.publisher != Between then s
      else if delivered then Publish(s, Connected(id), Some(id)).(published := [], admitted := [])
      else s.(publisher := Within(id, true))
    case PublishMessage(message) =>
      if !s.publisher.Within? || s.publisher.failed then s
      else Publish(s, Message(s.publisher.id, message),
                   Some(s.publisher.id)).(published := s.published + InputIn(message))
    case LoseReply =>
      if !s.publisher.Within? then s else s.(publisher := Within(s.publisher.id, true))
    case EndBlock =>
      if !s.publisher.Within? then s else Publish(s, Disconnected(s.publisher.id), None)
    case Admit =>
      if !s.publisher.Admitting? || |s.queue| == COMMAND_QUEUE_CAPACITY then s
      else s.(queue := s.queue + [s.publisher.command], publisher := Resting(s.publisher.inside, false),
              admitted := s.admitted + Inputs(s.publisher.command))
    case GiveUp =>
      if !s.publisher.Admitting? then s else s.(publisher := Resting(s.publisher.inside, true))
    case Enqueue(command) =>
      if command.Event? || |s.queue| == COMMAND_QUEUE_CAPACITY then s else s.(queue := s.queue + [command])
    case DrainAtTop =>
      if s.phase != AtTop then s else s.(worker := Drained(s.worker, s.barrier.cancelled), phase := Polling)
    case TimeOut =>
      if s.phase != Polling then s else s.(phase := AtTop)
    case Receive =>
      if s.phase != Polling || s.queue == [] then s
      else s.(queue := s.queue[1..], phase := Phase.Received(s.queue[0]))
    case DrainReceived =>
      if !s.phase.Received? then s
      else s.(worker := Drained(s.worker, s.barrier.cancelled), phase := Ready(s.phase.command))
    case Handle =>
      if !s.phase.Ready? then s
      else s.(worker := Execute(s.worker, s.phase.command, s.barrier.cancelled),
              phase := if s.phase.command.Shutdown? then Stopped else AtTop)
  }

  function Run(s: System, labels: seq<Label>): System {
    if labels == [] then s else Step(Run(s, labels[..|labels| - 1]), labels[|labels| - 1])
  }

  // ---- Invariant ----

  // A block's generation is current exactly while the block is open, and every earlier
  // generation is already cancelled.
  predicate BarrierInv(b: Barrier, p: Publisher) {
    var open := if p.Within? then Some(p.id) else if p.Admitting? then p.inside else None;
    match b.current
    case None => b.cancelled == b.next
    case Some(c) => open == Some(c.id) && c.generation == b.next && b.cancelled + 1 == b.next
  }

  // A controller command exists only once every generation before its own has been cancelled.
  predicate CommandOk(c: Command, cancelled: nat, next: nat) {
    c.Event? ==> c.generation <= cancelled + 1 && c.generation <= next
  }

  predicate WorkerInv(w: Worker, cancelled: nat, next: nat) {
    && w.clearedThrough <= cancelled
    && (w.owner.Some? ==> w.owner.value.generation == w.clearedThrough + 1 <= next)
    && (w.snapshot.Some? ==>
          && w.owner.Some? && w.owner.value.generation == w.snapshot.value.generation
          && w.applied != [] && w.snapshot.value.state == Held(w.applied))
    && (w.core.Some? ==> w.core.value == w.Retained())
  }

  predicate Inv(s: System) {
    && BarrierInv(s.barrier, s.publisher)
    && WorkerInv(s.worker, s.barrier.cancelled, s.barrier.next)
    && (s.publisher.Admitting? ==> CommandOk(s.publisher.command, s.barrier.cancelled, s.barrier.next))
    && (forall i :: 0 <= i < |s.queue| ==> CommandOk(s.queue[i], s.barrier.cancelled, s.barrier.next))
    && |s.queue| <= COMMAND_QUEUE_CAPACITY
    && (s.phase.Received? ==> CommandOk(s.phase.command, s.barrier.cancelled, s.barrier.next))
    && (s.phase.Ready? ==> CommandOk(s.phase.command, s.worker.clearedThrough, s.barrier.next))
  }

  // The case in which a drain clears the core although a newer owner keeps its snapshot.
  predicate DrainDesynchronises(w: Worker, cancelled: nat) {
    cancelled > w.clearedThrough && w.owner.Some? && w.owner.value.generation > cancelled
  }

  lemma DrainKeepsInv(w: Worker, cancelled: nat, next: nat)
    requires WorkerInv(w, cancelled, next)
    ensures WorkerInv(Drained(w, cancelled), cancelled, next)
    ensures Drained(w, cancelled).clearedThrough == cancelled
    ensures !DrainDesynchronises(w, cancelled)
  {
  }

  lemma HandleKeepsInv(w: Worker, command: Command, cancelled: nat, next: nat)
    requires WorkerInv(w, cancelled, next) && CommandOk(command, w.clearedThrough, next)
    ensures WorkerInv(Execute(w, command, cancelled), cancelled, next)
  {
  }

  lemma StepKeepsInv(s: System, l: Label)
    requires Inv(s)
    ensures Inv(Step(s, l))
  {
    match l
    case DrainAtTop => DrainKeepsInv(s.worker, s.barrier.cancelled, s.barrier.next);
    case DrainReceived => DrainKeepsInv(s.worker, s.barrier.cancelled, s.barrier.next);
    case Handle =>
      if s.phase.Ready? {
        HandleKeepsInv(s.worker, s.phase.command, s.barrier.cancelled, s.barrier.next);
      }
    case _ =>
  }

  lemma {:induction false} RunKeepsInv(labels: seq<Label>)
    ensures Inv(Run(Init(), labels))
  {
    if labels != [] {
      RunKeepsInv(labels[..|labels| - 1]);
      StepKeepsInv(Run(Init(), labels[..|labels| - 1]), labels[|labels| - 1]);
    }
  }

  // For every run: right after a drain a loaded core holds exactly the retained snapshot, that
  // snapshot is what its generation's messages add up to, and its generation is newer than every
  // cancellation the drain saw.
  lemma {:induction false} AfterEveryDrain(labels: seq<Label>, drain: Label)
    requires drain in {DrainAtTop, DrainReceived}
    requires var s := Run(Init(), labels); if drain == DrainAtTop then s.phase == AtTop else s.phase.Received?
    ensures var s := Run(Init(), labels);
            var w := Step(s, drain).worker;
            && !DrainDesynchronises(s.worker, s.barrier.cancelled)
            && (w.core.Some? ==> w.core.value == w.Retained())
            && (w.snapshot.Some? ==> w.snapshot.value.generation > s.barrier.cancelled
                                     && w.applied != [] && w.snapshot.value.state == Held(w.applied))
  {
    RunKeepsInv(labels);
    var s := Run(Init(), labels);
    DrainKeepsInv(s.worker, s.barrier.cancelled, s.barrier.next);
  }

  // For every run: once the controller's block is closed, whatever became of its commands, the
  // next drain leaves neither a snapshot nor a pressed remote button behind.
  lemma {:induction false} NoInputOutlivesItsBlock(labels: seq<Label>, drain: Label)
    requires drain in {DrainAtTop, DrainReceived}
    requires var s := Run(Init(), labels);
             && s.barrier.current.None?
             && if drain == DrainAtTop then s.phase == AtTop else s.phase.Received?
    ensures var w := Step(Run(Init(), labels), drain).worker;
            w.snapshot.None? && w.owner.None? && (w.core.Some? ==> w.core.value.None?)
  {
    RunKeepsInv(labels);
    var s := Run(Init(), labels);
    DrainKeepsInv(s.worker, s.barrier.cancelled, s.barrier.next);
  }

  // ---- From the connection to the core ----

  // The inputs of one generation among a list of commands, in order.
  function InputsOf(commands: seq<Command>, generation: nat): seq<ClientMessage> {
    if commands == [] then []
    else (if commands[0].Event? && commands[0].generation == generation then Inputs(commands[0]) else [])
         + InputsOf(commands[1..], generation)
  }

  // What is past the queue's entrance and not handled yet.
  function Pipeline(s: System): seq<Command> {
    (if s.phase.Received? || s.phase.Ready? then [s.phase.command] else []) + s.queue
  }

  // What the worker has applied for a generation.
  function AppliedFor(w: Worker, generation: nat): seq<ClientMessage> {
    if w.snapshot.Some? && w.snapshot.value.generation == generation then w.applied else []
  }

  // While a block is open, each of its admitted inputs is either applied or still under way.
  predicate Conserved(s: System) {
    s.barrier.current.Some? ==>
      var g := s.barrier.current.value.generation;
      AppliedFor(s.worker, g) + InputsOf(Pipeline(s), g) == s.admitted
  }

  // Inputs enter the queue in the order the connection passed them on, the one being admitted last.
  predicate InOrder(s: System) {
    match s.publisher
    case Between => s.admitted <= s.published
    case Within(_, failed) =>
      s.admitted <= s.published && (!failed ==> s.barrier.current.Some? && s.admitted == s.published)
    case Admitting(command, inside) =>
      && s.admitted + Inputs(command) <= s.published
      && (inside.Some? ==> s.barrier.current.Some? && s.admitted + Inputs(command) == s.published)
      && (Inputs(command) != [] ==> inside.Some? && command.generation == s.barrier.current.value.generation)
  }

  lemma {:induction false} InputsOfAppend(commands: seq<Command>, c: Command, generation: nat)
    ensures InputsOf(commands + [c], generation) == InputsOf(commands, generation) + InputsOf([c], generation)
  {
    if commands != [] {
      assert (commands + [c])[1..] == commands[1..] + [c];
      InputsOfAppend(commands[1..], c, generation);
    } else {
      assert commands + [c] == [c];
    }
  }

  // Commands of older generations carry nothing of a new one.
  lemma {:induction false} NothingYet(commands: seq<Command>, generation: nat)
    requires forall i :: 0 <= i < |commands| ==> commands[i].Event? ==> commands[i].generation < generation
    ensures InputsOf(commands, generation) == []
  {
    if commands != [] {
      forall i | 0 <= i < |commands[1..]| ensures commands[1..][i].Event? ==> commands[1..][i].generation < generation {
        assert commands[1..][i] == commands[i + 1];
      }
      NothingYet(commands[1..], generation);
    }
  }

  lemma {:induction false} StepKeepsOrder(s: System, l: Label)
    requires Inv(s) && InOrder(s)
    ensures InOrder(Step(s, l))
  {
  }

  lemma {:induction false} StepConserves(s: System, l: Label)
    requires Inv(s) && InOrder(s) && Conserved(s)
    ensures Conserved(Step(s, l))
  {
    hide Drained, Execute, InputsOf, InOrder, CommandOk;
    var t := Step(s, l);
    var g := if s.barrier.current.Some? then s.barrier.current.value.generation else 0;
    match l
    case BeginBlock(id, delivered) =>
      if s.publisher == Between && delivered {
        NothingOfTheNext(s);
      }
    case Admit =>
      if t != s && s.barrier.current.Some? {
        assert Pipeline(t) == Pipeline(s) + [s.publisher.command];
        InputsOfAppend(Pipeline(s), s.publisher.command, g);
        OneAdmitted(s);
      }
    case Enqueue(command) =>
      if t != s {
        assert Pipeline(t) == Pipeline(s) + [command];
        InputsOfAppend(Pipeline(s), command, g);
        OtherCommand(command, g);
      }
    case Receive =>
      if t != s {
        assert Pipeline(t) == Pipeline(s);
      }
    case Handle =>
      if s.phase.Ready? && s.barrier.current.Some? {
        HandleConserves(s.worker, s.phase.command, s.barrier, g);
        OneHandled(s, g);
        assert Pipeline(t) == s.queue;
        Reassociate(AppliedFor(s.worker, g), AppliedFor(t.worker, g)[|AppliedFor(s.worker, g)|..],
                    InputsOf(s.queue, g));
      }
    case DrainAtTop => DrainConserves(s.worker, s.barrier);
    case DrainReceived => DrainConserves(s.worker, s.barrier);
    case _ =>
  }

  lemma Reassociate(a: seq<ClientMessage>, b: seq<ClientMessage>, c: seq<ClientMessage>)
    ensures (a + b) + c == a + (b + c)
  {
  }

  lemma NothingOfTheNext(s: System)
    requires Inv(s)
    ensures InputsOf(Pipeline(s), s.barrier.next + 1) == []
  {
    NothingYet(Pipeline(s), s.barrier.next + 1);
  }

  lemma OneAdmitted(s: System)
    requires s.publisher.Admitting? && s.barrier.current.Some? && InOrder(s)
    ensures InputsOf([s.publisher.command], s.barrier.current.value.generation) == Inputs(s.publisher.command)
  {
    var command := s.publisher.command;
    assert InputsOf([command][1..], s.barrier.current.value.generation) == [];
  }

  lemma OtherCommand(command: Command, generation: nat)
    requires !command.Event?
    ensures InputsOf([command], generation) == []
  {
    assert InputsOf([command][1..], generation) == [];
  }

  lemma OneHandled(s: System, generation: nat)
    requires s.phase.Ready?
    ensures var c := s.phase.command;
            InputsOf(Pipeline(s), generation)
            == (if c.Event? && c.generation == generation then Inputs(c) else []) + InputsOf(s.queue, generation)
  {
    assert Pipeline(s)[1..] == s.queue;
  }

  lemma DrainConserves(w: Worker, b: Barrier)
    requires WorkerInv(w, b.cancelled, b.next)
    ensures forall g :: g > b.cancelled ==> AppliedFor(Drained(w, b.cancelled), g) == AppliedFor(w, g)
  {
  }

  // Handling a command of the current generation applies its input, and no other command touches
  // what was applied for it.
  lemma HandleConserves(w: Worker, command: Command, b: Barrier, generation: nat)
    requires WorkerInv(w, b.cancelled, b.next) && generation == b.next == b.cancelled + 1
    requires CommandOk(command, w.clearedThrough, b.next)
    ensures AppliedFor(Execute(w, command, b.cancelled), generation)
            == AppliedFor(w, generation) +
                (if command.Event? && command.generation == generation then Inputs(command) else [])
  {
  }

  // For every run: while the controller's block is open, what the worker has applied for it is an
  // initial stretch of the inputs the connection passed on; all of them once nothing is under way
  // and no call has failed.
  lemma {:induction false} AppliedInOrder(labels: seq<Label>)
    ensures var s := Run(Init(), labels); Inv(s) && InOrder(s) && Conserved(s)
    ensures var s := Run(Init(), labels);
            s.barrier.current.Some? ==>
              var applied := AppliedFor(s.worker, s.barrier.current.value.generation);
              && applied <= s.published
              && (s.publisher.Within? && !s.publisher.failed
                  && InputsOf(Pipeline(s), s.barrier.current.value.generation) == [] ==>
                    applied == s.published)
  {
    RunConserves(labels);
    hide Inv, Conserved, InOrder, AppliedFor, Run;
    if Run(Init(), labels).barrier.current.Some? {
      AppliedSoFar(Run(Init(), labels));
    }
  }

  lemma AppliedSoFar(s: System)
    requires Inv(s) && InOrder(s) && Conserved(s) && s.barrier.current.Some?
    ensures AppliedFor(s.worker, s.barrier.current.value.generation) <= s.admitted <= s.published
    ensures s.publisher.Within? && !s.publisher.failed ==> s.admitted == s.published
    ensures InputsOf(Pipeline(s), s.barrier.current.value.generation) == [] ==>
              AppliedFor(s.worker, s.barrier.current.value.generation) == s.admitted
  {
    hide Inv;
  }

  lemma NothingPublishedYet()
    ensures InOrder(Init()) && Conserved(Init())
  {
  }

  lemma {:induction false} RunConserves(labels: seq<Label>)
    ensures var s := Run(Init(), labels); Inv(s) && InOrder(s) && Conserved(s)
  {
    hide Inv, InOrder, Conserved, Step, Init;
    RunKeepsInv(labels);
    NothingPublishedYet();
    if labels != [] {
      var init := labels[..|labels| - 1];
      RunConserves(init);
      StepKeepsOrder(Run(Init(), init), labels[|init|]);
      StepConserves(Run(Init(), init), labels[|init|]);
    }
  }

  // ---- The runtime itself ----

  // The objects behind the labels: what the network threads and the worker share and own.
  class Runtime {
    const generations: ControllerGenerations
    const inputs: RemoteInputs
    var publisher: Publisher
    var queue: seq<Command>
    var phase: Phase
    ghost var published: seq<ClientMessage>
    ghost var admitted: seq<ClientMessage>

    ghost function View(): System
      reads this, generations, inputs
    {
      System(generations.View(), publisher, queue, inputs.View(), phase, published, admitted)
    }

    constructor ()
      ensures View() == Init() && generations.Valid() && fresh(generations) && fresh(inputs)
    {
      generations := new ControllerGenerations();
      inputs := new RemoteInputs();
      publisher, queue, phase, published, admitted := Between, [], AtTop, [], [];
    }

    // The first half of a published event.
    method Prepare(event: ControllerEvent, inside: Option<ConnectionId>)
      requires generations.Valid()
      modifies this`publisher, generations
      ensures generations.Valid() && View() == Publish(old(View()), event, inside)
    {
      var generation := generations.Prepare(event);
      publisher := if generation.Some? then Admitting(Event(event, generation.value), inside)
                   else Resting(inside, false);
    }

    // The bounded queue: a full one refuses.
    method TrySend(command: Command) returns (ok: bool)
      modifies this`queue
      ensures ok <==> |old(queue)| != COMMAND_QUEUE_CAPACITY
      ensures queue == if ok then old(queue) + [command] else old(queue)
    {
      ok := |queue| != COMMAND_QUEUE_CAPACITY;
      if ok {
        queue := queue + [command];
      }
    }

    method Drain()
      modifies inputs
      ensures View() == old(View()).(worker := Drained(old(View()).worker, old(View()).barrier.cancelled))
    {
      inputs.DrainCancelled(generations.cancelledThrough);
    }

    method Perform(l: Label)
      requires generations.Valid()
      modifies this, generations, inputs
      ensures generations.Valid() && View() == Step(old(View()), l)
    {
      match l
      case BeginBlock(id, delivered) =>
        if publisher == Between {
          if delivered {
            Prepare(Connected(id), Some(id));
            published, admitted := [], [];
          } else {
            publisher := Within(id, true);
          }
        }
      case PublishMessage(message) =>
        if publisher.Within? && !publisher.failed {
          Prepare(Message(publisher.id, message), Some(publisher.id));
          published := published + InputIn(message);
        }
      case LoseReply =>
        if publisher.Within? {
          publisher := Within(publisher.id, true);
        }
      case EndBlock =>
        if publisher.Within? {
          Prepare(Disconnected(publisher.id), None);
        }
      case Admit =>
        if publisher.Admitting? {
          var ok := TrySend(publisher.command);
          if ok {
            admitted := admitted + Inputs(publisher.command);
            publisher := Resting(publisher.inside, false);
          }
        }
      case GiveUp =>
        if publisher.Admitting? {
          publisher := Resting(publisher.inside, true);
        }
      case Enqueue(command) =>
        if !command.Event? {
          var ok := TrySend(command);
        }
      case DrainAtTop =>
        if phase == AtTop {
          Drain();
          phase := Polling;
        }
      case TimeOut =>
        if phase == Polling {
          phase := AtTop;
        }
      case Receive =>
        if phase == Polling && queue != [] {
          phase := Phase.Received(queue[0]);
          queue := queue[1..];
        }
      case DrainReceived =>
        if phase.Received? {
          Drain();
          phase := Ready(phase.command);
        }
      case Handle =>
        if phase.Ready? {
          var shutDown := inputs.HandleCommand(phase.command, generations.cancelledThrough);
          phase := if shutDown then Stopped else AtTop;
        }
    }
  }

  // The objects follow the step function through every interleaving, so what is proved of its runs
  // holds of them.
  method Interleave(labels: seq<Label>) returns (r: Runtime)
    ensures r.View() == Run(Init(), labels) && Inv(r.View())
    ensures r.inputs.core.Some? ==> r.inputs.core.value == r.View().worker.Retained()
  {
    r := new Runtime();
    assert labels[..0] == [];
    for i := 0 to |labels|
      invariant fresh(r) && fresh(r.generations) && fresh(r.inputs) && r.generations.Valid()
      invariant r.View() == Run(Init(), labels[..i])
    {
      assert labels[..i + 1][..i] == labels[..i];
      r.Perform(labels[i]);
    }
    assert labels[..|labels|] == labels;
    RunKeepsInv(labels);
  }
}
