// crates/gb-network/src/server.rs: any number of socket tasks sharing one controller claim, one
// event sink and one shutdown broadcast. Every atomic operation of the tasks is a step.
module SocketServer {
  import opened Words
  import opened Protocol
  import opened Generations

  type TaskId = nat

  // Where a socket task stands. `heard` is whether it subscribed before the shutdown broadcast,
  // and so whether its `changed()` will resolve.
  datatype Task =
    | Upgrading                 // counted, waiting for the upgrade to finish
    | AwaitingHello(heard: bool)
    | HelloParsed(heard: bool)
    | TokenAccepted(heard: bool)
    | Authenticated(heard: bool)
    | Claimed(heard: bool)
    | Looping(heard: bool)      // Connected has been published
    | Closing(heard: bool)      // leaving the loop, Disconnected still to be published
    | Releasing                 // Disconnected published, claim still held
    | Finishing                 // returned from handle_socket
    | Gone

  datatype ServerThread = Serving | TokenInvalidated | Broadcast | Draining | Exited

  // A connection's part of the trace.
  datatype Block = Block(id: TaskId, messages: seq<ClientMessage>)

  datatype Server = Server(tasks: map<TaskId, Task>, claimed: bool, tokenValid: bool, socketTasks: nat,
                           thread: ServerThread, trace: seq<ControllerEvent>, closed: seq<Block>, open: Option<Block>)

  datatype Label =
    | Accept(t: TaskId)
    | FailUpgrade(t: TaskId)
    | Subscribe(t: TaskId)
    | ReadHello(t: TaskId, ok: bool)
    | CheckToken(t: TaskId)
    | AcceptHello(t: TaskId, ok: bool)
    | Claim(t: TaskId)
    | PublishConnected(t: TaskId, ok: bool)
    | PublishInput(t: TaskId, message: ClientMessage, ok: bool)
    | LeaveLoop(t: TaskId)
    | PublishDisconnected(t: TaskId)
    | Release(t: TaskId)
    | Finish(t: TaskId)
    | SignalShutdown
    | SendBroadcast
    | StopServing
    | CheckTasks

  function Init(): Server {
    Server(map[], false, true, 0, Serving, [], [], None)
  }

  function At(s: Server, t: TaskId): Task {
    if t in s.tasks then s.tasks[t] else Gone
  }

  function Move(s: Server, t: TaskId, pc: Task): Server {
    s.(tasks := s.tasks[t := pc])
  }

  function Step(s: Server, l: Label): Server {
    match l
    case Accept(t) =>
      if t in s.tasks || s.thread.Draining? || s.thread.Exited? then s
      else Move(s, t, Upgrading).(socketTasks := s.socketTasks + 1)
    case FailUpgrade(t) =>
      if At(s, t).Upgrading? && s.socketTasks > 0 then Move(s, t, Gone).(socketTasks := s.socketTasks - 1) else s
    case Subscribe(t) =>
      if At(s, t).Upgrading? then Move(s, t, AwaitingHello(s.thread.Serving? || s.thread.TokenInvalidated?)) else s
    case ReadHello(t, ok) =>
      if At(s, t).AwaitingHello? then Move(s, t, if ok then HelloParsed(At(s, t).heard) else Finishing) else s
    case CheckToken(t) =>
      if At(s, t).HelloParsed? then Move(s, t, if s.tokenValid then TokenAccepted(At(s, t).heard) else Finishing) else s
    case AcceptHello(t, ok) =>
      if At(s, t).TokenAccepted? then Move(s, t, if ok then Authenticated(At(s, t).heard) else Finishing) else s
    case Claim(t) =>
      if !At(s, t).Authenticated? then s
      else if s.claimed then Move(s, t, Finishing)
      else Move(s, t, Claimed(At(s, t).heard)).(claimed := true)
    case PublishConnected(t, ok) =>
      if !At(s, t).Claimed? then s
      else Move(s, t, if ok then Looping(At(s, t).heard) else Closing(At(s, t).heard))
           .(trace := s.trace + [Connected(t)], open := Some(Block(t, [])))
    case PublishInput(t, message, ok) =>
      if !At(s, t).Looping? || s.open.None? then s
      else Move(s, t, if ok then At(s, t) else Closing(At(s, t).heard))
           .(trace := s.trace + [Message(t, message)],
             open := Some(s.open.value.(messages := s.open.value.messages + [message])))
    case LeaveLoop(t) =>
      if At(s, t).Looping? then Move(s, t, Closing(At(s, t).heard)) else s
    case PublishDisconnected(t) =>
      if !At(s, t).Closing? || s.open.None? then s
      else Move(s, t, Releasing)
           .(trace := s.trace + [Disconnected(t)], closed := s.closed + [s.open.value], open := None)
    case Release(t) =>
      if At(s, t).Releasing? then Move(s, t, Finishing).(claimed := false) else s
    case Finish(t) =>
      if At(s, t).Finishing? && s.socketTasks > 0 then Move(s, t, Gone).(socketTasks := s.socketTasks - 1) else s
    case SignalShutdown => if s.thread.Serving? then s.(tokenValid := false, thread := TokenInvalidated) else s
    case SendBroadcast => if s.thread.TokenInvalidated? then s.(thread := Broadcast) else s
    case StopServing => if s.thread.Broadcast? then s.(thread := Draining) else s
    case CheckTasks => if s.thread.Draining? && s.socketTasks == 0 then s.(thread := Exited) else s
  }

  function Run(labels: seq<Label>): Server {
    if labels == [] then Init() else Step(Run(labels[..|labels| - 1]), labels[|labels| - 1])
  }

  // ---- What the trace must look like ----

  function MessagesOf(b: Block): seq<ControllerEvent> {
    seq(|b.messages|, (i: nat) requires i < |b.messages| => Message(b.id, b.messages[i]))
  }

  function Opened(b: Block): seq<ControllerEvent> {
    [Connected(b.id)] + MessagesOf(b)
  }

  // Complete blocks, one after the other.
  function Flat(blocks: seq<Block>): seq<ControllerEvent> {
    if blocks == [] then []
    else Flat(blocks[..|blocks| - 1]) + Opened(blocks[|blocks| - 1]) + [Disconnected(blocks[|blocks| - 1].id)]
  }

  ghost predicate Bracketed(trace: seq<ControllerEvent>) {
    exists closed: seq<Block>, open: Option<Block> ::
      trace == Flat(closed) + (if open.Some? then Opened(open.value) else [])
  }

  ghost predicate Complete(trace: seq<ControllerEvent>) {
    exists closed: seq<Block> :: trace == Flat(closed)
  }

  // ---- Invariant ----

  predicate Holds(pc: Task) {
    pc.Claimed? || pc.Looping? || pc.Closing? || pc.Releasing?
  }

  predicate InBlock(pc: Task) {
    pc.Looping? || pc.Closing?
  }

  predicate BeforeToken(pc: Task) {
    pc.AwaitingHello? || pc.HelloParsed?
  }

  predicate PastToken(pc: Task) {
    pc.TokenAccepted? || pc.Authenticated? || pc.Claimed? || InBlock(pc)
  }

  function Live(tasks: map<TaskId, Task>): set<TaskId> {
    set t | t in tasks && !tasks[t].Gone?
  }

  // The claim is exclusive.
  predicate ClaimInv(s: Server) {
    && (forall t :: t in s.tasks && Holds(s.tasks[t]) ==> s.claimed)
    && (forall t, u :: t in s.tasks && u in s.tasks && Holds(s.tasks[t]) && Holds(s.tasks[u]) ==> t == u)
  }

  // A block is open exactly while the task it belongs to is between its two events, and the
  // trace is the closed blocks followed by the open one.
  predicate TraceInv(s: Server) {
    && (s.open.Some? ==> s.open.value.id in s.tasks && InBlock(s.tasks[s.open.value.id]))
    && (forall t :: t in s.tasks && InBlock(s.tasks[t]) ==> s.open.Some? && s.open.value.id == t)
    && s.trace == Flat(s.closed) + (if s.open.Some? then Opened(s.open.value) else [])
  }

  // The token is invalidated before the broadcast, so a task that got past it subscribed in time.
  predicate TokenInv(s: Server) {
    && (s.tokenValid <==> s.thread.Serving?)
    && (forall t :: t in s.tasks && BeforeToken(s.tasks[t]) && (s.thread.Serving? || s.thread.TokenInvalidated?) ==>
          s.tasks[t].heard)
    && (forall t :: t in s.tasks && PastToken(s.tasks[t]) ==> s.tasks[t].heard)
  }

  predicate CountInv(s: Server) {
    && s.socketTasks == |Live(s.tasks)|
    && (s.thread.Exited? ==> Live(s.tasks) == {})
  }

  predicate Inv(s: Server) {
    ClaimInv(s) && TraceInv(s) && TokenInv(s) && CountInv(s)
  }

  // ---- Preservation ----

  lemma CountAfterMove(tasks: map<TaskId, Task>, t: TaskId, pc: Task)
    ensures |Live(tasks[t := pc])| == |Live(tasks) - {t}| + (if pc.Gone? then 0 else 1)
    ensures |Live(tasks)| == |Live(tasks) - {t}| + (if t in Live(tasks) then 1 else 0)
  {
    var rest := Live(tasks) - {t};
    if pc.Gone? {
      assert Live(tasks[t := pc]) == rest;
    } else {
      assert Live(tasks[t := pc]) == rest + {t};
    }
    if t in Live(tasks) {
      assert Live(tasks) == rest + {t};
    } else {
      assert Live(tasks) == rest;
    }
  }

  function TaskOf(l: Label): TaskId {
    match l
    case Accept(t) => t
    case FailUpgrade(t) => t
    case Subscribe(t) => t
    case ReadHello(t, _) => t
    case CheckToken(t) => t
    case AcceptHello(t, _) => t
    case Claim(t) => t
    case PublishConnected(t, _) => t
    case PublishInput(t, _, _) => t
    case LeaveLoop(t) => t
    case PublishDisconnected(t) => t
    case Release(t) => t
    case Finish(t) => t
    case _ => 0
  }

  lemma StepKeepsClaim(s: Server, l: Label)
    requires ClaimInv(s)
    ensures ClaimInv(Step(s, l))
  {
  }

  lemma StepKeepsToken(s: Server, l: Label)
    requires TokenInv(s)
    ensures TokenInv(Step(s, l))
  {
  }

  lemma CountMove(s: Server, r: Server, t: TaskId, pc: Task)
    requires CountInv(s) && r.tasks == s.tasks[t := pc] && r.thread == s.thread && !s.thread.Exited?
    requires r.socketTasks == s.socketTasks + (if pc.Gone? then 0 else 1) - (if At(s, t).Gone? then 0 else 1)
    ensures CountInv(r)
  {
    CountAfterMove(s.tasks, t, pc);
    assert t in Live(s.tasks) <==> !At(s, t).Gone?;
  }

  lemma ThreadKeepsCount(s: Server, l: Label)
    requires CountInv(s) && (l.SignalShutdown? || l.SendBroadcast? || l.StopServing? || l.CheckTasks?)
    ensures CountInv(Step(s, l))
  {
  }

  lemma AllGone(s: Server, t: TaskId)
    requires CountInv(s) && s.thread.Exited?
    ensures At(s, t).Gone?
  {
    assert t !in Live(s.tasks);
  }

  lemma StepKeepsCount(s: Server, l: Label)
    requires CountInv(s)
    ensures CountInv(Step(s, l))
  {
    hide CountInv, Flat, Opened;
    if l.SignalShutdown? || l.SendBroadcast? || l.StopServing? || l.CheckTasks? {
      ThreadKeepsCount(s, l);
    } else {
      var t, r := TaskOf(l), Step(s, l);
      if s.thread.Exited? {
        AllGone(s, t);
      } else if r != s {
        CountMove(s, r, t, At(r, t));
      }
    }
  }

  lemma OpenedAppend(b: Block, message: ClientMessage)
    ensures Opened(b.(messages := b.messages + [message])) == Opened(b) + [Message(b.id, message)]
  {
  }

  // A task that is not in a block, and does not enter one, does not touch the trace.
  lemma QuietMove(s: Server, t: TaskId, pc: Task)
    requires TraceInv(s) && !InBlock(At(s, t)) && !InBlock(pc)
    ensures TraceInv(Move(s, t, pc))
  {
  }

  lemma OpenBlock(s: Server, t: TaskId, ok: bool)
    requires ClaimInv(s) && TraceInv(s)
    ensures TraceInv(Step(s, PublishConnected(t, ok)))
  {
    hide Flat;
    if At(s, t).Claimed? {
      assert s.open.None?;
      assert Opened(Block(t, [])) == [Connected(t)];
    }
  }

  lemma ExtendBlock(s: Server, t: TaskId, message: ClientMessage, ok: bool)
    requires TraceInv(s)
    ensures TraceInv(Step(s, PublishInput(t, message, ok)))
  {
    if At(s, t).Looping? && s.open.Some? {
      OpenedAppend(s.open.value, message);
    }
    hide Flat, Opened;
  }

  lemma CloseBlock(s: Server, t: TaskId)
    requires ClaimInv(s) && TraceInv(s)
    ensures TraceInv(Step(s, PublishDisconnected(t)))
  {
  }

  lemma StepKeepsTrace(s: Server, l: Label)
    requires ClaimInv(s) && TraceInv(s)
    ensures TraceInv(Step(s, l))
  {
    hide TraceInv, Flat, Opened;
    match l
    case PublishConnected(t, ok) => OpenBlock(s, t, ok);
    case PublishInput(t, message, ok) => ExtendBlock(s, t, message, ok);
    case PublishDisconnected(t) => CloseBlock(s, t);
    case LeaveLoop(t) => LeaveKeepsTrace(s, t);
    case _ => QuietStep(s, l);
  }

  lemma LeaveKeepsTrace(s: Server, t: TaskId)
    requires TraceInv(s)
    ensures TraceInv(Step(s, LeaveLoop(t)))
  {
  }

  lemma QuietStep(s: Server, l: Label)
    requires TraceInv(s)
    requires !l.PublishConnected? && !l.PublishInput? && !l.PublishDisconnected? && !l.LeaveLoop?
    ensures TraceInv(Step(s, l))
  {
    hide Flat, Opened;
    var t := TaskOf(l);
    if !InBlock(At(s, t)) && !InBlock(At(Step(s, l), t)) {
      QuietMove(s, t, At(Step(s, l), t));
    }
  }

  lemma {:induction false} RunKeepsInv(labels: seq<Label>)
    ensures Inv(Run(labels))
  {
    if labels != [] {
      var s, l := Run(labels[..|labels| - 1]), labels[|labels| - 1];
      RunKeepsInv(labels[..|labels| - 1]);
      StepKeepsClaim(s, l);
      StepKeepsTrace(s, l);
      StepKeepsToken(s, l);
      StepKeepsCount(s, l);
    }
  }

  // ---- Main results, for every run of any number of tasks ----

  // The sink sees Connected, messages, Disconnected of one connection, then of the next: blocks
  // that never overlap, only the last of which may still be open.
  lemma {:induction false} TraceIsBracketed(labels: seq<Label>)
    ensures Bracketed(Run(labels).trace)
  {
    RunKeepsInv(labels);
    var s := Run(labels);
    assert s.trace == Flat(s.closed) + (if s.open.Some? then Opened(s.open.value) else []);
  }

  // At most one task is past the claim, and a task that is has heard, or will hear, the broadcast.
  lemma {:induction false} ControllerIsExclusive(labels: seq<Label>, t: TaskId, u: TaskId)
    requires var s := Run(labels); t in s.tasks && u in s.tasks && Holds(s.tasks[t]) && Holds(s.tasks[u])
    ensures t == u && Run(labels).claimed
  {
    RunKeepsInv(labels);
  }

  lemma {:induction false} NoConnectionMissesShutdown(labels: seq<Label>, t: TaskId)
    requires t in Run(labels).tasks && PastToken(Run(labels).tasks[t])
    ensures Run(labels).tasks[t].heard
  {
    RunKeepsInv(labels);
  }

  lemma ExitedIsFinal(s: Server, l: Label)
    requires s.thread.Exited? && Live(s.tasks) == {}
    ensures Step(s, l) == s
  {
    forall t
      ensures At(s, t).Gone?
    {
      assert t !in Live(s.tasks);
    }
  }

  lemma OpenIsLive(s: Server)
    requires TraceInv(s)
    ensures s.open.Some? ==> s.open.value.id in Live(s.tasks)
  {
  }

  lemma ExitedIsComplete(s: Server)
    requires TraceInv(s) && CountInv(s) && s.thread.Exited?
    ensures Live(s.tasks) == {} && Complete(s.trace)
  {
    hide Flat, Opened;
    OpenIsLive(s);
  }

  // Once the server thread has exited no task is left, every block is closed, and nothing can
  // ever be published again.
  lemma {:induction false} NothingOutlivesShutdown(labels: seq<Label>, more: seq<Label>)
    requires Run(labels).thread.Exited?
    ensures Live(Run(labels).tasks) == {} && Complete(Run(labels).trace)
    ensures Run(labels + more) == Run(labels)
  {
    RunKeepsInv(labels);
    ExitedIsComplete(Run(labels));
    hide Step, Live, Complete, Inv;
    if more == [] {
      assert labels + more == labels;
    } else {
      var init, l := more[..|more| - 1], more[|more| - 1];
      NothingOutlivesShutdown(labels, init);
      assert (labels + more)[..|labels + more| - 1] == labels + init;
      ExitedIsFinal(Run(labels), l);
    }
  }

  // ---- The trace as the runtime's publisher sees it ----

  // What one step of the runtime's publishing side announces.
  function AnnouncedBy(s: System, l: Generations.Label): seq<ControllerEvent> {
    match l
    case BeginBlock(id, _) => if s.publisher == Between then [Connected(id)] else []
    case PublishMessage(message) =>
      if s.publisher.Within? && !s.publisher.failed then [Message(s.publisher.id, message)] else []
    case EndBlock => if s.publisher.Within? then [Disconnected(s.publisher.id)] else []
    case _ => []
  }

  function Announced(labels: seq<Generations.Label>): seq<ControllerEvent> {
    if labels == [] then []
    else Announced(labels[..|labels| - 1])
         + AnnouncedBy(Generations.Run(Generations.Init(), labels[..|labels| - 1]), labels[|labels| - 1])
  }

  function Reached(labels: seq<Generations.Label>): System {
    Generations.Run(Generations.Init(), labels)
  }

  lemma OneMoreLabel(labels: seq<Generations.Label>, l: Generations.Label) returns (more: seq<Generations.Label>)
    ensures Reached(more) == Generations.Step(Reached(labels), l)
    ensures Announced(more) == Announced(labels) + AnnouncedBy(Reached(labels), l)
  {
    more := labels + [l];
    assert more[..|more| - 1] == labels;
  }

  // The worker waits at the top of its loop with nothing queued, and the publisher with nothing failed.
  predicate Rests(s: System, inside: Option<ConnectionId>) {
    s.phase == AtTop && s.queue == [] && s.publisher == Resting(inside, false)
  }

  predicate Fits(event: ControllerEvent, inside: Option<ConnectionId>) {
    if event.Connected? then inside.None? else inside == Some(event.id)
  }

  function After(event: ControllerEvent): Option<ConnectionId> {
    if event.Disconnected? then None else Some(event.id)
  }

  function LabelOf(event: ControllerEvent): Generations.Label {
    match event
    case Connected(id) => BeginBlock(id, true)
    case Message(_, message) => PublishMessage(message)
    case Disconnected(_) => EndBlock
  }

  // An event is announced, queued if it has a command, and handled by the worker.
  lemma {:induction false} Announce(labels: seq<Generations.Label>, event: ControllerEvent,
                                    inside: Option<ConnectionId>) returns (more: seq<Generations.Label>)
    requires Rests(Reached(labels), inside) && Fits(event, inside)
    ensures Announced(more) == Announced(labels) + [event] && Rests(Reached(more), After(event))
  {
    hide Reached, Drained, Handled, Prepared, Announced;
    more := OneMoreLabel(labels, LabelOf(event));
    more := OneMoreLabel(more, Admit);
    more := OneMoreLabel(more, DrainAtTop);
    more := OneMoreLabel(more, Receive);
    more := OneMoreLabel(more, DrainReceived);
    more := OneMoreLabel(more, Handle);
    more := OneMoreLabel(more, TimeOut);
  }

  lemma {:induction false} AnnounceOpened(labels: seq<Generations.Label>, b: Block)
    returns (more: seq<Generations.Label>)
    requires Rests(Reached(labels), None)
    ensures Announced(more) == Announced(labels) + Opened(b) && Rests(Reached(more), Some(b.id))
    decreases |b.messages|
  {
    hide Rests, Reached, Announced;
    if b.messages == [] {
      more := Announce(labels, Connected(b.id), None);
    } else {
      var init, last := b.(messages := b.messages[..|b.messages| - 1]), b.messages[|b.messages| - 1];
      more := AnnounceOpened(labels, init);
      more := Announce(more, Message(b.id, last), Some(b.id));
      assert init.messages + [last] == b.messages;
      OpenedAppend(init, last);
    }
  }

  lemma {:induction false} AnnounceBlocks(blocks: seq<Block>) returns (labels: seq<Generations.Label>)
    ensures Announced(labels) == Flat(blocks) && Rests(Reached(labels), None)
  {
    if blocks == [] {
      labels := [];
    } else {
      hide Rests, Reached, Announced, Opened;
      var last := blocks[|blocks| - 1];
      labels := AnnounceBlocks(blocks[..|blocks| - 1]);
      labels := AnnounceOpened(labels, last);
      labels := Announce(labels, Disconnected(last.id), Some(last.id));
    }
  }

  // Whatever the tasks put on the sink, some run of the runtime announces exactly that: the runtime's
  // publisher stands for every server.
  lemma {:induction false} TraceIsAnnounced(labels: seq<Label>) returns (announcing: seq<Generations.Label>)
    ensures Announced(announcing) == Run(labels).trace
  {
    RunKeepsInv(labels);
    var s := Run(labels);
    hide Rests, Reached, Announced, Opened, Flat;
    announcing := AnnounceBlocks(s.closed);
    if s.open.Some? {
      announcing := AnnounceOpened(announcing, s.open.value);
    }
  }
}
