// apps/desktop/src-tauri/src/remote/manager.rs: starting and ending the controller server,
// subscribing, and the server's events, interleaved at every lock. Threads are numbered; one
// step runs a thread from one lock to the next.
module SessionManager {
  import opened Words

  const MAX_LATENCY_SAMPLES := 128

  type ThreadId = nat
  type ServerId = nat
  type ControllerId = s: string | |s| > 0 witness "c"

  datatype Phase = Off | Waiting | Connected | Error
  datatype Fault = ServerFault | RuntimeFault
  datatype Pairing = Pairing(url: string, expires: nat)

  datatype Snapshot = Snapshot(phase: Phase, url: Option<string>, expires: Option<nat>,
                               controller: Option<ControllerId>, samples: Option<nat>, error: Option<Fault>)
  {
    // apps/desktop/src/features/remote-controller/remote-types.ts: what the frontend parses.
    predicate Fits() {
      match phase
      case Off => url.None? && expires.None? && controller.None? && samples.None? && error.None?
      case Waiting => url.Some? && expires.Some? && controller.None? && error.None?
      case Connected => url.Some? && expires.Some? && controller.Some? && error.None?
      case Error => url.None? && expires.None? && controller.None? && error.Some?
    }
  }

  datatype Model = Model(phase: Phase, url: Option<string>, expires: Option<nat>, controller: Option<ControllerId>,
                         latencies: seq<nat>, error: Option<Fault>)
  {
    function View(): Snapshot {
      Snapshot(phase, url, expires, controller, if latencies == [] then None else Some(|latencies|), error)
    }

    function WaitForController(p: Pairing): Model {
      Model(Waiting, Some(p.url), Some(p.expires), None, [], None)
    }

    function Connect(id: ControllerId): Option<Model> {
      if phase == Waiting then Some(this.(phase := Connected, controller := Some(id))) else None
    }

    function Disconnect(serverActive: bool): Option<Model> {
      if phase == Error then None
      else if serverActive then Some(this.(phase := Waiting, controller := None))
      else Some(TurnOff())
    }

    function RecordLatency(latency: nat): Model {
      var kept := if |latencies| == MAX_LATENCY_SAMPLES then latencies[1..] else latencies;
      this.(latencies := kept + [latency])
    }

    function TurnOff(): Model {
      NEW_MODEL
    }

    function Fail(error: Fault): Model {
      Model(Error, None, None, None, latencies, Some(error))
    }
  }

  const NEW_MODEL := Model(Off, None, None, None, [], None)

  datatype Operation = Idle | Starting(epoch: nat) | Ending(epoch: nat)

  type Busy = op: Operation | op != Idle witness Starting(0)

  datatype Delivery = Delivery(revision: nat, snapshot: Snapshot, observer: Option<nat>)

  datatype Kind = Open | Input | Close

  datatype Event = OpenEvent(id: ControllerId) | InputEvent(latency: nat) | CloseEvent

  // What a thread does after it has published.
  datatype After = Completing(op: Busy) | Answering(kind: Kind, ok: bool) | Returning

  datatype Pc =
    | Finished
    // start
    | StartCalled
    | StopsStale(epoch: nat, stale: ServerId)
    | Creates(epoch: nat)
    | Installs(epoch: nat, server: ServerId, pairing: Pairing)
    | Announces(epoch: nat, pairing: Pairing)
    | FailsStart(epoch: nat, error: Fault)
    // end
    | EndCalled
    | StopsServer(epoch: nat, held: Option<ServerId>)
    | TurnsOff(epoch: nat)
    | FailsEnd(epoch: nat, error: Fault)
    // both
    | Completes(op: Busy)
    | SubscribeCalled(observer: nat)
    | Publishes(delivery: Delivery, after: After)
    // handle_controller_event
    | ChecksPhase(id: ControllerId)
    | AppliesConnected(id: ControllerId)
    | Connects(id: ControllerId)
    | AppliesMessage(latency: nat)
    | Records(latency: nat)
    | AppliesDisconnected
    | ReadsServer
    | Disconnects(serverActive: bool)
    | MarksRestart(kind: Kind)
    | FailsRuntime(kind: Kind)
    | Answers(kind: Kind, ok: bool)

  // What the server may publish next: nothing is open, a connection is open, or it is open but
  // an event was refused, so that only its end can follow.
  datatype Line = Quiet | Live | Doomed

  datatype Manager = Manager(
    threads: map<ThreadId, Pc>,
    operation: Operation, epoch: nat, server: Option<ServerId>, restartRequired: bool,
    model: Model, observer: Option<nat>, revision: nat,
    lastRevision: nat, delivered: seq<Delivery>,
    running: set<ServerId>,    // servers created and not yet shut down
    unstopped: set<ServerId>,  // servers whose shutdown reported a failure
    created: nat,
    announced: bool,           // the running server's pairing has been handed out
    line: Line, eventThread: Option<ThreadId>, // the running server's side
    // bookkeeping for the statements
    holder: Option<ThreadId>,  // the thread inside a lifecycle operation
    history: seq<Snapshot>,    // the snapshot of every revision
    newest: nat)               // the newest revision made into a delivery

  datatype Label =
    | CallStart(t: ThreadId)
    | CallEnd(t: ThreadId)
    | CallSubscribe(t: ThreadId, observer: nat)
    | Emit(t: ThreadId, event: Event)
    | Advance(t: ThreadId, ok: bool, pairing: Pairing)

  function Init(): Manager {
    Manager(map[], Idle, 0, None, false, NEW_MODEL, None, 0, 0, [], {}, {}, 0, false, Quiet, None, None,
            [NEW_MODEL.View()], 0)
  }

  function At(s: Manager, t: ThreadId): Pc {
    if t in s.threads then s.threads[t] else Finished
  }

  function Move(s: Manager, t: ThreadId, pc: Pc): Manager {
    s.(threads := s.threads[t := pc])
  }

  // update_model: the new model, its revision and the delivery made of it.
  function Revised(s: Manager, model: Model): Manager {
    s.(model := model, revision := s.revision + 1, history := s.history + [model.View()])
  }

  function Deliver(s: Manager, t: ThreadId, model: Model, after: After): Manager {
    var r := Revised(s, model);
    Move(r, t, Publishes(Delivery(r.revision, model.View(), r.observer), after)).(newest := r.revision)
  }

  function TakeStart(s: Manager, t: ThreadId): Manager {
    if s.operation != Idle || (s.server.Some? && !s.restartRequired) then Move(s, t, Finished)
    else
      var epoch := s.epoch + 1;
      var next := if s.server.Some? then StopsStale(epoch, s.server.value) else Creates(epoch);
      Move(s, t, next).(epoch := epoch, operation := Starting(epoch), restartRequired := false, server := None,
          holder := Some(t))
  }

  function TakeEnd(s: Manager, t: ThreadId): Manager {
    if s.operation != Idle then s // waits to be notified
    else
      var epoch := s.epoch + 1;
      Move(s, t, StopsServer(epoch, s.server)).(epoch := epoch, operation := Ending(epoch), server := None,
          holder := Some(t))
  }

  // shutdown() returns only when the server has nothing left to publish.
  function Stop(s: Manager, t: ThreadId, server: ServerId, ok: bool, stopped: Pc, failed: Pc): Manager {
    if s.line != Quiet || s.eventThread.Some? then s
    else
      var r := s.(running := s.running - {server}, announced := false);
      if ok then Move(r, t, stopped) else Move(r, t, failed).(unstopped := s.unstopped + {server})
  }

  function Create(s: Manager, t: ThreadId, epoch: nat, ok: bool, pairing: Pairing): Manager {
    if ok then Move(s, t, Installs(epoch, s.created, pairing)).(running := s.running + {s.created},
        created := s.created + 1)
    else Move(s, t, FailsStart(epoch, ServerFault))
  }

  function Install(s: Manager, t: ThreadId, epoch: nat, server: ServerId, pairing: Pairing): Manager {
    if s.operation != Starting(epoch) then Move(s, t, Finished) // superseded
    else Move(s, t, Announces(epoch, pairing)).(server := Some(server), restartRequired := false)
  }

  function Complete(s: Manager, t: ThreadId, op: Busy): Manager {
    var r := Move(s, t, Finished).(holder := None);
    if s.epoch == op.epoch && s.operation == op then r.(operation := Idle) else r
  }

  function NextPc(after: After): Pc {
    match after
    case Completing(op) => Completes(op)
    case Answering(kind, ok) => Answers(kind, ok)
    case Returning => Finished
  }

  function PublishOrdered(s: Manager, t: ThreadId, d: Delivery, after: After): Manager {
    var r := Move(s, t, NextPc(after));
    if d.revision <= s.lastRevision then r
    else if d.observer.None? then r.(lastRevision := d.revision)
    else r.(lastRevision := d.revision, delivered := s.delivered + [d])
  }

  function Answer(s: Manager, t: ThreadId, kind: Kind, ok: bool): Manager {
    Move(s, t, Finished).(eventThread := None, line := if kind == Close then Quiet else if ok then Live else Doomed)
  }

  // The server publishes one event at a time, in blocks of an open, inputs while they are
  // accepted, and a close; and only once its pairing has been handed out.
  predicate MayEmit(s: Manager, event: Event) {
    && s.announced && s.eventThread.None?
    && match event
       case OpenEvent(_) => s.line == Quiet
       case InputEvent(_) => s.line == Live
       case CloseEvent => s.line != Quiet
  }

  function FirstStep(event: Event): Pc {
    match event
    case OpenEvent(id) => ChecksPhase(id)
    case InputEvent(latency) => AppliesMessage(latency)
    case CloseEvent => AppliesDisconnected
  }

  function LifecycleStep(s: Manager, t: ThreadId, ok: bool, pairing: Pairing): Manager {
    match At(s, t)
    case StartCalled => TakeStart(s, t)
    case EndCalled => TakeEnd(s, t)
    case StopsStale(epoch, stale) => Stop(s, t, stale, ok, Creates(epoch), FailsStart(epoch, ServerFault))
    case Creates(epoch) => Create(s, t, epoch, ok, pairing)
    case Installs(epoch, server, p) => Install(s, t, epoch, server, p)
    case Announces(epoch, p) => Deliver(s, t, s.model.WaitForController(p),
        Completing(Starting(epoch))).(announced := true)
    case FailsStart(epoch, error) => Deliver(s, t, s.model.Fail(error), Completing(Starting(epoch)))
    case StopsServer(epoch, server) =>
      if server.None? then Move(s, t, TurnsOff(epoch))
      else Stop(s, t, server.value, ok, TurnsOff(epoch), FailsEnd(epoch, ServerFault))
    case TurnsOff(epoch) => Deliver(s, t, s.model.TurnOff(), Completing(Ending(epoch)))
    case FailsEnd(epoch, error) => Deliver(s, t, s.model.Fail(error), Completing(Ending(epoch)))
    case Completes(op) => Complete(s, t, op)
    case SubscribeCalled(observer) => Deliver(s.(observer := Some(observer)), t, s.model, Returning)
    case _ => s
  }

  function EventStep(s: Manager, t: ThreadId, ok: bool): Manager {
    match At(s, t)
    case ChecksPhase(id) => Move(s, t, if s.model.phase == Error then Answers(Open, false) else AppliesConnected(id))
    case AppliesConnected(id) => Move(s, t, if ok then Connects(id) else MarksRestart(Open))
    case Connects(id) =>
      if s.model.Connect(id).Some? then Deliver(s, t, s.model.Connect(id).value, Answering(Open, true))
      else Move(s, t, Answers(Open, false))
    case AppliesMessage(latency) => Move(s, t, if ok then Records(latency) else MarksRestart(Input))
    case Records(latency) => Move(Revised(s, s.model.RecordLatency(latency)), t, Answers(Input, true))
    case AppliesDisconnected => Move(s, t, if ok then ReadsServer else MarksRestart(Close))
    case ReadsServer => Move(s, t, Disconnects(s.server.Some?))
    case Disconnects(active) =>
      if s.model.Disconnect(active).Some? then Deliver(s, t, s.model.Disconnect(active).value, Answering(Close, true))
      else Move(s, t, Answers(Close, true))
    case MarksRestart(kind) => Move(s, t, FailsRuntime(kind)).(restartRequired := s.server.Some?)
    case FailsRuntime(kind) => Deliver(s, t, s.model.Fail(RuntimeFault), Answering(kind, false))
    case Answers(kind, done) => Answer(s, t, kind, done)
    case _ => s
  }

  function Step(s: Manager, l: Label): Manager {
    match l
    case CallStart(t) => if At(s, t).Finished? then Move(s, t, StartCalled) else s
    case CallEnd(t) => if At(s, t).Finished? then Move(s, t, EndCalled) else s
    case CallSubscribe(t, observer) => if At(s, t).Finished? then Move(s, t, SubscribeCalled(observer)) else s
    case Emit(t, event) =>
      if At(s, t).Finished? && MayEmit(s, event) then Move(s, t, FirstStep(event)).(eventThread := Some(t)) else s
    case Advance(t, ok, pairing) =>
      if At(s, t).Publishes? then PublishOrdered(s, t, At(s, t).delivery, At(s, t).after)
      else if IsEvent(At(s, t)) then EventStep(s, t, ok)
      else LifecycleStep(s, t, ok, pairing)
  }

  function Run(labels: seq<Label>): Manager {
    if labels == [] then Init() else Step(Run(labels[..|labels| - 1]), labels[|labels| - 1])
  }

  // ---- Invariant ----

  // The lifecycle operation a thread is in the middle of.
  function Section(pc: Pc): Operation {
    match pc
    case StopsStale(e, _) => Starting(e)
    case Creates(e) => Starting(e)
    case Installs(e, _, _) => Starting(e)
    case Announces(e, _) => Starting(e)
    case FailsStart(e, _) => Starting(e)
    case StopsServer(e, _) => Ending(e)
    case TurnsOff(e) => Ending(e)
    case FailsEnd(e, _) => Ending(e)
    case Completes(op) => op
    case Publishes(_, Completing(op)) => op
    case _ => Idle
  }

  predicate IsEvent(pc: Pc) {
    || pc.ChecksPhase? || pc.AppliesConnected? || pc.Connects? || pc.AppliesMessage? || pc.Records?
    || pc.AppliesDisconnected? || pc.ReadsServer? || pc.Disconnects? || pc.MarksRestart? || pc.FailsRuntime?
    || pc.Answers? || (pc.Publishes? && pc.after.Answering?)
  }

  // One thread at a time is inside start or end, and one inside an event.
  ghost predicate Exclusion(s: Manager) {
    && (forall t: ThreadId :: Section(At(s, t)) != Idle ==> s.holder == Some(t))
    && (forall t: ThreadId :: IsEvent(At(s, t)) ==> s.eventThread == Some(t))
    && (s.holder.Some? ==> Section(At(s, s.holder.value)) != Idle)
    && (s.eventThread.Some? ==> IsEvent(At(s, s.eventThread.value)))
    && s.operation == (if s.holder.None? then Idle else Section(At(s, s.holder.value)))
    && (s.operation != Idle ==> s.operation.epoch == s.epoch)
  }

  function AsSet(server: Option<ServerId>): set<ServerId> {
    if server.None? then {} else {server.value}
  }

  function HolderPc(s: Manager): Pc {
    if s.holder.None? then Finished else At(s, s.holder.value)
  }

  function EventPc(s: Manager): Pc {
    if s.eventThread.None? then Finished else At(s, s.eventThread.value)
  }

  // The server a lifecycle operation has taken out of the state, or not yet put into it.
  function Held(pc: Pc): Option<ServerId> {
    match pc
    case StopsStale(_, stale) => Some(stale)
    case Installs(_, server, _) => Some(server)
    case StopsServer(_, server) => server
    case _ => None
  }

  // Every running server is in the state or in the hands of the operation in progress.
  ghost predicate Custody(s: Manager) {
    var pc := HolderPc(s);
    && (s.server.None? || Held(pc).None?)
    && s.running == AsSet(if s.server.Some? then s.server else Held(pc))
    && (pc.StopsStale? || pc.Creates? || pc.Installs? || pc.FailsStart? || pc.StopsServer? || pc.TurnsOff?
        || pc.FailsEnd?
        ==> s.server.None?)
    && (pc.Announces? ==> s.server.Some?)
    && (s.announced ==> s.running != {} && !pc.Installs? && !pc.Announces?)
    && (s.server.Some? && !pc.Announces? ==> s.announced)
    && (s.line != Quiet || s.eventThread.Some? ==> s.announced)
    && (forall x :: x in s.running ==> x < s.created)
    && forall x :: x in s.unstopped ==> x < s.created
  }

  // The model has the shape of its phase, whatever event is in progress.
  ghost predicate Phases(s: Manager) {
    var e := EventPc(s);
    && s.model.View().Fits()
    && |s.model.latencies| <= MAX_LATENCY_SAMPLES
    && (s.server.Some? && !HolderPc(s).Announces? ==> s.model.phase != Off)
    && (s.line == Live && (s.eventThread.None? || e.AppliesMessage? || e.Records?) ==> s.model.phase == Connected)
    && (e.AppliesMessage? || e.Records? ==> s.line == Live)
    && (e == Disconnects(true) ==> s.model.phase != Off)
    && (e == Disconnects(false) ==> s.server.None?)
    && (e.Answers? && e.ok && e.kind != Close ==> s.model.phase == Connected)
    && (e.Publishes? && e.after.Answering? && e.after.ok && e.after.kind != Close ==> s.model.phase == Connected)
    && (e.Connects? || e.ChecksPhase? || e.AppliesConnected? ==> s.line == Quiet)
  }

  ghost predicate Increasing(ds: seq<Delivery>) {
    forall i, j :: 0 <= i < j < |ds| ==> ds[i].revision < ds[j].revision
  }

  predicate Recorded(d: Delivery, history: seq<Snapshot>) {
    d.revision < |history| && d.snapshot == history[d.revision]
  }

  // Deliveries are true to the history, and the newest is delivered or on its way.
  ghost predicate Delivering(s: Manager) {
    && |s.history| == s.revision + 1 && s.history[s.revision] == s.model.View()
    && (forall i :: 0 <= i < |s.history| ==> s.history[i].Fits())
    && (forall i :: 0 <= i < |s.delivered| ==>
        Recorded(s.delivered[i], s.history)
        && s.delivered[i].revision <= s.lastRevision)
    && Increasing(s.delivered)
    && (forall t: ThreadId :: At(s, t).Publishes? ==>
        Recorded(At(s, t).delivery, s.history)
        && At(s, t).delivery.revision <= s.newest)
    && s.lastRevision <= s.newest <= s.revision
    && (s.lastRevision == s.newest
        || exists t: ThreadId :: At(s, t).Publishes? && At(s, t).delivery.revision == s.newest)
  }

  ghost predicate Inv(s: Manager) {
    Exclusion(s) && Custody(s) && Phases(s) && Delivering(s)
  }

  // ---- Every step keeps it ----

  lemma InitHolds()
    ensures Inv(Init())
  {
  }

  // A thread moves on inside the operation or the event it is in.
  lemma MovesWithin(s: Manager, r: Manager, t: ThreadId, pc: Pc)
    requires Exclusion(s) && r.threads == s.threads[t := pc]
    requires Section(pc) == Section(At(s, t)) && IsEvent(pc) == IsEvent(At(s, t))
    requires r.holder == s.holder && r.eventThread == s.eventThread && r.operation == s.operation && r.epoch == s.epoch
    ensures Exclusion(r)
    ensures if Section(pc) == Idle then HolderPc(r) == HolderPc(s) else HolderPc(s) == At(s, t) && HolderPc(r) == pc
    ensures if IsEvent(pc) then EventPc(s) == At(s, t) && EventPc(r) == pc else EventPc(r) == EventPc(s)
    ensures Section(pc) != Idle ==> s.operation == Section(pc) && s.operation.epoch == s.epoch
  {
    hide Section, IsEvent;
  }

  lemma EntersOperation(s: Manager, r: Manager, t: ThreadId, pc: Pc)
    requires Exclusion(s) && r.threads == s.threads[t := pc]
    requires s.operation == Idle && Section(pc) == r.operation && r.operation != Idle && r.operation.epoch == r.epoch
    requires !IsEvent(At(s, t)) && !IsEvent(pc)
    requires r.holder == Some(t) && r.eventThread == s.eventThread
    ensures Exclusion(r) && HolderPc(r) == pc && EventPc(r) == EventPc(s) && HolderPc(s) == Finished
  {
  }

  lemma LeavesOperation(s: Manager, r: Manager, t: ThreadId)
    requires Exclusion(s) && r.threads == s.threads[t := Finished]
    requires Section(At(s, t)) != Idle && !IsEvent(At(s, t))
    requires r.holder == None && r.operation == Idle && r.eventThread == s.eventThread
    ensures Exclusion(r) && HolderPc(r) == Finished && EventPc(r) == EventPc(s) && HolderPc(s) == At(s, t)
    ensures s.operation == Section(At(s, t)) && s.operation.epoch == s.epoch
  {
  }

  lemma EntersEvent(s: Manager, r: Manager, t: ThreadId, pc: Pc)
    requires Exclusion(s) && r.threads == s.threads[t := pc]
    requires s.eventThread == None && r.eventThread == Some(t) && IsEvent(pc)
    requires Section(At(s, t)) == Section(pc) == Idle
    requires r.holder == s.holder && r.operation == s.operation && r.epoch == s.epoch
    ensures Exclusion(r) && EventPc(r) == pc && HolderPc(r) == HolderPc(s)
  {
  }

  lemma LeavesEvent(s: Manager, r: Manager, t: ThreadId)
    requires Exclusion(s) && r.threads == s.threads[t := Finished]
    requires IsEvent(At(s, t)) && Section(At(s, t)) == Idle && r.eventThread == None
    requires r.holder == s.holder && r.operation == s.operation && r.epoch == s.epoch
    ensures Exclusion(r) && EventPc(r) == Finished && HolderPc(r) == HolderPc(s) && EventPc(s) == At(s, t)
  {
  }

  // ---- Deliveries ----

  predicate SameDeliveries(s: Manager, r: Manager) {
    && r.model == s.model && r.revision == s.revision && r.history == s.history
    && r.lastRevision == s.lastRevision && r.delivered == s.delivered && r.newest == s.newest
  }

  lemma DeliveringAfterMove(s: Manager, r: Manager, t: ThreadId, pc: Pc)
    requires Delivering(s) && r.threads == s.threads[t := pc] && SameDeliveries(s, r)
    requires !pc.Publishes? && !At(s, t).Publishes?
    ensures Delivering(r)
  {
    assert forall u: ThreadId :: At(r, u) == if u == t then pc else At(s, u);
  }

  lemma RecordedLater(d: Delivery, history: seq<Snapshot>, next: Snapshot)
    requires Recorded(d, history)
    ensures Recorded(d, history + [next])
  {
  }

  // A revised model is the newest snapshot of the history.
  lemma DeliveringAfterRevision(s: Manager, r: Manager, t: ThreadId, pc: Pc, model: Model)
    requires Delivering(s) && model.View().Fits() && r.threads == s.threads[t := pc] && !At(s, t).Publishes?
    requires r.model == model && r.revision == s.revision + 1 && r.history == s.history + [model.View()]
    requires r.lastRevision == s.lastRevision && r.delivered == s.delivered
    requires if pc.Publishes? then pc.delivery.revision == r.revision == r.newest
             && pc.delivery.snapshot == model.View()
             else r.newest == s.newest
    ensures Delivering(r)
  {
    forall i | 0 <= i < |r.delivered| ensures Recorded(r.delivered[i], r.history) {
      RecordedLater(r.delivered[i], s.history, model.View());
    }
    forall u: ThreadId | At(r, u).Publishes?
      ensures Recorded(At(r, u).delivery, r.history) && At(r, u).delivery.revision <= r.newest
    {
      if u != t {
        RecordedLater(At(s, u).delivery, s.history, model.View());
      }
    }
    if pc.Publishes? {
      assert At(r, t).Publishes? && At(r, t).delivery.revision == r.newest;
    } else if s.lastRevision != s.newest {
      var u: ThreadId :| At(s, u).Publishes? && At(s, u).delivery.revision == s.newest;
      assert At(r, u) == At(s, u);
    }
  }

  // A snapshot no observer subscribed for is received by none.
  function Received(s: Manager, d: Delivery): seq<Delivery> {
    if d.observer.None? then s.delivered else s.delivered + [d]
  }

  // Publishing keeps the order: what is not newer than the last delivery is dropped.
  lemma DeliveringAfterPublish(s: Manager, r: Manager, t: ThreadId, d: Delivery, pc: Pc)
    requires Delivering(s) && At(s, t).Publishes? && At(s, t).delivery == d && !pc.Publishes?
    requires r.threads == s.threads[t := pc]
    requires r.model == s.model && r.revision == s.revision && r.history == s.history && r.newest == s.newest
    requires if d.revision <= s.lastRevision
             then r.lastRevision == s.lastRevision && r.delivered == s.delivered
             else r.lastRevision == d.revision && r.delivered == Received(s, d)
    ensures Delivering(r)
  {
    assert forall u: ThreadId :: At(r, u) == if u == t then pc else At(s, u);
    if r.lastRevision != s.newest {
      var u: ThreadId :| At(s, u).Publishes? && At(s, u).delivery.revision == s.newest;
      assert At(r, u) == At(s, u);
    }
  }

  // ---- Steps ----

  lemma CallKeepsInv(s: Manager, t: ThreadId, pc: Pc)
    requires Inv(s) && At(s, t).Finished?
    requires pc.StartCalled? || pc.EndCalled? || pc.SubscribeCalled?
    ensures Inv(Move(s, t, pc))
  {
    hide Exclusion, Delivering, HolderPc, EventPc, Snapshot.Fits, Model.View;
    var r := Move(s, t, pc);
    MovesWithin(s, r, t, pc);
    DeliveringAfterMove(s, r, t, pc);
  }

  lemma EmitKeepsInv(s: Manager, t: ThreadId, event: Event)
    requires Inv(s) && At(s, t).Finished? && MayEmit(s, event)
    ensures Inv(Move(s, t, FirstStep(event)).(eventThread := Some(t)))
  {
    hide Exclusion, Delivering, HolderPc, EventPc, Snapshot.Fits, Model.View;
    var r := Move(s, t, FirstStep(event)).(eventThread := Some(t));
    EntersEvent(s, r, t, FirstStep(event));
    DeliveringAfterMove(s, r, t, FirstStep(event));
  }

  lemma TakeStartKeepsInv(s: Manager, t: ThreadId)
    requires Inv(s) && At(s, t).StartCalled?
    ensures Inv(TakeStart(s, t))
  {
    hide Exclusion, Delivering, HolderPc, EventPc, Snapshot.Fits, Model.View;
    var r := TakeStart(s, t);
    DeliveringAfterMove(s, r, t, At(r, t));
    if r.operation == s.operation && r.epoch == s.epoch {
      MovesWithin(s, r, t, Finished);
    } else {
      EntersOperation(s, r, t, At(r, t));
    }
  }

  lemma TakeEndKeepsInv(s: Manager, t: ThreadId)
    requires Inv(s) && At(s, t).EndCalled?
    ensures Inv(TakeEnd(s, t))
  {
    hide Exclusion, Delivering, HolderPc, EventPc, Snapshot.Fits, Model.View;
    if s.operation == Idle {
      var r := TakeEnd(s, t);
      DeliveringAfterMove(s, r, t, At(r, t));
      EntersOperation(s, r, t, At(r, t));
    }
  }

  // The thread of an operation is its holder, so what it knows is what the state says.
  lemma HoldsOperation(s: Manager, t: ThreadId)
    requires Exclusion(s) && Section(At(s, t)) != Idle
    ensures HolderPc(s) == At(s, t) && s.holder == Some(t) && s.operation == Section(At(s, t))
            && s.operation.epoch == s.epoch
  {
  }

  lemma NoEvent(s: Manager)
    ensures s.eventThread.None? ==> EventPc(s) == Finished
  {
  }

  lemma HoldsEvent(s: Manager, t: ThreadId)
    requires Exclusion(s) && IsEvent(At(s, t))
    ensures EventPc(s) == At(s, t) && s.eventThread == Some(t)
  {
  }

  lemma StopStaleKeepsInv(s: Manager, t: ThreadId, ok: bool)
    requires Inv(s) && At(s, t).StopsStale?
    ensures var pc := At(s, t); Inv(Stop(s, t, pc.stale, ok, Creates(pc.epoch), FailsStart(pc.epoch, ServerFault)))
  {
    hide Exclusion, Delivering, HolderPc, EventPc, Snapshot.Fits, Model.View;
    HoldsOperation(s, t);
    var pc := At(s, t);
    var r := Stop(s, t, pc.stale, ok, Creates(pc.epoch), FailsStart(pc.epoch, ServerFault));
    if s.line == Quiet && s.eventThread.None? {
      assert s.running == {pc.stale} && r.running == {};
      MovesWithin(s, r, t, At(r, t));
      DeliveringAfterMove(s, r, t, At(r, t));
      hide Section, IsEvent;
    }
  }

  lemma StopServerKeepsInv(s: Manager, t: ThreadId, ok: bool)
    requires Inv(s) && At(s, t).StopsServer? && At(s, t).held.Some?
    ensures var pc := At(s, t); Inv(Stop(s, t, pc.held.value, ok, TurnsOff(pc.epoch), FailsEnd(pc.epoch, ServerFault)))
  {
    hide Exclusion, Delivering, HolderPc, EventPc, Snapshot.Fits, Model.View;
    HoldsOperation(s, t);
    var pc := At(s, t);
    var r := Stop(s, t, pc.held.value, ok, TurnsOff(pc.epoch), FailsEnd(pc.epoch, ServerFault));
    if s.line == Quiet && s.eventThread.None? {
      assert s.running == {pc.held.value} && r.running == {};
      MovesWithin(s, r, t, At(r, t));
      DeliveringAfterMove(s, r, t, At(r, t));
      hide Section, IsEvent;
    }
  }

  lemma NothingToStopKeepsInv(s: Manager, t: ThreadId)
    requires Inv(s) && At(s, t).StopsServer? && At(s, t).held.None?
    ensures Inv(Move(s, t, TurnsOff(At(s, t).epoch)))
  {
    hide Exclusion, Delivering, HolderPc, EventPc, Snapshot.Fits, Model.View;
    HoldsOperation(s, t);
    var r := Move(s, t, TurnsOff(At(s, t).epoch));
    MovesWithin(s, r, t, At(r, t));
    DeliveringAfterMove(s, r, t, At(r, t));
  }

  lemma CreateKeepsInv(s: Manager, t: ThreadId, ok: bool, pairing: Pairing)
    requires Inv(s) && At(s, t).Creates?
    ensures Inv(Create(s, t, At(s, t).epoch, ok, pairing))
  {
    hide Exclusion, Delivering, HolderPc, EventPc, Snapshot.Fits, Model.View;
    HoldsOperation(s, t);
    var r := Create(s, t, At(s, t).epoch, ok, pairing);
    assert s.running == {} && (ok ==> r.running == {s.created});
    MovesWithin(s, r, t, At(r, t));
    DeliveringAfterMove(s, r, t, At(r, t));
  }

  // The operation a start is finishing is always still its own: it is never superseded.
  lemma InstallKeepsInv(s: Manager, t: ThreadId)
    requires Inv(s) && At(s, t).Installs?
    ensures s.operation == Starting(At(s, t).epoch)
    ensures Inv(Install(s, t, At(s, t).epoch, At(s, t).server, At(s, t).pairing))
  {
    hide Exclusion, Delivering, HolderPc, EventPc, Snapshot.Fits, Model.View;
    NoEvent(s);
    HoldsOperation(s, t);
    var r := Install(s, t, At(s, t).epoch, At(s, t).server, At(s, t).pairing);
    MovesWithin(s, r, t, At(r, t));
    DeliveringAfterMove(s, r, t, At(r, t));
  }

  lemma CompleteKeepsInv(s: Manager, t: ThreadId)
    requires Inv(s) && At(s, t).Completes?
    ensures Inv(Complete(s, t, At(s, t).op))
  {
    hide Exclusion, Delivering, HolderPc, EventPc, Snapshot.Fits, Model.View;
    HoldsOperation(s, t);
    var r := Complete(s, t, At(s, t).op);
    LeavesOperation(s, r, t);
    DeliveringAfterMove(s, r, t, Finished);
  }

  predicate SameServer(s: Manager, r: Manager) {
    && r.running == s.running && r.unstopped == s.unstopped && r.created == s.created && r.server == s.server
    && r.announced == s.announced && r.line == s.line && r.eventThread == s.eventThread
  }

  // A step outside the lifecycle, or one that only publishes, leaves the servers as they are.
  lemma CustodyCarries(s: Manager, r: Manager)
    requires Custody(s) && SameServer(s, r)
    requires HolderPc(r) == HolderPc(s) || (HolderPc(s).Publishes? && HolderPc(r).Completes?)
    ensures Custody(r)
  {
  }

  lemma PhasesCarry(s: Manager, r: Manager)
    requires Phases(s) && SameServer(s, r) && r.model == s.model
    requires HolderPc(r) == HolderPc(s) || (HolderPc(s).Publishes? && HolderPc(r).Completes?)
    requires || EventPc(r) == EventPc(s)
             || (EventPc(s).Publishes? && EventPc(s).after.Answering?
                 && EventPc(r) == Answers(EventPc(s).after.kind, EventPc(s).after.ok))
    ensures Phases(r)
  {
  }

  lemma PublishKeepsDelivering(s: Manager, t: ThreadId, d: Delivery, after: After)
    requires Delivering(s) && At(s, t) == Publishes(d, after)
    ensures Delivering(PublishOrdered(s, t, d, after))
  {
    hide Delivering;
    DeliveringAfterPublish(s, PublishOrdered(s, t, d, after), t, d, NextPc(after));
  }

  lemma PublishingIsWithin(d: Delivery, after: After)
    ensures Section(NextPc(after)) == Section(Publishes(d, after))
            && IsEvent(NextPc(after)) == IsEvent(Publishes(d, after))
    ensures Section(NextPc(after)) != Idle ==> NextPc(after).Completes?
    ensures IsEvent(NextPc(after)) ==> after.Answering? && NextPc(after) == Answers(after.kind, after.ok)
  {
  }

  lemma PublishKeepsInv(s: Manager, t: ThreadId)
    requires Inv(s) && At(s, t).Publishes?
    ensures Inv(PublishOrdered(s, t, At(s, t).delivery, At(s, t).after))
  {
    hide Exclusion, Custody, Phases, Delivering, HolderPc, EventPc, Snapshot.Fits, Model.View, Section, IsEvent;
    var d, after := At(s, t).delivery, At(s, t).after;
    var r := PublishOrdered(s, t, d, after);
    PublishKeepsDelivering(s, t, d, after);
    PublishingIsWithin(d, after);
    MovesWithin(s, r, t, NextPc(after));
    CustodyCarries(s, r);
    PhasesCarry(s, r);
  }

  // A step that changes the model: it must keep the shape of the phase.
  lemma DeliverKeepsDelivering(s: Manager, t: ThreadId, model: Model, after: After)
    requires Delivering(s) && model.View().Fits() && !At(s, t).Publishes?
    ensures Delivering(Deliver(s, t, model, after))
  {
    var r := Deliver(s, t, model, after);
    DeliveringAfterRevision(s, r, t, At(r, t), model);
  }

  lemma AnnounceKeepsInv(s: Manager, t: ThreadId)
    requires Inv(s) && At(s, t).Announces?
    ensures var pc := At(s, t);
            Inv(Deliver(s, t, s.model.WaitForController(pc.pairing),
                Completing(Starting(pc.epoch))).(announced := true))
  {
    hide Exclusion, Delivering, HolderPc, EventPc;
    NoEvent(s);
    HoldsOperation(s, t);
    var pc := At(s, t);
    var d := Deliver(s, t, s.model.WaitForController(pc.pairing), Completing(Starting(pc.epoch)));
    var r := d.(announced := true);
    DeliverKeepsDelivering(s, t, s.model.WaitForController(pc.pairing), Completing(Starting(pc.epoch)));
    assert Delivering(r) by {
      DeliveringIgnores(d, r);
    }
    MovesWithin(s, r, t, At(r, t));
    hide Section, IsEvent;
  }

  lemma DeliveringIgnores(s: Manager, r: Manager)
    requires Delivering(s) && SameDeliveries(s, r) && r.threads == s.threads
    ensures Delivering(r)
  {
    assert forall u: ThreadId :: At(r, u) == At(s, u);
  }

  // The other lifecycle steps that change the model run while no server does.
  lemma SettleKeepsInv(s: Manager, t: ThreadId, model: Model, op: Busy)
    requires Inv(s) && Section(At(s, t)) == op
    requires var pc := At(s, t);
             || (pc.FailsStart? && model == s.model.Fail(pc.error))
             || (pc.TurnsOff? && model == s.model.TurnOff())
             || (pc.FailsEnd? && model == s.model.Fail(pc.error))
    ensures Inv(Deliver(s, t, model, Completing(op)))
  {
    hide Exclusion, Delivering, HolderPc, EventPc;
    NoEvent(s);
    HoldsOperation(s, t);
    var r := Deliver(s, t, model, Completing(op));
    DeliverKeepsDelivering(s, t, model, Completing(op));
    MovesWithin(s, r, t, At(r, t));
  }

  lemma SubscribeKeepsInv(s: Manager, t: ThreadId)
    requires Inv(s) && At(s, t).SubscribeCalled?
    ensures Inv(Deliver(s.(observer := Some(At(s, t).observer)), t, s.model, Returning))
  {
    hide Exclusion, Delivering, HolderPc, EventPc, Snapshot.Fits, Model.View;
    var o := s.(observer := Some(At(s, t).observer));
    var r := Deliver(o, t, s.model, Returning);
    assert Delivering(o) by {
      DeliveringIgnores(s, o);
    }
    DeliverKeepsDelivering(o, t, s.model, Returning);
    MovesWithin(s, r, t, At(r, t));
  }

  lemma LifecycleStepKeepsInv(s: Manager, t: ThreadId, ok: bool, pairing: Pairing)
    requires Inv(s)
    ensures Inv(LifecycleStep(s, t, ok, pairing))
  {
    hide Inv, Deliver, Stop, Complete, Create, Install, TakeStart, TakeEnd;
    match At(s, t)
    case StartCalled => TakeStartKeepsInv(s, t);
    case EndCalled => TakeEndKeepsInv(s, t);
    case StopsStale(epoch, stale) => StopStaleKeepsInv(s, t, ok);
    case Creates(epoch) => CreateKeepsInv(s, t, ok, pairing);
    case Installs(epoch, server, p) => InstallKeepsInv(s, t);
    case Announces(epoch, p) => AnnounceKeepsInv(s, t);
    case FailsStart(epoch, error) => SettleKeepsInv(s, t, s.model.Fail(error), Starting(epoch));
    case StopsServer(epoch, server) =>
      if server.None? {
        NothingToStopKeepsInv(s, t);
      } else {
        StopServerKeepsInv(s, t, ok);
      }
    case TurnsOff(epoch) => SettleKeepsInv(s, t, s.model.TurnOff(), Ending(epoch));
    case FailsEnd(epoch, error) => SettleKeepsInv(s, t, s.model.Fail(error), Ending(epoch));
    case Completes(op) => CompleteKeepsInv(s, t);
    case SubscribeCalled(observer) => SubscribeKeepsInv(s, t);
    case _ =>
  }

  // A step of an event that leaves the model alone.
  lemma EventMoveKeepsInv(s: Manager, t: ThreadId, pc: Pc)
    requires Inv(s) && IsEvent(At(s, t)) && IsEvent(pc) && !At(s, t).Publishes? && !pc.Publishes?
    requires PhasesAllow(s, pc)
    ensures Inv(Move(s, t, pc))
  {
    hide Exclusion, Delivering, HolderPc, EventPc, Snapshot.Fits, Model.View;
    HoldsEvent(s, t);
    var r := Move(s, t, pc);
    assert Section(pc) == Idle == Section(At(s, t));
    MovesWithin(s, r, t, pc);
    DeliveringAfterMove(s, r, t, pc);
    CustodyCarries(s, r);
    hide Custody, At, Section, IsEvent;
  }

  // What `Phases` asks of the event in progress.
  predicate PhasesAllow(s: Manager, e: Pc) {
    && (e.AppliesMessage? || e.Records? ==> s.line == Live && s.model.phase == Connected)
    && (e == Disconnects(true) ==> s.model.phase != Off)
    && (e == Disconnects(false) ==> s.server.None?)
    && (e.Answers? && e.ok && e.kind != Close ==> s.model.phase == Connected)
    && (e.Connects? || e.ChecksPhase? || e.AppliesConnected? ==> s.line == Quiet)
  }

  lemma EventMovesAreAllowed(s: Manager, t: ThreadId)
    requires Inv(s) && IsEvent(At(s, t))
    ensures var pc := At(s, t);
            && (pc.ChecksPhase? ==> PhasesAllow(s, AppliesConnected(pc.id)))
            && (pc.AppliesConnected? ==> PhasesAllow(s, Connects(pc.id)))
            && (pc.AppliesMessage? ==> PhasesAllow(s, Records(pc.latency)))
            && (pc.ReadsServer? ==> PhasesAllow(s, Disconnects(s.server.Some?)))
  {
  }

  lemma EventDeliverKeepsInv(s: Manager, t: ThreadId, model: Model, kind: Kind, done: bool)
    requires Inv(s)
    requires var pc := At(s, t);
             || (pc.Connects? && s.model.Connect(pc.id) == Some(model) && kind == Open && done)
             || (pc.Disconnects? && s.model.Disconnect(pc.serverActive) == Some(model) && kind == Close && done)
             || (pc.FailsRuntime? && model == s.model.Fail(RuntimeFault) && kind == pc.kind && !done)
    ensures Inv(Deliver(s, t, model, Answering(kind, done)))
  {
    hide Exclusion, Delivering, HolderPc, EventPc;
    HoldsEvent(s, t);
    var r := Deliver(s, t, model, Answering(kind, done));
    DeliverKeepsDelivering(s, t, model, Answering(kind, done));
    MovesWithin(s, r, t, At(r, t));
    CustodyCarries(s, r);
    hide Section, IsEvent;
  }

  lemma RecordKeepsInv(s: Manager, t: ThreadId)
    requires Inv(s) && At(s, t).Records?
    ensures Inv(EventStep(s, t, true))
  {
    hide Exclusion, Delivering, HolderPc, EventPc;
    HoldsEvent(s, t);
    var model := s.model.RecordLatency(At(s, t).latency);
    var r := EventStep(s, t, true);
    DeliveringAfterRevision(s, r, t, Answers(Input, true), model);
    MovesWithin(s, r, t, Answers(Input, true));
    CustodyCarries(s, r);
  }

  lemma MarkKeepsInv(s: Manager, t: ThreadId)
    requires Inv(s) && At(s, t).MarksRestart?
    ensures Inv(EventStep(s, t, true))
  {
    hide Exclusion, Delivering, HolderPc, EventPc, Snapshot.Fits, Model.View;
    HoldsEvent(s, t);
    var r := EventStep(s, t, true);
    MovesWithin(s, r, t, At(r, t));
    DeliveringAfterMove(s, r, t, At(r, t));
  }

  lemma AnswerKeepsInv(s: Manager, t: ThreadId)
    requires Inv(s) && At(s, t).Answers?
    ensures Inv(Answer(s, t, At(s, t).kind, At(s, t).ok))
  {
    hide Exclusion, Delivering, HolderPc, EventPc, Snapshot.Fits, Model.View;
    HoldsEvent(s, t);
    var r := Answer(s, t, At(s, t).kind, At(s, t).ok);
    LeavesEvent(s, r, t);
    DeliveringAfterMove(s, r, t, Finished);
  }

  lemma EventPassesKeepInv(s: Manager, t: ThreadId, ok: bool)
    requires Inv(s)
    requires var pc := At(s, t);
             pc.ChecksPhase? || pc.AppliesConnected? || pc.AppliesMessage? || pc.AppliesDisconnected? || pc.ReadsServer?
    ensures Inv(EventStep(s, t, ok))
  {
    EventMovesAreAllowed(s, t);
    hide Inv;
    match At(s, t)
    case ChecksPhase(id) =>
      EventMoveKeepsInv(s, t, if s.model.phase == Error then Answers(Open, false) else AppliesConnected(id));
    case AppliesConnected(id) => EventMoveKeepsInv(s, t, if ok then Connects(id) else MarksRestart(Open));
    case AppliesMessage(latency) => EventMoveKeepsInv(s, t, if ok then Records(latency) else MarksRestart(Input));
    case AppliesDisconnected => EventMoveKeepsInv(s, t, if ok then ReadsServer else MarksRestart(Close));
    case ReadsServer => EventMoveKeepsInv(s, t, Disconnects(s.server.Some?));
  }

  lemma EventStepKeepsInv(s: Manager, t: ThreadId, ok: bool)
    requires Inv(s) && IsEvent(At(s, t)) && !At(s, t).Publishes?
    ensures Inv(EventStep(s, t, ok))
  {
    hide Inv, Deliver, Answer;
    match At(s, t)
    case Connects(id) =>
      if s.model.Connect(id).Some? {
        EventDeliverKeepsInv(s, t, s.model.Connect(id).value, Open, true);
      } else {
        EventMoveKeepsInv(s, t, Answers(Open, false));
      }
    case Disconnects(active) =>
      if s.model.Disconnect(active).Some? {
        EventDeliverKeepsInv(s, t, s.model.Disconnect(active).value, Close, true);
      } else {
        EventMoveKeepsInv(s, t, Answers(Close, true));
      }
    case Records(latency) => RecordKeepsInv(s, t);
    case MarksRestart(kind) => MarkKeepsInv(s, t);
    case FailsRuntime(kind) => EventDeliverKeepsInv(s, t, s.model.Fail(RuntimeFault), kind, false);
    case Answers(kind, done) => AnswerKeepsInv(s, t);
    case _ => EventPassesKeepInv(s, t, ok);
  }

  lemma StepKeepsInv(s: Manager, l: Label)
    requires Inv(s)
    ensures Inv(Step(s, l))
  {
    hide Inv, LifecycleStep, EventStep, PublishOrdered;
    match l
    case CallStart(t) =>
      if At(s, t).Finished? { CallKeepsInv(s, t, StartCalled); }
    case CallEnd(t) =>
      if At(s, t).Finished? { CallKeepsInv(s, t, EndCalled); }
    case CallSubscribe(t, observer) =>
      if At(s, t).Finished? { CallKeepsInv(s, t, SubscribeCalled(observer)); }
    case Emit(t, event) =>
      if At(s, t).Finished? && MayEmit(s, event) { EmitKeepsInv(s, t, event); }
    case Advance(t, ok, pairing) =>
      if At(s, t).Publishes? {
        PublishKeepsInv(s, t);
      } else if IsEvent(At(s, t)) {
        EventStepKeepsInv(s, t, ok);
      } else {
        LifecycleStepKeepsInv(s, t, ok, pairing);
      }
  }

  lemma {:induction false} RunKeepsInv(labels: seq<Label>)
    ensures Inv(Run(labels))
  {
    if labels == [] {
      InitHolds();
    } else {
      RunKeepsInv(labels[..|labels| - 1]);
      StepKeepsInv(Run(labels[..|labels| - 1]), labels[|labels| - 1]);
    }
  }

  // ---- What holds in every run ----

  // At most one server runs, and with no lifecycle call in progress none is running that the
  // manager does not hold: the only ones ever lost are those whose shutdown failed.
  lemma AtMostOneServer(labels: seq<Label>)
    ensures var s := Run(labels);
            && (forall x, y :: x in s.running && y in s.running ==> x == y)
            && (s.operation == Idle ==> s.running == AsSet(s.server))
  {
    RunKeepsInv(labels);
  }

  // The branch for a superseded start is never taken.
  lemma NeverSuperseded(labels: seq<Label>, t: ThreadId)
    ensures var s := Run(labels); At(s, t).Installs? ==> s.operation == Starting(At(s, t).epoch)
  {
    RunKeepsInv(labels);
  }

  // Observers see revisions strictly increase, and every snapshot they see is one the model had,
  // in the shape the frontend parses.
  lemma ObserversSeeOrder(labels: seq<Label>)
    ensures var s := Run(labels);
            && Increasing(s.delivered)
            && (forall i :: 0 <= i < |s.delivered| ==>
                Recorded(s.delivered[i], s.history)
                && s.delivered[i].snapshot.Fits())
            && s.model.View().Fits()
  {
    RunKeepsInv(labels);
  }

  // When nobody is publishing any more, the newest delivery is the last one published.
  lemma NewestIsPublished(labels: seq<Label>)
    ensures var s := Run(labels); (forall t: ThreadId :: !At(s, t).Publishes?) ==> s.lastRevision == s.newest
  {
    RunKeepsInv(labels);
  }
}
