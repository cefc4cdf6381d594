// apps/remote-controller/src/features/session/controller-session.ts: the phone's side of the
// session, with its reconnects, heartbeat timers and desired button set.
module ControllerSessions {
  import opened Words
  import opened Protocol
  import opened Tracker
  import Sessions

  datatype Status =
    | Connecting | Connected | Disconnected
    | ExpiredToken | IncompatibleProtocol | ControllerInUse | ServerUnavailable

  datatype Reason = InvalidToken | UnsupportedVersion | ControllerAlreadyConnected | MalformedMessage

  datatype ServerMessage =
    | Welcome | Rejected(reason: Reason) | Pong(sequence: nat) | ControllerDisconnected | Unparsable

  function RejectionStatus(r: Reason): Status {
    match r
    case InvalidToken => ExpiredToken
    case UnsupportedVersion => IncompatibleProtocol
    case ControllerAlreadyConnected => ControllerInUse
    case MalformedMessage => ServerUnavailable
  }

  // What one connection carries: contiguous numbers, a state sync first, and at every message exactly
  // the buttons desired then.
  predicate Carries(sent: seq<ClientMessage>, desiredAt: seq<set<Button>>) {
    && Sessions.Contiguous(sent)
    && |desiredAt| == |sent|
    && (sent != [] ==> sent[0].StateSync?)
    && (forall i :: 0 <= i < |sent| ==> Held(sent[..i + 1]) == desiredAt[i])
  }

  lemma {:induction false} CarriesOneMore(sent: seq<ClientMessage>, desiredAt: seq<set<Button>>, m: ClientMessage,
                                          desired: set<Button>)
    requires Carries(sent, desiredAt)
    requires if sent == [] then m.StateSync?
             else Sessions.SequenceOf(m) == Some(NextSequence(Sessions.SequenceOf(sent[|sent| - 1]).value))
    requires Sessions.SequenceOf(m).Some? && Applied(Held(sent), m) == desired
    ensures Carries(sent + [m], desiredAt + [desired])
  {
    HeldAppend(sent, m);
    var all := sent + [m];
    forall i | 0 <= i < |all|
      ensures Held(all[..i + 1]) == (desiredAt + [desired])[i]
    {
      if i < |sent| {
        assert all[..i + 1] == sent[..i + 1];
      } else {
        assert all[..i + 1] == all;
      }
    }
  }

  // A session as a value, with the numbered messages put on the current connection and the desired
  // set at each of them.
  datatype Session = Session(
    delays: nat, desired: set<Button>, pressed: set<Button>, status: Status, connection: Option<nat>, generation: nat,
    active: bool, reconnectEnabled: bool, recoveryPending: bool, retryIndex: nat, nextSequence: Sequence,
    awaitedPong: Option<Sequence>, nextPingTimer: bool, pongDeadline: Option<Sequence>, retryTimer: bool,
    sent: seq<ClientMessage>, desiredAt: seq<set<Button>>)
  {
    // ---- The invariant of every reachable state ----

    // Never stuck: without a connection but wanting one, either one retry timer is running or the
    // page is inactive and will recover when it becomes active.
    predicate NeverStuck() {
      reconnectEnabled && connection.None? ==>
        if active then retryTimer && !recoveryPending else recoveryPending && !retryTimer
    }

    // While connected and active exactly one of the two heartbeat timers is armed; otherwise none.
    predicate HeartbeatArmed() {
      && (status == Connected && active ==> nextPingTimer != pongDeadline.Some?)
      && (nextPingTimer || pongDeadline.Some? ==> status == Connected && active)
      && awaitedPong == pongDeadline
    }

    predicate Coherent() {
      && (reconnectEnabled <==> status == Connecting || status == Connected)
      && (connection.Some? ==> reconnectEnabled && connection.value == generation)
      && (status == Connected ==> connection.Some?)
      && (retryTimer ==> active && reconnectEnabled && connection.None? && retryIndex > 0)
      && (recoveryPending ==> !active && reconnectEnabled && connection.None?)
      && retryIndex <= delays && pressed == desired
    }

    // The numbers on the connection end just before the next one.
    predicate Replicates() {
      && Carries(sent, desiredAt)
      && (sent != [] ==> NextSequence(Sessions.SequenceOf(sent[|sent| - 1]).value) == nextSequence)
    }

    predicate Valid() {
      && NeverStuck() && HeartbeatArmed() && Coherent()
      && (connection.Some? ==> Replicates())
      && (connection.Some? && status == Connecting ==> sent == [])
      && (status == Connected ==> sent != [] && desiredAt[|desiredAt| - 1] == desired)
    }

    // The state between dropping a connection and deciding how to recover from it.
    predicate Dropped() {
      && connection.None? && reconnectEnabled && (status == Connecting || status == Connected)
      && (retryTimer ==> active && status == Connecting && retryIndex > 0
                         && !nextPingTimer && pongDeadline.None? && awaitedPong.None?)
      && (recoveryPending ==> !active)
      && retryIndex <= delays && pressed == desired
    }

    // What losing a connection leads to when `used` of the delays have been used up: one more retry,
    // the end of the session if none is left, or a recovery put off until the page is active.
    predicate Recovers(used: nat) {
      if !active then connection.None? && recoveryPending && status == Connecting && !retryTimer && retryIndex == used
      else if used < delays then connection.None? && retryTimer && status == Connecting && retryIndex == used + 1
      else connection.None? && !retryTimer && status == ServerUnavailable && !reconnectEnabled && retryIndex == used
    }

    // A welcome that arrives while a pong is awaited arms the next ping beside the deadline.
    predicate PongAwaited() {
      status == Connected && active && pongDeadline.Some?
    }

    // ---- Timers ----

    function CancelHeartbeat(): Session {
      this.(nextPingTimer := false, pongDeadline := None, awaitedPong := None)
    }

    function CancelAllTimers(): Session {
      CancelHeartbeat().(retryTimer := false)
    }

    function ScheduleNextPing(): Session {
      if active && status == Connected then this.(nextPingTimer := true) else this
    }

    function ScheduleRetry(): Session {
      if !reconnectEnabled || retryTimer then this
      else
        var s := CancelHeartbeat();
        if !active then s.(recoveryPending := true, status := Connecting)
        else if retryIndex >= delays then s.(reconnectEnabled := false, status := ServerUnavailable)
        else s.(retryIndex := retryIndex + 1, status := Connecting, retryTimer := true)
    }

    // ---- Connections ----

    function StartConnection(fails: bool): Session {
      var s := CancelHeartbeat();
      if !active then s.(recoveryPending := true, status := Connecting)
      else
        var next := s.(generation := generation + 1, status := Connecting);
        if fails then next.(connection := None).ScheduleRetry()
        else next.(connection := Some(generation + 1), sent := [], desiredAt := [])
    }

    function Connect(fails: bool): Session {
      if status == Connecting || status == Connected then this
      else this.(reconnectEnabled := true, retryIndex := 0, retryTimer := false).StartConnection(fails)
    }

    function SetActive(value: bool, fails: bool): Session {
      var s := this.(active := value);
      if active == value then this
      else if !value then
        var putOff := reconnectEnabled && (retryTimer || connection.None?);
        s.(recoveryPending := recoveryPending || putOff).CancelAllTimers()
      else if !reconnectEnabled then s
      else if status == Connected && connection.Some? then s.ScheduleNextPing()
      else if !recoveryPending || connection.Some? || retryTimer then s
      else s.(recoveryPending := false).StartConnection(fails)
    }

    function HandleTransportFailure(gen: nat): Session {
      if gen != generation || !reconnectEnabled then this else this.(connection := None).ScheduleRetry()
    }

    function HandleClose(gen: nat): Session {
      if gen != generation then this else this.(connection := None).CancelHeartbeat().ScheduleRetry()
    }

    function EndRecovery(): Session {
      this.(reconnectEnabled := false, recoveryPending := false).CancelAllTimers().(connection := None)
    }

    function FailTerminal(to: Status): Session {
      EndRecovery().(status := to)
    }

    // ---- Messages ----

    function SendNumbered(m: ClientMessage, fails: bool): Session {
      var s := this.(nextSequence := NextSequence(nextSequence));
      if connection.None? then s
      else if fails then s.HandleTransportFailure(generation)
      else s.(sent := sent + [m], desiredAt := desiredAt + [desired])
    }

    function SendStateSync(fails: bool): Session {
      SendNumbered(StateSync(InOrder(desired, BUTTON_ORDER), nextSequence), fails)
    }

    function HandleWelcome(fails: bool): Session {
      var s := this.(retryIndex := 0, recoveryPending := false, status := Connected).SendStateSync(fails);
      if connection.Some? && !fails then s.ScheduleNextPing() else s
    }

    function HandleMessage(gen: nat, message: ServerMessage, fails: bool): Session {
      if gen != generation then this
      else
        match message
        case Unparsable => FailTerminal(IncompatibleProtocol)
        case Welcome => HandleWelcome(fails)
        case Rejected(reason) => FailTerminal(RejectionStatus(reason))
        case Pong(sequence) =>
          if status != Connected || awaitedPong.None? || sequence != awaitedPong.value then this
          else this.(awaitedPong := None, pongDeadline := None).ScheduleNextPing()
        case ControllerDisconnected => HandleTransportFailure(gen)
    }

    // ---- Timer callbacks ----

    function RetryFires(fails: bool): Session {
      var s := this.(retryTimer := false);
      if reconnectEnabled then s.StartConnection(fails) else s
    }

    function PingFires(fails: bool): Session {
      var s := this.(nextPingTimer := false);
      if status != Connected then s
      else
        s.(awaitedPong := Some(nextSequence), pongDeadline := Some(nextSequence))
        .SendNumbered(Ping(nextSequence), fails)
    }

    function PongDeadlineFires(): Session {
      var s := this.(pongDeadline := None);
      if awaitedPong.Some? && awaitedPong == pongDeadline
      then s.(awaitedPong := None).HandleTransportFailure(generation) else s
    }

    // ---- Buttons ----

    function SetButton(button: Button, pressed: bool, fails: bool): Session {
      if pressed == (button in desired) then this
      else
        var held := if pressed then desired + {button} else desired - {button};
        var s := this.(desired := held, pressed := held);
        if status != Connected then s
        else s.SendNumbered(if pressed then ButtonDown(button, nextSequence) else ButtonUp(button, nextSequence), fails)
    }

    function SyncButtons(buttons: seq<Button>, fails: bool): Session {
      var held := ButtonsOf(InOrder(ButtonsOf(buttons), BUTTON_ORDER));
      var s := this.(desired := held, pressed := held);
      if status == Connected then s.SendStateSync(fails) else s
    }

    function TearDown(): Session {
      EndRecovery().(generation := generation + 1, retryIndex := 0, status := Disconnected, pressed := desired)
    }

    function Disconnect(fails: bool): Session {
      (if status == Connected then SyncButtons([], fails) else this.(desired := {})).TearDown()
    }
  }

  // ---- What the operations keep ----

  lemma RetryKeepsValid(s: Session)
    requires s.Dropped()
    ensures s.ScheduleRetry().Valid() && (!s.retryTimer ==> s.ScheduleRetry().Recovers(s.retryIndex))
  {
  }

  lemma StartKeepsValid(s: Session, fails: bool)
    requires s.reconnectEnabled && s.connection.None? && !s.retryTimer && s.retryIndex <= s.delays
    requires s.pressed == s.desired && !(s.active && s.recoveryPending)
    ensures s.StartConnection(fails).Valid()
    ensures s.active && fails ==> s.StartConnection(fails).Recovers(s.retryIndex)
  {
    if s.active && fails {
      RetryKeepsValid(s.CancelHeartbeat().(generation := s.generation + 1, status := Connecting, connection := None));
    }
  }

  // A lost connection is recovered from.
  lemma {:induction false} FailureKeepsValid(s: Session, gen: nat)
    requires s.Valid()
    ensures s.HandleTransportFailure(gen).Valid() && s.HandleClose(gen).Valid()
    ensures gen == s.generation && s.reconnectEnabled && !s.retryTimer ==>
              s.HandleTransportFailure(gen).Recovers(s.retryIndex) && s.HandleClose(gen).Recovers(s.retryIndex)
    ensures s.HandleTransportFailure(gen).retryIndex >= s.retryIndex && s.HandleClose(gen).retryIndex >= s.retryIndex
    ensures gen == s.generation && s.reconnectEnabled && s.retryTimer ==>
              s.HandleTransportFailure(gen).retryTimer && s.HandleClose(gen).retryTimer
  {
    hide Carries;
    if s.reconnectEnabled {
      RetryKeepsValid(s.(connection := None));
      RetryKeepsValid(s.(connection := None).CancelHeartbeat());
    }
  }

  lemma TerminalKeepsValid(s: Session, to: Status)
    requires s.Valid() && to != Connecting && to != Connected
    ensures s.FailTerminal(to).Valid()
  {
    hide Carries;
  }

  lemma SetActiveKeepsValid(s: Session, value: bool, fails: bool)
    requires s.Valid()
    ensures s.SetActive(value, fails).Valid()
  {
    hide Carries;
    if !s.active && s.recoveryPending {
      StartKeepsValid(s.(active := true, recoveryPending := false), fails);
    }
    hide Session.StartConnection;
  }

  lemma ConnectKeepsValid(s: Session, fails: bool)
    requires s.Valid()
    ensures s.Connect(fails).Valid()
    ensures s.status != Connecting && s.status != Connected && s.active && fails ==> s.Connect(fails).Recovers(0)
  {
    hide Carries;
    if s.status != Connecting && s.status != Connected {
      StartKeepsValid(s.(reconnectEnabled := true, retryIndex := 0, retryTimer := false), fails);
    }
    hide Session.StartConnection;
  }

  // A session that may be told of new buttons.
  predicate Ready(s: Session) {
    s.connection.Some? && s.status == Connected && s.Coherent() && s.Replicates()
  }

  // A message extends what the connection carries; a send that throws drops it instead.
  lemma {:induction false} SendKeeps(s: Session, m: ClientMessage, fails: bool)
    requires Ready(s) && Sessions.SequenceOf(m) == Some(s.nextSequence)
    requires s.sent == [] ==> m.StateSync?
    requires Applied(Held(s.sent), m) == s.desired
    ensures var t := s.SendNumbered(m, fails);
            && (fails ==> t.Valid() && t.Recovers(s.retryIndex))
            && (!fails ==> t == s.(nextSequence := t.nextSequence, sent := s.sent + [m],
                                   desiredAt := s.desiredAt + [s.desired])
                           && Ready(t))
  {
    if fails {
      RetryKeepsValid(s.(nextSequence := NextSequence(s.nextSequence), connection := None));
    } else {
      CarriesOneMore(s.sent, s.desiredAt, m, s.desired);
    }
    hide Session.ScheduleRetry, Carries;
  }

  lemma {:induction false} SyncKeeps(s: Session, fails: bool)
    requires Ready(s)
    ensures var t := s.SendStateSync(fails);
            && (fails ==> t.Valid() && t.Recovers(s.retryIndex))
            && (!fails ==> Ready(t) && |t.sent| == |s.sent| + 1 && t.sent[..|s.sent|] == s.sent
                           && t.sent[|s.sent|].StateSync?
                           && t == s.(nextSequence := t.nextSequence, sent := t.sent,
                                      desiredAt := s.desiredAt + [s.desired]))
  {
    ListedButtons(s.desired);
    SendKeeps(s, StateSync(InOrder(s.desired, BUTTON_ORDER), s.nextSequence), fails);
    hide Ready, Session.SendNumbered;
  }

  // Only a second welcome, and only while a pong is awaited, disturbs the invariant, and then nothing
  // of it but the heartbeat.
  lemma {:induction false} WelcomeKeepsValid(s: Session, fails: bool)
    requires s.Valid() && s.connection.Some?
    ensures var t := s.HandleWelcome(fails);
            && (t.Valid() <==> fails || !s.PongAwaited())
            && t.NeverStuck() && t.Coherent() && (t.connection.Some? ==> t.Replicates())
            && (if fails then t.Recovers(0)
                else t.status == Connected && t.retryIndex == 0 && t.connection == s.connection
                     && |t.sent| == |s.sent| + 1 && t.sent[|s.sent|].StateSync?)
  {
    hide Carries, Held;
    SyncKeeps(s.(retryIndex := 0, recoveryPending := false, status := Connected), fails);
    hide Session.SendStateSync;
  }

  lemma {:induction false} MessageKeepsValid(s: Session, gen: nat, message: ServerMessage, fails: bool)
    requires s.Valid() && (gen == s.generation ==> s.connection.Some?)
    ensures var t := s.HandleMessage(gen, message, fails);
            && (t.Valid() <==> !(gen == s.generation && message.Welcome? && !fails && s.PongAwaited()))
            && t.NeverStuck() && t.Coherent() && (t.connection.Some? ==> t.Replicates())
  {
    hide Carries;
    if gen == s.generation {
      match message
      case Unparsable => TerminalKeepsValid(s, IncompatibleProtocol);
      case Welcome => WelcomeKeepsValid(s, fails);
      case Rejected(reason) => TerminalKeepsValid(s, RejectionStatus(reason));
      case Pong(sequence) =>
      case ControllerDisconnected => FailureKeepsValid(s, gen);
    }
    hide Session.FailTerminal, Session.HandleWelcome, Session.HandleTransportFailure;
  }

  lemma RetryFiresKeepsValid(s: Session, fails: bool)
    requires s.Valid() && s.retryTimer
    ensures s.RetryFires(fails).Valid()
    ensures fails ==> s.RetryFires(fails).Recovers(s.retryIndex)
  {
    hide Carries;
    StartKeepsValid(s.(retryTimer := false), fails);
    hide Session.StartConnection;
  }

  // What a connected session has sent adds up to the desired buttons.
  lemma SentAddsUp(s: Session)
    requires s.Valid() && s.status == Connected
    ensures Ready(s) && s.sent != [] && Held(s.sent) == s.desired
  {
    assert s.sent[..|s.sent|] == s.sent;
  }

  lemma {:induction false} PingKeepsValid(s: Session, fails: bool)
    requires s.Valid() && s.nextPingTimer
    ensures s.PingFires(fails).Valid() && (fails ==> s.PingFires(fails).Recovers(s.retryIndex))
  {
    hide Carries, Held;
    SentAddsUp(s);
    SendKeeps(s.(nextPingTimer := false, awaitedPong := Some(s.nextSequence), pongDeadline := Some(s.nextSequence)),
              Ping(s.nextSequence), fails);
    hide Session.SendNumbered;
  }

  lemma {:induction false} PongDeadlineKeepsValid(s: Session)
    requires s.Valid() && s.pongDeadline.Some?
    ensures s.PongDeadlineFires().Valid() && s.PongDeadlineFires().Recovers(s.retryIndex)
  {
    hide Carries;
    RetryKeepsValid(s.(pongDeadline := None, awaitedPong := None, connection := None));
    hide Session.ScheduleRetry;
  }

  lemma {:induction false} SetButtonKeepsValid(s: Session, button: Button, pressed: bool, fails: bool)
    requires s.Valid()
    ensures var t := s.SetButton(button, pressed, fails);
            t.Valid() && (s.connection.Some? && t.connection.None? ==> t.Recovers(s.retryIndex))
  {
    hide Carries, Held;
    if s.status == Connected && pressed != (button in s.desired) {
      SentAddsUp(s);
      var held := if pressed then s.desired + {button} else s.desired - {button};
      SendKeeps(s.(desired := held, pressed := held),
                if pressed then ButtonDown(button, s.nextSequence) else ButtonUp(button, s.nextSequence), fails);
    }
    hide Session.SendNumbered;
  }

  lemma {:induction false} SyncButtonsKeepsValid(s: Session, buttons: seq<Button>, fails: bool)
    requires s.Valid()
    ensures var t := s.SyncButtons(buttons, fails);
            t.Valid() && (s.connection.Some? && t.connection.None? ==> t.Recovers(s.retryIndex))
  {
    if s.status == Connected {
      var held := ButtonsOf(InOrder(ButtonsOf(buttons), BUTTON_ORDER));
      SyncKeeps(s.(desired := held, pressed := held), fails);
    }
    hide Carries, Session.SendStateSync;
  }

  // Whatever was going on, nothing of it is left.
  lemma DisconnectKeepsValid(s: Session, fails: bool)
    ensures s.TearDown().Valid() && s.Disconnect(fails).Valid()
  {
  }

  // ---- Happenings ----

  // Everything that can happen to a session, in any order. Events for a connection other than the
  // current one carry its generation and are stale.
  datatype Happening =
    | UserConnects(fails: bool)
    | UserDisconnects(fails: bool)
    | Visibility(active: bool, fails: bool)
    | ButtonChanges(button: Button, pressed: bool, fails: bool)
    | ButtonsReplaced(buttons: seq<Button>, fails: bool)
    | MessageArrives(generation: nat, message: ServerMessage, fails: bool)
    | ConnectionCloses(generation: nat)
    | TransportFails(generation: nat)
    | RetryDue(fails: bool)
    | PingDue(fails: bool)
    | PongOverdue

  // Timers fire only while armed, and messages arrive only over a connection.
  predicate Possible(s: Session, h: Happening) {
    match h
    case MessageArrives(generation, message, _) =>
      generation != s.generation || (s.connection.Some? && !(message.Welcome? && s.PongAwaited()))
    case RetryDue(_) => s.retryTimer
    case PingDue(_) => s.nextPingTimer
    case PongOverdue => s.pongDeadline.Some?
    case _ => true
  }

  function Happened(s: Session, h: Happening): Session {
    if !Possible(s, h) then s
    else
      match h
      case UserConnects(fails) => s.Connect(fails)
      case UserDisconnects(fails) => s.Disconnect(fails)
      case Visibility(active, fails) => s.SetActive(active, fails)
      case ButtonChanges(button, pressed, fails) => s.SetButton(button, pressed, fails)
      case ButtonsReplaced(buttons, fails) => s.SyncButtons(buttons, fails)
      case MessageArrives(generation, message, fails) => s.HandleMessage(generation, message, fails)
      case ConnectionCloses(generation) => s.HandleClose(generation)
      case TransportFails(generation) => s.HandleTransportFailure(generation)
      case RetryDue(fails) => s.RetryFires(fails)
      case PingDue(fails) => s.PingFires(fails)
      case PongOverdue => s.PongDeadlineFires()
  }

  // The delays are all available again: an explicit connect or disconnect, or a welcome.
  predicate Resets(s: Session, h: Happening) {
    || (h.UserConnects? && s.status != Connecting && s.status != Connected)
    || h.UserDisconnects?
    || (h.MessageArrives? && h.message.Welcome? && h.generation == s.generation && Possible(s, h))
  }

  // The server refuses the session, or sends what is no message.
  predicate Ends(s: Session, h: Happening) {
    && h.MessageArrives? && h.generation == s.generation && Possible(s, h)
    && (h.message.Rejected? || h.message.Unparsable?)
  }

  function Used(s: Session, h: Happening): nat {
    if Resets(s, h) then 0 else s.retryIndex
  }

  // A retry is scheduled anew.
  predicate Arms(s: Session, h: Happening) {
    Happened(s, h).retryTimer && (!s.retryTimer || h.RetryDue?)
  }

  predicate Fires(s: Session, h: Happening) {
    h.RetryDue? && s.retryTimer
  }

  predicate GivesUp(s: Session, h: Happening) {
    s.status != ServerUnavailable && Happened(s, h).status == ServerUnavailable
  }

  lemma {:induction false} HappenedKeepsValid(s: Session, h: Happening)
    requires s.Valid()
    ensures Happened(s, h).Valid()
  {
    hide Session.Valid, Carries, Session.Recovers;
    if Possible(s, h) {
      match h
      case UserConnects(fails) => ConnectKeepsValid(s, fails);
      case UserDisconnects(fails) => DisconnectKeepsValid(s, fails);
      case Visibility(active, fails) => SetActiveKeepsValid(s, active, fails);
      case ButtonChanges(button, pressed, fails) => SetButtonKeepsValid(s, button, pressed, fails);
      case ButtonsReplaced(buttons, fails) => SyncButtonsKeepsValid(s, buttons, fails);
      case MessageArrives(generation, message, fails) => MessageKeepsValid(s, generation, message, fails);
      case ConnectionCloses(generation) => FailureKeepsValid(s, generation);
      case TransportFails(generation) => FailureKeepsValid(s, generation);
      case RetryDue(fails) => RetryFiresKeepsValid(s, fails);
      case PingDue(fails) => PingKeepsValid(s, fails);
      case PongOverdue => PongDeadlineKeepsValid(s);
    }
  }

  // Whatever costs a session its connection, it recovers, except from a disconnect asked for and from
  // a refusal.
  lemma {:induction false} LossRecovers(s: Session, h: Happening)
    requires s.Valid() && s.connection.Some? && Happened(s, h).connection.None?
    ensures h.UserDisconnects? || Ends(s, h) || Happened(s, h).Recovers(Used(s, h))
  {
    hide Carries, Held;
    match h
    case ButtonChanges(button, pressed, fails) => SetButtonKeepsValid(s, button, pressed, fails);
    case ButtonsReplaced(buttons, fails) => SyncButtonsKeepsValid(s, buttons, fails);
    case MessageArrives(generation, message, fails) =>
      if message.Welcome? {
        WelcomeKeepsValid(s, fails);
      } else if message.ControllerDisconnected? {
        FailureKeepsValid(s, generation);
      }
    case ConnectionCloses(generation) => FailureKeepsValid(s, generation);
    case TransportFails(generation) => FailureKeepsValid(s, generation);
    case PingDue(fails) => PingKeepsValid(s, fails);
    case PongOverdue => if Possible(s, h) { PongDeadlineKeepsValid(s); }
    case _ =>
    hide Session.Recovers;
  }

  // Of the delays, `used` were used up before and one more is if a retry is armed; the session gives
  // up only without any left.
  predicate Accounts(s: Session, t: Session, used: nat) {
    && t.delays == s.delays && t.retryIndex == used + (if t.retryTimer && !s.retryTimer then 1 else 0)
    && (s.status != ServerUnavailable && t.status == ServerUnavailable ==> t.Recovers(used) && used == s.delays)
  }

  lemma RetryAccounts(s: Session)
    requires s.connection.None? && s.retryIndex <= s.delays
    ensures Accounts(s, s.ScheduleRetry(), s.retryIndex)
  {
  }

  lemma StartAccounts(s: Session, fails: bool)
    requires s.connection.None? && s.retryIndex <= s.delays && !s.retryTimer
    ensures Accounts(s, s.StartConnection(fails), s.retryIndex)
  {
    hide Session.Recovers;
    RetryAccounts(s.CancelHeartbeat().(generation := s.generation + 1, status := Connecting));
    hide Session.ScheduleRetry;
  }

  lemma FailureAccounts(s: Session, gen: nat)
    requires s.retryIndex <= s.delays
    ensures Accounts(s, s.HandleTransportFailure(gen), s.retryIndex) && Accounts(s, s.HandleClose(gen), s.retryIndex)
  {
    hide Session.Recovers;
    RetryAccounts(s.(connection := None));
    RetryAccounts(s.(connection := None).CancelHeartbeat());
    hide Session.ScheduleRetry;
  }

  lemma SendAccounts(s: Session, m: ClientMessage, fails: bool)
    requires s.retryIndex <= s.delays
    ensures Accounts(s, s.SendNumbered(m, fails), s.retryIndex)
  {
    hide Session.Recovers;
    FailureAccounts(s.(nextSequence := NextSequence(s.nextSequence)), s.generation);
    hide Session.HandleTransportFailure;
  }

  lemma ButtonsAccount(s: Session, button: Button, pressed: bool, buttons: seq<Button>, fails: bool)
    requires s.Valid()
    ensures Accounts(s, s.SetButton(button, pressed, fails), s.retryIndex)
    ensures Accounts(s, s.SyncButtons(buttons, fails), s.retryIndex)
  {
    hide Carries, ButtonsOf, InOrder, Session.Recovers;
    var held := if pressed then s.desired + {button} else s.desired - {button};
    SendAccounts(s.(desired := held, pressed := held),
                 if pressed then ButtonDown(button, s.nextSequence) else ButtonUp(button, s.nextSequence), fails);
    var listed := ButtonsOf(InOrder(ButtonsOf(buttons), BUTTON_ORDER));
    SendAccounts(s.(desired := listed, pressed := listed),
                 StateSync(InOrder(listed, BUTTON_ORDER), s.nextSequence), fails);
    hide Session.SendNumbered;
  }

  lemma TimersAccount(s: Session, fails: bool)
    requires s.Valid()
    ensures s.nextPingTimer ==> Accounts(s, s.PingFires(fails), s.retryIndex)
    ensures s.pongDeadline.Some? ==> Accounts(s, s.PongDeadlineFires(), s.retryIndex)
    ensures s.retryTimer ==> Accounts(s.(retryTimer := false), s.RetryFires(fails), s.retryIndex)
  {
    hide Carries, Session.Recovers;
    SendAccounts(s.(nextPingTimer := false, awaitedPong := Some(s.nextSequence), pongDeadline := Some(s.nextSequence)),
                 Ping(s.nextSequence), fails);
    FailureAccounts(s.(pongDeadline := None, awaitedPong := None), s.generation);
    if s.retryTimer {
      StartAccounts(s.(retryTimer := false), fails);
    }
    hide Session.SendNumbered, Session.HandleTransportFailure, Session.StartConnection;
  }

  lemma MessageAccounts(s: Session, gen: nat, message: ServerMessage, fails: bool)
    requires s.Valid()
    ensures var t := s.HandleMessage(gen, message, fails);
            if gen == s.generation && message == Rejected(MalformedMessage) then
              t.delays == s.delays && t.retryIndex == s.retryIndex && !t.retryTimer
            else if gen == s.generation && message.Welcome? then s.connection.Some? ==> Accounts(s, t, 0)
            else Accounts(s, t, s.retryIndex)
  {
    hide Carries, ButtonsOf, InOrder, Session.Recovers;
    var welcomed := s.(retryIndex := 0, recoveryPending := false, status := Connected);
    SendAccounts(welcomed, StateSync(InOrder(s.desired, BUTTON_ORDER), s.nextSequence), fails);
    FailureAccounts(s, gen);
    hide Session.SendNumbered, Session.HandleTransportFailure;
  }

  lemma ConnectAccounts(s: Session, value: bool, fails: bool)
    requires s.Valid()
    ensures Accounts(s, s.Connect(fails), if s.status == Connecting || s.status == Connected then s.retryIndex else 0)
    ensures Accounts(s, s.SetActive(value, fails), s.retryIndex)
  {
    hide Carries, Session.Recovers;
    if s.status != Connecting && s.status != Connected {
      StartAccounts(s.(reconnectEnabled := true, retryIndex := 0, retryTimer := false), fails);
    }
    if s.connection.None? && !s.retryTimer {
      StartAccounts(s.(active := value, recoveryPending := false), fails);
    }
    hide Session.StartConnection;
  }

  lemma DisconnectAccounts(s: Session, fails: bool)
    ensures Accounts(s, s.Disconnect(fails), 0)
  {
    hide Session.Recovers;
  }

  // Each retry that is scheduled consumes one delay and nothing else does; the session gives up with
  // all of them used up, or when the server calls a message malformed.
  lemma {:induction false} DelaysAreConsumed(s: Session, h: Happening)
    requires s.Valid()
    ensures Happened(s, h).retryIndex == Used(s, h) + (if Arms(s, h) then 1 else 0)
    ensures GivesUp(s, h) ==>
              || (Ends(s, h) && h.message == Rejected(MalformedMessage))
              || (Happened(s, h).Recovers(Used(s, h)) && Used(s, h) == s.delays)
    ensures Happened(s, h).delays == s.delays
  {
    hide Carries, ButtonsOf, InOrder, Session.Recovers, Session.Connect, Session.SetActive, Session.SetButton,
         Session.SyncButtons, Session.HandleMessage, Session.HandleClose, Session.HandleTransportFailure,
         Session.RetryFires, Session.PingFires, Session.PongDeadlineFires, Session.Disconnect,
         Session.NeverStuck, Session.HeartbeatArmed, Session.Replicates;
    match h
    case UserConnects(fails) => ConnectAccounts(s, s.active, fails);
    case UserDisconnects(fails) => DisconnectAccounts(s, fails);
    case Visibility(active, fails) => ConnectAccounts(s, active, fails);
    case ButtonChanges(button, pressed, fails) => ButtonsAccount(s, button, pressed, [], fails);
    case ButtonsReplaced(buttons, fails) => ButtonsAccount(s, A, true, buttons, fails);
    case MessageArrives(generation, message, fails) => MessageAccounts(s, generation, message, fails);
    case ConnectionCloses(generation) => FailureAccounts(s, generation);
    case TransportFails(generation) => FailureAccounts(s, generation);
    case RetryDue(fails) => TimersAccount(s, fails);
    case PingDue(fails) => TimersAccount(s, fails);
    case PongOverdue => TimersAccount(s, false);
  }

  // ---- Runs ----

  function Initial(delays: nat, sequence: Sequence): Session {
    Session(delays, {}, {}, Disconnected, None, 0, true, false, false, 0, sequence, None, false, None, false, [], [])
  }

  datatype History = History(delays: nat, sequence: Sequence, happenings: seq<Happening>) {
    // The session before happening k.
    function At(k: nat): Session
      requires k <= |happenings|
    {
      if k == 0 then Initial(delays, sequence) else Happened(At(k - 1), happenings[k - 1])
    }

    predicate ResetsAt(k: nat)
      requires k < |happenings|
    {
      Resets(At(k), happenings[k])
    }

    // No welcome and no explicit connect or disconnect from happening i up to happening j.
    predicate Undisturbed(i: nat, j: nat)
      requires i <= j <= |happenings|
    {
      forall k :: i <= k < j ==> !ResetsAt(k)
    }

    // Retries scheduled since the delays were last reset.
    function Scheduled(n: nat): nat
      requires n <= |happenings|
    {
      if n == 0 then 0
      else (if ResetsAt(n - 1) then 0 else Scheduled(n - 1)) + if Arms(At(n - 1), happenings[n - 1]) then 1 else 0
    }

    // Retries fired from happening i up to happening j.
    function Fired(i: nat, j: nat): nat
      requires i <= j <= |happenings|
    {
      if i == j then 0 else Fired(i, j - 1) + if Fires(At(j - 1), happenings[j - 1]) then 1 else 0
    }
  }

  // Every reachable state satisfies the invariant.
  lemma {:induction false} RunKeepsValid(h: History, n: nat)
    requires n <= |h.happenings|
    ensures h.At(n).Valid() && h.At(n).delays == h.delays
  {
    hide Session.Valid, Happened;
    if n == 0 {
      InitialIsValid(h.delays, h.sequence);
    } else {
      RunKeepsValid(h, n - 1);
      HappenedKeepsValid(h.At(n - 1), h.happenings[n - 1]);
      DelaysAreConsumed(h.At(n - 1), h.happenings[n - 1]);
    }
  }

  lemma InitialIsValid(delays: nat, sequence: Sequence)
    ensures Initial(delays, sequence).Valid()
  {
  }

  lemma {:induction false} RetriesAreCounted(h: History, n: nat)
    requires n <= |h.happenings|
    ensures h.At(n).retryIndex == h.Scheduled(n) <= h.delays
  {
    hide Session.Valid, Happened, Resets, Arms;
    RunKeepsValid(h, n);
    ArmedRetries(h.At(n));
    if n > 0 {
      RetriesAreCounted(h, n - 1);
      RunKeepsValid(h, n - 1);
      DelaysAreConsumed(h.At(n - 1), h.happenings[n - 1]);
    }
  }

  lemma ArmedRetries(s: Session)
    requires s.Valid()
    ensures s.retryIndex <= s.delays && (s.retryTimer ==> s.retryIndex > 0)
  {
  }

  // Between welcomes and explicit connects and disconnects at most as many retries fire as there are
  // delays, wherever the stretch begins.
  lemma {:induction false} RetriesAreBounded(h: History, i: nat, j: nat)
    requires i <= j <= |h.happenings| && h.Undisturbed(i, j)
    ensures h.Fired(i, j) + (if h.At(j).retryTimer then 1 else 0) <= h.At(j).retryIndex <= h.delays
  {
    hide Session.Valid, Happened, Resets;
    RunKeepsValid(h, j);
    ArmedRetries(h.At(j));
    if i < j {
      RetriesAreBounded(h, i, j - 1);
      RunKeepsValid(h, j - 1);
      DelaysAreConsumed(h.At(j - 1), h.happenings[j - 1]);
      assert !h.ResetsAt(j - 1);
    }
  }

  // The server is reported unavailable only when every delay has been used by a retry since the last
  // welcome or explicit connect, or when the server called a message malformed.
  lemma {:induction false} UnavailableWhenExhausted(h: History, k: nat)
    requires k < |h.happenings| && GivesUp(h.At(k), h.happenings[k])
    ensures || (Ends(h.At(k), h.happenings[k]) && h.happenings[k].message == Rejected(MalformedMessage))
            || (h.At(k + 1).Recovers(h.delays) && (if h.ResetsAt(k) then 0 else h.Scheduled(k)) == h.delays)
  {
    hide Session.Valid, Happened, Arms, GivesUp, Ends, Session.Recovers;
    RunKeepsValid(h, k);
    RetriesAreCounted(h, k);
    DelaysAreConsumed(h.At(k), h.happenings[k]);
  }

  class ControllerSession {
    const retryDelays: nat // reconnectDelaysMs.length
    var desiredButtons: set<Button>
    var pressedButtons: set<Button> // of the published snapshot
    var status: Status
    var connection: Option<nat> // the generation it was opened for
    var generation: nat
    var active: bool
    var reconnectEnabled: bool
    var recoveryPending: bool
    var retryIndex: nat
    var nextSequence: Sequence
    var awaitedPong: Option<Sequence>
    var nextPingTimer: bool
    var pongDeadline: Option<Sequence> // the sequence its callback captured
    var retryTimer: bool

    // The numbered messages put on the current connection, and the desired set at each of them.
    ghost var sent: seq<ClientMessage>
    ghost var desiredAt: seq<set<Button>>

    ghost function View(): Session
      reads this
    {
      Session(retryDelays, desiredButtons, pressedButtons, status, connection, generation, active, reconnectEnabled,
              recoveryPending, retryIndex, nextSequence, awaitedPong, nextPingTimer, pongDeadline, retryTimer,
              sent, desiredAt)
    }

    ghost predicate Valid()
      reads this
    {
      View().Valid()
    }

    constructor (retryDelays: nat, initialSequence: Sequence)
      ensures Valid() && View() == Initial(retryDelays, initialSequence)
    {
      this.retryDelays, nextSequence := retryDelays, initialSequence;
      desiredButtons, pressedButtons, status, connection := {}, {}, Disconnected, None;
      generation, active, reconnectEnabled, recoveryPending, retryIndex := 0, true, false, false, 0;
      awaitedPong, nextPingTimer, pongDeadline, retryTimer := None, false, None, false;
      sent, desiredAt := [], [];
    }

    // ---- Timers ----

    method CancelHeartbeat()
      modifies this`nextPingTimer, this`pongDeadline, this`awaitedPong
      ensures View() == old(View()).CancelHeartbeat()
    {
      nextPingTimer := false;
      pongDeadline := None;
      awaitedPong := None;
    }

    method CancelAllTimers()
      modifies this`nextPingTimer, this`pongDeadline, this`awaitedPong, this`retryTimer
      ensures View() == old(View()).CancelAllTimers()
    {
      CancelHeartbeat();
      retryTimer := false;
    }

    method ScheduleNextPing()
      modifies this`nextPingTimer
      ensures View() == old(View()).ScheduleNextPing()
    {
      if !active || status != Connected {
        return;
      }
      nextPingTimer := true;
    }

    // Every retry that is scheduled consumes one delay; after the last the session gives up.
    method ScheduleRetry()
      modifies this`nextPingTimer, this`pongDeadline, this`awaitedPong, this`recoveryPending, this`status,
               this`reconnectEnabled, this`retryIndex, this`retryTimer
      ensures View() == old(View()).ScheduleRetry()
      ensures old(View().Dropped()) ==> Valid() && (!old(retryTimer) ==> View().Recovers(old(retryIndex)))
    {
      if View().Dropped() {
        RetryKeepsValid(View());
      }
      hide Session.Valid, Session.Dropped, Session.Recovers;
      if !reconnectEnabled || retryTimer {
        return;
      }
      CancelHeartbeat();
      if !active {
        recoveryPending := true;
        status := Connecting;
        return;
      }
      if retryIndex >= retryDelays {
        reconnectEnabled := false;
        status := ServerUnavailable;
        return;
      }
      retryIndex := retryIndex + 1;
      status := Connecting;
      retryTimer := true;
    }

    // ---- Connections ----

    // `fails`: the transport's connect throws.
    method StartConnection(fails: bool)
      modifies this
      ensures View() == old(View()).StartConnection(fails)
      ensures active && !fails ==>
                connection == Some(generation) && status == Connecting && retryIndex == old(retryIndex)
      ensures generation == old(generation) + (if active then 1 else 0) && active == old(active)
    {
      hide Session.ScheduleRetry, Session.CancelHeartbeat;
      CancelHeartbeat();
      if !active {
        recoveryPending := true;
        status := Connecting;
        return;
      }
      generation := generation + 1;
      status := Connecting;
      Open(fails);
    }

    method Open(fails: bool)
      modifies this
      ensures View() == if fails then old(View()).(connection := None).ScheduleRetry()
                        else old(View()).(connection := Some(generation), sent := [], desiredAt := [])
      ensures generation == old(generation) && active == old(active)
    {
      hide Session.ScheduleRetry, Session.Dropped, Session.Valid, Session.Recovers;
      if fails {
        Drop();
        ScheduleRetry();
      } else {
        connection := Some(generation);
        sent, desiredAt := [], [];
      }
    }

    method Connect(fails: bool)
      requires Valid()
      modifies this
      ensures Valid() && View() == old(View()).Connect(fails)
      ensures old(status) == Connecting || old(status) == Connected ==> View() == old(View())
      ensures !(old(status) == Connecting || old(status) == Connected) && active ==>
                && generation == old(generation) + 1
                && if fails then View().Recovers(0) else connection == Some(generation) && retryIndex == 0
    {
      ConnectKeepsValid(View(), fails);
      hide Session.Valid, Session.Recovers;
      if status == Connecting || status == Connected {
        return;
      }
      reconnectEnabled := true;
      retryIndex := 0;
      retryTimer := false;
      StartConnection(fails);
    }

    method SetActive(value: bool, fails: bool)
      requires Valid()
      modifies this
      ensures Valid() && View() == old(View()).SetActive(value, fails) && active == value
      ensures old(connection).Some? ==> connection == old(connection) && status == old(status) && sent == old(sent)
      ensures value && old(recoveryPending) && !fails ==>
                connection == Some(generation) && generation == old(generation) + 1
    {
      SetActiveKeepsValid(View(), value, fails);
      hide Session.ScheduleRetry, Carries;
      if active == value {
        return;
      }
      active := value;
      if !value {
        if reconnectEnabled && (retryTimer || connection.None?) {
          recoveryPending := true;
        }
        CancelAllTimers();
        return;
      }
      if !reconnectEnabled {
        return;
      }
      if status == Connected && connection.Some? {
        ScheduleNextPing();
        return;
      }
      if !recoveryPending || connection.Some? || retryTimer {
        return;
      }
      recoveryPending := false;
      StartConnection(fails);
    }

    // A transport error, a failed send or a missed pong on the current connection.
    method HandleTransportFailure(gen: nat)
      modifies this
      ensures View() == old(View()).HandleTransportFailure(gen)
      ensures old(Valid()) ==> Valid() && retryIndex >= old(retryIndex)
      ensures old(Valid()) && gen == generation && old(reconnectEnabled) ==>
                if old(retryTimer) then retryTimer else View().Recovers(old(retryIndex))
      ensures gen != generation || !old(reconnectEnabled) ==> View() == old(View())
    {
      if Valid() {
        FailureKeepsValid(View(), gen);
      }
      hide Session.Valid, Session.Recovers, Session.ScheduleRetry, Session.Dropped, Session.HandleClose;
      if gen != generation || !reconnectEnabled {
        return;
      }
      Drop();
      ScheduleRetry();
    }

    method HandleClose(gen: nat)
      requires Valid()
      modifies this
      ensures Valid() && View() == old(View()).HandleClose(gen)
      ensures gen == generation ==> connection.None?
      ensures gen == generation && old(reconnectEnabled) ==>
                if old(retryTimer) then retryTimer else View().Recovers(old(retryIndex))
      ensures gen != generation ==> View() == old(View())
      ensures retryIndex >= old(retryIndex)
    {
      FailureKeepsValid(View(), gen);
      ClosedHasNone(View(), gen);
      hide Session.Valid, Session.Recovers, Session.ScheduleRetry, Session.Dropped, Session.HandleTransportFailure,
           Session.CancelHeartbeat;
      if gen != generation {
        return;
      }
      Close();
    }

    method Close()
      modifies this`connection, this`nextPingTimer, this`pongDeadline, this`awaitedPong, this`recoveryPending,
               this`status, this`reconnectEnabled, this`retryIndex, this`retryTimer
      ensures View() == old(View()).(connection := None).CancelHeartbeat().ScheduleRetry()
    {
      hide Session.CancelHeartbeat, Session.ScheduleRetry, Session.Dropped, Session.Valid, Session.Recovers, View;
      Drop();
      CancelHeartbeat();
      ScheduleRetry();
    }

    method Drop()
      modifies this`connection
      ensures View() == old(View()).(connection := None)
    {
      connection := None;
    }

    method FailTerminal(to: Status)
      requires Valid() && to != Connecting && to != Connected
      modifies this
      ensures Valid() && View() == old(View()).FailTerminal(to)
      ensures status == to && connection.None? && !reconnectEnabled && retryIndex == old(retryIndex)
    {
      TerminalKeepsValid(View(), to);
      hide Session.Valid, Session.EndRecovery;
      EndRecovery();
      status := to;
    }

    method EndRecovery()
      modifies this`reconnectEnabled, this`recoveryPending, this`nextPingTimer, this`pongDeadline, this`awaitedPong,
               this`retryTimer, this`connection
      ensures View() == old(View()).EndRecovery() && connection.None? && !reconnectEnabled
    {
      reconnectEnabled := false;
      recoveryPending := false;
      CancelAllTimers();
      connection := None;
    }

    // ---- Messages ----

    // Puts one message on the connection; a send that throws drops it instead.
    method SendNumbered(m: ClientMessage, fails: bool) returns (ok: bool)
      modifies this
      ensures View() == old(View()).SendNumbered(m, fails) && ok == (old(connection).Some? && !fails)
    {
      hide Session.HandleTransportFailure;
      nextSequence := if nextSequence == MAX_SAFE_SEQUENCE then 0 else nextSequence + 1;
      if connection.None? {
        return false;
      }
      if fails {
        HandleTransportFailure(generation);
        return false;
      }
      sent := sent + [m];
      desiredAt := desiredAt + [desiredButtons];
      ok := true;
    }

    method SendStateSync(fails: bool) returns (ok: bool)
      modifies this
      ensures View() == old(View()).SendStateSync(fails) && ok == (old(connection).Some? && !fails)
    {
      hide Session.SendNumbered;
      ok := SendNumbered(StateSync(InOrder(desiredButtons, BUTTON_ORDER), nextSequence), fails);
    }

    method HandleWelcome(fails: bool)
      requires Valid() && connection.Some?
      modifies this
      ensures View() == old(View()).HandleWelcome(fails)
      ensures Valid() <==> fails || !old(PongAwaited())
      ensures !fails ==> status == Connected && retryIndex == 0 && connection == old(connection)
                         && |sent| == |old(sent)| + 1 && sent[|sent| - 1].StateSync?
      ensures fails ==> View().Recovers(0)
    {
      WelcomeKeepsValid(View(), fails);
      hide Session.Valid, Session.Recovers, Session.SendStateSync;
      retryIndex := 0;
      recoveryPending := false;
      status := Connected;
      var ok := SendStateSync(fails);
      if ok {
        ScheduleNextPing();
      }
    }

    predicate PongAwaited()
      reads this
    {
      status == Connected && active && pongDeadline.Some?
    }

    // A message on the connection of generation `gen`. Only a second welcome, and only while a pong is
    // awaited, disturbs the invariant, and then nothing of it but the heartbeat.
    method HandleMessage(gen: nat, message: ServerMessage, fails: bool)
      requires Valid()
      requires gen == generation ==> connection.Some?
      modifies this
      ensures View() == old(View()).HandleMessage(gen, message, fails)
      ensures Valid() <==> !(gen == old(generation) && message.Welcome? && !fails && old(PongAwaited()))
      ensures View().NeverStuck() && View().Coherent() && (connection.Some? ==> View().Replicates())
      ensures old(generation) != gen ==> View() == old(View())
      ensures old(generation) == gen ==>
                match message
                case Rejected(reason) => status == RejectionStatus(reason) && connection.None?
                case Unparsable => status == IncompatibleProtocol && connection.None?
                case Welcome => if fails then View().Recovers(0) else status == Connected && retryIndex == 0
                case ControllerDisconnected => View().Recovers(old(retryIndex))
                case Pong(_) => connection == old(connection) && sent == old(sent)
    {
      MessageKeepsValid(View(), gen, message, fails);
      ConnectedHasNoRetry(View());
      hide Session.Valid, Session.Recovers, Session.NeverStuck, Session.Coherent, Session.Replicates,
           Session.HandleTransportFailure, Session.HandleWelcome;
      if gen != generation {
        return;
      }
      match message
      case Unparsable => FailTerminal(IncompatibleProtocol);
      case Welcome => HandleWelcome(fails);
      case Rejected(reason) => FailTerminal(RejectionStatus(reason));
      case Pong(sequence) =>
        if status != Connected || awaitedPong.None? || sequence != awaitedPong.value {
          return;
        }
        awaitedPong := None;
        pongDeadline := None;
        ScheduleNextPing();
      case ControllerDisconnected => HandleTransportFailure(gen);
    }

    // ---- Timer callbacks ----

    method RetryFires(fails: bool)
      requires Valid() && retryTimer
      modifies this
      ensures Valid() && View() == old(View()).RetryFires(fails)
      ensures generation == old(generation) + 1
      ensures if fails then View().Recovers(old(retryIndex))
              else connection == Some(generation) && !retryTimer && retryIndex == old(retryIndex)
    {
      RetryFiresKeepsValid(View(), fails);
      hide Session.ScheduleRetry, Session.Recovers, Carries;
      retryTimer := false;
      if reconnectEnabled {
        StartConnection(fails);
      }
    }

    method PingFires(fails: bool)
      requires Valid() && nextPingTimer
      modifies this
      ensures Valid() && View() == old(View()).PingFires(fails)
      ensures if fails then View().Recovers(old(retryIndex))
              else sent == old(sent) + [Ping(old(nextSequence))] && pongDeadline == Some(old(nextSequence))
                   && !nextPingTimer && retryIndex == old(retryIndex)
    {
      PingKeepsValid(View(), fails);
      hide Session.Recovers, Session.HandleTransportFailure, Carries;
      nextPingTimer := false;
      if status != Connected {
        return;
      }
      var sequence := nextSequence;
      awaitedPong := Some(sequence);
      pongDeadline := Some(sequence);
      var ok := SendNumbered(Ping(sequence), fails);
    }

    method PongDeadlineFires()
      requires Valid() && pongDeadline.Some?
      modifies this
      ensures Valid() && View() == old(View()).PongDeadlineFires()
      ensures View().Recovers(old(retryIndex))
    {
      PongDeadlineKeepsValid(View());
      hide Session.Valid, Session.Recovers, Session.HandleTransportFailure;
      var sequence := pongDeadline.value;
      pongDeadline := None;
      if awaitedPong == Some(sequence) {
        awaitedPong := None;
        HandleTransportFailure(generation);
      }
    }

    // ---- Buttons ----

    method SetButton(button: Button, pressed: bool, fails: bool)
      requires Valid()
      modifies this
      ensures Valid() && View() == old(View()).SetButton(button, pressed, fails)
      ensures desiredButtons == if pressed then old(desiredButtons) + {button} else old(desiredButtons) - {button}
      ensures old(status) == Connected && (button in old(desiredButtons)) != pressed && !fails ==>
                sent == old(sent) + [if pressed then ButtonDown(button, old(nextSequence))
                                     else ButtonUp(button, old(nextSequence))]
      ensures (button in old(desiredButtons)) == pressed ==> View() == old(View())
      ensures old(connection).Some? && connection.None? ==> View().Recovers(old(retryIndex))
    {
      SetButtonKeepsValid(View(), button, pressed, fails);
      hide Session.Recovers, Carries;
      if pressed == (button in desiredButtons) {
        return;
      }
      desiredButtons := if pressed then desiredButtons + {button} else desiredButtons - {button};
      pressedButtons := desiredButtons;
      if status == Connected {
        var m := if pressed then ButtonDown(button, nextSequence) else ButtonUp(button, nextSequence);
        var ok := SendNumbered(m, fails);
      }
    }

    method SyncButtons(buttons: seq<Button>, fails: bool)
      requires Valid()
      modifies this
      ensures Valid() && View() == old(View()).SyncButtons(buttons, fails)
      ensures desiredButtons == ButtonsOf(buttons)
      ensures old(status) == Connected && !fails ==>
                |sent| == |old(sent)| + 1 && sent[..|sent| - 1] == old(sent) && sent[|sent| - 1].StateSync?
      ensures old(connection).Some? && connection.None? ==> View().Recovers(old(retryIndex))
    {
      SyncButtonsKeepsValid(View(), buttons, fails);
      ListedButtons(ButtonsOf(buttons));
      hide Session.Recovers, Carries, InOrder;
      desiredButtons := ButtonsOf(InOrder(ButtonsOf(buttons), BUTTON_ORDER));
      pressedButtons := desiredButtons;
      if status == Connected {
        var ok := SendStateSync(fails);
      }
    }

    method Disconnect(fails: bool)
      requires Valid()
      modifies this
      ensures Valid() && View() == old(View()).Disconnect(fails)
      ensures status == Disconnected && connection.None? && desiredButtons == {} && retryIndex == 0
    {
      assert ButtonsOf([]) == {};
      DisconnectKeepsValid(View(), fails);
      hide Session.Valid, Session.SyncButtons;
      if status == Connected {
        SyncButtons([], fails);
      } else {
        desiredButtons := {};
      }
      TearDown();
    }

    // Whatever was going on, nothing of it is left.
    method TearDown()
      modifies this
      ensures View() == old(View()).TearDown()
      ensures status == Disconnected && connection.None? && retryIndex == 0 && desiredButtons == old(desiredButtons)
    {
      hide Session.EndRecovery;
      EndRecovery();
      generation := generation + 1;
      retryIndex := 0;
      status := Disconnected;
      pressedButtons := desiredButtons;
    }
  }

  lemma ClosedHasNone(s: Session, gen: nat)
    ensures gen == s.generation ==> s.HandleClose(gen).connection.None?
  {
  }

  lemma ConnectedHasNoRetry(s: Session)
    requires s.Valid()
    ensures s.connection.Some? ==> s.reconnectEnabled && !s.retryTimer
  {
  }

  method Occurs(s: ControllerSession, h: Happening)
    requires s.Valid()
    modifies s
    ensures s.Valid() && s.View() == Happened(old(s.View()), h)
  {
    HappenedKeepsValid(s.View(), h);
    hide Session.Valid, Session.Recovers, Session.NeverStuck, Session.Coherent, Session.Replicates, Session.Connect,
         Session.Disconnect, Session.SetActive, Session.SetButton, Session.SyncButtons, Session.HandleMessage,
         Session.HandleClose, Session.HandleTransportFailure, Session.RetryFires, Session.PingFires,
         Session.PongDeadlineFires;
    match h
    case UserConnects(fails) => s.Connect(fails);
    case UserDisconnects(fails) => s.Disconnect(fails);
    case Visibility(active, fails) => s.SetActive(active, fails);
    case ButtonChanges(button, pressed, fails) => s.SetButton(button, pressed, fails);
    case ButtonsReplaced(buttons, fails) => s.SyncButtons(buttons, fails);
    case MessageArrives(generation, message, fails) =>
      if generation != s.generation || (s.connection.Some? && !(message.Welcome? && s.PongAwaited())) {
        s.HandleMessage(generation, message, fails);
      }
    case ConnectionCloses(generation) => s.HandleClose(generation);
    case TransportFails(generation) => s.HandleTransportFailure(generation);
    case RetryDue(fails) => if s.retryTimer { s.RetryFires(fails); }
    case PingDue(fails) => if s.nextPingTimer { s.PingFires(fails); }
    case PongOverdue => if s.pongDeadline.Some? { s.PongDeadlineFires(); }
  }

  // The object follows its happenings as the values do, so everything stated of histories holds of it:
  // it is never stuck, its timers match its status, its retries are those scheduled since the delays
  // were last reset, and its connection replicates the desired buttons.
  method Run(retryDelays: nat, initialSequence: Sequence, happenings: seq<Happening>) returns (s: ControllerSession)
    ensures s.Valid()
    ensures var h := History(retryDelays, initialSequence, happenings);
            s.View() == h.At(|happenings|) && s.retryIndex == h.Scheduled(|happenings|) <= retryDelays
    ensures s.reconnectEnabled && s.connection.None? ==> if s.active then s.retryTimer else s.recoveryPending
    ensures s.status == Connected && s.active ==> s.nextPingTimer != s.pongDeadline.Some?
    ensures s.connection.Some? ==> Carries(s.sent, s.desiredAt)
    ensures s.status == Connected ==> Held(s.sent) == s.desiredButtons
  {
    ghost var h := History(retryDelays, initialSequence, happenings);
    s := new ControllerSession(retryDelays, initialSequence);
    for i := 0 to |happenings|
      invariant fresh(s) && s.Valid() && s.View() == h.At(i)
    {
      hide ControllerSession.Valid, Happened;
      Occurs(s, happenings[i]);
    }
    RetriesAreCounted(h, |happenings|);
    if s.status == Connected {
      SentAddsUp(s.View());
    }
  }
}
