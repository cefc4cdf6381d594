// apps/remote-controller/src/features/controller/use-controller-input.ts: touches on the screen
// become the desired buttons of the session.
module ControllerInputs {
  import opened Words
  import opened Protocol
  import opened Tracker
  import opened ControllerSessions

  // What can happen to the screen or to the session behind it. `fails` names the buttons whose message
  // the transport throws on.
  datatype Input =
    | Touch(pointerId: int, buttons: seq<Button>, fails: set<Button>)
    | Release(buttons: seq<Button>, fails: set<Button>)
    | ReleaseAll(throws: bool)
    | Elsewhere(happening: Happening)

  // Nothing but the touches has changed the desired buttons since they were last all released.
  predicate OnlyTouches(inputs: seq<Input>) {
    if inputs == [] then true
    else
      match inputs[|inputs| - 1]
      case ReleaseAll(_) => true
      case Elsewhere(h) =>
        OnlyTouches(inputs[..|inputs| - 1]) && !h.UserDisconnects? && !h.ButtonChanges? && !h.ButtonsReplaced?
      case _ => OnlyTouches(inputs[..|inputs| - 1])
  }

  class ControllerInput {
    const tracker: PointerButtonTracker
    const session: ControllerSession

    ghost predicate Valid()
      reads this, tracker, session
    {
      tracker.Valid() && session.Valid()
    }

    // The session wants exactly the buttons held by some pointer.
    ghost predicate Agree()
      reads this, tracker, session
    {
      session.desiredButtons == Union(tracker.pointers)
    }

    constructor (retryDelays: nat, initialSequence: Sequence)
      ensures Valid() && Agree() && fresh(tracker) && fresh(session)
    {
      tracker := new PointerButtonTracker();
      session := new ControllerSession(retryDelays, initialSequence);
    }

    method Apply(transitions: seq<Transition>, fails: set<Button>)
      requires Valid()
      modifies session
      ensures Valid() && session.desiredButtons == Follow(old(session.desiredButtons), transitions)
    {
      ghost var wanted := Follow(session.desiredButtons, transitions);
      assert transitions[0..] == transitions;
      for i := 0 to |transitions|
        invariant Valid() && Follow(session.desiredButtons, transitions[i..]) == wanted
      {
        hide ControllerSession.Valid, Session.SetButton, Session.Recovers;
        var t := transitions[i];
        session.SetButton(t.button, t.pressed, t.button in fails);
        assert transitions[i..][0] == t && transitions[i..][1..] == transitions[i + 1..];
      }
    }

    method SetPointerButtons(pointerId: int, buttons: seq<Button>, fails: set<Button>)
      requires Valid()
      modifies tracker, session
      ensures Valid() && (old(Agree()) ==> Agree())
      ensures tracker.pointers == if buttons == [] then old(tracker.pointers) - {pointerId}
              else old(tracker.pointers)[pointerId := ButtonsOf(buttons)]
    {
      hide ControllerSession.Valid, Union, Follow;
      var transitions := tracker.Set(pointerId, buttons);
      Apply(transitions, fails);
    }

    method ReleaseButtons(buttons: seq<Button>, fails: set<Button>)
      requires Valid()
      modifies tracker, session
      ensures Valid()
      ensures old(Agree()) ==>
                Agree() && session.desiredButtons == old(session.desiredButtons) - ButtonsOf(buttons)
    {
      hide ControllerSession.Valid, Union, Follow;
      var transitions := tracker.ReleaseButtons(buttons);
      Apply(transitions, fails);
    }

    method ReleaseAll(throws: bool)
      requires Valid()
      modifies tracker, session
      ensures Valid() && Agree() && session.desiredButtons == {}
    {
      hide ControllerSession.Valid;
      var released := tracker.Clear();
      session.SyncButtons([], throws);
      assert ButtonsOf([]) == {};
    }
  }

  lemma RetryKeepsDesired(s: Session)
    ensures s.ScheduleRetry().desired == s.desired
  {
  }

  lemma LossKeepsDesired(s: Session, gen: nat, fails: bool)
    ensures s.HandleTransportFailure(gen).desired == s.HandleClose(gen).desired == s.StartConnection(fails).desired
            == s.desired
  {
    RetryKeepsDesired(s.(connection := None));
    RetryKeepsDesired(s.(connection := None).CancelHeartbeat());
    RetryKeepsDesired(s.CancelHeartbeat().(generation := s.generation + 1, status := Connecting, connection := None));
    hide Session.ScheduleRetry;
  }

  lemma SendKeepsDesired(s: Session, m: ClientMessage, fails: bool)
    ensures s.SendNumbered(m, fails).desired == s.desired
  {
    LossKeepsDesired(s.(nextSequence := NextSequence(s.nextSequence)), s.generation, fails);
    hide Session.HandleTransportFailure;
  }

  lemma MessageKeepsDesired(s: Session, gen: nat, message: ServerMessage, fails: bool)
    ensures s.HandleMessage(gen, message, fails).desired == s.desired
  {
    SendKeepsDesired(s.(retryIndex := 0, recoveryPending := false, status := Connected),
                     StateSync(InOrder(s.desired, BUTTON_ORDER), s.nextSequence), fails);
    LossKeepsDesired(s, gen, fails);
    hide Session.SendNumbered, Session.HandleTransportFailure;
  }

  lemma TimersKeepDesired(s: Session, fails: bool)
    ensures s.PingFires(fails).desired == s.PongDeadlineFires().desired == s.RetryFires(fails).desired == s.desired
  {
    SendKeepsDesired(s.(nextPingTimer := false, awaitedPong := Some(s.nextSequence),
                        pongDeadline := Some(s.nextSequence)), Ping(s.nextSequence), fails);
    LossKeepsDesired(s.(pongDeadline := None, awaitedPong := None), s.generation, fails);
    LossKeepsDesired(s.(retryTimer := false), s.generation, fails);
    hide Session.SendNumbered, Session.HandleTransportFailure, Session.StartConnection;
  }

  lemma ConnectKeepsDesired(s: Session, value: bool, fails: bool)
    ensures s.Connect(fails).desired == s.SetActive(value, fails).desired == s.desired
  {
    LossKeepsDesired(s.(reconnectEnabled := true, retryIndex := 0, retryTimer := false), s.generation, fails);
    LossKeepsDesired(s.(active := value, recoveryPending := false), s.generation, fails);
    hide Session.StartConnection;
  }

  // Whatever else happens to the session keeps the desired buttons.
  lemma {:induction false} OthersKeepDesired(s: Session, h: Happening)
    requires !h.UserDisconnects? && !h.ButtonChanges? && !h.ButtonsReplaced?
    ensures Happened(s, h).desired == s.desired
  {
    hide Session.Connect, Session.SetActive, Session.HandleMessage, Session.HandleClose,
         Session.HandleTransportFailure, Session.RetryFires, Session.PingFires, Session.PongDeadlineFires;
    match h
    case UserConnects(fails) => ConnectKeepsDesired(s, true, fails);
    case Visibility(active, fails) => ConnectKeepsDesired(s, active, fails);
    case MessageArrives(generation, message, fails) => MessageKeepsDesired(s, generation, message, fails);
    case ConnectionCloses(generation) => LossKeepsDesired(s, generation, false);
    case TransportFails(generation) => LossKeepsDesired(s, generation, false);
    case RetryDue(fails) => TimersKeepDesired(s, fails);
    case PingDue(fails) => TimersKeepDesired(s, fails);
    case PongOverdue => TimersKeepDesired(s, false);
    case _ =>
  }

  // However touches, losses of the connection and recoveries interleave, the session wants exactly the
  // buttons held on the screen, unless something else changed them since they were last all released.
  method Run(retryDelays: nat, initialSequence: Sequence, inputs: seq<Input>) returns (c: ControllerInput)
    ensures c.Valid() && (OnlyTouches(inputs) ==> c.Agree())
  {
    c := new ControllerInput(retryDelays, initialSequence);
    for i := 0 to |inputs|
      invariant fresh(c.tracker) && fresh(c.session) && c.Valid() && (OnlyTouches(inputs[..i]) ==> c.Agree())
    {
      hide ControllerSession.Valid, PointerButtonTracker.Valid, Union, Happened;
      assert inputs[..i + 1][..i] == inputs[..i];
      match inputs[i]
      case Touch(pointerId, buttons, fails) => c.SetPointerButtons(pointerId, buttons, fails);
      case Release(buttons, fails) => c.ReleaseButtons(buttons, fails);
      case ReleaseAll(throws) => c.ReleaseAll(throws);
      case Elsewhere(h) =>
        if !h.UserDisconnects? && !h.ButtonChanges? && !h.ButtonsReplaced? {
          OthersKeepDesired(c.session.View(), h);
        }
        Occurs(c.session, h);
    }
    assert inputs[..|inputs|] == inputs;
  }
}
