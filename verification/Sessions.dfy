// crates/gb-network/src/session.rs: the per-connection protocol machine.
module Sessions {
  import opened Words
  import opened Protocol

  datatype Rejection = MalformedMessage | InvalidToken | UnsupportedVersion

  datatype Action = Welcome | Input(message: ClientMessage) | Pong(sequence: Sequence) | Refused(reason: Rejection)

  function SequenceOf(m: ClientMessage): Option<Sequence> {
    match m
    case ButtonDown(_, n) => Some(n)
    case ButtonUp(_, n) => Some(n)
    case StateSync(_, n) => Some(n)
    case Ping(n) => Some(n)
    case Hello(_, _) => None
  }

  // The messages after the hello follow one another: each carries a number, and the numbers are
  // contiguous modulo MAX_SAFE_SEQUENCE + 1, starting anywhere.
  predicate Contiguous(messages: seq<ClientMessage>) {
    && (forall i :: 0 <= i < |messages| ==> SequenceOf(messages[i]).Some?)
    && (forall i :: 0 < i < |messages| ==>
        SequenceOf(messages[i]).value == NextSequence(SequenceOf(messages[i - 1]).value))
  }

  class SessionMachine {
    const token: nat
    const expiresAt: nat
    var authenticated: bool
    var lastSequence: Option<Sequence>
    var emittedDisconnect: bool
    ghost var accepted: seq<ClientMessage> // numbered messages accepted so far

    // A connection that has accepted numbered messages accepted them as one contiguous list.
    ghost predicate Valid()
      reads this
    {
      && Contiguous(accepted)
      && (accepted != [] ==> authenticated)
      && lastSequence == if accepted == [] then None else SequenceOf(accepted[|accepted| - 1])
    }

    constructor (token: nat, expiresAt: nat)
      ensures Valid() && this.token == token && this.expiresAt == expiresAt
      ensures !authenticated && accepted == [] && !emittedDisconnect
    {
      this.token, this.expiresAt := token, expiresAt;
      authenticated, lastSequence, emittedDisconnect, accepted := false, None, false, [];
    }

    method AcceptHello(message: ClientMessage, receivedAt: nat) returns (action: Action)
      requires Valid()
      modifies this`authenticated
      ensures Valid()
      ensures action == Welcome || action.Refused?
      ensures action == Welcome <==>
              !old(authenticated) && message.Hello? && message.v1 && message.token == token && receivedAt < expiresAt
      ensures authenticated == (old(authenticated) || action == Welcome)
      ensures !old(authenticated) && message.Hello? && (message.token != token || receivedAt >= expiresAt) ==>
                action == Refused(InvalidToken)
      ensures !old(authenticated) && message.Hello? && message.token == token && receivedAt < expiresAt
              && !message.v1 ==>
                action == Refused(UnsupportedVersion)
      ensures old(authenticated) || !message.Hello? ==> action == Refused(MalformedMessage)
    {
      if authenticated {
        return Refused(MalformedMessage);
      }
      if !message.Hello? {
        return Refused(MalformedMessage);
      }
      if receivedAt >= expiresAt || message.token != token {
        return Refused(InvalidToken);
      }
      if !message.v1 {
        return Refused(UnsupportedVersion);
      }
      authenticated := true;
      action := Welcome;
    }

    method Apply(message: ClientMessage) returns (action: Action)
      requires Valid()
      modifies this`lastSequence, this`accepted
      ensures Valid()
      ensures action.Refused? <==>
              !(old(authenticated) && SequenceOf(message).Some? && Contiguous(old(accepted) + [message]))
      ensures action.Refused? ==> action.reason == MalformedMessage && accepted == old(accepted)
      ensures !action.Refused? ==>
                && accepted == old(accepted) + [message]
                && action == if message.Ping? then Pong(message.sequence) else Input(message)
    {
      if !authenticated {
        return Refused(MalformedMessage);
      }
      if SequenceOf(message).None? {
        return Refused(MalformedMessage);
      }
      var sequence := SequenceOf(message).value;
      ghost var extended := accepted + [message];
      assert forall i :: 0 <= i < |accepted| ==> extended[i] == accepted[i];
      if lastSequence.Some? {
        var previous := lastSequence.value;
        var expected := if previous == MAX_SAFE_SEQUENCE then 0 else previous + 1;
        if sequence != expected {
          assert SequenceOf(extended[|accepted|]).value != NextSequence(SequenceOf(extended[|accepted| - 1]).value);
          return Refused(MalformedMessage);
        }
      }
      lastSequence := Some(sequence);
      accepted := extended;
      action := if message.Ping? then Pong(sequence) else Input(message);
    }

    method Disconnect() returns (emits: bool)
      modifies this`emittedDisconnect
      ensures emits == (old(authenticated) && !old(emittedDisconnect))
      ensures emittedDisconnect == (old(emittedDisconnect) || emits)
    {
      if !authenticated || emittedDisconnect {
        return false;
      }
      emittedDisconnect := true;
      emits := true;
    }
  }
}
