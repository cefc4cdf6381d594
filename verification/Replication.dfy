// The whole input path: what the phone puts on a connection, the desktop's protocol machine
// accepts, and the runtime turns into the button set the core sees.
module Replication {
  import opened Words
  import opened Protocol
  import opened Generations
  import Sessions
  import ControllerSessions

  // Pings are answered by the server and never reach the runtime; they change nothing.
  predicate HasInput(messages: seq<ClientMessage>) {
    exists i :: 0 <= i < |messages| && IsInput(messages[i])
  }

  // Messages of one connection, delivered in order to its own protocol machine and on to the
  // worker under its generation: all are accepted, and the core holds what they add up to.
  method Deliver(machine: Sessions.SessionMachine, inputs: RemoteInputs, id: ConnectionId, generation: nat,
                 cancelled: nat, messages: seq<ClientMessage>)
    requires machine.Valid() && machine.authenticated && machine.accepted == []
    requires Sessions.Contiguous(messages)
    requires generation > cancelled
    requires inputs.snapshot.Some? ==> inputs.snapshot.value.generation != generation
    modifies machine, inputs
    ensures machine.accepted == messages
    ensures inputs.core.Some? == old(inputs.core.Some?)
    ensures HasInput(messages) ==>
              && inputs.snapshot == Some(Snapshot(generation, Held(messages)))
              && (inputs.core.Some? ==> inputs.core.value == Some(Held(messages)))
  {
    for k := 0 to |messages|
      invariant machine.Valid() && machine.authenticated && machine.accepted == messages[..k]
      invariant inputs.core.Some? == old(inputs.core.Some?)
      invariant HasInput(messages[..k]) ==>
                  && inputs.snapshot == Some(Snapshot(generation, Held(messages[..k])))
                  && (inputs.core.Some? ==> inputs.core.value == Some(Held(messages[..k])))
      invariant !HasInput(messages[..k]) ==>
                  && Held(messages[..k]) == {}
                  && (inputs.snapshot.Some? ==> inputs.snapshot.value.generation != generation)
    {
      var m := messages[k];
      var upTo := messages[..k + 1];
      assert upTo == messages[..k] + [m];
      HeldAppend(messages[..k], m);
      InputAppend(messages[..k], m);
      assert Sessions.Contiguous(upTo) by {
        assert forall i :: 0 <= i <= k ==> upTo[i] == messages[i];
      }
      var action := machine.Apply(m);
      if action.Input? {
        var ok := inputs.ApplyControllerEvent(Message(id, action.message), generation, cancelled);
      }
    }
    assert messages[..|messages|] == messages;
  }

  lemma InputAppend(messages: seq<ClientMessage>, m: ClientMessage)
    ensures HasInput(messages + [m]) <==> HasInput(messages) || IsInput(m)
  {
    if HasInput(messages) {
      var i :| 0 <= i < |messages| && IsInput(messages[i]);
      assert IsInput((messages + [m])[i]);
    }
    if IsInput(m) {
      assert IsInput((messages + [m])[|messages|]);
    }
  }

  lemma ContiguousPrefix(messages: seq<ClientMessage>, k: nat)
    requires Sessions.Contiguous(messages) && k <= |messages|
    ensures Sessions.Contiguous(messages[..k])
  {
  }

  // Whatever prefix of a connection's messages has arrived, also after the phone gave the connection
  // up, the core's remote buttons are exactly the ones the phone wanted held when it sent the last
  // of them.
  method ReplicatePrefix(sent: seq<ClientMessage>, desiredAt: seq<set<Button>>, arrived: seq<ClientMessage>,
                         machine: Sessions.SessionMachine, inputs: RemoteInputs, id: ConnectionId, generation: nat,
                         cancelled: nat)
    requires ControllerSessions.Carries(sent, desiredAt) && arrived <= sent && arrived != []
    requires machine.Valid() && machine.authenticated && machine.accepted == []
    requires generation > cancelled
    requires inputs.snapshot.Some? ==> inputs.snapshot.value.generation != generation
    modifies machine, inputs
    ensures machine.accepted == arrived
    ensures inputs.snapshot == Some(Snapshot(generation, desiredAt[|arrived| - 1]))
    ensures inputs.core.Some? ==> inputs.core.value == Some(desiredAt[|arrived| - 1])
  {
    ghost var last := |arrived| - 1;
    assert arrived == sent[..last + 1];
    ContiguousPrefix(sent, |arrived|);
    assert IsInput(arrived[0]);
    assert Held(sent[..last + 1]) == desiredAt[last];
    Deliver(machine, inputs, id, generation, cancelled, arrived);
  }

  // What the protocol machine passes on of the messages it accepts.
  function PassedOn(messages: seq<ClientMessage>): seq<ClientMessage> {
    if messages == [] then [] else PassedOn(messages[..|messages| - 1]) + InputIn(messages[|messages| - 1])
  }

  // Pings change nothing.
  lemma {:induction false} PassedOnAddsUp(messages: seq<ClientMessage>)
    ensures Held(PassedOn(messages)) == Held(messages)
  {
    if messages != [] {
      var init, last := messages[..|messages| - 1], messages[|messages| - 1];
      PassedOnAddsUp(init);
      if IsInput(last) {
        HeldAppend(PassedOn(init), last);
      } else {
        assert PassedOn(messages) == PassedOn(init);
      }
    }
  }

  // Every initial stretch of what is passed on is what some initial stretch of the messages adds up to.
  lemma {:induction false} StretchOf(messages: seq<ClientMessage>, passed: seq<ClientMessage>) returns (k: nat)
    requires passed <= PassedOn(messages)
    ensures k <= |messages| && Held(passed) == Held(messages[..k]) && (passed != [] ==> k > 0)
  {
    if passed == PassedOn(messages) {
      k := |messages|;
      assert messages[..k] == messages;
      PassedOnAddsUp(messages);
    } else {
      var init := messages[..|messages| - 1];
      assert |passed| < |PassedOn(messages)| <= |PassedOn(init)| + 1;
      assert passed <= PassedOn(init);
      k := StretchOf(init, passed);
      assert init[..k] == messages[..k];
    }
  }

  // From the phone to the core, through the bounded queue and every interleaving of the two threads:
  // while a connection's block is open, the retained snapshot is at each moment the set the phone
  // wanted held when it sent one of its messages, a loaded core holds exactly that snapshot, and once
  // nothing is under way and no call has failed it is the set at the last message that arrived.
  lemma {:induction false} CoreFollowsPhone(labels: seq<Label>, sent: seq<ClientMessage>, desiredAt: seq<set<Button>>,
                                            arrived: seq<ClientMessage>)
    requires ControllerSessions.Carries(sent, desiredAt) && arrived <= sent
    requires var s := Run(Init(), labels); s.barrier.current.Some? && s.published == PassedOn(arrived)
    ensures var s := Run(Init(), labels);
            var g := s.barrier.current.value.generation;
            && (s.worker.core.Some? ==> s.worker.core.value == s.worker.Retained())
            && (s.worker.snapshot.Some? && s.worker.snapshot.value.generation == g ==>
                  s.worker.snapshot.value.state in desiredAt[..|arrived|])
            && (s.publisher.Within? && !s.publisher.failed && InputsOf(Pipeline(s), g) == [] && arrived != [] ==>
                  s.worker.snapshot == Some(Snapshot(g, desiredAt[|arrived| - 1])))
  {
    AppliedInOrder(labels);
    RunKeepsInv(labels);
    var s := Run(Init(), labels);
    var applied := AppliedFor(s.worker, s.barrier.current.value.generation);
    var k := StretchOf(arrived, applied);
    PassedOnAddsUp(arrived);
    if k > 0 {
      assert arrived[..k] == sent[..(k - 1) + 1];
      assert desiredAt[..|arrived|][k - 1] == desiredAt[k - 1];
    }
    if arrived != [] {
      assert arrived == sent[..(|arrived| - 1) + 1];
      assert Held(sent[..(|arrived| - 1) + 1]) == desiredAt[|arrived| - 1];
      FirstIsPassedOn(arrived);
    }
  }

  lemma {:induction false} FirstIsPassedOn(messages: seq<ClientMessage>)
    requires messages != [] && IsInput(messages[0])
    ensures PassedOn(messages) != []
  {
    if |messages| > 1 {
      FirstIsPassedOn(messages[..|messages| - 1]);
    } else {
      assert messages[..0] == [];
    }
  }
}
