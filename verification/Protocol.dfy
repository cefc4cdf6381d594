// crates/gb-network/src/message.rs and packages/protocol: what the controller and the desktop
// exchange, and what a list of messages means.
module Protocol {
  const MAX_SAFE_SEQUENCE: nat := 9007199254740991

  type Sequence = n: nat | n <= MAX_SAFE_SEQUENCE

  datatype Button = Up | Down | Left | Right | A | B | Start | Select

  datatype ClientMessage =
    | Hello(v1: bool, token: nat)
    | ButtonDown(button: Button, sequence: Sequence)
    | ButtonUp(button: Button, sequence: Sequence)
    | StateSync(buttons: seq<Button>, sequence: Sequence)
    | Ping(sequence: Sequence)

  function NextSequence(n: Sequence): Sequence {
    if n == MAX_SAFE_SEQUENCE then 0 else n + 1
  }

  predicate IsInput(m: ClientMessage) {
    m.ButtonDown? || m.ButtonUp? || m.StateSync?
  }

  function ButtonsOf(buttons: seq<Button>): set<Button> {
    set b | b in buttons
  }

  // The buttons held after one more message.
  function Applied(held: set<Button>, m: ClientMessage): set<Button> {
    match m
    case ButtonDown(b, _) => held + {b}
    case ButtonUp(b, _) => held - {b}
    case StateSync(bs, _) => ButtonsOf(bs)
    case _ => held
  }

  // The buttons held after a list of messages, starting from none.
  function Held(messages: seq<ClientMessage>): set<Button> {
    if messages == [] then {} else Applied(Held(messages[..|messages| - 1]), messages[|messages| - 1])
  }

  lemma HeldAppend(messages: seq<ClientMessage>, m: ClientMessage)
    ensures Held(messages + [m]) == Applied(Held(messages), m)
  {
  }
}
