// apps/remote-controller/src/features/controller/pointer-button-tracker.ts: which buttons the
// pointers on the screen hold together.
module Tracker {
  import opened Protocol

  const BUTTON_ORDER: seq<Button> := [Up, Down, Left, Right, A, B, Start, Select]

  datatype Transition = Transition(button: Button, pressed: bool)

  function InOrder(held: set<Button>, order: seq<Button>): seq<Button> {
    if order == [] then []
    else (if order[0] in held then [order[0]] else []) + InOrder(held, order[1..])
  }

  lemma {:induction false} InOrderHas(held: set<Button>, order: seq<Button>)
    ensures forall b :: b in InOrder(held, order) <==> b in order && b in held
  {
    if order != [] {
      InOrderHas(held, order[1..]);
    }
  }

  // BUTTON_ORDER.filter(held.has) lists exactly the held buttons.
  lemma ListedButtons(held: set<Button>)
    ensures ButtonsOf(InOrder(held, BUTTON_ORDER)) == held
  {
    InOrderHas(held, BUTTON_ORDER);
    forall b: Button
      ensures b in BUTTON_ORDER
    {
      match b
      case Up => assert BUTTON_ORDER[0] == b;
      case Down => assert BUTTON_ORDER[1] == b;
      case Left => assert BUTTON_ORDER[2] == b;
      case Right => assert BUTTON_ORDER[3] == b;
      case A => assert BUTTON_ORDER[4] == b;
      case B => assert BUTTON_ORDER[5] == b;
      case Start => assert BUTTON_ORDER[6] == b;
      case Select => assert BUTTON_ORDER[7] == b;
    }
  }

  function Changes(before: set<Button>, after: set<Button>, order: seq<Button>): seq<Transition> {
    if order == [] then []
    else (if (order[0] in before) == (order[0] in after) then [] else [Transition(order[0], order[0] in after)])
         + Changes(before, after, order[1..])
  }

  function Follow(held: set<Button>, ts: seq<Transition>): set<Button>
    decreases |ts|
  {
    if ts == [] then held
    else Follow(if ts[0].pressed then held + {ts[0].button} else held - {ts[0].button}, ts[1..])
  }

  // Following the changes listed for part of the order settles exactly that part.
  lemma {:induction false} FollowChanges(before: set<Button>, after: set<Button>, order: seq<Button>, now: set<Button>)
    requires forall b :: b in order ==> (b in now <==> b in before)
    requires forall i, j :: 0 <= i < j < |order| ==> order[i] != order[j]
    ensures var end := Follow(now, Changes(before, after, order));
            forall b :: b in end <==> if b in order then b in after else b in now
  {
    if order != [] {
      var b0 := order[0];
      var rest := Changes(before, after, order[1..]);
      var next := if (b0 in before) == (b0 in after) then now
                  else if b0 in after then now + {b0} else now - {b0};
      FollowChanges(before, after, order[1..], next);
      if (b0 in before) != (b0 in after) {
        assert ([Transition(b0, b0 in after)] + rest)[1..] == rest;
      } else {
        assert [] + rest == rest;
      }
    }
  }

  lemma {:induction false} ChangesLeadThere(before: set<Button>, after: set<Button>)
    ensures Follow(before, Changes(before, after, BUTTON_ORDER)) == after
  {
    FollowChanges(before, after, BUTTON_ORDER, before);
    InOrderHas(before, BUTTON_ORDER);
    ListedButtons(before);
    InOrderHas(after, BUTTON_ORDER);
    ListedButtons(after);
  }

  // Nothing but a change is listed, and each with where it leads.
  lemma {:induction false} OnlyChangesAreListed(before: set<Button>, after: set<Button>, order: seq<Button>)
    ensures forall t :: t in Changes(before, after, order) <==>
              t.button in order && (t.button in before) != (t.button in after) && t.pressed == (t.button in after)
  {
    if order != [] {
      OnlyChangesAreListed(before, after, order[1..]);
    }
  }

  function Union(pointers: map<int, set<Button>>): set<Button> {
    set p, b | p in pointers && b in pointers[p] :: b
  }

  lemma HeldByOne(pointers: map<int, set<Button>>, b: Button) returns (p: int)
    requires b in Union(pointers)
    ensures p in pointers && b in pointers[p]
  {
    p :| p in pointers && b in pointers[p];
  }

  method AnyOf<T>(ids: set<T>) returns (id: T)
    requires ids != {}
    ensures id in ids
  {
    id :| id in ids;
  }

  class PointerButtonTracker {
    var pointers: map<int, set<Button>>

    ghost predicate Valid()
      reads this
    {
      forall p :: p in pointers ==> pointers[p] != {}
    }

    function PressedButtons(): seq<Button>
      reads this
    {
      InOrder(Union(pointers), BUTTON_ORDER)
    }

    constructor ()
      ensures Valid() && pointers == map[]
    {
      pointers := map[];
    }

    // The transitions lead from the buttons held before to the union of all held pointers.
    method Set(pointerId: int, buttons: seq<Button>) returns (ts: seq<Transition>)
      requires Valid()
      modifies this
      ensures Valid()
      ensures pointers == if buttons == [] then old(pointers) - {pointerId}
              else old(pointers)[pointerId := ButtonsOf(buttons)]
      ensures Follow(old(Union(pointers)), ts) == Union(pointers)
      ensures ts == Changes(old(Union(pointers)), Union(pointers), BUTTON_ORDER)
    {
      var before := ButtonsOf(PressedButtons());
      var next := ButtonsOf(buttons);
      ListedButtons(Union(pointers));
      assert buttons != [] ==> buttons[0] in next;
      if next == {} {
        pointers := pointers - {pointerId};
      } else {
        pointers := pointers[pointerId := next];
      }
      ListedButtons(Union(pointers));
      ChangesLeadThere(before, Union(pointers));
      ts := Changes(before, ButtonsOf(PressedButtons()), BUTTON_ORDER);
    }

    method ReleaseButtons(buttons: seq<Button>) returns (ts: seq<Transition>)
      requires Valid()
      modifies this
      ensures Valid()
      ensures forall p :: p in pointers <==> p in old(pointers) && old(pointers)[p] - ButtonsOf(buttons) != {}
      ensures forall p :: p in pointers ==> pointers[p] == old(pointers)[p] - ButtonsOf(buttons)
      ensures Union(pointers) == old(Union(pointers)) - ButtonsOf(buttons)
      ensures Follow(old(Union(pointers)), ts) == Union(pointers)
      ensures ts == Changes(old(Union(pointers)), Union(pointers), BUTTON_ORDER)
    {
      var removed := ButtonsOf(buttons);
      var before := ButtonsOf(PressedButtons());
      ListedButtons(Union(pointers));
      ghost var was := pointers;
      var todo := pointers.Keys;
      while todo != {}
        invariant todo <= pointers.Keys <= old(pointers).Keys
        invariant forall p :: p in todo ==> pointers[p] == old(pointers)[p]
        invariant forall p :: p in old(pointers) && p !in todo ==>
                    if old(pointers)[p] - removed == {} then p !in pointers
                    else p in pointers && pointers[p] == old(pointers)[p] - removed
        decreases |todo|
      {
        var pointerId := AnyOf(todo);
        todo := todo - {pointerId};
        var retained := pointers[pointerId] - removed;
        if retained == {} {
          pointers := pointers - {pointerId};
        } else {
          pointers := pointers[pointerId := retained];
        }
      }
      forall b
        ensures b in Union(pointers) <==> b in Union(was) && b !in removed
      {
        if b in Union(was) && b !in removed {
          var p := HeldByOne(was, b);
          assert b in was[p] - removed;
          assert p in pointers && b in pointers[p];
        }
      }
      ListedButtons(Union(pointers));
      ChangesLeadThere(before, Union(pointers));
      ts := Changes(before, ButtonsOf(PressedButtons()), BUTTON_ORDER);
    }

    method Clear() returns (buttons: seq<Button>)
      modifies this
      ensures Valid() && pointers == map[] && Union(pointers) == {}
      ensures ButtonsOf(buttons) == old(Union(pointers))
    {
      buttons := PressedButtons();
      ListedButtons(Union(pointers));
      pointers := map[];
    }
  }
}
