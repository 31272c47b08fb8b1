/**
 * The circular train the length calculator works on: a ring of wagons, each
 * with one lamp, and a cursor designating the current wagon. Only the
 * operations the calculator uses are modelled: fetching a wagon by index, the
 * current, next and previous wagon, and switching or reading a lamp.
 */
module Trains {
  import opened Ring

  /** A wagon is known by its position on the ring. */
  type Wagon = nat

  class Train {
    /** lamps[i] is the lamp of wagon i; the train has lamps.Length wagons. */
    const lamps: array<bool>
    /** The current wagon. */
    var cursor: nat

    ghost predicate Valid()
      reads this
    {
      1 <= lamps.Length && cursor < lamps.Length
    }

    /** A ring of |initial| wagons with the given lamps, the cursor on wagon `start`. */
    constructor (initial: seq<bool>, start: nat)
      requires 1 <= |initial| && start < |initial|
      ensures Valid() && fresh(lamps)
      ensures lamps[..] == initial && cursor == start
    {
      lamps := new bool[|initial|](i requires 0 <= i < |initial| => initial[i]);
      cursor := start;
    }

    /** The wagon at index `i`; the cursor does not move. */
    method GetWagon(i: nat) returns (w: Wagon)
      requires Valid() && i < lamps.Length
      ensures w == i && w < lamps.Length
    {
      w := i;
    }

    /** The wagon under the cursor. */
    method GetCurrentWagon() returns (w: Wagon)
      requires Valid()
      ensures w == cursor && w < lamps.Length
    {
      w := cursor;
    }

    /** Moves the cursor one wagon forward, round the ring, and returns the new current wagon. */
    method GetNextWagon() returns (w: Wagon)
      requires Valid()
      modifies this`cursor
      ensures Valid() && w == cursor
      ensures cursor == Step(lamps.Length, old(cursor), true)
    {
      StepMod(lamps.Length, cursor, true);
      cursor := (cursor + 1) % lamps.Length;
      w := cursor;
    }

    /** Moves the cursor one wagon backward, round the ring, and returns the new current wagon. */
    method GetPreviousWagon() returns (w: Wagon)
      requires Valid()
      modifies this`cursor
      ensures Valid() && w == cursor
      ensures cursor == Step(lamps.Length, old(cursor), false)
    {
      StepMod(lamps.Length, cursor, false);
      cursor := (cursor + lamps.Length - 1) % lamps.Length;
      w := cursor;
    }

    /**
     * Whether the lamp of wagon `w` is on. Reading a lamp changes nothing, and
     * a lamp seen on means the train has at least one lit lamp.
     */
    function LampState(w: Wagon): (on: bool)
      requires w < lamps.Length
      reads lamps
      ensures on == lamps[w]
      ensures on ==> LitCount(lamps[..]) >= 1
    {
      lamps[w]
    }

    /** Switches the lamp of wagon `w` on; no other lamp changes. */
    method OnLamp(w: Wagon)
      requires w < lamps.Length
      modifies lamps
      ensures lamps[..] == old(lamps[..])[w := true]
    {
      lamps[w] := true;
    }

    /** Switches the lamp of wagon `w` off; no other lamp changes. */
    method OffLamp(w: Wagon)
      requires w < lamps.Length
      modifies lamps
      ensures lamps[..] == old(lamps[..])[w := false]
    {
      lamps[w] := false;
    }
  }
}
