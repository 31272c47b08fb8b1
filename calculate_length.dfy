/**
 * The length calculator: it finds the number of wagons of a circular train
 * using only the lamps as markers and moves of one wagon at a time.
 */
module Algorithm {
  import opened Ring
  import opened Trains

  /** The direction after `flips` reversals starting from `d`. */
  function Alternate(d: bool, flips: nat): bool
  {
    if flips == 0 then d else !Alternate(d, flips - 1)
  }

  /** After an even number of reversals the direction is back where it started. */
  lemma {:induction false} AlternateParity(d: bool, flips: nat)
    ensures Alternate(d, flips) == (d != (flips % 2 == 1))
  {
    if flips > 0 {
      AlternateParity(d, flips - 1);
    }
  }

  class CalculateLength {
    /** The train to measure; it may be absent. */
    const train: Train?
    /** The calculated length; 0 means "not calculated yet". */
    var length: nat
    /** Scan direction: true moves forward (next wagon), false backward. */
    var direction: bool

    /**
     * Without a train nothing is ever calculated; with one, the memoised
     * length is either not calculated yet or the number of wagons. Until a
     * calculation has run the direction is backward, so the first scan of
     * a calculation goes backward.
     */
    ghost predicate Valid()
      reads this, train
    {
      (length == 0 ==> !direction) &&
      (train == null ==> length == 0) &&
      (train != null ==> train.Valid() && (length == 0 || length == train.lamps.Length))
    }

    /** What a calculation may change: the cursor and the lamps of the train. */
    ghost function TrainParts(): set<object>
      reads this
    {
      if train == null then {} else {train, train.lamps}
    }

    constructor (train: Train?)
      requires train != null ==> train.Valid()
      ensures Valid() && this.train == train
      ensures length == 0 && !direction
    {
      this.train := train;
      length := 0;
      direction := false;
    }

    /**
     * The memoised length. The first call with a train present runs the
     * calculation, which needs the cursor on wagon 0; it then returns the
     * number of wagons and leaves every lamp off. Later calls, and calls
     * without a train, return the stored value and change nothing.
     */
    method GetLength() returns (r: nat)
      requires Valid()
      requires train != null && length == 0 ==> train.cursor == 0
      modifies this, TrainParts()
      ensures Valid() && r == length
      ensures train == null ==> r == 0 && unchanged(this)
      ensures old(length) != 0 ==>
        r == old(length) && unchanged(this) && unchanged(TrainParts())
      ensures train != null && old(length) == 0 ==>
        r == train.lamps.Length && train.cursor == 0 &&
        forall i :: 0 <= i < train.lamps.Length ==> !train.lamps[i]
    {
      if train != null && length == 0 {
        ghost var _ := Calculate();
      }
      r := length;
    }

    /**
     * Lights wagon 0, then scans, clears the lamp that stopped the scan and
     * walks back, reversing direction, until the walk back lands on a dark
     * wagon 0. Ends with `length` equal to the number of wagons and every
     * lamp off; `passes` counts the scans: one more than the lamps that
     * were on beforehand on wagons other than 0. Each scan but the last
     * reverses the direction.
     */
    method Calculate() returns (ghost passes: nat)
      requires train != null && train.Valid() && train.cursor == 0
      modifies this`length, this`direction, train`cursor, train.lamps
      ensures train.Valid() && train.cursor == 0
      ensures length == train.lamps.Length
      ensures forall i :: 0 <= i < train.lamps.Length ==> !train.lamps[i]
      ensures passes == 1 + LitCount(old(train.lamps[1..]))
      ensures passes >= 1 && direction == Alternate(old(direction), passes - 1)
    {
      var n := train.lamps.Length;
      ghost var initial := train.lamps[..];
      var startWagon := train.GetWagon(0);
      train.OnLamp(startWagon);
      LitCountFirstOn(initial);
      passes := 0;
      while true
        invariant train.Valid() && train.cursor == 0 && train.lamps[0]
        invariant passes + LitCount(train.lamps[..]) == 1 + LitCount(initial[1..])
        invariant direction == Alternate(old(direction), passes)
        decreases LitCount(train.lamps[..])
      {
        var _ := GetInDirection();
        ghost var seen := train.lamps[..];
        var stop := train.GetCurrentWagon();
        PassOutcome(seen, length, direction, stop);
        train.OffLamp(stop);
        startWagon := MoveToStartWagon();
        WalkInverse(n, 0, length, direction);
        passes := passes + 1;
        if !train.LampState(startWagon) {
          // The scan stopped at wagon 0 itself: it went once round the ring
          break;
        }
        direction := !direction;
      }
    }

    /**
     * Moves from the current wagon in the current direction until a lit
     * wagon is reached; `length` becomes the number of moves. So `length`
     * is between 1 and one turn, the wagon reached is lit and every wagon
     * passed before it is dark (see ScanStopsWithinGap for the bound by
     * the distance to any lit wagon).
     */
    method GetInDirection() returns (r: nat)
      requires train != null && train.Valid()
      requires exists t :: 0 <= t < train.lamps.Length && train.lamps[t]
      modifies this`length, train`cursor
      ensures train.Valid() && r == length
      ensures 1 <= length <= train.lamps.Length
      ensures train.cursor == Walk(train.lamps.Length, old(train.cursor), length, direction)
      ensures ScanStops(train.lamps[..], old(train.cursor), length, direction)
    {
      var n := train.lamps.Length;
      ghost var from := train.cursor;
      ghost var lamps := train.lamps[..];
      ghost var lit :| 0 <= lit < n && lamps[lit];
      ghost var bound := Gap(n, from, lit, direction);
      length := 1;
      if direction {
        var w := train.GetNextWagon();
        while !train.LampState(w)
          invariant train.Valid() && w == train.cursor
          invariant 1 <= length <= bound
          invariant train.cursor == Walk(n, from, length, direction)
          invariant forall k :: 1 <= k < length ==> !lamps[Walk(n, from, k, direction)]
          decreases bound - length
        {
          WalkGap(n, from, lit, length, direction);
          length := length + 1;
          w := train.GetNextWagon();
        }
      } else {
        var w := train.GetPreviousWagon();
        while !train.LampState(w)
          invariant train.Valid() && w == train.cursor
          invariant 1 <= length <= bound
          invariant train.cursor == Walk(n, from, length, direction)
          invariant forall k :: 1 <= k < length ==> !lamps[Walk(n, from, k, direction)]
          decreases bound - length
        {
          WalkGap(n, from, lit, length, direction);
          length := length + 1;
          w := train.GetPreviousWagon();
        }
      }
      r := length;
    }

    /**
     * Walks `length` wagons against the current direction and returns the
     * wagon reached, which is where the last scan started; with `length` 0
     * it returns the current wagon without moving.
     */
    method MoveToStartWagon() returns (w: Wagon)
      requires train != null && train.Valid()
      modifies train`cursor
      ensures train.Valid() && w == train.cursor
      ensures train.cursor == Walk(train.lamps.Length, old(train.cursor), length, !direction)
    {
      var n := train.lamps.Length;
      ghost var from := train.cursor;
      w := train.cursor;
      if length > 0 {
        if direction {
          for i := 0 to length
            invariant train.Valid()
            invariant train.cursor == Walk(n, from, i, false)
            invariant 0 < i ==> w == train.cursor
          {
            w := train.GetPreviousWagon();
          }
        } else {
          for i := 0 to length
            invariant train.Valid()
            invariant train.cursor == Walk(n, from, i, true)
            invariant 0 < i ==> w == train.cursor
          {
            w := train.GetNextWagon();
          }
        }
      } else {
        w := train.GetCurrentWagon();
      }
    }
  }

  /**
   * Measuring a train whose cursor starts on wagon 0, whatever its lamps:
   * the first call finds the number of wagons and leaves every lamp off, the
   * second returns the same value from memory.
   */
  method MeasureTwice(initial: seq<bool>) returns (first: nat, second: nat, after: seq<bool>)
    requires 1 <= |initial|
    ensures first == |initial| && second == first
    ensures |after| == |initial| && forall i :: 0 <= i < |after| ==> !after[i]
  {
    var train := new Train(initial, 0);
    var calculator := new CalculateLength(train);
    first := calculator.GetLength();
    second := calculator.GetLength();
    after := train.lamps[..];
  }

  /** Without a train the length is 0. */
  method MeasureNoTrain() returns (r: nat)
    ensures r == 0
  {
    var calculator := new CalculateLength(null);
    r := calculator.GetLength();
  }
}
