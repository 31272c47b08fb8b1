/**
 * Positions on a circular train of `n` wagons, numbered 0 .. n-1, and the
 * walks a cursor makes over them one wagon at a time.
 */
module Ring {

  /** One move of the cursor: to the next wagon (`forward`) or to the previous one. */
  function Step(n: nat, c: nat, forward: bool): (r: nat)
    requires c < n
    ensures r < n
  {
    if forward then (if c + 1 == n then 0 else c + 1)
    else (if c == 0 then n - 1 else c - 1)
  }

  /** A move is addition or subtraction of one, modulo the number of wagons. */
  lemma StepMod(n: nat, c: nat, forward: bool)
    requires c < n
    ensures forward ==> Step(n, c, forward) == (c + 1) % n
    ensures !forward ==> Step(n, c, forward) == (c + n - 1) % n
  {
    if forward { ModWrap(c + 1, n); } else { ModWrap(c + n - 1, n); }
  }

  /** Reducing a value below two turns modulo `n` takes off at most one turn. */
  lemma ModWrap(x: int, n: int)
    requires 0 < n && 0 <= x < 2 * n
    ensures x % n == if x < n then x else x - n
  {
    var q := x / n;
    assert x == n * q + x % n;
  }

  /** Moving one way and then the other puts the cursor back where it was. */
  lemma StepInverse(n: nat, c: nat, forward: bool)
    requires c < n
    ensures Step(n, Step(n, c, forward), !forward) == c
  {
  }

  /** The wagon reached from `c` after `k` moves in one direction. */
  function Walk(n: nat, c: nat, k: nat, forward: bool): (r: nat)
    requires c < n
    ensures r < n
  {
    if k == 0 then c else Step(n, Walk(n, c, k - 1, forward), forward)
  }

  /** Walks of at most one full turn, written without the ring's wrap-around. */
  lemma {:induction false} WalkClosed(n: nat, c: nat, k: nat, forward: bool)
    requires c < n && k <= n
    ensures forward ==> Walk(n, c, k, forward) == if c + k < n then c + k else c + k - n
    ensures !forward ==> Walk(n, c, k, forward) == if k <= c then c - k else c + n - k
  {
    if k > 0 {
      WalkClosed(n, c, k - 1, forward);
    }
  }

  /** A walk of k + 1 moves is one move followed by a walk of k moves. */
  lemma {:induction false} WalkShift(n: nat, c: nat, k: nat, forward: bool)
    requires c < n
    ensures Walk(n, c, k + 1, forward) == Walk(n, Step(n, c, forward), k, forward)
  {
    if k > 0 {
      WalkShift(n, c, k - 1, forward);
    }
  }

  /** Walking k wagons back the other way returns to the starting wagon, whatever k is. */
  lemma {:induction false} WalkInverse(n: nat, c: nat, k: nat, forward: bool)
    requires c < n
    ensures Walk(n, Walk(n, c, k, forward), k, !forward) == c
  {
    if k > 0 {
      var w := Walk(n, c, k - 1, forward);
      calc {
        Walk(n, Walk(n, c, k, forward), k, !forward);
        Walk(n, Step(n, w, forward), k, !forward);
        { WalkShift(n, Step(n, w, forward), k - 1, !forward); }
        Walk(n, Step(n, Step(n, w, forward), !forward), k - 1, !forward);
        { StepInverse(n, w, forward); }
        Walk(n, w, k - 1, !forward);
        { WalkInverse(n, c, k - 1, forward); }
        c;
      }
    }
  }

  /**
   * The number of moves from wagon `c` to wagon `t` in one direction:
   * a whole turn (`n`) when `t` is `c` itself.
   */
  function Gap(n: nat, c: nat, t: nat, forward: bool): (r: nat)
    requires c < n && t < n
    ensures 1 <= r <= n
    ensures r == n <==> t == c
  {
    if forward then (if c < t then t - c else t + n - c)
    else (if t < c then c - t else c + n - t)
  }

  /**
   * Within one turn, the walk from `c` reaches `t` exactly after Gap moves:
   * never earlier, and after a whole turn only when `t` is `c`.
   */
  lemma WalkGap(n: nat, c: nat, t: nat, k: nat, forward: bool)
    requires c < n && t < n && 1 <= k <= n
    ensures Walk(n, c, k, forward) == t <==> k == Gap(n, c, t, forward)
  {
    WalkClosed(n, c, k, forward);
  }

  /** A whole turn in either direction comes back to the starting wagon. */
  lemma WalkFullTurn(n: nat, c: nat, forward: bool)
    requires c < n
    ensures Walk(n, c, n, forward) == c
  {
    WalkGap(n, c, c, n, forward);
  }

  /** The number of lamps that are on. */
  function LitCount(s: seq<bool>): (r: nat)
    ensures r <= |s|
    ensures r == 0 <==> forall i :: 0 <= i < |s| ==> !s[i]
  {
    if s == [] then 0 else (if s[0] then 1 else 0) + LitCount(s[1..])
  }

  /** Switching off a lamp that is on lowers the count by exactly one. */
  lemma {:induction false} LitCountClear(s: seq<bool>, i: nat)
    requires i < |s| && s[i]
    ensures LitCount(s[i := false]) == LitCount(s) - 1
  {
    if i == 0 {
      assert s[i := false][1..] == s[1..];
    } else {
      assert s[i := false][1..] == s[1..][i - 1 := false];
      LitCountClear(s[1..], i - 1);
    }
  }

  /** With the first lamp on, the count is one more than the lamps on after it. */
  lemma LitCountFirstOn(s: seq<bool>)
    requires |s| >= 1
    ensures LitCount(s[0 := true]) == 1 + LitCount(s[1..])
  {
    assert s[0 := true][1..] == s[1..];
  }

  /**
   * A scan from wagon `from` in one direction stops after `k` moves: the
   * wagon reached is lit and every wagon passed on the way is dark.
   */
  ghost predicate ScanStops(s: seq<bool>, from: nat, k: nat, forward: bool)
  {
    from < |s| && 1 <= k <= |s| &&
    s[Walk(|s|, from, k, forward)] &&
    forall j :: 1 <= j < k ==> !s[Walk(|s|, from, j, forward)]
  }

  /** A scan stops no later than at the nearest lit wagon in its direction. */
  lemma ScanStopsWithinGap(s: seq<bool>, from: nat, k: nat, forward: bool, t: nat)
    requires ScanStops(s, from, k, forward)
    requires t < |s| && s[t]
    ensures k <= Gap(|s|, from, t, forward)
  {
    WalkGap(|s|, from, t, Gap(|s|, from, t, forward), forward);
  }

  /**
   * One pass of the calculation from wagon 0, with wagon 0 lit: clearing
   * the lamp where the scan stopped turns off exactly one lamp, and the
   * scan stopped at wagon 0 exactly when it went once round the ring, in
   * which case every other wagon is dark.
   */
  lemma PassOutcome(s: seq<bool>, k: nat, forward: bool, stop: nat)
    requires |s| >= 1 && s[0]
    requires ScanStops(s, 0, k, forward) && stop == Walk(|s|, 0, k, forward)
    ensures stop < |s| && LitCount(s[stop := false]) == LitCount(s) - 1
    ensures stop == 0 <==> k == |s|
    ensures stop == 0 ==> forall t :: 0 < t < |s| ==> !s[t]
  {
    var n := |s|;
    LitCountClear(s, stop);
    WalkGap(n, 0, 0, k, forward);
    if stop == 0 {
      forall t | 0 < t < n
        ensures !s[t]
      {
        WalkGap(n, 0, t, Gap(n, 0, t, forward), forward);
      }
    }
  }
}
