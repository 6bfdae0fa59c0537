/** `frange(x, y, jump)`: the arithmetic progression x, x + jump, x + 2 * jump, ...
    that stops before reaching y. */
module Progression {

  /** An upper bound on the number of values still to come; it drops by one per step. */
  function Remaining(x: real, y: real, jump: real): nat
    requires jump > 0.0
  {
    if x < y then ((y - x) / jump).Floor + 1 else 0
  }

  lemma RemainingDecreases(x: real, y: real, jump: real)
    requires jump > 0.0 && x < y
    ensures Remaining(x + jump, y, jump) < Remaining(x, y, jump)
  {
    var q := (y - x) / jump;
    var q' := (y - (x + jump)) / jump;
    assert jump / jump == 1.0;
    assert q' == (y - x) / jump - jump / jump;
  }

  /** The values the generator yields, in order. */
  function FRange(x: real, y: real, jump: real): seq<real>
    requires jump > 0.0
    decreases Remaining(x, y, jump)
  {
    if x < y then
      RemainingDecreases(x, y, jump);
      [x] + FRange(x + jump, y, jump)
    else
      []
  }

  /** The generator's loop: yield x while it is below y, then advance it by jump. */
  method FRangeLoop(x: real, y: real, jump: real) returns (r: seq<real>)
    requires jump > 0.0
    ensures r == FRange(x, y, jump)
  {
    r := [];
    var t := x;
    while t < y
      invariant r + FRange(t, y, jump) == FRange(x, y, jump)
      decreases Remaining(t, y, jump)
    {
      RemainingDecreases(t, y, jump);
      assert FRange(t, y, jump) == [t] + FRange(t + jump, y, jump);
      assert r + FRange(t, y, jump) == (r + [t]) + FRange(t + jump, y, jump);
      r := r + [t];
      t := t + jump;
    }
  }

  /** The k-th value is x + k * jump, values are strictly ascending by jump,
      all lie in [x, y), there is one iff x < y, and the last one is within
      one jump of y (so the count is the ceiling of (y - x) / jump). */
  lemma {:induction false} FRangeShape(x: real, y: real, jump: real)
    requires jump > 0.0
    ensures var r := FRange(x, y, jump);
      && (|r| > 0 <==> x < y)
      && (|r| > 0 ==> r[0] == x && y <= r[|r| - 1] + jump)
      && (forall k :: 0 <= k < |r| ==> r[k] == x + (k as real) * jump)
      && (forall k :: 0 <= k < |r| - 1 ==> r[k + 1] == r[k] + jump)
      && (forall k :: 0 <= k < |r| ==> x <= r[k] < y)
    decreases Remaining(x, y, jump)
  {
    var r := FRange(x, y, jump);
    if x < y {
      RemainingDecreases(x, y, jump);
      FRangeShape(x + jump, y, jump);
      var r' := FRange(x + jump, y, jump);
      assert r == [x] + r';
      forall k | 0 <= k < |r|
        ensures r[k] == x + (k as real) * jump
      {
        if k > 0 {
          assert r[k] == r'[k - 1];
          assert r'[k - 1] == x + jump + ((k - 1) as real) * jump;
        }
      }
      forall k | 0 <= k < |r| - 1
        ensures r[k + 1] == r[k] + jump
      {
        if k > 0 {
          assert r[k] == r'[k - 1] && r[k + 1] == r'[k];
        }
      }
      forall k | 0 <= k < |r|
        ensures x <= r[k] < y
      {
        if k > 0 {
          assert r[k] == r'[k - 1];
        }
      }
      if |r'| > 0 {
        assert r[|r| - 1] == r'[|r'| - 1];
      }
    }
  }
}
