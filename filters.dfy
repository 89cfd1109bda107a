/** The adaptive exponential smoothers of the autopilot: `HeadingOffset`, the
    circular filter behind the GPS, wind and true-wind compass offsets, and
    the plain moving averages of the speeds. */
module Filters {
  import opened Angles

  /** The blend `d*sample + (1-d)*prev` that every filter of the autopilot
      applies. For a factor `d` in `[0, 1]` it is a convex combination: the
      result lies between the previous value and the sample. */
  function Blend(d: real, sample: real, prev: real): (r: real)
    ensures 0.0 <= d <= 1.0 && prev <= sample ==> prev <= r <= sample
    ensures 0.0 <= d <= 1.0 && sample <= prev ==> sample <= r <= prev
    ensures d == 0.0 ==> r == prev
    ensures d == 1.0 ==> r == sample
  {
    BlendAsStep(d, sample, prev);
    ConvexStep(d, sample - prev);
    d * sample + (1.0 - d) * prev
  }

  /** Blending is a step of `d` times the distance from the old value to the sample. */
  lemma BlendAsStep(d: real, sample: real, prev: real)
    ensures d * sample + (1.0 - d) * prev == prev + d * (sample - prev)
  {
    assert (1.0 - d) * prev == prev - d * prev;
    assert d * (sample - prev) == d * sample - d * prev;
  }

  /** Scaling by a factor in `[0, 1]` keeps a quantity between zero and itself,
      and within `[-b * d, b * d]` when it was within `[-b, b]`. */
  lemma ScaleBounds(d: real, e: real, b: real)
    requires 0.0 <= d <= 1.0
    requires -b <= e <= b
    ensures 0.0 <= e ==> 0.0 <= d * e <= e
    ensures e <= 0.0 ==> e <= d * e <= 0.0
    ensures -b * d <= d * e <= b * d
  {
    assert d * (b - e) >= 0.0;
    assert d * (b + e) >= 0.0;
    if 0.0 <= e {
      assert d * e <= 1.0 * e;
    } else {
      assert d * e >= 1.0 * e;
    }
  }

  /** A step scaled by a factor in `[0, 1]` keeps its sign and does not overshoot. */
  lemma ConvexStep(d: real, e: real)
    ensures 0.0 <= d <= 1.0 && 0.0 <= e ==> 0.0 <= d * e <= e
    ensures 0.0 <= d <= 1.0 && e <= 0.0 ==> e <= d * e <= 0.0
  {
    if 0.0 <= d <= 1.0 {
      ScaleBounds(d, e, if 0.0 <= e then e else -e);
    }
  }

  /** The new filter value after `HeadingOffset.update(offset, d)` from `value`:
      the sample is first resolved into the branch of the current value, then
      blended and resolved near zero. */
  function OffsetUpdate(value: real, offset: real, d: real): (r: real)
    ensures -180.0 <= r < 180.0
  {
    Resolv(Blend(d, Resolv(offset, value), value), 0.0)
  }

  /** The blended value differs from the filter value by `d` times the turn
      from the value to the sample. */
  lemma BlendByTurn(value: real, near: real, turn: real, d: real, r: real)
    requires near - value == turn
    requires r == Resolv(Blend(d, near, value), 0.0)
    ensures Congruent(r, value + d * turn)
  {
    BlendAsStep(d, near, value);
    assert Congruent(r, Blend(d, near, value));
  }

  /** The update moves the filter, modulo whole turns, by `d` times the signed
      shortest turn from its value to the sample, whatever branch the sample
      was given in. */
  lemma OffsetUpdateTurn(value: real, offset: real, d: real)
    ensures Congruent(OffsetUpdate(value, offset, d), value + d * Resolv(offset - value, 0.0))
  {
    var near := Resolv(offset, value);
    var turn := Resolv(offset - value, 0.0);
    var r := OffsetUpdate(value, offset, d);
    assert near - value == turn by { ResolvRelative(offset, value); }
    assert r == Resolv(Blend(d, near, value), 0.0);
    BlendByTurn(value, near, turn, d, r);
  }

  /** A turn `e` in `[-180, 180)` scaled by `d` in `[0, 1]` stays in
      `[-180, 180)` and within `180 * d` either way: with `OffsetStep`, one
      update turns a filter by at most `180 * d` degrees. */
  lemma ScaledTurnBounds(d: real, e: real)
    requires 0.0 <= d <= 1.0
    requires -180.0 <= e < 180.0
    ensures -180.0 * d <= d * e <= 180.0 * d
    ensures -180.0 <= d * e < 180.0
  {
    ScaleBounds(d, e, 180.0);
    if 0.0 <= e {
      assert d * e <= e;
    } else {
      assert d * e <= 0.0;
    }
  }

  /** A value congruent to `value + step`, for a step in `[-180, 180)`, lies
      exactly `step` degrees around the circle from `value`. */
  lemma TurnWithin(value: real, r: real, step: real)
    requires -180.0 <= step < 180.0
    requires Congruent(r, value + step)
    ensures Resolv(r - value, 0.0) == step
  {
    var k :| r - (value + step) == Turns(k);
    assert step - (r - value) == Turns(-k);
    ResolvUnique(r - value, 0.0, step);
  }

  /** For `d` in `[0, 1]` one update turns the filter by exactly `d` times the
      signed shortest turn to the sample, so a sample on the other side of the
      wraparound never makes it jump. */
  lemma OffsetStep(value: real, offset: real, d: real)
    requires 0.0 <= d <= 1.0
    ensures Resolv(OffsetUpdate(value, offset, d) - value, 0.0) == d * Resolv(offset - value, 0.0)
  {
    var e := Resolv(offset - value, 0.0);
    ScaledTurnBounds(d, e);
    OffsetUpdateTurn(value, offset, d);
    TurnWithin(value, OffsetUpdate(value, offset, d), d * e);
  }

  /** Only the direction of the sample matters: samples a whole number of turns
      apart give the same filter value. */
  lemma OffsetUpdateCongruentSample(value: real, o1: real, o2: real, d: real)
    requires Congruent(o1, o2)
    ensures OffsetUpdate(value, o1, d) == OffsetUpdate(value, o2, d)
  {
    ResolvCongruent(o1, o2, value);
  }

  /** A compass offset filter (`HeadingOffset`): an angle updated in place. */
  class HeadingOffset {
    var value: real

    constructor ()
      ensures value == 0.0
    {
      value := 0.0;
    }

    /** `HeadingOffset.update`: blend a new raw offset into the filter. */
    method Update(offset: real, d: real)
      modifies this
      ensures value == OffsetUpdate(old(value), offset, d)
      ensures -180.0 <= value < 180.0
    {
      var near := Resolv(offset, value);
      value := Resolv(Blend(d, near, value), 0.0);
    }
  }
}
