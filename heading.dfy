/** The compass smoother of the frame update: a wrap-around adjustment, a step of
    1/20 of the way from the shown heading to the current one, and a reduction of
    the shown heading while it exceeds 360 degrees. */
module Heading {

  /** The divisor of the exponential step. */
  const Divisor: real := 20.0

  /** `d` is a whole, non-negative number of turns. */
  predicate WholeTurns(d: real) {
    d >= 0.0 && (d / 360.0).Floor as real == d / 360.0
  }

  /** `while (h > 360) h -= 360;` -- the result is `h` less whole turns, at most 360,
      and still positive when `h` was above 360. */
  function Reduce(h: real): (r: real)
    ensures r <= 360.0
    ensures WholeTurns(h - r)
    ensures h > 360.0 ==> r > 0.0
    decreases if h > 360.0 then h.Floor else 0
  {
    if h > 360.0 then
      var r := Reduce(h - 360.0);
      FloorShift((h - 360.0 - r) / 360.0);
      assert (h - r) / 360.0 == (h - 360.0 - r) / 360.0 + 1.0;
      r
    else
      assert (h - h) / 360.0 == 0.0;
      h
  }

  lemma FloorShift(x: real)
    ensures (x + 1.0).Floor == x.Floor + 1
  {
  }

  /** A value already at most 360 is left alone; one in (360, 720] loses exactly one turn. */
  lemma {:induction false} ReduceBelow720(h: real)
    requires h <= 720.0
    ensures Reduce(h) == if h > 360.0 then h - 360.0 else h
  {
    if h > 360.0 {
      assert Reduce(h - 360.0) == h - 360.0;
    }
  }

  /** Lines 292-302 as written: unless both headings lie below 180 or both above 180,
      360 is added to the current heading when it is below 180, otherwise to the
      shown heading. */
  function AdjustAsWritten(current: real, shown: real): (r: (real, real))
    ensures r.0 == current || r.0 == current + 360.0
    ensures r.1 == shown || r.1 == shown + 360.0
    ensures r.0 != current ==> current < 180.0 && r.1 == shown
  {
    if !((current < 180.0 && shown < 180.0) || (current > 180.0 && shown > 180.0)) then
      if current < 180.0 then (current + 360.0, shown) else (current, shown + 360.0)
    else (current, shown)
  }

  /** The evidently intended wrap-around: only when the two headings are more than
      half a turn apart is 360 added to the smaller one, so that the step goes the
      short way round. */
  function Adjust(current: real, shown: real): (r: (real, real))
    ensures r.0 == current || r.0 == current + 360.0
    ensures r.1 == shown || r.1 == shown + 360.0
    ensures r.0 == current || r.1 == shown
    ensures r.0 != current <==> shown - current > 180.0
    ensures r.1 != shown <==> current - shown > 180.0
  {
    if current - shown > 180.0 then (current, shown + 360.0)
    else if shown - current > 180.0 then (current + 360.0, shown)
    else (current, shown)
  }

  /** Lines 303-308: the shown heading moves 1/20 of the way to the current one and is reduced. */
  function Smooth(current: real, shown: real): (r: real)
    ensures r <= 360.0
    ensures WholeTurns(shown + (current - shown) / Divisor - r)
  {
    Reduce(shown + (current - shown) / Divisor)
  }

  /** One frame of the smoother as the source writes it: (new current, new shown). */
  function StepAsWritten(current: real, shown: real): (r: (real, real))
    ensures r.0 == current || (r.0 == current + 360.0 && current < 180.0)
    ensures r.1 <= 360.0
  {
    var (c, s) := AdjustAsWritten(current, shown);
    (c, Smooth(c, s))
  }

  /** One frame of the smoother with the intended wrap-around: (new current, new shown). */
  function Step(current: real, shown: real): (r: (real, real))
    ensures r.0 == current || (r.0 == current + 360.0 && shown - current > 180.0)
    ensures r.1 <= 360.0
  {
    var (c, s) := Adjust(current, shown);
    (c, Smooth(c, s))
  }

  /** Lines 292-308 on the two headings: returns the new current and shown headings. */
  method SmoothStep(current: real, shown: real) returns (c: real, s: real)
    ensures (c, s) == StepAsWritten(current, shown)
  {
    c, s := current, shown;
    if !((c < 180.0 && s < 180.0) || (c > 180.0 && s > 180.0)) {
      if c < 180.0 {
        c := c + 360.0;
      } else {
        s := s + 360.0;
      }
    }
    s := s + (c - s) / Divisor;
    ghost var stepped := s;
    while s > 360.0
      invariant Reduce(s) == Reduce(stepped)
      decreases s.Floor
    {
      s := s - 360.0;
    }
  }

  /** The ranges the smoother keeps: a current heading in [0, 720) and a shown heading in [0, 360]. */
  predicate InRange(current: real, shown: real) {
    0.0 <= current < 720.0 && 0.0 <= shown <= 360.0
  }

  /** Smoothing between two values in [0, 720] lands in [0, 360] once reduced. */
  lemma SmoothInRange(c: real, s: real)
    requires 0.0 <= c < 720.0 && 0.0 <= s <= 720.0
    ensures 0.0 <= Smooth(c, s) <= 360.0
  {
    var m := s + (c - s) / Divisor;
    assert 0.0 <= m <= 720.0;
    ReduceBelow720(m);
  }

  /** The smoother as written keeps its headings in range. */
  lemma StepAsWrittenInRange(current: real, shown: real)
    requires InRange(current, shown)
    ensures InRange(StepAsWritten(current, shown).0, StepAsWritten(current, shown).1)
  {
    var (c, s) := AdjustAsWritten(current, shown);
    SmoothInRange(c, s);
  }

  /** The corrected smoother keeps its headings in range. */
  lemma StepInRange(current: real, shown: real)
    requires InRange(current, shown)
    ensures InRange(Step(current, shown).0, Step(current, shown).1)
  {
    var (c, s) := Adjust(current, shown);
    SmoothInRange(c, s);
  }

  /** With both headings inside one turn, the corrected adjustment leaves them at most
      half a turn apart, so the shown heading moves towards the current one by the
      shorter arc, by at most 9 degrees a frame. */
  lemma StepTakesShortWay(current: real, shown: real)
    requires 0.0 <= current < 360.0 && 0.0 <= shown <= 360.0
    ensures -180.0 <= Adjust(current, shown).0 - Adjust(current, shown).1 <= 180.0
    ensures var (c, s) := Adjust(current, shown);
            WholeTurns(s + (c - s) / Divisor - Step(current, shown).1)
    ensures var (c, s) := Adjust(current, shown);
            -9.0 <= (c - s) / Divisor <= 9.0
  {
    var (c, s) := Adjust(current, shown);
    assert Step(current, shown).1 == Reduce(s + (c - s) / Divisor);
  }

  /** The source's adjustment when the heading crosses due south: current 181 and shown 179
      are 2 degrees apart, yet 360 is added to the shown heading, so it moves away from
      181 (to 161.1) instead of towards it (to 179.1 with the intended adjustment). */
  lemma AsWrittenCrossingSouth()
    ensures AdjustAsWritten(181.0, 179.0) == (181.0, 539.0)
    ensures StepAsWritten(181.0, 179.0).1 == 161.1
    ensures Step(181.0, 179.0).1 == 179.1
  {
    ReduceBelow720(539.0 + (181.0 - 539.0) / Divisor);
    ReduceBelow720(179.0 + (181.0 - 179.0) / Divisor);
  }

  /** In general the source's adjustment goes the long way round whenever the two headings
      straddle 180 degrees while less than half a turn apart, whichever of them is the
      larger: afterwards they are more than half a turn apart. */
  lemma AsWrittenLongWay(current: real, shown: real)
    requires 0.0 <= current < 360.0 && 0.0 <= shown <= 360.0
    requires (shown < 180.0 < current || current < 180.0 < shown) && -180.0 < current - shown < 180.0
    ensures var (c, s) := AdjustAsWritten(current, shown); c - s > 180.0 || s - c > 180.0
    ensures var (c, s) := AdjustAsWritten(current, shown);
            shown < 180.0 < current ==> s - c > 180.0
    ensures var (c, s) := AdjustAsWritten(current, shown);
            current < 180.0 < shown ==> c - s > 180.0
  {
  }
}
