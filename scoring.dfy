/**
 * The trapezoidal benefit curve of a `BenefitItem`: how the four corner
 * points q1..q4 are derived from a window `[low, high]`, a margin fraction
 * and an optional rollover, and how a value is scored against them.
 * Arithmetic is over `real`; Python's `int()` is modelled by `Trunc`.
 */
module Scoring {
  import opened Wrappers

  /** The corner points of a benefit window: ramp up on (q1, q2), plateau on [q2, q3], ramp down on (q3, q4). */
  datatype Corners = Corners(q1: real, q2: real, q3: real, q4: real)

  /** Python's `int()` applied to a float: it rounds toward zero, keeping the sign and dropping less than 1 in magnitude. */
  function Trunc(x: real): (n: int)
    ensures 0.0 <= x ==> 0 <= n && n as real <= x < n as real + 1.0
    ensures x < 0.0 ==> n <= 0 && x <= n as real && n as real - 1.0 < x
  {
    if 0.0 <= x then x.Floor else -((-x).Floor)
  }

  /** Python truthiness of the `rollover` attribute: it is set and nonzero. */
  predicate RolloverActive(rollover: Option<real>)
  {
    rollover.Some? && rollover.value != 0.0
  }

  /** The window covers the whole period `[0, rollover]`, so its edges are made square. */
  predicate FullWindow(low: real, high: real, rollover: Option<real>)
  {
    RolloverActive(rollover) && high == rollover.value && low == 0.0
  }

  /**
   * The ramp half-width: the margin fraction of the window size, truncated
   * toward zero. A margin of at most one half keeps it within half the
   * window, so the two ramps of an ordered window do not overlap.
   */
  function MarginSize(low: real, high: real, margin: real): (m: int)
    ensures margin == 0.0 ==> m == 0
    ensures low <= high && 0.0 <= margin <= 0.5 ==> 0 <= m && 2.0 * (m as real) <= high - low
    ensures high < low && 0.0 <= margin < 0.5 ==> m <= 0 && high - low < 2.0 * (m as real)
  {
    var w := high - low;
    MarginFractionBounds(margin, w);
    var n := Trunc(margin * w);
    assert 0.0 <= margin * w ==> n as real <= margin * w;
    n
  }

  /** A margin fraction below one half of a width lies between zero and half that width. */
  lemma MarginFractionBounds(margin: real, w: real)
    ensures 0.0 <= margin <= 0.5 && 0.0 <= w ==> 0.0 <= margin * w <= 0.5 * w
    ensures 0.0 <= margin < 0.5 && w < 0.0 ==> 0.5 * w < margin * w <= 0.0
  {
    if 0.0 <= margin <= 0.5 && 0.0 <= w {
      assert 0.0 <= (0.5 - margin) * w;
    }
    if 0.0 <= margin < 0.5 && w < 0.0 {
      assert 0.0 < (0.5 - margin) * (-w);
    }
  }

  /**
   * The corners a window recomputes whenever its parameters change. Outside
   * the full-period case, each bound is the midpoint of its ramp and both
   * ramps are twice the margin size wide.
   */
  function CornersFor(low: real, high: real, margin: real, rollover: Option<real>): (c: Corners)
    ensures !FullWindow(low, high, rollover) ==>
      var m := MarginSize(low, high, margin) as real;
      && c.q2 - c.q1 == c.q4 - c.q3 == 2.0 * m
      && c.q1 + c.q2 == 2.0 * low
      && c.q3 + c.q4 == 2.0 * high
  {
    var m := MarginSize(low, high, margin) as real;
    if FullWindow(low, high, rollover) then Corners(low, low, high, high)
    else Corners(low - m, low + m, high - m, high + m)
  }

  predicate Ordered(c: Corners)
  {
    c.q1 <= c.q2 <= c.q3 <= c.q4
  }

  /** The branches of the scorer, in the order it tries them. */
  datatype Region = Plateau | Outside | RampUp | RampDown

  /**
   * Which branch a value reaches. Whatever the corners, a value that reaches
   * a ramp lies strictly inside that ramp, so its width is positive.
   */
  function Classify(c: Corners, v: real): (g: Region)
    ensures g == RampUp ==> c.q1 < v < c.q2
    ensures g == RampDown ==> c.q3 < v < c.q4 && c.q2 <= v
  {
    if c.q2 <= v <= c.q3 then Plateau
    else if v <= c.q1 || v >= c.q4 then Outside
    else if c.q1 < v < c.q2 then RampUp
    else RampDown
  }

  /** How far along the ramp from `a` to `b` the value `v` is, written as the scorer writes it: a slope times a distance. */
  function Ramp(a: real, b: real, v: real): real
    requires a < b
  {
    var slope := 1.0 / (b - a);
    slope * (v - a)
  }

  /** A point strictly inside a ramp is strictly between 0 and 1 along it. */
  lemma RampFraction(a: real, b: real, v: real)
    requires a < v < b
    ensures 0.0 < Ramp(a, b, v) < 1.0
  {
    var s := 1.0 / (b - a);
    assert s * (b - a) == 1.0;
    assert 0.0 < s;
    assert s * (v - a) < s * (b - a);
  }

  /**
   * The score of a value against the corners: 1 on the plateau (checked
   * first, so a square window scores 1 at its edges), 0 at or beyond q1 and
   * q4, and linear on each ramp.
   */
  function Score(c: Corners, v: real): (r: real)
    ensures 0.0 <= r <= 1.0
    ensures c.q2 <= v <= c.q3 ==> r == 1.0
    ensures !(c.q2 <= v <= c.q3) && (v <= c.q1 || v >= c.q4) ==> r == 0.0
  {
    match Classify(c, v)
    case Plateau => 1.0
    case Outside => 0.0
    case RampUp =>
      RampFraction(c.q1, c.q2, v);
      Ramp(c.q1, c.q2, v)
    case RampDown =>
      RampFraction(c.q3, c.q4, v);
      1.0 - Ramp(c.q3, c.q4, v)
  }

  /** Off the plateau but strictly between q1 and q4, a value scores strictly between 0 and 1. */
  lemma RampScoresFraction(c: Corners, v: real)
    requires !(c.q2 <= v <= c.q3) && c.q1 < v < c.q4
    ensures 0.0 < Score(c, v) < 1.0
  {
    if c.q1 < v < c.q2 {
      assert Classify(c, v) == RampUp;
      RampFraction(c.q1, c.q2, v);
    } else {
      assert Classify(c, v) == RampDown;
      RampFraction(c.q3, c.q4, v);
    }
  }

  // ----- An independent description of the curve -----

  /** The rising edge of a trapezoid: 1 from q2 on, 0 up to q1, linear between. */
  function RisingEdge(c: Corners, v: real): real
  {
    if c.q2 <= v then 1.0 else if v <= c.q1 then 0.0 else (v - c.q1) / (c.q2 - c.q1)
  }

  /** The falling edge of a trapezoid: 1 up to q3, 0 from q4 on, linear between. */
  function FallingEdge(c: Corners, v: real): real
  {
    if v <= c.q3 then 1.0 else if c.q4 <= v then 0.0 else (c.q4 - v) / (c.q4 - c.q3)
  }

  function Min(x: real, y: real): real
  {
    if x <= y then x else y
  }

  /** On ordered corners the scorer is the lower of the two edges of the trapezoid. */
  lemma BenefitIsTrapezoid(c: Corners, v: real)
    requires Ordered(c)
    ensures Score(c, v) == Min(RisingEdge(c, v), FallingEdge(c, v))
  {
    match Classify(c, v)
    case Plateau =>
    case Outside =>
    case RampUp =>
      assert FallingEdge(c, v) == 1.0;
      SlopeForm(c.q1, c.q2, v);
    case RampDown =>
      assert RisingEdge(c, v) == 1.0;
      SlopeForm(c.q3, c.q4, v);
      var d := c.q4 - c.q3;
      assert 1.0 - (v - c.q3) / d == (c.q4 - v) / d;
  }

  /** Dividing by a positive width keeps order. */
  lemma DivideMonotone(x: real, y: real, d: real)
    requires 0.0 < d && x <= y
    ensures x / d <= y / d
  {
    assert y / d - x / d == (y - x) / d;
  }

  /** The linear ramp written as the scorer writes it, with a slope, is the fraction of the ramp covered. */
  lemma SlopeForm(a: real, b: real, v: real)
    requires a < b
    ensures Ramp(a, b, v) == (v - a) / (b - a)
  {
  }

  /** A part of a positive width, divided by it, lies in `[0, 1]`. */
  lemma UnitFraction(x: real, d: real)
    requires 0.0 <= x <= d && 0.0 < d
    ensures 0.0 <= x / d <= 1.0
  {
    DivideMonotone(0.0, x, d);
    DivideMonotone(x, d, d);
    assert d / d == 1.0;
  }

  lemma RisingEdgeMonotone(c: Corners, v1: real, v2: real)
    requires c.q1 <= c.q2 && v1 <= v2
    ensures RisingEdge(c, v1) <= RisingEdge(c, v2)
  {
    var d := c.q2 - c.q1;
    if c.q2 <= v2 {
      if c.q1 < v1 < c.q2 {
        UnitFraction(v1 - c.q1, d);
      }
    } else if c.q1 < v1 {
      DivideMonotone(v1 - c.q1, v2 - c.q1, d);
    } else if c.q1 < v2 {
      UnitFraction(v2 - c.q1, d);
    }
  }

  lemma FallingEdgeMonotone(c: Corners, v1: real, v2: real)
    requires c.q3 <= c.q4 && v1 <= v2
    ensures FallingEdge(c, v1) >= FallingEdge(c, v2)
  {
    var d := c.q4 - c.q3;
    if v1 <= c.q3 {
      if c.q3 < v2 < c.q4 {
        UnitFraction(c.q4 - v2, d);
      }
    } else if v2 < c.q4 {
      DivideMonotone(c.q4 - v2, c.q4 - v1, d);
    } else if v1 < c.q4 {
      UnitFraction(c.q4 - v1, d);
    }
  }

  // ----- Properties of the scorer -----

  /** On ordered corners the score never decreases up to the end of the plateau. */
  lemma RisesToPlateau(c: Corners, v1: real, v2: real)
    requires Ordered(c) && v1 <= v2 <= c.q3
    ensures Score(c, v1) <= Score(c, v2)
  {
    BenefitIsTrapezoid(c, v1);
    BenefitIsTrapezoid(c, v2);
    RisingEdgeMonotone(c, v1, v2);
  }

  /** On ordered corners the score never increases from the start of the plateau on. */
  lemma FallsAfterPlateau(c: Corners, v1: real, v2: real)
    requires Ordered(c) && c.q2 <= v1 <= v2
    ensures Score(c, v1) >= Score(c, v2)
  {
    BenefitIsTrapezoid(c, v1);
    BenefitIsTrapezoid(c, v2);
    FallingEdgeMonotone(c, v1, v2);
  }

  /**
   * Whatever the corners, two values that both reach the rising-ramp branch
   * keep their order in score.
   */
  lemma RampUpRises(c: Corners, v1: real, v2: real)
    requires Classify(c, v1) == RampUp && Classify(c, v2) == RampUp && v1 <= v2
    ensures Score(c, v1) <= Score(c, v2)
  {
    SlopeForm(c.q1, c.q2, v1);
    SlopeForm(c.q1, c.q2, v2);
    DivideMonotone(v1 - c.q1, v2 - c.q1, c.q2 - c.q1);
  }

  /**
   * Whatever the corners, two values that both reach the falling-ramp branch
   * reverse their order in score.
   */
  lemma RampDownFalls(c: Corners, v1: real, v2: real)
    requires Classify(c, v1) == RampDown && Classify(c, v2) == RampDown && v1 <= v2
    ensures Score(c, v1) >= Score(c, v2)
  {
    SlopeForm(c.q3, c.q4, v1);
    SlopeForm(c.q3, c.q4, v2);
    DivideMonotone(v1 - c.q3, v2 - c.q3, c.q4 - c.q3);
  }

  /** A window with its bounds in order and a margin of at most one half has ordered corners. */
  lemma CornersOrdered(low: real, high: real, margin: real, rollover: Option<real>)
    requires low <= high && 0.0 <= margin <= 0.5
    ensures Ordered(CornersFor(low, high, margin, rollover))
  {
  }

  /**
   * When the margin size exceeds half the window, as a margin above one half
   * can make it, the ramps overlap: q3 comes before q2, no value reaches the
   * plateau and no value scores 1.
   */
  lemma OverlappingRampsNeverScoreOne(low: real, high: real, margin: real, rollover: Option<real>, v: real)
    requires !FullWindow(low, high, rollover) && high - low < 2.0 * (MarginSize(low, high, margin) as real)
    ensures Score(CornersFor(low, high, margin, rollover), v) < 1.0
  {
    var c := CornersFor(low, high, margin, rollover);
    assert c.q3 < c.q2;
    if c.q1 < v < c.q4 {
      RampScoresFraction(c, v);
    }
  }

  /**
   * With margin 0.8 on the window `[0, 10]` the ramps overlap, and the score
   * drops from 15.5/16 just below q2 = 8 to 10/16 at q2, where the value
   * passes to the falling ramp without meeting a plateau.
   */
  lemma WideMarginDropsAtRampJoin()
    ensures CornersFor(0.0, 10.0, 0.8, None) == Corners(-8.0, 8.0, 2.0, 18.0)
    ensures Score(CornersFor(0.0, 10.0, 0.8, None), 7.5) == 15.5 / 16.0
    ensures Score(CornersFor(0.0, 10.0, 0.8, None), 8.0) == 10.0 / 16.0
  {
    assert MarginSize(0.0, 10.0, 0.8) == 8;
    var c := Corners(-8.0, 8.0, 2.0, 18.0);
    assert Classify(c, 7.5) == RampUp;
    assert Ramp(-8.0, 8.0, 7.5) == 15.5 / 16.0;
    assert Classify(c, 8.0) == RampDown;
    assert Ramp(2.0, 18.0, 8.0) == 6.0 / 16.0;
  }

  /**
   * A window that spans the whole period `[0, rollover]` scores exactly the
   * indicator of that period, whatever the margin.
   */
  lemma FullWindowIndicator(rollover: real, margin: real, v: real)
    ensures Score(CornersFor(0.0, rollover, margin, Some(rollover)), v)
         == if 0.0 <= v <= rollover then 1.0 else 0.0
  {
    if rollover == 0.0 {
      assert MarginSize(0.0, rollover, margin) == 0;
    }
  }

  /** With no margin the curve is a step: 1 exactly on `[low, high]`, 0 elsewhere. */
  lemma ZeroMarginIsStep(low: real, high: real, rollover: Option<real>, v: real)
    ensures Score(CornersFor(low, high, 0.0, rollover), v)
         == if low <= v <= high then 1.0 else 0.0
  {
    assert MarginSize(low, high, 0.0) == 0;
  }

  /**
   * When the ramps have positive width and do not overlap, each bound sits
   * halfway up its ramp and scores one half.
   */
  lemma BoundScoresHalf(low: real, high: real, margin: real, rollover: Option<real>)
    requires low <= high && 0.0 <= margin <= 0.5
    requires !FullWindow(low, high, rollover) && 0 < MarginSize(low, high, margin)
    ensures Score(CornersFor(low, high, margin, rollover), low) == 0.5
    ensures Score(CornersFor(low, high, margin, rollover), high) == 0.5
  {
    CornersOrdered(low, high, margin, rollover);
    var c := CornersFor(low, high, margin, rollover);
    var m := MarginSize(low, high, margin) as real;
    assert c == Corners(low - m, low + m, high - m, high + m);
    assert Classify(c, low) == RampUp;
    assert Ramp(low - m, low + m, low) == 0.5;
    assert Classify(c, high) == RampDown;
    assert Ramp(high - m, high + m, high) == 0.5;
  }

  /**
   * The scorer has no wrap-around: a window whose end comes before its start
   * (one that crosses the rollover point) scores 0 everywhere when the margin
   * is below one half.
   */
  lemma CrossingWindowScoresZero(low: real, high: real, margin: real, rollover: Option<real>, v: real)
    requires high < low && 0.0 <= margin < 0.5
    ensures Score(CornersFor(low, high, margin, rollover), v) == 0.0
  {
    CrossingCorners(low, high, margin, rollover);
    NoPlateauScoresZero(CornersFor(low, high, margin, rollover), v);
  }

  /**
   * With a margin above one half, a reversed day window scores the opposite
   * season instead: days 350 to 10 with margin 0.8 get corners
   * (622, 78, 282, -262), and day 180 scores 1.
   */
  lemma WideMarginCrossingScoresOppositeSeason()
    ensures CornersFor(350.0, 10.0, 0.8, Some(365.0)) == Corners(622.0, 78.0, 282.0, -262.0)
    ensures Score(CornersFor(350.0, 10.0, 0.8, Some(365.0)), 180.0) == 1.0
  {
    assert MarginSize(350.0, 10.0, 0.8) == -272;
  }

  /** A window that ends before it starts, with a margin below one half, gets an empty plateau and q4 before q1. */
  lemma CrossingCorners(low: real, high: real, margin: real, rollover: Option<real>)
    requires high < low && 0.0 <= margin < 0.5
    ensures var c := CornersFor(low, high, margin, rollover); c.q3 < c.q2 && c.q4 <= c.q1
  {
  }

  /** Corners with an empty plateau and q4 at or before q1 leave no value a nonzero score. */
  lemma NoPlateauScoresZero(c: Corners, v: real)
    requires c.q3 < c.q2 && c.q4 <= c.q1
    ensures Score(c, v) == 0.0
  {
  }
}
