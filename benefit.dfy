/**
 * The benefit objects of belleflopt: a `BenefitItem` keeps a window, a
 * margin and an optional rollover, and recomputes its corners whenever a
 * bound or the margin is set once all three are known; a `BenefitBox`
 * combines a flow item and a day-of-water-year item multiplicatively.
 */
module Benefit {
  import opened Wrappers
  import opened Scoring

  /** The rollover given to the day item; the scorer uses it only to recognise a window covering the whole year. */
  const DaysInYear: real := 365.0

  class BenefitItem {
    var lowBound: Option<real>
    var highBound: Option<real>
    var margin: Option<real>
    /** A plain attribute: assigning it does not recompute the corners. */
    var rollover: Option<real>
    var corners: Option<Corners>
    /** The rollover that was in force when the corners were last recomputed. */
    ghost var cornersRollover: Option<real>

    /** Corners exist exactly when both bounds and the margin are set, and then match them. */
    ghost predicate Valid()
      reads this
    {
      && (corners.Some? <==> lowBound.Some? && highBound.Some? && margin.Some?)
      && (corners.Some? ==>
            corners.value == CornersFor(lowBound.value, highBound.value, margin.value, cornersRollover))
    }

    constructor ()
      ensures Valid()
      ensures lowBound == None && highBound == None && margin == None
      ensures rollover == None && corners == None
    {
      lowBound, highBound, margin, rollover := None, None, None, None;
      corners := None;
      cornersRollover := None;
    }

    /** Recomputes the four corners from the bounds, the margin and the current rollover. */
    method UpdateCorners()
      requires lowBound.Some? && highBound.Some? && margin.Some?
      modifies this`corners, this`cornersRollover
      ensures Valid()
      ensures corners == Some(CornersFor(lowBound.value, highBound.value, margin.value, rollover))
      ensures cornersRollover == rollover
    {
      var low, high := lowBound.value, highBound.value;
      var marginSize := MarginSize(low, high, margin.value) as real;
      if FullWindow(low, high, rollover) {
        corners := Some(Corners(low, low, high, high));
      } else {
        corners := Some(Corners(low - marginSize, low + marginSize, high - marginSize, high + marginSize));
      }
      cornersRollover := rollover;
    }

    method SetLowBound(value: real)
      requires Valid()
      modifies this`lowBound, this`corners, this`cornersRollover
      ensures Valid()
      ensures lowBound == Some(value)
      ensures highBound.Some? && margin.Some? ==>
        corners == Some(CornersFor(value, highBound.value, margin.value, rollover)) && cornersRollover == rollover
      ensures !(highBound.Some? && margin.Some?) ==>
        corners == old(corners) && cornersRollover == old(cornersRollover)
    {
      lowBound := Some(value);
      if highBound.Some? && margin.Some? {
        UpdateCorners();
      }
    }

    method SetHighBound(value: real)
      requires Valid()
      modifies this`highBound, this`corners, this`cornersRollover
      ensures Valid()
      ensures highBound == Some(value)
      ensures lowBound.Some? && margin.Some? ==>
        corners == Some(CornersFor(lowBound.value, value, margin.value, rollover)) && cornersRollover == rollover
      ensures !(lowBound.Some? && margin.Some?) ==>
        corners == old(corners) && cornersRollover == old(cornersRollover)
    {
      highBound := Some(value);
      if lowBound.Some? && margin.Some? {
        UpdateCorners();
      }
    }

    /** Setting the margin to the value it already has changes nothing. */
    method SetMargin(m: real)
      requires Valid()
      modifies this`margin, this`corners, this`cornersRollover
      ensures Valid()
      ensures margin == Some(m)
      ensures old(margin) == Some(m) ==>
        corners == old(corners) && cornersRollover == old(cornersRollover)
      ensures old(margin) != Some(m) && lowBound.Some? && highBound.Some? ==>
        corners == Some(CornersFor(lowBound.value, highBound.value, m, rollover)) && cornersRollover == rollover
      ensures !(lowBound.Some? && highBound.Some?) ==> corners == None
    {
      if margin != Some(m) {
        margin := Some(m);
        if lowBound.Some? && highBound.Some? {
          UpdateCorners();
        }
      }
    }

    /**
     * Applies `m` as the margin, then scores `value`. With a bound unset the
     * corners are missing and the comparison fails: the result is `None`.
     */
    method SingleValueBenefit(value: real, m: real) returns (r: Option<real>)
      requires Valid()
      modifies this`margin, this`corners, this`cornersRollover
      ensures Valid()
      ensures margin == Some(m)
      ensures r.Some? <==> lowBound.Some? && highBound.Some?
      ensures r.Some? ==> corners.Some? && r.value == Score(corners.value, value)
      ensures old(margin) != Some(m) && r.Some? ==> cornersRollover == rollover
      ensures old(margin) == Some(m) ==>
        corners == old(corners) && cornersRollover == old(cornersRollover)
    {
      SetMargin(m);
      if corners.None? {
        return None;
      }
      r := Some(Score(corners.value, value));
    }
  }

  /** The flow item's corners: no rollover. */
  function FlowCorners(lowFlow: real, highFlow: real, flowMargin: real): Corners
  {
    CornersFor(lowFlow, highFlow, flowMargin, None)
  }

  /** The date item's corners: rollover at the end of the water year. */
  function DateCorners(startDay: real, endDay: real, dateMargin: real): Corners
  {
    CornersFor(startDay, endDay, dateMargin, Some(DaysInYear))
  }

  /**
   * How a box combines its two axis scores: multiplicatively. Two scores in
   * `[0, 1]` give a score in `[0, 1]` that is 0 when either axis vetoes and 1
   * only when both axes are fully satisfied.
   */
  function Combine(flowScore: real, dateScore: real): (r: real)
    ensures 0.0 <= flowScore <= 1.0 && 0.0 <= dateScore <= 1.0 ==>
      && 0.0 <= r <= 1.0
      && (r == 0.0 <==> flowScore == 0.0 || dateScore == 0.0)
      && (r == 1.0 <==> flowScore == 1.0 && dateScore == 1.0)
  {
    var f, d := flowScore, dateScore;
    assert 0.0 <= f <= 1.0 && 0.0 <= d <= 1.0 ==> f * d <= f * 1.0;
    assert 0.0 <= f <= 1.0 && 0.0 <= d <= 1.0 && f * d == 1.0 ==> f == 1.0;
    f * d
  }

  /** The benefit of a flow on a day: its flow score combined with its day score. */
  function CombinedBenefit(lowFlow: real, highFlow: real, startDay: real, endDay: real,
                           flow: real, day: real, flowMargin: real, dateMargin: real): real
  {
    var f := Score(FlowCorners(lowFlow, highFlow, flowMargin), flow);
    var d := Score(DateCorners(startDay, endDay, dateMargin), day);
    Combine(f, d)
  }

  /**
   * The combined benefit lies in `[0, 1]`; it is 0 exactly when either score
   * is 0, and 1 exactly when both are 1.
   */
  lemma CombinedRange(lowFlow: real, highFlow: real, startDay: real, endDay: real,
                           flow: real, day: real, flowMargin: real, dateMargin: real)
    ensures var r := CombinedBenefit(lowFlow, highFlow, startDay, endDay, flow, day, flowMargin, dateMargin);
      var f := Score(FlowCorners(lowFlow, highFlow, flowMargin), flow);
      var d := Score(DateCorners(startDay, endDay, dateMargin), day);
      && 0.0 <= r <= 1.0
      && (r == 0.0 <==> f == 0.0 || d == 0.0)
      && (r == 1.0 <==> f == 1.0 && d == 1.0)
  {
  }

  /** When the date window is the whole water year, every day of it leaves the flow score unchanged. */
  lemma FullYearIsFlowScore(lowFlow: real, highFlow: real, flow: real, day: real,
                            flowMargin: real, dateMargin: real)
    requires 0.0 <= day <= DaysInYear
    ensures CombinedBenefit(lowFlow, highFlow, 0.0, DaysInYear, flow, day, flowMargin, dateMargin)
         == Score(FlowCorners(lowFlow, highFlow, flowMargin), flow)
  {
    FullWindowIndicator(DaysInYear, dateMargin, day);
  }

  /** A worked example: the window 100..200 cfs over days 50..150, both margins 0.1. */
  lemma WorkedExample()
    ensures CombinedBenefit(100.0, 200.0, 50.0, 150.0, 150.0, 100.0, 0.1, 0.1) == 1.0
    ensures CombinedBenefit(100.0, 200.0, 50.0, 150.0, 50.0, 100.0, 0.1, 0.1) == 0.0
    ensures CombinedBenefit(100.0, 200.0, 50.0, 150.0, 95.0, 100.0, 0.1, 0.1) == 0.25
  {
    assert MarginSize(100.0, 200.0, 0.1) == 10;
    assert MarginSize(50.0, 150.0, 0.1) == 10;
    assert FlowCorners(100.0, 200.0, 0.1) == Corners(90.0, 110.0, 190.0, 210.0);
    assert DateCorners(50.0, 150.0, 0.1) == Corners(40.0, 60.0, 140.0, 160.0);
    assert Ramp(90.0, 110.0, 95.0) == 0.25;
  }

  /**
   * An item set up the way a box sets up each of its items: low bound, high
   * bound, then the rollover (left unset when `None`), then the margin, whose
   * setting computes the corners.
   */
  method NewItem(low: real, high: real, rollover: Option<real>, m: real) returns (item: BenefitItem)
    ensures fresh(item) && item.Valid()
    ensures item.lowBound == Some(low) && item.highBound == Some(high)
    ensures item.margin == Some(m) && item.rollover == rollover
    ensures item.corners == Some(CornersFor(low, high, m, rollover))
  {
    item := new BenefitItem();
    item.SetLowBound(low);
    item.SetHighBound(high);
    if rollover.Some? {
      item.rollover := rollover;
    }
    item.SetMargin(m);
  }

  class BenefitBox {
    var lowFlow: real
    var highFlow: real
    var startDayOfWaterYear: real
    var endDayOfWaterYear: real
    var flowItem: BenefitItem?
    var dateItem: BenefitItem?

    constructor (lowFlow: real, highFlow: real, startDayOfWaterYear: real, endDayOfWaterYear: real)
      ensures this.lowFlow == lowFlow && this.highFlow == highFlow
      ensures this.startDayOfWaterYear == startDayOfWaterYear
      ensures this.endDayOfWaterYear == endDayOfWaterYear
      ensures flowItem == null && dateItem == null
    {
      this.lowFlow := lowFlow;
      this.highFlow := highFlow;
      this.startDayOfWaterYear := startDayOfWaterYear;
      this.endDayOfWaterYear := endDayOfWaterYear;
      flowItem, dateItem := null, null;
    }

    /**
     * Builds a fresh flow item and a fresh date item (rollover 365) from the
     * box, and returns the product of their scores for `flow` and `dayOfYear`.
     */
    method SingleFlowBenefit(flow: real, dayOfYear: real, flowMargin: real := 0.1, dateMargin: real := 0.1)
      returns (r: real)
      modifies this`flowItem, this`dateItem
      ensures r == CombinedBenefit(lowFlow, highFlow, startDayOfWaterYear, endDayOfWaterYear,
                                   flow, dayOfYear, flowMargin, dateMargin)
      ensures flowItem != null && fresh(flowItem) && flowItem.Valid()
      ensures dateItem != null && fresh(dateItem) && dateItem.Valid()
      ensures flowItem.lowBound == Some(lowFlow) && flowItem.highBound == Some(highFlow)
      ensures flowItem.margin == Some(flowMargin)
      ensures dateItem.lowBound == Some(startDayOfWaterYear) && dateItem.highBound == Some(endDayOfWaterYear)
      ensures dateItem.margin == Some(dateMargin)
      ensures flowItem.rollover == None && dateItem.rollover == Some(DaysInYear)
      ensures flowItem.corners == Some(FlowCorners(lowFlow, highFlow, flowMargin))
      ensures dateItem.corners == Some(DateCorners(startDayOfWaterYear, endDayOfWaterYear, dateMargin))
    {
      var fi := NewItem(lowFlow, highFlow, None, flowMargin);
      flowItem := fi;
      var di := NewItem(startDayOfWaterYear, endDayOfWaterYear, Some(DaysInYear), dateMargin);
      dateItem := di;
      var f := fi.SingleValueBenefit(flow, flowMargin);
      assert f.value == Score(FlowCorners(lowFlow, highFlow, flowMargin), flow);
      var d := di.SingleValueBenefit(dayOfYear, dateMargin);
      assert d.value == Score(DateCorners(startDayOfWaterYear, endDayOfWaterYear, dateMargin), dayOfYear);
      r := Combine(f.value, d.value);
    }
  }
}
