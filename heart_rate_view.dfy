/** The chart view itself: the sample list it mutates in place, its clamp bounds, the
    visible-sample count, and the scroll animator reduced to its "started" flag
    (start() sets it, cancel() clears it, isStarted() reads it). Each method is
    proved to make the transition HeartRateSpec.Step describes. */
module HeartRateWidget {
  import opened HeartRateSpec

  class HeartRateView {
    var data: seq<int>           // the sample list, oldest first
    const minValue: int          // lower clamp bound, fixed at construction
    var maxValue: int            // upper clamp bound
    const maxCount: int          // N: samples shown on screen, fixed at construction
    var animating: bool          // the scroll animator is started
    ghost var frames: seq<seq<int>>  // sample lists redrawn at offset 0, in order
    ghost var starts: nat            // times the animator was started

    /** While the animator runs, the list holds more than N samples. */
    ghost predicate Valid()
      reads this
    {
      animating ==> |data| > maxCount
    }

    /** The view as a value. */
    ghost function Abs(): View
      reads this
    {
      View(data, minValue, maxValue, maxCount, animating, frames, starts)
    }

    /** A new view with its resolved layout attributes; the animator is created idle. */
    constructor (minValue: int, maxValue: int, maxCount: int)
      ensures Valid()
      ensures Abs() == Initial(minValue, maxValue, maxCount)
    {
      data := [];
      this.minValue := minValue;
      this.maxValue := maxValue;
      this.maxCount := maxCount;
      animating := false;
      frames := [];
      starts := 0;
    }

    /** A view with every attribute at its default: bounds 70 and 190, 60 samples. */
    constructor Default()
      ensures Valid()
      ensures Abs() == Initial(DefaultMinValue, DefaultMaxValue, DefaultMaxCount)
    {
      data := [];
      minValue := DefaultMinValue;
      maxValue := DefaultMaxValue;
      maxCount := DefaultMaxCount;
      animating := false;
      frames := [];
      starts := 0;
    }

    /** Clamp the sample and append it. While the list fits the window it is redrawn
        at once; past the window the scroll animator is started if it is not
        already running. */
    method AddData(value: int)
      requires Valid()
      modifies this
      ensures Valid()
      ensures Step(old(Abs()), Event.AddData(value)) == Ok(Abs())
      ensures maxValue == old(maxValue)
      ensures data == old(data) + [Clamp(value, minValue, maxValue)]
      ensures minValue <= maxValue ==> minValue <= data[|data| - 1] <= maxValue
      ensures |data| <= maxCount ==>
        animating == old(animating) && frames == old(frames) + [data] && starts == old(starts)
      ensures |data| > maxCount ==>
        animating && frames == old(frames)
        && starts == (if old(animating) then old(starts) else old(starts) + 1)
    {
      var v := value;
      if v < minValue {
        v := minValue;
      }
      if v > maxValue {
        v := maxValue;
      }
      data := data + [v];
      if |data| <= maxCount {
        frames := frames + [data];  // redraw at offset 0
      } else {
        if !animating {
          animating := true;
          starts := starts + 1;
        }
      }
    }

    /** One repeat of the running scroll animator: drop the oldest sample, redraw at
        offset 0, and cancel the animator once the list fits the window. Removing
        from an empty list throws; that is reported as outOfBounds, with the view
        left as it was. */
    method OnRepeat() returns (outOfBounds: bool)
      requires Valid() && animating
      modifies this
      ensures Valid()
      ensures Step(old(Abs()), Repeat) == if outOfBounds then IndexOutOfBounds else Ok(Abs())
      ensures outOfBounds <==> old(data) == []
      ensures maxCount >= 0 ==> !outOfBounds
      ensures outOfBounds ==> Abs() == old(Abs())
      ensures !outOfBounds ==>
        data == old(data)[1..] && [old(data)[0]] + data == old(data)
        && frames == old(frames) + [data]
        && (animating <==> |data| > maxCount)
      ensures maxValue == old(maxValue) && starts == old(starts)
    {
      if data == [] {
        return true;
      }
      data := data[1..];
      frames := frames + [data];  // redraw at offset 0
      if |data| <= maxCount {
        animating := false;
      }
      return false;
    }

    /** Replace the upper bound. Stored samples are not re-clamped and the new bound
        is not checked against the lower one. */
    method SetMaxValue(maxValue: int)
      requires Valid()
      modifies this`maxValue
      ensures Valid()
      ensures Step(old(Abs()), Event.SetMaxValue(maxValue)) == Ok(Abs())
      ensures this.maxValue == maxValue
    {
      this.maxValue := maxValue;
    }

    /** Leaving the window cancels the scroll animator; the samples stay. */
    method OnDetachedFromWindow()
      requires Valid()
      modifies this`animating
      ensures Valid()
      ensures Step(old(Abs()), Detach) == Ok(Abs())
      ensures !animating
    {
      animating := false;
    }
  }
}
