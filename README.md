# HeartRateView: rolling sample window and scroll state machine

This project models the data side of `HeartRateView`, the Android custom view of
HeartRateAnimView that draws a scrolling heart-rate curve. The view keeps a list of
integer samples (`mSourceData`). `addData` clamps each incoming value into
`[mMinValue, mMaxValue]` and appends it. While the list holds at most
`mMaxHearRateNumber` (N) samples, the curve is redrawn at once at horizontal offset 0.
Past N samples, a repeating scroll animator is started instead. On every repeat,
`startNextAnim` drops the oldest sample, redraws at offset 0, and cancels the animator
once the list is back to N or fewer. `setMaxValue` replaces the upper bound, and
`onDetachedFromWindow` cancels the animator.

The model has two modules:

- `HeartRateSpec` (`heart_rate_spec.dfy`) is the behaviour as values. A `View` holds
  the samples, the two bounds, N and the animator's "started" flag. Two observations
  come with it: `frames`, the sample lists that `addData` and `startNextAnim` hand to the redraw at offset 0, and
  `starts`, the number of animator starts. Each event (`AddData`, `Repeat`,
  `SetMaxValue`, `Detach`) is a function `Step` from one `View` to an `Outcome`, and
  `Run` folds a sequence of events. Removing from an empty list is the
  `IndexOutOfBounds` outcome, the `ArrayList.remove(0)` exception. The lemmas state what
  the view promises over single events and over whole runs:
  - the invariant "animator running ⇒ more than N samples" holds;
  - with N ≥ 0 no run throws;
  - from a fresh view the animator starts exactly when sample N+1 arrives, and only once;
  - repeats drain the list back to its newest N samples and then stop;
  - samples stay in any band that holds the bounds;
  - `setMaxValue` does not re-clamp stored samples.
- `HeartRateWidget` (`heart_rate_view.dfy`) is the view as the source has it: class
  `HeartRateView`, with fields it updates in place and the animator reduced to a
  boolean. Every method states its new state directly and proves that
  `Step(old(Abs()), event) == Ok(Abs())`, so the trace lemmas of `HeartRateSpec` apply
  to the class.

The buffer is not bounded by N + 1: `addData` keeps appending while the animator
runs, and each repeat removes only one sample. `LengthUnbounded` shows a run whose
list is as long as one likes.

## Model

| member | source | states |
|---|---|---|
| `HeartRateSpec.Initial` | app/src/main/java/com/widget/heartrate/HeartRateView.java:73-96 | a constructed view holds no samples, its animator is idle, nothing has been drawn, and its bounds and N are the resolved attributes |
| `HeartRateSpec.Clamp` | app/src/main/java/com/widget/heartrate/HeartRateView.java:159-164 | with min ≤ max the stored value lies in [min, max], and equals the input exactly when the input is in range (min below the range, max above it); with min > max the second check wins and the value is max |
| `HeartRateSpec.ClampAll` | app/src/main/java/com/widget/heartrate/HeartRateView.java:159-165 | a burst of samples is stored position by position, each value clamped on its own |
| `HeartRateSpec.StepKeepsInv` | app/src/main/java/com/widget/heartrate/HeartRateView.java:126-173 | every event keeps "animator running ⇒ more than N samples"; with N ≥ 0 no event throws; only setMaxValue changes a bound and nothing changes N |
| `HeartRateSpec.AddedTransition` | app/src/main/java/com/widget/heartrate/HeartRateView.java:158-173 | addData appends exactly the clamped value at the end; at ≤ N samples the animator was idle and stays idle and the list is redrawn; above N the animator is running afterwards and is started only if it was idle, with no redraw at offset 0 (the animator's own fractional-offset redraws are not modelled) |
| `HeartRateSpec.RepeatedTransition` | app/src/main/java/com/widget/heartrate/HeartRateView.java:126-132 | a repeat with N ≥ 0 never throws, removes exactly the oldest sample, redraws the remainder, and leaves the animator running exactly while more than N samples remain |
| `HeartRateSpec.RunKeepsInv` | app/src/main/java/com/widget/heartrate/HeartRateView.java:117-132 | with N ≥ 0, no sequence of adds, repeats, bound changes and detaches ever makes startNextAnim remove from an empty list, and the invariant holds after each event |
| `HeartRateSpec.NegativeCountThrows` | app/src/main/java/com/widget/heartrate/HeartRateView.java:126-131 | for every negative N, bounds and sample value, one sample followed by two repeats removes from an empty list: the N ≥ 0 of `RunKeepsInv` is needed |
| `HeartRateSpec.AddsOnlyAppend` | app/src/main/java/com/widget/heartrate/HeartRateView.java:158-172 | a burst of samples with no repeat in between appends exactly the clamped samples in order, trims nothing, and leaves the bounds and N alone |
| `HeartRateSpec.AddsOnlyAnimator` | app/src/main/java/com/widget/heartrate/HeartRateView.java:166-172 | after such a burst the animator runs iff it ran already or the list outgrew N; it is started at most once; the list is redrawn once per sample that arrived while it still fitted |
| `HeartRateSpec.FillFromEmpty` | app/src/main/java/com/widget/heartrate/HeartRateView.java:158-172 | from a fresh view with N ≥ 0, up to N samples never start the animator and each is redrawn; the (N+1)-th starts it, exactly once however many follow |
| `HeartRateSpec.LengthUnbounded` | app/src/main/java/com/widget/heartrate/HeartRateView.java:165-172 | for every N ≥ 0 and every k, N + k samples added before any repeat are all kept, so the list is not bounded by N + 1 |
| `HeartRateSpec.DrainToWindow` | app/src/main/java/com/widget/heartrate/HeartRateView.java:126-132 | from a running animator, |data| − N repeats leave exactly the newest N samples and cancel the animator |
| `HeartRateSpec.RunStaysInBand` | app/src/main/java/com/widget/heartrate/HeartRateView.java:158-182 | if the samples lie in a band [lo, hi] with lo ≤ min and lo ≤ max ≤ hi, and every new max falls in the band, then every sample stays in the band |
| `HeartRateSpec.LoweredMaxKeepsSample` | app/src/main/java/com/widget/heartrate/HeartRateView.java:180-182 | lowering the maximum to 100 after 150 was stored keeps 150: setMaxValue does not re-clamp |
| `HeartRateWidget.HeartRateView.constructor` | app/src/main/java/com/widget/heartrate/HeartRateView.java:73-96 | the constructed object satisfies the invariant and is the fresh view for the given attributes |
| `HeartRateWidget.HeartRateView.Default` | app/src/main/java/com/widget/heartrate/HeartRateView.java:79-82 | without attributes the bounds are 70 and 190 and N is 60 |
| `HeartRateWidget.HeartRateView.AddData` | app/src/main/java/com/widget/heartrate/HeartRateView.java:158-173 | appends the clamped value, which lies in [min, max] when min ≤ max; at ≤ N samples it redraws and leaves the animator as it was; above N the animator is running and is started only if it was idle; the invariant is kept and the step is `Step(_, AddData(value))` |
| `HeartRateWidget.HeartRateView.OnRepeat` | app/src/main/java/com/widget/heartrate/HeartRateView.java:126-132 | throws iff the list is empty, which cannot happen for N ≥ 0; otherwise removes exactly the oldest sample, redraws the rest and keeps the animator iff more than N remain; the invariant is kept and the step is `Step(_, Repeat)` |
| `HeartRateWidget.HeartRateView.SetMaxValue` | app/src/main/java/com/widget/heartrate/HeartRateView.java:180-182 | replaces only the upper bound, with no check against the lower one; the samples are untouched |
| `HeartRateWidget.HeartRateView.OnDetachedFromWindow` | app/src/main/java/com/widget/heartrate/HeartRateView.java:193-196 | cancels the animator and changes nothing else |

## Left out

- Path geometry (`generateNewPath`, `getHearRateValueToViewHeight`, `onMeasure`'s item spacing) is float pixel arithmetic over `android.graphics.Path`. The model records only which sample list is redrawn; on the addData and startNextAnim paths the offset is always 0.
- `setShiftXRatio`, called by the animator on every frame with a fractional offset, is time-driven redrawing and is not modelled.
- Drawing (`onDraw`, `Paint`, `Canvas`) is user interface only.
- Attribute parsing (`TypedArray`) is platform plumbing. The constructor takes the resolved values, and the defaults 70, 190 and 60 are constants. The field initialisers (min 0) are always overwritten by the constructor, so they are not modelled.
- Animator internals (`ObjectAnimator` timing, the linear interpolator, the 1000 ms duration, infinite repeat) are time-driven framework behaviour. The animator is the started flag. A repeat is an external event, delivered only while the animator is started; in `HeartRateSpec.Step` a repeat to a stopped animator changes nothing.
- `MainActivity.java`: the timer thread, `Handler` messages, `Math.random()` input and the activity lifecycle are not part of this model; their only effect on the view is a sequence of `addData` calls.
- Java `int` overflow does not arise: the samples and bounds are only compared and copied, never computed with.
