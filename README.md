# Speedometer gauge: a Dafny model

This project models the data-to-dial logic of the Speedometer plugin
(`Speedometer/src/Speedometer.js`). The plugin draws an analog gauge whose needle
follows a recorded time series in step with a video. The model covers four parts:

- **Graduation planning** (`_jsonLoadComplete`). The plugin scans the samples for
  a running maximum that starts at 0. It then searches the step palette
  `[1, 2, 5, 10, 20, 30, 50]`, trying 8, 9 and 10 divisions for each step. The
  first plan whose top tick strictly exceeds the maximum wins. The plugin writes
  `i * step` into the graduation array and derives the angular multiplicator
  from the array's length.
- **Sample lookup** (`_getClosestFromTime`). It returns
  `data[floor(time * frequency)]`.
- **Tick layout** (the graduation loop of `update`). It visits the indices
  `0 .. 5 * (length - 1)`. Every fifth index is a major tick, labelled with a
  graduation value.
- **Lifecycle**. `update` returns early without data or canvas, `destroy`
  releases the references, and `_setupVideo` subscribes at most once to the
  readiness of the plugin that provides the video.

Modules:

- `Wrappers` holds `Option`, which stands for JavaScript's `null` and `undefined`.
- `Samples` holds the loaded series and the lookup.
- `Graduation` holds the maximum scan, the palette search, the graduation fill
  and the multiplicator.
- `Dial` holds the tick layout and the needle angle (see Findings).
- `SpeedometerPlugin` holds the plugin object as a class. Its fields are the
  source's `_canvas`, `_video`, `_data`, `_graduation` and `_multiplicator`.
  Its methods are `boot`, `reset`, `_setupVideo`, `_jsonLoadComplete`, `update`
  and `destroy`.

Numbers are exact reals. This covers samples, the maximum, time, frequency and
the multiplicator. Every JavaScript exception the code can throw on these paths
becomes an explicit outcome:

- `res[1]` on an undefined plan gives `NoScale`.
- Writing into a null `_graduation` gives `GraduationReleased`.
- Reading `currentTime` of a null video gives `NoTimeSource`.
- Destroying an already-destroyed plugin makes `Destroy` return `false`.

Four behaviours are kept as the code has them, though a reader may expect otherwise:

- Empty or all-negative data are accepted. The maximum is then 0, and the plan
  is step 1 with 8 divisions (`Graduation.NonPositiveDataPlansStepOne`).
- A maximum of 500 or more is not rejected up front. The code stores the data
  and then fails when it reads the missing plan.
- The graduation is overwritten in place and never cleared. A later load with
  fewer divisions leaves stale entries, and the multiplicator follows the
  array's length, not the new division count
  (`Graduation.StaleTicksAfterSmallerLoad`).
- `destroy` is not idempotent. A second call finds no canvas and throws before
  it changes anything.

## Model

| member | source | states |
|---|---|---|
| `Graduation.MaxOrZero` | Speedometer/src/Speedometer.js:131-138 | The running maximum is at least 0 and at least every sample. It is either 0 or one of the samples. |
| `Graduation.ScanMax` | Speedometer/src/Speedometer.js:131-138 | The `forEach` loop computes exactly that running maximum. |
| `Graduation.MaxIsLargestPositiveSample` | Speedometer/src/Speedometer.js:131-138 | When some sample is positive, the maximum is the largest sample. |
| `Graduation.Candidates` | Speedometer/src/Speedometer.js:141-163 | The search order has three plans per palette step. |
| `Graduation.FirstFitOfStep` | Speedometer/src/Speedometer.js:145-163 | The three tests made for one step: 8, then 9, then 10 divisions, each needing strict headroom. |
| `Graduation.ChooseScale` | Speedometer/src/Speedometer.js:141-164 | The `some` loop over the palette returns the first plan in search order whose top tick exceeds the maximum. It returns None when no plan does. |
| `Graduation.FirstFitAppend` | Speedometer/src/Speedometer.js:143-164 | A search over two parts reaches the second part only when the first part has no fit. |
| `Graduation.FirstFitIsFirst` | Speedometer/src/Speedometer.js:143-164 | The search returns None exactly when no plan fits. Otherwise it returns a fitting plan, and no earlier plan fits. |
| `Graduation.CandidatesShape` | Speedometer/src/Speedometer.js:141-163 | Every candidate pairs a palette step with 8, 9 or 10 divisions. |
| `Graduation.CandidatesIncreasing` | Speedometer/src/Speedometer.js:141-163 | Over well-spaced steps, top ticks strictly increase along the search order. |
| `Graduation.PaletteSpaced` | Speedometer/src/Speedometer.js:141 | The palette is positive, and ten of each step stay below eight of the next step. |
| `Graduation.SearchOrderFacts` | Speedometer/src/Speedometer.js:141-163 | There are 21 plans, and the last is 50 × 10. Each plan has a palette step and 8 to 10 divisions. Top ticks strictly increase. |
| `Graduation.SearchOrderStart` | Speedometer/src/Speedometer.js:141-163 | The search begins with the six plans of steps 1 and 2. |
| `Graduation.PlanExistsIffBelow500` | Speedometer/src/Speedometer.js:142-166 | A plan exists if and only if the maximum is below 500. Otherwise `res` stays undefined. |
| `Graduation.ChosenPlan` | Speedometer/src/Speedometer.js:141-164 | The chosen plan has a palette step and 8, 9 or 10 divisions, and it has headroom. It is first in search order, and its top tick is the smallest of all fitting plans. |
| `Graduation.PlanShape` | Speedometer/src/Speedometer.js:141-164 | A chosen plan has a positive palette step, 8 to 10 divisions, and headroom. |
| `Graduation.PlanForMax40` | Speedometer/src/Speedometer.js:141-164 | A maximum of 40 fails 8 × 5 = 40 and plans step 5 with 9 divisions. |
| `Graduation.NonPositiveDataPlansStepOne` | Speedometer/src/Speedometer.js:131-152 | Empty or all-negative data are accepted and plan step 1 with 8 divisions. |
| `Graduation.FirstFit` | Speedometer/src/Speedometer.js:143-164 | A plan found by the search is in the search order and fits the maximum. When the first candidate fits, it is the one returned. |
| `Graduation.PlanFor` | Speedometer/src/Speedometer.js:131-164 | A plan exists exactly when the maximum is below 500. It has a palette step, 8 to 10 divisions, and a top tick above every sample. |
| `Graduation.Overlay` | Speedometer/src/Speedometer.js:166-169 | After the fill, entries 0 to `count` hold `i * step`. The array has exactly max(old length, `count + 1`) entries, and later entries keep their old values. |
| `Graduation.Fill` | Speedometer/src/Speedometer.js:166-169 | The fill loop overwrites the first `count + 1` entries with `i * step`. It grows the array when needed and keeps later entries. |
| `Graduation.FreshGraduation` | Speedometer/src/Speedometer.js:166-169 | Filled into an empty array, a plan gives exactly `count + 1` values `i * step`. They start at 0, strictly increase and end at the top tick. |
| `Graduation.OverlayKeepsShape` | Speedometer/src/Speedometer.js:166-169 | A successful load keeps 9 to 11 entries starting at 0. |
| `Graduation.FreshLoadHasHeadroom` | Speedometer/src/Speedometer.js:166-169 | After a first load, the last graduation value strictly exceeds every sample. |
| `Graduation.StaleTicksAfterSmallerLoad` | Speedometer/src/Speedometer.js:166-169 | Loads planning (1, 10) and then (2, 8) leave 11 entries that do not increase. The last entry, 10, falls below the second maximum. |
| `Graduation.Multiplicator` | Speedometer/src/Speedometer.js:171 | The multiplicator is positive exactly while the graduation has at most 21 entries. |
| `Graduation.MultiplicatorDecreasing` | Speedometer/src/Speedometer.js:171 | The multiplicator strictly decreases as the graduation grows. |
| `Graduation.FreshMultiplicator` | Speedometer/src/Speedometer.js:171 | After a first load, the multiplicator is 0.065, 0.06 or 0.055 for 8, 9 or 10 divisions. |
| `Samples.SampleIndex` | Speedometer/src/Speedometer.js:179 | The index is the floor of `time * frequency`: at most that product, and more than the product minus 1. |
| `Samples.ClosestFromTime` | Speedometer/src/Speedometer.js:177-181 | The lookup is defined exactly when the floored index lies inside the samples, and then it returns one of the samples. |
| `Samples.SampleHeldOverItsInterval` | Speedometer/src/Speedometer.js:177-181 | Sample `i` is returned for every time in `[i / frequency, (i + 1) / frequency)`. |
| `Samples.FirstSampleAtTimeZero` | Speedometer/src/Speedometer.js:177-181 | At time 0 the lookup returns the first sample. |
| `Samples.NoSampleOutsideRecording` | Speedometer/src/Speedometer.js:177-181 | Before 0 or past the recording the lookup is undefined. The caller must keep the time in range. |
| `Dial.LayoutTicks` | Speedometer/src/Speedometer.js:219-236 | The loop visits exactly `5 * (length - 1) + 1` indices, or none for an empty graduation. Index `i` is major exactly when `i % 5 == 0`, and a major tick is labelled `graduation[i / 5]`. |
| `Dial.MajorLabelsAppend` | Speedometer/src/Speedometer.js:221-228 | The labels of two tick runs, one after the other, are the two runs' labels concatenated. |
| `Dial.LayoutPrefix` | Speedometer/src/Speedometer.js:221-228 | Without the last graduation value, the layout loses its last five ticks. |
| `Dial.LayoutLastGroup` | Speedometer/src/Speedometer.js:221-235 | A layout ends in four minor ticks, then the major tick of the last graduation value. |
| `Dial.MajorLabelsOfGroup` | Speedometer/src/Speedometer.js:223-228 | Four minor ticks followed by one major tick contribute that one label. |
| `Dial.LayoutLabelsAreGraduation` | Speedometer/src/Speedometer.js:219-228 | The major ticks' labels are exactly the graduation. Each entry labels exactly one major tick, in order. |
| `Dial.TickOffset` | Speedometer/src/Speedometer.js:220 | The per-index offset is positive exactly while the graduation has at most 21 entries. |
| `Dial.TickSweep` | Speedometer/src/Speedometer.js:219-233 | Index 0 sits at the zero position. With a positive offset, every later index turns strictly forward. |
| `Dial.NeedleSweep` | Speedometer/src/Speedometer.js:194 | A value of 0 leaves the needle at the zero position. With a positive multiplicator, the needle turns forward exactly for positive values. |
| `Dial.AlignedNeedleSweep` | Speedometer/src/Speedometer.js:194 | The corrected needle also rests at 0 for a value of 0, and turns forward exactly for positive values while the offset is positive. |
| `Dial.MultiplicatorIsHalfOffset` | Speedometer/src/Speedometer.js:220 | The needle multiplicator is half the tick offset. |
| `Dial.NeedleOnLabelOnlyForStep10` | Speedometer/src/Speedometer.js:194 | As written, the needle reaches the major tick labelled `k * step` if and only if the step is 10. |
| `Dial.NeedleMissesLabelForMax40` | Speedometer/src/Speedometer.js:194 | With samples `[40]`, the needle at 40 stops at 2.4 rad, while the tick labelled 40 sits at 4.8 rad. |
| `Dial.AlignedNeedleOnLabels` | Speedometer/src/Speedometer.js:194 | The corrected needle reaches the major tick of every graduation value. |
| `Dial.AlignedNeedleAgreesAtStep10` | Speedometer/src/Speedometer.js:194 | For step 10, the corrected needle is the needle as written. |
| `SpeedometerPlugin.RegisterOnce` | Speedometer/src/Speedometer.js:99-101 | After the guarded subscription the listener is present, every earlier listener is kept, and at most one entry is added. An existing listener leaves the list unchanged. |
| `SpeedometerPlugin.RegisterOnceIsIdempotent` | Speedometer/src/Speedometer.js:99-101 | The guarded subscription is present afterwards and never duplicated. Subscribing twice changes nothing. |
| `SpeedometerPlugin.Speedometer.constructor` | Speedometer/src/Speedometer.js:6-25 | A new plugin has no canvas, no video and no data. Its graduation is empty and its multiplicator is 0. |
| `SpeedometerPlugin.Speedometer.SetupVideo` | Speedometer/src/Speedometer.js:83-105 | It binds the scene media, or a ready source plugin's video. Otherwise it subscribes once to the plugin's readiness, unless already subscribed. |
| `SpeedometerPlugin.Speedometer.Boot` | Speedometer/src/Speedometer.js:37-53 | Boot creates the canvas and sets up the video as `_setupVideo` does. Without a source, or with a plugin that is not ready, the video is unchanged. The source plugin keeps its readiness and video, and only a plugin that is not ready gains the once-subscription. |
| `SpeedometerPlugin.Speedometer.Reset` | Speedometer/src/Speedometer.js:76-77 | Reset forgets the video and sets it up again. Data and graduation are kept. The source plugin keeps its readiness and video, and only a plugin that is not ready gains the once-subscription. |
| `SpeedometerPlugin.Speedometer.JsonLoadComplete` | Speedometer/src/Speedometer.js:127-172 | The data is always stored. Maximum ≥ 500 fails without touching the graduation, and so does a load after destroy. Otherwise the plan is written over the old graduation and the multiplicator follows its length. A first load gives `count + 1` values `i * step` whose last value exceeds every sample. |
| `SpeedometerPlugin.Speedometer.Update` | Speedometer/src/Speedometer.js:186-241 | It changes no state. It is skipped exactly when data or canvas is missing, and it fails exactly when the video is missing. Otherwise it yields the sample at the video's time, the tick layout of the graduation and the unit. |
| `SpeedometerPlugin.Speedometer.Destroy` | Speedometer/src/Speedometer.js:295-305 | With a canvas, it releases canvas, graduation, video and data. Without one, it fails and changes nothing. |
| `SpeedometerPlugin.DestroyedGaugeStaysInert` | Speedometer/src/Speedometer.js:186-305 | A first `destroy` succeeds. After it, a load fails, `update` is skipped, a second `destroy` fails, and `update` is still skipped. |
| `SpeedometerPlugin.LoadAndUpdateScenario` | Speedometer/src/Speedometer.js:127-241 | Loading `[0, 10, 20, 31, 40]` at 2 Hz plans step 5 with 9 divisions. At time 1.5 the update reads sample 3, that is 31, and labels its major ticks 0, 5, ..., 45. |

## Left out

- Canvas drawing is not modelled: `clearRect`, `arc`, `stroke`, `fill` and `fillText`, plus the `try`/`catch` around them. The canvas is reduced to whether it exists.
- Floating point is not modelled. Every number is an exact real, so results such as `0.21 - 0.01 * 8` carry no rounding error, and NaN and infinities do not occur.
- `SpeedometerPlugin.Speedometer.Update`: its outcome does not include angles. It leaves out `Math.PI`, `cos`/`sin` label positions, the arc ends of each tick, the tracker cap and `toFixed(0)`. The needle angle relative to the zero position is modelled on its own in `Dial.NeedleSweep` and corrected in `Dial.AlignedNeedleSweep` (see Findings).
- Font strings and `parseInt` of font sizes are not modelled. They are cosmetic configuration.
- The JSON request and its URL check (`_loadJsonData`) are not modelled. They are asynchronous I/O, and its completion is modelled as a call of `JsonLoadComplete`.
- Source resolution is not modelled. `FORGE.UID.isTypeOf` / `FORGE.UID.get` and `viewer.story.scene.media` become the `Source` value: the scene's video, a source plugin, or neither.
- Firing `onInstanceReady` belongs to the source plugin. The model keeps only its list of once-listeners and the guard against subscribing twice.
- `SpeedometerPlugin.Speedometer.Boot`: it is limited to canvas creation and video setup. It leaves out size and placement options, `addChild`, visibility, `notifyInstanceReady` and the JSON request. It requires a plugin that has not been booted or destroyed, which is how the host uses it.
- `SpeedometerPlugin.Speedometer.Reset`: it leaves out the `show`/`hide` toggle. `show`, `hide` and the `texture` getter are host wiring and are not modelled.

## Findings

| source | as written | input that shows it | evidently intended | confidence | as-written member | corrected member |
|---|---|---|---|---|---|---|
| Speedometer/src/Speedometer.js:194 | The needle turns `value * _multiplicator`, that is `value * offset / 2`. The tick labelled `k * step` is drawn at index `5 * k`, that is `5 * k * offset` (lines 220-228). The two agree only when the step is 10. | Samples `[40]` plan step 5 with 9 divisions. The needle at 40 turns 2.4 rad, while the tick labelled 40 is at 4.8 rad. | The needle turns `value * 5 * offset / step`, so that it points at the tick of its own value. | high; not executed | `Dial.NeedleOnLabelOnlyForStep10` | `Dial.AlignedNeedleOnLabels` |
