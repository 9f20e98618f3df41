/**
 * The loaded time series and the lookup of the sample shown at a playback
 * time (`_getClosestFromTime` in Speedometer/src/Speedometer.js).
 */
module Samples {
  import opened Wrappers

  /** The JSON document `{ data, frequency, unit }`: `samples[i]` is the value at time `i / frequency`. */
  datatype Series = Series(samples: seq<real>, frequency: real, unit: string)

  /** `Math.floor(time * frequency)`. */
  function SampleIndex(time: real, frequency: real): (index: int)
    ensures index as real <= time * frequency < index as real + 1.0
  {
    (time * frequency).Floor
  }

  /**
   * `data[Math.floor(time * frequency)]`. The source does not check the index:
   * reading a JavaScript array outside its bounds yields `undefined`, which is `None` here.
   */
  function ClosestFromTime(s: Series, time: real): (v: Option<real>)
    ensures v.Some? <==> 0 <= SampleIndex(time, s.frequency) < |s.samples|
    ensures v.Some? ==> v.value in s.samples
  {
    var index := SampleIndex(time, s.frequency);
    if 0 <= index < |s.samples| then Some(s.samples[index]) else None
  }

  /** Sample `i` is the one shown during the whole interval `[i / frequency, (i + 1) / frequency)`. */
  lemma SampleHeldOverItsInterval(s: Series, i: int, time: real)
    requires s.frequency > 0.0
    requires 0 <= i < |s.samples|
    requires i as real / s.frequency <= time < (i + 1) as real / s.frequency
    ensures ClosestFromTime(s, time) == Some(s.samples[i])
  {
    var f := s.frequency;
    assert (i as real / f) * f == i as real;
    assert ((i + 1) as real / f) * f == (i + 1) as real;
    assert i as real <= time * f by {
      assert (i as real / f) * f <= time * f;
    }
    assert time * f < (i + 1) as real by {
      assert time * f < ((i + 1) as real / f) * f;
    }
    assert SampleIndex(time, f) == i;
  }

  /** At time 0 the first sample is shown, whatever the frequency. */
  lemma FirstSampleAtTimeZero(s: Series)
    requires |s.samples| > 0
    ensures ClosestFromTime(s, 0.0) == Some(s.samples[0])
  {
  }

  /**
   * Past the end of the recording, or before its start, the lookup yields
   * `undefined`: keeping the time in range is the caller's duty.
   */
  lemma NoSampleOutsideRecording(s: Series, time: real)
    requires s.frequency > 0.0
    requires time < 0.0 || time >= |s.samples| as real / s.frequency
    ensures ClosestFromTime(s, time) == None
  {
    var f := s.frequency;
    if time < 0.0 {
      assert time * f < 0.0;
    } else {
      assert (|s.samples| as real / f) * f == |s.samples| as real;
      assert (|s.samples| as real / f) * f <= time * f;
    }
  }

}
