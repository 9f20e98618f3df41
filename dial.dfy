/**
 * The integer structure of the dial drawn by `update` in
 * Speedometer/src/Speedometer.js: which tick indices the graduation loop visits,
 * which of them are major, and which graduation value labels each major tick.
 * Angles are measured from the dial's zero position (`Math.PI / 2`), so the
 * constant itself never appears.
 */
module Dial {
  import Graduation
  import opened Wrappers

  /** A tick of the dial: major ticks carry a graduation label, minor ones none. */
  datatype Tick = Major(value: int) | Minor

  /** Indices `0..5 * (length - 1)` inclusive; none when the graduation is empty. */
  function TickCount(length: int): int
  {
    if length <= 0 then 0 else 5 * (length - 1) + 1
  }

  /**
   * `ticks` is the layout of graduation `g`: one tick per visited index, index
   * `i` major exactly when `i % 5 == 0`, labelled with `g[i / 5]`.
   */
  ghost predicate IsLayout(g: seq<int>, ticks: seq<Tick>)
  {
    |ticks| == TickCount(|g|) &&
    forall i | 0 <= i < |ticks| ::
      (ticks[i].Major? <==> i % 5 == 0) && (ticks[i].Major? ==> ticks[i].value == g[i / 5])
  }

  /** The graduation loop of `update`, keeping the integer part of each iteration. */
  method LayoutTicks(g: seq<int>) returns (ticks: seq<Tick>)
    ensures IsLayout(g, ticks)
  {
    ticks := [];
    var i := 0;
    var last := 5 * (|g| - 1);
    while i <= last
      invariant 0 <= i == |ticks|
      invariant last >= 0 ==> i <= last + 1
      invariant last < 0 ==> i == 0
      invariant forall j | 0 <= j < i ::
        (ticks[j].Major? <==> j % 5 == 0) && (ticks[j].Major? ==> ticks[j].value == g[j / 5])
    {
      if i % 5 == 0 {
        ticks := ticks + [Major(g[i / 5])];
      } else {
        ticks := ticks + [Minor];
      }
      i := i + 1;
    }
  }

  /** The labels of the major ticks, in dial order. */
  function MajorLabels(ticks: seq<Tick>): seq<int>
  {
    if ticks == [] then []
    else (if ticks[0].Major? then [ticks[0].value] else []) + MajorLabels(ticks[1..])
  }

  lemma {:induction false} MajorLabelsAppend(a: seq<Tick>, b: seq<Tick>)
    ensures MajorLabels(a + b) == MajorLabels(a) + MajorLabels(b)
  {
    if a == [] {
      assert a + b == b;
    } else {
      assert (a + b)[0] == a[0];
      assert (a + b)[1..] == a[1..] + b;
      MajorLabelsAppend(a[1..], b);
    }
  }

  /** Dropping the last graduation value drops the last five ticks of the layout. */
  lemma LayoutPrefix(g: seq<int>, ticks: seq<Tick>)
    requires |g| >= 2 && IsLayout(g, ticks)
    ensures IsLayout(g[..|g| - 1], ticks[..5 * (|g| - 2) + 1])
  {
  }

  /** The last five ticks of a layout: four minor ticks, then the last graduation value. */
  lemma LayoutLastGroup(g: seq<int>, ticks: seq<Tick>)
    requires |g| >= 2 && IsLayout(g, ticks)
    ensures ticks[5 * (|g| - 2) + 1..] == [Minor, Minor, Minor, Minor, Major(g[|g| - 1])]
  {
  }


  lemma MajorLabelsOfGroup(x: int)
    ensures MajorLabels([Minor, Minor, Minor, Minor, Major(x)]) == [x]
  {
    var t := [Minor, Minor, Minor, Minor, Major(x)];
    assert t[1..] == [Minor, Minor, Minor, Major(x)];
    assert t[1..][1..] == [Minor, Minor, Major(x)];
    assert t[1..][1..][1..] == [Minor, Major(x)];
    assert t[1..][1..][1..][1..] == [Major(x)];
    assert MajorLabels(t[1..][1..][1..][1..]) == [x] + MajorLabels([]);
    assert MajorLabels(t[1..][1..][1..]) == MajorLabels(t[1..][1..][1..][1..]);
    assert MajorLabels(t[1..][1..]) == MajorLabels(t[1..][1..][1..]);
    assert MajorLabels(t[1..]) == MajorLabels(t[1..][1..]);
  }

  /**
   * The major ticks' labels are the graduation itself: every graduation value
   * labels exactly one major tick, in order.
   */
  lemma {:induction false} LayoutLabelsAreGraduation(g: seq<int>, ticks: seq<Tick>)
    requires IsLayout(g, ticks)
    ensures MajorLabels(ticks) == g
  {
    var n := |g|;
    if n == 0 {
    } else if n == 1 {
      assert ticks == [Major(g[0])];
      assert MajorLabels(ticks) == [g[0]] + MajorLabels([]);
    } else {
      var b := 5 * (n - 2) + 1;
      LayoutPrefix(g, ticks);
      LayoutLabelsAreGraduation(g[..n - 1], ticks[..b]);
      LayoutLastGroup(g, ticks);
      MajorLabelsOfGroup(g[n - 1]);
      assert ticks == ticks[..b] + ticks[b..];
      MajorLabelsAppend(ticks[..b], ticks[b..]);
      assert g == g[..n - 1] + [g[n - 1]];
    }
  }

  // ---------------------------------------------------------------------------
  // Angles relative to the dial's zero position

  /** `offset = 0.21 - 0.01 * (length - 1)`: the angle between consecutive tick indices. */
  function TickOffset(length: int): (offset: real)
    ensures offset > 0.0 <==> length <= 21
  {
    0.21 - 0.01 * (length - 1) as real
  }

  /** The nominal angle of tick index `i` (minor arcs start there; major arcs span 0.1 before to 0.2 after). */
  function TickSweep(i: int, length: int): (sweep: real)
    ensures length <= 21 ==> (sweep > 0.0 <==> i > 0)
    ensures i == 0 ==> sweep == 0.0
  {
    i as real * TickOffset(length)
  }

  /** The multiplicator is half the tick offset. */
  lemma MultiplicatorIsHalfOffset(length: int)
    ensures Graduation.Multiplicator(length) * 2.0 == TickOffset(length)
  {
  }

  /** As written: the needle turns `value * _multiplicator` from the zero position. */
  function NeedleSweep(value: real, multiplicator: real): (sweep: real)
    ensures value == 0.0 ==> sweep == 0.0
    ensures multiplicator > 0.0 ==> (sweep > 0.0 <==> value > 0.0)
  {
    value * multiplicator
  }

  /**
   * As written, the needle points at the major tick labelled `k * step` only
   * when the step is 10: for any other step it points at a different angle.
   */
  lemma NeedleOnLabelOnlyForStep10(s: Graduation.Scale, k: int)
    requires s.count in Graduation.Counts && s.step > 0 && 0 < k <= s.count
    ensures var len := s.count + 1;
      NeedleSweep((k * s.step) as real, Graduation.Multiplicator(len)) == TickSweep(5 * k, len)
      <==> s.step == 10
  {
  }


  /**
   * Samples `[40.0]` plan step 5 with 9 divisions; the needle at value 40
   * stops at 2.4 rad from zero, while the tick labelled 40 sits at 4.8 rad.
   */
  lemma NeedleMissesLabelForMax40()
    ensures Graduation.PlanFor([40.0]) == Some(Graduation.Scale(5, 9))
    ensures NeedleSweep(40.0, Graduation.Multiplicator(10)) == 2.4
    ensures TickSweep(40, 10) == 4.8
  {
    assert Graduation.MaxOrZero([40.0]) == 40.0 by { assert [40.0][..0] == []; }
    Graduation.PlanForMax40([40.0]);
  }

  /**
   * Corrected: a needle that turns `value * 5 * offset / step`, so that the
   * value `k * step` reaches tick index `5 * k`.
   */
  function AlignedNeedleSweep(value: real, s: Graduation.Scale, length: int): (sweep: real)
    requires s.step > 0
    ensures value == 0.0 ==> sweep == 0.0
    ensures length <= 21 ==> (sweep > 0.0 <==> value > 0.0)
  {
    value * 5.0 * TickOffset(length) / s.step as real
  }

  /** The corrected needle points exactly at the major tick of every graduation value. */
  lemma AlignedNeedleOnLabels(s: Graduation.Scale, k: int, length: int)
    requires s.step > 0
    ensures AlignedNeedleSweep((k * s.step) as real, s, length) == TickSweep(5 * k, length)
  {
  }


  /** For step 10 the corrected needle is the needle as written. */
  lemma AlignedNeedleAgreesAtStep10(value: real, s: Graduation.Scale, length: int)
    requires s.step == 10
    ensures AlignedNeedleSweep(value, s, length) == NeedleSweep(value, Graduation.Multiplicator(length))
  {
  }
}
