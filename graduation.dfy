/**
 * Graduation planning (`_jsonLoadComplete` in Speedometer/src/Speedometer.js):
 * the running maximum of the samples, the search of a step and a number of
 * major divisions in a fixed palette, the filling of the graduation values,
 * and the angular multiplicator derived from the graduation's length.
 */
module Graduation {
  import opened Wrappers

  /** A graduation plan: major ticks `0, step, 2*step, ..., count*step`. */
  datatype Scale = Scale(step: int, count: int)

  /** The value of the last major tick of a plan. */
  function Top(s: Scale): int
  {
    s.count * s.step
  }

  /** The candidate step sizes, tried in this order. */
  const Palette: seq<int> := [1, 2, 5, 10, 20, 30, 50]

  /** The numbers of major divisions tried for each step, in this order. */
  const Counts: set<int> := {8, 9, 10}

  // ---------------------------------------------------------------------------
  // Running maximum

  /**
   * The running maximum of the `forEach` scan: it starts at 0 and takes each
   * sample that exceeds it. Empty or all-negative data give 0.
   */
  function MaxOrZero(s: seq<real>): (m: real)
    ensures 0.0 <= m
    ensures forall i | 0 <= i < |s| :: s[i] <= m
    ensures m == 0.0 || m in s
  {
    if s == [] then 0.0
    else
      var m := MaxOrZero(s[..|s| - 1]);
      if m < s[|s| - 1] then s[|s| - 1] else m
  }

  /** The `forEach` loop that computes `max`. */
  method ScanMax(samples: seq<real>) returns (max: real)
    ensures max == MaxOrZero(samples)
  {
    max := 0.0;
    var i := 0;
    while i < |samples|
      invariant 0 <= i <= |samples|
      invariant max == MaxOrZero(samples[..i])
    {
      assert samples[..i + 1][..i] == samples[..i];
      if max < samples[i] {
        max := samples[i];
      }
      i := i + 1;
    }
    assert samples[..i] == samples;
  }

  /** When some sample is positive, the scan yields the largest sample. */
  lemma MaxIsLargestPositiveSample(s: seq<real>, k: int)
    requires 0 <= k < |s| && s[k] > 0.0
    ensures MaxOrZero(s) in s && MaxOrZero(s) >= s[k]
    ensures forall i | 0 <= i < |s| :: s[i] <= MaxOrZero(s)
  {
  }

  // ---------------------------------------------------------------------------
  // Palette search

  /** The candidates for a list of steps in search order: each step with 8, 9 and then 10 divisions. */
  function Candidates(steps: seq<int>): (order: seq<Scale>)
    ensures |order| == 3 * |steps|
  {
    if steps == [] then []
    else [Scale(steps[0], 8), Scale(steps[0], 9), Scale(steps[0], 10)] + Candidates(steps[1..])
  }

  /** The 21 plans in the order `multiple.some` tries them. */
  function SearchOrder(): seq<Scale>
  {
    Candidates(Palette)
  }

  /** A plan leaves headroom when its top tick strictly exceeds the maximum. */
  predicate Fits(s: Scale, max: real)
  {
    Top(s) as real > max
  }

  /** The first plan of `order` that leaves headroom above `max`, if any. */
  function FirstFit(order: seq<Scale>, max: real): (r: Option<Scale>)
    ensures r.Some? ==> r.value in order && Fits(r.value, max)
    ensures order != [] && Fits(order[0], max) ==> r == Some(order[0])
  {
    if order == [] then None
    else if Fits(order[0], max) then Some(order[0])
    else FirstFit(order[1..], max)
  }

  /** The plan a load chooses for its samples; None when `res` stays undefined. */
  function PlanFor(samples: seq<real>): (r: Option<Scale>)
    ensures r.Some? <==> MaxOrZero(samples) < 500.0
    ensures r.Some? ==>
      r.value.step in Palette && r.value.count in Counts &&
      forall i | 0 <= i < |samples| :: samples[i] < Top(r.value) as real
  {
    var max := MaxOrZero(samples);
    PlanExistsIffBelow500(max);
    if max < 500.0 then PlanShape(max); FirstFit(SearchOrder(), max)
    else FirstFit(SearchOrder(), max)
  }

  /** `multiple.some(...)`: the palette loop with its three tests per step. */
  method ChooseScale(max: real) returns (res: Option<Scale>)
    ensures res == FirstFit(SearchOrder(), max)
  {
    var k := 0;
    while k < |Palette|
      invariant 0 <= k <= |Palette|
      invariant FirstFit(SearchOrder(), max) == FirstFit(Candidates(Palette[k..]), max)
    {
      var e := Palette[k];
      assert Palette[k..][1..] == Palette[k + 1..];
      assert Candidates(Palette[k..]) ==
        [Scale(e, 8), Scale(e, 9), Scale(e, 10)] + Candidates(Palette[k + 1..]);
      FirstFitOfStep(e, max);
      FirstFitAppend([Scale(e, 8), Scale(e, 9), Scale(e, 10)], Candidates(Palette[k + 1..]), max);
      if (8 * e) as real > max {
        return Some(Scale(e, 8));
      } else if (9 * e) as real > max {
        return Some(Scale(e, 9));
      } else if (10 * e) as real > max {
        return Some(Scale(e, 10));
      }
      k := k + 1;
    }
    res := None;
  }

  /** The three tests made for one step. */
  lemma FirstFitOfStep(e: int, max: real)
    ensures FirstFit([Scale(e, 8), Scale(e, 9), Scale(e, 10)], max) ==
      if (8 * e) as real > max then Some(Scale(e, 8))
      else if (9 * e) as real > max then Some(Scale(e, 9))
      else if (10 * e) as real > max then Some(Scale(e, 10))
      else None
  {
    var tried := [Scale(e, 8), Scale(e, 9), Scale(e, 10)];
    assert tried[1..] == [Scale(e, 9), Scale(e, 10)];
    assert tried[1..][1..] == [Scale(e, 10)];
    assert tried[1..][1..][1..] == [];
    assert FirstFit(tried[1..][1..], max) ==
      if (10 * e) as real > max then Some(Scale(e, 10)) else None;
    assert FirstFit(tried[1..], max) ==
      if (9 * e) as real > max then Some(Scale(e, 9)) else FirstFit(tried[1..][1..], max);
  }

  /** Searching a concatenation searches the second part only when the first has no fit. */
  lemma {:induction false} FirstFitAppend(a: seq<Scale>, b: seq<Scale>, max: real)
    ensures FirstFit(a + b, max) == if FirstFit(a, max).Some? then FirstFit(a, max) else FirstFit(b, max)
  {
    if a == [] {
      assert a + b == b;
    } else {
      assert (a + b)[0] == a[0];
      assert (a + b)[1..] == a[1..] + b;
      FirstFitAppend(a[1..], b, max);
    }
  }

  /** FirstFit yields the plan that fits and that no earlier plan precedes with a fit. */
  lemma {:induction false} FirstFitIsFirst(order: seq<Scale>, max: real)
    ensures FirstFit(order, max).None? <==> forall j | 0 <= j < |order| :: !Fits(order[j], max)
    ensures FirstFit(order, max).Some? ==>
      exists k | 0 <= k < |order| ::
        order[k] == FirstFit(order, max).value && Fits(order[k], max) &&
        forall j | 0 <= j < k :: !Fits(order[j], max)
  {
    if order != [] && !Fits(order[0], max) {
      FirstFitIsFirst(order[1..], max);
      if FirstFit(order, max).Some? {
        var k :| 0 <= k < |order[1..]| && order[1..][k] == FirstFit(order, max).value &&
          Fits(order[1..][k], max) && forall j | 0 <= j < k :: !Fits(order[1..][j], max);
        assert order[k + 1] == order[1..][k];
        assert forall j | 0 <= j < k + 1 :: !Fits(order[j], max) by {
          forall j | 0 <= j < k + 1 ensures !Fits(order[j], max) {
            if j > 0 { assert order[j] == order[1..][j - 1]; }
          }
        }
      } else {
        forall j | 0 <= j < |order| ensures !Fits(order[j], max) {
          if j > 0 { assert order[j] == order[1..][j - 1]; }
        }
      }
    }
  }

  /** Every candidate pairs a step of the list with 8, 9 or 10 divisions. */
  lemma {:induction false} CandidatesShape(steps: seq<int>)
    ensures forall s | s in Candidates(steps) :: s.step in steps && s.count in Counts
  {
    if steps != [] {
      CandidatesShape(steps[1..]);
    }
  }

  /** Steps spaced so that ten of one step stay below eight of the next. */
  predicate Spaced(steps: seq<int>)
  {
    (forall i | 0 <= i < |steps| :: steps[i] > 0) &&
    (forall i | 0 <= i < |steps| - 1 :: 10 * steps[i] < 8 * steps[i + 1])
  }

  /** Over a spaced list of steps, the top ticks strictly increase in search order. */
  lemma {:induction false} CandidatesIncreasing(steps: seq<int>)
    requires Spaced(steps)
    ensures forall i, j | 0 <= i < j < |Candidates(steps)| ::
      Top(Candidates(steps)[i]) < Top(Candidates(steps)[j])
  {
    if steps != [] {
      var rest := Candidates(steps[1..]);
      var c := Candidates(steps);
      assert Spaced(steps[1..]) by {
        forall i | 0 <= i < |steps[1..]| - 1 ensures 10 * steps[1..][i] < 8 * steps[1..][i + 1] {
          assert steps[1..][i] == steps[i + 1];
        }
      }
      CandidatesIncreasing(steps[1..]);
      assert c == [Scale(steps[0], 8), Scale(steps[0], 9), Scale(steps[0], 10)] + rest;
      forall i, j | 0 <= i < j < |c| ensures Top(c[i]) < Top(c[j]) {
        if j >= 3 {
          assert c[j] == rest[j - 3];
          assert Top(rest[j - 3]) >= Top(rest[0]) by {
            if j > 3 { assert Top(rest[0]) < Top(rest[j - 3]); }
          }
          assert rest[0] == Scale(steps[1], 8);
          if i >= 3 {
            assert c[i] == rest[i - 3];
          }
        }
      }
    }
  }

  /** The last candidate pairs the last step with 10 divisions. */
  lemma {:induction false} CandidatesLast(steps: seq<int>)
    requires steps != []
    ensures Candidates(steps)[3 * |steps| - 1] == Scale(steps[|steps| - 1], 10)
  {
    if |steps| > 1 {
      CandidatesLast(steps[1..]);
      assert Candidates(steps)[3 * |steps| - 1] == Candidates(steps[1..])[3 * |steps[1..]| - 1];
    }
  }

  /** The palette is spaced. */
  lemma PaletteSpaced()
    ensures Spaced(Palette)
  {
  }


  /** Facts about the fixed search order. */
  lemma SearchOrderFacts()
    ensures |SearchOrder()| == 21
    ensures SearchOrder()[20] == Scale(50, 10)
    ensures forall s | s in SearchOrder() :: s.step in Palette && s.count in Counts
    ensures forall i, j | 0 <= i < j < 21 :: Top(SearchOrder()[i]) < Top(SearchOrder()[j])
  {
    PaletteSpaced();
    CandidatesShape(Palette);
    CandidatesIncreasing(Palette);
    CandidatesLast(Palette);
  }

  /** The first six candidates, those of steps 1 and 2. */
  lemma SearchOrderStart()
    ensures SearchOrder() ==
      [Scale(1, 8), Scale(1, 9), Scale(1, 10), Scale(2, 8), Scale(2, 9), Scale(2, 10)] + Candidates(Palette[2..])
  {
  }


  /**
   * A plan exists exactly when the maximum is below 500 (the top of `50 * 10`);
   * otherwise `res` stays undefined and the load fails.
   */
  lemma PlanExistsIffBelow500(max: real)
    ensures FirstFit(SearchOrder(), max).Some? <==> max < 500.0
  {
    SearchOrderFacts();
    FirstFitIsFirst(SearchOrder(), max);
    if max >= 500.0 {
      forall j | 0 <= j < 21 ensures !Fits(SearchOrder()[j], max) {
        if j < 20 { assert Top(SearchOrder()[j]) < Top(SearchOrder()[20]); }
      }
    } else {
      assert Fits(SearchOrder()[20], max);
    }
  }

  /**
   * The chosen plan: a palette step with 8, 9 or 10 divisions whose top tick
   * strictly exceeds the maximum, no plan earlier in search order does, and its
   * top tick is the smallest of all fitting candidates.
   */
  lemma ChosenPlan(max: real)
    requires max < 500.0
    ensures FirstFit(SearchOrder(), max).Some?
    ensures var s := FirstFit(SearchOrder(), max).value;
      s.step in Palette && s.count in Counts && Fits(s, max) &&
      (exists k | 0 <= k < 21 :: SearchOrder()[k] == s &&
         forall j | 0 <= j < k :: !Fits(SearchOrder()[j], max)) &&
      forall t | t in SearchOrder() && Fits(t, max) :: Top(s) <= Top(t)
  {
    PlanExistsIffBelow500(max);
    SearchOrderFacts();
    FirstFitIsFirst(SearchOrder(), max);
    var s := FirstFit(SearchOrder(), max).value;
    var k :| 0 <= k < 21 && SearchOrder()[k] == s && Fits(s, max) &&
      forall j | 0 <= j < k :: !Fits(SearchOrder()[j], max);
    forall t | t in SearchOrder() && Fits(t, max) ensures Top(s) <= Top(t) {
      var j :| 0 <= j < 21 && SearchOrder()[j] == t;
      if k < j { assert Top(SearchOrder()[k]) < Top(SearchOrder()[j]); }
    }
  }

  /** The shape of a chosen plan, without the search-order facts. */
  lemma PlanShape(max: real)
    requires FirstFit(SearchOrder(), max).Some?
    ensures var s := FirstFit(SearchOrder(), max).value;
      s.step in Palette && s.step > 0 && s.count in Counts && Fits(s, max)
  {
    PlanExistsIffBelow500(max);
    ChosenPlan(max);
  }

  /** A maximum of 40 fails 8 * 5 = 40 (no headroom) and plans step 5 with 9 divisions. */
  lemma PlanForMax40(samples: seq<real>)
    requires MaxOrZero(samples) == 40.0
    ensures PlanFor(samples) == Some(Scale(5, 9))
  {
    SearchOrderStart();
    assert Palette[2..][1..] == Palette[3..];
    var start := [Scale(1, 8), Scale(1, 9), Scale(1, 10), Scale(2, 8), Scale(2, 9), Scale(2, 10)];
    FirstFitAppend(start, Candidates(Palette[2..]), 40.0);
    FirstFitOfStep(5, 40.0);
    FirstFitAppend([Scale(5, 8), Scale(5, 9), Scale(5, 10)], Candidates(Palette[3..]), 40.0);
  }

  /** Empty or all-negative data are accepted: they plan step 1 with 8 divisions. */
  lemma NonPositiveDataPlansStepOne(samples: seq<real>)
    requires forall i | 0 <= i < |samples| :: samples[i] <= 0.0
    ensures PlanFor(samples) == Some(Scale(1, 8))
  {
  }


  // ---------------------------------------------------------------------------
  // Graduation fill

  /**
   * `_graduation` after `_graduation[i] = i * step` for `i` in `0..count`: the
   * first `count + 1` entries are overwritten (the array grows when it is
   * shorter) and the entries beyond them keep their old values.
   */
  function Overlay(g: seq<int>, s: Scale): (r: seq<int>)
    ensures |r| == if |g| <= s.count then s.count + 1 else |g|
    ensures |g| <= |r| && (s.count >= 0 ==> s.count < |r|) &&
      (forall i | 0 <= i <= s.count && i < |r| :: r[i] == i * s.step) &&
      (forall i | 0 <= i < |g| && s.count < i :: r[i] == g[i])
  {
    var n := if |g| <= s.count then s.count + 1 else |g|;
    seq(n, i requires 0 <= i < n => if i <= s.count then i * s.step else g[i])
  }

  /** The `for` loop that writes the graduation values one index at a time. */
  method Fill(g: seq<int>, s: Scale) returns (r: seq<int>)
    ensures r == Overlay(g, s)
  {
    r := g;
    var i := 0;
    while i <= s.count
      invariant 0 <= i && (i <= s.count + 1 || i == 0)
      invariant |r| == if |g| <= i then i else |g|
      invariant forall j | 0 <= j < |r| :: r[j] == if j < i then j * s.step else g[j]
    {
      if i < |r| {
        r := r[i := i * s.step];
      } else {
        r := r + [i * s.step];
      }
      i := i + 1;
    }
    assert forall j | 0 <= j < |r| :: r[j] == Overlay(g, s)[j];
  }

  /**
   * Filled into an empty graduation, a plan gives exactly `count + 1` values
   * `i * step`: starting at 0, strictly increasing, ending at the top tick.
   */
  lemma FreshGraduation(s: Scale)
    requires s.step > 0 && s.count >= 0
    ensures |Overlay([], s)| == s.count + 1
    ensures forall i | 0 <= i <= s.count :: Overlay([], s)[i] == i * s.step
    ensures Overlay([], s)[0] == 0 && Overlay([], s)[s.count] == Top(s)
    ensures forall i, j | 0 <= i < j <= s.count :: Overlay([], s)[i] < Overlay([], s)[j]
  {
    var g := Overlay([], s);
    forall i, j | 0 <= i < j <= s.count
      ensures g[i] < g[j]
    {
      assert g[i] == i * s.step && g[j] == j * s.step;
    }
  }

  /**
   * A plan written over an empty graduation, or over one left by earlier
   * loads, leaves 9 to 11 values starting at 0.
   */
  lemma OverlayKeepsShape(g: seq<int>, s: Scale)
    requires g == [] || (9 <= |g| <= 11 && g[0] == 0)
    requires s.count in Counts
    ensures 9 <= |Overlay(g, s)| <= 11 && Overlay(g, s)[0] == 0
  {
  }

  /** After a first load, the last graduation value strictly exceeds every sample. */
  lemma FreshLoadHasHeadroom(samples: seq<real>)
    requires PlanFor(samples).Some?
    ensures var g := Overlay([], PlanFor(samples).value);
      |g| > 0 && forall i | 0 <= i < |samples| :: samples[i] < g[|g| - 1] as real
  {
    var max := MaxOrZero(samples);
    PlanExistsIffBelow500(max);
    ChosenPlan(max);
    var s := PlanFor(samples).value;
    assert s.step > 0 by { assert s.step in Palette; }
    FreshGraduation(s);
  }

  /**
   * A later load with fewer divisions leaves stale values: after plans
   * `(1, 10)` then `(2, 8)` the graduation has 11 entries, is not increasing,
   * and its last value no longer exceeds the second load's maximum.
   */
  lemma StaleTicksAfterSmallerLoad()
    ensures PlanFor([9.0]) == Some(Scale(1, 10)) && PlanFor([15.0]) == Some(Scale(2, 8))
    ensures var g := Overlay(Overlay([], Scale(1, 10)), Scale(2, 8));
      |g| == 11 && g[8] == 16 && g[9] == 9 && g[10] == 10 && g[10] as real < 15.0
  {
  }


  // ---------------------------------------------------------------------------
  // Angular multiplicator

  /**
   * `(0.21 - 0.01 * (length - 1)) / 2`, computed over exact reals. It is
   * positive exactly while the graduation has at most 21 entries.
   */
  function Multiplicator(length: int): (m: real)
    ensures m > 0.0 <==> length <= 21
  {
    (0.21 - 0.01 * (length - 1) as real) / 2.0
  }

  /** The multiplicator strictly decreases as the graduation grows. */
  lemma MultiplicatorDecreasing(a: int, b: int)
    requires a < b
    ensures Multiplicator(b) < Multiplicator(a)
  {
  }

  /** After a first load the multiplicator is 0.065, 0.06 or 0.055 for 8, 9 or 10 divisions. */
  lemma FreshMultiplicator(s: Scale)
    requires s.count in Counts
    ensures |Overlay([], s)| == s.count + 1
    ensures Multiplicator(|Overlay([], s)|) == 0.065 - 0.005 * (s.count - 8) as real
  {
  }
}
