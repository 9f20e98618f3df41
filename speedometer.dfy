/**
 * The speedometer plugin object of Speedometer/src/Speedometer.js: its fields,
 * the JSON-load callback that plans the graduation, the per-frame `update`,
 * `destroy`, and the deferred binding to the video that drives it.
 * The canvas is reduced to whether it exists; drawing calls are not modelled.
 */
module SpeedometerPlugin {
  import opened Wrappers
  import opened Samples
  import opened Graduation
  import Dial

  /** The media element whose playback time drives the gauge. */
  class Video {
    var currentTime: real

    constructor (time: real)
      ensures currentTime == time
    {
      currentTime := time;
    }
  }

  /** An `onInstanceReady` once-subscription: the handler and the object it is called on. */
  datatype Listener = Listener(handler: string, context: object)

  /** The name under which the speedometer subscribes its `_setupVideo`. */
  const SetupVideoHandler: string := "_setupVideo"

  /** Another plugin that provides the video: its readiness, its video and its once-listeners. */
  class SourcePlugin {
    var instanceReady: bool
    var video: Video?
    var onceListeners: seq<Listener>

    constructor (ready: bool, video: Video?)
      ensures instanceReady == ready && this.video == video && onceListeners == []
    {
      instanceReady := ready;
      this.video := video;
      onceListeners := [];
    }
  }

  /** The `source` option: the scene's media, a plugin resolved by its uid, or neither. */
  datatype Source = Media(display: Video?) | PluginSource(plugin: SourcePlugin) | NoSource

  /** `if (!signal.has(handler, context)) signal.addOnce(handler, context)`. */
  function RegisterOnce(listeners: seq<Listener>, l: Listener): (r: seq<Listener>)
    ensures l in r && listeners <= r && |r| <= |listeners| + 1
    ensures l in listeners ==> r == listeners
  {
    if l in listeners then listeners else listeners + [l]
  }

  /**
   * Registering through the guard never duplicates a subscription: the listener
   * is present afterwards, it occurs once if it did not occur before, and a
   * second registration changes nothing.
   */
  lemma RegisterOnceIsIdempotent(listeners: seq<Listener>, l: Listener)
    ensures l in RegisterOnce(listeners, l)
    ensures multiset(RegisterOnce(listeners, l))[l] ==
      if l in listeners then multiset(listeners)[l] else 1
    ensures RegisterOnce(RegisterOnce(listeners, l), l) == RegisterOnce(listeners, l)
  {
  }


  /** What `_jsonLoadComplete` achieves; the two failures are the TypeErrors it throws. */
  datatype LoadOutcome =
    | Loaded(scale: Scale)
    | NoScale             // maximum >= 500: `res` stays undefined and `res[1]` throws
    | GraduationReleased  // after `destroy`: writing into the null `_graduation` throws

  /** What one `update` call does. */
  datatype UpdateOutcome =
    | Skipped       // `_data` or `_canvas` is null: early return
    | NoTimeSource  // `_video` is null: reading `currentTime` throws
    | Drawn(value: Option<real>, ticks: seq<Dial.Tick>, unit: string)

  class Speedometer {
    const source: Source
    var canvas: bool
    var video: Video?
    var data: Option<Series>
    var graduation: Option<seq<int>>
    var multiplicator: real

    /**
     * A canvas is only ever present with a graduation array, and a non-empty
     * graduation comes from loads: 9 to 11 values starting at 0, with the
     * multiplicator of its length.
     */
    ghost predicate Valid()
      reads this
    {
      (canvas ==> graduation.Some?) &&
      (graduation.Some? && graduation.value != [] ==>
         9 <= |graduation.value| <= 11 && graduation.value[0] == 0 &&
         multiplicator == Multiplicator(|graduation.value|))
    }

    /** The objects `_setupVideo` may change: the source plugin's listener list. */
    function SourceObjects(): set<object>
    {
      if source.PluginSource? then {source.plugin} else {}
    }

    constructor (source: Source)
      ensures Valid() && this.source == source
      ensures !canvas && video == null && data.None? && graduation == Some([]) && multiplicator == 0.0
    {
      this.source := source;
      canvas := false;
      video := null;
      data := None;
      graduation := Some([]);
      multiplicator := 0.0;
    }

    /**
     * `_setupVideo`: bind the scene media, or the source plugin's video when it is
     * ready, or else subscribe once to its readiness, unless already subscribed.
     */
    method SetupVideo()
      modifies this`video, SourceObjects()
      ensures source.Media? ==> video == source.display
      ensures source.PluginSource? && source.plugin.instanceReady ==> video == source.plugin.video
      ensures source.NoSource? || (source.PluginSource? && !source.plugin.instanceReady) ==>
        video == old(video)
      ensures source.PluginSource? ==>
        source.plugin.instanceReady == old(source.plugin.instanceReady) &&
        source.plugin.video == old(source.plugin.video) &&
        source.plugin.onceListeners ==
          if source.plugin.instanceReady then old(source.plugin.onceListeners)
          else RegisterOnce(old(source.plugin.onceListeners), Listener(SetupVideoHandler, this))
    {
      match source
      case Media(display) =>
        video := display;
      case PluginSource(plugin) =>
        if plugin.instanceReady {
          video := plugin.video;
        } else if Listener(SetupVideoHandler, this) !in plugin.onceListeners {
          plugin.onceListeners := plugin.onceListeners + [Listener(SetupVideoHandler, this)];
        }
      case NoSource =>
    }

    /**
     * `boot`, reduced to creating the canvas and setting up the video; the JSON
     * request it starts completes later as a call of JsonLoadComplete. The host
     * boots a plugin once, before anything else.
     */
    method Boot()
      requires Valid() && !canvas && graduation.Some?
      modifies this`canvas, this`video, SourceObjects()
      ensures Valid() && canvas
      ensures source.Media? ==> video == source.display
      ensures source.PluginSource? && source.plugin.instanceReady ==> video == source.plugin.video
      ensures source.NoSource? || (source.PluginSource? && !source.plugin.instanceReady) ==>
        video == old(video)
      ensures source.PluginSource? ==>
        source.plugin.instanceReady == old(source.plugin.instanceReady) &&
        source.plugin.video == old(source.plugin.video) &&
        source.plugin.onceListeners ==
          if source.plugin.instanceReady then old(source.plugin.onceListeners)
          else RegisterOnce(old(source.plugin.onceListeners), Listener(SetupVideoHandler, this))
    {
      canvas := true;
      SetupVideo();
    }

    /**
     * `reset`, without the visibility toggle: forget the video and set it up
     * again; the loaded data and graduation stay.
     */
    method Reset()
      requires Valid()
      modifies this`video, SourceObjects()
      ensures Valid()
      ensures source.Media? ==> video == source.display
      ensures source.PluginSource? && source.plugin.instanceReady ==> video == source.plugin.video
      ensures source.NoSource? || (source.PluginSource? && !source.plugin.instanceReady) ==> video == null
      ensures source.PluginSource? ==>
        source.plugin.instanceReady == old(source.plugin.instanceReady) &&
        source.plugin.video == old(source.plugin.video) &&
        source.plugin.onceListeners ==
          if source.plugin.instanceReady then old(source.plugin.onceListeners)
          else RegisterOnce(old(source.plugin.onceListeners), Listener(SetupVideoHandler, this))
    {
      video := null;
      SetupVideo();
    }

    /**
     * `_jsonLoadComplete`: keep the file, scan the maximum, choose the plan,
     * write the graduation values over the old ones and set the multiplicator.
     */
    method JsonLoadComplete(file: Series) returns (outcome: LoadOutcome)
      requires Valid()
      modifies this`data, this`graduation, this`multiplicator
      ensures Valid()
      ensures data == Some(file)
      ensures outcome.NoScale? <==> MaxOrZero(file.samples) >= 500.0
      ensures PlanFor(file.samples).None? ==>
        outcome == NoScale && graduation == old(graduation) && multiplicator == old(multiplicator)
      ensures PlanFor(file.samples).Some? && old(graduation).None? ==>
        outcome == GraduationReleased && graduation.None? && multiplicator == old(multiplicator)
      ensures PlanFor(file.samples).Some? && old(graduation).Some? ==>
        outcome == Loaded(PlanFor(file.samples).value) &&
        graduation == Some(Overlay(old(graduation).value, PlanFor(file.samples).value)) &&
        multiplicator == Multiplicator(|graduation.value|)
      ensures outcome.Loaded? ==>
        outcome.scale.step in Palette && outcome.scale.count in Counts &&
        Top(outcome.scale) as real > MaxOrZero(file.samples)
      ensures outcome.Loaded? && old(graduation) == Some([]) ==>
        var g := graduation.value;
        |g| == outcome.scale.count + 1 &&
        (forall i | 0 <= i < |g| :: g[i] == i * outcome.scale.step) &&
        (forall i | 0 <= i < |file.samples| :: file.samples[i] < g[|g| - 1] as real)
    {
      data := Some(file);
      var max := ScanMax(file.samples);
      var res := ChooseScale(max);
      PlanExistsIffBelow500(max);
      if res.None? {
        return NoScale;
      }
      PlanShape(max);
      if graduation.None? {
        return GraduationReleased;
      }
      var s := res.value;
      var g := Fill(graduation.value, s);
      OverlayKeepsShape(graduation.value, s);
      graduation := Some(g);
      multiplicator := Multiplicator(|g|);
      outcome := Loaded(s);
      if old(graduation) == Some([]) {
        FreshGraduation(s);
        FreshLoadHasHeadroom(file.samples);
      }
    }

    /**
     * `update`: nothing when data or canvas is missing; otherwise the sample at
     * the video's time and the tick layout of the graduation. Drawing itself,
     * and the needle and tick angles, are not part of the outcome.
     */
    method Update() returns (r: UpdateOutcome)
      requires Valid()
      ensures r.Skipped? <==> data.None? || !canvas
      ensures r.NoTimeSource? <==> data.Some? && canvas && video == null
      ensures r.Drawn? ==>
        data.Some? && video != null && graduation.Some? &&
        r.value == ClosestFromTime(data.value, video.currentTime) &&
        Dial.IsLayout(graduation.value, r.ticks) && r.unit == data.value.unit
    {
      if data.None? || !canvas {
        return Skipped;
      }
      if video == null {
        return NoTimeSource;
      }
      var value := ClosestFromTime(data.value, video.currentTime);
      var ticks := Dial.LayoutTicks(graduation.value);
      r := Drawn(value, ticks, data.value.unit);
    }

    /**
     * `destroy`: release the canvas and null the references. A second call
     * finds no canvas to destroy and throws before changing anything.
     */
    method Destroy() returns (done: bool)
      requires Valid()
      modifies this`canvas, this`graduation, this`video, this`data
      ensures Valid()
      ensures done == old(canvas)
      ensures done ==> !canvas && graduation.None? && video == null && data.None?
      ensures !done ==>
        !canvas && graduation == old(graduation) && video == old(video) && data == old(data)
    {
      if !canvas {
        return false;
      }
      canvas := false;
      graduation := None;
      video := null;
      data := None;
      done := true;
    }
  }

  /**
   * A destroyed gauge stays inert: a late JSON load cannot revive it and every
   * update is skipped.
   */
  method DestroyedGaugeStaysInert(sp: Speedometer, file: Series)
    returns (done: bool, outcome: LoadOutcome, first: UpdateOutcome, again: bool, second: UpdateOutcome)
    requires sp.Valid() && sp.canvas
    modifies sp
    ensures done && (outcome == NoScale || outcome == GraduationReleased)
    ensures first == Skipped && !again && second == Skipped
  {
    done := sp.Destroy();
    outcome := sp.JsonLoadComplete(file);
    first := sp.Update();
    again := sp.Destroy();
    second := sp.Update();
  }

  /**
   * Samples `[0, 10, 20, 31, 40]` at 2 samples per second: the load plans step 5
   * with 9 divisions, and at time 1.5 the gauge shows sample 3, the value 31,
   * over ten major ticks labelled 0, 5, ..., 45.
   */
  method LoadAndUpdateScenario() returns (outcome: LoadOutcome, value: Option<real>, labels: seq<int>)
    ensures outcome == Loaded(Scale(5, 9))
    ensures value == Some(31.0)
    ensures |labels| == 10 && forall i | 0 <= i < 10 :: labels[i] == i * 5
  {
    var v := new Video(1.5);
    var sp := new Speedometer(Media(v));
    sp.Boot();
    var file := Series([0.0, 10.0, 20.0, 31.0, 40.0], 2.0, "m");
    assert MaxOrZero(file.samples) == 40.0 by {
      assert file.samples[4] == 40.0;
    }
    PlanForMax40(file.samples);
    outcome := sp.JsonLoadComplete(file);
    var g := sp.graduation.value;
    assert |g| == 10 && forall i | 0 <= i < 10 :: g[i] == i * 5;
    var r := sp.Update();
    SampleHeldOverItsInterval(file, 3, 1.5);
    value := r.value;
    Dial.LayoutLabelsAreGraduation(g, r.ticks);
    labels := Dial.MajorLabels(r.ticks);
  }

}
