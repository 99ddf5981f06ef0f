/**
 * The control flow of src/main.py around the parsers and the mapping: the
 * per-axis filters, `filter_position`, one iteration of `init`'s tracking
 * loop, the set-up `init` performs before that loop, and `send_dmx`.
 *
 * The trigonometry of `uwb_position_to_pan_tilt` (distance, `atan2`,
 * degrees) is a parameter `angles`, the `float()` conversion a parameter
 * `toFloat`, and the Kalman update an abstract `estimator` over the
 * measurement history.
 */
module Tracking {

  import opened Wrappers
  import opened Reports
  import opened Mapping
  import Dmx
  import Visualizer

  /** Camera position subtracted from the filtered tag position. */
  const CamX := 1.0
  const CamY := 1.0
  const CamZ := 1.0

  const PanScale := 1.0
  const PanOffset := 0.0
  const TiltScale := 1.0
  const TiltOffset := 0.0

  /** The variances `init` gives each axis filter (1e-4 and 0.1 ** 4, exactly). */
  const ProcessVariance := 0.0001
  const MeasurementVariance := 0.0001

  /**
   * One axis filter. Its update rule lives in an unseen module, so the state
   * is the history of measurements it was given, and the estimate is an
   * abstract function of that history.
   */
  class KalmanFilter {
    const processVariance: real
    const measurementVariance: real
    var measurements: seq<real>

    constructor (processVariance: real, measurementVariance: real)
      ensures this.processVariance == processVariance
      ensures this.measurementVariance == measurementVariance
      ensures measurements == []
    {
      this.processVariance := processVariance;
      this.measurementVariance := measurementVariance;
      measurements := [];
    }

    /** `input_latest_noisy_measurement`. */
    method InputMeasurement(m: real)
      modifies this
      ensures measurements == old(measurements) + [m]
    {
      measurements := measurements + [m];
    }

    /** `get_latest_estimated_measurement`. */
    function Estimate(estimator: seq<real> -> real): real
      reads this
    {
      estimator(measurements)
    }
  }

  /** The history after feeding `v` to a filter, when the conversion succeeded. */
  function Fed(history: seq<real>, v: Option<real>): (r: seq<real>)
    ensures v.Some? ==> |r| == |history| + 1 && r[..|history|] == history && r[|history|] == v.value
    ensures v.None? ==> r == history
  {
    if v.Some? then history + [v.value] else history
  }

  /** The filtered position relative to the camera. */
  function Relative(p: Point): (r: Point)
    ensures Point(r.x + CamX, r.y + CamY, r.z + CamZ) == p
  {
    Point(p.x - CamX, p.y - CamY, p.z - CamZ)
  }

  /**
   * `uwb_position_to_pan_tilt`: the raw angles of the relative position,
   * scaled and offset, then clamped and split into coarse and fine values.
   */
  function AimValues(filtered: Point, f: Fixture, angles: Point -> (real, real)): (v: DmxValues)
    requires f.panRange.hi != 0 && f.tiltRange.hi != 0
    ensures WellFormed(f) ==> InDmxRange(v, f)
  {
    var (rawPan, rawTilt) := angles(Relative(filtered));
    var pan := rawPan * PanScale + PanOffset;
    var tilt := rawTilt * TiltScale + TiltOffset;
    if WellFormed(f) then
      PanTiltToDmxInRange(pan, tilt, f);
      PanTiltToDmx(pan, tilt, f)
    else
      PanTiltToDmx(pan, tilt, f)
  }

  /** Whether slot `i` is one of the four slots `f`'s channels land on. */
  predicate IsFixtureSlot(f: Fixture, i: int)
  {
    i == Dmx.ClampChannel(f.panChannel) || i == Dmx.ClampChannel(f.panFineChannel) ||
    i == Dmx.ClampChannel(f.tiltChannel) || i == Dmx.ClampChannel(f.tiltFineChannel)
  }

  /**
   * The buffer after the four `set_channel` calls of the tracking loop and of
   * `send_dmx`: the fixture's four channels hold the clamped values, every
   * other slot is unchanged.
   */
  function ApplyValues(s: seq<int>, f: Fixture, v: DmxValues): (r: seq<int>)
    requires Dmx.IsSlots(s)
    ensures Dmx.IsSlots(r)
    ensures forall i :: 0 <= i < |s| && !IsFixtureSlot(f, i) ==> r[i] == s[i]
    ensures WellFormed(f) ==>
      && r[f.panChannel] == Dmx.ClampIntensity(v.panCoarse)
      && r[f.panFineChannel] == Dmx.ClampIntensity(v.panFine)
      && r[f.tiltChannel] == Dmx.ClampIntensity(v.tiltCoarse)
      && r[f.tiltFineChannel] == Dmx.ClampIntensity(v.tiltFine)
  {
    var s1 := Dmx.SetSlot(s, f.panChannel, v.panCoarse);
    var s2 := Dmx.SetSlot(s1, f.panFineChannel, v.panFine);
    var s3 := Dmx.SetSlot(s2, f.tiltChannel, v.tiltCoarse);
    Dmx.SetSlot(s3, f.tiltFineChannel, v.tiltFine)
  }

  /**
   * For a fixture of the table and in-range values, the fine channels carry
   * the fine values exactly; only the coarse channels can be cut to 255.
   */
  lemma FineValuesReachChannels(s: seq<int>, f: Fixture, v: DmxValues)
    requires Dmx.IsSlots(s) && WellFormed(f) && InDmxRange(v, f)
    ensures ApplyValues(s, f, v)[f.panFineChannel] == v.panFine
    ensures ApplyValues(s, f, v)[f.tiltFineChannel] == v.tiltFine
    ensures v.panCoarse <= 255 ==> ApplyValues(s, f, v)[f.panChannel] == v.panCoarse
    ensures v.tiltCoarse <= 255 ==> ApplyValues(s, f, v)[f.tiltChannel] == v.tiltCoarse
  {
  }

  /** What one report line does. */
  datatype StepOutcome =
    | Skipped                   // `parse_tag_position` returned `None`
    | Faulted                   // an exception reached the loop's handler
    | Applied(values: DmxValues) // the four values written to the fixture's channels

  /** Whether a parsed report has three convertible coordinates. */
  predicate Converts(tag: TagParse, toFloat: string -> Option<real>)
  {
    tag.Tag? && toFloat(tag.x).Some? && toFloat(tag.y).Some? && toFloat(tag.z).Some?
  }

  /**
   * `filter_position`: feeds the three coordinates to the three filters in
   * order and returns their estimates. A failed conversion raises before
   * its filter is fed, so the filters fed before it keep their new
   * measurement.
   */
  method FilterPosition(kfx: KalmanFilter, kfy: KalmanFilter, kfz: KalmanFilter,
                        tag: TagParse, toFloat: string -> Option<real>, estimator: seq<real> -> real)
    returns (pos: Option<Point>)
    requires tag.Tag?
    requires kfx != kfy && kfy != kfz && kfx != kfz
    modifies kfx, kfy, kfz
    ensures var rx, ry, rz := toFloat(tag.x), toFloat(tag.y), toFloat(tag.z);
      && kfx.measurements == Fed(old(kfx.measurements), rx)
      && kfy.measurements == (if rx.Some? then Fed(old(kfy.measurements), ry) else old(kfy.measurements))
      && kfz.measurements == (if rx.Some? && ry.Some? then Fed(old(kfz.measurements), rz) else old(kfz.measurements))
    ensures pos.Some? <==> Converts(tag, toFloat)
    ensures pos.Some? ==> pos.value == Point(kfx.Estimate(estimator), kfy.Estimate(estimator), kfz.Estimate(estimator))
  {
    var rx := toFloat(tag.x);
    if rx.None? {
      return None;
    }
    kfx.InputMeasurement(rx.value);
    var ry := toFloat(tag.y);
    if ry.None? {
      return None;
    }
    kfy.InputMeasurement(ry.value);
    var rz := toFloat(tag.z);
    if rz.None? {
      return None;
    }
    kfz.InputMeasurement(rz.value);
    pos := Some(Point(kfx.Estimate(estimator), kfy.Estimate(estimator), kfz.Estimate(estimator)));
  }

  /**
   * The locals of `init` that its tracking loop works on: the selected
   * fixture, the three axis filters, the visualizer and the DMX interface.
   */
  class Tracker {
    const fixture: Fixture
    const kfx: KalmanFilter
    const kfy: KalmanFilter
    const kfz: KalmanFilter
    const vis: Visualizer.UWBVisualizer
    const dmx: Dmx.DmxPy

    ghost predicate Valid()
      reads dmx, dmx.data
    {
      && WellFormed(fixture)
      && kfx != kfy && kfy != kfz && kfx != kfz
      && dmx.Valid()
    }

    constructor (fixture: Fixture, kfx: KalmanFilter, kfy: KalmanFilter, kfz: KalmanFilter,
                 vis: Visualizer.UWBVisualizer, dmx: Dmx.DmxPy)
      ensures this.fixture == fixture && this.kfx == kfx && this.kfy == kfy && this.kfz == kfz
      ensures this.vis == vis && this.dmx == dmx
    {
      this.fixture := fixture;
      this.kfx, this.kfy, this.kfz := kfx, kfy, kfz;
      this.vis := vis;
      this.dmx := dmx;
    }

    /**
     * One iteration of the tracking loop on the report line `line`. A line
     * the parser rejects, or one that raises in the parser, changes nothing;
     * a failed conversion changes only the filters fed before it; an
     * accepted line moves the visualizer's position and writes exactly the
     * fixture's four channels. No frame is written to the DMX port.
     */
    method Step(line: string, toFloat: string -> Option<real>, estimator: seq<real> -> real,
                angles: Point -> (real, real)) returns (outcome: StepOutcome)
      requires Valid()
      modifies kfx, kfy, kfz, vis`xFiltered, vis`yFiltered, vis`zFiltered, dmx.data
      ensures Valid()
      ensures dmx.Written == old(dmx.Written)
      ensures var tag := ParseTagPosition(line);
        && (tag.NoTag? <==> outcome.Skipped?)
        && (Converts(tag, toFloat) <==> outcome.Applied?)
      ensures !ParseTagPosition(line).Tag? ==>
        && kfx.measurements == old(kfx.measurements)
        && kfy.measurements == old(kfy.measurements)
        && kfz.measurements == old(kfz.measurements)
      ensures var tag := ParseTagPosition(line);
        tag.Tag? ==>
        && kfx.measurements == Fed(old(kfx.measurements), toFloat(tag.x))
        && kfy.measurements == (if toFloat(tag.x).Some? then Fed(old(kfy.measurements), toFloat(tag.y)) else old(kfy.measurements))
        && kfz.measurements == (if toFloat(tag.x).Some? && toFloat(tag.y).Some?
                                then Fed(old(kfz.measurements), toFloat(tag.z)) else old(kfz.measurements))
      ensures !outcome.Applied? ==>
        && vis.xFiltered == old(vis.xFiltered) && vis.yFiltered == old(vis.yFiltered) && vis.zFiltered == old(vis.zFiltered)
        && dmx.data[..] == old(dmx.data[..])
      ensures outcome.Applied? ==>
        var filtered := Point(kfx.Estimate(estimator), kfy.Estimate(estimator), kfz.Estimate(estimator));
        && vis.xFiltered == filtered.x && vis.yFiltered == filtered.y && vis.zFiltered == filtered.z
        && outcome.values == AimValues(filtered, fixture, angles)
        && dmx.data[..] == ApplyValues(old(dmx.data[..]), fixture, outcome.values)
    {
      var tag := ParseTagPosition(line);
      if tag.NoTag? {
        return Skipped;
      }
      if tag.IndexFault? {
        return Faulted;
      }
      var pos := FilterPosition(kfx, kfy, kfz, tag, toFloat, estimator);
      if pos.None? {
        return Faulted;
      }
      var filtered := pos.value;
      vis.UpdatePosition(filtered);
      var v := AimValues(filtered, fixture, angles);
      ghost var s0 := dmx.data[..];
      dmx.SetChannel(fixture.panChannel, v.panCoarse);
      dmx.SetChannel(fixture.panFineChannel, v.panFine);
      dmx.SetChannel(fixture.tiltChannel, v.tiltCoarse);
      dmx.SetChannel(fixture.tiltFineChannel, v.tiltFine);
      assert dmx.data[..] == ApplyValues(s0, fixture, v);
      outcome := Applied(v);
    }
  }

  /** How `init` ends before its tracking loop starts. */
  datatype InitOutcome =
    | UnknownLightSystem       // the `ValueError` for a name outside the fixture table
    | EnumerationStalled       // no terminator line arrives, so `read_dwm_messages` never returns
    | AnchorValueError         // `float()` rejects an anchor lexeme
    | Ready(anchors: seq<Point>)

  /**
   * `init` up to its tracking loop, with `listing` the lines the device
   * answers to the anchor-list command. An unknown fixture name is rejected
   * before anything is created. Otherwise the anchors are read and parsed,
   * handed to the visualizer with all colours reset, and the DMX interface
   * is opened; the returned tracker holds the empty filters.
   */
  method Init(lightSystem: string, listing: seq<string>, toFloat: string -> Option<real>)
    returns (outcome: InitOutcome, tracker: Tracker?)
    ensures SelectLightSystem(lightSystem).None? <==> outcome.UnknownLightSystem?
    ensures outcome.EnumerationStalled? <==>
      SelectLightSystem(lightSystem).Some? && forall i :: 0 <= i < |listing| ==> !IsTerminator(listing[i])
    ensures outcome.AnchorValueError? <==>
      && SelectLightSystem(lightSystem).Some? && (exists i :: 0 <= i < |listing| && IsTerminator(listing[i]))
      && ToPoints(MatchedLexemes(ResponseLines(listing)), toFloat).None?
    ensures outcome.Ready? ==> outcome.anchors == ToPoints(MatchedLexemes(ResponseLines(listing)), toFloat).value
    ensures outcome.Ready? <==> tracker != null
    ensures tracker != null ==>
      && fresh(tracker) && fresh(tracker.kfx) && fresh(tracker.kfy) && fresh(tracker.kfz)
      && fresh(tracker.vis) && fresh(tracker.dmx) && fresh(tracker.dmx.data)
      && tracker.Valid()
      && Some(tracker.fixture) == SelectLightSystem(lightSystem)
      && tracker.kfx.measurements == [] && tracker.kfy.measurements == [] && tracker.kfz.measurements == []
      && tracker.kfx.processVariance == ProcessVariance && tracker.kfx.measurementVariance == MeasurementVariance
      && tracker.kfy.processVariance == ProcessVariance && tracker.kfy.measurementVariance == MeasurementVariance
      && tracker.kfz.processVariance == ProcessVariance && tracker.kfz.measurementVariance == MeasurementVariance
      && tracker.vis.anchorPositions == outcome.anchors
      && tracker.vis.anchorColors == Visualizer.DefaultColors(|outcome.anchors|)
      && (forall i :: 0 <= i < tracker.dmx.data.Length ==> tracker.dmx.data[i] == 0)
      && tracker.dmx.Written == [Dmx.Frame(Dmx.DmxInit1, []), Dmx.Frame(Dmx.DmxInit2, [])]
  {
    var selected := SelectLightSystem(lightSystem);
    if selected.None? {
      return UnknownLightSystem, null;
    }
    var kfx := new KalmanFilter(ProcessVariance, MeasurementVariance);
    var kfy := new KalmanFilter(ProcessVariance, MeasurementVariance);
    var kfz := new KalmanFilter(ProcessVariance, MeasurementVariance);
    var vis := new Visualizer.UWBVisualizer();
    var response, consumed, terminated := ReadDwmMessages(listing);
    if !terminated {
      return EnumerationStalled, null;
    }
    var anchors := ParseAnchorPositions(response, toFloat);
    if anchors.None? {
      return AnchorValueError, null;
    }
    vis.UpdateAnchorPositions(anchors.value);
    var dmx := new Dmx.DmxPy();
    tracker := new Tracker(selected.value, kfx, kfy, kfz, vis, dmx);
    outcome := Ready(anchors.value);
  }

  /** How `send_dmx` ends. */
  datatype SendOutcome =
    | SendUnknownLightSystem    // the `ValueError` for a name outside the fixture table
    | Sent(values: DmxValues)   // the values written to the fixture's channels

  /**
   * `send_dmx` up to its last `set_channel`: an unknown fixture name is
   * rejected before the interface is opened; otherwise the interface is
   * opened and the values for angle 0 on both axes, all zero, are written
   * to the fixture's four channels, so every slot stays 0 and no frame
   * beyond the two init frames is written.
   */
  method SendDmx(lightSystem: string) returns (outcome: SendOutcome, device: Dmx.DmxPy?)
    ensures SelectLightSystem(lightSystem).None? <==> outcome.SendUnknownLightSystem?
    ensures outcome.SendUnknownLightSystem? <==> device == null
    ensures outcome.Sent? ==> outcome.values == SendDmxValues(SelectLightSystem(lightSystem).value)
    ensures outcome.Sent? ==> outcome.values == DmxValues(0, 0, 0, 0)
    ensures device != null ==>
      && fresh(device) && device.Valid()
      && (forall i :: 0 <= i < device.data.Length ==> device.data[i] == 0)
      && device.Written == [Dmx.Frame(Dmx.DmxInit1, []), Dmx.Frame(Dmx.DmxInit2, [])]
  {
    var selected := SelectLightSystem(lightSystem);
    if selected.None? {
      return SendUnknownLightSystem, null;
    }
    var f := selected.value;
    device := new Dmx.DmxPy();
    var v := SendDmxValues(f);
    SendDmxValuesZero(f);
    device.SetChannel(f.panChannel, v.panCoarse);
    device.SetChannel(f.panFineChannel, v.panFine);
    device.SetChannel(f.tiltChannel, v.tiltCoarse);
    device.SetChannel(f.tiltFineChannel, v.tiltFine);
    outcome := Sent(v);
  }
}
