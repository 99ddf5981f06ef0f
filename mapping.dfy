/**
 * The fixture table and the angle-to-DMX mapping of src/main.py:
 * `LIGHT_SYSTEMS`, the angle clamps of `uwb_position_to_pan_tilt`,
 * `calculate_dmx_value`, `calculate_fine_dmx_value`, `get_pan_and_tilt` and
 * the values `send_dmx` computes. Arithmetic is over exact reals; Python's
 * `int()` on a float truncates toward zero.
 */
module Mapping {

  import opened Wrappers
  import Dmx

  /** A `(min, max)` pair of the fixture table. */
  datatype Interval = Interval(lo: int, hi: int)

  /** One entry of `LIGHT_SYSTEMS`: angle ranges in degrees, DMX ranges and the four channels. */
  datatype Fixture = Fixture(
    panRange: Interval, tiltRange: Interval,
    panDmxRange: Interval, tiltDmxRange: Interval,
    panChannel: int, panFineChannel: int, tiltChannel: int, tiltFineChannel: int)

  /** The four values `get_pan_and_tilt` returns. */
  datatype DmxValues = DmxValues(panCoarse: int, panFine: int, tiltCoarse: int, tiltFine: int)

  const BadBoy := Fixture(Interval(0, 615), Interval(0, 260), Interval(0, 65535), Interval(0, 65535), 2, 3, 4, 5)
  const Sparky := Fixture(Interval(0, 540), Interval(0, 250), Interval(0, 65535), Interval(0, 65535), 10, 11, 12, 13)

  /** `LIGHT_SYSTEMS`. */
  const LightSystems: map<string, Fixture> := map["BadBoy" := BadBoy, "Sparky" := Sparky]

  /**
   * What the mapping relies on in a fixture: angle ranges starting at 0 with a
   * positive maximum, non-negative DMX maxima, and four distinct channels
   * inside the 512-channel universe.
   */
  predicate WellFormed(f: Fixture)
  {
    && f.panRange.lo == 0 < f.panRange.hi && f.tiltRange.lo == 0 < f.tiltRange.hi
    && 0 <= f.panDmxRange.hi && 0 <= f.tiltDmxRange.hi
    && 1 <= f.panChannel <= Dmx.MaxChannel && 1 <= f.panFineChannel <= Dmx.MaxChannel
    && 1 <= f.tiltChannel <= Dmx.MaxChannel && 1 <= f.tiltFineChannel <= Dmx.MaxChannel
    && f.panChannel != f.panFineChannel && f.panChannel != f.tiltChannel && f.panChannel != f.tiltFineChannel
    && f.panFineChannel != f.tiltChannel && f.panFineChannel != f.tiltFineChannel
    && f.tiltChannel != f.tiltFineChannel
  }

  /**
   * The `light_system not in LIGHT_SYSTEMS` check of `init` and `send_dmx`:
   * `None` is the `ValueError` raised for an unknown name.
   */
  function SelectLightSystem(name: string): (r: Option<Fixture>)
    ensures r.None? <==> name != "BadBoy" && name != "Sparky"
    ensures name == "BadBoy" ==> r == Some(BadBoy)
    ensures name == "Sparky" ==> r == Some(Sparky)
    ensures r.Some? ==> r.value in LightSystems.Values && WellFormed(r.value)
  {
    if name in LightSystems then Some(LightSystems[name]) else None
  }

  /** `max(min(angle, hi), lo)`. */
  function ClampAngle(angle: real, range: Interval): (r: real)
    ensures range.lo <= range.hi ==> range.lo as real <= r <= range.hi as real
    ensures range.lo as real <= angle <= range.hi as real ==> r == angle
    ensures angle > range.hi as real && range.lo <= range.hi ==> r == range.hi as real
    ensures angle < range.lo as real ==> r == range.lo as real
  {
    var m := if angle < range.hi as real then angle else range.hi as real;
    if m > range.lo as real then m else range.lo as real
  }

  /** Clamping twice is clamping once, whatever the range. */
  lemma ClampIdempotent(angle: real, range: Interval)
    ensures ClampAngle(ClampAngle(angle, range), range) == ClampAngle(angle, range)
  {
  }

  /** Python's `int()` on a float: truncation toward zero. */
  function Trunc(x: real): (n: int)
    ensures 0.0 <= x ==> 0 <= n && n as real <= x < n as real + 1.0
    ensures x < 0.0 ==> n <= 0 && n as real - 1.0 < x <= n as real
  {
    if x >= 0.0 then x.Floor else -((-x).Floor)
  }

  /** The angle scaled onto the DMX range, before truncation. */
  function Scaled(angle: real, maxAngle: real, dmxRange: int): real
    requires maxAngle != 0.0
  {
    angle * dmxRange as real / maxAngle
  }

  /** `calculate_dmx_value`. */
  function CalculateDmxValue(angle: real, maxAngle: real, dmxRange: int): (r: int)
    requires maxAngle != 0.0
  {
    Trunc(Scaled(angle, maxAngle, dmxRange))
  }

  /** `calculate_fine_dmx_value`. */
  function CalculateFineDmxValue(angle: real, maxAngle: real, coarse: int, dmxRange: int): (r: int)
    requires maxAngle != 0.0
  {
    Trunc((Scaled(angle, maxAngle, dmxRange) - coarse as real) * 256.0)
  }

  /** Scaling `[0, maxAngle]` onto `[0, span]` lands in `[0, span]`, and `maxAngle` lands on `span`. */
  lemma ScaledBounds(angle: real, maxAngle: real, span: int)
    requires 0.0 <= angle <= maxAngle && 0.0 < maxAngle && 0 <= span
    ensures 0.0 <= Scaled(angle, maxAngle, span) <= span as real
    ensures angle == maxAngle ==> Scaled(angle, maxAngle, span) == span as real
  {
    var r := span as real;
    var q := angle / maxAngle;
    assert q * maxAngle == angle;
    assert (1.0 - q) * maxAngle == maxAngle - angle;
    assert 0.0 <= q && q <= 1.0;
    assert Scaled(angle, maxAngle, span) == q * r;
    assert 0.0 <= q * r && q * r <= r;
  }

  /**
   * The coarse/fine split: for `0 <= angle <= maxAngle`, the coarse value lies
   * in `[0, span]`, the fine value in `[0, 255]`, together they pin the
   * scaled angle down to 1/256 of a coarse step, and at `maxAngle` the coarse
   * value is `span` and the fine value 0.
   */
  lemma CoarseFineSplit(angle: real, maxAngle: real, span: int)
    requires 0.0 <= angle <= maxAngle && 0.0 < maxAngle && 0 <= span
    ensures var c := CalculateDmxValue(angle, maxAngle, span);
      var f := CalculateFineDmxValue(angle, maxAngle, c, span);
      && 0 <= c <= span && 0 <= f <= 255
      && c as real + f as real / 256.0 <= Scaled(angle, maxAngle, span) < c as real + (f + 1) as real / 256.0
      && (angle == maxAngle ==> c == span && f == 0)
  {
    var v := Scaled(angle, maxAngle, span);
    ScaledBounds(angle, maxAngle, span);
    var c := CalculateDmxValue(angle, maxAngle, span);
    assert c == v.Floor;
    var frac := v - c as real;
    assert 0.0 <= frac < 1.0;
    var f := CalculateFineDmxValue(angle, maxAngle, c, span);
    assert f == (frac * 256.0).Floor;
    assert f as real <= frac * 256.0 < f as real + 1.0;
  }

  /** `get_pan_and_tilt`: coarse and fine values for both axes; only the maxima of the ranges are used. */
  function GetPanAndTilt(pan: real, panDmxRange: Interval, panRange: Interval,
                         tilt: real, tiltDmxRange: Interval, tiltRange: Interval): DmxValues
    requires panRange.hi != 0 && tiltRange.hi != 0
  {
    var panCoarse := CalculateDmxValue(pan, panRange.hi as real, panDmxRange.hi);
    var panFine := CalculateFineDmxValue(pan, panRange.hi as real, panCoarse, panDmxRange.hi);
    var tiltCoarse := CalculateDmxValue(tilt, tiltRange.hi as real, tiltDmxRange.hi);
    var tiltFine := CalculateFineDmxValue(tilt, tiltRange.hi as real, tiltCoarse, tiltDmxRange.hi);
    DmxValues(panCoarse, panFine, tiltCoarse, tiltFine)
  }

  /** Values within what a fixture's DMX ranges and the fine channel's byte allow. */
  predicate InDmxRange(v: DmxValues, f: Fixture)
  {
    && 0 <= v.panCoarse <= f.panDmxRange.hi && 0 <= v.panFine <= 255
    && 0 <= v.tiltCoarse <= f.tiltDmxRange.hi && 0 <= v.tiltFine <= 255
  }

  /**
   * The part of `uwb_position_to_pan_tilt` after the trigonometry: clamp the
   * pan and tilt angles to the fixture's ranges, then split each into
   * coarse and fine values.
   */
  function PanTiltToDmx(pan: real, tilt: real, f: Fixture): DmxValues
    requires f.panRange.hi != 0 && f.tiltRange.hi != 0
  {
    var p := ClampAngle(pan, f.panRange);
    var t := ClampAngle(tilt, f.tiltRange);
    GetPanAndTilt(p, f.panDmxRange, f.panRange, t, f.tiltDmxRange, f.tiltRange)
  }

  /**
   * For every well-formed fixture and any angles, the mapped values stay in
   * range; angles at or beyond the maximum give the top DMX value with fine
   * 0, angles at or below 0 give zeros.
   */
  lemma PanTiltToDmxInRange(pan: real, tilt: real, f: Fixture)
    requires WellFormed(f)
    ensures var r := PanTiltToDmx(pan, tilt, f);
      && InDmxRange(r, f)
      && (pan >= f.panRange.hi as real ==> r.panCoarse == f.panDmxRange.hi && r.panFine == 0)
      && (tilt >= f.tiltRange.hi as real ==> r.tiltCoarse == f.tiltDmxRange.hi && r.tiltFine == 0)
      && (pan <= 0.0 ==> r.panCoarse == 0 && r.panFine == 0)
      && (tilt <= 0.0 ==> r.tiltCoarse == 0 && r.tiltFine == 0)
  {
    AxisInRange(pan, f.panRange, f.panDmxRange.hi);
    AxisInRange(tilt, f.tiltRange, f.tiltDmxRange.hi);
  }

  /** One axis of `PanTiltToDmxInRange`: clamp, then the coarse/fine split. */
  lemma AxisInRange(angle: real, range: Interval, span: int)
    requires range.lo == 0 < range.hi && 0 <= span
    ensures var a := ClampAngle(angle, range);
      var c := CalculateDmxValue(a, range.hi as real, span);
      var f := CalculateFineDmxValue(a, range.hi as real, c, span);
      && 0 <= c <= span && 0 <= f <= 255
      && (angle >= range.hi as real ==> c == span && f == 0)
      && (angle <= 0.0 ==> c == 0 && f == 0)
  {
    var a := ClampAngle(angle, range);
    CoarseFineSplit(a, range.hi as real, span);
    if angle <= 0.0 {
      assert a == 0.0;
      assert Scaled(a, range.hi as real, span) == 0.0;
    }
  }

  /**
   * The coarse value is a 16-bit quantity, but the tracking loop writes it to
   * an 8-bit channel: for every fixture in the table, any pan or tilt angle of
   * 3 degrees or more reaches the coarse channel as 255 once `set_channel`
   * clamps it.
   */
  lemma CoarseChannelSaturates(f: Fixture, pan: real, tilt: real)
    requires f in LightSystems.Values
    requires 3.0 <= pan && 3.0 <= tilt
    ensures Dmx.ClampIntensity(PanTiltToDmx(pan, tilt, f).panCoarse) == 255
    ensures Dmx.ClampIntensity(PanTiltToDmx(pan, tilt, f).tiltCoarse) == 255
  {
    assert f == BadBoy || f == Sparky;
    var r := PanTiltToDmx(pan, tilt, f);
    var p := ClampAngle(pan, f.panRange);
    var t := ClampAngle(tilt, f.tiltRange);
    ScaledAtLeast(p, f.panRange.hi as real, 65535);
    ScaledAtLeast(t, f.tiltRange.hi as real, 65535);
  }

  lemma ScaledAtLeast(angle: real, maxAngle: real, span: int)
    requires 3.0 <= angle && 0.0 < maxAngle <= 615.0 && span == 65535
    ensures Scaled(angle, maxAngle, span) >= 256.0
  {
    var v := Scaled(angle, maxAngle, span);
    assert v * maxAngle == angle * 65535.0;
    assert angle * 65535.0 >= 3.0 * 65535.0;
  }

  /** The values `send_dmx` sends: both angles are the clamp of 0. */
  function SendDmxValues(f: Fixture): DmxValues
    requires f.panRange.hi != 0 && f.tiltRange.hi != 0
  {
    var pan := ClampAngle(0.0, f.panRange);
    var tilt := ClampAngle(0.0, f.tiltRange);
    GetPanAndTilt(pan, f.panDmxRange, f.panRange, tilt, f.tiltDmxRange, f.tiltRange)
  }

  /** For every well-formed fixture `send_dmx` computes four zeros. */
  lemma SendDmxValuesZero(f: Fixture)
    requires WellFormed(f)
    ensures SendDmxValues(f) == DmxValues(0, 0, 0, 0)
  {
    assert ClampAngle(0.0, f.panRange) == 0.0 && ClampAngle(0.0, f.tiltRange) == 0.0;
  }
}
