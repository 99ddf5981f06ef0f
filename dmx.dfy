/**
 * The DMX lighting-bus interface of src/dmx.py: a 513-slot channel buffer
 * (slot 0 is a spacer, slots 1..512 are channel intensities) that is updated in
 * place and serialised into one fixed-layout frame per render.
 *
 * The serial port is only a byte sink: every `serial.write` appends one frame
 * to the ghost log `Written`.
 */
module Dmx {

  import opened Wrappers

  /** Number of slots in the buffer: 512 channels plus the spacer at index 0. */
  const SlotCount := 513

  /** Highest channel index. */
  const MaxChannel := 512

  /** Highest intensity a slot can hold. */
  const MaxIntensity := 255

  const DmxOpen: seq<int> := [0x7E]
  const DmxClose: seq<int> := [0xE7]
  const DmxIntensity: seq<int> := [6, 1, 2]
  const DmxInit1: seq<int> := [3, 2, 0, 0, 0]
  const DmxInit2: seq<int> := [10, 2, 0, 0, 0]

  predicate IsByte(v: int) { 0 <= v <= MaxIntensity }

  /** A well-formed channel buffer: 513 slots, each one byte. */
  predicate IsSlots(s: seq<int>) {
    |s| == SlotCount && forall i :: 0 <= i < |s| ==> IsByte(s[i])
  }

  /** The index `set_channel` writes: out-of-range indices are clamped to [0, 512]. */
  function ClampChannel(chan: int): (c: int)
    ensures 0 <= c <= MaxChannel
    ensures 0 <= chan <= MaxChannel ==> c == chan
    ensures chan > MaxChannel ==> c == MaxChannel
    ensures chan < 0 ==> c == 0
  {
    var c := if chan > MaxChannel then MaxChannel else chan;
    if c < 0 then 0 else c
  }

  /** The value `set_channel` writes: out-of-range intensities are clamped to [0, 255]. */
  function ClampIntensity(intensity: int): (v: int)
    ensures IsByte(v)
    ensures IsByte(intensity) ==> v == intensity
    ensures intensity > MaxIntensity ==> v == MaxIntensity
    ensures intensity < 0 ==> v == 0
  {
    var v := if intensity > MaxIntensity then MaxIntensity else intensity;
    if v < 0 then 0 else v
  }

  /** The buffer after `set_channel(chan, intensity)`. */
  function SetSlot(s: seq<int>, chan: int, intensity: int): (r: seq<int>)
    requires IsSlots(s)
    ensures IsSlots(r)
    ensures r[ClampChannel(chan)] == ClampIntensity(intensity)
    ensures forall i :: 0 <= i < |s| && i != ClampChannel(chan) ==> r[i] == s[i]
  {
    s[ClampChannel(chan) := ClampIntensity(intensity)]
  }

  /** The buffer after `blackout`: channels 1..511 are zero, slot 0 and slot 512 keep their value. */
  function BlackedOut(s: seq<int>): (r: seq<int>)
    requires IsSlots(s)
    ensures IsSlots(r)
  {
    seq(|s|, i requires 0 <= i < |s| => if 1 <= i < MaxChannel then 0 else s[i])
  }

  /** One frame as written to the serial port: open marker, command, payload, close marker. */
  function Frame(command: seq<int>, payload: seq<int>): seq<int>
  {
    DmxOpen + command + payload + DmxClose
  }

  /** The frame `render` writes for the buffer `s`. */
  function IntensityFrame(s: seq<int>): (f: seq<int>)
    requires IsSlots(s)
    ensures |f| == 1 + 3 + SlotCount + 1
    ensures f[0] == 0x7E && f[1..4] == [6, 1, 2] && f[|f| - 1] == 0xE7
    ensures f[4..4 + SlotCount] == s
    ensures forall i :: 0 <= i < |f| ==> IsByte(f[i])
  {
    Frame(DmxIntensity, s)
  }

  /**
   * Reads a frame back: recognises the open marker, the intensity command and
   * the close marker, and returns the 513 slots in between.
   */
  function FramePayload(f: seq<int>): (r: Option<seq<int>>)
    ensures r.Some? ==> |r.value| == SlotCount
  {
    if |f| == 1 + 3 + SlotCount + 1 && f[..4] == DmxOpen + DmxIntensity && f[|f| - 1] == 0xE7
    then Some(f[4..4 + SlotCount])
    else None
  }

  /** Decoding a rendered frame gives back exactly the buffer that was rendered. */
  lemma RenderRoundTrip(s: seq<int>)
    requires IsSlots(s)
    ensures FramePayload(IntensityFrame(s)) == Some(s)
  {
    var f := IntensityFrame(s);
    assert f[..4] == DmxOpen + DmxIntensity;
  }

  /** Two buffers that render to the same frame are the same buffer. */
  lemma RenderInjective(s: seq<int>, t: seq<int>)
    requires IsSlots(s) && IsSlots(t)
    requires IntensityFrame(s) == IntensityFrame(t)
    ensures s == t
  {
    RenderRoundTrip(s);
    RenderRoundTrip(t);
  }

  /** Blackout zeroes channels 1..511, keeps the spacer and channel 512, and a second blackout changes nothing. */
  lemma BlackoutProperties(s: seq<int>)
    requires IsSlots(s)
    ensures forall i :: 1 <= i < MaxChannel ==> BlackedOut(s)[i] == 0
    ensures BlackedOut(s)[0] == s[0] && BlackedOut(s)[MaxChannel] == s[MaxChannel]
    ensures BlackedOut(BlackedOut(s)) == BlackedOut(s)
  {
  }

  /** `set_channel(600, 300)` writes 255 into slot 512. */
  lemma SetChannelClampsBoth(s: seq<int>)
    requires IsSlots(s)
    ensures SetSlot(s, 600, 300)[512] == 255
    ensures SetSlot(s, 600, 300)[..512] == s[..512]
  {
  }

  /** The DMX interface object: the 513-slot buffer and the frames written so far. */
  class DmxPy {
    /** `dmxData`: one byte per slot. */
    const data: array<int>
    /** Every frame written to the serial port, in order. */
    ghost var Written: seq<seq<int>>

    ghost predicate Valid()
      reads this, data
    {
      IsSlots(data[..])
    }

    /** Opening the interface writes the two init frames and zeroes all 513 slots. */
    constructor ()
      ensures Valid() && fresh(data)
      ensures Written == [Frame(DmxInit1, []), Frame(DmxInit2, [])]
      ensures Written == [[0x7E, 3, 2, 0, 0, 0, 0xE7], [0x7E, 10, 2, 0, 0, 0, 0xE7]]
      ensures forall i :: 0 <= i < data.Length ==> data[i] == 0
    {
      Written := [Frame(DmxInit1, [])];
      Written := Written + [Frame(DmxInit2, [])];
      assert Frame(DmxInit1, []) == [0x7E, 3, 2, 0, 0, 0, 0xE7];
      assert Frame(DmxInit2, []) == [0x7E, 10, 2, 0, 0, 0, 0xE7];
      data := new int[SlotCount](_ => 0);
    }

    /** Writes the clamped intensity into the clamped slot; every other slot is untouched. */
    method SetChannel(chan: int, intensity: int)
      requires Valid()
      modifies data
      ensures Valid()
      ensures data[..] == SetSlot(old(data[..]), chan, intensity)
    {
      var c := chan;
      if c > MaxChannel {
        c := MaxChannel;
      }
      if c < 0 {
        c := 0;
      }
      var v := intensity;
      if v > MaxIntensity {
        v := MaxIntensity;
      }
      if v < 0 {
        v := 0;
      }
      data[c] := v;
    }

    /** Sets channels 1..511 to zero, one slot at a time. */
    method Blackout()
      requires Valid()
      modifies data
      ensures Valid()
      ensures data[..] == BlackedOut(old(data[..]))
    {
      for i := 1 to MaxChannel
        invariant forall k :: 1 <= k < i ==> data[k] == 0
        invariant forall k :: 0 <= k < data.Length && !(1 <= k < i) ==> data[k] == old(data[k])
      {
        data[i] := 0;
      }
    }

    /** Writes one intensity frame holding the whole buffer; the buffer itself does not change. */
    method Render()
      requires Valid()
      modifies this`Written
      ensures Valid()
      ensures Written == old(Written) + [IntensityFrame(data[..])]
    {
      Written := Written + [Frame(DmxIntensity, data[..])];
    }
  }
}
