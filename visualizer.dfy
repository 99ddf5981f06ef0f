/**
 * The model state of `UWBVisualizer` in src/uwb_visualizer.py, without the
 * Tk user interface: the latest filtered position, the anchor roster and one
 * colour index per anchor that a click cycles through the four colours of
 * the `colors` table.
 */
module Visualizer {

  import opened Reports

  /** Number of entries in the `colors` table the indices select from. */
  const ColorCount := 4

  /** The colour after one click. */
  function NextColor(c: int): int
  {
    (c + 1) % ColorCount
  }

  /** Every index selects an entry of the `colors` table. */
  predicate ColorsInRange(colors: seq<int>)
  {
    forall i :: 0 <= i < |colors| ==> 0 <= colors[i] < ColorCount
  }

  /** The colour list after toggling anchor `i`. */
  function Toggled(colors: seq<int>, i: nat): (r: seq<int>)
    requires i < |colors|
    ensures |r| == |colors|
    ensures r[i] == (colors[i] + 1) % ColorCount && 0 <= r[i] < ColorCount
    ensures forall j :: 0 <= j < |colors| && j != i ==> r[j] == colors[j]
  {
    colors[i := NextColor(colors[i])]
  }

  /** Toggling keeps every index inside the colour table. */
  lemma ToggledInRange(colors: seq<int>, i: nat)
    requires i < |colors| && ColorsInRange(colors)
    ensures ColorsInRange(Toggled(colors, i))
  {
  }

  /** Four clicks on the same anchor restore its colour, and leave the other anchors as they were. */
  lemma FourTogglesRestore(colors: seq<int>, i: nat)
    requires i < |colors| && 0 <= colors[i] < ColorCount
    ensures Toggled(Toggled(Toggled(Toggled(colors, i), i), i), i) == colors
  {
    var c := colors[i];
    assert NextColor(NextColor(NextColor(NextColor(c)))) == c;
  }

  /** The colour list `update_anchor_positions` installs: one 0 per anchor. */
  function DefaultColors(n: nat): (r: seq<int>)
    ensures |r| == n && ColorsInRange(r)
    ensures forall i :: 0 <= i < n ==> r[i] == 0
  {
    seq(n, _ => 0)
  }

  class UWBVisualizer {
    var xFiltered: real
    var yFiltered: real
    var zFiltered: real
    const dotRadius: int
    var anchorPositions: seq<Point>
    var anchorColors: seq<int>
    var rotationAngle: real
    var offsetX: real
    var offsetY: real
    var scale: real
    /** The colour lists written by `save_anchor_colors`, one per save. */
    ghost var SavedColors: seq<seq<int>>

    /** A fresh visualizer: origin position, no anchors, rotation 90, no offset, scale 0. */
    constructor ()
      ensures xFiltered == 0.0 && yFiltered == 0.0 && zFiltered == 0.0
      ensures dotRadius == 25
      ensures anchorPositions == [] && anchorColors == []
      ensures rotationAngle == 90.0 && offsetX == 0.0 && offsetY == 0.0 && scale == 0.0
      ensures SavedColors == []
    {
      xFiltered, yFiltered, zFiltered := 0.0, 0.0, 0.0;
      dotRadius := 25;
      anchorPositions := [];
      anchorColors := DefaultColors(0);
      rotationAngle := 90.0;
      offsetX, offsetY := 0.0, 0.0;
      scale := 0.0;
      SavedColors := [];
    }

    /** Publishes the filtered position; nothing else changes. */
    method UpdatePosition(pos: Point)
      modifies this`xFiltered, this`yFiltered, this`zFiltered
      ensures xFiltered == pos.x && yFiltered == pos.y && zFiltered == pos.z
    {
      xFiltered := pos.x;
      yFiltered := pos.y;
      zFiltered := pos.z;
    }

    /** Installs the anchor roster and resets every anchor to colour 0. */
    method UpdateAnchorPositions(positions: seq<Point>)
      modifies this`anchorPositions, this`anchorColors
      ensures anchorPositions == positions
      ensures anchorColors == DefaultColors(|positions|)
      ensures ColorsInRange(anchorColors)
    {
      anchorPositions := positions;
      anchorColors := DefaultColors(|anchorPositions|);
    }

    /** Cycles the colour of anchor `i` and saves the colour list once. */
    method ToggleAnchorColor(i: int)
      requires 0 <= i < |anchorColors|
      modifies this`anchorColors, this`SavedColors
      ensures anchorColors == Toggled(old(anchorColors), i)
      ensures SavedColors == old(SavedColors) + [anchorColors]
      ensures old(ColorsInRange(anchorColors)) ==> ColorsInRange(anchorColors)
    {
      anchorColors := anchorColors[i := NextColor(anchorColors[i])];
      SavedColors := SavedColors + [anchorColors];
      if old(ColorsInRange(anchorColors)) {
        ToggledInRange(old(anchorColors), i);
      }
    }

    /** A click on anchor `i`: exactly the effect of `ToggleAnchorColor(i)`, one save included. */
    method OnAnchorClick(i: int)
      requires 0 <= i < |anchorColors|
      modifies this`anchorColors, this`SavedColors
      ensures anchorColors == Toggled(old(anchorColors), i)
      ensures SavedColors == old(SavedColors) + [anchorColors]
      ensures old(ColorsInRange(anchorColors)) ==> ColorsInRange(anchorColors)
    {
      ToggleAnchorColor(i);
    }
  }
}
