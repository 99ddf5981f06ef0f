# seguidor — a verified model of the tracking core

seguidor steers a moving-head stage light so that it follows an ultra-wideband
(UWB) tag. A DWM1001 module first lists its anchors (`pos=X:Y:Z` lines up to an
`INF] ` terminator). It then streams the tag's position as comma-separated
`POS,...` lines. Each accepted position goes through three per-axis Kalman
filters, becomes pan and tilt angles relative to the camera, and is clamped to
the fixture's ranges. Each angle is split into a 16-bit coarse value and a fine
value, and the four values are written into the channel buffer of a DMX
interface. A visualizer keeps the latest filtered position, the anchor roster
and one colour index per anchor, cycled by clicks.

This Dafny project models that core:

- `wrappers.dfy` holds `Option`.
- `dmx.dfy` models the `DmxPy` interface. It is a class over a 513-slot `array`
  (slot 0 is a spacer), updated in place by the clamping `SetChannel` and by the
  `Blackout` loop. The serial port is a ghost log `Written` of the frames
  written. `Render` appends one frame: open marker 0x7E, command 6,1,2, the 513
  slots, close marker 0xE7.
- `text.dfy` holds the Python `str` operations the parsers use: `split` with a
  one-character separator, `strip('\r\n')` and `endswith`.
- `reports.dfy` holds the report parsers and the enumeration reader:
  - `parse_anchor_positions`: the regular expression
    `pos=([\d.-]+):([\d.-]+):([\d.-]+)` matched leftmost and greedy, with
    `float()` applied to the captured text;
  - `parse_tag_position`: the length check, the comma split and the `or` chain;
  - `read_dwm_messages`.
- `mapping.dfy` holds the fixture table `LIGHT_SYSTEMS`, the angle clamps, and
  `calculate_dmx_value`, `calculate_fine_dmx_value` and `get_pan_and_tilt`. All
  of these are over exact reals, with Python's `int()` as truncation toward
  zero.
- `visualizer.dfy` holds the non-GUI state of `UWBVisualizer` as a class.
- `tracking.dfy` holds:
  - the axis filters as objects holding their measurement history;
  - `filter_position`;
  - one iteration of the tracking loop, as `Tracker.Step`;
  - the set-up that `init` performs before the loop;
  - `send_dmx`.

What the model shows, in summary:

- The DMX buffer stays 513 bytes at all times.
- A rendered frame decodes back to the buffer.
- The anchor scanner finds exactly the leftmost match of the pattern, and the
  points it returns follow input order.
- The tag parser accepts exactly the lines of at least 20 raw bytes whose field
  0 is `POS` and whose fields 3..5 are present and not `nan`. It raises
  `IndexError` exactly when the `or` chain runs out of fields.
- For every well-formed fixture, any angle maps to coarse and fine values in
  range.
- One tracking step that rejects its line changes nothing. An accepted step
  writes exactly the fixture's four channels and no frame.

Inputs the core cannot compute itself are parameters:

- `toFloat: string -> Option<real>` is Python's `float()`. `None` is its
  `ValueError`.
- `estimator: seq<real> -> real` is the Kalman estimate after a measurement
  history.
- `angles: Point -> (real, real)` is the trigonometry of
  `uwb_position_to_pan_tilt`.
- Device input is a given sequence of lines.

Three behaviours of the code are modelled as written, although a reader of
the code might expect otherwise:

- The line `POS,0,0,1.0,2.0,3.0` is 19 bytes long. The code rejects it, because
  length is measured on the raw line and must reach 20 (`Reports.TagShortLineRejected`).
  The same line followed by CR LF is accepted (`Reports.TagLengthCountsLineBreaks`).
- The three filters are not updated in lock-step. When `float()` fails on the y
  or z field, the filters fed before it keep their new measurement
  (`Tracking.FilterPosition`, `Tracking.Tracker.Step`).
- An anchor lexeme that `float()` rejects, such as `1.2.3`, is not skipped. The
  `ValueError` leaves `init` before the tracking loop starts
  (`Tracking.InitOutcome.AnchorValueError`).

The clamp in `set_channel` also means that the 16-bit coarse value reaches its
8-bit channel as 255 for every angle of 3 degrees or more, on both fixtures of
the table (`Mapping.CoarseChannelSaturates`). The model states this behaviour
as written.

## Model

| member | source | states |
|---|---|---|
| Dmx.ClampChannel | src/dmx.py:24-27 | the written slot is in [0, 512], equals the channel when that is in range, and is 512 above the range and 0 below it |
| Dmx.ClampIntensity | src/dmx.py:28-31 | the written value is a byte, equals the intensity when that is a byte, and is 255 above and 0 below |
| Dmx.SetSlot | src/dmx.py:23-32 | the buffer stays 513 bytes, the clamped slot holds the clamped value, and every other slot is unchanged |
| Dmx.SetChannelClampsBoth | src/dmx.py:23-32 | `set_channel(600, 300)` writes 255 into slot 512 and leaves slots 0..511 alone |
| Dmx.BlackoutProperties | src/dmx.py:34-36 | blackout zeroes channels 1..511, keeps slot 0 and slot 512, and a second blackout changes nothing |
| Dmx.BlackedOut | src/dmx.py:34-36 | the buffer after blackout is still 513 bytes; what it holds is stated by `Dmx.BlackoutProperties` |
| Dmx.IntensityFrame | src/dmx.py:38-40 | the frame is 518 bytes: 0x7E, then 6,1,2, then exactly the 513 slots, then 0xE7, all bytes |
| Dmx.RenderRoundTrip | src/dmx.py:38-40 | reading a rendered frame back gives exactly the buffer that was rendered |
| Dmx.RenderInjective | src/dmx.py:38-40 | two buffers that render to the same frame are equal |
| Dmx.DmxPy.constructor | src/dmx.py:18-21 | exactly two frames are written, [0x7E,3,2,0,0,0,0xE7] then [0x7E,10,2,0,0,0,0xE7], and all 513 slots start at 0 |
| Dmx.DmxPy.SetChannel | src/dmx.py:23-32 | the buffer after the call is `SetSlot` of the buffer before it, and it stays 513 bytes |
| Dmx.DmxPy.Blackout | src/dmx.py:34-36 | the loop leaves the buffer equal to `BlackedOut` of the old buffer |
| Dmx.DmxPy.Render | src/dmx.py:38-40 | exactly one frame, the intensity frame of the current buffer, is appended to the port log; the buffer does not change |
| Text.Split | src/main.py:97 | `split` always yields at least one field |
| Text.SplitFieldsSeparatorFree | src/main.py:97 | no field of a split contains the separator |
| Text.JoinSplit | src/main.py:97 | joining the fields of a split with the separator gives back the text |
| Text.SplitJoin | src/main.py:97 | splitting separator-free fields joined by the separator gives back those fields |
| Text.TrimStart | src/main.py:69 | the result is a suffix of the text, only line breaks were dropped, and it does not start with one |
| Text.TrimEnd | src/main.py:69 | the result is a prefix of the text, only line breaks were dropped, and it does not end with one |
| Text.Strip | src/main.py:69 | the stripped text is no longer than the text and neither starts nor ends with CR or LF |
| Text.StripIsSlice | src/main.py:69 | the stripped text is one contiguous slice of the text, starting where the leading line breaks end |
| Text.StripDropsLineBreaks | src/main.py:69 | every character before and after that slice is CR or LF |
| Text.StripKeepsText | src/main.py:69 | every character of the text that is not a line break survives stripping |
| Text.StripUnchanged | src/main.py:94 | text that neither starts nor ends with a line break is unchanged by stripping |
| Text.EndsWith | src/main.py:68 | no contract of its own: `line.endswith(suffix)` as a comparison of the last characters; `Reports.TerminatorIndex` and `Reports.ReadDwmMessages` state what the reader does with it |
| Reports.RunLengthMaximal | src/main.py:82 | the run measured at a position holds only `[\d.-]` characters and is not followed by one |
| Reports.RunLengthExact | src/main.py:82 | a run of class characters not followed by one is exactly as long as `RunLength` says |
| Reports.MatchEnds | src/main.py:82 | the group boundaries found at a position are ordered and inside the line |
| Reports.MatchEndsSound | src/main.py:82 | the boundaries found lie after `pos=`, delimit three non-empty runs separated by `:`, and the third run is maximal |
| Reports.MatchEndsComplete | src/main.py:82 | every such layout at a position is what the matcher finds there |
| Reports.MatchAtCorrect | src/main.py:82 | the attempt at a position returns groups t exactly when the line holds `pos=` followed by t's three maximal runs there |
| Reports.FirstMatch | src/main.py:82 | the position found has a match and no earlier position does; when none is found, no position matches |
| Reports.SearchPos | src/main.py:82-83 | no contract of its own: `re.search` as the groups at the first matching position; `Reports.SearchPosSound`, `Reports.SearchPosComplete` and `Reports.SearchPosNone` state that it finds exactly the leftmost match |
| Reports.SearchPosSound | src/main.py:82 | the groups a search returns form a match at a position before which nothing matches |
| Reports.SearchPosComplete | src/main.py:82 | the leftmost match of the pattern is what the search returns |
| Reports.LeftmostIsFirst | src/main.py:82 | a matching position with no match before it is the position the search picks |
| Reports.SearchPosNone | src/main.py:82-83 | a search finds nothing exactly when the pattern matches at no position |
| Reports.SearchPosInContext | src/main.py:82 | a line `pre + "pos=X:Y:Z" + post`, with no `p` in `pre` and `post` not extending the third run, yields X, Y and Z; the text after the third run is ignored |
| Reports.Searches | src/main.py:81-82 | one search result per line, in line order |
| Reports.MatchedLexemesSingle | src/main.py:81-87 | a line with a match contributes its groups, a line without one contributes nothing |
| Reports.MatchedLexemesAppend | src/main.py:78-89 | the matches of two concatenated line lists are the matches of the first followed by those of the second |
| Reports.SomesAppend | src/main.py:83-87 | collecting the successful searches distributes over concatenation |
| Reports.ToPoints | src/main.py:84-87 | conversion succeeds exactly when every triple converts, and then yields one point per triple, each the `float()` of its three groups |
| Reports.ToPointsSnoc | src/main.py:84-87 | converting one more triple appends its point, or fails when it or an earlier one fails |
| Reports.ToPointsPrefixFails | src/main.py:84-86 | a failing conversion fails every later extension of the list |
| Reports.ParseAnchorPositions | src/main.py:78-89 | the loop returns the conversion of the groups of every matching line, in line order, or `None` when `float()` raises on any of them |
| Reports.TerminatorIndex | src/main.py:66-73 | the index found ends with `INF] \r\n` and no earlier line does; it is the line count when none does |
| Reports.ResponseLines | src/main.py:63-75 | the response holds one stripped line per line strictly before the first terminator, and none of them is a terminator |
| Reports.ReadDwmMessages | src/main.py:63-75 | the loop returns the stripped lines before the first terminator, consuming that terminator; it ends only when the input holds one |
| Reports.Fields | src/main.py:94-97 | the stripped raw line splits into at least one field |
| Reports.ParseTagPosition | src/main.py:92-104 | no contract of its own: the empty and short checks, the split and the left-to-right `or` chain, with `IndexError` as its own outcome; `Reports.TagAccepted`, `Reports.TagIndexFault` and `Reports.TagLineRoundTrip` state when it accepts, when it raises and that rendered lines parse back |
| Reports.TagShortRejected | src/main.py:93-96 | empty raw lines and raw lines shorter than 20 bytes give `None` |
| Reports.TagAccepted | src/main.py:96-101 | a tag is returned exactly when the raw line has 20 bytes or more, six fields or more, field 0 is `POS` and fields 3..5 are not `nan`, and it is those three fields unconverted |
| Reports.TagIndexFault | src/main.py:98 | a `POS` line raises `IndexError` exactly when the left-to-right `or` chain reaches a missing field before a `nan` one |
| Reports.TagLineRoundTrip | src/main.py:92-101 | a line assembled from `POS`, two fields and three non-`nan` coordinates (and more fields, optionally CR LF) parses back to the coordinates |
| Reports.TagShortLineRejected | src/main.py:96 | `POS,0,0,1.0,2.0,3.0`, 19 bytes, is rejected by the length check |
| Reports.TagLengthCountsLineBreaks | src/main.py:94-96 | length is taken before stripping: a valid 18- or 19-byte line is rejected, the same line with CR LF accepted |
| Reports.TagNanRejected | src/main.py:98-99 | a six-field `POS` line with a `nan` coordinate gives `None` |
| Mapping.SelectLightSystem | src/main.py:25-46 | only `BadBoy` and `Sparky` are accepted, `BadBoy` selects the BadBoy entry and `Sparky` the Sparky entry, and both are well-formed entries of the table |
| Mapping.ClampAngle | src/main.py:215-216 | the clamped angle lies in [lo, hi] when lo <= hi, is the angle when already in range, hi above and lo below |
| Mapping.ClampIdempotent | src/main.py:215-216 | clamping twice is clamping once |
| Mapping.Trunc | src/main.py:196 | `int()` truncates toward zero: within 1 below a non-negative value, within 1 above a negative one |
| Mapping.CalculateDmxValue | src/main.py:195-196 | no contract of its own: the scaled angle truncated toward zero; `Mapping.ScaledBounds` and `Mapping.CoarseFineSplit` bound it |
| Mapping.CalculateFineDmxValue | src/main.py:199-200 | no contract of its own: the remainder after the coarse value, times 256, truncated; `Mapping.CoarseFineSplit` bounds it to a byte |
| Mapping.ScaledBounds | src/main.py:196 | an angle in [0, max] scales into [0, span], and max scales to span |
| Mapping.CoarseFineSplit | src/main.py:195-200 | for 0 <= angle <= max: 0 <= coarse <= span, 0 <= fine <= 255, the two pin the scaled angle to 1/256 of a step, and max gives (span, 0) |
| Mapping.GetPanAndTilt | src/main.py:256-261 | no contract of its own: coarse then fine for pan, then for tilt, using only the maxima of the ranges; `Mapping.AxisInRange` states each axis's bounds |
| Mapping.PanTiltToDmx | src/main.py:203-223 | no contract of its own: the clamps then `get_pan_and_tilt`, the trigonometry being left to `Tracking.AimValues`; `Mapping.PanTiltToDmxInRange` and `Mapping.CoarseChannelSaturates` state its range and saturation |
| Mapping.PanTiltToDmxInRange | src/main.py:210-223 | for every well-formed fixture and any angles the values are in range; angles at or over the maximum give (span, 0) and angles at or under 0 give (0, 0) |
| Mapping.AxisInRange | src/main.py:256-261 | one axis of `get_pan_and_tilt` after the clamp gives in-range coarse and fine values, with the extremes as above |
| Mapping.CoarseChannelSaturates | src/main.py:157-160 | on both table fixtures, any pan and tilt of 3 degrees or more reach their coarse channels as 255 |
| Mapping.SendDmxValues | src/main.py:233-242 | no contract of its own: both angles are the clamp of 0 fed to `get_pan_and_tilt`; `Mapping.SendDmxValuesZero` states that the result is four zeros |
| Mapping.SendDmxValuesZero | src/main.py:233-242 | for every well-formed fixture the values `send_dmx` computes are all 0 |
| Visualizer.Toggled | src/uwb_visualizer.py:55 | toggling keeps the length, sets the toggled colour to (c + 1) % 4, which lies in [0, 4), and leaves every other index unchanged |
| Visualizer.ToggledInRange | src/uwb_visualizer.py:16 | when every colour index is in [0, 4), toggling keeps it so, which the `colors` lookup relies on |
| Visualizer.FourTogglesRestore | src/uwb_visualizer.py:54-55 | four toggles of the same anchor restore the whole colour list |
| Visualizer.DefaultColors | src/uwb_visualizer.py:68 | the reset colour list has one 0 per anchor |
| Visualizer.UWBVisualizer.constructor | src/uwb_visualizer.py:20-30 | a fresh visualizer is at (0, 0, 0) with radius 25, no anchors and no colours, rotation 90, offsets 0 and scale 0 |
| Visualizer.UWBVisualizer.UpdatePosition | src/uwb_visualizer.py:61-64 | the three filtered coordinates become those of the position; nothing else may change |
| Visualizer.UWBVisualizer.UpdateAnchorPositions | src/uwb_visualizer.py:66-68 | the roster is stored and the colours reset to one 0 per anchor |
| Visualizer.UWBVisualizer.ToggleAnchorColor | src/uwb_visualizer.py:54-56 | colour i becomes (c + 1) % 4, the others are unchanged, the colour list is saved once, and in-range colours stay in range |
| Visualizer.UWBVisualizer.OnAnchorClick | src/uwb_visualizer.py:58-59 | a click has exactly the effect of a toggle, one save included |
| Tracking.KalmanFilter.constructor | src/main.py:113-115 | a filter starts with the given variances and no measurements |
| Tracking.KalmanFilter.InputMeasurement | src/main.py:171-173 | a measurement is appended to the filter's history |
| Tracking.Fed | src/main.py:171-173 | a converted value is appended to the history; a failed conversion leaves it as it was |
| Tracking.Relative | src/main.py:151 | translating the relative position back by the camera's coordinates gives the filtered position |
| Tracking.AimValues | src/main.py:151-155 | the values aimed at a well-formed fixture are in range for it |
| Tracking.ApplyValues | src/main.py:157-160 | after the four `set_channel` calls the fixture's channels hold the clamped values and every other slot is unchanged |
| Tracking.FineValuesReachChannels | src/main.py:157-160 | in-range fine values reach their channels exactly; a coarse value does only when it is at most 255 |
| Tracking.FilterPosition | src/main.py:170-174 | the filters are fed in x, y, z order up to the first failed conversion; a position is returned exactly when all three convert, and it is the three estimates |
| Tracking.Tracker.Step | src/main.py:143-164 | a rejected line changes nothing; an `IndexError` or `ValueError` changes only the filters already fed; an accepted line updates the visualizer's position and writes exactly the fixture's four channels; no frame is written |
| Tracking.Init | src/main.py:107-141 | unknown names are rejected before anything is created; the anchors are the parsed response lines; a missing terminator stalls; a bad anchor lexeme raises; otherwise fresh empty filters, all three with the variances 1e-4 and 0.1 ** 4, the visualizer holding the anchors with reset colours, and a zeroed DMX buffer after the two init frames |
| Tracking.SendDmx | src/main.py:226-252 | unknown names are rejected before the interface is opened; otherwise the values written are all 0, the buffer stays all 0 and only the two init frames are written |

## Left out

- Serial I/O and timing: opening ports, `send_command`, `readline`, `close` and `time.sleep`. Written frames form a ghost log, and device input is a given line sequence.
- The trigonometry of `calculate_distance`, `calculate_pan` and `calculate_tilt` (sqrt, atan2, degrees): it is the abstract `angles` parameter.
- The `kalman_filter` module is not part of this model. A filter is its measurement history, and the estimate is the abstract `estimator` parameter.
- Floating point: all arithmetic is over exact reals, so float rounding at range boundaries and NaN are not captured. `0.1 ** 4` is taken as exactly 0.0001. `float()` is the abstract `toFloat` parameter.
- Text encoding: each byte of a line is one character. UTF-8 decoding and its `UnicodeDecodeError` are not captured. `\d` is taken as the ASCII digits only, where Python's `re` also matches other Unicode digits.
- The Tk user interface (`init_visualizer`, calibration, `rotate_scale_and_offset`), the GUI thread, logging and `main()`'s argument parsing.
- JSON persistence: `save_anchor_colors` is a ghost log `SavedColors` of the lists saved. `load_anchor_colors` and `load_ui_configs` are not modelled, so `Tracking.Init` leaves the colours at their reset value rather than the ones a saved file would restore.
- The mock interface `dmx_mock` and the `use_dmx_mock` switch.
- `update_lighting`, which `send_dmx` calls last and `DmxPy` does not define, and the context manager that the DMX tests use. `Tracking.SendDmx` stops after the four `set_channel` calls, so the `AttributeError` that call raises is not modelled.
- The tracking loop runs forever. The model covers one iteration (`Tracking.Tracker.Step`), not the sequence of iterations.
- `Visualizer.UWBVisualizer.ToggleAnchorColor`: requires 0 <= i, while Python would also accept a negative index counted from the end.
- `Mapping.PanTiltToDmxInRange`, `Tracking.AimValues` and `Tracking.ApplyValues`: they state range facts only for well-formed fixtures. The mapping functions require non-zero angle maxima, where Python would raise `ZeroDivisionError`. Both fixtures of the table are well-formed (`Mapping.SelectLightSystem`).
- `Tracking.Init`: it stops before the tracking loop, with the interface opened. `init` never returns to its caller.
