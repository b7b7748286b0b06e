# A verified model of the VARP oscilloscope core

This project models the core of a software oscilloscope for Unity (VARP OSC).
Each fixed-update tick, the oscilloscope acquires one sample from every input
channel into a 1024-entry ring buffer. A trigger state machine
(Armed → Ready → Triggered / Auto, or Stop) watches one channel for a rising or
falling edge and decides which samples are drawn. The renderer draws them into
a texture as polylines or as a logic trace. A dotted grid, a label pool and a
keyboard manager surround that engine.

The model is written in Dafny, one module per source component:

| module | file | models |
|---|---|---|
| `Numerics` | numerics.dfy | `Mathf.RoundToInt` (ties to even), truncating casts and division, `Vector3.Lerp`, `Mathf.Clamp` |
| `OscTypes` | types.dfy | the enums: format, style, trigger mode and edge, status, channel names |
| `Settings` | settings.dfy | `OscSettings`: buffer constants, the `& 1023` mask, the screen geometry and the pixel conversions |
| `Quantizer` | quantizer.dfy | `OscValue`: the "nice number" tables, nearest-value lookup, index clamp and auto-gain fit |
| `Raster` | raster.dfy | `OscUtils.PlotLine` / `PlotLineLow` / `PlotLineHigh` (Bresenham) and `PlotRectangle` |
| `MinMax` | minmax.dfy | `OscMinMax` (both copies of it) |
| `SampleProbe` | sampleprobe.dfy | the probe of the `Oscilloscope/Src` tree, with `sampleIn` and the decoupled `GetSample(dt)` |
| `Channel` | channel.dfy | the VARP probe and `OscChannel`; the logic shared by the two channel copies is modelled once |
| `Renderer` | renderer.dfy | `OscRenderer`, plus `OscChannel.Render`, which dispatches to it |
| `Trigger` | trigger.dfy | `OscTrigger`: the state machine, the time base and the horizontal position |
| `Scope` | scope.dfy | `Oscilloscope`: initialisation, channel lookup, acquisition fan-out and rendering |
| `Grid` | grid.dfy | `OscGrid`: dotted lines, the grid layout, the frame and the redraw flag |
| `LabelPool` | labels.dfy | `OscLabelManager` (both copies): the free-list pool of labels |
| `GuiManager` | gui.dfy | `OscGuiManager`: enum stepping, the visibility/focus toggle, grid bits and key routing |

Textures are `array2<int>` arrays of colour ids, indexed `[x, y]`.

Drawing is specified by strokes:
- A drawing method's contract names the sequence of pixel writes (`Stroke`s) it makes.
- `Raster.Paint` gives the colour a pixel ends up with after a sequence of writes.
- `SetPixel` clamps its coordinates into the texture, as the source's textures do (`TextureWrapMode.Clamp`).

The trigger's calls into the oscilloscope are returned as a list of `Effect`s:
- `Acquire(dmaWrite)`;
- `Draw(smpStart, smpEnd, pixStart, pixPerSample)`.

`Scope.Oscilloscope.Perform` then says what the oscilloscope does for each entry.

Floats are modelled as `real`.

Where a value of the source ends up in an exception, the model either returns it as an `Option` or states the exclusion as a precondition (see "Left out").

Five places where the code differs from what its documentation or a reader would expect. The model follows the code:
- Both value tables are stored in descending order. `GetAutoGain`'s fallback, entry 0, is therefore the largest gain.
- `TriggerIt` does not restart the min/max statistics.
- `armingSamplesCount` is never reset.
- `OscMinMax.Mid` is half the peak-to-peak span, not the midpoint (see "Findings").
- `OscChannel.Plug` unplugs a probe only from the channel in the probe's `Gui` field, and nothing sets that field. Several channels may therefore hold one probe. `AquireSampe` then reads it once per holder, in channel order, each read starting from what the previous one left.

## Model

| member | source | states |
|---|---|---|
| Numerics.ClampIndex | Oscilloscope/Src/OscUtils.cs:329-334 | the clamped index is in [0, size) for a non-empty table, is the identity on that range, and maps negative indices to 0 and large ones to size - 1 |
| Numerics.Clamp01 | VARP/OSC/Src/OscChannel.cs:143-146 | the interpolation factor `Vector3.Lerp` uses lies in [0, 1] and equals t inside that range |
| Numerics.ClampReal | VARP/OSC/Src/OscTrigger.cs:501 | `Mathf.Clamp` lands in [lo, hi] when lo <= hi and leaves values already inside unchanged |
| Numerics.LerpEnds | VARP/OSC/Src/OscChannel.cs:143-146 | the DC-level interpolation returns its start for t <= 0 and its target for t >= 1 |
| Numerics.RoundToInt | VARP/OSC/Src/OscSettings.cs:120 | `Mathf.RoundToInt` is within one half of its argument, and exact halves go to the even integer |
| Numerics.RoundToIntNearest | VARP/OSC/Src/OscTrigger.cs:503 | any integer strictly within one half of a value is its rounding |
| Numerics.Trunc | VARP/OSC/Src/OscRenderer.cs:322 | the C# `(int)` cast truncates toward zero: the magnitude drops below one step and the sign is kept unless the value is in (-1, 0] |
| Numerics.DivT | VARP/OSC/Src/OscSettings.cs:72-80 | C# integer division agrees with Euclidean division on non-negative dividends and positive divisors |
| Numerics.DivTNegate | VARP/OSC/Src/OscSettings.cs:78 | truncating division commutes with negation, unlike Euclidean division |
| OscTypes.ChannelName.Ordinal | VARP/OSC/Src/Oscilloscope.cs:132 | a channel name's number, 0 for C1 up to 7 for C8 |
| Settings.Mask | VARP/OSC/Src/OscSettings.cs:37-41 | `i & 1023` lies in [0, 1023], is congruent to i modulo 1024 (negative i too) and is the identity on [0, 1023] |
| Settings.MaskPeriodic | VARP/OSC/Src/OscSettings.cs:37-41 | addresses a whole number of buffer lengths apart mask to the same slot |
| Settings.OscSettings.constructor | VARP/OSC/Src/OscSettings.cs:49-56 | the designer defaults: 50 pixels per division, 11 × 11 divisions, 5 subdivisions, every grid flag on |
| Settings.OscSettings.Initialize | VARP/OSC/Src/OscSettings.cs:72-80 | texture size = pixels per division × divisions, centre = integer halves, pixels per subdivision by truncating division, markers at -(divisionsX / 2), the rectangle centred on the origin, and the time step stored |
| Settings.DefaultGeometry | VARP/OSC/Src/OscSettings.cs:49-56 | the defaults give a 550 × 550 texture, centre 275, 10 pixels per subdivision and an 11 × 11 rectangle from (-5.5, -5.5) |
| Settings.OscSettings.GetPixelPosition | VARP/OSC/Src/OscSettings.cs:99-102 | a point in divisions maps component-wise to pixels |
| Settings.OscSettings.GetPixelPositionX | VARP/OSC/Src/OscSettings.cs:104 | division 0 maps to the texture centre column |
| Settings.OscSettings.GetPixelPositionY | VARP/OSC/Src/OscSettings.cs:106 | division 0 maps to the texture centre row |
| Settings.OscSettings.GetPixelPositionInt | VARP/OSC/Src/OscSettings.cs:113-118 | the integer pixel is the pair of rounded coordinates |
| Settings.OscSettings.GetPixelPositionIntX | VARP/OSC/Src/OscSettings.cs:120 | within half a pixel of the exact column, and exactly the centre column for 0 |
| Settings.OscSettings.GetPixelPositionIntY | VARP/OSC/Src/OscSettings.cs:122 | within half a pixel of the exact row, and exactly the centre row for 0 |
| Settings.OscSettings.ClampPixelInsideScreenX | VARP/OSC/Src/OscSettings.cs:133 | the column lies in [0, width - 1] whenever width >= 1, and on-screen columns are unchanged |
| Settings.OscSettings.ClampPixelInsideScreenY | VARP/OSC/Src/OscSettings.cs:135 | the row lies in [0, height - 1] whenever height >= 1, and on-screen rows are unchanged |
| Settings.OscSettings.GetPixelPositionClamped | VARP/OSC/Src/OscSettings.cs:137-144 | the rounded pixel clamped into the texture, so always on screen |
| Settings.OscSettings.ClampPixelIdempotent | VARP/OSC/Src/OscSettings.cs:133-135 | clamping twice is clamping once |
| Settings.OscSettings.TestAcceptsOneBeyondClamp | VARP/OSC/Src/OscSettings.cs:129-135 | the inside test accepts exactly the clamp's fixed points plus the one column x == width, which the clamp moves |
| Quantizer.Row | Oscilloscope/Src/OscUtils.cs:262-265 | one row of the table: every gain multiplied by the row's factor |
| Quantizer.TableLength | Oscilloscope/Src/OscUtils.cs:258-267 | the table has factors × gains entries |
| Quantizer.TableAt | Oscilloscope/Src/OscUtils.cs:262-265 | entry i × G + j is factors[i] × gains[j] |
| Quantizer.TableLayout | Oscilloscope/Src/OscUtils.cs:258-267 | every (i, j) pair is in range and holds factors[i] × gains[j] |
| Quantizer.TableDescending | Oscilloscope/Src/OscUtils.cs:258-267 | descending factors whose decades do not overlap give a strictly descending table |
| Quantizer.RowDescending | Oscilloscope/Src/OscUtils.cs:262-265 | a row of descending gains under a positive factor is strictly descending |
| Quantizer.TablePositive | Oscilloscope/Src/OscUtils.cs:258-267 | positive gains and factors give a positive table |
| Quantizer.NewOscValue | Oscilloscope/Src/OscUtils.cs:258-267 | the constructor's nested loops fill exactly the table: length factors × gains and entry i × G + j = factors[i] × gains[j] |
| Quantizer.FillRow | Oscilloscope/Src/OscUtils.cs:263-264 | the inner loop writes one row at its offset and keeps the rows before it |
| Quantizer.FillTable | Oscilloscope/Src/OscUtils.cs:260-266 | the array after the outer loop holds the table |
| Quantizer.NearestIndex | Oscilloscope/Src/OscUtils.cs:306-322 | the scan's index is -1 or a valid index |
| Quantizer.ScanNearestCorrect | Oscilloscope/Src/OscUtils.cs:306-322 | the scan from the end, replacing on strict improvement only, returns an index of least distance, the highest among ties |
| Quantizer.NearestIndexCorrect | Oscilloscope/Src/OscUtils.cs:306-322 | the index is nearest when some entry is within float range of the value, and -1 exactly when none is |
| Quantizer.NearestOfMember | Oscilloscope/Src/OscUtils.cs:306-322 | on a strictly descending table every entry snaps to its own index |
| Quantizer.MemberSnapsToItself | Oscilloscope/Src/OscUtils.cs:276-280 | a value already in the table is reached and snaps to an entry equal to itself |
| Quantizer.NearestEntry | Oscilloscope/Src/OscUtils.cs:276-280 | the snapped value is a table member no farther from the value than any other entry |
| Quantizer.AutoGainIndex | Oscilloscope/Src/OscUtils.cs:288-297 | on a non-empty table the auto-gain index is valid |
| Quantizer.FitFromCorrect | Oscilloscope/Src/OscUtils.cs:288-297 | the downward scan finds the highest index whose gain fits the peak-to-peak value, or -1 when none does |
| Quantizer.AutoGainIndexCorrect | Oscilloscope/Src/OscUtils.cs:288-297 | the chosen entry is the highest fitting one and nothing above it fits, or entry 0 when none fits |
| Quantizer.FitsIsPrefix | Oscilloscope/Src/OscUtils.cs:288-297 | on a descending positive table, below a fitting entry every entry fits too |
| Quantizer.OscValue.GetValueIndex | Oscilloscope/Src/OscUtils.cs:306-322 | the loop returns the nearest index (ties to the highest index), and -1 exactly when no entry is within float range |
| Quantizer.OscValue.GetValue | Oscilloscope/Src/OscUtils.cs:276-280 | returns a table member no farther from the value than any other entry |
| Quantizer.OscValue.GetValueByIndex | Oscilloscope/Src/OscUtils.cs:329-334 | returns the entry at the index clamped into [0, length - 1], always a member |
| Quantizer.OscValue.GetAutoGain | Oscilloscope/Src/OscUtils.cs:288-297 | the loop returns the highest-index entry g with p2p × (1 / g) <= autoDivisions, else entry 0 (the largest gain) |
| Quantizer.IndexRoundTrip | Oscilloscope/Src/OscUtils.cs:329-334 | on distinct entries, snapping the entry at index i gives back the clamped i |
| Quantizer.SnapIdempotent | Oscilloscope/Src/OscUtils.cs:276-280 | snapping an already snapped value changes nothing |
| Quantizer.GainTableShape | Oscilloscope/Src/OscUtils.cs:337 | the Gain table has 30 strictly descending positive entries, from 5000 down to 0.000001 |
| Quantizer.TimeTableShape | Oscilloscope/Src/OscUtils.cs:339 | the Time table has 24 strictly descending positive entries, from 50 down to 0.000001 |
| Quantizer.GainDecades | Oscilloscope/Src/OscUtils.cs:337 | consecutive decades of the Gain table do not overlap |
| Quantizer.TimeDecades | Oscilloscope/Src/OscUtils.cs:339 | consecutive decades of the Time table do not overlap |
| Quantizer.UnitGainEntry | Oscilloscope/Src/OscUtils.cs:337 | entry 11 of the Gain table is 1.0, the probes' default gain |
| Raster.SetPixel | VARP/OSC/Src/OscRenderer.cs:98 | one write, at the coordinates clamped into the texture |
| Raster.Fill | VARP/OSC/Src/OscRenderer.cs:87 | every pixel takes the colour |
| Raster.PaintUniform | Oscilloscope/Src/OscUtils.cs:111-117 | after writes of a single colour, a pixel has that colour exactly when some write reached it |
| Raster.LineSymmetric | Oscilloscope/Src/OscUtils.cs:31-47 | PlotLine(a, b) and PlotLine(b, a) set the same pixels in the same order |
| Raster.LineSinglePoint | Oscilloscope/Src/OscUtils.cs:33-45 | equal endpoints take the steep branch and set exactly one pixel |
| Raster.LowFromColumns | Oscilloscope/Src/OscUtils.cs:63-72 | the low loop sets one pixel per column from x0 to x1 and moves y by 0 or yi per column |
| Raster.LowLine | Oscilloscope/Src/OscUtils.cs:49-73 | a shallow line has one pixel per column x0..x1, starts at (x0, y0), ends at (x1, y1) and moves y by at most one per column |
| Raster.HighLine | Oscilloscope/Src/OscUtils.cs:75-100 | a steep line has one pixel per row y0..y1, starts at (x0, y0), ends at (x1, y1) and moves x by at most one per row |
| Raster.LineEnds | Oscilloscope/Src/OscUtils.cs:31-47 | every line sets both of its endpoints |
| Raster.HorizontalLine | Oscilloscope/Src/OscUtils.cs:49-73 | a horizontal line sets every pixel between its ends |
| Raster.VerticalLine | Oscilloscope/Src/OscUtils.cs:75-100 | a vertical line sets every pixel between its ends |
| Raster.PlotLine | Oscilloscope/Src/OscUtils.cs:31-47 | the normalisation plus PlotLineLow or PlotLineHigh makes exactly the writes of the line's point sequence |
| Raster.PlotLineLow | Oscilloscope/Src/OscUtils.cs:49-73 | the loop with its error term D makes exactly the writes of the shallow point sequence |
| Raster.PlotLineHigh | Oscilloscope/Src/OscUtils.cs:75-100 | the loop makes exactly the writes of the steep point sequence |
| Raster.RectangleBorder | Oscilloscope/Src/OscUtils.cs:111-117 | the rectangle's four lines cover every pixel of its border |
| Raster.PlotRectangle | Oscilloscope/Src/OscUtils.cs:111-117 | makes the writes of left, bottom, top and right lines, in that order |
| MinMax.ScanPeriodic | VARP/OSC/Src/OscMinMax.cs:75-77 | scanning indices shifted by 1024 gives the same min and max, because addresses are masked |
| MinMax.MinOfBounds | VARP/OSC/Src/OscMinMax.cs:112-129 | one sample's fold does not raise min, ends at or below every component the format reads, and is the old min or one of them |
| MinMax.MaxOfBounds | VARP/OSC/Src/OscMinMax.cs:112-129 | one sample's fold does not lower max, ends at or above every read component, and is the old max or one of them |
| MinMax.ScanMinBounds | VARP/OSC/Src/OscMinMax.cs:73-84 | after scanning [smpStart, smpEnd] inclusive, min is at most every component read and never above its start |
| MinMax.ScanMaxBounds | Oscilloscope/Src/OscMinMax.cs:49-60 | after scanning, max is at least every component read and never below its start |
| MinMax.MaxAfterResetNonNegative | VARP/OSC/Src/OscMinMax.cs:44-50 | since Reset leaves max at 0, a scan after it never yields a negative max |
| MinMax.OscMinMax.constructor | Oscilloscope/Src/OscMinMax.cs:15-18 | the default struct: all fields zero |
| MinMax.OscMinMax.Min | VARP/OSC/Src/OscMinMax.cs:39 | reads 0 between a Reset and the next scan, else the accumulated min |
| MinMax.OscMinMax.Max | Oscilloscope/Src/OscMinMax.cs:16 | reads 0 between a Reset and the next scan, else the accumulated max |
| MinMax.OscMinMax.Mid | VARP/OSC/Src/OscMinMax.cs:42 | twice Mid is Max - Min: half the span, as written |
| MinMax.OscMinMax.Midpoint | VARP/OSC/Src/OscTrigger.cs:539 | the intended midpoint lies between Min and Max, and exceeds Mid by exactly Min |
| MinMax.MidMissesSignal | VARP/OSC/Src/OscMinMax.cs:42 | with extremes 2 and 4, Mid is 1, below the whole signal, while the midpoint is 3 |
| MinMax.OscMinMax.Reset | Oscilloscope/Src/OscMinMax.cs:20-26 | sets isZero, min to float.MaxValue and max to 0 (the second assignment wins), keeps p2p; Min, Max and Mid then read 0 |
| MinMax.OscMinMax.CalculateMinMax | VARP/OSC/Src/OscMinMax.cs:52-66 | clears isZero; min and max are the scans of the format's components over the inclusive masked range; p2p = max - min; the result is true iff p2p changed |
| MinMax.OscMinMax.Fold | VARP/OSC/Src/OscMinMax.cs:79-80 | strictly smaller replaces min, strictly greater replaces max |
| MinMax.OscMinMax.CalculateMinMaxFloat | Oscilloscope/Src/OscMinMax.cs:49-60 | the Float loop folds x only, and the result is true iff p2p changed |
| MinMax.OscMinMax.CalculateMinMaxVector2 | VARP/OSC/Src/OscMinMax.cs:91-105 | the Vector2 loop folds x and y into the shared min/max |
| MinMax.OscMinMax.CalculateMinMaxVector3 | Oscilloscope/Src/OscMinMax.cs:88-105 | the Vector3 loop folds x, y and z into the shared min/max |
| SampleProbe.OscProbe.constructor | Oscilloscope/Src/OscProbe.cs:144-151 | the field defaults: gain 1, no read callback, and the default trigger reader returning sample.x |
| SampleProbe.OscProbe.Null | Oscilloscope/Src/OscProbe.cs:157 | the static null probe, the only one IsNullProbe accepts |
| SampleProbe.OscProbe.GetSampleDecoupled | Oscilloscope/Src/OscProbe.cs:98-103 | dclevel = Lerp(dclevel, sampleIn, dt) and the result is sampleIn - dclevel; dt <= 0 keeps dclevel, dt >= 1 gives zero |
| SampleProbe.OscProbe.GetSample | Oscilloscope/Src/OscProbe.cs:105-109 | stores sampleIn into sample and returns it unchanged |
| SampleProbe.OscProbe.ReadTriggerSample | Oscilloscope/Src/OscProbe.cs:150 | the default trigger reader returns the x of the last sample GetSample returned |
| SampleProbe.OscProbe.SetGain | Oscilloscope/Src/OscProbe.cs:71-75 | stores the Gain-table entry nearest to the value; writes only the gain |
| SampleProbe.OscProbe.LogFloat | Oscilloscope/Src/OscProbe.cs:112 | writes sampleIn.x only; no other field of the probe changes |
| SampleProbe.OscProbe.LogInt | Oscilloscope/Src/OscProbe.cs:114 | writes the converted integer to sampleIn.x only; no other field of the probe changes |
| SampleProbe.OscProbe.LogBool | Oscilloscope/Src/OscProbe.cs:116 | writes 1 or 0 to sampleIn.x only; no other field of the probe changes |
| SampleProbe.OscProbe.LogVector2 | Oscilloscope/Src/OscProbe.cs:118-120 | writes x and y of sampleIn and keeps z; no other field of the probe changes |
| SampleProbe.OscProbe.LogVector3 | Oscilloscope/Src/OscProbe.cs:122-130 | writes all three components of sampleIn; no other field of the probe changes |
| SampleProbe.OscProbe.LogColor | Oscilloscope/Src/OscProbe.cs:132-136 | writes r, g, b into sampleIn x, y, z; no other field of the probe changes |
| SampleProbe.DecoupleHolds | Oscilloscope/Src/OscProbe.cs:98-103 | with dt = 0 the DC level stays and the output is the input less the old level |
| SampleProbe.DecoupleFull | Oscilloscope/Src/OscProbe.cs:98-103 | with dt = 1 the output is zero |
| SampleProbe.DecoupleTracks | Oscilloscope/Src/OscProbe.cs:98-103 | for every dt, each component of the new DC level lies between the old level and the input, and each component of the output between 0 and the input less the old level |
| Channel.GainTable | Oscilloscope/Src/OscUtils.cs:337 | the gain table as the channel uses it: 30 entries, 5000 down to 0.000001 |
| Channel.GainTableDescending | Oscilloscope/Src/OscUtils.cs:337 | the gain table is strictly descending and positive |
| Channel.GainStep | VARP/OSC/Src/OscChannel.cs:353-364 | stepping by index from the nearest entry stays in the table, saturating at both ends |
| Channel.GainStepMonotone | VARP/OSC/Src/OscChannel.cs:353-364 | GainPlus never increases a gain of the table and GainMinus never decreases it |
| Channel.GainStepInverse | Src/OscChannel.cs:374-385 | a step and the opposite step return to the start, except at the saturated ends |
| Channel.SnapOfMember | Src/OscChannel.cs:362-371 | a gain already in the table snaps to itself |
| Channel.OscProbe.constructor | VARP/OSC/Src/OscProbe.cs:152-160 | the field defaults, both delegates null, no channel attached |
| Channel.OscProbe.Null | VARP/OSC/Src/OscProbe.cs:166 | the static null probe, recognised by identity |
| Channel.OscProbe.SetGain | VARP/OSC/Src/OscProbe.cs:94-98 | stores the Gain-table entry nearest to the value, always a member; writes only the gain |
| Channel.OscProbe.LogFloat | VARP/OSC/Src/OscProbe.cs:120 | writes sample.x only |
| Channel.OscProbe.LogInt | VARP/OSC/Src/OscProbe.cs:122 | writes the converted integer to sample.x only |
| Channel.OscProbe.LogBool | VARP/OSC/Src/OscProbe.cs:124 | writes 1 or 0 to sample.x only |
| Channel.OscProbe.LogVector2 | VARP/OSC/Src/OscProbe.cs:126-128 | writes x and y and keeps z |
| Channel.OscProbe.LogVector3 | VARP/OSC/Src/OscProbe.cs:130-138 | writes all three components |
| Channel.OscProbe.LogColor | VARP/OSC/Src/OscProbe.cs:140-144 | writes r, g, b into x, y, z |
| Channel.OscProbe.Apply | VARP/OSC/Src/OscProbe.cs:108-111 | re-runs the plug handler of the attached channel only when there is one |
| Channel.OscChannel.constructor | VARP/OSC/Src/OscChannel.cs:333-338 | the field defaults before Initialize: unit gain and scale, no probe, no samples |
| Channel.OscChannel.Initialize | VARP/OSC/Src/OscChannel.cs:51-65 | allocates a buffer of the given size and plugs the probe |
| Channel.OscChannel.OnPlugHandle | VARP/OSC/Src/OscChannel.cs:92-115 | copies the probe's settings (gain through the Gain setter), isPlugged = !IsNullProbe, both texts marked, sample and dclevel zeroed, and the trigger re-reads the channel it watches |
| Channel.OscChannel.MarkPlugged | VARP/OSC/Src/OscChannel.cs:108-114 | the tail of OnPlugHandle: plugged flag, both dirty flags and zeroed samples |
| Channel.OscChannel.CopyAttenuator | VARP/OSC/Src/OscChannel.cs:97-102 | coupling, format, position, auto gain, auto divisions and style copied from the probe |
| Channel.OscChannel.CopyTriggerSettings | VARP/OSC/Src/OscChannel.cs:103-107 | trigger mode, edge, level and both delegates copied from the probe |
| Channel.OscChannel.Unplug | VARP/OSC/Src/OscChannel.cs:83-89 | a no-op without a probe; otherwise the probe forgets the channel and the null probe is plugged |
| Channel.OscChannel.Plug | Src/OscChannel.cs:99-104 | unplugs first when the probe is still shown elsewhere, then plugs the probe here |
| Channel.OscChannel.AcquireSample | VARP/OSC/Src/OscChannel.cs:132-149 | unplugged: nothing changes; plugged: only buffer[dmaWrIdx] is written, with the raw sample, or with sample - dclevel after dclevel = Lerp(dclevel, sample, dt) |
| Channel.OscChannel.AcquireTriggerSample | Src/OscChannel.cs:176-179 | 0 when unplugged, else the delegate's value, or sample.x when there is no delegate |
| Channel.OscChannel.OnTrigger | Src/OscChannel.cs:234-237 | only the min/max statistics restart |
| Channel.OscChannel.CalculateMinMax | VARP/OSC/Src/OscChannel.cs:215-218 | folds the channel's format-selected components over the range and reports a p2p change |
| Channel.OscChannel.ApplyAutoGain | Src/OscChannel.cs:246-250 | only when plugged with auto gain on, gain becomes the auto-fitting table entry; scale and everything else are unchanged |
| Channel.OscChannel.SetAt | VARP/OSC/Src/OscChannel.cs:292-296 | the raw indexer writes the unmasked index only |
| Channel.OscChannel.ReadersAgree | Src/OscChannel.cs:320-341 | GetFloat, GetVector2 and GetVector3 agree component-wise, agree with the raw indexer on in-range indices, and read the same at indices 1024 apart |
| Channel.OscChannel.StoredReadsBack | VARP/OSC/Src/OscChannel.cs:299-320 | a sample stored at address i reads back as value × scale + position at i and at every address a buffer length away |
| Channel.OscChannel.Clear | VARP/OSC/Src/OscChannel.cs:323-327 | as written: only element 0 is zeroed, the rest of the buffer is kept |
| Channel.OscChannel.ClearAll | Src/OscChannel.cs:344-348 | as intended: every element is zeroed |
| Channel.ClearKeepsTail | VARP/OSC/Src/OscChannel.cs:323-327 | a non-zero second sample survives the as-written Clear |
| Channel.OscChannel.SetGain | VARP/OSC/Src/OscChannel.cs:341-350 | gain is the nearest Gain-table entry and scale = 1 / gain |
| Channel.OscChannel.GainPlus | VARP/OSC/Src/OscChannel.cs:353-357 | one entry down the descending table, saturating at the smallest gain; the gain never grows; the config text is marked, the status mark, attenuator, trigger settings and connection are kept |
| Channel.OscChannel.GainMinus | Src/OscChannel.cs:381-385 | one entry up the table, saturating at the largest gain; the gain never shrinks; the config text is marked, the status mark, attenuator, trigger settings and connection are kept |
| Channel.OscChannel.SetScale | VARP/OSC/Src/OscChannel.cs:367-371 | goes through the Gain setter with 1 / value; the config text is marked, the status mark, attenuator, trigger settings and connection are kept |
| Channel.OscChannel.SetPosition | Src/OscChannel.cs:395-399 | stores the position and marks the config text; writes nothing else |
| Channel.OscChannel.SetDecoupling | VARP/OSC/Src/OscChannel.cs:381-385 | stores the coupling and marks the text |
| Channel.OscChannel.SetAutoGain | Src/OscChannel.cs:409-413 | stores the flag and marks the text |
| Channel.OscChannel.SetStyle | VARP/OSC/Src/OscChannel.cs:395-399 | stores the style and marks the text |
| Renderer.SegmentSetsEnd | VARP/OSC/Src/OscRenderer.cs:163-168 | each step sets its new point, in its own colour only |
| Renderer.PixelXClosed | VARP/OSC/Src/OscRenderer.cs:154-171 | the accumulated x of traced point k is pxStart + (k - 1) × pxPerSample |
| Renderer.Columns | VARP/OSC/Src/OscRenderer.cs:155-160 | one column per visited sample plus the one before smpBeg, at the rounded accumulated positions |
| Renderer.Samples | VARP/OSC/Src/OscRenderer.cs:156-161 | the traced samples are samples smpBeg - 1 .. smpEnd, in order |
| Renderer.SampleIsRead | VARP/OSC/Src/OscRenderer.cs:156-161 | the traced values are what GetFloat / GetVector2 / GetVector3 return |
| Renderer.RowsTrace | VARP/OSC/Src/OscRenderer.cs:156-161 | the rows computed up front are the rows the loop reads, sample by sample |
| Renderer.StepsVisit | VARP/OSC/Src/OscRenderer.cs:239-292 | a waveform sets the point of every sample after the first in each component's colour, and uses no other colour |
| Renderer.Levels | VARP/OSC/Src/OscRenderer.cs:322-327 | the logic levels are (int)(GetFloat(i) - position), truncated toward zero |
| Renderer.LevelsTrace | VARP/OSC/Src/OscRenderer.cs:322-327 | the levels computed up front are those the loop reads |
| Renderer.LogicStep | VARP/OSC/Src/OscRenderer.cs:328-354 | one loop pass: an equal non-final value coalesces; an equal final one draws rails to x2 - 1 and stops; a change draws rails to x2 - 2, the crossing and the stamp |
| Renderer.LogicStampsAreChanges | VARP/OSC/Src/OscRenderer.cs:344-351 | the logic plot stamps exactly one hex value per value change, the earlier value, at (x2 - 66, botY - 10) |
| Renderer.LogicConstant | VARP/OSC/Src/OscRenderer.cs:328-342 | a constant signal draws both rails from the first column to one before the last, and no text |
| Renderer.ColumnPart | VARP/OSC/Src/OscRenderer.cs:112-113 | a column's inner loop writes every row of that column |
| Renderer.ColumnsHit | VARP/OSC/Src/OscRenderer.cs:110-114 | columns x1..x2, once clamped, reach exactly the columns between the clamped ends |
| Renderer.ColumnsCleared | VARP/OSC/Src/OscRenderer.cs:107-115 | after ClearHorizFrame a pixel has the colour exactly when its column is within the clamped ends and x1 <= x2; other pixels keep their colour |
| Renderer.LabelRowPlacement | VARP/OSC/Src/OscRenderer.cs:370-385 | a label is drawn iff its row passes the inside test or clamping is on; a drawn row is within the test range, and '!' is appended exactly when the row was moved |
| Renderer.ClearColumn | VARP/OSC/Src/OscRenderer.cs:112-113 | the inner loop makes the writes of every row of column x |
| Renderer.OscRenderer.constructor | VARP/OSC/Src/OscRenderer.cs:44-50 | the renderer before Initialize: no settings, no texture |
| Renderer.OscRenderer.Initialize | VARP/OSC/Src/OscRenderer.cs:56-61 | stores the settings |
| Renderer.OscRenderer.Clear | VARP/OSC/Src/OscRenderer.cs:74-88 | re-creates the texture at the settings' size (and the clear colour) when missing or resized; then every pixel holds the clear buffer's colour |
| Renderer.OscRenderer.ClearColumns | VARP/OSC/Src/OscRenderer.cs:110-114 | the outer loop writes every row of every column x1..x2, column by column |
| Renderer.OscRenderer.ClearHorizFrame | VARP/OSC/Src/OscRenderer.cs:107-115 | every pixel of columns x1..x2 (clamped) gets the colour, nothing else changes, and nothing changes when x1 > x2 |
| Renderer.OscRenderer.PlotSegment | VARP/OSC/Src/OscRenderer.cs:163-168 | a PlotLine when \|dx\| > 1 or \|dy\| > 1, else the single new pixel |
| Renderer.OscRenderer.ReadRow | VARP/OSC/Src/OscRenderer.cs:156-161 | reads a sample's rows through the channel's getters |
| Renderer.OscRenderer.PlotStep | VARP/OSC/Src/OscRenderer.cs:239-292 | one step draws every component, x first, each in its own colour |
| Renderer.OscRenderer.TraceStep | VARP/OSC/Src/OscRenderer.cs:158-172 | one pass of the loop: column, rows, step and the next position |
| Renderer.OscRenderer.PlotTrace | VARP/OSC/Src/OscRenderer.cs:149-172 | the shared loop: from sample smpBeg - 1 at pxStart - pxPerSample to smpEnd, one step per sample, x advancing by pxPerSample |
| Renderer.OscRenderer.TraceFrom | VARP/OSC/Src/OscRenderer.cs:158-172 | the loop makes exactly the steps of all traced points |
| Renderer.OscRenderer.PlotFloat | VARP/OSC/Src/OscRenderer.cs:142-173 | exactly the steps of the x polyline over samples smpBeg - 1 .. smpEnd, in the given colour |
| Renderer.OscRenderer.PlotVector2 | VARP/OSC/Src/OscRenderer.cs:184-228 | the x and y polylines in colorX and colorY, sharing one x progression; the colour argument is unused |
| Renderer.OscRenderer.PlotVector3 | VARP/OSC/Src/OscRenderer.cs:239-292 | the x, y and z polylines in colorX, colorY and colorZ; the colour argument is unused |
| Renderer.OscRenderer.PlotChange | VARP/OSC/Src/OscRenderer.cs:345-349 | rails to x2 - 2, then the two crossing edges from x2 - 2 to x2 |
| Renderer.OscRenderer.ReadLevel | VARP/OSC/Src/OscRenderer.cs:327 | reads a sample's truncated level through GetFloat |
| Renderer.OscRenderer.LogicSample | VARP/OSC/Src/OscRenderer.cs:326-354 | one sample of the logic loop, against the LogicFrom specification |
| Renderer.OscRenderer.PlotLogic | VARP/OSC/Src/OscRenderer.cs:320-355 | the logic loop draws exactly the lines and stamps of LogicFrom |
| Renderer.OscRenderer.PlotFloatLogic | VARP/OSC/Src/OscRenderer.cs:303-356 | rails at round((position + Scale) × ppd + cy) and round(position × ppd + cy), run coalescing, crossings and hex stamps exactly as LogicFrom |
| Renderer.OscRenderer.PlotMarker | VARP/OSC/Src/OscRenderer.cs:387-388 | a horizontal tick 16 pixels long, then a vertical one 8 pixels up and down |
| Renderer.OscRenderer.DrawLabel | VARP/OSC/Src/OscRenderer.cs:368-398 | draws nothing for a row failing the inside test unless clamping is on, in which case the row is clamped and '!' is appended; the text goes above the marker if it fits |
| Renderer.OscRenderer.DrawHorizontalLine | VARP/OSC/Src/OscRenderer.cs:408-412 | one line from column 1 to width - 1 at the rounded row |
| Renderer.RenderChannel | VARP/OSC/Src/OscChannel.cs:172-205 | unplugged: nothing; plugged: min/max updated, status text marked on a p2p change, and the drawing chosen by style (Logic ignores the format) and format |
| Trigger.Fires | VARP/OSC/Src/OscTrigger.cs:290-321 | Auto always fires; Normal Rising iff prev <= level < curr; Normal Falling iff curr < level <= prev; Single the same but only with forceTrigger |
| Trigger.FallingMirrorsRising | VARP/OSC/Src/OscTrigger.cs:300-303 | a falling edge is a rising edge of the negated signal and level |
| Trigger.EdgeNeedsChange | VARP/OSC/Src/OscTrigger.cs:297-318 | a constant signal never fires an edge mode, and Single never fires without forceTrigger |
| Trigger.LevelBelowSignal | VARP/OSC/Src/OscTrigger.cs:297-304 | a level below both trigger samples is never crossed |
| Trigger.RedrawnWindow | VARP/OSC/Src/OscTrigger.cs:89-94 | the draw window is [trigger - before, trigger + after], drawing restarts at its left end, nothing else changes |
| Trigger.TriggeredAtSweep | VARP/OSC/Src/OscTrigger.cs:280-287 | dmaWriteTrggrd = dmaWrite; dmaWriteEnd = dmaDrawEnd = dmaWrite + after; dmaDraw = dmaDrawBeg = dmaWrite - before; forceTrigger cleared |
| Trigger.DrawRequestPlacement | VARP/OSC/Src/OscTrigger.cs:99-106 | the sample sampAtCenterRel before the trigger point lands on the texture centre, each later sample one step right |
| Trigger.TickAcquires | VARP/OSC/Src/OscTrigger.cs:272-277 | every tick but Stop first acquires exactly one sample, at the old dmaWrite, and shifts trigSample1 := trigSample2 |
| Trigger.StatusChangeMarks | VARP/OSC/Src/OscTrigger.cs:192-268 | a tick that changes the status marks both texts |
| Trigger.ArmedTick | VARP/OSC/Src/OscTrigger.cs:196-205 | dmaWrite and armingSamplesCount go up by one; Ready (with forceTrigger cleared) exactly when the count exceeds numSamplesBeforeTrigger |
| Trigger.ArmingCountMonotone | VARP/OSC/Src/OscTrigger.cs:199 | no tick lowers armingSamplesCount, and only Armed raises it |
| Trigger.ReadyTick | VARP/OSC/Src/OscTrigger.cs:206-213 | a firing pair starts a sweep at the new dmaWrite and goes to Triggered; otherwise only the acquisition happens |
| Trigger.SingleNeedsForce | VARP/OSC/Src/OscTrigger.cs:306-318 | in Single mode without forceTrigger, Ready stays Ready whatever the signal, and no tick sets forceTrigger |
| Trigger.InSweepTick | VARP/OSC/Src/OscTrigger.cs:238-243 | within a sweep a draw happens only when more than 3 samples wait, covers all of them, and leaves dmaDraw = dmaWrite - 1 |
| Trigger.SweepEndTick | VARP/OSC/Src/OscTrigger.cs:217-237 | past the end the rest is drawn, dmaWrite is masked into [0, 1023], and the status goes to Auto in Auto mode or to Ready otherwise |
| Trigger.AutoRestartTick | VARP/OSC/Src/OscTrigger.cs:248-256 | past the end dmaWrite is masked and a new sweep is triggered in place |
| Trigger.AutoWrapDrawsTail | VARP/OSC/Src/OscTrigger.cs:248-256 | drawing before masking, the final draw covers exactly the waiting samples |
| Trigger.AutoWrapDropsTail | VARP/OSC/Src/OscTrigger.cs:250-252 | as written, a sweep ending at 1030 with 1027..1030 waiting asks to draw 1027..6, an empty range |
| Trigger.EnterModeStatus | VARP/OSC/Src/OscTrigger.cs:560-580 | Auto triggers at dmaWrite and goes to Auto; Normal and Single go to Armed |
| Trigger.SingleModeWaitsForForce | VARP/OSC/Src/OscTrigger.cs:575-577 | after SetMode(Single) a Ready tick without ForceTrigger does not fire |
| Trigger.PauseStopsAcquisition | VARP/OSC/Src/OscTrigger.cs:583-587 | after pausing the next tick acquires nothing; after resuming it is an arming tick |
| Trigger.TimeTable | Oscilloscope/Src/OscUtils.cs:339 | the time table: 24 descending entries |
| Trigger.TimeStep | VARP/OSC/Src/OscTrigger.cs:466-477 | stepping the time scale by index stays in the table and saturates at its ends |
| Trigger.TimeStepMonotone | VARP/OSC/Src/OscTrigger.cs:466-477 | SecondsDivisionPlus never lengthens a time scale and SecondsDivisionMinus never shortens it |
| Trigger.TimeSnapOfMember | VARP/OSC/Src/OscTrigger.cs:456 | a time scale already in the table snaps to itself |
| Trigger.PlaceCounts | VARP/OSC/Src/OscTrigger.cs:506-507 | before + after == 2 × (int)halfScreen whatever the position, and a larger centre offset moves samples from after to before |
| Trigger.ClampedScaled | VARP/OSC/Src/OscTrigger.cs:498-503 | a clamped position, scaled to samples, stays within the room the bound was made from |
| Trigger.PlacedWithinRoom | VARP/OSC/Src/OscTrigger.cs:499-503 | the rounded centre offset is within half a sample of that room |
| Trigger.WindowFitsBuffer | VARP/OSC/Src/OscTrigger.cs:495-511 | with the time-scale setter's geometry and at most a buffer of samples on screen, both windows stay within half the ring |
| Trigger.OscTrigger.constructor | VARP/OSC/Src/OscTrigger.cs:600-618 | the field initialisers: one second per division, everything else zero, false or the first enum value |
| Trigger.OscTrigger.Initialize | VARP/OSC/Src/OscTrigger.cs:39-55 | paused, watching the channel, settings taken from it, both dirty flags cleared by RenderGUI |
| Trigger.OscTrigger.SetChannel | VARP/OSC/Src/OscTrigger.cs:62-66 | watches the channel and takes its trigger settings |
| Trigger.OscTrigger.OnPlugHandle | VARP/OSC/Src/OscTrigger.cs:76-82 | mode, edge and level re-read from the channel, both texts marked |
| Trigger.OscTrigger.Redraw | VARP/OSC/Src/OscTrigger.cs:89-94 | the draw window around the trigger point, drawing from its left end |
| Trigger.OscTrigger.RenderSamples | VARP/OSC/Src/OscTrigger.cs:99-106 | the draw request: pixStart = (smpStart - (trigger - centre offset)) × pixels per sample + centre column |
| Trigger.OscTrigger.AquireSampe | VARP/OSC/Src/OscTrigger.cs:272-277 | one Acquire at the old dmaWrite, dmaWrite + 1, trigger samples shifted |
| Trigger.OscTrigger.TriggerIt | VARP/OSC/Src/OscTrigger.cs:280-287 | the state after TriggerIt |
| Trigger.OscTrigger.UpdateTrigger | VARP/OSC/Src/OscTrigger.cs:192-270 | the new state and the effects are Step of the old state; RenderGUI then clears both dirty flags |
| Trigger.OscTrigger.Tick | VARP/OSC/Src/OscTrigger.cs:194-268 | the branch of the current status, equal to Step |
| Trigger.OscTrigger.RenderGUI | VARP/OSC/Src/OscTrigger.cs:119-133 | a text is rewritten exactly when marked, and both marks end cleared |
| Trigger.OscTrigger.TickArmed | VARP/OSC/Src/OscTrigger.cs:196-205 | the Armed branch equals StepArmed |
| Trigger.OscTrigger.CountArming | VARP/OSC/Src/OscTrigger.cs:199-204 | the arming count rises, and passes to Ready past numSamplesBeforeTrigger |
| Trigger.OscTrigger.TickReady | VARP/OSC/Src/OscTrigger.cs:206-213 | the Ready branch equals StepReady |
| Trigger.OscTrigger.TickTriggered | VARP/OSC/Src/OscTrigger.cs:214-244 | the Triggered branch equals StepTriggered |
| Trigger.OscTrigger.FinishSweep | VARP/OSC/Src/OscTrigger.cs:217-237 | the final draw, then the mask and the next status by mode |
| Trigger.OscTrigger.TickAuto | VARP/OSC/Src/OscTrigger.cs:245-263 | the Auto branch equals StepAuto |
| Trigger.OscTrigger.FinishAutoSweep | VARP/OSC/Src/OscTrigger.cs:248-256 | the mask, then the final draw, then a new sweep |
| Trigger.OscTrigger.DrawIfPending | VARP/OSC/Src/OscTrigger.cs:240-242 | draws only when more than 3 samples wait |
| Trigger.OscTrigger.TickStop | VARP/OSC/Src/OscTrigger.cs:264-267 | no acquisition, numSamplesBeforeTrigger = 0, both texts marked |
| Trigger.OscTrigger.SetPosition | VARP/OSC/Src/OscTrigger.cs:495-511 | position clamped to ±(512 - halfScreen) × divsPerSample, centre offset rounded, counts split around it, and a redraw |
| Trigger.OscTrigger.SetSecondsDivision | VARP/OSC/Src/OscTrigger.cs:454-462 | the time scale snaps to the table, the per-sample geometry is recomputed, and the position is applied again under it: placement, timeAtCenterRel = position × secondsDivision, the draw window, and both texts marked |
| Trigger.OscTrigger.SecondsDivisionPlus | VARP/OSC/Src/OscTrigger.cs:466-470 | one entry further down the time table, saturating and never longer; through the setter, the geometry is recomputed for it and the old position placed again with timeAtCenterRel, the draw window and both text marks |
| Trigger.OscTrigger.SecondsDivisionMinus | VARP/OSC/Src/OscTrigger.cs:473-477 | one entry back up the time table, saturating and never shorter; through the setter, the geometry is recomputed for it and the old position placed again with timeAtCenterRel, the draw window and both text marks |
| Trigger.OscTrigger.SetLevel | VARP/OSC/Src/OscTrigger.cs:520-527 | stores the level and marks both texts |
| Trigger.OscTrigger.SetEdge | VARP/OSC/Src/OscTrigger.cs:532-536 | stores the edge and marks both texts |
| Trigger.OscTrigger.AutoSetLevel | VARP/OSC/Src/OscTrigger.cs:541-544 | as written: twice the level is Max - Min of the watched channel |
| Trigger.OscTrigger.AutoSetLevelMidpoint | VARP/OSC/Src/OscTrigger.cs:538-544 | as documented: the level is the midpoint, between Min and Max |
| Trigger.OscTrigger.SetMode | VARP/OSC/Src/OscTrigger.cs:560-580 | pause set, mode stored, and the state entered as EnterMode says |
| Trigger.OscTrigger.SetPause | VARP/OSC/Src/OscTrigger.cs:583-587 | status Stop when pausing, Armed when resuming |
| Trigger.OscTrigger.ForceTrigger | VARP/OSC/Src/OscTrigger.cs:590-594 | sets forceTrigger only in Single mode |
| Scope.ChannelIndexWraps | VARP/OSC/Src/Oscilloscope.cs:130-133 | the index is always valid, is the name's number below the count, and wraps beyond it |
| Scope.ChannelsStrokes | VARP/OSC/Src/Oscilloscope.cs:173-177 | unplugged channels contribute nothing |
| Scope.ChannelsStrokesSnoc | VARP/OSC/Src/Oscilloscope.cs:173-177 | one more channel appends its strokes and stamps after the earlier ones |
| Scope.LastReader | VARP/OSC/Src/Oscilloscope.cs:147-149 | the last channel before k that reads probe p, or -1: it reads p, and no channel between it and k does |
| Scope.SampleAfterStep | VARP/OSC/Src/Oscilloscope.cs:147-149 | after one more turn a probe holds that turn's read when the channel reads it, and otherwise what it held |
| Scope.ReadInTurnStep | VARP/OSC/Src/Oscilloscope.cs:147-149 | a channel that reads what the earlier readers of its probe left keeps every read in turn |
| Scope.UnsharedProbeSeesStart | VARP/OSC/Src/Oscilloscope.cs:147-149 | a channel whose probe no earlier channel reads sees the probe's sample from before the acquisition |
| Scope.SharedProbeReadsInTurn | VARP/OSC/Src/Oscilloscope.cs:147-149 | of two channels reading one probe with no reader between them, the later one sees what the earlier one's read left |
| Scope.Oscilloscope.constructor | VARP/OSC/Src/Oscilloscope.cs:60 | the component as wired in the scene, not yet initialized |
| Scope.Oscilloscope.Initialize | VARP/OSC/Src/Oscilloscope.cs:91-115 | a second call changes nothing; the first sets up settings, grid and renderer, binds channels 0-3 to the null probe with full buffers, and attaches the trigger to channel 1; the GUI counts the same channels as the array |
| Scope.Oscilloscope.SetUpScreen | VARP/OSC/Src/Oscilloscope.cs:96-104 | settings get the time step; grid and renderer get the settings; the texture is cleared to black |
| Scope.Oscilloscope.SetUpChannels | VARP/OSC/Src/Oscilloscope.cs:106-112 | channels 0, 1, 2, 3 and then 0 again get the null probe and a full buffer |
| Scope.Oscilloscope.InitChannel | VARP/OSC/Src/Oscilloscope.cs:106 | one channel initialized with the null probe and a fresh full-size buffer |
| Scope.Oscilloscope.UpdateChannelSettings | VARP/OSC/Src/Oscilloscope.cs:123-127 | every channel re-reads its probe, and the trigger re-reads its channel |
| Scope.Oscilloscope.ReplugChannel | VARP/OSC/Src/Oscilloscope.cs:126 | one channel re-reads its probe; the trigger follows only when it watches that channel; the other channels are untouched |
| Scope.Oscilloscope.GetChannel | VARP/OSC/Src/Oscilloscope.cs:130-133 | returns channels[name % Length] |
| Scope.Oscilloscope.AquireSampe | VARP/OSC/Src/Oscilloscope.cs:143-150 | every channel acquires, in channel order, at address dmaWrite & 1023 with dt = timePerSample: a plugged channel stores into that slot what its read of its probe gives, decoupled or not; an unplugged one is untouched; a probe held by several channels is read by each in turn from what the previous read left (ReadInTurn), and ends holding the last read (ProbesAt) |
| Scope.Oscilloscope.AcquireAll | VARP/OSC/Src/Oscilloscope.cs:147-149 | after the loop over all channels every channel has acquired from the sample its probe held at its turn, and every probe holds its last reader's read |
| Scope.Oscilloscope.AcquireTurn | VARP/OSC/Src/Oscilloscope.cs:148-149 | channel i acquires from its probe as the channels before it left it; the channels before it stay acquired and those after it untouched |
| Scope.Oscilloscope.AcquireOne | VARP/OSC/Src/Oscilloscope.cs:149 | one channel's acquisition from the sample its probe holds; the probe then holds the channel's read, and an unplugged channel leaves it alone |
| Scope.Oscilloscope.OnTrigger | VARP/OSC/Src/Oscilloscope.cs:152-157 | every channel restarts its min/max |
| Scope.Oscilloscope.Render | VARP/OSC/Src/Oscilloscope.cs:166-179 | clears columns round(pixStart)..round(pixStart + (smpEnd - smpStart) × pixPerSample), then every channel draws over them in array order with identical arguments; every plugged channel folds min and max over samples smpStart..smpEnd from its values before, sets p2p = max - min, and marks its status text when p2p changed; an unplugged channel keeps its statistics and mark |
| Scope.Oscilloscope.ClearBand | VARP/OSC/Src/Oscilloscope.cs:169-172 | the column band cleared in the background colour |
| Scope.Oscilloscope.RenderChannels | VARP/OSC/Src/Oscilloscope.cs:173-177 | the loop draws every channel's strokes in order, and every channel measures its samples from the statistics it had before the loop |
| Scope.Oscilloscope.RenderTurn | VARP/OSC/Src/Oscilloscope.cs:175-176 | channel i draws after the channels before it and measures its samples; the channels before it stay measured and those after it keep their statistics |
| Scope.Oscilloscope.RenderStep | VARP/OSC/Src/Oscilloscope.cs:175-176 | channel i draws after the channels before it and measures its samples from its own statistics; every other channel and its statistics are untouched |
| Scope.Oscilloscope.DrawOver | VARP/OSC/Src/Oscilloscope.cs:176 | a channel's Render over the current texture: its strokes and stamps, min and max folded over samples smpStart..smpEnd, p2p = max - min, and the status text marked when p2p changed |
| Scope.Oscilloscope.Perform | VARP/OSC/Src/Oscilloscope.cs:143-179 | an Acquire effect acquires every channel in turn as AquireSampe states and draws nothing; a Draw effect draws and measures every channel as Render states |
| Grid.HLineHas | VARP/OSC/Src/OscGrid.cs:203-219 | the horizontal dotted line holds exactly the on-row points a whole number of steps from x |
| Grid.VLineHas | VARP/OSC/Src/OscGrid.cs:228-243 | the vertical dotted line holds exactly the on-column points a whole number of steps from y |
| Grid.HLinePixels | VARP/OSC/Src/OscGrid.cs:203-219 | the horizontal dotted line colours exactly those pixels and leaves the others |
| Grid.VLinePixels | VARP/OSC/Src/OscGrid.cs:228-243 | the vertical dotted line colours exactly those pixels and leaves the others |
| Grid.FrameAlwaysDrawn | VARP/OSC/Src/OscGrid.cs:189 | whatever the flags, every border pixel ends in the grid colour |
| Grid.CentreColumnDrawn | VARP/OSC/Src/OscGrid.cs:160-161 | with drawGrid, the centre column is dotted at every subdivision from the centre row |
| Grid.CentreRowDrawn | VARP/OSC/Src/OscGrid.cs:164-165 | with drawGrid, the centre row is dotted at every subdivision from the centre column |
| Grid.PlotDotedLineHorizontal | VARP/OSC/Src/OscGrid.cs:203-219 | the two loops make exactly the writes of the dots right of x, then left of x |
| Grid.PlotDotedLineVertical | VARP/OSC/Src/OscGrid.cs:228-243 | the two loops make exactly the writes of the dots above y, then below y |
| Grid.StalledDotsNeverEnd | VARP/OSC/Src/OscGrid.cs:206-211 | with a step of zero or less, the position of the `ix += step` loop is still below the width after any number of passes: the loop never ends |
| Grid.DenseSubdivisionsStall | VARP/OSC/Src/OscSettings.cs:75 | with more subdivisions than pixels per division the dot step truncates to 0, and a dotted line starting on screen never ends |
| Grid.PlotColumnsRight | VARP/OSC/Src/OscGrid.cs:160-161 | vertical dotted lines at xcenter + k × pxDiv below the width |
| Grid.PlotColumnsLeft | VARP/OSC/Src/OscGrid.cs:162-163 | vertical dotted lines at xcenter - k × pxDiv down to 0 |
| Grid.PlotRowsUp | VARP/OSC/Src/OscGrid.cs:164-165 | horizontal dotted lines at ycenter + k × pxDiv below the height |
| Grid.PlotRowsDown | VARP/OSC/Src/OscGrid.cs:166-167 | horizontal dotted lines at ycenter - k × pxDiv down to 0 |
| Grid.PlotMainGrid | VARP/OSC/Src/OscGrid.cs:157-168 | the four loops of the main grid in order |
| Grid.PlotRulerX | VARP/OSC/Src/OscGrid.cs:170-177 | dotted rows at ycenter + 2, + 1, - 1, - 2 |
| Grid.PlotRulerY | VARP/OSC/Src/OscGrid.cs:179-186 | dotted columns at xcenter + 2, + 1, - 1, - 2 |
| Grid.PlotFrame | VARP/OSC/Src/OscGrid.cs:189 | the rectangle (0, 0)-(w - 1, h - 1) |
| Grid.PlotGridOn | VARP/OSC/Src/OscGrid.cs:148-190 | the writes of the flagged lines, then the frame |
| Grid.LayoutOf | VARP/OSC/Src/OscGrid.cs:150-155 | the geometry PlotGrid reads from the settings |
| Grid.OscGrid.constructor | VARP/OSC/Src/OscGrid.cs:36-42 | the colours, no settings, no texture, no redraw pending |
| Grid.OscGrid.Switches | VARP/OSC/Src/OscGrid.cs:73-92 | the three flags as PlotGrid reads them |
| Grid.OscGrid.Initialize | VARP/OSC/Src/OscGrid.cs:52-60 | takes the settings and their flags, and asks for a redraw |
| Grid.OscGrid.SetDrawGrid | VARP/OSC/Src/OscGrid.cs:74-78 | stores the flag and sets redraw, even for the same value |
| Grid.OscGrid.SetDrawRulerX | VARP/OSC/Src/OscGrid.cs:81-85 | stores the flag and sets redraw |
| Grid.OscGrid.SetDrawRulerY | VARP/OSC/Src/OscGrid.cs:88-92 | stores the flag and sets redraw |
| Grid.OscGrid.Clear | VARP/OSC/Src/OscGrid.cs:100-115 | re-creates the texture when missing or resized; every pixel then holds the clear buffer's colour |
| Grid.OscGrid.Apply | VARP/OSC/Src/OscGrid.cs:133-138 | the screen image shows the texture |
| Grid.OscGrid.PlotGrid | VARP/OSC/Src/OscGrid.cs:148-190 | the writes of GridPoints for the current flags and settings |
| Grid.OscGrid.Update | VARP/OSC/Src/OscGrid.cs:62-71 | with redraw pending: cleared, grid drawn, shown, border in the grid colour, redraw cleared; otherwise nothing changes |
| Grid.OscGrid.BorderInGridColour | VARP/OSC/Src/OscGrid.cs:189 | after a redraw the border is in the grid colour |
| LabelPool.Pop | VARP/OSC/Src/OscLabelManager.cs:30-44 | None exactly on an empty pool, else the last label and the rest |
| LabelPool.Push | VARP/OSC/Src/OscLabelManager.cs:46-51 | the label ends up in the pool, appended only if absent |
| LabelPool.PushDistinct | Src/OscLabelManager.cs:64-69 | Release keeps the pool free of duplicates |
| LabelPool.PopDistinct | Src/OscLabelManager.cs:58-61 | SpawnLabel keeps the pool free of duplicates, and the spawned label is no longer in it |
| LabelPool.ReleaseThenSpawn | VARP/OSC/Src/OscLabelManager.cs:38-50 | releasing a label that was not free and then spawning returns that label and restores the pool |
| LabelPool.SpawnThenRelease | Src/OscLabelManager.cs:58-68 | spawning and releasing the spawned label restores the pool |
| LabelPool.OscLabelManager.constructor | Src/OscLabelManager.cs:32-35 | the template and the count, no pool yet |
| LabelPool.OscLabelManager.OnEnable | VARP/OSC/Src/OscLabelManager.cs:14-28 | the template plus labelsNumber - 1 fresh clones, all hidden and distinct; a negative capacity fails and changes nothing |
| LabelPool.OscLabelManager.SpawnLabel | Src/OscLabelManager.cs:53-62 | pops the last label (LIFO), or fails on an empty pool leaving it unchanged |
| LabelPool.OscLabelManager.Release | VARP/OSC/Src/OscLabelManager.cs:46-51 | hides the label and adds it unless it is already free |
| GuiManager.IndexOf | Src/OscGuiManager.cs:361 | `Array.IndexOf`: the first index holding the value, or -1 exactly when absent |
| GuiManager.NextEnum | Src/OscGuiManager.cs:355-363 | the next declared value, always one of them |
| GuiManager.PrevEnum | Src/OscGuiManager.cs:365-373 | the previous declared value, always one of them |
| GuiManager.NextEnumIndex | Src/OscGuiManager.cs:355-373 | next moves one place along the declaration order, wrapping last to first; prev wraps first to last |
| GuiManager.NextPrevInverse | Src/OscGuiManager.cs:355-373 | next(prev(v)) == v and prev(next(v)) == v |
| GuiManager.NextTimesIndex | Src/OscGuiManager.cs:355-363 | k steps land k places further, wrapping once |
| GuiManager.NextCycle | Src/OscGuiManager.cs:355-363 | Length steps return every value to itself |
| GuiManager.TriggerModeCycle | Src/OscGuiManager.cs:172 | the mode key cycles Auto → Normal → Single → Auto |
| GuiManager.ToggleCycles | Src/OscGuiManager.cs:174 | the edge key and the view key toggle between their two values |
| GuiManager.GridBits | Src/OscGuiManager.cs:176-181 | drawGrid is bit 0 and both rulers are bit 1 of the counter |
| GuiManager.GridBitsPeriod | Src/OscGuiManager.cs:176-181 | four presses restore the flags |
| GuiManager.GridBitsSequence | Src/OscGuiManager.cs:176-181 | from 0 the presses show grid, rulers, both, nothing |
| GuiManager.GlobalKey | Src/OscGuiManager.cs:165-181 | at most one trigger or grid command, pause first, then force start, mode, edge, grid |
| GuiManager.TriggerKeys | Src/OscGuiManager.cs:187-198 | with no channel selected the cursor keys address the trigger only: level, position or time scale |
| GuiManager.ChannelKeys | Src/OscGuiManager.cs:207-224 | with a channel selected, one setting key and one cursor or gain key, all for that channel |
| GuiManager.HelpText | Src/OscGuiManager.cs:281-312 | the unfocused help, or a page ending with the persistent help |
| GuiManager.Selection | Src/OscGuiManager.cs:143-161 | the select-trigger key clears the selection; unshifted digits select a channel; otherwise it is kept |
| GuiManager.TargetKeys | Src/OscGuiManager.cs:184-225 | the cursor keys go to the trigger when nothing is selected, else to the selected channel |
| GuiManager.AnyDigit | Src/OscGuiManager.cs:150-152 | whether any digit key is down |
| GuiManager.SourceCommands | Src/OscGuiManager.cs:154-156 | each shifted digit makes its channel the trigger's source |
| GuiManager.LastDigit | Src/OscGuiManager.cs:157-159 | the highest pressed unshifted digit wins, wrapped over the channel count |
| GuiManager.OscGuiManager.constructor | Src/OscGuiManager.cs:108 | hidden, unfocused, grid setting 0, nothing selected |
| GuiManager.OscGuiManager.Initialize | Src/OscGuiManager.cs:110-121 | selects C1, asks for a help refresh, then hides the oscilloscope |
| GuiManager.OscGuiManager.SetVisible | Src/OscGuiManager.cs:243-252 | the canvas and the focus both take the value, and help is requested |
| GuiManager.OscGuiManager.SetInFocus | Src/OscGuiManager.cs:264-272 | the keyboard icon and the focus take the value, and help is requested |
| GuiManager.OscGuiManager.SelectChannel | Src/OscGuiManager.cs:329-337 | selects channels[name % count] and lights only its LED |
| GuiManager.OscGuiManager.SelectTriggerChannel | Src/OscGuiManager.cs:340-347 | no channel selected, only the trigger's LED lit |
| GuiManager.OscGuiManager.UpdateHelp | Src/OscGuiManager.cs:281-312 | clears the request; a visible oscilloscope shows the page for its focus and selection |
| GuiManager.OscGuiManager.DigitKeys | Src/OscGuiManager.cs:149-161 | shifted digits set trigger sources; unshifted ones select, the last pressed staying selected |
| GuiManager.OscGuiManager.Route | Src/OscGuiManager.cs:140-226 | selection keys, then one global key, then the cursor keys for the trigger or the selected channel; the grid counter steps on a routed grid key; a help refresh is requested by a selection |
| GuiManager.OscGuiManager.Update | Src/OscGuiManager.cs:124-237 | hidden + main: shown and focused; visible, focused + main: hidden; visible, unfocused + main: focused; otherwise the keys are routed when focused; the grid counter steps only on a routed grid key; the main key keeps the selection and LEDs; the help page ends as the one for the new visibility, focus and selection when a refresh was pending or requested, else unchanged; the keyboard icon changes only when the main key focuses a visible oscilloscope |
| GuiManager.OscGuiManager.Keyboard | Src/OscGuiManager.cs:127-233 | Update up to the help refresh: the main-key toggle or the routed keys; the grid counter steps only on a routed grid key; the main key keeps the selection and LEDs; a refresh is left pending exactly when one was, the main key was pressed or a focused selection key was; the keyboard icon changes only when the main key focuses a visible oscilloscope |

## Left out

- Settings.OscSettings.Initialize: requires `subdivisions != 0`; the source's integer division would throw `DivideByZeroException` there.
- Quantizer.OscValue.GetValue: requires that some entry be within float range of the value (`Reaches`); otherwise `bestIndex` stays -1 and the source throws `IndexOutOfRangeException`.
- SampleProbe.OscProbe.SetGain: requires `Reaches` on the Gain table, for the same reason as GetValue; a value out of float range of every entry makes the source throw `IndexOutOfRangeException`.
- Channel.OscProbe.SetGain: requires `Reaches` on the Gain table; otherwise the source throws `IndexOutOfRangeException` in GetValue.
- Channel.OscChannel.SetGain: requires `Reaches` on the Gain table; otherwise the source throws `IndexOutOfRangeException` in GetValue.
- Trigger.OscTrigger.SetSecondsDivision: requires `Reaches` on the Time table; otherwise the source throws `IndexOutOfRangeException` in GetValue.
- Channel.OscChannel.SetScale: requires `value != 0`; the source computes `1/0`.
- Trigger.OscTrigger.SetSecondsDivision: requires `timePerSample > 0`; the source's float division by zero yields Infinity.
- Channel.OscChannel.AcquireSample: requires the index to be within the buffer when plugged; the source would throw `IndexOutOfRangeException`.
- Trigger.OscTrigger.UpdateTrigger: takes this tick's trigger sample as a parameter. The source invokes `channel.probe.readTriggerSample`, which throws on a null delegate, and in the VARP tree the delegate's signature differs from the call.
- Trigger.OscTrigger.RenderGUI: only the clearing of the two dirty flags is modelled. The texts, the status icons, the time labels and the debug text are string formatting.
- Channel.OscChannel.OnPlugHandle: leaves out `ClearLabels`, `renderLabels`, the label visibility and the LEDs, which are UI glue.
- Counters and casts: `int` is unbounded. C# `int` overflow of `dmaWrite`, which grows without bound while Armed or Ready, and overflow of the `(int)` casts of floats are not modelled.
- Numerics.RoundToInt: given a banker's-rounding body so that `Mathf.RoundToInt` has a definition. IEEE float rounding of the arguments is not modelled; floats are `real`.
- Renderer: `OscFont.DrawText` is not part of this model. A text is a `Stamp` event (glyphs and position), not pixels. `OnBeforeRenderer`'s heartbeat reads the clock and is left out.
- Raster.SetPixel: Unity's clamping of out-of-range coordinates is modelled; texture creation, `Apply`, `Destroy` and `Instantiate` are not.
- Grid.PlotDotedLineHorizontal: requires a positive step. The source loops for ever with a step of 0, which a grid with more subdivisions than pixels per division produces (see "Findings"); that hang is not modelled.
- Grid.PlotDotedLineVertical: requires a positive step, for the same reason.
- Grid.OscGrid.PlotGrid: requires `Drawable`, positive steps for the lines it draws, for the same reason.
- Grid.OscGrid.Update: requires `Drawable` when a redraw is pending, for the same reason. It also requires a texture size of at least 1×1 then, for the reason given at Grid.OscGrid.Clear.
- Renderer.OscRenderer.Clear: requires a texture size of at least 1×1. The source hands any size to `new Texture2D(w, h)`. Unity refuses a zero or negative size or builds a texture without pixels; which one happens depends on Unity, which is not part of this model, and so does what the source does next. The model's textures are arrays with at least one pixel, because SetPixel clamps coordinates into the texture.
- Grid.OscGrid.Clear: requires a texture size of at least 1×1, for the same reason as Renderer.OscRenderer.Clear.
- Scope.Oscilloscope.SetUpScreen: requires `pixelsPerDivision`, `divisionsX` and `divisionsY` of at least 1. These make the texture size at least 1×1, which Renderer.OscRenderer.Clear requires. The source accepts any inspector values.
- Scope.Oscilloscope.Initialize: requires `pixelsPerDivision`, `divisionsX` and `divisionsY` of at least 1, as SetUpScreen does.
- Scope: the `LateFixedUpdateCo` coroutine, `Update` and `RenderGUI` are scheduling and text. `Scope.Oscilloscope.Perform` states what each tick effect does instead.
- GuiManager: `Input.GetKeyDown` is a `Keys` record of booleans. The commands a key press issues are returned as a list rather than executed on the trigger and the channels.
- LabelPool.OscLabelManager.OnEnable: `Instantiate` is a fresh `Label`. Transform parenting and scale are not modelled.
- `OscFormatter`, `OscChannelLabel`, `OscCursorLabel`, `OscLed`, the demo scene and the sine and square probes are not part of this model; they are text formatting, thin Unity wrappers and demo signals.
- The cross-tree inconsistencies are not linked; each file's own logic is modelled:
  - the VARP probe delegate's signature;
  - `Src/OscChannel.cs`'s call to `RequestRedraw`;
  - `Oscilloscope.OnTrigger` relying on the `Src` channel.
- Channel.OscChannel.Render: the two source copies differ only in `BeforeRender` versus `OnTrigger`. Both are modelled by Channel.OscChannel.OnTrigger, and the render dispatch by Renderer.RenderChannel.

## Findings

| source | as written | input that shows it | evidently intended | confidence | as-written member | corrected member |
|---|---|---|---|---|---|---|
| VARP/OSC/Src/OscChannel.cs:323-327 | the loop writes `buffer[0]` on every pass, so only element 0 is cleared | any full buffer whose element 1 is non-zero keeps it | every element zeroed (`buffer[i]`) | high, not executed | Channel.ClearKeepsTail | Channel.OscChannel.ClearAll |
| VARP/OSC/Src/OscTrigger.cs:250-252 | the Auto tick masks `dmaWrite` before its final draw, unlike the Triggered tick (lines 220-221) | dmaDraw 1027, dmaWrite 1030 at the end of a sweep: the draw asks for samples 1027..6, an empty range | draw first, then mask | high, not executed | Trigger.AutoWrapDropsTail | Trigger.AutoWrapDrawsTail |
| VARP/OSC/Src/OscMinMax.cs:42 | `Mid` is `(Max - Min) / 2`, and `AutoSetLevel` (OscTrigger.cs:541-544) uses it as "the vertical midpoint between the peaks" | Min 2, Max 4: level 1, below the whole signal, so no edge ever fires | `(Max + Min) / 2` | medium, not executed | MinMax.MidMissesSignal | Trigger.OscTrigger.AutoSetLevelMidpoint |
| VARP/OSC/Src/OscSettings.cs:75 | `pixelsPerSubdivision = pixelsPerDivision / subdivisions` truncates to 0 when there are more subdivisions than pixels per division; the dotted-line loops of OscGrid.cs:206-217 then never advance | pixelsPerDivision 50 with subdivisions 60: the step is 0 and `PlotDotedLineHorizontal` never returns | a dot step of at least one pixel | medium, not executed | Grid.DenseSubdivisionsStall | Grid.PlotDotedLineHorizontal |
