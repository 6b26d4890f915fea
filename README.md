# Radial services chart: a verified model

`initializeRadialChart` in `script.js` draws a list of services as a radial chart.
Each service gets one wedge around a central logo. A wedge's length comes from a
length factor, and its colour is drawn from two brand palettes. Each wedge carries a
marker and a boxed, word-wrapped label joined to the marker by a dotted curve.
Hovering a wedge raises it, shrinks the others, and shows the service's description
in a panel beside the chart.

This project models the deterministic core of that function and proves properties
of the model. It covers six modules, one file each:

| file | module | models |
|---|---|---|
| `length_factors.dfy` | `LengthFactors` | spacing, jitter, clamp, sort and low/high interleave of the length factors |
| `colours.dfy` | `ColourAssignment` | drawing one colour per wedge from the primary pool, then the secondary pool, then a refill |
| `word_wrap.dfy` | `WordWrap` | `splitTextIntoLines`: splitting at whitespace, greedy packing, hard split of over-long words |
| `label_layout.dfy` | `LabelLayout` | text anchor, shared box width, box height and position, tspan `dy` offsets |
| `wedge_geometry.dfy` | `WedgeGeometry` | wedge angles, the large-arc flag, the original, shrunk, hover and label radii |
| `hover.dfy` | `Hover` | class `RadialChart`: per-wedge animation targets on mouse enter and leave, the description panel and its hide timer |

Inputs replace the non-deterministic and measured parts:

- Every `Math.random()` result is a parameter `roll` with `0 <= roll < 1`. An index picked from a list of length n is `Floor(roll * n)`.
- Text measurements (`getBBox` widths and heights) are parameters.
- Points and path strings computed with sine and cosine are kept as the arguments they are computed from. A path is `Path(radius, startAngle, endAngle)`, the input of `calculatePathData`. A point is `Polar(radius, angle)`, the input of `polarToCartesian`. Equal arguments draw the same thing, so "restored exactly" is equality of these values.
- Numbers are exact reals. Integers are unbounded.

Behaviour of the code that the model keeps:

- **Refill.** When both pools are empty, the code (script.js:354-379) refills only the primary pool, leaving out the last colour. It touches the secondary pool only when that leaves no primary colour. Then the primary pool stays empty and the secondary pool is refilled without the last colour. `ColourAssignment.Refill` models this.
- **Inactive labels.** While another wedge is hovered, the labels of the other wedges get opacity 0, not a partial fade (script.js:1039). So do their connecting lines (script.js:1017). `Hover.Lowered` has both at 0.
- **Panel angle.** The panel's side is decided from `start + (end - start) / 2` (script.js:860-862). The end angle includes the 0.05° overlap, so this angle is 0.025° past the label's mid angle. `Hover.PanelAngle` keeps this.
- **Hover radius.** The hovered wedge is drawn out to `inner + space * hoverMaxLengthFactor` (script.js:129). It does not depend on the wedge's own length factor. `WedgeGeometry.HoverRadius` computes the same.
- **Wedge scale.** `handleMouseEnter` computes a `targetScale` for the wedge group but never animates it (script.js:950-958). The model has no wedge scale.

## Model

| member | source | states |
|---|---|---|
| LengthFactors.Clamp | script.js:277 | the clamped factor lies in [min, max] when min <= max, and a value already inside is unchanged |
| LengthFactors.SpacedIsProduct | script.js:271-274 | the repeated-step form of factor i equals `min + i * step` |
| LengthFactors.StepSpansRange | script.js:271 | `Step`, the spacing of line 271: with two or more services, (n - 1) steps span exactly max - min; the step is non-negative (positive) when min <= max (min < max) |
| LengthFactors.SpacedTop | script.js:271-274 | the last evenly spaced factor is exactly maxLengthFactor |
| LengthFactors.SpacedGap | script.js:271-274 | spaced factors i < j differ by at least one step |
| LengthFactors.JitterBounds | script.js:277 | `Jitter`, the random offset of line 277: it moves a factor by at most 5 % of the step, and by strictly less upward |
| LengthFactors.ClampMonotone | script.js:277 | clamping preserves order |
| LengthFactors.ClampedOrder | script.js:276-279 | two values a step apart keep their order after jitter and clamp, strictly when the step is positive |
| LengthFactors.PairOrdered | script.js:271-279 | factors i < j keep their order through jitter and clamp, strictly when min < max |
| LengthFactors.JitteredSorted | script.js:271-283 | `Jittered`, the factors after the loop of lines 272-280, is already ascending, so the sort does not reorder it |
| LengthFactors.JitteredStrictlySorted | script.js:271-283 | with min < max the jittered factors are strictly ascending, hence pairwise distinct |
| LengthFactors.Insert | script.js:283 | inserting into a sorted list gives a sorted list with one more copy of the value |
| LengthFactors.SortAscending | script.js:283 | `sort((a, b) => a - b)`: an ascending permutation of its input |
| LengthFactors.SortOfSorted | script.js:283 | sorting an ascending list returns it unchanged |
| LengthFactors.Zigzag | script.js:284-290 | the interleaving has the input's length |
| LengthFactors.ZigzagAt | script.js:285-289 | output k is sorted[k/2] for even k and sorted[n-1-(k-1)/2] for odd k |
| LengthFactors.ZigzagSourceShift | script.js:285-289 | dropping both ends of the list shifts every later source position by one |
| LengthFactors.ZigzagPermutation | script.js:283-290 | the interleaving is a permutation of its input |
| LengthFactors.ZigzagAlternates | script.js:283-290 | from sorted input the result alternates f[0] <= f[1] >= f[2] <= ... |
| LengthFactors.ZigzagStrictlyAlternates | script.js:283-290 | from strictly sorted input the alternation is strict |
| LengthFactors.Interleave | script.js:284-290 | the loop with `left`/`right` cursors computes exactly the interleaving |
| LengthFactors.DistributeLengthFactors | script.js:269-292 | n factors, a permutation of the jittered factors, each in [min, max], alternating low/high, strictly so when min < max |
| ColourAssignment.Without | script.js:312 | `filter(c => c !== last)`: exactly the pool's colours other than the last one, no copies added; the same filter is at lines 335, 358 and 362 |
| ColourAssignment.PickIndex | script.js:316 | `Math.floor(Math.random() * length)` is a valid index; the same draw is at lines 320, 339, 343, 365 and 375 |
| ColourAssignment.IndexOf | script.js:325 | `indexOf` finds the first position holding the colour; also line 348 |
| ColourAssignment.RemoveAt | script.js:327 | `splice(k, 1)` removes exactly that one element; also lines 350, 367 and 377 |
| ColourAssignment.DistinctParts | script.js:226 | the code makes the palettes disjoint: the secondary palette is every colour that is not primary (`!primaryColors.includes`); the lemma shows that two palettes whose concatenation has no repeats are each repeat-free and disjoint, which is how the pool invariant uses the palettes |
| ColourAssignment.RefillHasOther | script.js:354-379 | with two or more distinct colours, some pool has a colour other than the last one |
| ColourAssignment.WithoutDistinct | script.js:358-362 | filtering keeps a pool repeat-free |
| ColourAssignment.RemovalKeeps | script.js:325-328 | after removal the pool holds only old colours, and with distinct colours no longer the removed one; also lines 348-351 |
| ColourAssignment.TakeFrom | script.js:308-352 | draws a pool colour, avoids the last colour whenever the pool has another, and removes exactly that colour |
| ColourAssignment.PickAndRemove | script.js:364-377 | draws a pool colour and removes exactly it |
| ColourAssignment.DrawColour | script.js:304-383 | one loop step: primary pool first, else secondary; with both empty, the refill of `Refilled`: the primary palette without the last colour, minus the chosen colour, with the secondary pool left empty; else the secondary palette the same way, with the primary pool left empty; else the fallback, with both pools empty. The chosen colour becomes the last colour, and with distinct palettes it differs from the previous one and the pool invariant holds |
| ColourAssignment.Refill | script.js:354-379 | refills the primary pool without the last colour, else the secondary, else falls back to `Fallback`, which is `primaryColors[0] \|\| "#75c9b9"` (line 371); a refill never repeats the last colour when the palettes have two distinct colours |
| ColourAssignment.AssignColours | script.js:295-385 | one colour per service, each from a palette or the fallback; the first \|primary\| colours are the primary palette and the next \|secondary\| are the secondary palette, each in some order; with two or more distinct palette colours no two neighbours share a colour |
| ColourAssignment.FromPalettesStep | script.js:382 | appending a palette or fallback colour keeps every assigned colour from the palettes |
| ColourAssignment.NeighboursDifferStep | script.js:382-383 | appending a colour other than the last keeps neighbours different |
| ColourAssignment.DrainedStep | script.js:304-352 | each draw moves one colour from its pool into the assignment |
| ColourAssignment.DrainedPrimaryStep | script.js:308-329 | while the primary pool lasts, the assignment plus the pool is the primary palette |
| ColourAssignment.DrainedSecondaryStep | script.js:331-352 | while the secondary pool lasts, the assigned secondary part plus the pool is the secondary palette |
| ColourAssignment.DrainedEnd | script.js:304-385 | the full cycles through the primary and secondary palettes come first |
| WordWrap.DropWhitespace | script.js:510 | skipping a whitespace run keeps the visible characters and leaves none at the front |
| WordWrap.Words | script.js:510 | `split(/\s+/)`: at least one piece, no piece holds whitespace, concatenated they are the text's visible characters, and joined by single spaces they give the text with each maximal whitespace run squeezed to one space (`Squeeze`), which fixes where the text is cut |
| WordWrap.JoinWordsInjective | script.js:510 | two lists of whitespace-free words with the same single-space join are equal |
| WordWrap.WordsDetermined | script.js:510 | every list of whitespace-free words whose join is the squeezed text equals `Words` of the text, so the contract of `Words` determines its result |
| WordWrap.WordsExample | script.js:510 | `" a  b"` splits into `["", "a", "b"]`: a leading run gives an empty first word and a double space one cut |
| WordWrap.WordsOfWord | script.js:510 | a text without whitespace is one word |
| WordWrap.Extend | script.js:515-521 | the current line after one more word (the word alone on an empty line, else after a space) is never shorter than before |
| WordWrap.GlueGrows | script.js:514-525 | the one-line join of the first i words is never longer than that of all of them |
| WordWrap.GlueVisible | script.js:514-525 | joining words with spaces keeps their characters in order |
| WordWrap.MaxCharsPerLine | script.js:505-506 | the count is the largest n whose n average-width characters fit in the width |
| WordWrap.PlaceWord | script.js:514-538 | one word placed: lines stay non-empty and within the bound, and the characters so far grow by the word; a word that fits joins the current line (`Extend`); otherwise the current line, unless empty, is finished, every `maxChars` piece of the word but the last becomes a line and the last piece is the new current line; together this is the greedy packing `Fold` of the word's `Pieces` |
| WordWrap.CutLongWord | script.js:528-537 | a current line longer than the bound with no space in it is cut into its `Pieces`: all but the last become lines, the last (within the bound) stays current; any other current line is left alone |
| WordWrap.PackWords | script.js:511-542 | placing every word in turn and pushing the last non-empty line gives lines that are non-empty and within the bound, keep the words' characters in order, and equal `Wrap` of the words' `Tokens` |
| WordWrap.PiecesBounds | script.js:528-537 | the `Pieces` of a word: all but the last have exactly `maxChars` characters, the last at most that and non-empty for a non-empty word; a word is cut exactly when it is longer than the bound |
| WordWrap.PiecesKeepText | script.js:528-537 | the pieces of a word concatenate to the word |
| WordWrap.TokensKeepText | script.js:514-538 | replacing each word by its pieces (`Tokens`) keeps every character in order |
| WordWrap.TokensOfShortWords | script.js:528 | words that each fit on a line are not cut |
| WordWrap.FoldAppend | script.js:514 | packing tokens a then b is packing a, then b from where a left off |
| WordWrap.PiecesFold | script.js:514-538 | packing a word's pieces: a word that fits joins the current line; otherwise the current line, unless empty, is finished, all pieces but the last become lines and the last is current |
| WordWrap.ChunksFold | script.js:533-536 | after one full piece, every further piece of the word goes on a line of its own |
| WordWrap.FoldRuns | script.js:514-538 | after i tokens, every finished line is the single-space join of a contiguous run of tokens that the next token did not fit after, and the current line joins the tokens since the last break |
| WordWrap.WrapIsGreedy | script.js:514-542 | `Wrap` is a greedy layout (`GreedyLayout`): each line joins a contiguous run of tokens by single spaces, the token after a line would have made it too long, and only empty tokens follow the last line |
| WordWrap.WrapFits | script.js:514-542 | words whose one-line join fits the bound make exactly that one line, or none when the join is empty |
| WordWrap.WrapExample | script.js:514-542 | `["aa", "bb", "cc"]` on lines of five characters makes `["aa bb", "cc"]` |
| WordWrap.SplitTextIntoLines | script.js:502-546 | a non-positive bound returns `[text]`; otherwise the lines are exactly `Wrap` of the `Tokens` of the `Words`, that is, a greedy layout of the words with an over-long word cut into `maxChars` pieces; every line has 1 to maxChars characters, the lines without spaces concatenate to the text's visible characters, a text whose one-line join fits stays one line (none if empty), and a text with more visible characters than the bound is broken |
| WordWrap.FewLinesAreShort | script.js:514-542 | at most one line within the bound holds at most that many visible characters |
| LabelLayout.TextAnchor | script.js:628-635 | on [0, 360], with `AxisDistance` the distance to 0, 180 or 360 degrees: middle exactly when that distance is at most 5 degrees, start exactly on the right half beyond that band, end exactly on the left half beyond it; start only within (5, 175), end only within (185, 355) |
| LabelLayout.AnchorMirror | script.js:628-635 | reflecting the angle in the vertical axis swaps start and end |
| LabelLayout.WidestLine | script.js:653-675 | the maximum of all measured line widths, and 0 when there are none or all are negative |
| LabelLayout.BoxWidth | script.js:712 | the shared width is at most the cap and at most the widest line plus padding, and equals one of them |
| LabelLayout.BoxHeightStep | script.js:722 | `BoxHeight` of line 722: a box without lines (whose `SingleLineHeight`, lines 654-661, is 0) is just its padding, and each extra line adds one pitch |
| LabelLayout.BoxHeightIncreasing | script.js:722 | with a positive line height, more lines give a strictly taller box |
| LabelLayout.PlaceBox | script.js:728-745 | the box is centred vertically on the label point; horizontally its centre is the point (middle), half a width right (start) or half a width left (end) |
| LabelLayout.BoxHoldsPoint | script.js:728-739 | a box of non-negative size touches its label point; start boxes lie right of it, end boxes left |
| LabelLayout.LinesCentred | script.js:802-825 | with `LineDy`/`LineDys` the `dy` of lines 810-820, line k sits (k - (n - 1) / 2) * 1.2 em from the box centre |
| LabelLayout.LinesSymmetric | script.js:802-825 | the first and last lines are equally far from the centre |
| WedgeGeometry.AnglePerWedge | script.js:255 | each share is positive and n shares make 360 degrees |
| WedgeGeometry.WedgesTile | script.js:555-556 | `StartAngle`/`EndAngle` of lines 555-556: wedge 0 starts at 0, wedge n at 360; each wedge starts one share after the previous and overlaps the next by 0.05 degrees |
| WedgeGeometry.AnglesInsideWedge | script.js:555-624 | the label angle `MidAngle` (line 624) and the marker angle `MarkerAngle` (line 582) lie inside the wedge and inside the circle |
| WedgeGeometry.LargeArcOnlyForFewWedges | script.js:432 | `LargeArcFlag` of line 432 is "1" exactly for charts of one or two services |
| WedgeGeometry.RadiiOrdered | script.js:129 | every wedge (`OuterRadius`, line 570) is longer than `ShrunkRadius` (line 971), shorter than `HoverRadius` (line 129) and inside `LabelRadius` (line 625) |
| Hover.FindService | script.js:1221-1224 | the record has the asked name; it is the first service with that name, or the placeholder description when there is none |
| Hover.FindOwnService | script.js:855-857 | when names are distinct, the panel shows the hovered wedge's own service |
| Hover.PanelFacesAwayFromLabel | script.js:1253-1284 | `PanelSide` (line 1253) of `PanelAngle` (lines 860-862): a right-hanging label gets the panel on the left, a left-hanging label on the right |
| Hover.RadialChart.constructor | script.js:550-601 | wedge i has the angles of share i and the radius of factor i; every wedge rests and the panel is hidden |
| Hover.RadialChart.ShowDescription | script.js:1230-1288 | cancels the pending hide, fills in and shows the panel on the side away from the wedge |
| Hover.RadialChart.HideDescription | script.js:1291-1314 | fades the panel out and schedules one hide timer |
| Hover.RadialChart.FireHideTimer | script.js:1306-1313 | a scheduled timer removes the panel and clears itself; a cancelled one changes nothing |
| Hover.RadialChart.MouseEnter | script.js:845-1057 | the hovered wedge targets `Raised`, the hover radius with its label grown; every other wedge targets `Lowered`, the one shrunk radius with line and label faded; the panel shows the wedge's service |
| Hover.RadialChart.MouseLeave | script.js:1059-1218 | every wedge, marker, line and label targets `Resting`, its original drawing, again; the panel fades and a hide is scheduled |
| Hover.RadialChart.EnterThenLeave | script.js:845-1218 | entering one wedge and leaving any wedge restores a resting chart exactly |
| Hover.RadialChart.LeaveThenTimer | script.js:1306-1313 | leaving and letting the timer fire removes the panel |
| Hover.RadialChart.LeaveEnterTimer | script.js:1230-1235 | a hover before the timer fires cancels the hide and keeps the panel shown |

## Left out

- Trigonometry: `polarToCartesian`, `createCurvedPath`, `calculateLineStartPoint` and the coordinate parts of `describeOuterArc` and `calculatePathData` use cos, sin, atan2 and sqrt on floating point. Their results are represented by their arguments.
- `getContrastColor` (script.js:146-189) parses colours through the browser and uses `Math.pow`. It is not modelled.
- Text measurement with `getBBox` is not modelled; the measured widths and heights are inputs. `maxHeight` (script.js:486, 676) is used only in a log message (script.js:709), and is not modelled.
- Animation: anime.js calls, easing, durations, frame interpolation and `anime.remove` cancellation. Only each transition's final targets are modelled.
- DOM and CSS: element creation, attributes, CSS-variable reads, `||` configuration defaults, the element and viewBox checks, and the error and logging branches. The NaN guards (`isNaN`, `"M 0 0"` and `"NaN"` fallbacks) cannot arise with exact reals.
- The count-mismatch early return (script.js:490-494) is not modelled. `RadialChart.constructor` requires as many factors and colours as services, which `DistributeLengthFactors` and `AssignColours` guarantee.
- The dynamic `import()` with its fallback configuration and the centre logo placement are not modelled. `services-data.js` and `no-cache-server.py` are not part of this model.
- `shuffleArray` (script.js:260-266) is never called, and is not modelled.
- WordWrap.MaxCharsPerLine: requires a positive font size. In floating point a font size of 0 gives an infinite or NaN count, and `parseFloat` of the CSS value may give NaN; neither is modelled.
- WordWrap.SplitTextIntoLines: string length counts Unicode scalar values, whereas JavaScript's `length` counts UTF-16 code units. The two differ only for characters outside the Basic Multilingual Plane.
- LabelLayout.LinesCentred: the `dy` values are exact reals. The source formats floating-point products into `em` strings.
- Hover.RadialChart.constructor: the panel's initial style comes from the page's CSS. The model starts it hidden, with empty content.
- The `mouseenter` and `mouseleave` handlers' early returns for missing elements or NaN data are not modelled; every wedge is assumed to have its path, marker and label group.
