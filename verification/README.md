# Wheel of names: a verified model of its colour, drawing and list logic

The application is an Angular page with a wheel of names. This project models
and proves three parts of it:

- **`inverse_color`.** This is the function that picks a label colour. It
  finds the first `#rrggbb` anywhere in a string, replaces each channel `x`
  with `255 - x`, and writes the result as `#` and six lower-case hex digits.
  With no match it returns `#000000` (module `Roulette`, file `roulette.dfy`).
  The JavaScript built-ins it relies on live in module `Hex` (`hex.dfy`):
  `parseInt(s, 16)`, `Number#toString(16)` and `String#padStart`.
- **`refresh_canvas`.** This routine draws the wheel (module
  `RouletteCanvas`, file `canvas.dfy`).
  - The 2D context is a class that records each path-and-paint sequence
    (build the path, set the style, then `fill`, `stroke` or `fillText`)
    as one abstract command in its `trace`. No pixels are painted.
  - One redraw clears the canvas, fills one wedge per name, then outlines
    and labels every wedge.
  - The method is proved to append exactly the commands given by
    `DrawPlan`, a specification function. Lemmas then state the order of
    the commands, their colours and the geometry of the wedges.
  - `DrawPlan`, the two loops and most lemmas are stated for any palette
    and any "ink", the function that turns a wedge's colour into its
    label's colour. `refresh_canvas` uses the nine-colour palette and
    `inverse_color`. `WheelLabelsContrast` states the result for exactly
    that pair.
  - Angles are exact reals counted in full turns. One turn is 2π radians,
    so the source's `-Math.PI / 2` is `-0.25`.
- **The names editor** (`Names`, `names.dfy`) and **the palette**
  (`Palette`, `colors.dfy`).
  - The editor is a class whose `items` list is appended to and spliced in
    place. Every change emits the whole list, and each emission is recorded
    in `emitted`.
  - The palette of nine colours is read cyclically, both for the wheel's
    wedges and for the editor's rows.

`inverse_color` subtracts each RGB channel from 255 and writes the result in
lower-case hex, so black `#000000` becomes `#ffffff`.

## Model

| member | source | states |
|---|---|---|
| Hex.DigitValue | src/app/roulette/roulette.component.ts:18-20 | a hex digit of either case is worth less than 16 |
| Hex.DigitChar | src/app/roulette/roulette.component.ts:23-25 | the digit written for a value below 16 is lower case and reads back as that value |
| Hex.Sixteens | src/app/roulette/roulette.component.ts:23-25 | the high nibble of a value: `16h <= v < 16h + 16` |
| Hex.PairValue | src/app/roulette/roulette.component.ts:18-20 | two hex digits read high digit first give a value below 256 |
| Hex.DigitCharOfValue | src/app/roulette/roulette.component.ts:23-25 | writing back a digit's value gives the digit in lower case, worth the same |
| Hex.ParseHex | src/app/roulette/roulette.component.ts:18-20 | `parseInt(s, 16)` on `k` hex digits of either case gives a value below `16^k` |
| Hex.ParseHexPair | src/app/roulette/roulette.component.ts:18-20 | `parseInt` of a two-digit string is sixteen times its first digit plus its second |
| Hex.ToRadix16 | src/app/roulette/roulette.component.ts:23-25 | `n.toString(16)` is non-empty and lower case, has no leading zero, has one digit exactly when `n < 16` and at most two below 256, and `parseInt` reads it back as `n` |
| Hex.PadStart | src/app/roulette/roulette.component.ts:23-25 | `padStart` yields `max(width, len)` characters: fill characters in front, then the original string unchanged |
| Hex.PaddedDigit | src/app/roulette/roulette.component.ts:23-25 | a value below 16 is padded to `'0'` and its digit |
| Hex.PaddedByte | src/app/roulette/roulette.component.ts:23-25 | for every byte, `toString(16).padStart(2, '0')` is the high nibble's digit, then the low nibble's |
| Roulette.FindMatch | src/app/roulette/roulette.component.ts:12 | the unanchored search returns a position where the pattern matches (`MatchesAt`: `#` and six hex digits) with no match before it, which makes it the `LeftmostMatch`, or nothing when there is no match at all |
| Roulette.FindLeftmost | src/app/roulette/roulette.component.ts:12 | the search from the start finds exactly the leftmost match |
| Roulette.Channel | src/app/roulette/roulette.component.ts:18-20 | each decoded channel lies in [0, 255] |
| Roulette.ChannelIsParseInt | src/app/roulette/roulette.component.ts:18-20 | channel `ch` is `parseInt` of the `ch`-th captured digit pair |
| Roulette.EncodeChannel | src/app/roulette/roulette.component.ts:23-25 | a channel is written as exactly two lower-case digits that read back as the channel |
| Roulette.EncodeChannelIsPaddedRadix16 | src/app/roulette/roulette.component.ts:23-25 | that two-digit form is exactly `v.toString(16).padStart(2, '0')` |
| Roulette.FormatColor | src/app/roulette/roulette.component.ts:27 | the template `#${r}${g}${b}` gives a 7-character lower-case colour whose pairs are `r`, `g` and `b` |
| Roulette.InvertChannels | src/app/roulette/roulette.component.ts:18-27 | the result is a lower-case `#rrggbb` whose channels are 255 minus the given ones |
| Roulette.InverseColor | src/app/roulette/roulette.component.ts:10-28 | every answer, fallback included, is `#` and six lower-case hex digits |
| Roulette.InverseColorFallback | src/app/roulette/roulette.component.ts:12-16 | with no `#` and six hex digits anywhere, the answer is exactly `#000000` |
| Roulette.InverseColorChannels | src/app/roulette/roulette.component.ts:18-27 | with a leftmost match, each output pair is 255 minus the matched pair |
| Roulette.FoldCaseMatches | src/app/roulette/roulette.component.ts:12 | the pattern matches at a position exactly when it matches there after folding the hex letters `A`-`F` to lower case |
| Roulette.FoldCaseFind | src/app/roulette/roulette.component.ts:12 | folding the hex letters `A`-`F` to lower case never moves the leftmost match |
| Roulette.FoldCaseChannel | src/app/roulette/roulette.component.ts:18-20 | folding the hex letters `A`-`F` to lower case never changes a decoded channel |
| Roulette.InverseColorIgnoresCase | src/app/roulette/roulette.component.ts:12 | folding the hex letters `A`-`F` to lower case leaves the answer unchanged, so upper- and lower-case digits give the same answer |
| Roulette.InverseColorIgnoresSurroundings | src/app/roulette/roulette.component.ts:12 | text after the colour, and text before it that has no `#`, is ignored |
| Roulette.InvertTwice | src/app/roulette/roulette.component.ts:18-27 | inverting an inverted colour re-encodes the original channels |
| Roulette.InverseAtStart | src/app/roulette/roulette.component.ts:12-27 | a string starting with a colour is inverted from that colour |
| Roulette.EncodePair | src/app/roulette/roulette.component.ts:23-25 | re-encoding a digit pair's value gives the pair back in lower case |
| Roulette.FormatFoldedColor | src/app/roulette/roulette.component.ts:27 | a well-formed colour with its hex letters folded to lower case is the template filled with its own folded pairs |
| Roulette.ReencodeWellFormed | src/app/roulette/roulette.component.ts:18-27 | decoding and re-encoding a well-formed colour gives it back with its hex letters folded to lower case |
| Roulette.InverseColorInvolution | src/app/roulette/roulette.component.ts:10-28 | applying `inverse_color` twice to a `#rrggbb` colour gives it back in lower case |
| Roulette.InverseBlack | src/app/roulette/roulette.component.ts:10-28 | `#000000` inverts to `#ffffff` |
| Roulette.InvertZero | src/app/roulette/roulette.component.ts:23-27 | three zero channels are written `#ffffff` |
| Roulette.InverseNoColor | src/app/roulette/roulette.component.ts:12-16 | `"red"`, which has no hex colour in it, inverts to `#000000` |
| Palette.PaletteShape | src/app/colors.ts:7-17 | the palette has nine entries, from `#F0FFFF` to `#D2B48C` |
| Palette.PaletteFormat | src/app/colors.ts:8-16 | every entry is `#` and six upper-case hex digits |
| Palette.CycleAt | src/app/names/names.component.ts:34 | a cyclic lookup in a non-empty list is defined for every index and returns an entry of that list |
| Palette.ColorAt | src/app/roulette/roulette.component.ts:95 | `colors[index % colors.length]` is defined for every index and is a well-formed palette colour |
| Palette.ColorCycles | src/app/colors.ts:7-17 | colours repeat every nine indices |
| RouletteCanvas.DrawingContext.constructor | src/app/roulette/roulette.component.ts:67-68 | a fresh context has the canvas's size and has drawn nothing |
| RouletteCanvas.DrawingContext.ClearRect | src/app/roulette/roulette.component.ts:75 | `clearRect` over the whole canvas appends one clear |
| RouletteCanvas.DrawingContext.FillWedge | src/app/roulette/roulette.component.ts:89-96 | building a wedge path and filling it appends one fill, with its colour |
| RouletteCanvas.DrawingContext.StrokeWedge | src/app/roulette/roulette.component.ts:104-112 | building a wedge path and stroking it appends one stroke, with its colour and width |
| RouletteCanvas.DrawingContext.FillText | src/app/roulette/roulette.component.ts:115-122 | the transformed `fillText` appends one text command, with its placement, colour and font |
| RouletteCanvas.CenterX | src/app/roulette/roulette.component.ts:78 | the centre's x is half the canvas width |
| RouletteCanvas.CenterY | src/app/roulette/roulette.component.ts:79 | the centre's y is half the canvas height |
| RouletteCanvas.Radius | src/app/roulette/roulette.component.ts:80 | the radius is the smaller half-dimension minus 5, so the wheel stays inside the canvas |
| RouletteCanvas.Turn | src/app/roulette/roulette.component.ts:81 | `n` wedges of this angle make exactly one turn |
| RouletteCanvas.OffsetStep | src/app/roulette/roulette.component.ts:99 | `offset += angle` moves on to the next wedge |
| RouletteCanvas.OffsetAfter | src/app/roulette/roulette.component.ts:85-125 | `offset` after `steps` advances sits `steps - 1/2` wedges past the top of the wheel |
| RouletteCanvas.WedgeAt | src/app/roulette/roulette.component.ts:89-107 | the path built at lines 89-92 and 104-107: a slice around the canvas centre, with the wheel's radius, starting at the current `offset` and one wedge wide |
| RouletteCanvas.FillCommand | src/app/roulette/roulette.component.ts:95-96 | a fill of wedge `i`'s slice in a palette colour |
| RouletteCanvas.StrokeCommand | src/app/roulette/roulette.component.ts:110-112 | a stroke in `#485D6C` with width 5 of the slice the second loop is at for wedge `i` |
| RouletteCanvas.LabelCommand | src/app/roulette/roulette.component.ts:115-121 | wedge `i`'s name, rotated to its slice's bisector, in the ink of its palette colour, at most `radius - 100` wide, in `30px 'Lobster'` |
| RouletteCanvas.BorderCommand | src/app/roulette/roulette.component.ts:102-126 | the second loop's even positions are strokes and its odd positions are labels carrying the names in order |
| RouletteCanvas.DrawPlan | src/app/roulette/roulette.component.ts:75-126 | a whole redraw: `1 + 3n` commands, the first of which clears the whole canvas |
| RouletteCanvas.OffsetFullTurn | src/app/roulette/roulette.component.ts:85-125 | because `offset` is not reset, the second loop's wedge `i` starts exactly one turn after the first loop's |
| RouletteCanvas.FillPass | src/app/roulette/roulette.component.ts:87-100 | the fill loop draws one command per round |
| RouletteCanvas.BorderPass | src/app/roulette/roulette.component.ts:102-126 | the border-and-label loop draws two commands per round |
| RouletteCanvas.FillPassStep | src/app/roulette/roulette.component.ts:87-100 | each round of the fill loop appends wedge `k`'s fill |
| RouletteCanvas.BorderPassStep | src/app/roulette/roulette.component.ts:102-126 | each round of the second loop appends wedge `k`'s border, then its label |
| RouletteCanvas.BorderPassEndsWith | src/app/roulette/roulette.component.ts:102-126 | after `k + 1` rounds, the last two commands are wedge `k`'s border and label |
| RouletteCanvas.EmptyWheel | src/app/roulette/roulette.component.ts:75-126 | with no names, only the clear is drawn |
| RouletteCanvas.DrawPlanShape | src/app/roulette/roulette.component.ts:75-126 | a redraw is one clear, then `n` fills, then `2n` borders and labels, so no border or label precedes a fill |
| RouletteCanvas.WedgeFill | src/app/roulette/roulette.component.ts:87-100 | wedge `i` is filled at position `1 + i`, in palette colour `i mod 9`, over its own slice |
| RouletteCanvas.BorderPassInPlan | src/app/roulette/roulette.component.ts:102-126 | after the clear and the `n` fills, wedge `i`'s border sits at `1 + n + 2i` and its label right after it |
| RouletteCanvas.WedgeBorder | src/app/roulette/roulette.component.ts:104-112 | wedge `i` is outlined in `#485D6C` with width 5, over the slice it was filled on, one full turn later |
| RouletteCanvas.WedgeLabel | src/app/roulette/roulette.component.ts:115-121 | wedge `i`'s label has its name, lies on the bisector of the slice, is coloured by the ink applied to the wedge's colour, and is at most `radius - 100` wide |
| RouletteCanvas.LabelContrastsWithFill | src/app/roulette/roulette.component.ts:95-119 | for a palette of `#rrggbb` colours, each label's channels are 255 minus its wedge's |
| RouletteCanvas.WheelLabelsContrast | src/app/roulette/roulette.component.ts:95-119 | on the real palette, wedge `i` is filled with `colors[i % 9]` and its label is that colour's complement |
| RouletteCanvas.PaletteNeverFallsBack | src/app/colors.ts:8-16 | every palette colour matches `inverse_color`'s pattern at position 0, so it never takes the black fallback |
| RouletteCanvas.DefaultItemsRepeat | src/app/roulette/roulette.component.ts:46-47 | the default list holds twelve names: six players, each twice |
| RouletteCanvas.SlicesAreContiguous | src/app/roulette/roulette.component.ts:92 | each wedge starts where the one before it ends |
| RouletteCanvas.SlicesCoverOneTurn | src/app/roulette/roulette.component.ts:81-92 | the `n` wedges cover exactly one turn, and wedge 0 is centred on the top of the wheel |
| RouletteCanvas.RouletteComponent.constructor | src/app/roulette/roulette.component.ts:46-47 | the wheel starts with the twelve default names |
| RouletteCanvas.RouletteComponent.RefreshCanvas | src/app/roulette/roulette.component.ts:65-127 | with no context nothing is drawn. Otherwise the redraw appends exactly `DrawPlan`: the clear, the fill pass and the border-and-label pass |
| RouletteCanvas.RouletteComponent.FillWedges | src/app/roulette/roulette.component.ts:87-100 | the first loop appends the fill pass and leaves `offset` `n` wedges on |
| RouletteCanvas.RouletteComponent.DrawBorders | src/app/roulette/roulette.component.ts:102-126 | the second loop starts from the offset the first loop left. It appends the border-and-label pass and leaves `offset` `2n` wedges on |
| Names.SpliceOne | src/app/names/names.component.ts:45 | `splice(i, 1)` with `i` in range removes exactly element `i` and keeps the order of the rest. Past the end it changes nothing |
| Names.SpliceOneRemovesOne | src/app/names/names.component.ts:45 | the list's contents lose exactly the removed name |
| Names.DeleteUndoesAdd | src/app/names/names.component.ts:22-45 | deleting the name just added gives the list back |
| Names.Background | src/app/names/names.component.ts:32-39 | the style has the single key `background`, set to a well-formed palette colour |
| Names.BackgroundMatchesWedge | src/app/names/names.component.ts:32-39 | row `i`'s background is the colour the wheel fills wedge `i` with |
| Names.NamesComponent.constructor | src/app/names/names.component.ts:15 | the editor starts with no names and has emitted nothing |
| Names.NamesComponent.AddItem | src/app/names/names.component.ts:19-29 | any name, empty or repeated, is appended, and then the new list is emitted once |
| Names.NamesComponent.DeleteItem | src/app/names/names.component.ts:43-49 | the list becomes `SpliceOne(list, index)`, and then the new list is emitted once |
| Names.NamesComponent.EmitChange | src/app/names/names.component.ts:52-54 | the current list is emitted once and is left unchanged |

## Left out

- Pixel rendering is not modelled. Nothing is drawn; each path-and-paint sequence (build the path with `beginPath`, `moveTo`, `lineTo` and `arc`, set the style, then `fill`, `stroke` or `fillText`) becomes one recorded command.
- The `Math.cos`/`Math.sin` rim points (lines 91 and 106) are not modelled, because a wedge is recorded by its centre, radius and angles.
- `save`/`restore`, the translations, the rotation, `fillStyle`, `strokeStyle`, `lineWidth` and `font` are folded into the command they apply to; the context's style state is not modelled.
- `arc` throws on a negative radius, which happens on a canvas narrower or lower than 10 pixels. That exception is not modelled.
- RouletteCanvas.Turn: the source computes `2 * Math.PI / 0`, which is `Infinity`, when there are no names. The model uses 0, which no wedge ever uses, because neither loop runs then.
- RouletteCanvas.RouletteComponent.RefreshCanvas: angles and the radius are exact reals, not double-precision numbers, so rounding in `offset += angle` is not modelled.
- RouletteCanvas.RouletteComponent.RefreshCanvas: the `console.warn` on a missing context is not modelled. Getting the canvas through `ViewChild` and `getContext('2d')` is replaced by a context parameter that may be null.
- Font loading in `ngOnInit` (src/app/roulette/roulette.component.ts:49-63) is not modelled: it is an asynchronous network fetch whose only effect on this model is to call `refresh_canvas` once the font is there.
- The `decoded.length < 4` test of `inverse_color` is not modelled separately. A successful match of the pattern always has the full match and three groups, so the test never holds.
- Hex.ParseHex: only strings of hex digits are modelled; `parseInt` on other input is never reached here.
- Hex.ParseHex: the model is exact for any number of digits, where JavaScript's `parseInt` rounds to a double past 13 hex digits (`parseInt("fffffffffffffff", 16)` is `16^15`). The colour code only parses two digits.
- Hex.ToRadix16: only non-negative integers are modelled, which are the only values the colour code converts.
- Hex.ToRadix16: not every integer beyond 2^53 is a JavaScript number, but the model accepts them all. The colour code only converts values below 256.
- Hex.PadStart: only a one-character filler is modelled, which is the only kind the colour code passes.
- Names.NamesComponent.AddItem: reading the name from the `HTMLInputElement` and clearing it are DOM work. The name is passed in as a string.
- Names.NamesComponent.DeleteItem: negative indices, which `splice` counts from the end, are excluded by the `nat` index.
- Names.Background: only non-negative indices are modelled. JavaScript's `%` keeps the sign, so for a negative index that is not a multiple of 9 `colors[index % 9]` is `undefined` and the style is `{background: undefined}`; a negative multiple of 9 gives `-0`, which reads entry 0. The index comes from `names.component.html`, which is not part of this model.
- Names.NamesComponent.EmitChange: the emitted array is shared with its receiver in the source. The model records a copy, so later changes do not show through earlier emissions.
- The `output()` emitter and Angular's wiring (decorators, templates, `app.component.ts` with its three field assignments) are not part of this model.
- The two `.spec.ts` files only check that components are created and that the title renders. They state nothing about this logic.
- Spinning the wheel and choosing a winner are not part of this model: nothing in roulette.component.ts, names.component.ts or colors.ts spins the wheel or picks a winner.
