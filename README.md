# Song preview card renderer, modelled in Dafny

This project models `generatePreviewImage` from `src/generate.ts`, together with its two helpers `createGradient` and `getCoordinates`. The function renders a "now playing" card: a rounded frame with a gradient background, the album artwork with a drop shadow, the track title and artists, and an optional progress bar with a glow. The result is a PNG.

The drawing library is modelled as a recording canvas, the class `Canvas.Context2D`:
- every drawing call appends the operation, together with the full drawing state in force at that moment, to a log;
- `save`, `restore` and `clip` work on a state stack and a clip list;
- the current path is built by `beginPath`/`moveTo`/`arcTo`/`closePath`.

A rendered image is the main canvas's log. An offscreen canvas drawn onto another is recorded as a snapshot of its own log, so nested compositing can be followed.

Modules:

- `Wrappers`: `Option` and `Result`.
- `Canvas`: the recording context and the drawing datatypes (points, paths, colours, gradients, draw state, images, draw operations).
- `Errors`: the two errors the render throws, and their messages.
- `Gradients`:
  - `getCoordinates` is the function `Coordinates`;
  - the evenly spaced colour stops;
  - `createGradient` is a loop method, specified by `GradientFor`.
- `ProgressColour`: the progress colour fallback and the channel parser used for the glow. A "#" string is read as hex pairs (section 5.2 of CSS Color Module Level 4). An "rgb…" string takes its first three decimal-digit runs (a loose reading of section 5.1).
- `Layout`: the constants and arithmetic of the card:
  - frame size and inset;
  - the rounded outline;
  - the artwork square and its buffers;
  - the text baselines;
  - the progress gate and ratio;
  - the bar and glow rectangles and the glow stops.
- `Generate`: the render itself.
  - `GeneratePreview` is a method that follows the source step by step, split into helper methods the way the source's blocks fall.
  - It is proved against `RenderLog`, a function giving the whole log of a successful render.
  - `RenderIsSuccessful` proves what that log contains: the order, the clip, the blend mode, the fonts and colours, and the bar gate.

Geometry is exact `real` arithmetic. A JavaScript number that may be missing is an `Option<real>`. Falsy means absent or zero.

## Model

| member | source | states |
|---|---|---|
| Gradients.Coordinates | src/generate.ts:293-318 | `getCoordinates` is total, and its point lies inside the `width` x `height` box whenever both are non-negative |
| Gradients.CoordinatesByAxes | src/generate.ts:298-314 | each of the eight compass names maps to the point at its left/centre/right and top/middle/bottom position of the box |
| Gradients.OppositeIsMirrored | src/generate.ts:298-314 | opposite compass names map to points mirrored through the box's centre |
| Gradients.UnknownNameIsOrigin | src/generate.ts:315-316 | any string other than the eight names maps to (0, 0) |
| Gradients.EvenStops | src/generate.ts:286-288 | one stop per colour, in input order, carrying that colour; for two or more colours the offsets run from exactly 0 to exactly 1 in equal steps of 1/(n-1); a single colour gets the offset 0/0, NaN; no colours give no stops |
| Gradients.StopsIncrease | src/generate.ts:286-288 | with two or more colours the offsets strictly increase and stay within [0, 1] |
| Gradients.AddColorStop | src/generate.ts:287 | adding a stop appends it to the gradient's stops and changes nothing else about the gradient |
| Gradients.CreateGradient | src/generate.ts:260-291 | the loop builds exactly `GradientFor`: a radial gradient centred at (w/2, h/2) with radii 0 and max(w, h)/2 that ignores `direction`; otherwise the error `MissingDirection` when there is no direction, or a linear gradient between the two compass points; every gradient gets the even stops |
| Errors.RenderError.Message | src/generate.ts:161-167 | an artwork failure's message starts with "Failed to load artwork: " |
| Errors.MessageHead | src/generate.ts:278-280 | messages are non-empty, and their first letter tells the direction error from the artwork error |
| Errors.MessageDeterminesError | src/generate.ts:161-167 | the thrown message determines the error, including the artwork cause |
| ProgressColour.ResolveColour | src/generate.ts:204 | a missing or empty colour gives "rgba(29, 185, 84, 1)"; a non-empty colour is kept exactly as given; the result is never empty |
| ProgressColour.Substring | src/generate.ts:214-216 | `substring` on a range within the string is the slice; a range running past the end gives the suffix from `start`; a `start` at or past the end gives ""; never longer than `end - start` |
| ProgressColour.ParseHex | src/generate.ts:214-216 | `parseInt(field, 16)` on a field made of hex digits is the value of those digits |
| ProgressColour.HexFieldIsByte | src/generate.ts:214-216 | a field of at most two characters reads as a value below 256, or as NaN |
| ProgressColour.HexChannelsAreBytes | src/generate.ts:211-216 | every channel a "#" colour yields is below 256 or NaN |
| ProgressColour.HexByteRoundTrip | src/generate.ts:214-216 | two hex digits written for a byte are read back as that byte |
| ProgressColour.DigitRuns | src/generate.ts:219 | `match(/\d+/g)` yields non-empty runs of digits only |
| ProgressColour.RunsTakeDigits | src/generate.ts:219 | a whole numeral followed by a non-digit or by the end is one run: `match(/\d+/g)` never splits a number and never joins two |
| ProgressColour.RunsAreTheDigits | src/generate.ts:219 | the runs, concatenated, are exactly the digits of the string, in order |
| ProgressColour.DecimalRoundTrip | src/generate.ts:221-223 | `parseInt` reads a decimal numeral back as the number it was written from |
| ProgressColour.GlowChannels | src/generate.ts:206-225 | a colour starting with neither "#" nor "rgb", or an "rgb…" colour with fewer than three digit runs, keeps the default (29, 185, 84); any colour not starting with "#" gives three numeric channels |
| ProgressColour.HexRoundTrip | src/generate.ts:211-216 | "#RRGGBB", followed by anything, gives back the three bytes it was written from |
| ProgressColour.FunctionalChannels | src/generate.ts:217-224 | an "rgb…" prefix without digits, followed by three numerals separated by any non-empty digit-free text (", ", ",", " / "), gives those three numbers |
| ProgressColour.FunctionalRoundTrip | src/generate.ts:217-224 | "rgb(R, G, B…", "rgba(R,G,B…" and every other spelling whose separators hold no digit give back (R, G, B), whatever follows, as long as it does not extend the third number |
| ProgressColour.DefaultSpellingsAgree | src/generate.ts:204-209 | "#1DB954" and the default "rgba(29, 185, 84, 1)" both give the default channels (29, 185, 84) |
| Layout.Dimension | src/generate.ts:31-32 | a missing or zero size falls back to the default; any other size is kept |
| Layout.Inner | src/generate.ts:33-34 | the inner size plus a margin of 8 on each side is the canvas size |
| Layout.RoundedRectPath | src/generate.ts:44-62 | the outline is a moveTo, four arcTo calls through the corners clockwise from the top right, all with the same radius, then closePath |
| Layout.PathStaysOnOutline | src/generate.ts:44-62 | every point the path names lies on the rectangle's edges |
| Layout.FrameIsInsetByMargin | src/generate.ts:43-62 | the frame's corners are the canvas corners moved in by the margin on both axes |
| Layout.ArtworkPlacement | src/generate.ts:81-84 | the artwork side is 0.6 of the shorter inner side; the left gap equals the right gap and the top gap equals the bottom gap; for non-negative sizes the square stays inside the inner frame |
| Layout.BufferSide | src/generate.ts:87-91 | the buffers are the artwork plus 40 on each side |
| Layout.ArtworkClipIsPadded | src/generate.ts:94-126 | the artwork clip in a buffer is inset by 40 on all four sides |
| Layout.TextX | src/generate.ts:176-177 | both text lines start 48 inside the inner frame |
| Layout.TitleY | src/generate.ts:178-179 | the title baseline is 72 above the inner bottom edge |
| Layout.ArtistY | src/generate.ts:190 | the artist baseline is 28 below the title baseline |
| Layout.Join | src/generate.ts:190 | `join`: no artists give "", one gives itself, and the length is the parts plus one separator between each pair |
| Layout.JoinAppend | src/generate.ts:190 | joining one more artist appends ", " and that artist |
| Layout.ProgressRatio | src/generate.ts:198-201 | the ratio never exceeds 1; it is elapsed/duration up to 1, and 1 beyond |
| Layout.RatioWithinTrack | src/generate.ts:198-201 | for 0 < elapsed <= duration the ratio is the plain positive fraction; at or past the end it is 1; a negative elapsed gives a negative ratio (there is no lower clamp) |
| Layout.BarRect | src/generate.ts:228-236 | the bar starts at the margin, is 2 tall with its bottom on the inner bottom edge, and is ratio x innerWidth wide |
| Layout.GlowRect | src/generate.ts:239-249 | the glow band is as wide as the bar and 10 tall, and ends exactly on the bar's top edge |
| Layout.BarFitsFrame | src/generate.ts:198-236 | a bar never reaches past the right end of the inner frame |
| Layout.TextClearsGlow | src/generate.ts:178-240 | the title baseline is above the artist baseline, which is above the glow band |
| Layout.GlowStops | src/generate.ts:241-244 | three stops in the parsed channels: offset 0 with alpha 0, offset 0.7 with alpha 0.15, offset 1 with alpha 0.3; offsets and alphas strictly increase |
| Layout.GlowGradient | src/generate.ts:238-244 | the glow gradient runs straight down from the band's top to the bar's top, with the glow stops |
| Generate.TraceRoundedRect | src/generate.ts:44-62 | the traced current path is the rounded outline |
| Generate.PaintClippedArtwork | src/generate.ts:86-141 | the first buffer holds one draw: the bitmap at (40, 40), full size, under the rounded clip |
| Generate.PaintShadowedArtwork | src/generate.ts:143-157 | the second buffer holds the first one drawn at its origin under the drop shadow |
| Generate.ArtworkLandsAtTarget | src/generate.ts:81-160 | compositing the shadow buffer at (x - 40, y - 40) puts the bitmap at exactly (x, y), full size |
| Generate.DrawArtwork | src/generate.ts:79-160 | the main canvas gains one draw: the shadow buffer at the artwork square's corner less 40 |
| Generate.DrawText | src/generate.ts:175-190 | the title, in bold white, left-aligned, then the joined artists in the lighter font at alpha 0.6, at the text anchors |
| Generate.DrawArtworkAndText | src/generate.ts:79-190 | the artwork, then the two captions; the artists' style stays in force |
| Generate.ReadChannels | src/generate.ts:206-225 | the reassigned `r`, `g` and `b` are the channels `GlowChannels` gives |
| Generate.CreateGlowGradient | src/generate.ts:241-244 | adding the three stops in turn builds the vertical gradient with the glow stops |
| Generate.DrawBar | src/generate.ts:234-236 | one fill of the bar rectangle in the raw colour string |
| Generate.DrawGlow | src/generate.ts:238-251 | one fill of the glow band with the glow gradient under `lighten`; afterwards the blend mode is `source-over` again |
| Generate.DrawProgress | src/generate.ts:198-251 | the bar in the colour as given, then the glow tinted with the channels parsed from it; the blend mode is reset |
| Generate.DrawProgressIfShown | src/generate.ts:192-252 | the gate: the bar and glow when it lets them through, leaving the glow gradient as fill and the blend mode `source-over`; otherwise nothing is drawn and the state is untouched |
| Generate.DrawForeground | src/generate.ts:79-252 | after a successful load: the artwork, the captions, then the gated bar and glow; the state left is the artists' style with the gate's changes, under the same clip, with a `source-over` blend mode still `source-over` |
| Generate.DrawBackground | src/generate.ts:36-76 | the clear of the whole canvas; then the save and the frame clip, the gradient and its fill of the inner frame; a missing direction stops it right after the clear |
| Generate.GeneratePreview | src/generate.ts:26-258 | a new canvas of the requested size, 1920 x 1080 where a size is missing or zero; a missing direction throws with only the clear drawn and nothing fetched; unless there is exactly one gradient colour, a failed load throws the artwork error after the two background draws, before any buffer, caption or bar; unless there is one gradient colour or a shown glow with an unparsed channel, a loaded artwork gives exactly `RenderLog`, and save and restore balance (empty stack, initial state) |
| Generate.DrawOverBackground | src/generate.ts:78-167 | after the background: the artwork URL is fetched; a failed load gives the artwork error with only the background drawn; a loaded one gives exactly `RenderLog` and the final `restore` empties the stack back to the initial state |
| Generate.ProgressKeepsClip | src/generate.ts:234-251 | the bar and glow keep the clip they are drawn under, and only the glow uses `lighten` |
| Generate.ForegroundKeepsClip | src/generate.ts:79-252 | everything after the background keeps the frame clip, and only the glow, the fifth foreground draw, uses `lighten` |
| Generate.BarDrawnExactlyWhenGated | src/generate.ts:192-197 | the render has 7 draws exactly when `showBar` is true and both `duration` and `elapsed` are present and non-zero, and 5 otherwise; an elapsed of 0 draws no bar |
| Generate.RenderIsLayered | src/generate.ts:40-255 | a successful render is 7 draws with the bar and 5 without: the clear first, every later draw under the frame clip, and only the glow in `lighten` |
| Generate.RenderDrawsBackground | src/generate.ts:68-76 | the second draw fills the inner frame with a gradient carrying the even stops, radial exactly when asked for |
| Generate.RenderDrawsCaptions | src/generate.ts:79-190 | draws three to five are the centred, shadowed artwork, the title and the artists, in their fonts, colours and alignment |
| Generate.RenderDrawsProgress | src/generate.ts:192-251 | when the gate lets it through, draws six and seven are the bar in the given colour and the glow tinted with its parsed channels |
| Generate.RenderIsSuccessful | src/generate.ts:26-258 | the log of a successful render has all of the above properties together |

## Left out

- Rasterisation: pixels, the geometry of `arcTo` arcs, clip and blend maths, the shadow blur, image decoding and PNG encoding (`toBuffer`). All of these belong to the canvas library. The model keeps the commands and the state they run under, and makes no pixel-level claim.
- Artwork fetch: `loadImage` is network I/O. It is the `artwork` parameter, which either succeeds or fails with a cause; `fetched` records which URL was requested.
- Font registration: `GlobalFonts.registerFromPath` is file I/O on process-global state. It is not modelled; the fonts are recorded by name only.
- `demo.ts` is a driver that writes files and logs. It is not part of this model.
- `mode` and `album` in `src/types.ts` are never read by the render, so they are not part of this model.
- Floating point: all geometry is exact `real` arithmetic. NaN is modelled in only two places where the source can produce it: a single colour's stop offset, and hex fields that `parseInt` cannot read.
- Gradients.EvenStops: with a single colour the offset is 0 / 0, NaN. The model records that offset in the stop, and `Generate.GeneratePreview` then claims no outcome for the render.
- ProgressColour.ParseHex: a two-character field led by white space or a sign is read as NaN. JavaScript would skip the white space or apply the sign. Such fields cannot come out of a well-formed "#RRGGBB".
- Generate.GeneratePreview: with exactly one gradient colour, the load-failure and success outcomes are not claimed. Whether the canvas library ignores the NaN stop offset or throws is up to the library.
- Generate.GeneratePreview: when the glow is shown and a channel did not parse (for example "#12" gives `rgba(18, NaN, NaN, 0)` stops), the success outcome is not claimed. What the library does with such a stop colour is up to it.
- Generate.GeneratePreview: gradient colour strings are recorded as given. Whether the library accepts each one as a CSS colour is not modelled, so a colour it would reject is treated like any other.
- Generate.DrawBar: the bar's fill is recorded as the colour string given. A canvas ignores a `fillStyle` it cannot parse and keeps the previous one; that is not modelled.
- ProgressColour: JavaScript's `slice`, `substring` and `startsWith` count UTF-16 code units, while a Dafny string is a sequence of characters. The two agree on the ASCII text colours are written in; a colour string containing characters outside the Basic Multilingual Plane is indexed differently.
- ProgressColour.ParseDecimal: a digit run is read as an exact natural number. JavaScript's `parseInt` rounds one above 2^53 to the nearest double.
- Layout.ShowsBar: a NaN `duration` or `elapsed` (falsy in JavaScript) is not modelled; numbers are reals.
- Generate.Placements: follows only canvases drawn at their own size, which is all the source draws.
- Canvas sizes are kept as given. A non-integer size, which the canvas library would truncate, is not modelled.
- Errors other than the two the source throws are not modelled. The `try` block wraps the artwork drawing too, but only the load itself can fail in this model.
