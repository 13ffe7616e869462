/**
 * `generatePreviewImage`: the render pipeline, step by step, against the
 * recording canvas. Frame and clip, background gradient, artwork with its
 * shadow, title and artist text, and the optional progress bar with its
 * glow. The fetch of the artwork is a parameter (it succeeds or fails with
 * a cause), and the encoded image is the main canvas's log of draws.
 */
module Generate {
  import opened Wrappers
  import opened Canvas
  import opened Errors
  import opened Gradients
  import opened ProgressColour
  import opened Layout

  datatype Track = Track(artworkUrl: string, name: string, artists: seq<string>)

  datatype SongPreviewOptions = SongPreviewOptions(
    width: Option<real>,
    height: Option<real>,
    gradient: GradientOptions,
    track: Track,
    progress: Option<ProgressOptions>)

  /** What `loadImage` does with the artwork URL: decode it, or fail with a cause. */
  datatype LoadResult = Loaded | LoadFailed(cause: string)

  const TitleFont := "700 28px SpotifyMixUITitle"
  const ArtistFont := "400 18px SpotifyMixUITitle"
  const TitleColour := "#ffffff"
  const ArtistColour := "rgba(255, 255, 255, 0.6)"
  const ArtistSeparator := ", "
  const ArtworkShadow := Shadow("rgba(0, 0, 0, 0.8)", 30.0, 15.0)

  function Width(options: SongPreviewOptions): real
  {
    Dimension(options.width, DefaultWidth)
  }

  function Height(options: SongPreviewOptions): real
  {
    Dimension(options.height, DefaultHeight)
  }

  /** Traces the rounded rectangle as a fresh current path. */
  method TraceRoundedRect(ctx: Context2D, x: real, y: real, w: real, h: real, r: real)
    modifies ctx`path
    ensures ctx.path == RoundedRectPath(x, y, w, h, r)
  {
    ctx.BeginPath();
    ctx.MoveTo(x + r, y);
    ctx.ArcTo(x + w, y, x + w, y + h, r);
    ctx.ArcTo(x + w, y + h, x, y + h, r);
    ctx.ArcTo(x, y + h, x, y, r);
    ctx.ArcTo(x, y, x + w, y, r);
    ctx.ClosePath();
  }

  /** The first buffer: the artwork drawn at the padding, clipped to a rounded square. */
  function ClippedArtwork(url: string, side: real): Image
  {
    var b := BufferSide(side);
    var clip := RoundedRectPath(ShadowPadding, ShadowPadding, side, side, ArtworkRadius);
    Surface(b, b, [Draw(DrawImage(Bitmap(url), ShadowPadding, ShadowPadding, Some(Size(side, side))),
                        InitialState.(clips := [clip]))])
  }

  /** The second buffer: the first one drawn at its origin with the drop shadow on. */
  function ShadowedArtwork(url: string, side: real): Image
  {
    var b := BufferSide(side);
    Surface(b, b, [Draw(DrawImage(ClippedArtwork(url, side), 0.0, 0.0, None), InitialState.(shadow := ArtworkShadow))])
  }

  /** Where a bitmap ends up on the outermost canvas: its URL and its box there. */
  datatype Placement = Placement(url: string, x: real, y: real, size: Option<Size>)

  /**
   * The bitmaps a log draws, in order, with their boxes translated out
   * through every unscaled canvas they were drawn through; (dx, dy) is where
   * the log's own canvas sits. Canvases drawn scaled are not followed: the
   * source draws none.
   */
  function Placements(log: seq<Draw>, dx: real, dy: real): seq<Placement>
    decreases log
  {
    if log == [] then [] else DrawPlacements(log[0], dx, dy) + Placements(log[1..], dx, dy)
  }

  function DrawPlacements(d: Draw, dx: real, dy: real): seq<Placement>
    decreases d
  {
    match d.op
    case DrawImage(Bitmap(url), x, y, size) => [Placement(url, dx + x, dy + y, size)]
    case DrawImage(Surface(_, _, content), x, y, None) => Placements(content, dx + x, dy + y)
    case _ => []
  }

  /** Compositing the shadow buffer at (x - 40, y - 40) puts the artwork itself at (x, y), full size. */
  lemma ArtworkLandsAtTarget(url: string, innerWidth: real, innerHeight: real, st: DrawState)
    ensures var sq := ArtworkPlacement(innerWidth, innerHeight);
            var composite := DrawImage(ShadowedArtwork(url, sq.side), sq.x - ShadowPadding, sq.y - ShadowPadding, None);
            Placements([Draw(composite, st)], 0.0, 0.0) == [Placement(url, sq.x, sq.y, Some(Size(sq.side, sq.side)))]
  {
    var sq := ArtworkPlacement(innerWidth, innerHeight);
    var inner := ClippedArtwork(url, sq.side);
    var outer := ShadowedArtwork(url, sq.side);
    var x0, y0 := sq.x - ShadowPadding, sq.y - ShadowPadding;
    assert Placements(inner.content, x0, y0) == [Placement(url, sq.x, sq.y, Some(Size(sq.side, sq.side)))];
    assert Placements(outer.content, x0, y0) == Placements(inner.content, x0, y0);
  }

  /** The first buffer: the bitmap drawn at (40, 40), full size, inside the rounded corners. */
  method PaintClippedArtwork(url: string, side: real) returns (offscreen: Context2D)
    ensures fresh(offscreen)
    ensures offscreen.AsImage() == ClippedArtwork(url, side)
  {
    offscreen := new Context2D(BufferSide(side), BufferSide(side));
    TraceRoundedRect(offscreen, ShadowPadding, ShadowPadding, side, side, ArtworkRadius);
    offscreen.Save();
    offscreen.Clip();
    assert offscreen.state == InitialState.(clips := [RoundedRectPath(ShadowPadding, ShadowPadding, side, side, ArtworkRadius)]);
    offscreen.DrawImage(Bitmap(url), ShadowPadding, ShadowPadding, Some(Size(side, side)));
    offscreen.Restore();
  }

  /** The second buffer: the first one composited at its origin under the drop shadow. */
  method PaintShadowedArtwork(url: string, side: real) returns (shadowCanvas: Context2D)
    ensures fresh(shadowCanvas)
    ensures shadowCanvas.AsImage() == ShadowedArtwork(url, side)
  {
    var offscreen := PaintClippedArtwork(url, side);
    shadowCanvas := new Context2D(BufferSide(side), BufferSide(side));
    shadowCanvas.SetShadowColour(ArtworkShadow.colour);
    shadowCanvas.SetShadowBlur(ArtworkShadow.blur);
    shadowCanvas.SetShadowOffsetY(ArtworkShadow.offsetY);
    shadowCanvas.DrawImage(offscreen.AsImage(), 0.0, 0.0, None);
  }

  /** Loads nothing itself: draws the decoded artwork through the two buffers onto `ctx`. */
  method DrawArtwork(ctx: Context2D, url: string, innerWidth: real, innerHeight: real)
    modifies ctx`log
    ensures var sq := ArtworkPlacement(innerWidth, innerHeight);
            ctx.log == old(ctx.log)
              + [Draw(DrawImage(ShadowedArtwork(url, sq.side), sq.x - ShadowPadding, sq.y - ShadowPadding, None), ctx.state)]
  {
    var artworkSize := Min(innerWidth, innerHeight) * ArtworkScale;
    var x := Margin + (innerWidth - artworkSize) / 2.0;
    var y := Margin + (innerHeight - artworkSize) / 2.0;
    var shadowCanvas := PaintShadowedArtwork(url, artworkSize);
    ctx.DrawImage(shadowCanvas.AsImage(), x - ShadowPadding, y - ShadowPadding, None);
  }

  /** The title, then the artists joined by ", " one line below, both left-aligned at the text margin. */
  method DrawText(ctx: Context2D, track: Track, innerHeight: real)
    modifies ctx`log, ctx`state
    ensures ctx.log == old(ctx.log)
              + [Draw(FillText(track.name, TextX(), TitleY(innerHeight)), TitleState(old(ctx.state))),
                 Draw(FillText(Join(track.artists, ArtistSeparator), TextX(), ArtistY(innerHeight)), ArtistState(old(ctx.state)))]
    ensures ctx.state == ArtistState(old(ctx.state))
  {
    var textX := Margin + TextMargin;
    var titleY := Margin + innerHeight - BottomMargin - TitleRise;

    ctx.SetFont(TitleFont);
    ctx.SetFillStyle(Solid(Css(TitleColour)));
    ctx.SetTextAlign(AlignLeft);
    ctx.FillText(track.name, textX, titleY);

    ctx.SetFont(ArtistFont);
    ctx.SetFillStyle(Solid(Css(ArtistColour)));
    ctx.FillText(Join(track.artists, ArtistSeparator), textX, titleY + LineGap);
  }

  /** The glow's channels, read from the colour string as the source reassigns `r`, `g` and `b`. */
  method ReadChannels(progressColor: string) returns (r: Channel, g: Channel, b: Channel)
    ensures Rgb(r, g, b) == GlowChannels(progressColor)
  {
    r, g, b := Some(29), Some(185), Some(84);
    if StartsWith(progressColor, "#") {
      var hex := progressColor[1..];
      r := ParseHex(Substring(hex, 0, 2));
      g := ParseHex(Substring(hex, 2, 4));
      b := ParseHex(Substring(hex, 4, 6));
    } else if StartsWith(progressColor, "rgb") {
      var rgbMatch := DigitRuns(progressColor);
      if |rgbMatch| >= 3 {
        r := Some(ParseDecimal(rgbMatch[0]));
        g := Some(ParseDecimal(rgbMatch[1]));
        b := Some(ParseDecimal(rgbMatch[2]));
      }
    }
  }

  /** The bar: the bar rectangle filled with the colour string as given. */
  function BarDraw(innerWidth: real, innerHeight: real, ratio: real, colour: string, st: DrawState): Draw
  {
    var bar := BarRect(innerWidth, innerHeight, ratio);
    Draw(FillRect(bar.x, bar.y, bar.w, bar.h), st.(fillStyle := Solid(Css(colour))))
  }

  /** The glow: the band above the bar, filled with the glow gradient under `lighten`. */
  function GlowDraw(innerWidth: real, innerHeight: real, ratio: real, c: Rgb, st: DrawState): Draw
  {
    var band := GlowRect(innerWidth, innerHeight, ratio);
    Draw(FillRect(band.x, band.y, band.w, band.h),
         st.(fillStyle := Fill(GlowGradient(innerWidth, innerHeight, ratio, c)), composite := Lighten))
  }

  /** The glow's vertical gradient, built by adding its three stops in turn. */
  method CreateGlowGradient(top: real, bottom: real, r: Channel, g: Channel, b: Channel) returns (grd: Gradient)
    ensures grd == Linear(Point(0.0, top), Point(0.0, bottom), GlowStops(Rgb(r, g, b)))
  {
    grd := Linear(Point(0.0, top), Point(0.0, bottom), []);
    grd := AddColorStop(grd, Num(0.0), Rgba(r, g, b, 0.0));
    grd := AddColorStop(grd, Num(0.7), Rgba(r, g, b, 0.15));
    grd := AddColorStop(grd, Num(1.0), Rgba(r, g, b, 0.3));
  }

  /** The thin bar along the bottom of the frame, in the colour string as given. */
  method DrawBar(ctx: Context2D, innerWidth: real, innerHeight: real, ratio: real, progressColor: string)
    modifies ctx`log, ctx`state
    ensures ctx.log == old(ctx.log) + [BarDraw(innerWidth, innerHeight, ratio, progressColor, old(ctx.state))]
    ensures ctx.state == old(ctx.state).(fillStyle := Solid(Css(progressColor)))
  {
    var progressBarY := Margin + innerHeight - BarHeight;
    var progressWidth := innerWidth * ratio;
    ctx.SetFillStyle(Solid(Css(progressColor)));
    ctx.FillRect(Margin, progressBarY, progressWidth, BarHeight);
  }

  /** The glow band above the bar, under `lighten`, which is put back to `source-over` afterwards. */
  method DrawGlow(ctx: Context2D, innerWidth: real, innerHeight: real, ratio: real, r: Channel, g: Channel, b: Channel)
    modifies ctx`log, ctx`state
    ensures ctx.log == old(ctx.log) + [GlowDraw(innerWidth, innerHeight, ratio, Rgb(r, g, b), old(ctx.state))]
    ensures ctx.state == old(ctx.state).(fillStyle := Fill(GlowGradient(innerWidth, innerHeight, ratio, Rgb(r, g, b))),
                                         composite := SourceOver)
  {
    var progressBarY := Margin + innerHeight - BarHeight;
    var progressWidth := innerWidth * ratio;
    var glowY := progressBarY - GlowHeight;
    var glowGradient := CreateGlowGradient(glowY, progressBarY, r, g, b);
    ctx.SetFillStyle(Fill(glowGradient));
    ctx.SetComposite(Lighten);
    ctx.FillRect(Margin, glowY, progressWidth, GlowHeight);
    ctx.SetComposite(SourceOver);
  }

  /**
   * The bar in the raw colour string, then the glow above it in the parsed
   * channels under the `lighten` blend mode, which is put back afterwards.
   */
  method DrawProgress(ctx: Context2D, progress: ProgressOptions, innerWidth: real, innerHeight: real)
    requires ShowsBar(Some(progress))
    modifies ctx`log, ctx`state
    ensures var ratio := ProgressRatio(progress.elapsed.value, progress.duration.value);
            var colour := ResolveColour(progress.color);
            && ctx.log == old(ctx.log) + [BarDraw(innerWidth, innerHeight, ratio, colour, old(ctx.state)),
                                          GlowDraw(innerWidth, innerHeight, ratio, GlowChannels(colour), old(ctx.state))]
            && ctx.state == old(ctx.state).(fillStyle := Fill(GlowGradient(innerWidth, innerHeight, ratio, GlowChannels(colour))),
                                             composite := SourceOver)
  {
    var ratio := ProgressRatio(progress.elapsed.value, progress.duration.value);
    var progressColor := ResolveColour(progress.color);
    var r, g, b := ReadChannels(progressColor);
    DrawBar(ctx, innerWidth, innerHeight, ratio, progressColor);
    DrawGlow(ctx, innerWidth, innerHeight, ratio, r, g, b);
  }

  /** The pipeline ended because it threw `error`. */
  predicate ThrewMissingDirection(options: SongPreviewOptions)
  {
    !IsRadial(options.gradient) && options.gradient.direction.None?
  }

  /** The channels the glow is tinted with: those parsed from the resolved progress colour. */
  function ProgressChannels(progress: Option<ProgressOptions>): Rgb
  {
    GlowChannels(ResolveColour(if progress.Some? then progress.value.color else None))
  }

  /** The bar and the glow when the gate lets them through, nothing otherwise. */
  function ProgressDraws(progress: Option<ProgressOptions>, glow: Rgb, innerWidth: real, innerHeight: real, st: DrawState)
    : seq<Draw>
  {
    if ShowsBar(progress) then
      var ratio := ProgressRatio(progress.value.elapsed.value, progress.value.duration.value);
      var colour := ResolveColour(progress.value.color);
      [BarDraw(innerWidth, innerHeight, ratio, colour, st), GlowDraw(innerWidth, innerHeight, ratio, glow, st)]
    else
      []
  }

  /** The state the progress gate leaves behind: the glow's gradient as fill and the blend mode reset, or `st` untouched. */
  function ProgressState(progress: Option<ProgressOptions>, innerWidth: real, innerHeight: real, st: DrawState): DrawState
  {
    if ShowsBar(progress) then
      var ratio := ProgressRatio(progress.value.elapsed.value, progress.value.duration.value);
      st.(fillStyle := Fill(GlowGradient(innerWidth, innerHeight, ratio, ProgressChannels(progress))), composite := SourceOver)
    else
      st
  }

  /** When the bar is shown, all three glow channels parsed to numbers. */
  predicate GlowParsed(progress: Option<ProgressOptions>)
  {
    var c := ProgressChannels(progress);
    ShowsBar(progress) ==> c.r.Some? && c.g.Some? && c.b.Some?
  }

  /** The state the background is filled in: the initial state clipped to the frame, with the gradient as fill. */
  function BackgroundState(options: SongPreviewOptions, grd: Gradient): DrawState
  {
    InitialState.(clips := [FramePath(Width(options), Height(options))], fillStyle := Fill(grd))
  }

  /** The state the title is written in. */
  function TitleState(st: DrawState): DrawState
  {
    st.(font := TitleFont, fillStyle := Solid(Css(TitleColour)), align := AlignLeft)
  }

  /** The state the artists are written in. */
  function ArtistState(st: DrawState): DrawState
  {
    TitleState(st).(font := ArtistFont, fillStyle := Solid(Css(ArtistColour)))
  }

  /** The shadowed artwork, then the title and the artists below it. */
  function ArtworkAndText(track: Track, innerWidth: real, innerHeight: real, st: DrawState): seq<Draw>
  {
    var sq := ArtworkPlacement(innerWidth, innerHeight);
    [ Draw(DrawImage(ShadowedArtwork(track.artworkUrl, sq.side), sq.x - ShadowPadding, sq.y - ShadowPadding, None), st),
      Draw(FillText(track.name, TextX(), TitleY(innerHeight)), TitleState(st)),
      Draw(FillText(Join(track.artists, ArtistSeparator), TextX(), ArtistY(innerHeight)), ArtistState(st)) ]
  }

  /** The artwork is drawn in the state it finds; the captions change only font, fill and alignment. */
  lemma ArtworkAndTextStates(track: Track, innerWidth: real, innerHeight: real, st: DrawState)
    ensures var at := ArtworkAndText(track, innerWidth, innerHeight, st);
            && |at| == 3
            && at[0].state == st && at[1].state == TitleState(st) && at[2].state == ArtistState(st)
            && TitleState(st).clips == ArtistState(st).clips == st.clips
            && TitleState(st).composite == ArtistState(st).composite == st.composite
            && forall k :: 0 <= k < 3 ==> at[k].state.clips == st.clips && at[k].state.composite == st.composite
  {
  }

  /** What is drawn over the background: the artwork, the title, the artists, and the bar and glow when shown. */
  function ForegroundDraws(track: Track, progress: Option<ProgressOptions>, glow: Rgb, innerWidth: real,
                           innerHeight: real, st: DrawState): seq<Draw>
  {
    ArtworkAndText(track, innerWidth, innerHeight, st) + ProgressDraws(progress, glow, innerWidth, innerHeight, ArtistState(st))
  }

  /** The clear over the whole canvas, then the gradient filling the inner frame under the frame clip. */
  function BackgroundDraws(options: SongPreviewOptions): seq<Draw>
    requires !ThrewMissingDirection(options)
  {
    var w, h := Width(options), Height(options);
    var iw, ih := Inner(w), Inner(h);
    [ Draw(ClearRect(0.0, 0.0, w, h), InitialState),
      Draw(FillRect(Margin, Margin, iw, ih), BackgroundState(options, GradientFor(iw, ih, options.gradient).value)) ]
  }

  /** The drawing a successful `generatePreviewImage` records on the main canvas, in order. */
  function RenderLog(options: SongPreviewOptions): seq<Draw>
    requires !ThrewMissingDirection(options)
  {
    var iw, ih := Inner(Width(options)), Inner(Height(options));
    var background := BackgroundState(options, GradientFor(iw, ih, options.gradient).value);
    BackgroundDraws(options)
    + ForegroundDraws(options.track, options.progress, ProgressChannels(options.progress), iw, ih, background)
  }

  /** The artwork, then the title and the artists, leaving the artists' style in place. */
  method DrawArtworkAndText(ctx: Context2D, track: Track, innerWidth: real, innerHeight: real)
    modifies ctx`log, ctx`state
    ensures ctx.log == old(ctx.log) + ArtworkAndText(track, innerWidth, innerHeight, old(ctx.state))
    ensures ctx.state == ArtistState(old(ctx.state))
  {
    DrawArtwork(ctx, track.artworkUrl, innerWidth, innerHeight);
    DrawText(ctx, track, innerHeight);
  }

  /** The progress gate: the bar and its glow when it lets them through, nothing otherwise. */
  method DrawProgressIfShown(ctx: Context2D, progress: Option<ProgressOptions>, innerWidth: real, innerHeight: real)
    modifies ctx`log, ctx`state
    ensures ctx.log == old(ctx.log) + ProgressDraws(progress, ProgressChannels(progress), innerWidth, innerHeight, old(ctx.state))
    ensures ctx.state == ProgressState(progress, innerWidth, innerHeight, old(ctx.state))
  {
    if ShowsBar(progress) {
      DrawProgress(ctx, progress.value, innerWidth, innerHeight);
    }
  }

  /** Everything after a successful artwork load, up to the final `restore`. */
  method DrawForeground(ctx: Context2D, track: Track, progress: Option<ProgressOptions>, innerWidth: real, innerHeight: real)
    modifies ctx`log, ctx`state
    ensures ctx.log == old(ctx.log) + ForegroundDraws(track, progress, ProgressChannels(progress), innerWidth, innerHeight,
                                                      old(ctx.state))
    ensures ctx.state == ProgressState(progress, innerWidth, innerHeight, ArtistState(old(ctx.state)))
    // the clip survives, and a normal blend mode is normal again afterwards
    ensures ctx.state.clips == old(ctx.state.clips)
    ensures old(ctx.state.composite) == SourceOver ==> ctx.state.composite == SourceOver
  {
    ghost var before, st := ctx.log, ctx.state;
    ghost var at := ArtworkAndText(track, innerWidth, innerHeight, st);
    ghost var pd := ProgressDraws(progress, ProgressChannels(progress), innerWidth, innerHeight, ArtistState(st));
    DrawArtworkAndText(ctx, track, innerWidth, innerHeight);
    DrawProgressIfShown(ctx, progress, innerWidth, innerHeight);
    assert ctx.log == before + at + pd;
    AppendAssociates(before, at, pd);
  }

  /**
   * From a fresh canvas: the clear, the frame path saved and clipped, the
   * background gradient and its fill; a linear gradient without direction
   * stops this after the clear.
   */
  method DrawBackground(canvas: Context2D, options: SongPreviewOptions) returns (gradient: Result<Gradient, RenderError>)
    requires canvas.log == [] && canvas.state == InitialState && canvas.stack == []
    modifies canvas
    ensures gradient == GradientFor(Inner(Width(options)), Inner(Height(options)), options.gradient)
    ensures gradient.Failure? <==> ThrewMissingDirection(options)
    ensures gradient.Failure? ==> canvas.log == [Draw(ClearRect(0.0, 0.0, Width(options), Height(options)), InitialState)]
    ensures gradient.Success? ==>
              && canvas.log == BackgroundDraws(options)
              && canvas.state == BackgroundState(options, gradient.value)
              && canvas.stack == [InitialState]
  {
    var width := Dimension(options.width, DefaultWidth);
    var height := Dimension(options.height, DefaultHeight);
    var innerWidth := width - Margin * 2.0;
    var innerHeight := height - Margin * 2.0;

    canvas.ClearRect(0.0, 0.0, width, height);
    TraceRoundedRect(canvas, Margin, Margin, innerWidth, innerHeight, CornerRadius);
    canvas.Save();
    canvas.Clip();
    assert canvas.state == InitialState.(clips := [FramePath(width, height)]);

    gradient := CreateGradient(innerWidth, innerHeight, options.gradient);
    if gradient.Failure? {
      return;
    }
    canvas.SetFillStyle(Fill(gradient.value));
    assert canvas.state == BackgroundState(options, gradient.value);
    canvas.FillRect(Margin, Margin, innerWidth, innerHeight);
  }

  /**
   * `generatePreviewImage`. `artwork` is what fetching the artwork URL
   * yields; `fetched` lists the URLs handed to `loadImage`; `canvas` is the
   * main canvas, whose log is the image on success.
   */
  method GeneratePreview(options: SongPreviewOptions, artwork: LoadResult)
    returns (result: Result<seq<Draw>, RenderError>, fetched: seq<string>, canvas: Context2D)
    // a new canvas of the requested size, or 1920 by 1080 when a size is missing or zero
    ensures fresh(canvas) && canvas.width == Width(options) && canvas.height == Height(options)
    // a linear gradient without direction throws before any fill, load or image draw
    ensures result == Failure(MissingDirection) <==> ThrewMissingDirection(options)
    ensures ThrewMissingDirection(options) ==>
              && fetched == []
              && canvas.log == [Draw(ClearRect(0.0, 0.0, Width(options), Height(options)), InitialState)]
    // a failed artwork load throws after the background, before any buffer, text or bar
    // (with a single gradient colour the stop offset is 0 / 0, and what the canvas then does is not modelled)
    ensures |options.gradient.colors| != 1 ==>
              ((result.Failure? && result.error.ArtworkLoadFailed?) <==> !ThrewMissingDirection(options) && artwork.LoadFailed?)
    ensures |options.gradient.colors| != 1 && !ThrewMissingDirection(options) && artwork.LoadFailed? ==>
              && result.error == ArtworkLoadFailed(artwork.cause)
              && fetched == [options.track.artworkUrl]
              && canvas.log == RenderLog(options)[..2]
    // (nor is what it does with a glow colour whose channels did not parse)
    ensures && |options.gradient.colors| != 1 && GlowParsed(options.progress)
            && !ThrewMissingDirection(options) && artwork.Loaded? ==>
              && result == Success(canvas.log)
              && fetched == [options.track.artworkUrl]
              && canvas.log == RenderLog(options)
              // save and restore balance: the frame clip is gone and the blend mode is back to normal
              && canvas.stack == [] && canvas.state == InitialState
  {
    var width := Dimension(options.width, DefaultWidth);
    var height := Dimension(options.height, DefaultHeight);

    canvas := new Context2D(width, height);
    fetched := [];
    var gradient := DrawBackground(canvas, options);
    if gradient.Failure? {
      return Failure(gradient.error), fetched, canvas;
    }

    result, fetched := DrawOverBackground(canvas, options, artwork);
  }

  /**
   * The rest of `generatePreviewImage` once the background is down: the
   * artwork load, then the foreground and the final `restore`.
   */
  method DrawOverBackground(canvas: Context2D, options: SongPreviewOptions, artwork: LoadResult)
    returns (result: Result<seq<Draw>, RenderError>, fetched: seq<string>)
    requires !ThrewMissingDirection(options)
    requires canvas.log == BackgroundDraws(options) && canvas.stack == [InitialState]
    requires canvas.state == BackgroundState(options, GradientFor(Inner(Width(options)), Inner(Height(options)), options.gradient).value)
    modifies canvas`log, canvas`state, canvas`stack
    ensures fetched == [options.track.artworkUrl]
    ensures artwork.LoadFailed? ==>
              && result == Failure(ArtworkLoadFailed(artwork.cause))
              && canvas.log == RenderLog(options)[..2]
    ensures artwork.Loaded? ==>
              && result == Success(canvas.log)
              && canvas.log == RenderLog(options)
              && canvas.stack == [] && canvas.state == InitialState
  {
    fetched := [options.track.artworkUrl];
    if artwork.LoadFailed? {
      assert RenderLog(options)[..2] == BackgroundDraws(options);
      return Failure(ArtworkLoadFailed(artwork.cause)), fetched;
    }
    DrawForeground(canvas, options.track, options.progress, Inner(Width(options)), Inner(Height(options)));
    assert canvas.log == RenderLog(options);
    canvas.Restore();
    result := Success(canvas.log);
  }

  /**
   * What a successful render draws, in order: the clear, then (all under
   * the frame clip) the gradient background, the shadowed artwork, the
   * title, the artists, and the bar and glow exactly when the gate lets
   * them through; only the glow is drawn with `lighten`.
   */
  ghost predicate SuccessfulRender(options: SongPreviewOptions, log: seq<Draw>)
  {
    && LayeredUnderFrame(options, log)
    && DrawsBackground(options, log)
    && DrawsCaptions(options, log)
    && DrawsProgress(options, log)
  }

  /** Seven draws with the bar, five without; the clear first, the rest under the frame clip; only the glow lightens. */
  ghost predicate LayeredUnderFrame(options: SongPreviewOptions, log: seq<Draw>)
  {
    var w, h := Width(options), Height(options);
    && (|log| == if ShowsBar(options.progress) then 7 else 5)
    && log[0] == Draw(ClearRect(0.0, 0.0, w, h), InitialState)
    && (forall k :: 1 <= k < |log| ==> log[k].state.clips == [FramePath(w, h)])
    && (forall k :: 0 <= k < |log| ==> (log[k].state.composite == Lighten <==> k == 6))
  }

  /** The gradient background over the inner frame: the colours' stops, radial exactly when asked for. */
  ghost predicate DrawsBackground(options: SongPreviewOptions, log: seq<Draw>)
  {
    var iw, ih := Inner(Width(options)), Inner(Height(options));
    && |log| >= 2
    && log[1].op == FillRect(Margin, Margin, iw, ih)
    && log[1].state.fillStyle.Fill?
    && log[1].state.fillStyle.gradient.stops == EvenStops(options.gradient.colors)
    && (log[1].state.fillStyle.gradient.Radial? <==> IsRadial(options.gradient))
  }

  /** The centred, shadowed artwork, then the title and the artists in their fonts and colours. */
  ghost predicate DrawsCaptions(options: SongPreviewOptions, log: seq<Draw>)
  {
    var iw, ih := Inner(Width(options)), Inner(Height(options));
    var sq := ArtworkPlacement(iw, ih);
    && |log| >= 5
    && log[2].op == DrawImage(ShadowedArtwork(options.track.artworkUrl, sq.side), sq.x - ShadowPadding, sq.y - ShadowPadding, None)
    && log[3].op == FillText(options.track.name, TextX(), TitleY(ih))
    && log[3].state.fillStyle == Solid(Css(TitleColour)) && log[3].state.font == TitleFont
    && log[3].state.align == AlignLeft
    && log[4].op == FillText(Join(options.track.artists, ArtistSeparator), TextX(), ArtistY(ih))
    && log[4].state.fillStyle == Solid(Css(ArtistColour)) && log[4].state.font == ArtistFont
    && log[4].state.align == AlignLeft
  }

  /** When the gate lets it through: the bar in the colour as given, then the glow band tinted with its parsed channels. */
  ghost predicate DrawsProgress(options: SongPreviewOptions, log: seq<Draw>)
  {
    var iw, ih := Inner(Width(options)), Inner(Height(options));
    ShowsBar(options.progress) ==>
      var p := options.progress.value;
      var colour := ResolveColour(p.color);
      var ratio := ProgressRatio(p.elapsed.value, p.duration.value);
      var bar := BarRect(iw, ih, ratio);
      var band := GlowRect(iw, ih, ratio);
      && |log| >= 7
      && log[5].op == FillRect(bar.x, bar.y, bar.w, bar.h)
      && log[5].state.fillStyle == Solid(Css(colour))
      && log[6].op == FillRect(band.x, band.y, band.w, band.h)
      && log[6].state.fillStyle == Fill(GlowGradient(iw, ih, ratio, GlowChannels(colour)))
  }

  /** The bar and the glow keep the clip they are drawn under; the glow, and only the glow, uses `lighten`. */
  lemma ProgressKeepsClip(progress: Option<ProgressOptions>, glow: Rgb, innerWidth: real, innerHeight: real, st: DrawState)
    requires st.composite == SourceOver
    ensures var pd := ProgressDraws(progress, glow, innerWidth, innerHeight, st);
            && |pd| == (if ShowsBar(progress) then 2 else 0)
            && (forall k :: 0 <= k < |pd| ==> pd[k].state.clips == st.clips)
            && (forall k :: 0 <= k < |pd| ==> (pd[k].state.composite == Lighten <==> k == 1))
  {
    if ShowsBar(progress) {
      var ratio := ProgressRatio(progress.value.elapsed.value, progress.value.duration.value);
      var colour := ResolveColour(progress.value.color);
      var bar := BarDraw(innerWidth, innerHeight, ratio, colour, st);
      var band := GlowDraw(innerWidth, innerHeight, ratio, glow, st);
      assert ProgressDraws(progress, glow, innerWidth, innerHeight, st) == [bar, band];
      assert bar.state.clips == st.clips && bar.state.composite == SourceOver;
      assert band.state.clips == st.clips && band.state.composite == Lighten;
    }
  }

  /** The foreground keeps the clip it is drawn under, and only the glow, its fifth draw, uses `lighten`. */
  lemma ForegroundKeepsClip(track: Track, progress: Option<ProgressOptions>, glow: Rgb, innerWidth: real,
                            innerHeight: real, st: DrawState)
    requires st.composite == SourceOver
    ensures var fg := ForegroundDraws(track, progress, glow, innerWidth, innerHeight, st);
            && |fg| == (if ShowsBar(progress) then 5 else 3)
            && (forall k :: 0 <= k < |fg| ==> fg[k].state.clips == st.clips)
            && (forall k :: 0 <= k < |fg| ==> (fg[k].state.composite == Lighten <==> k == 4))
  {
    var at := ArtworkAndText(track, innerWidth, innerHeight, st);
    var pd := ProgressDraws(progress, glow, innerWidth, innerHeight, ArtistState(st));
    ProgressKeepsClip(progress, glow, innerWidth, innerHeight, ArtistState(st));
    assert forall k :: 0 <= k < 3 ==> at[k].state.clips == st.clips && at[k].state.composite == SourceOver;
    assert forall k :: 3 <= k < |at + pd| ==> (at + pd)[k] == pd[k - 3];
  }

  /** The clear is drawn with the initial state; the background fill under the frame clip, blending normally. */
  lemma BackgroundInFrame(options: SongPreviewOptions)
    requires !ThrewMissingDirection(options)
    ensures var bg := BackgroundDraws(options);
            && bg[0] == Draw(ClearRect(0.0, 0.0, Width(options), Height(options)), InitialState)
            && bg[0].state.composite == SourceOver
            && bg[1].state == BackgroundState(options, GradientFor(Inner(Width(options)), Inner(Height(options)), options.gradient).value)
            && bg[1].state.clips == [FramePath(Width(options), Height(options))]
            && bg[1].state.composite == SourceOver
  {
  }

  /** Concatenation associates. */
  lemma AppendAssociates<T>(a: seq<T>, b: seq<T>, c: seq<T>)
    ensures a + (b + c) == a + b + c
  {
  }

  /** Where the elements of a three-part concatenation come from. */
  lemma ThreeParts<T>(a: seq<T>, b: seq<T>, c: seq<T>)
    ensures |a + b + c| == |a| + |b| + |c|
    ensures forall k :: 0 <= k < |a| ==> (a + b + c)[k] == a[k]
    ensures forall k :: |a| <= k < |a| + |b| ==> (a + b + c)[k] == b[k - |a|]
    ensures forall k :: |a| + |b| <= k < |a| + |b| + |c| ==> (a + b + c)[k] == c[k - |a| - |b|]
  {
  }

  /** The three draws after a two-draw prefix of a concatenation are those of the middle part. */
  lemma MiddlePart<T>(log: seq<T>, bg: seq<T>, at: seq<T>, pd: seq<T>)
    requires log == bg + at + pd && |bg| == 2 && |at| == 3
    ensures |log| >= 5 && log[2] == at[0] && log[3] == at[1] && log[4] == at[2]
  {
    ThreeParts(bg, at, pd);
  }

  /** The render's log: the two background draws, the artwork and captions, then the progress draws. */
  lemma RenderLogParts(options: SongPreviewOptions)
    requires !ThrewMissingDirection(options)
    ensures var iw, ih := Inner(Width(options)), Inner(Height(options));
            var background := BackgroundState(options, GradientFor(iw, ih, options.gradient).value);
            var at := ArtworkAndText(options.track, iw, ih, background);
            var pd := ProgressDraws(options.progress, ProgressChannels(options.progress), iw, ih, ArtistState(background));
            && RenderLog(options) == BackgroundDraws(options) + at + pd
            && |BackgroundDraws(options)| == 2 && |at| == 3
  {
    var iw, ih := Inner(Width(options)), Inner(Height(options));
    var background := BackgroundState(options, GradientFor(iw, ih, options.gradient).value);
    var at := ArtworkAndText(options.track, iw, ih, background);
    var pd := ProgressDraws(options.progress, ProgressChannels(options.progress), iw, ih, ArtistState(background));
    AppendAssociates(BackgroundDraws(options), at, pd);
  }

  /**
   * A log made of two background draws, three foreground draws in the frame
   * clip and a progress pair whose second draw alone lightens keeps the clip
   * from its second draw on and lightens only at its seventh.
   */
  lemma LayeredParts(log: seq<Draw>, bg: seq<Draw>, at: seq<Draw>, pd: seq<Draw>, clips: seq<Path>)
    requires log == bg + at + pd
    requires |bg| == 2 && |at| == 3
    requires bg[0].state.composite == SourceOver
    requires bg[1].state.clips == clips && bg[1].state.composite == SourceOver
    requires forall k :: 0 <= k < 3 ==> at[k].state.clips == bg[1].state.clips && at[k].state.composite == bg[1].state.composite
    requires forall k :: 0 <= k < |pd| ==> pd[k].state.clips == clips && (pd[k].state.composite == Lighten <==> k == 1)
    ensures |log| == 5 + |pd| && log[0] == bg[0]
    ensures forall k :: 1 <= k < |log| ==> log[k].state.clips == clips
    ensures forall k :: 0 <= k < |log| ==> (log[k].state.composite == Lighten <==> k == 6)
  {
    ThreeParts(bg, at, pd);
  }

  lemma RenderIsLayered(options: SongPreviewOptions)
    requires !ThrewMissingDirection(options)
    ensures LayeredUnderFrame(options, RenderLog(options))
  {
    var w, h := Width(options), Height(options);
    var iw, ih := Inner(w), Inner(h);
    var background := BackgroundState(options, GradientFor(iw, ih, options.gradient).value);
    var at := ArtworkAndText(options.track, iw, ih, background);
    var pd := ProgressDraws(options.progress, ProgressChannels(options.progress), iw, ih, ArtistState(background));
    RenderLogParts(options);
    ProgressKeepsClip(options.progress, ProgressChannels(options.progress), iw, ih, ArtistState(background));
    ArtworkAndTextStates(options.track, iw, ih, background);
    BackgroundInFrame(options);
    LayeredParts(RenderLog(options), BackgroundDraws(options), at, pd, [FramePath(w, h)]);
  }

  /**
   * The render has its two extra draws exactly when the flag is set and both
   * numbers are present and nonzero; an elapsed time of zero draws no bar.
   */
  lemma BarDrawnExactlyWhenGated(options: SongPreviewOptions)
    requires !ThrewMissingDirection(options)
    ensures |RenderLog(options)| == 5 || |RenderLog(options)| == 7
    ensures |RenderLog(options)| == 7 <==>
              && options.progress.Some? && options.progress.value.showBar == Some(true)
              && options.progress.value.duration.Some? && options.progress.value.duration.value != 0.0
              && options.progress.value.elapsed.Some? && options.progress.value.elapsed.value != 0.0
    ensures options.progress.Some? && options.progress.value.elapsed == Some(0.0) ==> |RenderLog(options)| == 5
  {
    RenderIsLayered(options);
  }

  lemma RenderDrawsBackground(options: SongPreviewOptions)
    requires !ThrewMissingDirection(options)
    ensures DrawsBackground(options, RenderLog(options))
  {
    RenderLogParts(options);
    assert RenderLog(options)[1] == BackgroundDraws(options)[1];
  }

  /** Any log that puts the artwork and captions right after a two-draw background draws the captions. */
  lemma CaptionsAfterBackground(options: SongPreviewOptions, log: seq<Draw>, bg: seq<Draw>, st: DrawState, pd: seq<Draw>)
    requires log == bg + ArtworkAndText(options.track, Inner(Width(options)), Inner(Height(options)), st) + pd
    requires |bg| == 2
    ensures DrawsCaptions(options, log)
  {
    var at := ArtworkAndText(options.track, Inner(Width(options)), Inner(Height(options)), st);
    MiddlePart(log, bg, at, pd);
  }

  lemma RenderDrawsCaptions(options: SongPreviewOptions)
    requires !ThrewMissingDirection(options)
    ensures DrawsCaptions(options, RenderLog(options))
  {
    var iw, ih := Inner(Width(options)), Inner(Height(options));
    var background := BackgroundState(options, GradientFor(iw, ih, options.gradient).value);
    var pd := ProgressDraws(options.progress, ProgressChannels(options.progress), iw, ih, ArtistState(background));
    RenderLogParts(options);
    CaptionsAfterBackground(options, RenderLog(options), BackgroundDraws(options), background, pd);
  }

  lemma RenderDrawsProgress(options: SongPreviewOptions)
    requires !ThrewMissingDirection(options)
    ensures DrawsProgress(options, RenderLog(options))
  {
    var iw, ih := Inner(Width(options)), Inner(Height(options));
    var background := BackgroundState(options, GradientFor(iw, ih, options.gradient).value);
    var at := ArtworkAndText(options.track, iw, ih, background);
    var pd := ProgressDraws(options.progress, ProgressChannels(options.progress), iw, ih, ArtistState(background));
    RenderLogParts(options);
    ThreeParts(BackgroundDraws(options), at, pd);
  }

  /** A render that gets past the gradient and the artwork load draws exactly what `SuccessfulRender` describes. */
  lemma RenderIsSuccessful(options: SongPreviewOptions)
    requires !ThrewMissingDirection(options)
    ensures SuccessfulRender(options, RenderLog(options))
  {
    RenderIsLayered(options);
    RenderDrawsBackground(options);
    RenderDrawsCaptions(options);
    RenderDrawsProgress(options);
  }
}
