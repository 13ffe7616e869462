/**
 * The arithmetic of the preview card: frame size and inset, the rounded
 * frame outline, the artwork square, the text anchors, the progress gate
 * and ratio, and the bar and glow rectangles. All of it is exact `real`
 * arithmetic over the source's constants.
 */
module Layout {
  import opened Wrappers
  import opened Canvas
  import opened ProgressColour

  const Margin: real := 8.0
  const CornerRadius: real := 24.0
  const DefaultWidth: real := 1920.0
  const DefaultHeight: real := 1080.0

  const ArtworkScale: real := 0.6
  const ShadowPadding: real := 40.0
  const ArtworkRadius: real := 20.0

  const TextMargin: real := 48.0
  const BottomMargin: real := 40.0
  const TitleRise: real := 32.0
  const LineGap: real := 28.0

  const BarHeight: real := 2.0
  const GlowHeight: real := 10.0

  datatype Rect = Rect(x: real, y: real, w: real, h: real)

  datatype Square = Square(x: real, y: real, side: real)

  function Min(a: real, b: real): (m: real)
    ensures m <= a && m <= b && (m == a || m == b)
  {
    if a < b then a else b
  }

  /** `given || fallback`: a missing or zero size is replaced by the default. */
  function Dimension(given: Option<real>, fallback: real): (d: real)
    ensures given.Some? && given.value != 0.0 ==> d == given.value
    ensures d == fallback || given == Some(d)
    ensures fallback != 0.0 ==> d != 0.0
  {
    if given.None? || given.value == 0.0 then fallback else given.value
  }

  /** Width or height of the frame once the margin is taken off both sides. */
  function Inner(size: real): (inner: real)
    ensures Margin + inner + Margin == size
  {
    size - Margin * 2.0
  }

  /**
   * The outline the source traces with one moveTo and four arcTo calls:
   * clockwise from the top edge, rounding each corner with radius `r`.
   */
  function RoundedRectPath(x: real, y: real, w: real, h: real, r: real): (path: Path)
    ensures |path| == 6 && path[0].MoveTo? && path[5] == ClosePath
    ensures forall k :: 1 <= k < 5 ==> path[k].ArcTo? && path[k].radius == r
    // the corners in clockwise order from the top right
    ensures && path[1].corner == Point(x + w, y) && path[2].corner == Point(x + w, y + h)
            && path[3].corner == Point(x, y + h) && path[4].corner == Point(x, y)
  {
    [ MoveTo(Point(x + r, y)),
      ArcTo(Point(x + w, y), Point(x + w, y + h), r),
      ArcTo(Point(x + w, y + h), Point(x, y + h), r),
      ArcTo(Point(x, y + h), Point(x, y), r),
      ArcTo(Point(x, y), Point(x + w, y), r),
      ClosePath ]
  }

  /** `p` lies on the outline of the rectangle with corner (x, y) and size w x h. */
  predicate OnOutline(p: Point, x: real, y: real, w: real, h: real)
  {
    || ((p.x == x || p.x == x + w) && y <= p.y <= y + h)
    || ((p.y == y || p.y == y + h) && x <= p.x <= x + w)
  }

  /** Every point the outline path names lies on the rectangle's edges, when the radius fits. */
  lemma PathStaysOnOutline(x: real, y: real, w: real, h: real, r: real)
    requires 0.0 <= r <= w && 0.0 <= h
    ensures forall cmd :: cmd in RoundedRectPath(x, y, w, h, r) && cmd.MoveTo? ==> OnOutline(cmd.p, x, y, w, h)
    ensures forall cmd :: cmd in RoundedRectPath(x, y, w, h, r) && cmd.ArcTo? ==>
              OnOutline(cmd.corner, x, y, w, h) && OnOutline(cmd.toward, x, y, w, h)
  {
    var path := RoundedRectPath(x, y, w, h, r);
    forall cmd | cmd in path
      ensures cmd.MoveTo? ==> OnOutline(cmd.p, x, y, w, h)
      ensures cmd.ArcTo? ==> OnOutline(cmd.corner, x, y, w, h) && OnOutline(cmd.toward, x, y, w, h)
    {
      var k :| 0 <= k < |path| && path[k] == cmd;
    }
  }

  /** The frame outline: the canvas inset by the margin, with the card's corner radius. */
  function FramePath(width: real, height: real): Path
  {
    RoundedRectPath(Margin, Margin, Inner(width), Inner(height), CornerRadius)
  }

  /** The frame's corners are the canvas corners moved in by the margin on both axes. */
  lemma FrameIsInsetByMargin(width: real, height: real)
    ensures var path := FramePath(width, height);
            && path[1].corner == Point(width - Margin, Margin) && path[2].corner == Point(width - Margin, height - Margin)
            && path[3].corner == Point(Margin, height - Margin) && path[4].corner == Point(Margin, Margin)
  {
  }

  /** The artwork square: 0.6 of the shorter inner side, centred in the inner frame. */
  function ArtworkPlacement(innerWidth: real, innerHeight: real): (sq: Square)
    ensures sq.side == ArtworkScale * Min(innerWidth, innerHeight)
    ensures sq.x - Margin == (Margin + innerWidth) - (sq.x + sq.side)
    ensures sq.y - Margin == (Margin + innerHeight) - (sq.y + sq.side)
    ensures 0.0 <= innerWidth && 0.0 <= innerHeight ==>
              && Margin <= sq.x && sq.x + sq.side <= Margin + innerWidth
              && Margin <= sq.y && sq.y + sq.side <= Margin + innerHeight
  {
    var side := Min(innerWidth, innerHeight) * ArtworkScale;
    Square(Margin + (innerWidth - side) / 2.0, Margin + (innerHeight - side) / 2.0, side)
  }

  /** Side of the two offscreen buffers: the artwork plus the shadow padding on both sides. */
  function BufferSide(side: real): (b: real)
    ensures ShadowPadding + side + ShadowPadding == b
  {
    side + ShadowPadding * 2.0
  }

  /** The artwork clip inside a buffer: the padding is the same on all four sides. */
  lemma ArtworkClipIsPadded(side: real)
    ensures var path := RoundedRectPath(ShadowPadding, ShadowPadding, side, side, ArtworkRadius);
            && path[2].corner == Point(BufferSide(side) - ShadowPadding, BufferSide(side) - ShadowPadding)
            && path[4].corner == Point(ShadowPadding, ShadowPadding)
  {
  }

  /** Left edge of both text lines: 48 inside the inner frame. */
  function TextX(): (x: real)
    ensures x - Margin == TextMargin
  {
    Margin + TextMargin
  }

  /** Baseline of the title: 72 above the inner bottom edge. */
  function TitleY(innerHeight: real): (y: real)
    ensures (Margin + innerHeight) - y == BottomMargin + TitleRise
  {
    Margin + innerHeight - BottomMargin - TitleRise
  }

  /** Baseline of the artist line: one line gap below the title. */
  function ArtistY(innerHeight: real): (y: real)
    ensures y - TitleY(innerHeight) == LineGap
  {
    TitleY(innerHeight) + LineGap
  }

  /** `parts.join(sep)`. */
  function Join(parts: seq<string>, sep: string): (s: string)
    ensures parts == [] ==> s == []
    ensures |parts| == 1 ==> s == parts[0]
    ensures parts != [] ==> |s| == TotalLength(parts) + (|parts| - 1) * |sep|
  {
    if parts == [] then []
    else if |parts| == 1 then parts[0]
    else parts[0] + sep + Join(parts[1..], sep)
  }

  function TotalLength(parts: seq<string>): nat
  {
    if parts == [] then 0 else |parts[0]| + TotalLength(parts[1..])
  }

  /** Joining one more part appends the separator and the part: the left-to-right reading of join. */
  lemma {:induction false} JoinAppend(parts: seq<string>, p: string, sep: string)
    requires parts != []
    ensures Join(parts + [p], sep) == Join(parts, sep) + sep + p
    decreases |parts|
  {
    if |parts| == 1 {
      assert (parts + [p])[1..] == [p];
    } else {
      assert (parts + [p])[1..] == parts[1..] + [p];
      JoinAppend(parts[1..], p, sep);
    }
  }

  /** The source's progress options; every field may be absent. */
  datatype ProgressOptions = ProgressOptions(
    showBar: Option<bool>,
    duration: Option<real>,
    elapsed: Option<real>,
    color: Option<string>)

  predicate TruthyFlag(b: Option<bool>)
  {
    b == Some(true)
  }

  /** A JavaScript number is truthy when present and not zero (NaN is not modelled). */
  predicate TruthyNumber(n: Option<real>)
  {
    n.Some? && n.value != 0.0
  }

  /** `progress?.showBar && progress?.duration && progress?.elapsed`. */
  predicate ShowsBar(progress: Option<ProgressOptions>)
  {
    && progress.Some?
    && TruthyFlag(progress.value.showBar)
    && TruthyNumber(progress.value.duration)
    && TruthyNumber(progress.value.elapsed)
  }

  /** `Math.min(elapsed / duration, 1)`: never above 1, and no lower clamp. */
  function ProgressRatio(elapsed: real, duration: real): (ratio: real)
    requires duration != 0.0
    ensures ratio <= 1.0
    ensures elapsed / duration <= 1.0 ==> ratio == elapsed / duration
    ensures elapsed / duration >= 1.0 ==> ratio == 1.0
  {
    if elapsed / duration < 1.0 then elapsed / duration else 1.0
  }

  /** Elapsed within (0, duration] gives the plain fraction; at or past the end the bar is full. */
  lemma RatioWithinTrack(elapsed: real, duration: real)
    requires 0.0 < duration
    ensures 0.0 < elapsed <= duration ==> 0.0 < ProgressRatio(elapsed, duration) == elapsed / duration
    ensures duration <= elapsed ==> ProgressRatio(elapsed, duration) == 1.0
    ensures elapsed < 0.0 ==> ProgressRatio(elapsed, duration) < 0.0
  {
    if elapsed <= duration {
      assert elapsed / duration * duration == elapsed;
    } else {
      assert elapsed / duration * duration == elapsed;
    }
  }

  /** The thin bar: flush with the inner bottom edge, `ratio` of the inner width. */
  function BarRect(innerWidth: real, innerHeight: real, ratio: real): (r: Rect)
    ensures r.x == Margin && r.y + r.h == Margin + innerHeight
    ensures r.h == BarHeight && r.w == innerWidth * ratio
  {
    Rect(Margin, Margin + innerHeight - BarHeight, innerWidth * ratio, BarHeight)
  }

  /** The glow band: as wide as the bar, 10 tall, ending exactly on the bar's top edge. */
  function GlowRect(innerWidth: real, innerHeight: real, ratio: real): (r: Rect)
    ensures var bar := BarRect(innerWidth, innerHeight, ratio);
            r.x == bar.x && r.w == bar.w && r.h == GlowHeight && r.y + r.h == bar.y
  {
    var barY := Margin + innerHeight - BarHeight;
    Rect(Margin, barY - GlowHeight, innerWidth * ratio, GlowHeight)
  }

  /** A shown bar never reaches past the right end of the inner frame. */
  lemma BarFitsFrame(innerWidth: real, innerHeight: real, elapsed: real, duration: real)
    requires duration != 0.0 && 0.0 <= innerWidth
    ensures Margin + BarRect(innerWidth, innerHeight, ProgressRatio(elapsed, duration)).w <= Margin + innerWidth
  {
    var ratio := ProgressRatio(elapsed, duration);
    assert innerWidth * ratio <= innerWidth * 1.0;
  }

  /** Both text baselines sit above the glow band. */
  lemma TextClearsGlow(innerWidth: real, innerHeight: real, ratio: real)
    ensures TitleY(innerHeight) < ArtistY(innerHeight) < GlowRect(innerWidth, innerHeight, ratio).y
  {
  }

  /** The glow's colour stops: the parsed channels fading in from alpha 0 to 0.15 at 70% and 0.3. */
  function GlowStops(c: Rgb): (stops: seq<ColourStop>)
    ensures |stops| == 3
    ensures forall k :: 0 <= k < 3 ==>
              && stops[k].colour.Rgba?
              && stops[k].colour.r == c.r && stops[k].colour.g == c.g && stops[k].colour.b == c.b
    ensures forall k :: 0 <= k < 3 ==> stops[k].offset.Num? && 0.0 <= stops[k].offset.value <= 1.0
    ensures stops[0].offset == Num(0.0) && stops[2].offset == Num(1.0)
    // the glow fades in towards the bar: later stops are further down and more opaque
    ensures forall j, k :: 0 <= j < k < 3 ==>
              && stops[j].offset.value < stops[k].offset.value
              && stops[j].colour.alpha < stops[k].colour.alpha
    ensures stops[0].colour.alpha == 0.0 && stops[2].colour.alpha == 0.3
    ensures stops[1].offset == Num(0.7) && stops[1].colour.alpha == 0.15
  {
    [ ColourStop(Num(0.0), Rgba(c.r, c.g, c.b, 0.0)),
      ColourStop(Num(0.7), Rgba(c.r, c.g, c.b, 0.15)),
      ColourStop(Num(1.0), Rgba(c.r, c.g, c.b, 0.3)) ]
  }

  /** The glow gradient runs straight down the glow band, from its top to the bar's top. */
  function GlowGradient(innerWidth: real, innerHeight: real, ratio: real, c: Rgb): (g: Gradient)
    ensures g.Linear? && g.start.x == g.end.x == 0.0
    ensures g.start.y == GlowRect(innerWidth, innerHeight, ratio).y
    ensures g.end.y == BarRect(innerWidth, innerHeight, ratio).y
    ensures g.stops == GlowStops(c)
  {
    var barY := Margin + innerHeight - BarHeight;
    Linear(Point(0.0, barY - GlowHeight), Point(0.0, barY), GlowStops(c))
  }
}
