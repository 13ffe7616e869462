/**
 * Background gradient synthesis: the compass-to-point map, the evenly
 * spaced colour stops, and `createGradient`, which picks a radial or a
 * linear gradient and adds one stop per colour in a loop.
 */
module Gradients {
  import opened Wrappers
  import opened Canvas
  import opened Errors

  /** The eight compass names a linear gradient may start or end at. */
  datatype Compass = Top | Bottom | Left | Right | TopLeft | TopRight | BottomLeft | BottomRight

  /** The string the source's `GradientDirection` union uses for each compass point. */
  function Name(c: Compass): string
  {
    match c
    case Top => "top"
    case Bottom => "bottom"
    case Left => "left"
    case Right => "right"
    case TopLeft => "topleft"
    case TopRight => "topright"
    case BottomLeft => "bottomleft"
    case BottomRight => "bottomright"
  }

  /**
   * Start and end names of a linear gradient. They are strings, not
   * `Compass` values: the source switches on the string at run time and
   * has a default case for any other value.
   */
  datatype GradientDirection = GradientDirection(start: string, end: string)

  /** `kind` is the `type` field, which may be absent at run time. */
  datatype GradientOptions = GradientOptions(
    kind: Option<string>,
    colors: seq<string>,
    direction: Option<GradientDirection>)

  predicate IsRadial(options: GradientOptions)
  {
    options.kind == Some("radial")
  }

  function Max(a: real, b: real): (m: real)
    ensures a <= m && b <= m && (m == a || m == b)
  {
    if a < b then b else a
  }

  /** `getCoordinates`: the point of a `width` x `height` box a compass name stands for. */
  function Coordinates(position: string, width: real, height: real): (p: Point)
    ensures 0.0 <= width && 0.0 <= height ==> 0.0 <= p.x <= width && 0.0 <= p.y <= height
  {
    if position == "top" then Point(width / 2.0, 0.0)
    else if position == "bottom" then Point(width / 2.0, height)
    else if position == "left" then Point(0.0, height / 2.0)
    else if position == "right" then Point(width, height / 2.0)
    else if position == "topleft" then Point(0.0, 0.0)
    else if position == "topright" then Point(width, 0.0)
    else if position == "bottomleft" then Point(0.0, height)
    else if position == "bottomright" then Point(width, height)
    else Point(0.0, 0.0)
  }

  /** A name outside the eight compass names falls back to the origin. */
  lemma UnknownNameIsOrigin(position: string, width: real, height: real)
    requires forall c :: Name(c) != position
    ensures Coordinates(position, width, height) == Point(0.0, 0.0)
  {
    assert Name(Top) != position && Name(Bottom) != position;
    assert Name(Left) != position && Name(Right) != position;
    assert Name(TopLeft) != position && Name(TopRight) != position;
    assert Name(BottomLeft) != position && Name(BottomRight) != position;
  }

  /** Where a compass point sits across the box: 0 at the left, 1/2 mid-way, 1 at the right. */
  function Across(c: Compass): real
  {
    if c in {Left, TopLeft, BottomLeft} then 0.0
    else if c in {Right, TopRight, BottomRight} then 1.0
    else 0.5
  }

  /** Where a compass point sits down the box: 0 at the top, 1/2 mid-way, 1 at the bottom. */
  function Down(c: Compass): real
  {
    if c in {Top, TopLeft, TopRight} then 0.0
    else if c in {Bottom, BottomLeft, BottomRight} then 1.0
    else 0.5
  }

  function Opposite(c: Compass): Compass
  {
    match c
    case Top => Bottom
    case Bottom => Top
    case Left => Right
    case Right => Left
    case TopLeft => BottomRight
    case TopRight => BottomLeft
    case BottomLeft => TopRight
    case BottomRight => TopLeft
  }

  /** Every compass name maps to the point its two axis positions describe. */
  lemma CoordinatesByAxes(c: Compass, width: real, height: real)
    ensures Coordinates(Name(c), width, height) == Point(Across(c) * width, Down(c) * height)
  {
    match c
    case Top =>
    case Bottom =>
    case Left =>
    case Right =>
    case TopLeft =>
    case TopRight =>
    case BottomLeft =>
    case BottomRight =>
  }

  /** Opposite compass names map to points mirrored through the centre of the box. */
  lemma OppositeIsMirrored(c: Compass, width: real, height: real)
    ensures Coordinates(Name(Opposite(c)), width, height)
         == Point(width - Coordinates(Name(c), width, height).x, height - Coordinates(Name(c), width, height).y)
  {
    CoordinatesByAxes(c, width, height);
    CoordinatesByAxes(Opposite(c), width, height);
  }

  /** Offset of stop `i` of `n`: i/(n-1), which is 0/0, NaN, for a single colour. */
  function StopOffset(i: nat, n: nat): Number
  {
    if n == 1 then NaN else Num(i as real / (n as real - 1.0))
  }

  /** The stops `createGradient` adds: one per colour, in order, evenly spaced. */
  function EvenStops(colors: seq<string>): (stops: seq<ColourStop>)
    ensures |stops| == |colors|
    ensures forall i :: 0 <= i < |stops| ==> stops[i].colour == Css(colors[i])
    ensures |colors| == 1 ==> stops[0].offset == NaN
    ensures |colors| >= 2 ==> stops[0].offset == Num(0.0) && stops[|stops| - 1].offset == Num(1.0)
    ensures |colors| >= 2 ==> forall i :: 0 <= i < |stops| ==> stops[i].offset.Num?
    ensures |colors| >= 2 ==> forall i :: 0 < i < |stops| ==>
              stops[i].offset.value - stops[i - 1].offset.value == 1.0 / (|colors| as real - 1.0)
  {
    var n := |colors|;
    var stops := seq(n, i requires 0 <= i < n => ColourStop(StopOffset(i, n), Css(colors[i])));
    assert n >= 2 ==> stops[0].offset == Num(0.0 / (n as real - 1.0));
    assert n >= 2 ==> stops[n - 1].offset == Num((n as real - 1.0) / (n as real - 1.0));
    stops
  }

  /** With at least two colours the offsets strictly increase and stay within [0, 1]. */
  lemma StopsIncrease(colors: seq<string>, i: nat, j: nat)
    requires |colors| >= 2 && i < j < |colors|
    ensures 0.0 <= EvenStops(colors)[i].offset.value < EvenStops(colors)[j].offset.value <= 1.0
  {
    var stops, d := EvenStops(colors), |colors| as real - 1.0;
    assert stops[i].offset.value == i as real / d;
    assert stops[j].offset.value == j as real / d;
    DivideIsMonotone(0.0, i as real, d);
    DivideIsMonotone(i as real, j as real, d);
    DivideIsMonotone(j as real, d, d);
  }

  lemma DivideIsMonotone(a: real, b: real, d: real)
    requires a <= b && 0.0 < d
    ensures a / d <= b / d
    ensures a < b ==> a / d < b / d
  {
    assert a / d * d == a && b / d * d == b;
  }

  function AddColorStop(g: Gradient, offset: Number, colour: Colour): (g': Gradient)
    ensures g'.stops == g.stops + [ColourStop(offset, colour)]
    ensures g'.(stops := []) == g.(stops := [])
  {
    g.(stops := g.stops + [ColourStop(offset, colour)])
  }

  /** The gradient `createGradient` builds, or the error it throws. */
  function GradientFor(width: real, height: real, options: GradientOptions): Result<Gradient, RenderError>
  {
    if IsRadial(options) then
      Success(Radial(Point(width / 2.0, height / 2.0), 0.0, Max(width, height) / 2.0, EvenStops(options.colors)))
    else if options.direction.None? then
      Failure(MissingDirection)
    else
      Success(Linear(Coordinates(options.direction.value.start, width, height),
                     Coordinates(options.direction.value.end, width, height), EvenStops(options.colors)))
  }

  /**
   * `createGradient`: a radial gradient centred in the box, or a linear one
   * between the two compass points, with one stop added per colour.
   */
  method CreateGradient(width: real, height: real, options: GradientOptions) returns (r: Result<Gradient, RenderError>)
    ensures r == GradientFor(width, height, options)
    ensures r.Failure? <==> !IsRadial(options) && options.direction.None?
    ensures r.Failure? ==> r.error == MissingDirection
    ensures r.Success? ==> r.value.stops == EvenStops(options.colors)
    ensures IsRadial(options) ==>
              && r.Success? && r.value.Radial?
              && r.value.centre == Point(width / 2.0, height / 2.0)
              && r.value.innerRadius == 0.0 && r.value.outerRadius == Max(width, height) / 2.0
    ensures !IsRadial(options) && options.direction.Some? ==>
              && r.Success? && r.value.Linear?
              && r.value.start == Coordinates(options.direction.value.start, width, height)
              && r.value.end == Coordinates(options.direction.value.end, width, height)
  {
    var grd: Gradient;
    if IsRadial(options) {
      grd := Radial(Point(width / 2.0, height / 2.0), 0.0, Max(width, height) / 2.0, []);
    } else {
      if options.direction.None? {
        return Failure(MissingDirection);
      }
      var p1 := Coordinates(options.direction.value.start, width, height);
      var p2 := Coordinates(options.direction.value.end, width, height);
      grd := Linear(p1, p2, []);
    }
    ghost var shape := grd;
    var colors := options.colors;
    var i := 0;
    while i < |colors|
      invariant 0 <= i <= |colors|
      invariant grd.(stops := []) == shape
      invariant grd.stops == EvenStops(colors)[..i]
    {
      grd := AddColorStop(grd, StopOffset(i, |colors|), Css(colors[i]));
      i := i + 1;
    }
    assert grd.stops == EvenStops(colors);
    assert grd == shape.(stops := EvenStops(colors));
    return Success(grd);
  }
}
