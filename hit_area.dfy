/** Turning the flat array of a `hitArea` property into the shape the game
    engine is asked to build (src/utils.js, parseHitArea). */
module HitArea {
  import opened Wrappers

  /** The three engine shapes, holding the arguments their constructors
      receive, in the order given. The engine's own geometry is not modelled.
      A polygon built from a string hit area receives the string itself; here
      it holds the string's one-character strings in order, which loses nothing. */
  datatype Shape<+T> =
    | Circle(x: T, y: T, diameter: T)
    | Rectangle(x: T, y: T, width: T, height: T)
    | Polygon(points: seq<T>)

  /** The JavaScript `RangeError` thrown for a malformed hit area. */
  datatype RangeError = RangeError(message: string)

  const StrangeLengthMessage: string :=
    "Strange number of values for hitArea! Should be a flat array of values, like: "
    + "[cx,cy,di] for a circle, [x,y,w,h] for a rectangle, or [x,y,x,y,...] for other polygons."

  /** The flat array a shape is built from: the inverse of ParseHitArea. */
  function Flatten<T>(s: Shape<T>): seq<T>
  {
    match s
    case Circle(x, y, d) => [x, y, d]
    case Rectangle(x, y, w, h) => [x, y, w, h]
    case Polygon(ps) => ps
  }

  /** A shape ParseHitArea can produce: a polygon never has an odd number of
      values, nor exactly four (those make a rectangle). */
  predicate WellFormed<T>(s: Shape<T>)
  {
    s.Polygon? ==> |s.points| % 2 == 0 && |s.points| != 4
  }

  /** Length 3 is a circle, length 4 a rectangle, any other even length
      (0 and 2 included) a polygon over the whole array; every other odd
      length is refused. */
  function ParseHitArea<T>(hv: seq<T>): (r: Result<Shape<T>, RangeError>)
    ensures r.Failure? <==> |hv| % 2 == 1 && |hv| != 3
    ensures r.Failure? ==> r.error == RangeError(StrangeLengthMessage)
    ensures r.Success? ==> Flatten(r.value) == hv && WellFormed(r.value)
    ensures r.Success? ==> (r.value.Circle? <==> |hv| == 3) && (r.value.Rectangle? <==> |hv| == 4)
  {
    if |hv| % 2 != 0 && |hv| != 3 then
      Failure(RangeError(StrangeLengthMessage))
    else if |hv| == 3 then
      Success(Circle(hv[0], hv[1], hv[2]))
    else if |hv| == 4 then
      Success(Rectangle(hv[0], hv[1], hv[2], hv[3]))
    else
      Success(Polygon(hv))
  }

  /** The other half of the round trip: every shape ParseHitArea can produce
      is recovered from its flat array. */
  lemma ParseFlatten<T>(s: Shape<T>)
    requires WellFormed(s)
    ensures ParseHitArea(Flatten(s)) == Success(s)
  {
  }

  /** The empty array and a single point are accepted and become degenerate
      polygons, although the documentation speaks of polygons of five or more
      values. */
  lemma DegeneratePolygons<T>(hv: seq<T>)
    requires |hv| == 0 || |hv| == 2
    ensures ParseHitArea(hv) == Success(Polygon(hv))
  {
  }
}
