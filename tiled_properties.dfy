/** Normalising the string-valued properties Tiled attaches to map objects
    (src/utils.js, parseTiledProperties): every value is coerced to a number,
    a boolean or a parsed JSON value, a `hitArea` becomes a shape, static and
    sensor bodies are made immovable, and a marker property makes the whole
    operation run at most once per bag. */
module TiledProperties {
  import opened Wrappers
  import opened HitArea
  import opened JsValues

  /** The two host parsers the coercion relies on, left uninterpreted.
      `parseFloat` converts its argument to a string and parses the longest
      numeric prefix ("3px" gives 3), yielding NaN when there is none;
      `parseJson` is `JSON.parse`, with None standing for a thrown
      SyntaxError. */
  datatype Parsers = Parsers(parseFloat: Value -> Number, parseJson: Value -> Option<Value>)

  /** The property that records that a bag has been normalised. */
  const Marker: string := "__tiledparsed"

  /** The properties written after the per-key coercion. */
  const Written: set<string> := {"hitArea", "mass", "inertia", Marker}

  /** The state a bag is left in, and the exception thrown if any. */
  datatype Parsed = Parsed(props: map<string, Value>, thrown: Option<RangeError>)

  /** One property value, coerced as the loop body does it: a parse that is
      `0` or truthy wins, then the exact strings "true" and "false", then JSON;
      a JSON failure leaves the value as it was. */
  function Coerce(v: Value, p: Parsers): (r: Value)
    // any numeric parse other than NaN wins, a parse to 0 included
    ensures p.parseFloat(v) != NaN ==> r == Num(p.parseFloat(v))
    // the value changes only when one of the three probes succeeds
    ensures r != v ==>
              p.parseFloat(v) != NaN || v == Str("true") || v == Str("false") || p.parseJson(v).Some?
  {
    var n := p.parseFloat(v);
    if n == Finite(0.0) || Truthy(Num(n)) then Num(n)
    else if v == Str("true") then Bool(true)
    else if v == Str("false") then Bool(false)
    else match p.parseJson(v)
      case Some(j) => j
      case None => v
  }

  /** Independent statement of the precedence: each probe either succeeds
      with a replacement value or declines. */
  function NumberProbe(v: Value, p: Parsers): Option<Value>
  {
    if p.parseFloat(v) == NaN then None else Some(Num(p.parseFloat(v)))
  }

  function BooleanProbe(v: Value): Option<Value>
  {
    match v
    case Str(s) => if s == "true" then Some(Bool(true))
                   else if s == "false" then Some(Bool(false))
                   else None
    case _ => None
  }

  /** The value of the first probe that succeeds, or the fallback. */
  function FirstOf(probes: seq<Option<Value>>, fallback: Value): Value
  {
    if probes == [] then fallback
    else if probes[0].Some? then probes[0].value
    else FirstOf(probes[1..], fallback)
  }

  /** The source's test `n === 0 || n` accepts exactly the parses that are
      not NaN, so a value parsing to 0 is a number, not a fall-through. */
  lemma NumericTestIsNotNaN(n: Number)
    ensures (n == Finite(0.0) || Truthy(Num(n))) <==> n != NaN
  {
  }

  /** Coerce follows the precedence number, boolean literal, JSON, raw value. */
  lemma CoerceIsProbeChain(v: Value, p: Parsers)
    ensures Coerce(v, p) == FirstOf([NumberProbe(v, p), BooleanProbe(v), p.parseJson(v)], v)
  {
    NumericTestIsNotNaN(p.parseFloat(v));
    var probes := [NumberProbe(v, p), BooleanProbe(v), p.parseJson(v)];
    assert probes[1..] == [BooleanProbe(v), p.parseJson(v)];
    assert probes[1..][1..] == [p.parseJson(v)];
    assert probes[1..][1..][1..] == [];
    assert FirstOf(probes[1..][1..], v) == p.parseJson(v).GetOr(v);
    assert (v == Str("true") || v == Str("false")) <==> BooleanProbe(v).Some?;
  }

  /** The bag after the `for…in` loop: every key coerced, none added or removed. */
  function CoerceAll(m: map<string, Value>, p: Parsers): (r: map<string, Value>)
    ensures r.Keys == m.Keys
    ensures forall k :: k in m ==> r[k] == Coerce(m[k], p)
  {
    map k | k in m :: Coerce(m[k], p)
  }

  /** A string as JavaScript indexes it: `s[i]` is the one-character string at `i`. */
  function Characters(s: string): seq<Value>
  {
    seq(|s|, i requires 0 <= i < |s| => Str([s[i]]))
  }

  /** `utils.parseHitArea(obj.hitArea)` on a JavaScript value: an array and a
      string (indexed character by character) have a length; any other truthy
      value has none, and `undefined % 2 !== 0` makes it a RangeError. Only
      truthy values reach it: on null or undefined, reading `length` would
      throw a TypeError instead. */
  function ParseHitAreaValue(v: Value): (r: Result<Shape<Value>, RangeError>)
    requires Truthy(v)
    ensures v.Arr? ==> r == ParseHitArea(v.items)
    ensures !v.Arr? && !v.Str? ==> r == Failure(RangeError(StrangeLengthMessage))
    ensures v.Str? ==> (r.Success? <==> |v.s| % 2 == 0 || |v.s| == 3)
    ensures v.Str? && r.Success? ==> Flatten(r.value) == Characters(v.s)
    ensures v.Str? && r.Success? ==> WellFormed(r.value)
    ensures r.Failure? ==> r.error == RangeError(StrangeLengthMessage)
  {
    match v
    case Arr(items) => ParseHitArea(items)
    case Str(s) => ParseHitArea(Characters(s))
    case _ => Failure(RangeError(StrangeLengthMessage))
  }

  /** `obj.body === 'static' || obj.sensor`: a body that must not move. */
  predicate Immovable(m: map<string, Value>)
  {
    Get(m, "body") == Str("static") || Truthy(Get(m, "sensor"))
  }

  /** What the steps after the loop do to an already coerced bag `m`. */
  function Finish(m: map<string, Value>): (r: Parsed)
    // no property is removed, and only the four written ones can be added
    ensures m.Keys <= r.props.Keys <= m.Keys + Written
    // every property the final steps do not write is left alone
    ensures forall k :: k in m && k !in Written ==> r.props[k] == m[k]
    // a completed run leaves the marker set
    ensures r.thrown.None? ==> Get(r.props, Marker) == Bool(true)
    // the RangeError of a malformed hit area propagates, nothing written
    ensures r.thrown.Some? <==> Truthy(Get(m, "hitArea")) && ParseHitAreaValue(m["hitArea"]).Failure?
    ensures r.thrown.Some? ==> r.props == m
    ensures r.thrown.Some? ==> r.thrown.value == ParseHitAreaValue(m["hitArea"]).error
    // on success exactly the marker, and for an immovable body mass and inertia, are added
    ensures r.thrown.None? ==>
              r.props.Keys == m.Keys + {Marker} + (if Immovable(m) then {"mass", "inertia"} else {})
    // a truthy hit area is replaced by its shape, a falsy one left alone
    ensures r.thrown.None? ==>
              Get(r.props, "hitArea") ==
                if Truthy(Get(m, "hitArea")) then ShapeV(ParseHitAreaValue(m["hitArea"]).value)
                else Get(m, "hitArea")
    // mass and inertia become Infinity exactly for static or sensor bodies
    ensures r.thrown.None? && Immovable(m) ==>
              Get(r.props, "mass") == PositiveInfinity && Get(r.props, "inertia") == PositiveInfinity
    ensures r.thrown.None? && !Immovable(m) ==>
              Get(r.props, "mass") == Get(m, "mass") && Get(r.props, "inertia") == Get(m, "inertia")
  {
    var withShape :=
      if Truthy(Get(m, "hitArea")) then
        match ParseHitAreaValue(m["hitArea"])
        case Success(shape) => Success(m["hitArea" := ShapeV(shape)])
        case Failure(e) => Failure(e)
      else Success(m);
    match withShape
    case Failure(e) => Parsed(m, Some(e))
    case Success(m1) =>
      var m2 := if Immovable(m1) then m1["mass" := PositiveInfinity]["inertia" := PositiveInfinity] else m1;
      Parsed(m2[Marker := Bool(true)], None)
  }

  /** The whole operation on a bag's contents: an already normalised bag is
      returned untouched, any other is coerced key by key and finished. */
  function Normalized(m: map<string, Value>, p: Parsers): (r: Parsed)
    // an already normalised bag is returned untouched
    ensures Truthy(Get(m, Marker)) ==> r == Parsed(m, None)
    // no property is removed, and only the four written ones can be added
    ensures m.Keys <= r.props.Keys <= m.Keys + Written
    // every property the final steps do not write holds its coerced value
    ensures !Truthy(Get(m, Marker)) ==>
              forall k :: k in m && k !in Written ==> r.props[k] == Coerce(m[k], p)
    // a completed run sets the marker to true, so the next run does nothing
    ensures !Truthy(Get(m, Marker)) && r.thrown.None? ==> Get(r.props, Marker) == Bool(true)
    ensures r.thrown.None? ==> Truthy(Get(r.props, Marker))
  {
    if Truthy(Get(m, Marker)) then Parsed(m, None)
    else Finish(CoerceAll(m, p))
  }

  /** Running the operation on the result of a completed run changes nothing. */
  lemma NormalizedIdempotent(m: map<string, Value>, p: Parsers)
    requires Normalized(m, p).thrown.None?
    ensures Normalized(Normalized(m, p).props, p) == Normalized(m, p)
  {
  }

  /** `{ body: "static" }` gains an infinite mass and inertia and the marker,
      given only that "static" is neither a number nor JSON. */
  lemma StaticBodyExample(p: Parsers)
    requires p.parseFloat(Str("static")) == NaN && p.parseJson(Str("static")) == None
    ensures Normalized(map["body" := Str("static")], p) ==
            Parsed(map["body" := Str("static"), "mass" := PositiveInfinity,
                       "inertia" := PositiveInfinity, Marker := Bool(true)], None)
  {
  }

  /** `{ hitArea: "[1,1,15]" }` becomes a circle, given that the string is not
      a number and parses as JSON to the array of its three numbers. */
  lemma CircleHitAreaExample(p: Parsers)
    requires p.parseFloat(Str("[1,1,15]")) == NaN
    requires p.parseJson(Str("[1,1,15]")) == Some(Arr([Num(Finite(1.0)), Num(Finite(1.0)), Num(Finite(15.0))]))
    ensures Normalized(map["hitArea" := Str("[1,1,15]")], p) ==
            Parsed(map["hitArea" := ShapeV(Circle(Num(Finite(1.0)), Num(Finite(1.0)), Num(Finite(15.0)))),
                       Marker := Bool(true)], None)
  {
  }

  /** A property bag: a JavaScript object whose properties are updated in place. */
  class PropertyBag {
    var props: map<string, Value>

    constructor (initial: map<string, Value>)
      ensures props == initial
    {
      props := initial;
    }

    /** `utils.parseTiledProperties(this)`: coerces every property in place,
        then applies the hit-area, static-body and marker steps. A RangeError
        is returned in `thrown` and leaves the coerced properties behind. */
    method ParseTiledProperties(p: Parsers) returns (thrown: Option<RangeError>)
      modifies this
      ensures Parsed(props, thrown) == Normalized(old(props), p)
    {
      if Truthy(Get(props, Marker)) {
        return None;
      }
      ghost var original := props;
      var todo := props.Keys;
      while todo != {}
        invariant todo <= original.Keys == props.Keys
        invariant forall k :: k in todo ==> props[k] == original[k]
        invariant forall k :: k in original && k !in todo ==> props[k] == Coerce(original[k], p)
        decreases todo
      {
        var k :| k in todo;
        var v := props[k];
        var n := p.parseFloat(v);
        if n == Finite(0.0) || Truthy(Num(n)) {
          props := props[k := Num(n)];
        } else if v == Str("true") {
          props := props[k := Bool(true)];
        } else if v == Str("false") {
          props := props[k := Bool(false)];
        } else {
          var parsed := p.parseJson(v);
          if parsed.Some? {
            props := props[k := parsed.value];
          }
        }
        todo := todo - {k};
      }
      assert props == CoerceAll(original, p);

      if Truthy(Get(props, "hitArea")) {
        var shape := ParseHitAreaValue(props["hitArea"]);
        if shape.Failure? {
          return Some(shape.error);
        }
        props := props["hitArea" := ShapeV(shape.value)];
      }
      if Get(props, "body") == Str("static") || Truthy(Get(props, "sensor")) {
        props := props["mass" := PositiveInfinity];
        props := props["inertia" := PositiveInfinity];
      }
      props := props[Marker := Bool(true)];
      thrown := None;
    }
  }

  /** The entry point with `obj = obj || {}`: a missing bag is replaced by a
      fresh empty one, which comes back holding only the marker. */
  method ParseTiledPropertiesOf(obj: PropertyBag?, p: Parsers) returns (bag: PropertyBag, thrown: Option<RangeError>)
    modifies obj
    ensures obj != null ==> bag == obj && Parsed(bag.props, thrown) == Normalized(old(obj.props), p)
    ensures obj == null ==> fresh(bag) && bag.props == map[Marker := Bool(true)] && thrown == None
  {
    if obj == null {
      bag := new PropertyBag(map[]);
    } else {
      bag := obj;
    }
    thrown := bag.ParseTiledProperties(p);
  }
}
