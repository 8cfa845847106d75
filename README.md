# phaser-tiled utilities, modelled in Dafny

This project models the helper core of `src/utils.js` in the phaser-tiled map
loader:

- **parseHitArea** turns the flat number array of a Tiled `hitArea` property
  into a circle (3 values), a rectangle (4 values) or a polygon (any other even
  count). It throws a `RangeError` for every other odd count. Module `HitArea`
  models it generically over the element type. A shape is a datatype holding
  the engine constructor's arguments.
- **parseTiledProperties** normalises a property bag in place. It stops early
  when the `__tiledparsed` marker is truthy. Otherwise it coerces every value:
  a numeric parse that is `0` or truthy wins, then the exact strings
  `"true"`/`"false"`, then `JSON.parse`; a JSON failure leaves the value alone.
  After that a truthy `hitArea` becomes a shape. A static or sensor body gets
  infinite `mass` and `inertia`. Last, the marker is set.
  Module `TiledProperties` holds the specification function `Normalized` and
  the class `PropertyBag`, whose method runs the source's loop over a
  `map<string, Value>` field. `JsValues` gives the JavaScript values and
  truthiness.
- **cacheKey** builds `key_type` or `key_type_name` (module `CacheKeys`).
- **stringToBuffer** copies character codes into a new byte buffer with a
  counted loop (module `StringBuffer`).

`parseFloat` and `JSON.parse` are host functions. They are uninterpreted
parameters (the `Parsers` datatype): `parseFloat` returns a `Number` that may
be `NaN`, and `JSON.parse` returns `None` where it would throw. Both receive the
raw value, because JavaScript converts a non-string argument to a string first.
A thrown `RangeError` is returned as a value. The bag keeps whatever the loop
already wrote, as in the source.

Points where the code and its comments, or a natural reading, differ; the
model follows the code:
- The doc comment at src/utils.js:44 says a polygon has five or more values.
  The code accepts any even count other than 4, including 0 and 2
  (`HitArea.DegeneratePolygons`), and refuses 5.
- The "already normalised" flag is an ordinary `__tiledparsed` property of the
  bag, tested for truthiness, so the model keeps it in the property map.
- `hitArea` is replaced only when its value is truthy.
- The doc comment above `parseTiledProperties` (src/utils.js:83-84) describes
  the parameter and the result of `parseHitArea`. The code takes and returns a
  property bag.

## Model

| member | source | states |
|---|---|---|
| `HitArea.ParseHitArea` | src/utils.js:50-75 | refuses exactly the odd lengths other than 3, with the RangeError message; otherwise flattening the shape gives back the input array in order; the shape is a circle exactly for length 3 and a rectangle exactly for length 4 |
| `HitArea.ParseFlatten` | src/utils.js:62-72 | every shape the parser can produce is parsed back from its flat array (the converse round trip) |
| `HitArea.DegeneratePolygons` | src/utils.js:69-72 | the empty array and a two-value array are accepted as polygons over the input |
| `TiledProperties.NumericTestIsNotNaN` | src/utils.js:95-100 | the test `n === 0 \|\| n` accepts exactly the non-NaN parses, so a value parsing to 0 becomes a number |
| `TiledProperties.Coerce` | src/utils.js:94-115 | any numeric parse other than NaN wins, a parse to 0 included; the value changes only when the numeric, boolean-literal or JSON probe succeeds (the full precedence is `CoerceIsProbeChain`, the numeric test `NumericTestIsNotNaN`) |
| `TiledProperties.CoerceIsProbeChain` | src/utils.js:93-116 | coercing one value equals trying, in order, the numeric probe, the exact boolean literals and JSON, and keeping the raw value when all decline |
| `TiledProperties.CoerceAll` | src/utils.js:93-116 | the loop keeps every key and adds none, and gives each key its own coerced value |
| `TiledProperties.ParseHitAreaValue` | src/utils.js:54-72 | an array is parsed as its elements; a string has a length, and a shape built from it holds the string's one-character strings in order and is well formed, so "abc" gives a circle of "a", "b", "c"; every failure carries the parser's RangeError message; any other truthy value has no length and gives that RangeError (only truthy values reach the parser) |
| `TiledProperties.Finish` | src/utils.js:118-127 | after the loop: a failing hit area propagates the parser's own RangeError with nothing written; otherwise a truthy hitArea becomes its shape, mass and inertia become Infinity exactly when body is "static" or sensor is truthy and are neither written nor added otherwise; on success the key set grows by exactly the marker, plus mass and inertia for such a body, the marker is set to true, no other key changes and no key is removed |
| `TiledProperties.Normalized` | src/utils.js:86-130 | a bag whose marker is truthy comes back unchanged with nothing thrown; no key is removed and only hitArea, mass, inertia and the marker can be added; every other key holds the coerced value of its input value; a completed run on an unmarked bag sets the marker to true, so every completed run leaves it truthy |
| `TiledProperties.NormalizedIdempotent` | src/utils.js:89-127 | running the operation on the result of a completed run changes nothing |
| `TiledProperties.StaticBodyExample` | src/utils.js:122-125 | `{body: "static"}` gains infinite mass and inertia and the marker |
| `TiledProperties.CircleHitAreaExample` | src/utils.js:118-120 | `{hitArea: "[1,1,15]"}` becomes a circle at (1, 1) of size 15 |
| `TiledProperties.PropertyBag.ParseTiledProperties` | src/utils.js:89-129 | the in-place loop and the final writes leave the bag, and the thrown error, exactly as the specification function `Normalized` gives them |
| `TiledProperties.ParseTiledPropertiesOf` | src/utils.js:86-91 | a given bag is normalised in place and returned; a missing bag is replaced by a new one holding only the marker |
| `CacheKeys.CacheKey` | src/utils.js:20-22 | the result is the key, `_`, the type and, only for a non-empty name, `_` and the name, with the matching length |
| `CacheKeys.NameRecoverable` | src/utils.js:21 | for a fixed key and type, equal cache keys mean equal names (an empty name counts as none) |
| `CacheKeys.SeparatorAmbiguity` | src/utils.js:21 | an underscore inside the key makes two different field triples give the same cache key |
| `StringBuffer.StringToBuffer` | src/utils.js:9-18 | a new buffer of the string's length whose byte i is the char code of character i modulo 256 |
| `StringBuffer.BinaryRoundTrip` | src/utils.js:10-17 | for a string of one-byte characters, reading the buffer back one character per byte gives the string again |

## Left out

- `decompressBase64Data` (src/utils.js:24-38): base64 decoding and gzip/zlib inflation are calls into foreign libraries; only a three-way dispatch on the compression tag is visible.
- `parseXML` (src/utils.js:143-174): chosen by detecting the host environment and delegating to a platform XML parser; no logic of its own.
- The behaviour of `parseFloat` and `JSON.parse`: they are uninterpreted parameters. Floating-point rounding is not modelled: finite numbers are reals, and -0 and +0 are one value.
- TiledProperties.ParseHitAreaValue: an object with a `length` property, which JavaScript would index like an array, is treated as having no length.
- TiledProperties.ParseHitAreaValue: a polygon built from a string receives the string itself in JavaScript; the model's polygon holds the sequence of its one-character strings instead, which carries the same characters in the same order.
- TiledProperties.ParseTiledPropertiesOf: only a missing bag (null) is replaced by an empty one; other falsy arguments such as `false` or `0` are not modelled.
- The order of a `for…in` loop and inherited enumerable properties: the loop visits the own keys in an unspecified order, which cannot matter because each key's new value depends only on its old value.
- CacheKeys.CacheKey: key and type are strings and the name is an optional string; JavaScript's conversion of other values to strings is not modelled.
- StringBuffer.StringToBuffer: a Dafny `char` is a Unicode scalar value, while a JavaScript string is a sequence of UTF-16 code units. A character outside the Basic Multilingual Plane is one `char` here but two code units (length 2, two bytes) in JavaScript, and lone surrogates cannot be represented; the model matches JavaScript only for strings within the Basic Multilingual Plane, which includes every binary string.
- CacheKeys.CacheKey: its length clause counts Unicode scalar values, not UTF-16 code units, so it differs from JavaScript's `length` for characters outside the Basic Multilingual Plane.
- TiledProperties.ParseHitAreaValue: a string's length and indexing are by Unicode scalar value, not by UTF-16 code unit, so a string hit area with characters outside the Basic Multilingual Plane is split differently than in JavaScript.
