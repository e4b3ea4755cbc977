/** `_convertToPixel` and its unit handlers (index.js:106-166). The page values the handlers
    read (`getComputedStyle(...)` entries and the window size) are given as a `Metrics` value. */
module Units {
  import opened Wrappers
  import opened LengthParse
  import opened Builder

  /** What the handlers read from the page: the body's computed font size (rem), the node
      parent's computed font size (em) and computed style entries (%), each as the first item
      `_splitValue` makes of the reported string, or its failure (`Builder.Endpoint` of the
      string), and the window's
      `innerHeight` and `innerWidth` (vh, vw). `LengthParse.ReadWholePixels` and
      `LengthParse.ReadFractionalPixels` say what a reported `Npx` string parses to. */
  datatype Metrics = Metrics(
    bodyFontSize: Result<Length>,
    parentFontSize: Result<Length>,
    parentComputed: map<string, Result<Length>>,
    innerHeight: real,
    innerWidth: real)

  const KnownUnits: set<string> := {"px", "rem", "em", "%", "vh", "vw"}

  /** The nested `this._convertToPixel(...)` a handler applies to a computed value: a px value
      is taken as it is, a unitless one (a fractional `13.5px` parses that way) throws. A
      value in another known unit would send the conversion on to a further handler; browsers
      report computed lengths in px, and this model stops there with `ComputedNotPx`. */
  function ComputedPx(read: Result<Length>): (r: Result<real>)
    ensures read.Err? ==> r == Err(read.error)
    ensures r.Ok? <==> read.Ok? && read.value.unit == Some("px")
    ensures r.Ok? ==> r.value == read.value.number
    ensures read.Ok? && read.value.unit.None? ==> r == Err(UnknownUnit)
  {
    match read
    case Err(e) => Err(e)
    case Ok(v) =>
      if v.unit == Some("px") then Ok(v.number)
      else if v.unit.None? || v.unit.value !in KnownUnits then Err(UnknownUnit)
      else Err(ComputedNotPx)
  }

  /** How many pixels one of `unit` is, when that can be worked out: the reference table for
      the handlers. */
  function UnitPx(unit: string, o: EaserOptions, env: Metrics): Result<real>
    requires unit in KnownUnits
  {
    if unit == "px" then Ok(1.0)
    else if unit == "rem" then ComputedPx(env.bodyFontSize)
    else if unit == "em" then ComputedPx(env.parentFontSize)
    else if unit == "%" then
      if o.property.None? then Err(NoPercentProperty)
      else if o.property.value !in env.parentComputed then Err(NoComputedValue)
      else match ComputedPx(env.parentComputed[o.property.value])
        case Err(e) => Err(e)
        case Ok(px) => Ok(px / 100.0)
    else if unit == "vh" then Ok(env.innerHeight / 100.0)
    else Ok(env.innerWidth / 100.0)
  }

  /** `_handleRem(n)`: `n` times the body's font size. */
  function HandleRem(n: real, env: Metrics): (r: Result<real>)
    ensures r.Ok? <==> env.bodyFontSize.Ok? && env.bodyFontSize.value.unit == Some("px")
    ensures r.Ok? ==> r.value == n * env.bodyFontSize.value.number
  {
    match ComputedPx(env.bodyFontSize)
    case Err(e) => Err(e)
    case Ok(baseline) => Ok(n * baseline)
  }

  /** `_handleEm(n)`: `n` times the parent's font size. */
  function HandleEm(n: real, env: Metrics): (r: Result<real>)
    ensures r.Ok? <==> env.parentFontSize.Ok? && env.parentFontSize.value.unit == Some("px")
    ensures r.Ok? ==> r.value == n * env.parentFontSize.value.number
  {
    match ComputedPx(env.parentFontSize)
    case Err(e) => Err(e)
    case Ok(baseline) => Ok(n * baseline)
  }

  /** `_handlePercentage(n)`: the parent's computed value of the property, over 100, times
      `n`; it throws without a property, and reading an entry the style does not have
      (`undefined`) fails in `_splitValue`. */
  function HandlePercentage(n: real, o: EaserOptions, env: Metrics): (r: Result<real>)
    ensures o.property.None? ==> r == Err(NoPercentProperty)
    ensures o.property.Some? && o.property.value !in env.parentComputed ==> r == Err(NoComputedValue)
    ensures r.Ok? <==>
      (o.property.Some? && o.property.value in env.parentComputed &&
       env.parentComputed[o.property.value].Ok? &&
       env.parentComputed[o.property.value].value.unit == Some("px"))
    ensures r.Ok? ==> r.value * 100.0 == env.parentComputed[o.property.value].value.number * n
  {
    if o.property.None? then Err(NoPercentProperty)
    else if o.property.value !in env.parentComputed then Err(NoComputedValue)
    else
      match ComputedPx(env.parentComputed[o.property.value])
      case Err(e) => Err(e)
      case Ok(px) => Ok(px / 100.0 * n)
  }

  /** `_handleViewportHeight(n)`. */
  function HandleViewportHeight(n: real, env: Metrics): (r: real)
    ensures r * 100.0 == env.innerHeight * n
  {
    env.innerHeight / 100.0 * n
  }

  /** `_handleViewportWidth(n)`. */
  function HandleViewportWidth(n: real, env: Metrics): (r: real)
    ensures r * 100.0 == env.innerWidth * n
  {
    env.innerWidth / 100.0 * n
  }

  /** `_convertToPixel(val)`: without a node every unit fails; with one, the unit decides, and
      the result is the number times the pixel size of one unit. */
  function ConvertToPixel(v: Length, o: EaserOptions, env: Metrics): (r: Result<real>)
    ensures o.node.None? ==> r == Err(NoNode)
    ensures o.node.Some? && (v.unit.None? || v.unit.value !in KnownUnits) ==> r == Err(UnknownUnit)
    ensures o.node.Some? && v.unit.Some? && v.unit.value in KnownUnits ==>
      (r.Ok? <==> UnitPx(v.unit.value, o, env).Ok?) &&
      (r.Ok? ==> r.value == v.number * UnitPx(v.unit.value, o, env).value) &&
      (r.Err? ==> r.error == UnitPx(v.unit.value, o, env).error)
    ensures o.node.Some? && v.unit == Some("px") ==> r == Ok(v.number)
  {
    if o.node.None? then Err(NoNode)
    else if v.unit == Some("px") then Ok(v.number)
    else if v.unit == Some("rem") then HandleRem(v.number, env)
    else if v.unit == Some("em") then HandleEm(v.number, env)
    else if v.unit == Some("%") then HandlePercentage(v.number, o, env)
    else if v.unit == Some("vh") then Ok(HandleViewportHeight(v.number, env))
    else if v.unit == Some("vw") then Ok(HandleViewportWidth(v.number, env))
    else Err(UnknownUnit)
  }

  /** A known unit whose pixel size can be worked out converts `n` to `n` times that size. */
  lemma ConvertKnownUnit(v: Length, o: EaserOptions, env: Metrics, px: real)
    requires o.node.Some? && v.unit.Some? && v.unit.value in KnownUnits
    requires UnitPx(v.unit.value, o, env) == Ok(px)
    ensures ConvertToPixel(v, o, env) == Ok(v.number * px)
  {
    var r := ConvertToPixel(v, o, env);
    assert r.Ok?;
    assert r.value == v.number * px;
    assert r == Ok(r.value);
  }

  /** With a node, a font size read in pixels makes `rem` a multiple of it, while one read
      without a unit (as `13.5px` is, by `LengthParse.ReadFractionalPixels`) makes `em`
      throw. */
  lemma FontRelativeUnits(v: Length, o: EaserOptions, env: Metrics, body: real, parent: real)
    requires o.node.Some?
    requires env.bodyFontSize == Ok(Length(body, Some("px")))
    requires env.parentFontSize == Ok(Length(parent, None))
    ensures v.unit == Some("rem") ==> ConvertToPixel(v, o, env) == Ok(v.number * body)
    ensures v.unit == Some("em") ==> ConvertToPixel(v, o, env) == Err(UnknownUnit)
  {
    if v.unit == Some("rem") {
      assert UnitPx("rem", o, env) == Ok(body);
      ConvertKnownUnit(v, o, env, body);
    }
  }
}
