/** The `Easer` object itself (index.js:11-32, 62-84, 74-84, 233-265, 269-324): its options,
    the animation clock, and the private `_from`/`_to`/`_converted` state that `_compareUnits`
    fills in (no code in the source calls it; the unparsable `_exec` draft only reads its result). */
module EaserState {
  import opened Wrappers
  import opened LengthParse
  import opened Builder
  import opened Units
  import opened StyleProperty

  /** The pixel pair `[n, 'px']`. */
  function Px(n: real): (v: Length)
    ensures v.number == n && v.unit == Some("px")
  {
    Length(n, Some("px"))
  }

  /** Which private option `_setPrivateOption` writes: `_from` or `_to`. */
  datatype Side = FromSide | ToSide

  /** The private options and the conversion flag. `None` is the initial number 0. */
  datatype PrivateState = PrivateState(from: Option<Length>, to: Option<Length>, converted: bool)

  /** The state `_compareUnits` leaves behind, and the exception it threw, if any. */
  datatype Outcome = Outcome(state: PrivateState, error: Option<Error>)

  /** A length in pixels: a unitless number is taken as pixels, any unit is converted. */
  function InPixels(v: Length, o: EaserOptions, env: Metrics): (r: Result<real>)
    ensures v.unit.None? ==> r == Ok(v.number)
    ensures v.unit.Some? ==> r == ConvertToPixel(v, o, env)
  {
    if v.unit.None? then Ok(v.number) else ConvertToPixel(v, o, env)
  }

  /** What `_compareUnits` does, case by case. Destructuring a `from` or `to` that still holds
      the number 0 throws before anything changes. With no unit on either side both become
      pixels unchanged; with a unit on one side only, that side is converted and the other
      taken as pixels; with two different units, `from` is converted and stored first, then
      `to`, so a failure on `to` leaves `from` already rewritten; with the same unit on both
      sides they are kept as they are. */
  function CompareUnitsSpec(o: EaserOptions, env: Metrics, s: PrivateState): (r: Outcome)
    ensures o.from.None? || o.to.None? ==> r == Outcome(s, Some(NotIterable))
    ensures r.error.None? <==>
      o.from.Some? && o.to.Some? &&
      (o.from.value.unit == o.to.value.unit ||
       (InPixels(o.from.value, o, env).Ok? && InPixels(o.to.value, o, env).Ok?))
    ensures r.error.None? ==>
      r.state.from.Some? && r.state.to.Some? && r.state.from.value.unit == r.state.to.value.unit
    ensures r.error.None? ==> (r.state.converted <==> o.from.value.unit != o.to.value.unit)
    ensures r.error.None? && r.state.converted ==>
      r.state.from == Some(Px(InPixels(o.from.value, o, env).value)) &&
      r.state.to == Some(Px(InPixels(o.to.value, o, env).value))
    ensures r.error.None? && !r.state.converted ==>
      r.state.from.value.number == o.from.value.number &&
      r.state.to.value.number == o.to.value.number &&
      (o.from.value.unit.Some? ==> r.state.from == o.from && r.state.to == o.to) &&
      (o.from.value.unit.None? ==>
        r.state.from == Some(Px(o.from.value.number)) && r.state.to == Some(Px(o.to.value.number)))
    ensures o.from.Some? && o.to.Some? && o.from.value.unit != o.to.value.unit && o.node.None? ==>
      r.error == Some(NoNode)
    ensures r.error.Some? ==> r.state.to == s.to
    ensures r.error.Some? && r.state != s ==>
      o.from.value.unit.Some? && o.to.value.unit.Some? &&
      ConvertToPixel(o.from.value, o, env).Ok? && ConvertToPixel(o.to.value, o, env).Err? &&
      r.state == s.(from := Some(Px(ConvertToPixel(o.from.value, o, env).value)), converted := true)
  {
    if o.from.None? || o.to.None? then Outcome(s, Some(NotIterable))
    else
      var f, t := o.from.value, o.to.value;
      if f.unit.None? && t.unit.None? then
        Outcome(PrivateState(Some(Px(f.number)), Some(Px(t.number)), false), None)
      else if f.unit.None? || t.unit.None? then
        var populated := if f.unit.Some? then f else t;
        match ConvertToPixel(populated, o, env)
        case Err(e) => Outcome(s, Some(e))
        case Ok(px) =>
          if f.unit.Some? then Outcome(PrivateState(Some(Px(px)), Some(Px(t.number)), true), None)
          else Outcome(PrivateState(Some(Px(f.number)), Some(Px(px)), true), None)
      else if f.unit != t.unit then
        match ConvertToPixel(f, o, env)
        case Err(e) => Outcome(s, Some(e))
        case Ok(fromPx) =>
          match ConvertToPixel(t, o, env)
          case Err(e) => Outcome(s.(from := Some(Px(fromPx)), converted := true), Some(e))
          case Ok(toPx) => Outcome(PrivateState(Some(Px(fromPx)), Some(Px(toPx)), true), None)
      else
        Outcome(PrivateState(o.from, o.to, false), None)
  }

  class Easer {
    /** The options, as the constructor defaulted them; no method changes them. */
    const options: EaserOptions
    /** `_currentTime` and `_increment`, the clock of the object's own animation. */
    var currentTime: real
    const increment: real
    /** `_converted`, `_options._from` and `_options._to`. */
    var converted: bool
    var privateFrom: Option<Length>
    var privateTo: Option<Length>

    /** `new Easer(options)`. */
    constructor(raw: Options)
      ensures options == Normalize(raw)
      ensures currentTime == 0.0 && increment == raw.duration as real / 1000.0 * 30.0
      ensures PrivateOptions() == PrivateState(None, None, false)
    {
      options := Normalize(raw);
      currentTime := 0.0;
      increment := Normalize(raw).duration as real / 1000.0 * 30.0;
      converted := false;
      privateFrom := None;
      privateTo := None;
    }

    function PrivateOptions(): PrivateState
      reads this
    {
      PrivateState(privateFrom, privateTo, converted)
    }

    /** The state the constructor leaves: the clock at 0, stepping by `duration / 1000 * 30`,
        and no private options yet. */
    predicate Initial()
      reads this
    {
      currentTime == 0.0 && increment == options.duration as real / 1000.0 * 30.0 &&
      PrivateOptions() == PrivateState(None, None, false)
    }

    /** `_setPrivateOption(f, v)`: writes `_from` or `_to` and nothing else. */
    method SetPrivateOption(side: Side, v: Length)
      modifies this
      ensures side == FromSide ==> PrivateOptions() == old(PrivateOptions()).(from := Some(v))
      ensures side == ToSide ==> PrivateOptions() == old(PrivateOptions()).(to := Some(v))
      ensures currentTime == old(currentTime)
    {
      if side == FromSide {
        privateFrom := Some(v);
      } else {
        privateTo := Some(v);
      }
    }

    /** `_setConverted(bool)`. */
    method SetConverted(b: bool)
      modifies this
      ensures PrivateOptions() == old(PrivateOptions()).(converted := b)
      ensures currentTime == old(currentTime)
    {
      converted := b;
    }

    /** `_compareUnits()`, with the page metrics the conversions read. A thrown exception is
        returned as `Some(error)`; the writes made before it stay. */
    method CompareUnits(env: Metrics) returns (error: Option<Error>)
      modifies this
      ensures Outcome(PrivateOptions(), error) == CompareUnitsSpec(options, env, old(PrivateOptions()))
      ensures currentTime == old(currentTime)
    {
      if options.from.None? || options.to.None? {
        return Some(NotIterable);
      }
      var fromValue, fromUnit := options.from.value.number, options.from.value.unit;
      var toValue, toUnit := options.to.value.number, options.to.value.unit;
      if fromUnit.None? && toUnit.None? {
        SetPrivateOption(FromSide, Px(fromValue));
        SetPrivateOption(ToSide, Px(toValue));
        SetConverted(false);
      } else if fromUnit.None? || toUnit.None? {
        var populated := if fromUnit.Some? then FromSide else ToSide;
        var unpopulated := if populated == FromSide then ToSide else FromSide;
        var declared := if populated == FromSide then options.from.value else options.to.value;
        var other := if populated == FromSide then toValue else fromValue;
        var px := ConvertToPixel(declared, options, env);
        if px.Err? {
          return Some(px.error);
        }
        SetPrivateOption(populated, Px(px.value));
        SetPrivateOption(unpopulated, Px(other));
        SetConverted(true);
      } else if fromUnit != toUnit {
        var declared := [options.from.value, options.to.value];
        var k := 0;
        while k < 2
          invariant 0 <= k <= 2
          invariant currentTime == old(currentTime)
          invariant k == 0 ==> PrivateOptions() == old(PrivateOptions())
          invariant k >= 1 ==>
            ConvertToPixel(declared[0], options, env).Ok? && converted &&
            privateFrom == Some(Px(ConvertToPixel(declared[0], options, env).value))
          invariant k == 1 ==> privateTo == old(privateTo)
          invariant k == 2 ==>
            ConvertToPixel(declared[1], options, env).Ok? &&
            privateTo == Some(Px(ConvertToPixel(declared[1], options, env).value))
        {
          var px := ConvertToPixel(declared[k], options, env);
          if px.Err? {
            return Some(px.error);
          }
          SetPrivateOption(if k == 0 then FromSide else ToSide, Px(px.value));
          SetConverted(true);
          k := k + 1;
        }
      } else {
        SetPrivateOption(FromSide, options.from.value);
        SetPrivateOption(ToSide, options.to.value);
        SetConverted(false);
      }
      return None;
    }

    /** `_generateNew(options)`: a fresh object; the receiver is not touched. */
    static method GenerateNew(o: Options) returns (e: Easer)
      ensures fresh(e) && e.options == Normalize(o) && e.Initial()
    {
      e := new Easer(o);
    }

    /** `_generateCopy()`. */
    method GenerateCopy() returns (e: Easer)
      ensures fresh(e) && e.options == options && e.Initial()
    {
      e := GenerateNew(options);
    }

    /** `delay(millis)`. */
    method Delay(millis: int) returns (e: Easer)
      ensures fresh(e) && e.options == Builder.Delay(options, millis) && e.Initial()
    {
      e := GenerateNew(options.(delay := millis));
    }

    /** `node(param)`, given what the selector or element `param` resolved to. */
    method Node(selected: Option<Builder.Node>) returns (e: Easer)
      ensures fresh(e) && e.options == SelectNode(options, selected) && e.Initial()
    {
      e := GenerateNew(options.(node := selected));
    }

    /** `duration(param)`. */
    method Duration(millis: int) returns (e: Easer)
      ensures fresh(e) && e.options == Builder.Duration(options, millis) && e.Initial()
    {
      e := GenerateNew(options.(duration := millis));
    }

    /** `from(param)`; a string with a token that has no digit throws. */
    method From(param: RawValue) returns (r: Result<Easer>)
      ensures r.Ok? <==> Builder.From(options, param).Ok?
      ensures r.Ok? ==> fresh(r.value) && r.value.Initial()
      ensures r.Ok? ==> r.value.options == Builder.From(options, param).value
    {
      var v := Endpoint(param);
      if v.Err? {
        return Err(v.error);
      }
      var e := GenerateNew(options.(from := Some(v.value)));
      return Ok(e);
    }

    /** `to(param)`. */
    method To(param: RawValue) returns (r: Result<Easer>)
      ensures r.Ok? <==> Builder.To(options, param).Ok?
      ensures r.Ok? ==> fresh(r.value) && r.value.Initial()
      ensures r.Ok? ==> r.value.options == Builder.To(options, param).value
    {
      var v := Endpoint(param);
      if v.Err? {
        return Err(v.error);
      }
      var e := GenerateNew(options.(to := Some(v.value)));
      return Ok(e);
    }

    /** `style()`. */
    method Style() returns (e: Easer)
      ensures fresh(e) && e.options == Builder.Style(options) && e.Initial()
    {
      e := GenerateNew(options.(style := true));
    }

    /** `property(param)`. */
    method Property(param: RawValue) returns (r: Result<Easer>)
      ensures r.Ok? <==> param.Str?
      ensures r.Ok? ==> fresh(r.value) && r.value.Initial()
      ensures r.Ok? ==> r.value.options == Builder.Property(options, param).value
    {
      if param.Num? {
        return Err(PropertyNotString);
      }
      var name := if options.style then FormatStyleProperty(param.s) else param.s;
      var e := GenerateNew(options.(property := Some(name)));
      return Ok(e);
    }

    /** `easeInOut()`. */
    method EaseInOut() returns (e: Easer)
      ensures fresh(e) && e.options == Builder.EaseInOut(options) && e.Initial()
    {
      e := GenerateNew(options.(transition := Some("ease-in-out")));
    }
  }
}
