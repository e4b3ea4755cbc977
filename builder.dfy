/** The options of an `Easer` and its builder modifiers (index.js:12-24, 42-46, 74-84, 269-324).
    Each modifier copies the options with one field replaced (`_alterOption`) and hands the copy
    to `new Easer(...)` (`_generateNew`), whose constructor replaces falsy fields by defaults; the
    receiver is never touched. Here the options are a value, a modifier is a function from the
    receiver's options to the new `Easer`'s options, and `Normalize` is the constructor's
    defaulting. */
module Builder {
  import opened Wrappers
  import opened Strings
  import opened LengthParse
  import opened StyleProperty

  /** An element handle; resolving a selector to an element is not part of this model. */
  datatype Node = Node(id: nat)

  /** A JavaScript argument that is either a number or a string. */
  datatype RawValue = Num(n: real) | Str(s: string)

  /** The options object. `from`/`to` are `None` while they hold the default number 0 and
      otherwise the stored `[n]` or `[n, unit]`; `node`, `property` and `transition` are `None`
      for `null`. */
  datatype Options = Options(
    delay: int,
    duration: int,
    from: Option<Length>,
    to: Option<Length>,
    value: real,
    node: Option<Node>,
    property: Option<string>,
    style: bool,
    transition: Option<string>)
  {
    /** No string field holds the falsy empty string: the constructor has replaced it by null. */
    predicate Normalized()
    {
      property != Some("") && transition != Some("")
    }
  }

  /** The options an `Easer` actually holds: those its constructor produced. */
  type EaserOptions = o: Options | o.Normalized()
    witness Options(0, 0, None, None, 0.0, None, None, false, None)

  /** `x || null` for a string-or-null field. */
  function OrNull(x: Option<string>): (r: Option<string>)
    ensures r.Some? <==> x.Some? && x.value != ""
    ensures r.Some? ==> r == x
  {
    if x == Some("") then None else x
  }

  /** The constructor's `options.f || default` for every field. Numbers and booleans are already
      their own defaults when falsy, the array endpoints are always truthy, so only the empty
      strings change. */
  function Normalize(raw: Options): (r: EaserOptions)
    ensures r.(property := raw.property, transition := raw.transition) == raw
    ensures r.property == OrNull(raw.property) && r.transition == OrNull(raw.transition)
    ensures raw.Normalized() ==> r == raw
  {
    raw.(property := OrNull(raw.property), transition := OrNull(raw.transition))
  }

  /** `new Easer({})`: every option at its default. */
  function Defaults(): (r: EaserOptions)
    ensures r.delay == 0 && r.duration == 0 && r.value == 0.0 && !r.style
    ensures r.from.None? && r.to.None? && r.node.None? && r.property.None? && r.transition.None?
  {
    Normalize(Options(0, 0, None, None, 0.0, None, None, false, None))
  }

  /** `delay(millis)`. */
  function Delay(o: EaserOptions, millis: int): (r: EaserOptions)
    ensures r.delay == millis && r.(delay := o.delay) == o
  {
    Normalize(o.(delay := millis))
  }

  /** `node(param)`, given what `_selectNode` resolved `param` to. */
  function SelectNode(o: EaserOptions, selected: Option<Node>): (r: EaserOptions)
    ensures r.node == selected && r.(node := o.node) == o
  {
    Normalize(o.(node := selected))
  }

  /** `duration(param)`. */
  function Duration(o: EaserOptions, millis: int): (r: EaserOptions)
    ensures r.duration == millis && r.(duration := o.duration) == o
  {
    Normalize(o.(duration := millis))
  }

  /** The value `from` and `to` store: `[param]` for a number, else the first token of
      `_splitValue(param)`, which fails when any token of the string has no digit. */
  function Endpoint(param: RawValue): (r: Result<Length>)
    ensures param.Num? ==> r == Ok(Length(param.n, None))
    ensures param.Str? ==> (r.Ok? <==> SplitValue(param.s).Ok?)
    ensures param.Str? && r.Ok? ==> ParseToken(Split(param.s, ' ')[0]) == r
  {
    match param
    case Num(n) => Ok(Length(n, None))
    case Str(s) =>
      match SplitValue(s)
      case Err(e) => Err(e)
      case Ok(items) => Ok(items[0])
  }

  /** `from(param)`. */
  function From(o: EaserOptions, param: RawValue): (r: Result<EaserOptions>)
    ensures r.Ok? <==> Endpoint(param).Ok?
    ensures r.Ok? ==> r.value.from == Some(Endpoint(param).value) && r.value.(from := o.from) == o
  {
    match Endpoint(param)
    case Err(e) => Err(e)
    case Ok(v) => Ok(Normalize(o.(from := Some(v))))
  }

  /** `to(param)`. */
  function To(o: EaserOptions, param: RawValue): (r: Result<EaserOptions>)
    ensures r.Ok? <==> Endpoint(param).Ok?
    ensures r.Ok? ==> r.value.to == Some(Endpoint(param).value) && r.value.(to := o.to) == o
  {
    match Endpoint(param)
    case Err(e) => Err(e)
    case Ok(v) => Ok(Normalize(o.(to := Some(v))))
  }

  /** `style()`. */
  function Style(o: EaserOptions): (r: EaserOptions)
    ensures r.style && r.(style := o.style) == o
  {
    Normalize(o.(style := true))
  }

  /** `property(param)`: a non-string is refused; a string is camel-cased only when `style()`
      came earlier in the chain, and an empty result is the falsy default null. */
  function Property(o: EaserOptions, param: RawValue): (r: Result<EaserOptions>)
    ensures r.Err? <==> param.Num?
    ensures r.Err? ==> r.error == PropertyNotString
    ensures r.Ok? ==> r.value.(property := o.property) == o
    ensures r.Ok? && !o.style ==> r.value.property == OrNull(Some(param.s))
    ensures r.Ok? && o.style ==> r.value.property == OrNull(Some(CamelCase(param.s, false)))
    ensures r.Ok? && r.value.property.Some? && o.style ==> '-' !in r.value.property.value
  {
    match param
    case Num(_) => Err(PropertyNotString)
    case Str(s) =>
      if o.style then Ok(Normalize(o.(property := Some(FormatStyleProperty(s)))))
      else Ok(Normalize(o.(property := Some(s))))
  }

  /** `easeInOut()`. */
  function EaseInOut(o: EaserOptions): (r: EaserOptions)
    ensures r.transition == Some("ease-in-out") && r.(transition := o.transition) == o
  {
    Normalize(o.(transition := Some("ease-in-out")))
  }

  /** The order of `style()` and `property(...)` matters: with `style()` first the name is
      camel-cased, with `property(...)` first it is stored as given. */
  lemma StyleBeforeProperty(o: EaserOptions, a: string, b: string)
    requires !o.style && '-' !in a && '-' !in b && a != ""
    ensures Property(Style(o), Str(a + "-" + b)).value.property == Some(a + Capitalize(b))
    ensures Style(Property(o, Str(a + "-" + b)).value).property == Some(a + "-" + b)
  {
    TwoWordName(a, b);
  }
}
