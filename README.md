# easing-api in Dafny

A model of the core of `easing-api`, a small browser library for animating one property of a DOM element. It has two parts, and this project models both.

- **The `Easer` object** (`index.js`). A fluent builder: `node(...)`, `style()`, `property(...)`, `from(...)`, `to(...)`, `duration(...)`, `delay(...)` and `easeInOut()`. Each modifier returns a new `Easer`, whose constructor defaults every falsy option. `_compareUnits` brings the `from` and `to` endpoints to a common unit, though no code in the file calls it: the `_exec` draft reads its result at index.js:226 without calling it. The helpers are:
  - `_splitValue`: a regex-based reader of CSS lengths such as `20px`, which keeps only the first run of digits and up to three unit characters right after it, so a fractional part and everything after it are dropped (`1.5rem` reads as a bare `1`);
  - `_convertToPixel`: rem, em, %, vh and vw to pixels;
  - `_formatStyleProperty`: `margin-top` to `marginTop`.
- **The `ease` function** (`lib/transition.js`). A frame loop. Each frame advances a clock by 15 ms and writes Robert Penner's quadratic ease-in-out curve `Math.easeInOutQuad` to the element. The loop continues while the clock is below the duration.

The project's modules:

| module | what it models |
|---|---|
| `Wrappers` | the exceptions the source throws, as values |
| `Strings` | `split`, `join`, case mapping |
| `LengthParse` | `_splitValue` and the regex it applies |
| `StyleProperty` | `_formatStyleProperty` |
| `Builder` | the options record, the constructor's defaulting and the modifiers, as functions on options |
| `Units` | `_convertToPixel` and the `_handle*` helpers |
| `EaserState` | the `Easer` class with its mutable private state, and `_compareUnits` as a method proved against a specification function |
| `Easing` | the easing curve |
| `Transition` | the `ease` frame loop as a method that collects its writes |

## Model

| member | source | states |
|---|---|---|
| `Strings.ToLower` | index.js:96 | the result has the same length and no ASCII upper-case letter; every other character is kept, and upper-casing a changed character gives back the original |
| `Strings.Split` | index.js:92 | `str.split(' ')` gives one more piece than there are separators, and no piece contains the separator |
| `Strings.SplitWithoutSeparator` | index.js:92 | a string without the separator splits into itself alone |
| `Strings.JoinSplit` | index.js:92 | joining the pieces of a split with the separator gives back the original string |
| `LengthParse.DecimalValueOfDecimal` | index.js:96-98 | `parseInt` of the decimal rendering of `n` is `n` |
| `LengthParse.FirstDigit` | index.js:1 | a regex match starts at the first digit of the token: nothing before it is a digit |
| `LengthParse.DigitRunEnd` | index.js:1 | `[0-9]+` is greedy: the digit run ends at the first non-digit |
| `LengthParse.UnitEnd` | index.js:1 | `[a-z%]{1,3}` (case-insensitive) takes at most three unit characters, and as many as there are |
| `LengthParse.ParseToken` | index.js:93-102 | a token matches iff it contains a digit, otherwise the call fails; the number is a non-negative integer; a unit has 1-3 characters, all lower-case letters or `%` |
| `LengthParse.ParseAll` | index.js:92-103 | the mapping succeeds iff every token has a digit; then item `i` is the reading of token `i`; otherwise the error is the missing number |
| `LengthParse.SplitValue` | index.js:91-104 | succeeds iff every space-separated token has a digit; then one reading per token, in order |
| `LengthParse.SingleToken` | index.js:91-104 | a string without a space reads as exactly one token |
| `LengthParse.ParseRendered` | index.js:93-99 | a token made of a digit-free prefix, a digit run `d` (leading zeros allowed), a unit `u` of up to three characters and a tail reads as `parseInt(d)` with `u` lower-cased, or with no unit when `u` is empty. The tail must not start with a digit when `u` is empty, and must not start with a unit character when `u` has fewer than three. |
| `LengthParse.LeadingZeros` | index.js:96 | `007px` reads as 7 pixels |
| `LengthParse.DigitAfterUnit` | index.js:1 | `5px3` reads as 5 pixels: digits after the unit are dropped |
| `LengthParse.ReadWholePixels` | index.js:133-145 | a computed value `<n>px` reads back as `n` pixels |
| `LengthParse.ReadFractionalPixels` | index.js:133-145 | a computed value `<n>.<m>px` reads back as the bare number `n`, with no unit |
| `StyleProperty.CamelCase` | index.js:168-181 | the name has no hyphen left, loses exactly its hyphens, and a name without hyphens is unchanged |
| `StyleProperty.FormatStyleProperty` | index.js:168-181 | splitting on `-`, capitalising every segment after the first and joining is the character-by-character camel-casing |
| `StyleProperty.SegmentsAreCamelCase` | index.js:170-177 | the split-capitalise-join pipeline equals the character-wise definition, for every input |
| `StyleProperty.CamelCasePrefix` | index.js:168-181 | a hyphen-free prefix passes through camel-casing unchanged |
| `StyleProperty.TwoWordName` | index.js:330 | `a-b` becomes `a` followed by `b` capitalised (`margin-top` to `marginTop`) |
| `Builder.OrNull` | index.js:20-22 | the constructor's null default for a string is null exactly for null and the empty string, and otherwise keeps `x` |
| `Builder.Normalize` | index.js:13-23 | the constructor changes only the string fields, each to `OrNull` of itself, and leaves already-normal options alone |
| `Builder.Defaults` | index.js:13-23 | `new Easer({})` has every option at its default: zero delay, duration and value, no endpoints, no node, property or transition, and no style |
| `Builder.Delay` | index.js:269-271 | the new options have the given delay and are otherwise the receiver's |
| `Builder.SelectNode` | index.js:273-275 | the new options hold the resolved node and are otherwise the receiver's |
| `Builder.Duration` | index.js:277-279 | the new options have the given duration and are otherwise the receiver's |
| `Builder.Endpoint` | index.js:281-295 | a number is stored as `[n]`; a string succeeds iff `_splitValue` does, and then its first token's reading is stored |
| `Builder.From` | index.js:281-287 | succeeds iff the endpoint reads, and then changes only `from`, to that reading |
| `Builder.To` | index.js:289-295 | succeeds iff the endpoint reads, and then changes only `to`, to that reading |
| `Builder.Style` | index.js:297-299 | sets `style` and changes nothing else |
| `Builder.Property` | index.js:301-311 | fails exactly for a non-string argument; a string is camel-cased iff `style` is already set, and the result then has no hyphen; nothing else changes |
| `Builder.EaseInOut` | index.js:321-324 | sets the transition to `ease-in-out` and changes nothing else |
| `Builder.StyleBeforeProperty` | index.js:297-311 | `style().property('a-b')` stores `aB`, while `property('a-b').style()` stores `a-b` |
| `Units.ComputedPx` | index.js:134 | a computed value read in px gives its number; one read without a unit throws the unknown-unit error; a read failure passes through |
| `Units.HandleRem` | index.js:133-136 | succeeds exactly when the body's font size reads in px, and is then `n` times it |
| `Units.HandleEm` | index.js:138-145 | succeeds exactly when the parent's font size reads in px, and is then `n` times it |
| `Units.HandlePercentage` | index.js:147-158 | throws without a property, fails when the parent's style has no such entry, succeeds exactly when that entry reads in px, and is then `n` hundredths of it |
| `Units.HandleViewportHeight` | index.js:160-162 | `n` hundredths of the window's inner height |
| `Units.HandleViewportWidth` | index.js:164-166 | `n` hundredths of the window's inner width |
| `Units.ConvertToPixel` | index.js:106-166 | without a node every unit fails; with a node an unknown or missing unit fails; with a known unit the result is the number times the pixel size of one unit (1 for px, the computed font size for rem/em, a hundredth of the parent's computed value for %, a hundredth of the window size for vh/vw), and the error is that table's error |
| `Units.ConvertKnownUnit` | index.js:111-124 | whenever a known unit's pixel size is available, converting `n` of it gives `n` times that size |
| `Units.FontRelativeUnits` | index.js:133-145 | with the body's font size read in px, `rem` scales by it; with the parent's read without a unit (a fractional `13.5px`), `em` throws |
| `EaserState.CompareUnitsSpec` | index.js:233-265 | default (number 0) endpoints throw with the state untouched; success iff the units agree or both sides convert; after success both sides share a unit; `converted` iff the declared units differ, and then both sides are pixels of their converted values; otherwise the numbers are kept; differing units without a node fail; a failure never changes `to`, and changes `from` only as the partial update of the both-units case |
| `EaserState.Easer.constructor` | index.js:12-32 | the options are the defaulted argument, the clock starts at 0 with increment `duration / 1000 * 30`, and the private state is empty and unconverted |
| `EaserState.Easer.SetPrivateOption` | index.js:62-64 | writes `_from` or `_to` and nothing else of the private state |
| `EaserState.Easer.SetConverted` | index.js:70-72 | writes the conversion flag and nothing else of the private state |
| `EaserState.Easer.CompareUnits` | index.js:233-265 | the new private state and the thrown error are exactly `CompareUnitsSpec` of the options and the old state, including the write that a later throw leaves behind |
| `EaserState.Easer.GenerateNew` | index.js:74-76 | a fresh object built by the constructor from the given options, with its clock at 0 and no private options |
| `EaserState.Easer.GenerateCopy` | index.js:78-80 | a fresh object with the receiver's options; the new object starts with its clock at 0 and no private options |
| `EaserState.Easer.Delay` | index.js:269-271 | a fresh object whose options are `Builder.Delay` of the receiver's; the new object starts with its clock at 0 and no private options |
| `EaserState.Easer.Node` | index.js:273-275 | a fresh object whose options are `Builder.SelectNode` of the receiver's; the new object starts with its clock at 0 and no private options |
| `EaserState.Easer.Duration` | index.js:277-279 | a fresh object whose options are `Builder.Duration` of the receiver's; the new object starts with its clock at 0 and no private options |
| `EaserState.Easer.From` | index.js:281-287 | fails iff `Builder.From` does, and otherwise returns a fresh object with its options; the new object starts with its clock at 0 and no private options |
| `EaserState.Easer.To` | index.js:289-295 | fails iff `Builder.To` does, and otherwise returns a fresh object with its options; the new object starts with its clock at 0 and no private options |
| `EaserState.Easer.Style` | index.js:297-299 | a fresh object whose options are `Builder.Style` of the receiver's; the new object starts with its clock at 0 and no private options |
| `EaserState.Easer.Property` | index.js:301-311 | fails iff the argument is not a string, and otherwise returns a fresh object with `Builder.Property`'s options; the new object starts with its clock at 0 and no private options |
| `EaserState.Easer.EaseInOut` | index.js:321-324 | a fresh object whose options are `Builder.EaseInOut` of the receiver's; the new object starts with its clock at 0 and no private options |
| `Easing.ScaledTime` | lib/transition.js:30 | time in half-durations is 0 at the start, 1 at the middle and 2 at the end |
| `Easing.EaseInOutQuad` | lib/transition.js:29-34 | the curve is `b` at `t = 0`, `b + c/2` at the middle and `b + c` at `t = d` |
| `Easing.OutHalfVertex` | lib/transition.js:32-33 | the second half is the parabola `b + c - c/2 (u-2)^2`, with its vertex at the end |
| `Easing.HalvesMeet` | lib/transition.js:31-33 | the two halves differ by `c (u-1)^2`, so they meet with equal value and slope in the middle |
| `Easing.ScaledOrder` | lib/transition.js:30 | for a positive duration the scaled time is monotone, lies in `[0, 2]` during the animation and exceeds 2 after it |
| `Easing.ScaledMirror` | lib/transition.js:30 | mirroring `t` around `d/2` mirrors the scaled time around 1 |
| `Easing.HalvesRise` | lib/transition.js:31-33 | for a non-negative change each half rises over its own range |
| `Easing.EaseMonotone` | lib/transition.js:29-34 | for a positive duration and non-negative change the curve never falls on `[0, d]` |
| `Easing.EaseBounded` | lib/transition.js:29-34 | for a positive duration and non-negative change the curve stays within `[b, b + c]` on `[0, d]` |
| `Easing.EaseReflect` | lib/transition.js:29-34 | negating the change reflects the curve about `b`: `f(t, b, c) + f(t, b, -c) = 2b` |
| `Easing.EaseBoundedFalling` | lib/transition.js:29-34 | for a positive duration and non-positive change the curve stays within `[b + c, b]` on `[0, d]` |
| `Easing.EaseSymmetric` | lib/transition.js:29-34 | the curve is point-symmetric about its middle: `f(t) + f(d - t) = 2b + c` |
| `Easing.EasePastEnd` | lib/transition.js:29-34 | sampled after the end with a positive change, the curve lies strictly below `b + c` |
| `Transition.TickCount` | lib/transition.js:11-20 | at least one frame runs; the frames cover the duration, and the frame before the last is still short of it |
| `Transition.Ease` | lib/transition.js:1-23 | exactly `TickCount` frames are written, and frame `i` writes the curve sampled at `15 (i + 1)` ms to the chosen property, on the style or on the element |
| `Transition.ExactDurationEndsOnTarget` | lib/transition.js:11-18 | for a positive multiple of 15 ms the last frame samples the end of the duration and writes `to`; every frame lies within `[start, to]` when `start <= to`, and within `[to, start]` when `to <= start` |
| `Transition.InexactDurationStopsShort` | lib/transition.js:11-18 | for a positive duration that is not a multiple of 15 ms the last frame samples after the end, and a rising animation stops short of `to` |
| `Transition.TwentyMillisecondsEndHalfway` | lib/transition.js:11-18 | a 20 ms animation from 0 to 100 runs two frames and its last write is 50 |
| `Transition.ClampedTime` | lib/transition.js:11-12 | the clamped sample time is the frame's clock or the duration, whichever is smaller |
| `Transition.EaseClamped` | lib/transition.js:1-23 | the same frames with every sample clamped to the duration: the last write is exactly `to`, and for a positive duration and `start <= to` the writes stay in `[start, to]` and never fall |

## Left out

- Element lookup. `_selectNode` and `document.querySelector` are not modelled: `node(...)` takes the element it resolved to, and a `Node` is an opaque handle. `ease` writes to a sequence of `Write` records instead of to an element.
- Page reads. `window.getComputedStyle` and `window.innerHeight`/`innerWidth` are given as a `Metrics` value. Each computed value is stored as `_splitValue(...)[0]` reads it. `LengthParse.ReadWholePixels` and `LengthParse.ReadFractionalPixels` state what a reported `<n>px` string reads as.
- Units.ComputedPx: a computed value read back in a known unit other than px returns `ComputedNotPx`. The source would instead recurse into `_convertToPixel`. Browsers report computed lengths in px, so that recursion is left out.
- Timers and frames. `setTimeout`, `requestAnimationFrame`, `async start()` and `_sleep` are not modelled, so the delay is never waited out. The frames of `ease` run in order, with nothing in between.
- `_animate` and `_exec` are not modelled. `_exec` (index.js:217-231) is not valid JavaScript: stray statements and braces at index.js:220-222 and 266-267 leave the class unparsable. `_animate` is reachable only through `_exec`.
- `_applyHtmlProperty` is not modelled: it reads an undefined `options`.
- `_setOption` is not modelled: no code calls it.
- Debug output (`_printOptions`, `_printPrivateOptions`, `console.log`) is not modelled.
- The demo code at index.js:327-331 and the unused `_hexToRgbEx` regex are not modelled.
- Numbers are exact reals, not IEEE doubles. `parseInt` is exact beyond 2^53, and `String(val)` rendering is not modelled.
- The `[[n], 'px']` pair for the unitless side is stored as `Px(n)`. In `_compareUnits`, when only one side has a unit, the unitless side stores its whole array `[n]` as the number, giving `[[n], 'px']`. The subtraction `_to[0] - _from[0]` coerces the one-element array `[n]` to `n`, so the model stores `n`. `_animate` (index.js:203) instead passes `_from[0]` as `b` to the curve's `... + b` (index.js:6, index.js:8); when `from` is the unitless side, that `+` concatenates strings (`12.5 + [0]` gives `"12.50"`). `_animate` is not modelled, so neither is that concatenation.
- Easing.EaseInOutQuad, Transition.Ease and Transition.EaseClamped require a non-zero duration. At duration 0 the source divides by zero, producing NaN or an infinity. Durations are whole milliseconds.
- StyleProperty.FormatStyleProperty upper-cases ASCII letters only. JavaScript's `toUpperCase` at index.js:172 maps every letter: `a-é` gives `aÉ`, and `a-ß` gives `aSS`, which is one character longer than `StyleProperty.CamelCase` promises. CSS property names are ASCII, so the model maps ASCII only.
- Units.FontRelativeUnits states the rem and em cases only. The %, vh and vw cases are stated by `Units.ConvertToPixel` through its unit table.
- Option values that are not numbers, strings or the element handle are not modelled: an object for `from`, or a boolean for `delay`.
- Sequences, parallel groups and colour values do not exist in this code and are not modelled.

## Findings

| source | as written | input that shows it | evidently intended | confidence | as-written member | corrected member |
|---|---|---|---|---|---|---|
| lib/transition.js:11-18 | the clock steps by 15 ms before sampling and the loop stops only once the clock reaches the duration, so when the duration is not a multiple of 15 the last frame samples the curve after its end, where it has turned back | `ease(el, 20, 'width', 0, 100, false)`: frames at 15 ms and 30 ms; the last write is 50, not 100 | the last write is the target `to`, as the object API's animation ends with `_setImmediate(options.to)` (index.js:210-213) | medium, not executed | `Transition.InexactDurationStopsShort` | `Transition.EaseClamped` |
