/** `_splitValue` (index.js:91-104) with the length regex of index.js:1,
    `/([0-9]+)([a-z%]{1,3})|([0-9]+)/i`.

    A regex search starts at the first digit of a token, because both alternatives begin with a
    digit; from there the digit run is maximal, and the first alternative succeeds exactly when a
    letter or `%` follows the run, taking up to three of them. So a token yields the value of its
    first maximal digit run and, if present, the (lower-cased) 1-3 unit characters right after it. */
module LengthParse {
  import opened Wrappers
  import opened Strings

  /** A parsed length: `[n]` or `[n, unit]` in the source. */
  datatype Length = Length(number: real, unit: Option<string>)

  /** A character the `[a-z%]` class matches under the `i` flag. */
  predicate IsUnitChar(c: char) { IsAsciiLower(c) || IsAsciiUpper(c) || c == '%' }

  predicate HasDigit(s: string) { exists k :: 0 <= k < |s| && IsDigit(s[k]) }

  predicate AllDigits(s: string) { forall k :: 0 <= k < |s| ==> IsDigit(s[k]) }

  /** `parseInt(s, 10)` of a string of decimal digits. */
  function DecimalValue(s: string): (n: nat)
    requires AllDigits(s)
  {
    if s == [] then 0 else DecimalValue(s[..|s| - 1]) * 10 + (s[|s| - 1] as int - '0' as int)
  }

  /** The decimal digits of `n`, without leading zeros. */
  function Decimal(n: nat): (s: string)
    ensures |s| >= 1 && AllDigits(s)
  {
    if n < 10 then [('0' as int + n) as char] else Decimal(n / 10) + [('0' as int + n % 10) as char]
  }

  lemma {:induction false} DecimalValueOfDecimal(n: nat)
    ensures DecimalValue(Decimal(n)) == n
  {
    var s := Decimal(n);
    if n >= 10 {
      DecimalValueOfDecimal(n / 10);
      assert s[..|s| - 1] == Decimal(n / 10);
    }
  }

  /** Where the regex match starts: the index of the first digit, or |s| if there is none. */
  function FirstDigit(s: string): (i: nat)
    ensures i <= |s|
    ensures forall k :: 0 <= k < i ==> !IsDigit(s[k])
    ensures i < |s| ==> IsDigit(s[i])
  {
    if s == [] then 0 else if IsDigit(s[0]) then 0 else 1 + FirstDigit(s[1..])
  }

  /** The end of the maximal run of digits that starts at `i` (`[0-9]+` is greedy). */
  function DigitRunEnd(s: string, i: nat): (j: nat)
    requires i <= |s|
    ensures i <= j <= |s|
    ensures forall k :: i <= k < j ==> IsDigit(s[k])
    ensures j == |s| || !IsDigit(s[j])
    decreases |s| - i
  {
    if i < |s| && IsDigit(s[i]) then DigitRunEnd(s, i + 1) else i
  }

  /** The end of the unit that starts at `j` (`[a-z%]{1,3}` is greedy): at most three unit
      characters, and it stops only at the third one, a non-unit character or the end. */
  function UnitEnd(s: string, j: nat): (k: nat)
    requires j <= |s|
    ensures j <= k <= |s| && k <= j + 3
    ensures forall m :: j <= m < k ==> IsUnitChar(s[m])
    ensures k == |s| || k == j + 3 || !IsUnitChar(s[k])
  {
    if j < |s| && IsUnitChar(s[j]) then
      if j + 1 < |s| && IsUnitChar(s[j + 1]) then
        if j + 2 < |s| && IsUnitChar(s[j + 2]) then j + 3 else j + 2
      else j + 1
    else j
  }

  /** One item of `_splitValue`: `[parseInt(number), unit.toLowerCase()]` or `[parseInt(aloneNumber)]`;
      a token without a digit makes `item.match` return null, and destructuring it throws. */
  function ParseToken(tok: string): (r: Result<Length>)
    ensures r.Ok? <==> HasDigit(tok)
    ensures r.Err? ==> r.error == NoNumber
    ensures r.Ok? ==> r.value.number >= 0.0 && r.value.number == r.value.number.Floor as real
    ensures r.Ok? && r.value.unit.Some? ==>
      1 <= |r.value.unit.value| <= 3 &&
      forall m :: 0 <= m < |r.value.unit.value| ==>
        IsAsciiLower(r.value.unit.value[m]) || r.value.unit.value[m] == '%'
  {
    var i := FirstDigit(tok);
    if i == |tok| then Err(NoNumber)
    else
      var j := DigitRunEnd(tok, i);
      var k := UnitEnd(tok, j);
      Ok(Length(DecimalValue(tok[i..j]) as real, if k == j then None else Some(ToLower(tok[j..k]))))
  }

  /** Every item holds a digit, which is when `_splitValue` succeeds. */
  predicate AllHaveDigits(items: seq<string>)
  {
    forall i :: 0 <= i < |items| ==> HasDigit(items[i])
  }

  /** `items.map(...)`: the first token that fails makes the whole call fail. */
  function ParseAll(items: seq<string>): (r: Result<seq<Length>>)
    ensures r.Ok? <==> AllHaveDigits(items)
    ensures r.Err? ==> r.error == NoNumber
    ensures r.Ok? ==> |r.value| == |items|
    ensures r.Ok? ==> forall i :: 0 <= i < |items| ==> ParseToken(items[i]) == Ok(r.value[i])
  {
    if items == [] then Ok([])
    else match ParseToken(items[0])
      case Err(e) => Err(e)
      case Ok(first) =>
        match ParseAll(items[1..])
        case Err(e) => Err(e)
        case Ok(rest) => Ok([first] + rest)
  }

  /** `_splitValue(str)`: one length per space-separated token, or a failure. */
  function SplitValue(str: string): (r: Result<seq<Length>>)
    ensures r.Ok? <==> AllHaveDigits(Split(str, ' '))
    ensures r.Ok? ==> |r.value| == Count(str, ' ') + 1
    ensures r.Ok? ==> forall i :: 0 <= i < |r.value| ==> ParseToken(Split(str, ' ')[i]) == Ok(r.value[i])
  {
    ParseAll(Split(str, ' '))
  }

  /** A string without spaces is a single token. */
  lemma {:induction false} SingleToken(s: string)
    requires ' ' !in s
    ensures SplitValue(s).Ok? <==> ParseToken(s).Ok?
    ensures SplitValue(s).Ok? ==> SplitValue(s).value == [ParseToken(s).value]
  {
    SplitWithoutSeparator(s, ' ');
  }

  /** The characterisation in `DigitRunEnd`'s contract determines the run end. */
  lemma DigitRunEndIs(s: string, i: nat, j: nat)
    requires i <= j <= |s|
    requires forall k :: i <= k < j ==> IsDigit(s[k])
    requires j == |s| || !IsDigit(s[j])
    ensures DigitRunEnd(s, i) == j
  {
  }

  /** The characterisation in `UnitEnd`'s contract determines the unit end. */
  lemma UnitEndIs(s: string, j: nat, k: nat)
    requires j <= k <= |s| && k <= j + 3
    requires forall m :: j <= m < k ==> IsUnitChar(s[m])
    requires k == |s| || k == j + 3 || !IsUnitChar(s[k])
    ensures UnitEnd(s, j) == k
  {
  }

  /** The characterisation in `FirstDigit`'s contract determines where the match starts. */
  lemma FirstDigitIs(s: string, i: nat)
    requires i < |s| && IsDigit(s[i])
    requires forall k :: 0 <= k < i ==> !IsDigit(s[k])
    ensures FirstDigit(s) == i
  {
  }

  /** After a digit-free prefix, the match starts where the digits do. */
  lemma {:induction false} FirstDigitAfter(p: string, x: string)
    requires !HasDigit(p) && x != [] && IsDigit(x[0])
    ensures FirstDigit(p + x) == |p|
  {
    if p != [] {
      assert (p + x)[1..] == p[1..] + x;
      assert !HasDigit(p[1..]) by {
        forall k | 0 <= k < |p[1..]| ensures !IsDigit(p[1..][k]) {
          assert p[1..][k] == p[k + 1];
        }
      }
      FirstDigitAfter(p[1..], x);
    }
  }

  /** A digit run `d` after `a` ends where `d` does when what follows is not a digit. */
  lemma {:induction false} DigitRunAfter(a: string, d: string, y: string)
    requires AllDigits(d) && (y == [] || !IsDigit(y[0]))
    ensures DigitRunEnd(a + d + y, |a|) == |a| + |d|
  {
    var s := a + d + y;
    forall k | |a| <= k < |a| + |d|
      ensures IsDigit(s[k])
    {
      assert s[k] == d[k - |a|];
    }
    if |a| + |d| < |s| {
      assert s[|a| + |d|] == y[0];
    }
    DigitRunEndIs(s, |a|, |a| + |d|);
  }

  /** A unit `u` after `q` ends where `u` does when what follows cannot extend it. */
  lemma {:induction false} UnitAfter(q: string, u: string, rest: string)
    requires |u| <= 3 && forall m :: 0 <= m < |u| ==> IsUnitChar(u[m])
    requires rest != [] ==> |u| == 3 || !IsUnitChar(rest[0])
    ensures UnitEnd(q + u + rest, |q|) == |q| + |u|
  {
    var s := q + u + rest;
    forall m | |q| <= m < |q| + |u|
      ensures IsUnitChar(s[m])
    {
      assert s[m] == u[m - |q|];
    }
    if |q| + |u| < |s| {
      assert s[|q| + |u|] == rest[0];
    }
    UnitEndIs(s, |q|, |q| + |u|);
  }

  /** Where the regex finds the number and the unit in `p + d + u + rest` (see `ParseRendered`). */
  lemma {:induction false} TokenPositions(p: string, d: string, u: string, rest: string)
    requires !HasDigit(p)
    requires |d| >= 1 && AllDigits(d)
    requires |u| <= 3 && forall m :: 0 <= m < |u| ==> IsUnitChar(u[m])
    requires rest != [] ==> (u == [] ==> !IsDigit(rest[0])) && (|u| == 3 || !IsUnitChar(rest[0]))
    ensures FirstDigit(p + d + u + rest) == |p|
    ensures DigitRunEnd(p + d + u + rest, |p|) == |p| + |d|
    ensures UnitEnd(p + d + u + rest, |p| + |d|) == |p| + |d| + |u|
  {
    var tail := u + rest;
    AppendAssoc(p + d, u, rest);
    AppendAssoc(p, d, tail);
    assert (d + tail)[0] == d[0];
    FirstDigitAfter(p, d + tail);
    if tail != [] {
      assert tail[0] == if u == [] then rest[0] else u[0];
    }
    DigitRunAfter(p, d, tail);
    UnitAfter(p + d, u, rest);
  }

  /** `ParseToken` once the match positions and the matched pieces are known. */
  lemma {:induction false} ParseTokenAt(tok: string, i: nat, j: nat, k: nat, d: string, u: string)
    requires i < |tok| && FirstDigit(tok) == i
    requires DigitRunEnd(tok, i) == j && UnitEnd(tok, j) == k
    requires tok[i..j] == d && tok[j..k] == u
    ensures ParseToken(tok) ==
      Ok(Length(DecimalValue(d) as real, if u == [] then None else Some(ToLower(u))))
  {
  }

  /** The digits and the unit are the middle pieces of `p + d + u + rest`. */
  lemma {:induction false} TokenSlices(p: string, d: string, u: string, rest: string)
    ensures (p + d + u + rest)[|p|..|p| + |d|] == d
    ensures (p + d + u + rest)[|p| + |d|..|p| + |d| + |u|] == u
  {
    AppendAssoc(p + d, u, rest);
    MiddleSlice(p, d, u + rest);
    MiddleSlice(p + d, u, rest);
  }

  /** What a token reads as. In `p + d + u + rest`, where `p` holds no digit (a sign, say), `d` is
      a run of decimal digits (leading zeros allowed), `u` is at most three unit characters and
      `rest` neither continues the digits when `u` is empty nor, below three unit characters, the
      unit (such as `.5` in `1.5em`), the token parses as `parseInt(d)` and the lower-cased `u`:
      the prefix, a fractional part and anything after the unit are dropped. Every token with a
      digit splits this way, at its first digit run and the unit after it. */
  lemma {:induction false} ParseRendered(p: string, d: string, u: string, rest: string)
    requires !HasDigit(p)
    requires |d| >= 1 && AllDigits(d)
    requires |u| <= 3 && forall m :: 0 <= m < |u| ==> IsUnitChar(u[m])
    requires rest != [] ==> (u == [] ==> !IsDigit(rest[0])) && (|u| == 3 || !IsUnitChar(rest[0]))
    ensures ParseToken(p + d + u + rest) ==
      Ok(Length(DecimalValue(d) as real, if u == [] then None else Some(ToLower(u))))
  {
    TokenPositions(p, d, u, rest);
    TokenSlices(p, d, u, rest);
    ParseTokenAt(p + d + u + rest, |p|, |p| + |d|, |p| + |d| + |u|, d, u);
  }

  /** A digit run with leading zeros reads as its value: `007px` is seven pixels. */
  lemma LeadingZeros()
    ensures ParseToken("007px") == Ok(Length(7.0, Some("px")))
  {
    var d, u := "007", "px";
    assert !HasDigit([]);
    assert DecimalValue("0") == 0 by { assert "0"[..0] == []; }
    assert DecimalValue("00") == 0 by { assert "00"[..1] == "0"; }
    assert DecimalValue(d) == 7 by { assert d[..2] == "00"; }
    ParseRendered([], d, u, []);
    assert [] + d + u + [] == "007px";
    assert ToLower(u) == u;
  }

  /** Digits after a unit are dropped: `5px3` reads as five pixels. */
  lemma DigitAfterUnit()
    ensures ParseToken("5px3") == Ok(Length(5.0, Some("px")))
  {
    var d, u, rest := "5", "px", "3";
    assert !HasDigit([]);
    assert DecimalValue(d) == 5;
    ParseRendered([], d, u, rest);
    assert [] + d + u + rest == "5px3";
    assert ToLower(u) == u;
  }

  lemma DigitsHaveNoSpace(s: string)
    requires AllDigits(s)
    ensures ' ' !in s
  {
  }

  /** A whole number of pixels as a browser reports it, `<digits>px`, reads back exactly. */
  lemma {:induction false} ReadWholePixels(n: nat)
    ensures SplitValue(Decimal(n) + "px") == Ok([Length(n as real, Some("px"))])
  {
    var d, u := Decimal(n), "px";
    assert forall m :: 0 <= m < |u| ==> IsUnitChar(u[m]);
    assert !HasDigit([]);
    ParseRendered([], d, u, []);
    DecimalValueOfDecimal(n);
    EmptyEnds(d, u);
    assert ToLower(u) == u;
    DigitsHaveNoSpace(d);
    NotInEither(' ', d, u);
    SingleToken(d + u);
  }

  /** A fractional number of pixels, `<digits>.<digits>px`, loses its fraction and its unit:
      the match stops at the point. */
  lemma {:induction false} ReadFractionalPixels(n: nat, m: nat)
    ensures SplitValue(Decimal(n) + "." + Decimal(m) + "px") == Ok([Length(n as real, None)])
  {
    var d, e := Decimal(n), Decimal(m);
    var rest := "." + e + "px";
    assert !HasDigit([]);
    ParseRendered([], d, [], rest);
    DecimalValueOfDecimal(n);
    EmptyEnds(d, rest);
    AppendAssoc(d, ".", e + "px");
    AppendAssoc(d + ".", e, "px");
    AppendAssoc(".", e, "px");
    DigitsHaveNoSpace(d);
    DigitsHaveNoSpace(e);
    NotInEither(' ', e, "px");
    NotInEither(' ', ".", e + "px");
    NotInEither(' ', d, rest);
    SingleToken(d + rest);
  }
}
