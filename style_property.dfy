/** `_formatStyleProperty` (index.js:168-181): a CSS property name in dash case becomes the
    camel-case key of `element.style` (`margin-top` becomes `marginTop`). */
module StyleProperty {
  import opened Strings

  /** `str.charAt(0).toUpperCase() + str.slice(1)`; an empty segment stays empty. */
  function Capitalize(seg: string): string
  {
    if seg == [] then [] else [ToUpperChar(seg[0])] + seg[1..]
  }

  function CapitalizeAll(segs: seq<string>): seq<string>
  {
    if segs == [] then [] else [Capitalize(segs[0])] + CapitalizeAll(segs[1..])
  }

  /** The name, character by character: hyphens are dropped and a character right after a
      hyphen is upper-cased; `afterHyphen` says whether the previous character was one. */
  function CamelCase(s: string, afterHyphen: bool): (r: string)
    ensures '-' !in r
    ensures |r| == |s| - Count(s, '-')
    ensures '-' !in s && !afterHyphen ==> r == s
  {
    if s == [] then []
    else if s[0] == '-' then CamelCase(s[1..], true)
    else [if afterHyphen then ToUpperChar(s[0]) else s[0]] + CamelCase(s[1..], false)
  }

  /** `_formatStyleProperty(prop)`: split at `-`, capitalize every segment after the first, join. */
  function FormatStyleProperty(prop: string): (r: string)
    ensures r == CamelCase(prop, false)
  {
    if '-' in prop then
      SegmentsAreCamelCase(prop, false);
      Reassembled(prop, false)
    else prop
  }

  lemma ConcatCons(x: string, ys: seq<string>)
    ensures Concat([x] + ys) == x + Concat(ys)
  {
    assert ([x] + ys)[1..] == ys;
  }

  /** `prop.split('-').map(...).join('')`: the segments of the name, every one after the first
      capitalized, and the first one too when `capFirst`. */
  function Reassembled(s: string, capFirst: bool): string
  {
    var segs := Split(s, '-');
    Concat([if capFirst then Capitalize(segs[0]) else segs[0]] + CapitalizeAll(segs[1..]))
  }

  /** A leading hyphen: the name starts a fresh, capitalized segment. */
  lemma ReassembledHyphen(s: string, capFirst: bool)
    requires s != [] && s[0] == '-'
    ensures Reassembled(s, capFirst) == Reassembled(s[1..], true)
  {
    var segs := Split(s, '-');
    var rest := Split(s[1..], '-');
    assert segs[0] == "" && segs[1..] == rest;
    ConcatCons("", CapitalizeAll(rest));
  }

  /** A leading character other than a hyphen joins the first segment. */
  lemma ReassembledChar(s: string, capFirst: bool)
    requires s != [] && s[0] != '-'
    ensures Reassembled(s, capFirst) ==
      [if capFirst then ToUpperChar(s[0]) else s[0]] + Reassembled(s[1..], false)
  {
    var segs := Split(s, '-');
    var rest := Split(s[1..], '-');
    var tail := CapitalizeAll(rest[1..]);
    var c := if capFirst then ToUpperChar(s[0]) else s[0];
    assert segs[0] == [s[0]] + rest[0] && segs[1..] == rest[1..];
    var first := if capFirst then Capitalize(segs[0]) else segs[0];
    assert first == [c] + rest[0];
    ConcatCons(first, tail);
    ConcatCons(rest[0], tail);
    AppendAssoc([c], rest[0], Concat(tail));
  }

  /** Re-assembling the split segments gives the character-by-character camel case. */
  lemma {:induction false} SegmentsAreCamelCase(s: string, afterHyphen: bool)
    ensures Reassembled(s, afterHyphen) == CamelCase(s, afterHyphen)
  {
    if s != [] {
      SegmentsAreCamelCase(s[1..], s[0] == '-');
      if s[0] == '-' {
        ReassembledHyphen(s, afterHyphen);
      } else {
        ReassembledChar(s, afterHyphen);
      }
    } else {
      assert Split(s, '-') == [""];
      ConcatCons("", []);
    }
  }

  /** A leading run without hyphens is copied unchanged. */
  lemma {:induction false} CamelCasePrefix(a: string, s: string)
    requires '-' !in a
    ensures CamelCase(a + s, false) == a + CamelCase(s, false)
  {
    if a != [] {
      assert (a + s)[0] == a[0] && (a + s)[1..] == a[1..] + s;
      CamelCasePrefix(a[1..], s);
      assert a == [a[0]] + a[1..];
      AppendAssoc([a[0]], a[1..], CamelCase(s, false));
    } else {
      assert a + s == s;
    }
  }

  /** A two-word name `a-b` becomes `a` followed by `b` capitalized, as `margin-top` becomes
      `marginTop` in the example of index.js:330. */
  lemma TwoWordName(a: string, b: string)
    requires '-' !in a && '-' !in b
    ensures FormatStyleProperty(a + "-" + b) == a + Capitalize(b)
  {
    CamelCasePrefix(a, "-" + b);
    assert (a + "-" + b) == a + ("-" + b);
    assert ("-" + b)[1..] == b;
    if b != [] {
      assert CamelCase(b, true) == [ToUpperChar(b[0])] + CamelCase(b[1..], false);
    }
  }
}
