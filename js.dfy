/** The JavaScript values the console's form logic works with: nullable
    values, numbers that may be NaN, `number | undefined`, truthiness and
    `String.prototype.trim`. */
module Js {

  /** `T | null` */
  datatype Option<+T> = None | Some(value: T)

  /** A JavaScript number as the forms produce it: an integer, or NaN when
      `parseInt`/`Number` could not read the text. */
  datatype Num = Int(value: int) | NaN

  /** JavaScript's `n >= bound`: every comparison involving NaN is false. */
  predicate AtLeast(n: Num, bound: int)
  {
    n.Int? && n.value >= bound
  }

  /** `number | undefined` (a state variable that may never have been set). */
  datatype MaybeNum = Undefined | Defined(n: int)

  /** JavaScript truthiness of a `number | undefined`: `undefined` and `0` are falsy. */
  predicate Truthy(m: MaybeNum)
  {
    m.Defined? && m.n != 0
  }

  /** The characters `trim()` removes: ECMAScript WhiteSpace and LineTerminator. */
  predicate IsWhitespace(c: char)
  {
    var n := c as int;
    n == 0x09 || n == 0x0A || n == 0x0B || n == 0x0C || n == 0x0D || n == 0x20 ||
    n == 0xA0 || n == 0x1680 || (0x2000 <= n <= 0x200A) || n == 0x2028 || n == 0x2029 ||
    n == 0x202F || n == 0x205F || n == 0x3000 || n == 0xFEFF
  }

  /** True when `s` holds whitespace only (vacuously for the empty string). */
  predicate Blank(s: string)
  {
    forall i :: 0 <= i < |s| ==> IsWhitespace(s[i])
  }

  /** Leading whitespace removed (`trimStart`). Its characterization is
      `TrimStartSpec`. */
  function TrimStart(s: string): (r: string)
    ensures |r| <= |s|
  {
    if s != [] && IsWhitespace(s[0]) then TrimStart(s[1..]) else s
  }

  /** Trailing whitespace removed (`trimEnd`). Its characterization is
      `TrimEndSpec`. */
  function TrimEnd(s: string): (r: string)
    ensures |r| <= |s|
  {
    if s != [] && IsWhitespace(s[|s| - 1]) then TrimEnd(s[..|s| - 1]) else s
  }

  /** `s.trim()`: whitespace removed from both ends. */
  function Trim(s: string): (r: string)
    ensures |r| <= |s|
  {
    TrimEnd(TrimStart(s))
  }

  /** `TrimStart(s)` is the suffix of `s` that starts at its first
      non-whitespace character: everything before it is whitespace. */
  lemma {:induction false} TrimStartSpec(s: string)
    ensures var r := TrimStart(s);
            r == s[|s| - |r|..] && (r == [] || !IsWhitespace(r[0])) && Blank(s[..|s| - |r|])
  {
    if s != [] && IsWhitespace(s[0]) {
      TrimStartSpec(s[1..]);
      var r := TrimStart(s);
      assert s[..|s| - |r|] == [s[0]] + s[1..][..|s| - 1 - |r|];
    }
  }

  /** `TrimEnd(s)` is the prefix of `s` that ends at its last
      non-whitespace character: everything after it is whitespace. */
  lemma {:induction false} TrimEndSpec(s: string)
    ensures var r := TrimEnd(s);
            r == s[..|r|] && (r == [] || !IsWhitespace(r[|r| - 1])) && Blank(s[|r|..])
  {
    if s != [] && IsWhitespace(s[|s| - 1]) {
      var p := s[..|s| - 1];
      TrimEndSpec(p);
      var r := TrimEnd(s);
      assert s[|r|..] == p[|r|..] + [s[|s| - 1]];
    }
  }

  /** `s.trim()` is the slice of `s` between its leading and trailing
      whitespace: it neither starts nor ends with whitespace, and only
      whitespace lies outside it. */
  lemma TrimIsInnerSlice(s: string)
    ensures var k := |s| - |TrimStart(s)|;
            var r := Trim(s);
            k + |r| <= |s| && r == s[k..k + |r|] &&
            (r == [] || (!IsWhitespace(r[0]) && !IsWhitespace(r[|r| - 1]))) &&
            Blank(s[..k]) && Blank(s[k + |r|..])
  {
    var t := TrimStart(s);
    var k := |s| - |t|;
    var r := TrimEnd(t);
    TrimStartSpec(s);
    TrimEndSpec(t);
    if r != [] {
      assert !IsWhitespace(t[0]) by {
        assert t[0] == r[0];
      }
    }
    assert t[..|r|] == s[k..k + |r|];
    assert t[|r|..] == s[k + |r|..];
  }

  /** Trimming twice is trimming once. */
  lemma TrimIdempotent(s: string)
    ensures Trim(Trim(s)) == Trim(s)
  {
    TrimIsInnerSlice(s);
  }

  /** `s.trim()` is empty exactly when `s` is whitespace only. */
  lemma TrimEmptyIffBlank(s: string)
    ensures Trim(s) == [] <==> Blank(s)
  {
    TrimIsInnerSlice(s);
    var k := |s| - |TrimStart(s)|;
    if Trim(s) == [] {
      assert s == s[..k] + s[k..];
    }
  }
}
