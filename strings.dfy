/**
 * Literal substring search and replacement, the operations the generator and the
 * preview rewriter build everything from. Every regular expression of the source
 * that matters here is a literal pattern, so `String.prototype.replace` with the
 * `g` flag is `ReplaceAll` and without it `ReplaceFirst`.
 */
module Strings {
  import opened Wrappers

  predicate StartsWith(s: string, p: string)
  {
    |p| <= |s| && s[..|p|] == p
  }

  /** `p` occurs in `s` starting at index `i`. */
  predicate OccursAt(s: string, p: string, i: nat)
  {
    i <= |s| && StartsWith(s[i..], p)
  }

  lemma {:induction false} StartsSelf(p: string)
    ensures StartsWith(p, p)
  {
  }

  /** Text begins with each of its prefixes, and keeps doing so when more is appended. */
  lemma {:induction false} StartsConcat(x: string, y: string, p: string)
    requires StartsWith(x, p)
    ensures StartsWith(x + y, p) && StartsWith(x + y, x)
  {
    assert (x + y)[..|x|] == x;
    assert (x + y)[..|p|] == x[..|p|];
  }

  /** Appended text occurs where it was appended. */
  lemma {:induction false} OccursAtEnd(a: string, p: string)
    ensures OccursAt(a + p, p, |a|)
  {
    assert (a + p)[|a|..] == p;
  }

  /** An occurrence stays where it is when text is appended. */
  lemma {:induction false} OccursExtend(x: string, y: string, p: string, i: nat)
    requires OccursAt(x, p, i)
    ensures OccursAt(x + y, p, i)
  {
    assert (x + y)[i..][..|p|] == x[i..][..|p|];
  }

  /** A piece of text occurs where it is spliced in, and so does each of its prefixes. */
  lemma {:induction false} OccursInMiddle(a: string, p: string, b: string, q: string)
    requires StartsWith(p, q)
    ensures OccursAt(a + p + b, p, |a|) && OccursAt(a + p + b, q, |a|)
  {
    var s := a + p + b;
    assert s[|a|..] == p + b;
    assert (p + b)[..|p|] == p;
    assert (p + b)[..|q|] == p[..|q|];
  }

  ghost predicate Contains(s: string, p: string)
  {
    exists i: nat :: OccursAt(s, p, i)
  }

  /** Text cut just before the first occurrence of `p` holds no occurrence of `p`. */
  lemma {:induction false} CleanBeforeFirst(s: string, p: string, j: nat)
    requires |p| > 0 && j <= |s|
    requires forall k: nat :: k < j ==> !OccursAt(s, p, k)
    ensures !Contains(s[..j], p)
  {
    forall i: nat | i <= j ensures !OccursAt(s[..j], p, i) {
      if OccursAt(s[..j], p, i) {
        assert i < j;
        assert s[..j][i..][..|p|] == s[i..][..|p|];
        assert OccursAt(s, p, i);
      }
    }
  }

  /** Wherever a text occurs, its prefixes occur too. */
  lemma {:induction false} ContainsPrefix(s: string, p: string, q: string)
    requires StartsWith(p, q) && Contains(s, p)
    ensures Contains(s, q)
  {
    var i: nat :| OccursAt(s, p, i);
    assert s[i..][..|q|] == s[i..][..|p|][..|q|];
    assert OccursAt(s, q, i);
  }

  /** `s.includes(p)`. */
  function Includes(s: string, p: string): (b: bool)
    ensures b <==> Contains(s, p)
  {
    IndexOfFirst(s, p);
    IndexOf(s, p).Some?
  }

  /** A found position moved `n` places to the right; nothing found stays nothing. */
  function Shift(o: Option<nat>, n: nat): (r: Option<nat>)
    ensures r.None? <==> o.None?
    ensures r.Some? ==> r.value == o.value + n
  {
    match o
    case None => None
    case Some(i) => Some(i + n)
  }

  /** `s.indexOf(p)`, with `None` for -1. */
  function IndexOf(s: string, p: string): (r: Option<nat>)
    ensures r.Some? ==> r.value + |p| <= |s|
    decreases |s|
  {
    if |s| < |p| then None
    else if StartsWith(s, p) then Some(0)
    else Shift(IndexOf(s[1..], p), 1)
  }

  /** `IndexOf` finds the first occurrence, and finds nothing only when there is none. */
  lemma {:induction false} IndexOfFirst(s: string, p: string)
    ensures IndexOf(s, p).Some? ==> OccursAt(s, p, IndexOf(s, p).value)
    ensures IndexOf(s, p).Some? ==> forall k: nat :: k < IndexOf(s, p).value ==> !OccursAt(s, p, k)
    ensures IndexOf(s, p).None? <==> !Contains(s, p)
    decreases |s|
  {
    if |s| < |p| {
      forall k: nat ensures !OccursAt(s, p, k) {
      }
    } else if StartsWith(s, p) {
      assert s[0..] == s;
      assert OccursAt(s, p, 0);
    } else {
      IndexOfFirst(s[1..], p);
      assert s[0..] == s;
      forall k: nat | 1 <= k <= |s| ensures OccursAt(s, p, k) <==> OccursAt(s[1..], p, k - 1) {
        assert s[k..] == s[1..][k - 1..];
      }
      if IndexOf(s, p).None? {
        forall k: nat ensures !OccursAt(s, p, k) {
          if 1 <= k <= |s| {
            assert !OccursAt(s[1..], p, k - 1);
          }
        }
      } else {
        var i := IndexOf(s[1..], p).value;
        assert OccursAt(s[1..], p, i);
        assert OccursAt(s, p, i + 1);
      }
    }
  }

  /** Every occurrence of `p`, scanning left to right without overlap, becomes `r`. */
  function ReplaceAll(s: string, p: string, r: string): string
    requires |p| > 0
    decreases |s|
  {
    if |s| < |p| then s
    else if StartsWith(s, p) then r + ReplaceAll(s[|p|..], p, r)
    else [s[0]] + ReplaceAll(s[1..], p, r)
  }

  /** Only the first occurrence of `p`, if any, becomes `r`. */
  function ReplaceFirst(s: string, p: string, r: string): string
    requires |p| > 0
    decreases |s|
  {
    if |s| < |p| then s
    else if StartsWith(s, p) then r + s[|p|..]
    else [s[0]] + ReplaceFirst(s[1..], p, r)
  }

  /** A string that starts with the pattern has that occurrence replaced first. */
  lemma {:induction false} ReplaceAllHead(p: string, y: string, r: string)
    requires |p| > 0
    ensures ReplaceAll(p + y, p, r) == r + ReplaceAll(y, p, r)
  {
    assert (p + y)[..|p|] == p;
    assert (p + y)[|p|..] == y;
  }

  lemma {:induction false} ReplaceFirstHead(p: string, y: string, r: string)
    requires |p| > 0
    ensures ReplaceFirst(p + y, p, r) == r + y
  {
    assert (p + y)[..|p|] == p;
    assert (p + y)[|p|..] == y;
  }

  /** No occurrence begins inside `x`: it is copied, and replacement goes on in `y`. */
  predicate NoneStartIn(x: string, y: string, p: string)
  {
    forall k :: 0 <= k < |x| ==> !StartsWith((x + y)[k..], p)
  }

  lemma {:induction false} ReplaceAllSkip(x: string, y: string, p: string, r: string)
    requires |p| > 0 && NoneStartIn(x, y, p)
    ensures ReplaceAll(x + y, p, r) == x + ReplaceAll(y, p, r)
    decreases |x|
  {
    if x != [] {
      assert (x + y)[0..] == x + y;
      assert (x + y)[1..] == x[1..] + y;
      forall k | 0 <= k < |x[1..]| ensures !StartsWith((x[1..] + y)[k..], p) {
        assert (x[1..] + y)[k..] == (x + y)[k + 1..];
      }
      ReplaceAllSkip(x[1..], y, p, r);
      assert [x[0]] + x[1..] == x;
    }
  }

  lemma {:induction false} ReplaceFirstSkip(x: string, y: string, p: string, r: string)
    requires |p| > 0 && NoneStartIn(x, y, p)
    ensures ReplaceFirst(x + y, p, r) == x + ReplaceFirst(y, p, r)
    decreases |x|
  {
    if x != [] {
      assert (x + y)[0..] == x + y;
      assert (x + y)[1..] == x[1..] + y;
      forall k | 0 <= k < |x[1..]| ensures !StartsWith((x[1..] + y)[k..], p) {
        assert (x[1..] + y)[k..] == (x + y)[k + 1..];
      }
      ReplaceFirstSkip(x[1..], y, p, r);
      assert [x[0]] + x[1..] == x;
    }
  }

  /** With no occurrence beginning inside `x`, the first occurrence in `x + y` is the first in `y`, shifted. */
  lemma {:induction false} IndexOfSkip(x: string, y: string, p: string)
    requires NoneStartIn(x, y, p)
    ensures IndexOf(x + y, p) == Shift(IndexOf(y, p), |x|)
    decreases |x|
  {
    if x != [] {
      assert (x + y)[0..] == x + y;
      assert (x + y)[1..] == x[1..] + y;
      forall k | 0 <= k < |x[1..]| ensures !StartsWith((x[1..] + y)[k..], p) {
        assert (x[1..] + y)[k..] == (x + y)[k + 1..];
      }
      IndexOfSkip(x[1..], y, p);
      assert !StartsWith((x + y)[0..], p);
      if |x + y| >= |p| {
        assert IndexOf(x + y, p) == Shift(IndexOf(x[1..] + y, p), 1);
      }
    }
  }

  /** A string with no occurrence of the pattern is left alone by both replacements. */
  lemma {:induction false} ReplaceAbsent(s: string, p: string, r: string)
    requires |p| > 0 && !Contains(s, p)
    ensures ReplaceAll(s, p, r) == s
    ensures ReplaceFirst(s, p, r) == s
  {
    assert s + [] == s;
    forall k | 0 <= k < |s| ensures !StartsWith((s + [])[k..], p) {
      assert !OccursAt(s, p, k);
    }
    ReplaceAllSkip(s, [], p, r);
    ReplaceFirstSkip(s, [], p, r);
  }

  /**
   * `ReplaceFirst` means what its name says: the text before the first occurrence,
   * the replacement, and the text after that occurrence.
   */
  lemma {:induction false} ReplaceFirstSplit(s: string, p: string, r: string)
    requires |p| > 0 && IndexOf(s, p).Some?
    ensures ReplaceFirst(s, p, r) == s[..IndexOf(s, p).value] + r + s[IndexOf(s, p).value + |p|..]
  {
    IndexOfFirst(s, p);
    var i := IndexOf(s, p).value;
    var x, y := s[..i], s[i..];
    assert s == x + y;
    forall k | 0 <= k < |x| ensures !StartsWith((x + y)[k..], p) {
      assert !OccursAt(s, p, k);
    }
    ReplaceFirstSkip(x, y, p, r);
    assert y == p + s[i + |p|..];
    ReplaceFirstHead(p, s[i + |p|..], r);
  }

  /** ASCII lower-casing of one character. */
  function LowerChar(c: char): (d: char)
    ensures 'A' <= c <= 'Z' ==> d as int == c as int + 32
    ensures !('A' <= c <= 'Z') ==> d == c
  {
    if 'A' <= c <= 'Z' then (c as int + 32) as char else c
  }

  /** `s.toLowerCase()`, restricted to ASCII letters. */
  function ToLower(s: string): (t: string)
    ensures |t| == |s|
    ensures forall i :: 0 <= i < |s| ==> t[i] == LowerChar(s[i])
  {
    seq(|s|, i requires 0 <= i < |s| => LowerChar(s[i]))
  }

  /** Lower-casing twice is lower-casing once. */
  lemma {:induction false} ToLowerIdempotent(s: string)
    ensures ToLower(ToLower(s)) == ToLower(s)
  {
  }

  /** The characters JavaScript's `\s` and `String.prototype.trim` treat as white space. */
  predicate IsJsSpace(c: char)
  {
    var n := c as int;
    (9 <= n <= 13) || n == 0x20 || n == 0xA0 || n == 0x1680 || (0x2000 <= n <= 0x200A)
    || n == 0x2028 || n == 0x2029 || n == 0x202F || n == 0x205F || n == 0x3000 || n == 0xFEFF
  }

  predicate NoSpace(s: string)
  {
    forall i :: 0 <= i < |s| ==> !IsJsSpace(s[i])
  }

  /** `s` with its leading run of white space removed. */
  function DropSpaces(s: string): (t: string)
    ensures |t| <= |s| && s[|s| - |t|..] == t
    ensures t == [] || !IsJsSpace(t[0])
    ensures forall i :: 0 <= i < |s| - |t| ==> IsJsSpace(s[i])
  {
    if s != [] && IsJsSpace(s[0]) then DropSpaces(s[1..]) else s
  }

  /** `s.replace(/\s+/g, sep)`: every maximal run of white space becomes `sep`. */
  function CollapseSpaces(s: string, sep: string): string
    decreases |s|
  {
    if s == [] then []
    else if IsJsSpace(s[0]) then sep + CollapseSpaces(DropSpaces(s[1..]), sep)
    else [s[0]] + CollapseSpaces(s[1..], sep)
  }

  /** With a white-space-free separator the result has no white space left. */
  lemma {:induction false} CollapseSpacesNoSpace(s: string, sep: string)
    requires NoSpace(sep)
    ensures NoSpace(CollapseSpaces(s, sep))
    decreases |s|
  {
    if s == [] {
    } else if IsJsSpace(s[0]) {
      CollapseSpacesNoSpace(DropSpaces(s[1..]), sep);
    } else {
      CollapseSpacesNoSpace(s[1..], sep);
    }
  }

  /** A string without white space passes through unchanged. */
  lemma {:induction false} CollapseSpacesIdentity(s: string, sep: string)
    requires NoSpace(s)
    ensures CollapseSpaces(s, sep) == s
    decreases |s|
  {
    if s != [] {
      CollapseSpacesIdentity(s[1..], sep);
    }
  }

  /** Lower-casing never introduces or removes white space. */
  lemma {:induction false} LowerNoSpace(s: string)
    requires NoSpace(s)
    ensures NoSpace(ToLower(s))
  {
  }

  lemma {:induction false} ToLowerConcat(a: string, b: string)
    ensures ToLower(a + b) == ToLower(a) + ToLower(b)
  {
    assert forall i :: 0 <= i < |a + b| ==> ToLower(a + b)[i] == (ToLower(a) + ToLower(b))[i];
  }

  /** Lower-casing neither creates nor removes white space, so it commutes with dropping it. */
  lemma {:induction false} LowerSpace(c: char)
    ensures IsJsSpace(LowerChar(c)) <==> IsJsSpace(c)
  {
  }

  lemma {:induction false} LowerDropSpaces(s: string)
    ensures DropSpaces(ToLower(s)) == ToLower(DropSpaces(s))
    decreases |s|
  {
    if s != [] {
      assert ToLower(s)[0] == LowerChar(s[0]);
      assert ToLower(s)[1..] == ToLower(s[1..]);
      LowerSpace(s[0]);
      if IsJsSpace(s[0]) {
        LowerDropSpaces(s[1..]);
      }
    }
  }

  /**
   * Lower-casing before or after collapsing white space runs gives the same text, for a
   * separator that lower-casing keeps.
   */
  lemma {:induction false} LowerCollapse(s: string, sep: string)
    requires ToLower(sep) == sep
    ensures ToLower(CollapseSpaces(s, sep)) == CollapseSpaces(ToLower(s), sep)
    decreases |s|
  {
    if s != [] {
      var t := ToLower(s);
      assert t[0] == LowerChar(s[0]);
      assert t[1..] == ToLower(s[1..]);
      LowerSpace(s[0]);
      if IsJsSpace(s[0]) {
        var d := DropSpaces(s[1..]);
        LowerDropSpaces(s[1..]);
        assert DropSpaces(t[1..]) == ToLower(d);
        assert CollapseSpaces(t, sep) == sep + CollapseSpaces(ToLower(d), sep);
        LowerCollapse(d, sep);
        ToLowerConcat(sep, CollapseSpaces(d, sep));
        assert CollapseSpaces(s, sep) == sep + CollapseSpaces(d, sep);
      } else {
        assert CollapseSpaces(t, sep) == [t[0]] + CollapseSpaces(ToLower(s[1..]), sep);
        LowerCollapse(s[1..], sep);
        ToLowerConcat([s[0]], CollapseSpaces(s[1..], sep));
        assert ToLower([s[0]]) == [t[0]];
        assert CollapseSpaces(s, sep) == [s[0]] + CollapseSpaces(s[1..], sep);
      }
    }
  }

  /** `s.trim() === ''`: the string is empty or all white space. */
  predicate IsBlank(s: string)
  {
    forall i :: 0 <= i < |s| ==> IsJsSpace(s[i])
  }

  /** `s` with its trailing run of white space removed. */
  function DropSpacesEnd(s: string): (t: string)
    ensures |t| <= |s| && s[..|t|] == t
    ensures t == [] || !IsJsSpace(t[|t| - 1])
    ensures forall i :: |t| <= i < |s| ==> IsJsSpace(s[i])
  {
    if s != [] && IsJsSpace(s[|s| - 1]) then DropSpacesEnd(s[..|s| - 1]) else s
  }

  /** `s.trim()`. */
  function Trim(s: string): string
  {
    DropSpacesEnd(DropSpaces(s))
  }

  /** Trimming leaves nothing exactly when the string is blank. */
  lemma {:induction false} TrimEmptyIff(s: string)
    ensures Trim(s) == [] <==> IsBlank(s)
  {
    var d := DropSpaces(s);
    if Trim(s) != [] {
      var k := |s| - |d|;
      assert s[k] == d[0];
    }
  }

  function DigitChar(d: nat): (c: char)
    requires d < 10
    ensures '0' <= c <= '9'
  {
    ('0' as int + d) as char
  }

  /** The decimal digits of `n`, as `String(n)` writes a non-negative integer. */
  function NatToString(n: nat): (s: string)
    ensures |s| > 0
    ensures forall i :: 0 <= i < |s| ==> '0' <= s[i] <= '9'
    ensures n < 10 ==> s == [DigitChar(n)]
    decreases n
  {
    if n < 10 then [DigitChar(n)] else NatToString(n / 10) + [DigitChar(n % 10)]
  }

  /** The value of a string of decimal digits. */
  function DigitsValue(s: string): nat
    requires forall i :: 0 <= i < |s| ==> '0' <= s[i] <= '9'
  {
    if s == [] then 0 else DigitsValue(s[..|s| - 1]) * 10 + (s[|s| - 1] as int - '0' as int)
  }

  /** Reading the digits back gives the number: the rendering is faithful. */
  lemma {:induction false} NatToStringValue(n: nat)
    ensures DigitsValue(NatToString(n)) == n
    decreases n
  {
    if n >= 10 {
      var s := NatToString(n);
      NatToStringValue(n / 10);
      assert s[..|s| - 1] == NatToString(n / 10);
    }
  }

  /** Distinct numbers print differently. */
  lemma {:induction false} NatToStringInjective(m: nat, n: nat)
    requires NatToString(m) == NatToString(n)
    ensures m == n
  {
    NatToStringValue(m);
    NatToStringValue(n);
  }

  /** `String(n)` for an integer: a minus sign before the digits of a negative number. */
  function IntToString(n: int): (s: string)
    ensures n >= 0 ==> s == NatToString(n)
    ensures n < 0 ==> s == "-" + NatToString(-n)
  {
    if n >= 0 then NatToString(n) else "-" + NatToString(-n)
  }

  /** `parts.join(sep)`. */
  function Join(parts: seq<string>, sep: string): string
  {
    if parts == [] then ""
    else if |parts| == 1 then parts[0]
    else parts[0] + sep + Join(parts[1..], sep)
  }

  /** Parts that each begin with `p` join into text that begins with `p`, empty only when there are no parts. */
  lemma {:induction false} JoinStarts(parts: seq<string>, sep: string, p: string)
    requires |p| > 0 && forall i :: 0 <= i < |parts| ==> StartsWith(parts[i], p)
    ensures parts == [] <==> Join(parts, sep) == ""
    ensures parts != [] ==> StartsWith(Join(parts, sep), p)
  {
    if parts != [] {
      assert StartsWith(parts[0], p);
      var j := Join(parts, sep);
      assert j[..|parts[0]|] == parts[0];
      assert j[..|p|] == parts[0][..|p|];
    }
  }

  /** Concatenation without separator (`parts.join('')`). */
  function Concat(parts: seq<string>): string
  {
    if parts == [] then "" else parts[0] + Concat(parts[1..])
  }

  lemma {:induction false} ConcatAppend(parts: seq<string>, last: string)
    ensures Concat(parts + [last]) == Concat(parts) + last
  {
    if parts != [] {
      assert (parts + [last])[1..] == parts[1..] + [last];
      ConcatAppend(parts[1..], last);
    }
  }

  function HexDigit(d: nat): (c: char)
    requires d < 16
  {
    if d < 10 then DigitChar(d) else ('a' as int + d - 10) as char
  }

  /** The JSON escape of one character, as `JSON.stringify` writes it inside quotes. */
  function EscapeChar(c: char): (e: string)
    ensures |e| >= 1
    ensures c != '"' && c != '\\' && c as int >= 0x20 ==> e == [c]
  {
    if c == '"' then "\\\""
    else if c == '\\' then "\\\\"
    else if c as int == 8 then "\\b"
    else if c as int == 12 then "\\f"
    else if c == '\n' then "\\n"
    else if c == '\r' then "\\r"
    else if c == '\t' then "\\t"
    else if c as int < 0x20 then "\\u00" + [HexDigit(c as int / 16), HexDigit(c as int % 16)]
    else [c]
  }

  function Escape(s: string): string
  {
    if s == [] then "" else EscapeChar(s[0]) + Escape(s[1..])
  }

  /** A string literal in JSON text: quoted and escaped. */
  function JsonQuote(s: string): (q: string)
    ensures |q| >= 2 && q[0] == '"' && q[|q| - 1] == '"'
  {
    "\"" + Escape(s) + "\""
  }

  /** Text without quotes, backslashes or control characters is written as is. */
  lemma {:induction false} EscapePlain(s: string)
    requires forall i :: 0 <= i < |s| ==> s[i] != '"' && s[i] != '\\' && s[i] as int >= 0x20
    ensures Escape(s) == s
  {
    if s != [] {
      EscapePlain(s[1..]);
    }
  }
}
