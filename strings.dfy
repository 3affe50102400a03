/**
 * The text primitives the Rust code relies on, defined once: `str::trim`,
 * `str::split_whitespace`, `[&str]::join`, `to_ascii_lowercase`, `ends_with`,
 * the decimal `Display` of integers, integer `FromStr`, and
 * `urlencoding::encode`.
 */
module Strings {
  import opened Wrappers
  import opened Seqs

  type i32 = x: int | -0x8000_0000 <= x < 0x8000_0000
  type u16 = x: int | 0 <= x < 0x1_0000
  /** `usize` on a 64-bit target. */
  type usize = x: int | 0 <= x < 0x1_0000_0000_0000_0000

  // ---------------------------------------------------------------------------
  // Whitespace, trimming and splitting
  // ---------------------------------------------------------------------------

  /** `char::is_whitespace`: the characters with the Unicode White_Space property. */
  predicate IsWhitespace(c: char) {
    ('\U{0009}' <= c <= '\U{000D}') || c == ' ' || c == '\U{0085}' || c == '\U{00A0}'
    || c == '\U{1680}' || ('\U{2000}' <= c <= '\U{200A}') || c == '\U{2028}'
    || c == '\U{2029}' || c == '\U{202F}' || c == '\U{205F}' || c == '\U{3000}'
  }

  predicate NoWhitespace(s: string) {
    forall i :: 0 <= i < |s| ==> !IsWhitespace(s[i])
  }

  predicate AllWhitespace(s: string) {
    forall i :: 0 <= i < |s| ==> IsWhitespace(s[i])
  }

  /** The first index at or after `from` that does not hold whitespace (`|s|` when
      there is none). */
  function SkipWhitespace(s: string, from: nat): (a: nat)
    requires from <= |s|
    ensures from <= a <= |s|
    ensures forall i :: from <= i < a ==> IsWhitespace(s[i])
    ensures a < |s| ==> !IsWhitespace(s[a])
    decreases |s| - from
  {
    if from == |s| || !IsWhitespace(s[from]) then from else SkipWhitespace(s, from + 1)
  }

  /** The end of `s[lo..hi]` once its trailing whitespace is cut away. */
  function BackOverWhitespace(s: string, lo: nat, hi: nat): (b: nat)
    requires lo <= hi <= |s|
    ensures lo <= b <= hi
    ensures forall i :: b <= i < hi ==> IsWhitespace(s[i])
    ensures b > lo ==> !IsWhitespace(s[b - 1])
    decreases hi
  {
    if hi == lo || !IsWhitespace(s[hi - 1]) then hi else BackOverWhitespace(s, lo, hi - 1)
  }

  /** `str::trim`: the longest infix that neither starts nor ends with whitespace,
      everything cut away being whitespace. */
  function Trim(s: string): (r: string)
    ensures exists a :: 0 <= a <= |s| - |r| && r == s[a..a + |r|]
                        && AllWhitespace(s[..a]) && AllWhitespace(s[a + |r|..])
    ensures r == [] || (!IsWhitespace(r[0]) && !IsWhitespace(r[|r| - 1]))
  {
    var a := SkipWhitespace(s, 0);
    var b := BackOverWhitespace(s, a, |s|);
    TrimmedInfix(s, a, b);
    s[a..b]
  }

  /** Cutting whitespace runs from both ends of `s` leaves an infix framed by them. */
  lemma TrimmedInfix(s: string, a: nat, b: nat)
    requires a <= b <= |s|
    requires forall i :: 0 <= i < a ==> IsWhitespace(s[i])
    requires forall i :: b <= i < |s| ==> IsWhitespace(s[i])
    requires a < |s| ==> !IsWhitespace(s[a])
    requires b > a ==> !IsWhitespace(s[b - 1])
    ensures var r := s[a..b];
            (exists k :: 0 <= k <= |s| - |r| && r == s[k..k + |r|]
                         && AllWhitespace(s[..k]) && AllWhitespace(s[k + |r|..]))
            && (r == [] || (!IsWhitespace(r[0]) && !IsWhitespace(r[|r| - 1])))
  {
    forall i | 0 <= i < a
      ensures IsWhitespace(s[..a][i])
    {
      assert s[..a][i] == s[i];
    }
    forall i | 0 <= i < |s| - b
      ensures IsWhitespace(s[b..][i])
    {
      assert s[b..][i] == s[b + i];
    }
    var r := s[a..b];
    assert a + |r| == b;
    assert AllWhitespace(s[..a]) && AllWhitespace(s[a + |r|..]);
    if r != [] {
      assert r[0] == s[a] && r[|r| - 1] == s[b - 1];
    }
  }

  /** The leading run of non-whitespace characters. */
  function Word(s: string): (w: string)
    ensures |w| <= |s| && w == s[..|w|]
    ensures NoWhitespace(w)
    ensures |w| == |s| || IsWhitespace(s[|w|])
  {
    if s == [] || IsWhitespace(s[0]) then [] else [s[0]] + Word(s[1..])
  }

  /** `str::split_whitespace`: the maximal runs of non-whitespace characters, in order. */
  function SplitWhitespace(s: string): (parts: seq<string>)
    ensures forall i :: 0 <= i < |parts| ==> parts[i] != [] && NoWhitespace(parts[i])
    decreases |s|
  {
    if s == [] then []
    else if IsWhitespace(s[0]) then SplitWhitespace(s[1..])
    else
      var w := Word(s);
      [w] + SplitWhitespace(s[|w|..])
  }

  lemma {:induction false} WordAppend(a: string, b: string)
    requires b == [] || IsWhitespace(b[0])
    ensures Word(a + b) == Word(a)
  {
    if a == [] {
    } else if IsWhitespace(a[0]) {
      assert (a + b)[0] == a[0];
    } else {
      DropAppend(a, b, 1);
      WordAppend(a[1..], b);
    }
  }

  /** Splitting distributes over a concatenation whose seam is whitespace. */
  lemma {:induction false} SplitAppend(a: string, b: string)
    requires b == [] || IsWhitespace(b[0])
    ensures SplitWhitespace(a + b) == SplitWhitespace(a) + SplitWhitespace(b)
    decreases |a|
  {
    if a == [] {
      assert a + b == b;
    } else if IsWhitespace(a[0]) {
      DropAppend(a, b, 1);
      assert SplitWhitespace(a + b) == SplitWhitespace(a[1..] + b);
      SplitAppend(a[1..], b);
    } else {
      WordAppend(a, b);
      var w := Word(a);
      DropAppend(a, b, |w|);
      assert SplitWhitespace(a + b) == [w] + SplitWhitespace(a[|w|..] + b);
      SplitAppend(a[|w|..], b);
      ConcatAssoc([w], SplitWhitespace(a[|w|..]), SplitWhitespace(b));
    }
  }

  lemma {:induction false} SplitAllWhitespace(s: string)
    requires AllWhitespace(s)
    ensures SplitWhitespace(s) == []
    decreases |s|
  {
    if s != [] {
      SplitAllWhitespace(s[1..]);
    }
  }

  lemma {:induction false} SplitLeadingWhitespace(w: string, s: string)
    requires AllWhitespace(w)
    ensures SplitWhitespace(w + s) == SplitWhitespace(s)
    decreases |w|
  {
    if w != [] {
      assert (w + s)[1..] == w[1..] + s;
      SplitLeadingWhitespace(w[1..], s);
    } else {
      assert w + s == s;
    }
  }

  /** `s.trim().split_whitespace()` and `s.split_whitespace()` give the same tokens. */
  lemma SplitTrim(s: string)
    ensures SplitWhitespace(Trim(s)) == SplitWhitespace(s)
  {
    var a := SkipWhitespace(s, 0);
    var b := BackOverWhitespace(s, a, |s|);
    var r := s[a..b];
    var tail := s[b..];
    ThreeParts(s, a, b);
    assert AllWhitespace(s[..a]) && AllWhitespace(tail);
    SplitLeadingWhitespace(s[..a], r + tail);
    SplitAppend(r, tail);
    SplitAllWhitespace(tail);
    assert SplitWhitespace(r) + [] == SplitWhitespace(r);
  }

  lemma SplitSingleWord(w: string)
    requires w != [] && NoWhitespace(w)
    ensures SplitWhitespace(w) == [w]
  {
    assert w + [] == w;
    WordAppend(w, []);
    assert Word(w) == w by {
      WordOfWord(w);
    }
  }

  lemma {:induction false} WordOfWord(w: string)
    requires NoWhitespace(w)
    ensures Word(w) == w
  {
    if w != [] {
      WordOfWord(w[1..]);
    }
  }

  // ---------------------------------------------------------------------------
  // Join, flattening, lower case, affixes
  // ---------------------------------------------------------------------------

  /** `[&str]::join(sep)`. */
  function Join(sep: string, parts: seq<string>): string {
    if parts == [] then []
    else if |parts| == 1 then parts[0]
    else parts[0] + sep + Join(sep, parts[1..])
  }

  function Flatten<T>(xss: seq<seq<T>>): seq<T> {
    if xss == [] then [] else xss[0] + Flatten(xss[1..])
  }

  /** Splitting a space-joined argument list gives the tokens of each argument, in order:
      an argument that itself holds whitespace breaks into several tokens. */
  lemma {:induction false} SplitJoin(args: seq<string>)
    ensures SplitWhitespace(Join(" ", args)) ==
            Flatten(seq(|args|, i requires 0 <= i < |args| => SplitWhitespace(args[i])))
  {
    var tokens := seq(|args|, i requires 0 <= i < |args| => SplitWhitespace(args[i]));
    if |args| == 0 {
    } else if |args| == 1 {
      assert Flatten(tokens) == tokens[0] + Flatten(tokens[1..]);
    } else {
      var rest := Join(" ", args[1..]);
      assert Join(" ", args) == args[0] + (" " + rest);
      SplitAppend(args[0], " " + rest);
      SplitLeadingWhitespace(" ", rest);
      SplitJoin(args[1..]);
      assert tokens[1..] == seq(|args[1..]|, i requires 0 <= i < |args[1..]| => SplitWhitespace(args[1..][i]));
    }
  }

  /** Words without whitespace survive a join and a re-split unchanged. */
  lemma {:induction false} SplitJoinWords(words: seq<string>)
    requires forall i :: 0 <= i < |words| ==> words[i] != [] && NoWhitespace(words[i])
    ensures SplitWhitespace(Join(" ", words)) == words
  {
    SplitJoin(words);
    FlattenSingletons(words);
  }

  lemma {:induction false} FlattenSingletons(words: seq<string>)
    requires forall i :: 0 <= i < |words| ==> words[i] != [] && NoWhitespace(words[i])
    ensures Flatten(seq(|words|, i requires 0 <= i < |words| => SplitWhitespace(words[i]))) == words
  {
    if words != [] {
      SplitSingleWord(words[0]);
      FlattenSingletons(words[1..]);
      var s := seq(|words|, i requires 0 <= i < |words| => SplitWhitespace(words[i]));
      assert s[1..] == seq(|words[1..]|, i requires 0 <= i < |words[1..]| => SplitWhitespace(words[1..][i]));
    }
  }

  function LowerChar(c: char): char {
    if 'A' <= c <= 'Z' then (c as int + 32) as char else c
  }

  /** `str::to_ascii_lowercase`: ASCII capitals are lowered, every other character kept. */
  function AsciiLower(s: string): (r: string)
    ensures |r| == |s|
    ensures forall i :: 0 <= i < |s| ==> r[i] == LowerChar(s[i])
  {
    seq(|s|, i requires 0 <= i < |s| => LowerChar(s[i]))
  }

  predicate StartsWith(s: string, prefix: string) {
    |prefix| <= |s| && s[..|prefix|] == prefix
  }

  predicate EndsWith(s: string, suffix: string) {
    |suffix| <= |s| && s[|s| - |suffix|..] == suffix
  }

  lemma EndsWithConcat(a: string, b: string)
    ensures EndsWith(a + b, b)
  {
    assert (a + b)[|a + b| - |b|..] == b;
  }

  predicate ContainsChar(s: string, c: char) {
    exists i :: 0 <= i < |s| && s[i] == c
  }

  /** `s` occurs somewhere inside `t`. */
  ghost predicate IsInfix(s: string, t: string) {
    exists k :: InfixAt(s, t, k)
  }

  predicate InfixAt(s: string, t: string, k: int) {
    0 <= k <= |t| - |s| && t[k..k + |s|] == s
  }

  /** An infix of an infix is an infix. */
  lemma InfixTransitive(a: string, b: string, c: string)
    requires IsInfix(a, b) && IsInfix(b, c)
    ensures IsInfix(a, c)
  {
    var j :| InfixAt(a, b, j);
    var k :| InfixAt(b, c, k);
    forall i | 0 <= i < |a|
      ensures c[k + j + i] == a[i]
    {
      assert c[k..k + |b|][j + i] == b[j + i];
      assert b[j..j + |a|][i] == a[i];
    }
    assert InfixAt(a, c, k + j);
  }

  // ---------------------------------------------------------------------------
  // Decimal text of integers, both ways
  // ---------------------------------------------------------------------------

  predicate IsDigit(c: char) {
    '0' <= c <= '9'
  }

  predicate AllDigits(s: string) {
    forall i :: 0 <= i < |s| ==> IsDigit(s[i])
  }

  function DigitChar(d: nat): char
    requires d < 10
  {
    ('0' as int + d) as char
  }

  /** The decimal digits of `n`, without leading zeros (`Display` for unsigned integers). */
  function NatToString(n: nat): (s: string)
    ensures s != [] && AllDigits(s)
    ensures |s| > 1 ==> s[0] != '0'
  {
    if n < 10 then [DigitChar(n)] else NatToString(n / 10) + [DigitChar(n % 10)]
  }

  /** `Display` for signed integers: a minus sign, then the digits of the magnitude. */
  function IntToString(i: int): string {
    if i < 0 then "-" + NatToString(-i) else NatToString(i)
  }

  function BoolToString(b: bool): string {
    if b then "true" else "false"
  }

  function DigitsValue(s: string): nat
    requires AllDigits(s)
  {
    if s == [] then 0 else DigitsValue(s[..|s| - 1]) * 10 + (s[|s| - 1] as int - '0' as int)
  }

  lemma {:induction false} DigitsOfNatToString(n: nat)
    ensures DigitsValue(NatToString(n)) == n
  {
    if n >= 10 {
      var s := NatToString(n);
      assert s[..|s| - 1] == NatToString(n / 10);
      DigitsOfNatToString(n / 10);
    }
  }

  lemma {:induction false} NatToStringInjective(m: nat, n: nat)
    requires NatToString(m) == NatToString(n)
    ensures m == n
  {
    DigitsOfNatToString(m);
    DigitsOfNatToString(n);
  }

  /** Rust's integer `FromStr` for a signed type with bounds `lo..=hi`: an optional `+` or
      `-`, then one or more ASCII digits, the value in range; anything else is an error. */
  function ParseSigned(s: string, lo: int, hi: int): (r: Option<int>)
    ensures r.Some? ==> lo <= r.value <= hi
  {
    if s == [] then None
    else if s[0] == '+' || s[0] == '-' then
      if |s| == 1 || !AllDigits(s[1..]) then None
      else
        var v: int := if s[0] == '-' then 0 - DigitsValue(s[1..]) as int else DigitsValue(s[1..]);
        if lo <= v <= hi then Some(v) else None
    else if AllDigits(s) && lo <= DigitsValue(s) <= hi then Some(DigitsValue(s))
    else None
  }

  /** Rust's integer `FromStr` for an unsigned type with maximum `hi`: as for a signed
      type, except that a leading `-` is an invalid digit. */
  function ParseUnsigned(s: string, hi: nat): (r: Option<nat>)
    ensures r.Some? ==> r.value <= hi
  {
    if s == [] then None
    else if s[0] == '+' then
      if |s| == 1 || !AllDigits(s[1..]) then None
      else if DigitsValue(s[1..]) <= hi then Some(DigitsValue(s[1..])) else None
    else if AllDigits(s) && DigitsValue(s) <= hi then Some(DigitsValue(s))
    else None
  }

  /** `str::parse::<i32>()`, with `.ok()`. */
  function ParseI32(s: string): (r: Option<i32>)
    ensures r.Some? ==> s != [] && (IsDigit(s[0]) || s[0] == '+' || s[0] == '-')
  {
    match ParseSigned(s, -0x8000_0000, 0x7FFF_FFFF)
    case Some(v) => Some(v)
    case None => None
  }

  /** `str::parse::<usize>()`, with `.ok()`. */
  function ParseUsize(s: string): (r: Option<usize>)
    ensures r.Some? ==> s != [] && (IsDigit(s[0]) || s[0] == '+')
  {
    match ParseUnsigned(s, 0xFFFF_FFFF_FFFF_FFFF)
    case Some(v) => Some(v)
    case None => None
  }

  /** Parsing inverts printing for every `i32`. */
  lemma ParseI32RoundTrip(i: i32)
    ensures ParseI32(IntToString(i)) == Some(i)
  {
    DigitsOfNatToString(if i < 0 then -(i as int) else i as int);
    if i < 0 {
      assert IntToString(i)[1..] == NatToString(-(i as int));
    }
  }

  /** Parsing inverts printing for every `usize`. */
  lemma ParseUsizeRoundTrip(n: usize)
    ensures ParseUsize(NatToString(n)) == Some(n)
  {
    DigitsOfNatToString(n);
  }

  // ---------------------------------------------------------------------------
  // urlencoding::encode
  // ---------------------------------------------------------------------------

  /** The characters `urlencoding::encode` passes through unchanged. */
  predicate IsUnreserved(c: char) {
    ('A' <= c <= 'Z') || ('a' <= c <= 'z') || ('0' <= c <= '9')
    || c == '-' || c == '.' || c == '_' || c == '~'
  }

  /** The UTF-8 encoding of one Unicode scalar value. */
  function Utf8(c: char): (bytes: seq<int>)
    ensures 1 <= |bytes| <= 4
    ensures forall i :: 0 <= i < |bytes| ==> 0 <= bytes[i] < 256
  {
    var n := c as int;
    if n < 0x80 then [n]
    else if n < 0x800 then [0xC0 + n / 64, 0x80 + n % 64]
    else if n < 0x1_0000 then [0xE0 + n / 4096, 0x80 + (n / 64) % 64, 0x80 + n % 64]
    else [0xF0 + n / 262144, 0x80 + (n / 4096) % 64, 0x80 + (n / 64) % 64, 0x80 + n % 64]
  }

  function HexDigit(d: nat): (c: char)
    requires d < 16
    ensures IsUnreserved(c)
  {
    "0123456789ABCDEF"[d]
  }

  /** `%XX` with upper-case hex digits. */
  function PercentByte(b: int): string
    requires 0 <= b < 256
  {
    ['%', HexDigit(b / 16), HexDigit(b % 16)]
  }

  function PercentBytes(bytes: seq<int>): (r: string)
    requires forall i :: 0 <= i < |bytes| ==> 0 <= bytes[i] < 256
    ensures |r| == 3 * |bytes|
    ensures forall i :: 0 <= i < |r| ==> IsUnreserved(r[i]) || r[i] == '%'
    ensures bytes != [] ==> r[0] == '%'
  {
    if bytes == [] then [] else PercentByte(bytes[0]) + PercentBytes(bytes[1..])
  }

  function EncodeChar(c: char): string {
    if IsUnreserved(c) then [c] else PercentBytes(Utf8(c))
  }

  /** `urlencoding::encode`: every character outside the unreserved set becomes the
      `%XX` escapes of its UTF-8 bytes. */
  function UrlEncode(s: string): string {
    if s == [] then [] else EncodeChar(s[0]) + UrlEncode(s[1..])
  }

  predicate AllUnreserved(s: string) {
    forall i :: 0 <= i < |s| ==> IsUnreserved(s[i])
  }

  /** The encoding holds only unreserved characters and `%` (so never `&`, `=`, `?` or
      `#`), is never shorter than its input, and equals the input exactly when the input
      is all unreserved characters. */
  lemma {:induction false} UrlEncodeSpec(s: string)
    ensures forall i :: 0 <= i < |UrlEncode(s)| ==> IsUnreserved(UrlEncode(s)[i]) || UrlEncode(s)[i] == '%'
    ensures UrlEncode(s) == s <==> AllUnreserved(s)
    ensures |UrlEncode(s)| >= |s|
  {
    if s != [] {
      UrlEncodeSpec(s[1..]);
      var rest := UrlEncode(s[1..]);
      var r := UrlEncode(s);
      var e := EncodeChar(s[0]);
      assert r == e + rest;
      assert forall i :: 0 <= i < |r| ==> IsUnreserved(r[i]) || r[i] == '%' by {
        forall i | 0 <= i < |r|
          ensures IsUnreserved(r[i]) || r[i] == '%'
        {
          if i >= |e| {
            assert r[i] == rest[i - |e|];
          }
        }
      }
      assert !IsUnreserved(s[0]) ==> |e| >= 3;
      if AllUnreserved(s) {
        assert AllUnreserved(s[1..]) by {
          assert forall i :: 0 <= i < |s[1..]| ==> s[1..][i] == s[i + 1];
        }
      }
      if r == s {
        assert IsUnreserved(s[0]);
        assert rest == s[1..];
        assert forall i :: 1 <= i < |s| ==> s[i] == s[1..][i - 1];
      }
    }
  }
}
