/**
 * The fixed-width integers of Rust and the few pieces of its standard library
 * that the task protocol relies on to render text: `{}` of an unsigned integer,
 * `{:?}` of a string, `Vec<String>::join` and `str::split` by one character.
 */
module RustText {
  import opened Wrappers

  const U64_MODULUS: int := 0x1_0000_0000_0000_0000
  const I64_BOUND: int := 0x8000_0000_0000_0000

  newtype u8 = x: int | 0 <= x < 0x100
  newtype u64 = x: int | 0 <= x < 0x1_0000_0000_0000_0000
  newtype i64 = x: int | -0x8000_0000_0000_0000 <= x < 0x8000_0000_0000_0000

  /**
   * The cast `k as i64` of a `u64`: the same 64 bits read in two's
   * complement, so values from 2^63 on come out negative.
   */
  function U64AsI64(k: u64): (r: i64)
    ensures (r as int - k as int) % U64_MODULUS == 0
    ensures r >= 0 <==> k as int < I64_BOUND
    ensures k as int < I64_BOUND ==> r as int == k as int
  {
    if k as int < I64_BOUND then k as int as i64 else (k as int - U64_MODULUS) as i64
  }

  // ---------------------------------------------------------------------------
  // `format!("{}", n)` for an unsigned integer

  predicate IsDigits(s: string) {
    forall i :: 0 <= i < |s| ==> '0' <= s[i] <= '9'
  }

  function DigitChar(d: int): (c: char)
    requires 0 <= d < 10
    ensures '0' <= c <= '9' && c as int - '0' as int == d
  {
    ('0' as int + d) as char
  }

  /** Decimal digits of `n`, most significant first, without sign or leading zero. */
  function Decimal(n: nat): (s: string)
    ensures |s| >= 1 && IsDigits(s)
    ensures s[0] == '0' ==> n == 0
    decreases n
  {
    if n < 10 then [DigitChar(n)] else Decimal(n / 10) + [DigitChar(n % 10)]
  }

  /** The number a string of decimal digits denotes. */
  function DigitsValue(s: string): nat
    requires IsDigits(s)
    decreases |s|
  {
    if s == [] then 0 else DigitsValue(s[..|s| - 1]) * 10 + (s[|s| - 1] as int - '0' as int)
  }

  /** Reading the rendered digits back gives the number: the rendering loses nothing. */
  lemma {:induction false} DecimalRoundTrip(n: nat)
    ensures DigitsValue(Decimal(n)) == n
    decreases n
  {
    if n >= 10 {
      DecimalRoundTrip(n / 10);
      var s := Decimal(n);
      assert s[..|s| - 1] == Decimal(n / 10);
    }
  }

  lemma DecimalInjective(m: nat, n: nat)
    ensures Decimal(m) == Decimal(n) <==> m == n
  {
    DecimalRoundTrip(m);
    DecimalRoundTrip(n);
  }

  // ---------------------------------------------------------------------------
  // `format!("{:?}", s)` for a string

  /**
   * How `<str as Debug>` writes one character between the quotes:
   * backslash, double quote and the control characters NUL, TAB, LF and CR
   * get a backslash escape; every other character is written as it is.
   */
  function EscapeChar(c: char): string {
    if c == '\\' then "\\\\"
    else if c == '"' then "\\\""
    else if c == '\n' then "\\n"
    else if c == '\r' then "\\r"
    else if c == '\t' then "\\t"
    else if c == '\0' then "\\0"
    else [c]
  }

  /** The character that the escape `\e` stands for, if `e` is an escape letter. */
  function Unescaped(e: char): Option<char> {
    if e == '\\' then Some('\\')
    else if e == '"' then Some('"')
    else if e == 'n' then Some('\n')
    else if e == 'r' then Some('\r')
    else if e == 't' then Some('\t')
    else if e == '0' then Some('\0')
    else None
  }

  function EscapeBody(s: string): string
    decreases |s|
  {
    if s == [] then "" else EscapeChar(s[0]) + EscapeBody(s[1..])
  }

  /** `format!("{:?}", s)`: the string in double quotes, escaped. */
  function DebugString(s: string): (r: string)
    ensures |r| >= 2 && r[0] == '"' && r[|r| - 1] == '"'
  {
    "\"" + EscapeBody(s) + "\""
  }

  /** Reads an escaped body back; None when it holds a bare quote or an unknown escape. */
  function UnescapeBody(t: string): Option<string>
    decreases |t|
  {
    if t == [] then Some("")
    else if t[0] == '\\' then
      if |t| < 2 then None
      else match (Unescaped(t[1]), UnescapeBody(t[2..]))
        case (Some(c), Some(rest)) => Some([c] + rest)
        case _ => None
    else if t[0] == '"' then None
    else match UnescapeBody(t[1..])
      case Some(rest) => Some([t[0]] + rest)
      case None => None
  }

  /** Reads a `{:?}` rendering of a string back. */
  function ParseDebugString(r: string): Option<string> {
    if |r| < 2 || r[0] != '"' || r[|r| - 1] != '"' then None else UnescapeBody(r[1..|r| - 1])
  }

  /** Reading back one escaped character in front of the rest. */
  lemma UnescapeEscapeChar(c: char, t: string)
    ensures UnescapeBody(EscapeChar(c) + t) ==
      match UnescapeBody(t)
      case Some(rest) => Some([c] + rest)
      case None => None
  {
    var e := EscapeChar(c);
    var u := e + t;
    if |e| == 1 {
      assert u[0] == c && u[1..] == t;
    } else {
      assert u[0] == '\\' && Unescaped(u[1]) == Some(c) && u[2..] == t;
    }
  }

  lemma {:induction false} UnescapeEscapeBody(s: string)
    ensures UnescapeBody(EscapeBody(s)) == Some(s)
    decreases |s|
  {
    if s != [] {
      UnescapeEscapeBody(s[1..]);
      UnescapeEscapeChar(s[0], EscapeBody(s[1..]));
      assert [s[0]] + s[1..] == s;
    }
  }

  /** The Debug rendering of a string determines the string. */
  lemma DebugStringRoundTrip(s: string)
    ensures ParseDebugString(DebugString(s)) == Some(s)
  {
    var r := DebugString(s);
    assert r[1..|r| - 1] == EscapeBody(s);
    UnescapeEscapeBody(s);
  }

  // ---------------------------------------------------------------------------
  // `Vec<String>::join` and `str::split`

  /** `parts.join(sep)`: the parts in order with `sep` between neighbours. */
  function Join(parts: seq<string>, sep: string): string
    decreases |parts|
  {
    if |parts| == 0 then ""
    else if |parts| == 1 then parts[0]
    else parts[0] + sep + Join(parts[1..], sep)
  }

  /** A join starts with its first part and ends with its last. */
  lemma {:induction false} JoinBounds(parts: seq<string>, sep: string)
    requires |parts| >= 1
    ensures var s := Join(parts, sep);
      && parts[0] <= s
      && |Last(parts)| <= |s| && s[|s| - |Last(parts)|..] == Last(parts)
    decreases |parts|
  {
    if |parts| > 1 {
      JoinBounds(parts[1..], sep);
      var rest := Join(parts[1..], sep);
      var s := parts[0] + sep + rest;
      var l := Last(parts);
      assert l == Last(parts[1..]);
      assert s[|s| - |rest|..] == rest;
      assert s[|s| - |l|..] == rest[|rest| - |l|..];
    }
  }

  /** `s.split(c)` collected: the maximal runs between occurrences of `c`, never empty. */
  function Split(s: string, c: char): (parts: seq<string>)
    ensures |parts| >= 1
    ensures c !in s <==> |parts| == 1
    ensures c !in s ==> parts == [s]
    decreases |s|
  {
    if s == [] then [""]
    else
      var rest := Split(s[1..], c);
      assert [s[0]] + s[1..] == s;
      if s[0] == c then [""] + rest else [[s[0]] + rest[0]] + rest[1..]
  }

  function Last<T>(s: seq<T>): T
    requires |s| >= 1
  {
    s[|s| - 1]
  }

  lemma {:induction false} SplitAfter(p: string, c: char, rest: string)
    requires c !in p
    ensures Split(p + [c] + rest, c) == [p] + Split(rest, c)
    decreases |p|
  {
    if p == [] {
      assert ([] + [c] + rest)[1..] == rest;
    } else {
      var s := p + [c] + rest;
      assert s[1..] == p[1..] + [c] + rest;
      SplitAfter(p[1..], c, rest);
      assert [p[0]] + p[1..] == p;
    }
  }

  /** Joining by a character and splitting by it again gives the parts back,
      provided no part contains that character. */
  lemma {:induction false} SplitJoin(parts: seq<string>, c: char)
    requires |parts| >= 1
    requires forall i :: 0 <= i < |parts| ==> c !in parts[i]
    ensures Split(Join(parts, [c]), c) == parts
    decreases |parts|
  {
    if |parts| > 1 {
      SplitJoin(parts[1..], c);
      SplitAfter(parts[0], c, Join(parts[1..], [c]));
      assert [parts[0]] + parts[1..] == parts;
    }
  }

  /**
   * `r` is the text after the last `c` in `s`, or all of `s` when there is
   * none: a suffix of `s` free of `c` that is all of `s` or follows a `c`.
   */
  predicate IsLastSegment(s: string, c: char, r: string) {
    && |r| <= |s| && s[|s| - |r|..] == r && c !in r
    && (|r| < |s| ==> s[|s| - |r| - 1] == c)
  }

  lemma {:induction false} LastOfSplitStep(s: string, c: char)
    requires s != []
    ensures Last(Split(s, c)) == if s[0] != c && c !in s[1..] then s else Last(Split(s[1..], c))
  {
    var rest := Split(s[1..], c);
    var parts := Split(s, c);
    if s[0] == c {
      assert parts == [""] + rest;
      assert Last(parts) == Last(rest);
    } else if c in s[1..] {
      assert |rest| > 1;
      assert parts == [[s[0]] + rest[0]] + rest[1..];
      assert Last(parts) == Last(rest);
    } else {
      assert parts == [s];
    }
  }

  /** A last segment of the tail of `s` is one of `s` itself when `s` holds a `c`. */
  lemma LastSegmentOfTail(s: string, c: char, r: string)
    requires s != [] && (s[0] == c || c in s[1..])
    requires IsLastSegment(s[1..], c, r)
    ensures IsLastSegment(s, c, r)
  {
    assert s[|s| - |r|..] == s[1..][|s[1..]| - |r|..];
    if |r| < |s| - 1 {
      assert s[|s| - |r| - 1] == s[1..][|s[1..]| - |r| - 1];
    } else {
      assert r == s[1..];
    }
  }

  /** The last piece of `s.split(c)` is the text after the last `c`. */
  lemma {:induction false} LastOfSplit(s: string, c: char)
    ensures IsLastSegment(s, c, Last(Split(s, c)))
    decreases |s|
  {
    if s != [] {
      LastOfSplitStep(s, c);
      if s[0] == c || c in s[1..] {
        LastOfSplit(s[1..], c);
        LastSegmentOfTail(s, c, Last(Split(s[1..], c)));
      } else {
        assert c !in s;
      }
    }
  }

  /** At most one string has the shape IsLastSegment describes: the description is exact. */
  lemma LastSegmentUnique(s: string, c: char, r: string, q: string)
    requires IsLastSegment(s, c, r) && IsLastSegment(s, c, q)
    ensures r == q
  {
  }
}
