/**
 * The pieces of Go's `strings`, `fmt` and `strconv` packages that the client's
 * messages are built from: `strings.SplitN(s, sep, 2)`, `strings.TrimSpace`,
 * `strings.Join`, `strings.Split`, `strings.HasPrefix`, the `%d` verb and the
 * `%q` verb. Strings are sequences of runes; Go's byte-level view of invalid
 * UTF-8 is not modelled.
 */
module Strings {
  import opened Results

  // ---------------------------------------------------------------------------
  // Finding a separator: strings.SplitN(s, sep, 2)
  // ---------------------------------------------------------------------------

  /** `sep` occurs in `s` starting at index `i`. */
  predicate OccursAt(s: string, sep: string, i: nat) {
    i + |sep| <= |s| && s[i..i + |sep|] == sep
  }

  /** No occurrence of `sep` in `s` starts before index `k`. */
  predicate NoneBefore(s: string, sep: string, k: nat) {
    forall j: nat :: j < k ==> !OccursAt(s, sep, j)
  }

  lemma OccursShift(s: string, sep: string, j: nat)
    requires |s| > 0
    ensures OccursAt(s, sep, j + 1) <==> OccursAt(s[1..], sep, j)
  {
    if j + 1 + |sep| <= |s| {
      assert s[1..][j..j + |sep|] == s[j + 1..j + 1 + |sep|];
    }
  }

  /**
   * strings.SplitN(s, sep, 2) for a non-empty separator: `Some((before, after))`
   * when the split yields two parts (around the FIRST occurrence of `sep`),
   * `None` when it yields `s` alone.
   */
  function Cut(s: string, sep: string): (r: Option<(string, string)>)
    requires |sep| > 0
    ensures r.Some? ==> s == r.value.0 + sep + r.value.1 && NoneBefore(s, sep, |r.value.0|)
    ensures r.None? ==> NoneBefore(s, sep, |s|)
    decreases |s|
  {
    if |s| < |sep| then None
    else if s[..|sep|] == sep then Some(([], s[|sep|..]))
    else
      assert !OccursAt(s, sep, 0);
      match Cut(s[1..], sep)
      case None =>
        assert NoneBefore(s, sep, |s|) by {
          forall j: nat | j < |s| ensures !OccursAt(s, sep, j) {
            if j > 0 { OccursShift(s, sep, j - 1); }
          }
        }
        None
      case Some(parts) =>
        assert NoneBefore(s, sep, 1 + |parts.0|) by {
          forall j: nat | j < 1 + |parts.0| ensures !OccursAt(s, sep, j) {
            if j > 0 { OccursShift(s, sep, j - 1); }
          }
        }
        Some(([s[0]] + parts.0, parts.1))
  }

  /** The split around the first occurrence is the only one Cut can return. */
  lemma CutUnique(s: string, sep: string, before: string, after: string)
    requires |sep| > 0
    requires s == before + sep + after && NoneBefore(s, sep, |before|)
    ensures Cut(s, sep) == Some((before, after))
  {
    assert s[|before|..|before| + |sep|] == sep;
    assert OccursAt(s, sep, |before|);
    var r := Cut(s, sep);
    if r.Some? {
      var k := |r.value.0|;
      if k < |before| {
        assert s[k..k + |sep|] == sep;
        assert OccursAt(s, sep, k);
      }
      assert k == |before|;
      assert r.value.0 == s[..k] == before;
      assert r.value.1 == s[k + |sep|..] == after;
    }
  }

  /** A one-rune separator that does not occur is not found. */
  lemma CutAbsent(s: string, c: char)
    requires c !in s
    ensures Cut(s, [c]) == None
  {
  }

  /** A one-rune separator absent from the first `k` runes occurs nowhere before `k`. */
  lemma NoneBeforeRune(s: string, c: char, k: nat)
    requires k <= |s| && c !in s[..k]
    ensures NoneBefore(s, [c], k)
  {
    forall j: nat | j < k ensures !OccursAt(s, [c], j) {
      assert s[..k][j] == s[j];
    }
  }

  // ---------------------------------------------------------------------------
  // strings.Split and strings.Join
  // ---------------------------------------------------------------------------

  /** strings.Split(s, sep) for a non-empty separator: always at least one part. */
  function Split(s: string, sep: string): (r: seq<string>)
    requires |sep| > 0
    ensures |r| > 0
    decreases |s|
  {
    match Cut(s, sep)
    case None => [s]
    case Some(parts) => [parts.0] + Split(parts.1, sep)
  }

  /** strings.Join(parts, sep). */
  function Join(parts: seq<string>, sep: string): string {
    if |parts| == 0 then ""
    else if |parts| == 1 then parts[0]
    else parts[0] + sep + Join(parts[1..], sep)
  }

  /** Splitting on a rune undoes joining on it, when no part contains the rune. */
  lemma {:induction false} SplitJoin(parts: seq<string>, c: char)
    requires |parts| > 0
    requires forall i :: 0 <= i < |parts| ==> c !in parts[i]
    ensures Split(Join(parts, [c]), [c]) == parts
  {
    if |parts| == 1 {
      CutAbsent(parts[0], c);
    } else {
      var rest := Join(parts[1..], [c]);
      var s := parts[0] + [c] + rest;
      assert s[..|parts[0]|] == parts[0];
      NoneBeforeRune(s, c, |parts[0]|);
      CutUnique(s, [c], parts[0], rest);
      SplitJoin(parts[1..], c);
    }
  }

  /** strings.HasPrefix(s, prefix). */
  predicate HasPrefix(s: string, prefix: string) {
    |prefix| <= |s| && s[..|prefix|] == prefix
  }

  // ---------------------------------------------------------------------------
  // strings.TrimSpace
  // ---------------------------------------------------------------------------

  /** unicode.IsSpace: the Latin-1 spaces and the Unicode White_Space runes. */
  predicate IsSpace(c: char) {
    var n := c as int;
    n == 0x20 || 0x09 <= n <= 0x0D || n == 0x85 || n == 0xA0 || n == 0x1680
    || 0x2000 <= n <= 0x200A || n == 0x2028 || n == 0x2029 || n == 0x202F
    || n == 0x205F || n == 0x3000
  }

  predicate AllSpace(s: string) {
    forall i :: 0 <= i < |s| ==> IsSpace(s[i])
  }

  /** strings.TrimLeftFunc(s, unicode.IsSpace). */
  function TrimLeft(s: string): (r: string)
    ensures |r| <= |s| && r == s[|s| - |r|..]
    ensures AllSpace(s[..|s| - |r|])
    ensures r == [] || !IsSpace(r[0])
  {
    if s != [] && IsSpace(s[0]) then
      var r := TrimLeft(s[1..]);
      assert s[1..][..|s| - 1 - |r|] == s[1..|s| - |r|];
      r
    else s
  }

  /** strings.TrimRightFunc(s, unicode.IsSpace). */
  function TrimRight(s: string): (r: string)
    ensures |r| <= |s| && r == s[..|r|]
    ensures AllSpace(s[|r|..])
    ensures r == [] || !IsSpace(r[|r| - 1])
  {
    if s != [] && IsSpace(s[|s| - 1]) then
      var r := TrimRight(s[..|s| - 1]);
      assert s[..|s| - 1][|r|..] + [s[|s| - 1]] == s[|r|..];
      r
    else s
  }

  /** strings.TrimSpace: drops the leading and the trailing Unicode spaces. */
  function TrimSpace(s: string): string {
    TrimRight(TrimLeft(s))
  }

  /** TrimSpace keeps an infix of `s`, drops only spaces, and leaves no space at either end. */
  lemma TrimSpaceInfix(s: string)
    ensures var r := TrimSpace(s);
            exists i, j :: 0 <= i <= j <= |s| && r == s[i..j] && AllSpace(s[..i]) && AllSpace(s[j..])
    ensures var r := TrimSpace(s);
            r == [] || (!IsSpace(r[0]) && !IsSpace(r[|r| - 1]))
  {
    var left := TrimLeft(s);
    var r := TrimRight(left);
    var i := |s| - |left|;
    var j := i + |r|;
    assert r == s[i..j];
    assert s[j..] == left[|r|..];
  }

  /** Trimming text that has no surrounding space changes nothing. */
  lemma TrimSpaceNoop(s: string)
    requires s == [] || (!IsSpace(s[0]) && !IsSpace(s[|s| - 1]))
    ensures TrimSpace(s) == s
  {
  }

  // ---------------------------------------------------------------------------
  // The %d verb
  // ---------------------------------------------------------------------------

  predicate IsDigit(c: char) {
    '0' <= c <= '9'
  }

  function DigitChar(d: nat): (c: char)
    requires d < 10
    ensures IsDigit(c)
  {
    "0123456789"[d]
  }

  /** The decimal digits of `n`, most significant first, without leading zeros. */
  function NatDigits(n: nat): (r: string)
    ensures |r| > 0 && forall i :: 0 <= i < |r| ==> IsDigit(r[i])
    ensures n > 0 ==> r[0] != '0'
  {
    if n < 10 then [DigitChar(n)] else NatDigits(n / 10) + [DigitChar(n % 10)]
  }

  /** The value of a string of decimal digits. */
  function DigitsValue(s: string): int
    requires forall i :: 0 <= i < |s| ==> IsDigit(s[i])
  {
    if s == [] then 0 else 10 * DigitsValue(s[..|s| - 1]) + (s[|s| - 1] as int - '0' as int)
  }

  /** fmt's `%d` of an int: a minus sign for negative values, then the digits. */
  function Decimal(n: int): (r: string)
    ensures |r| > 0
    ensures forall i :: 0 <= i < |r| ==> IsDigit(r[i]) || r[i] == '-'
  {
    if n < 0 then "-" + NatDigits(-n) else NatDigits(n)
  }

  /** Reading the digits back gives the number: `%d` loses nothing. */
  lemma {:induction false} NatDigitsValue(n: nat)
    ensures DigitsValue(NatDigits(n)) == n
  {
    if n >= 10 {
      var d := NatDigits(n);
      assert d[..|d| - 1] == NatDigits(n / 10);
      NatDigitsValue(n / 10);
    }
  }

  // ---------------------------------------------------------------------------
  // The %q verb (strconv.Quote)
  // ---------------------------------------------------------------------------

  function HexDigit(d: nat): char
    requires d < 16
  {
    "0123456789abcdef"[d]
  }

  function HexValue(c: char): Option<nat> {
    if '0' <= c <= '9' then Some(c as int - '0' as int)
    else if 'a' <= c <= 'f' then Some(c as int - 'a' as int + 10)
    else None
  }

  /** How strconv.Quote writes one rune inside the quotes. */
  function QuoteRune(c: char): (r: string)
    ensures |r| > 0
  {
    var n := c as int;
    if c == '"' then "\\\""
    else if c == '\\' then "\\\\"
    else if 0x20 <= n < 0x7F || n >= 0x80 then [c]
    else if n == 0x07 then "\\a"
    else if n == 0x08 then "\\b"
    else if n == 0x0C then "\\f"
    else if n == 0x0A then "\\n"
    else if n == 0x0D then "\\r"
    else if n == 0x09 then "\\t"
    else if n == 0x0B then "\\v"
    else "\\x" + [HexDigit(n / 16), HexDigit(n % 16)]
  }

  function QuoteBody(s: string): string {
    if s == [] then [] else QuoteRune(s[0]) + QuoteBody(s[1..])
  }

  /** fmt's `%q` of a string: the escaped runes between double quotes. */
  function Quote(s: string): (r: string)
    ensures |r| >= 2 && r[0] == '"' && r[|r| - 1] == '"'
  {
    "\"" + QuoteBody(s) + "\""
  }

  /** The rune a one-letter escape stands for. */
  function SimpleEscape(e: char): Option<char> {
    if e == '"' then Some('"')
    else if e == '\\' then Some('\\')
    else if e == 'a' then Some(7 as char)
    else if e == 'b' then Some(8 as char)
    else if e == 'f' then Some(12 as char)
    else if e == 'n' then Some(10 as char)
    else if e == 'r' then Some(13 as char)
    else if e == 't' then Some(9 as char)
    else if e == 'v' then Some(11 as char)
    else None
  }

  /** Reads back the text between the quotes of a quoted string (the escapes %q writes). */
  function UnquoteBody(t: string): Option<string>
    decreases |t|
  {
    if t == [] then Some([])
    else if t[0] == '"' then None
    else if t[0] != '\\' then
      match UnquoteBody(t[1..])
      case None => None
      case Some(rest) => Some([t[0]] + rest)
    else if |t| < 2 then None
    else if t[1] == 'x' then
      if |t| < 4 then None
      else match (HexValue(t[2]), HexValue(t[3]))
        case (Some(hi), Some(lo)) =>
          (match UnquoteBody(t[4..])
           case None => None
           case Some(rest) => Some([(hi * 16 + lo) as char] + rest))
        case _ => None
    else match SimpleEscape(t[1])
      case None => None
      case Some(c) =>
        match UnquoteBody(t[2..])
        case None => None
        case Some(rest) => Some([c] + rest)
  }

  /** strconv.Unquote, for the strings Quote produces. */
  function Unquote(q: string): Option<string> {
    if |q| >= 2 && q[0] == '"' && q[|q| - 1] == '"' then UnquoteBody(q[1..|q| - 1]) else None
  }

  lemma UnquoteRune(c: char, rest: string)
    ensures UnquoteBody(QuoteRune(c) + rest) ==
      match UnquoteBody(rest)
      case None => None
      case Some(u) => Some([c] + u)
  {
    var n := c as int;
    var t := QuoteRune(c) + rest;
    if c == '"' || c == '\\' || 0x20 <= n < 0x7F || n >= 0x80 {
      assert t[1..] == rest || t[2..] == rest;
    } else if n in {7, 8, 9, 10, 11, 12, 13} {
      assert t[2..] == rest;
    } else {
      assert t[4..] == rest;
      assert HexValue(HexDigit(n / 16)) == Some(n / 16);
      assert HexValue(HexDigit(n % 16)) == Some(n % 16);
    }
  }

  /** The quoted form of a value determines the value. */
  lemma {:induction false} UnquoteQuote(s: string)
    ensures Unquote(Quote(s)) == Some(s)
  {
    var q := Quote(s);
    assert q[1..|q| - 1] == QuoteBody(s);
    QuoteBodyRoundTrip(s);
  }

  lemma {:induction false} QuoteBodyRoundTrip(s: string)
    ensures UnquoteBody(QuoteBody(s)) == Some(s)
  {
    if s != [] {
      assert QuoteBody(s) == QuoteRune(s[0]) + QuoteBody(s[1..]);
      UnquoteRune(s[0], QuoteBody(s[1..]));
      QuoteBodyRoundTrip(s[1..]);
      assert [s[0]] + s[1..] == s;
    }
  }
}
