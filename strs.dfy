/**
 * String helpers the compiler relies on: Go's `strings.Split`/`strings.Join`,
 * `strings.Replace(s, old, new, -1)` for a one-character `old`, decimal
 * rendering of integers (`%v`), and `strconv.Quote` on the characters the
 * generated programs contain.
 */
module Strs {
  import opened Wrappers

  /** Index of the first `c` in `s`, or -1. */
  function IndexOf(s: string, c: char): (i: int)
    ensures -1 <= i < |s|
    ensures i >= 0 ==> s[i] == c && c !in s[..i]
    ensures i < 0 ==> c !in s
  {
    if s == [] then -1
    else if s[0] == c then 0
    else
      var j := IndexOf(s[1..], c);
      assert s[1..][..if j < 0 then 0 else j] == s[1..if j < 0 then 1 else j + 1];
      if j < 0 then -1 else j + 1
  }

  /** `strings.Split(s, string(c))`: the pieces between separators; never empty. */
  function Split(s: string, c: char): (parts: seq<string>)
    ensures |parts| >= 1
    ensures Separated(parts, c)
    decreases |s|
  {
    var i := IndexOf(s, c);
    if i < 0 then [s]
    else
      var rest := Split(s[i + 1..], c);
      SeparatedCons(s[..i], rest, c);
      [s[..i]] + rest
  }

  /** No piece holds the separator. */
  predicate Separated(parts: seq<string>, c: char)
  {
    forall k :: 0 <= k < |parts| ==> c !in parts[k]
  }

  lemma SeparatedCons(p: string, rest: seq<string>, c: char)
    requires c !in p && Separated(rest, c)
    ensures Separated([p] + rest, c)
  {
    assert forall k :: 1 <= k < |rest| + 1 ==> ([p] + rest)[k] == rest[k - 1];
  }

  /** `strings.Join(parts, sep)`. */
  function Join(parts: seq<string>, sep: string): (s: string)
    ensures |parts| == 1 ==> s == parts[0]
  {
    if |parts| == 0 then ""
    else if |parts| == 1 then parts[0]
    else parts[0] + sep + Join(parts[1..], sep)
  }

  /** Concatenation of all parts, i.e. `Join(parts, "")`. */
  function Concat(parts: seq<string>): (s: string)
    ensures |parts| == 1 ==> s == parts[0]
  {
    if |parts| == 0 then "" else parts[0] + Concat(parts[1..])
  }

  lemma {:induction false} ConcatAppend(a: seq<string>, b: seq<string>)
    ensures Concat(a + b) == Concat(a) + Concat(b)
  {
    if a != [] {
      assert (a + b)[1..] == a[1..] + b;
      ConcatAppend(a[1..], b);
    } else {
      assert a + b == b;
    }
  }

  /** Joining the pieces of a split with the same separator gives the input back. */
  lemma {:induction false} JoinSplit(s: string, c: char)
    ensures Join(Split(s, c), [c]) == s
    decreases |s|
  {
    var i := IndexOf(s, c);
    if i < 0 {
      assert Split(s, c) == [s];
    } else {
      var rest := s[i + 1..];
      var tail := Split(rest, c);
      JoinSplit(rest, c);
      var parts := Split(s, c);
      assert parts == [s[..i]] + tail;
      assert parts[1..] == tail;
      calc {
        Join(parts, [c]);
        parts[0] + [c] + Join(tail, [c]);
        s[..i] + [c] + rest;
        { assert s == s[..i] + [c] + rest; }
        s;
      }
    }
  }

  /** Splitting a join of separator-free pieces gives the pieces back. */
  lemma {:induction false} SplitJoin(parts: seq<string>, c: char)
    requires |parts| >= 1
    requires forall k :: 0 <= k < |parts| ==> c !in parts[k]
    ensures Split(Join(parts, [c]), c) == parts
  {
    if |parts| > 1 {
      var tail := Join(parts[1..], [c]);
      var s := parts[0] + [c] + tail;
      assert Join(parts, [c]) == s;
      SplitJoin(parts[1..], c);
      IndexOfAfterFree(parts[0], c, tail);
      assert s[..|parts[0]|] == parts[0];
      assert s[|parts[0]| + 1..] == tail;
    } else {
      assert Join(parts, [c]) == parts[0];
    }
  }

  /** The first separator is the one after a separator-free prefix. */
  lemma IndexOfAt(s: string, c: char, i: nat)
    requires i < |s| && s[i] == c && c !in s[..i]
    ensures IndexOf(s, c) == i
  {
  }

  lemma IndexOfAfterFree(a: string, c: char, tail: string)
    requires c !in a
    ensures IndexOf(a + [c] + tail, c) == |a|
  {
    var s := a + [c] + tail;
    assert s[..|a|] == a;
    IndexOfAt(s, c, |a|);
  }

  /** Splitting around an explicit separator splits the two sides independently. */
  lemma {:induction false} SplitAround(a: string, b: string, c: char)
    ensures Split(a + [c] + b, c) == Split(a, c) + Split(b, c)
    decreases |a|
  {
    var s := a + [c] + b;
    var i := IndexOf(a, c);
    if i < 0 {
      IndexOfAfterFree(a, c, b);
      assert s[..|a|] == a;
      assert s[|a| + 1..] == b;
      assert Split(a, c) == [a];
      assert Split(s, c) == [a] + Split(b, c);
    } else {
      assert s[..i] == a[..i];
      IndexOfAt(s, c, i);
      assert s[i + 1..] == a[i + 1..] + [c] + b;
      var rest := Split(a[i + 1..], c);
      assert Split(a, c) == [a[..i]] + rest;
      assert Split(s, c) == [a[..i]] + Split(s[i + 1..], c);
      SplitAround(a[i + 1..], b, c);
      AppendAssoc([a[..i]], rest, Split(b, c));
    }
  }

  /** `strings.Replace(s, string(c), rep, -1)`. */
  function ReplaceChar(s: string, c: char, rep: string): (r: string)
    ensures c !in rep ==> c !in r
    ensures c !in s ==> r == s
  {
    if s == [] then ""
    else (if s[0] == c then rep else [s[0]]) + ReplaceChar(s[1..], c, rep)
  }

  /** Taking a whole sequence gives the sequence back. */
  lemma TakeAll<T>(s: seq<T>)
    ensures s[..|s|] == s
  {
  }

  /** Concatenation is associative (stated once, so that proofs need not rediscover it). */
  lemma AppendAssoc<T>(x: seq<T>, y: seq<T>, z: seq<T>)
    ensures x + (y + z) == x + y + z
  {
  }

  /** Replacement distributes over concatenation. */
  lemma {:induction false} ReplaceCharAppend(a: string, b: string, c: char, rep: string)
    ensures ReplaceChar(a + b, c, rep) == ReplaceChar(a, c, rep) + ReplaceChar(b, c, rep)
  {
    if a != [] {
      assert (a + b)[1..] == a[1..] + b;
      ReplaceCharAppend(a[1..], b, c, rep);
      var h := if a[0] == c then rep else [a[0]];
      AppendAssoc(h, ReplaceChar(a[1..], c, rep), ReplaceChar(b, c, rep));
    } else {
      assert a + b == b;
    }
  }

  // ----- decimal rendering (`%v` of an integer) -----

  predicate IsDigit(c: char) { '0' <= c <= '9' }

  function DigitChar(d: nat): (c: char)
    requires d < 10
    ensures IsDigit(c) && (c as int) - ('0' as int) == d
  {
    ((d + ('0' as int)) as char)
  }

  function DigitValue(c: char): (d: nat)
    requires IsDigit(c)
    ensures d < 10 && DigitChar(d) == c
  {
    (c as int) - ('0' as int)
  }

  /** Decimal digits of `n`, most significant first, without leading zeros. */
  function NatToString(n: nat): (s: string)
    ensures |s| >= 1
    ensures forall k :: 0 <= k < |s| ==> IsDigit(s[k])
    ensures |s| > 1 ==> s[0] != '0'
  {
    if n < 10 then [DigitChar(n)] else NatToString(n / 10) + [DigitChar(n % 10)]
  }

  /** Value of a string of decimal digits. */
  function ParseNat(s: string): (n: nat)
    requires forall k :: 0 <= k < |s| ==> IsDigit(s[k])
  {
    if s == [] then 0
    else ParseNat(s[..|s| - 1]) * 10 + DigitValue(s[|s| - 1])
  }

  /** Reading the decimal rendering back gives the number. */
  lemma {:induction false} ParseNatToString(n: nat)
    ensures ParseNat(NatToString(n)) == n
  {
    var s := NatToString(n);
    if n >= 10 {
      ParseNatToString(n / 10);
      assert s[..|s| - 1] == NatToString(n / 10);
    }
  }

  /** Distinct numbers have distinct renderings. */
  lemma NatToStringInjective(n: nat, m: nat)
    requires NatToString(n) == NatToString(m)
    ensures n == m
  {
    ParseNatToString(n);
    ParseNatToString(m);
  }

  /** `%v` of a Go integer. */
  function IntToString(i: int): (s: string)
    ensures i >= 0 ==> s == NatToString(i)
    ensures i < 0 ==> s == "-" + NatToString(-i)
  {
    if i < 0 then "-" + NatToString(-i) else NatToString(i)
  }

  // ----- strconv.Quote -----

  const HexDigits: string := "0123456789abcdef"

  /** 16 to the power `n`. */
  function Pow16(n: nat): (p: nat)
    ensures p >= 1
  {
    if n == 0 then 1 else 16 * Pow16(n - 1)
  }

  /** `v` as exactly `n` lower-case hexadecimal digits, most significant first. */
  function HexN(v: nat, n: nat): (h: string)
    requires v < Pow16(n)
    ensures |h| == n
    ensures forall i :: 0 <= i < n ==> HexValue(h[i]).Some?
  {
    if n == 0 then ""
    else HexN(v / 16, n - 1) + [HexDigits[v % 16]]
  }

  /** Reads a run of lower-case hexadecimal digits. */
  function ParseHex(s: string): Option<nat>
  {
    if s == [] then Some(0)
    else match (ParseHex(s[..|s| - 1]), HexValue(s[|s| - 1]))
      case (Some(p), Some(d)) => Some(p * 16 + d)
      case _ => None
  }

  lemma {:induction false} ParseHexN(v: nat, n: nat)
    requires v < Pow16(n)
    ensures ParseHex(HexN(v, n)) == Some(v)
  {
    if n > 0 {
      var h := HexN(v, n);
      assert h[..n - 1] == HexN(v / 16, n - 1);
      ParseHexN(v / 16, n - 1);
      HexDigitsValue(v % 16);
    }
  }

  /**
   * The code points above U+00FF that Go's `unicode.IsPrint` rejects and
   * that this model knows of: the space and line separators other than
   * U+0020, the format characters, the private-use areas, the
   * noncharacters, the unassigned planes 4 to 13 and the unassigned part
   * of plane 14.
   */
  predicate NonPrintAbove(r: int)
  {
    (0x0600 <= r <= 0x0605) || r == 0x061C || r == 0x06DD || r == 0x070F
    || r == 0x1680 || r == 0x180E || (0x2000 <= r <= 0x200F) || (0x2028 <= r <= 0x202F)
    || (0x205F <= r <= 0x2064) || (0x2066 <= r <= 0x206F) || r == 0x3000 || (0xE000 <= r <= 0xF8FF)
    || (0xFDD0 <= r <= 0xFDEF) || r == 0xFEFF || (0xFFF9 <= r <= 0xFFFB) || (0xFFFE <= r <= 0xFFFF)
    || r == 0x110BD || (0x1BCA0 <= r <= 0x1BCA3) || (0x1D173 <= r <= 0x1D17A)
    || (0x40000 <= r <= 0xE00FF) || (0xE01F0 <= r <= 0x10FFFF)
  }

  /** A noncharacter ending a supplementary plane (`U+nFFFE`, `U+nFFFF`). */
  predicate PlaneEnd(r: int)
  {
    r >= 0x10000 && r % 0x10000 >= 0xFFFE
  }

  /**
   * `unicode.IsPrint` as `strconv` computes it: exactly for Latin-1 (the
   * printable ASCII characters, and U+00A1 to U+00FF except the soft
   * hyphen), and through `NonPrintAbove` above it.
   */
  predicate IsPrint(c: char)
  {
    var r := c as int;
    if r <= 0xFF then (0x20 <= r <= 0x7E) || (0xA1 <= r <= 0xFF && r != 0xAD)
    else !NonPrintAbove(r) && !PlaneEnd(r)
  }

  /** The letter of the short escape for `c` (`\a \b \f \n \r \t \v \\ \"`), or NUL when there is none. */
  function ShortEscape(c: char): char
  {
    if c == '"' then '"'
    else if c == '\\' then '\\'
    else if c as int == 7 then 'a'
    else if c as int == 8 then 'b'
    else if c as int == 12 then 'f'
    else if c == '\n' then 'n'
    else if c == '\r' then 'r'
    else if c == '\t' then 't'
    else if c as int == 11 then 'v'
    else 0 as char
  }

  /**
   * The text `strconv.Quote` emits for one character: a short escape, the
   * character itself when it is printable, `\xHH` for the other ASCII
   * controls, and `\uHHHH` or `\UHHHHHHHH` for any other character.
   */
  function EscapeChar(c: char): (e: string)
    ensures 1 <= |e| <= 10
    ensures |e| == 1 <==> e == [c]
    ensures |e| == 1 <==> IsPrint(c) && c != '"' && c != '\\'
    ensures e[0] != '"'
  {
    if ShortEscape(c) != 0 as char then ['\\', ShortEscape(c)]
    else if IsPrint(c) then [c]
    else if (c as int) < 0x20 || c as int == 0x7f then "\\x" + HexN(c as int, 2)
    else if (c as int) < 0x10000 then "\\u" + HexN(c as int, 4)
    else "\\U" + HexN(c as int, 8)
  }

  function EscapeAll(s: string): string
  {
    if s == [] then "" else EscapeChar(s[0]) + EscapeAll(s[1..])
  }

  /** `strconv.Quote(s)`: a double-quoted Go string literal. */
  function Quote(s: string): (q: string)
    ensures |q| >= 2 && q[0] == '"' && q[|q| - 1] == '"'
  {
    "\"" + EscapeAll(s) + "\""
  }

  function HexValue(c: char): Option<nat>
  {
    if '0' <= c <= '9' then Some((c as int) - ('0' as int))
    else if 'a' <= c <= 'f' then Some((c as int) - ('a' as int) + 10)
    else None
  }

  function UnshortEscape(l: char): Option<char>
  {
    if l == '"' then Some('"')
    else if l == '\\' then Some('\\')
    else if l == 'a' then Some(7 as char)
    else if l == 'b' then Some(8 as char)
    else if l == 'f' then Some(12 as char)
    else if l == 'n' then Some('\n')
    else if l == 'r' then Some('\r')
    else if l == 't' then Some('\t')
    else if l == 'v' then Some(11 as char)
    else None
  }

  /** A code point that is a character: not a surrogate, and at most U+10FFFF. */
  predicate IsScalar(v: nat)
  {
    v < 0xD800 || 0xE000 <= v < 0x11_0000
  }

  /** The character of an `n`-digit hexadecimal escape at the start of `b`, if there is one. */
  function HexEscape(b: string, n: nat): Option<char>
  {
    if |b| >= n && ParseHex(b[..n]).Some? && IsScalar(ParseHex(b[..n]).value)
    then Some(ParseHex(b[..n]).value as char) else None
  }

  /** Decodes the body of a quoted literal (the escapes `EscapeChar` produces). */
  function Unescape(b: string): Option<string>
    decreases |b|
  {
    if b == [] then Some("")
    else if b[0] == '"' then None
    else if b[0] != '\\' then
      match Unescape(b[1..])
      case Some(r) => Some([b[0]] + r)
      case None => None
    else if |b| >= 2 && UnshortEscape(b[1]).Some? then
      match Unescape(b[2..])
      case Some(r) => Some([UnshortEscape(b[1]).value] + r)
      case None => None
    else if |b| >= 2 && (b[1] == 'x' || b[1] == 'u' || b[1] == 'U') then
      var n := if b[1] == 'x' then 2 else if b[1] == 'u' then 4 else 8;
      match HexEscape(b[2..], n)
      case Some(c) =>
        (match Unescape(b[2 + n..])
         case Some(r) => Some([c] + r)
         case None => None)
      case None => None
    else None
  }

  /** Reads a quoted literal back. */
  function Unquote(q: string): Option<string>
  {
    if |q| >= 2 && q[0] == '"' && q[|q| - 1] == '"' then Unescape(q[1..|q| - 1]) else None
  }

  lemma HexDigitsValue(d: nat)
    requires d < 16
    ensures HexValue(HexDigits[d]) == Some(d)
  {
  }

  /** An `n`-digit escape of `c` followed by `rest` reads back as `c`. */
  lemma HexEscapeOf(c: char, n: nat, rest: string)
    requires c as int < Pow16(n)
    ensures HexEscape(HexN(c as int, n) + rest, n) == Some(c)
  {
    var b := HexN(c as int, n) + rest;
    assert b[..n] == HexN(c as int, n);
    ParseHexN(c as int, n);
  }

  /** The escape of a character followed by more text reads back as the character followed by that text read back. */
  lemma UnescapeChar(c: char, rest: string)
    ensures Unescape(EscapeChar(c) + rest) ==
      match Unescape(rest)
      case Some(r) => Some([c] + r)
      case None => None
  {
    if ShortEscape(c) != 0 as char {
      UnescapeShort(c, rest);
    } else if IsPrint(c) {
      UnescapePrint(c, rest);
    } else {
      UnescapeHex(c, rest);
    }
  }

  lemma UnescapeShort(c: char, rest: string)
    requires ShortEscape(c) != 0 as char
    ensures Unescape(EscapeChar(c) + rest) ==
      match Unescape(rest)
      case Some(r) => Some([c] + r)
      case None => None
  {
    var s := EscapeChar(c) + rest;
    assert s[2..] == rest;
  }

  lemma UnescapePrint(c: char, rest: string)
    requires ShortEscape(c) == 0 as char && IsPrint(c)
    ensures Unescape(EscapeChar(c) + rest) ==
      match Unescape(rest)
      case Some(r) => Some([c] + r)
      case None => None
  {
    var s := EscapeChar(c) + rest;
    assert s[1..] == rest;
  }

  lemma UnescapeHex(c: char, rest: string)
    requires ShortEscape(c) == 0 as char && !IsPrint(c)
    ensures Unescape(EscapeChar(c) + rest) ==
      match Unescape(rest)
      case Some(r) => Some([c] + r)
      case None => None
  {
    var n: nat := if (c as int) < 0x20 || c as int == 0x7f then 2 else if (c as int) < 0x10000 then 4 else 8;
    var x := if n == 2 then 'x' else if n == 4 then 'u' else 'U';
    assert Pow16(2) == 0x100 && Pow16(4) == 0x1_0000 && Pow16(8) == 0x1_0000_0000;
    assert EscapeChar(c) == ['\\', x] + HexN(c as int, n);
    UnescapeHexDigits(c, x, n, rest);
  }

  /** `\\` and a letter, then the letter's number of hex digits of `c`, followed by more text, reads back as `c` followed by that text read back. */
  lemma UnescapeHexDigits(c: char, x: char, n: nat, rest: string)
    requires (x == 'x' && n == 2) || (x == 'u' && n == 4) || (x == 'U' && n == 8)
    requires c as int < Pow16(n)
    ensures Unescape(['\\', x] + HexN(c as int, n) + rest) ==
      match Unescape(rest)
      case Some(r) => Some([c] + r)
      case None => None
  {
    var s := ['\\', x] + HexN(c as int, n) + rest;
    assert s[2..] == HexN(c as int, n) + rest;
    HexEscapeOf(c, n, rest);
    assert s[2 + n..] == rest;
    UnescapeHexStep(s, c, x, n);
  }

  /** One step of `Unescape` over a hex escape that reads as `c`. */
  lemma UnescapeHexStep(b: string, c: char, x: char, n: nat)
    requires (x == 'x' && n == 2) || (x == 'u' && n == 4) || (x == 'U' && n == 8)
    requires |b| >= 2 + n && b[0] == '\\' && b[1] == x && HexEscape(b[2..], n) == Some(c)
    ensures Unescape(b) ==
      match Unescape(b[2 + n..])
      case Some(r) => Some([c] + r)
      case None => None
  {
    assert UnshortEscape(x).None?;
  }

  lemma {:induction false} UnescapeAll(s: string)
    ensures Unescape(EscapeAll(s)) == Some(s)
  {
    if s != [] {
      UnescapeAll(s[1..]);
      UnescapeChar(s[0], EscapeAll(s[1..]));
      assert [s[0]] + s[1..] == s;
    }
  }

  /** Text of printable characters other than `"` and `\\` is quoted as it is, between double quotes. */
  lemma {:induction false} QuotePrintable(s: string)
    requires forall i :: 0 <= i < |s| ==> IsPrint(s[i]) && s[i] != '"' && s[i] != '\\'
    ensures Quote(s) == "\"" + s + "\""
    ensures EscapeAll(s) == s
  {
    if s != [] {
      QuotePrintable(s[1..]);
      assert [s[0]] + s[1..] == s;
    }
  }

  /** `strconv.Quote` is invertible: the original text can be read back from the literal. */
  lemma UnquoteQuote(s: string)
    ensures Unquote(Quote(s)) == Some(s)
  {
    var q := Quote(s);
    assert q[1..|q| - 1] == EscapeAll(s);
    UnescapeAll(s);
  }

  /** Hence quoting is injective. */
  lemma QuoteInjective(s: string, t: string)
    requires Quote(s) == Quote(t)
    ensures s == t
  {
    UnquoteQuote(s);
    UnquoteQuote(t);
  }
}
