/** String operations the source borrows from Python and its standard
    library: leftmost literal search, `'%x'`/`'%02X'` formatting, `upper()`,
    `rstrip()`, `str()` of an integer and `urllib.quote`/`urllib.unquote`. */
module Text {

  import opened Results

  // ---------------------------------------------------------------------
  // Leftmost search for a literal key
  // ---------------------------------------------------------------------

  /** `key` occurs in `text` at position `p`; when `anchored`, `p` must also
      begin a line (the start of the text or just after a newline), which is
      what `^` means under `re.MULTILINE`. */
  predicate MatchesAt(key: string, text: string, p: nat, anchored: bool)
    requires p <= |text|
  {
    key <= text[p..] && (!anchored || p == 0 || text[p - 1] == '\n')
  }

  /** The leftmost position at or after `from` where `key` matches. */
  function FirstMatchFrom(key: string, text: string, from: nat, anchored: bool): (r: Option<nat>)
    requires from <= |text|
    ensures r.Some? ==> from <= r.value <= |text| && MatchesAt(key, text, r.value, anchored)
    ensures r.Some? ==> forall p :: from <= p < r.value ==> !MatchesAt(key, text, p, anchored)
    ensures r.None? ==> forall p :: from <= p <= |text| ==> !MatchesAt(key, text, p, anchored)
    decreases |text| - from
  {
    if MatchesAt(key, text, from, anchored) then Some(from)
    else if from == |text| then None
    else FirstMatchFrom(key, text, from + 1, anchored)
  }

  function FirstMatch(key: string, text: string, anchored: bool): Option<nat> {
    FirstMatchFrom(key, text, 0, anchored)
  }

  /** Python's `needle in hay` for two strings. */
  predicate Occurs(needle: string, hay: string) {
    FirstMatch(needle, hay, false).Some?
  }

  // ---------------------------------------------------------------------
  // Hexadecimal and decimal formatting
  // ---------------------------------------------------------------------

  function Pow16(k: nat): (r: nat)
    ensures r >= 1
  {
    if k == 0 then 1 else 16 * Pow16(k - 1)
  }

  predicate IsLowerHexDigit(c: char) {
    '0' <= c <= '9' || 'a' <= c <= 'f'
  }

  predicate IsUpperHexDigit(c: char) {
    '0' <= c <= '9' || 'A' <= c <= 'F'
  }

  predicate IsHexDigit(c: char) {
    IsLowerHexDigit(c) || IsUpperHexDigit(c)
  }

  function HexDigit(d: nat): (c: char)
    requires d < 16
    ensures IsLowerHexDigit(c)
  {
    if d < 10 then ('0' as int + d) as char else ('a' as int + d - 10) as char
  }

  /** The value of one hexadecimal digit of either case (0 for any other character). */
  function DigitValue(c: char): (v: nat)
    ensures v < 16
  {
    if '0' <= c <= '9' then c as int - '0' as int
    else if 'a' <= c <= 'f' then c as int - 'a' as int + 10
    else if 'A' <= c <= 'F' then c as int - 'A' as int + 10
    else 0
  }

  /** `'%x' % n`: lowercase hexadecimal, no leading zeros, "0" for zero. */
  function Hex(n: nat): (r: string)
    ensures |r| >= 1
    ensures forall i :: 0 <= i < |r| ==> IsLowerHexDigit(r[i])
  {
    if n < 16 then [HexDigit(n)] else Hex(n / 16) + [HexDigit(n % 16)]
  }

  /** Left-pads `s` with '0' to at least `width` characters. */
  function ZeroPad(s: string, width: nat): (r: string)
    ensures |r| == if |s| < width then width else |s|
    ensures r[|r| - |s|..] == s
    ensures forall i :: 0 <= i < |r| - |s| ==> r[i] == '0'
  {
    if |s| < width then Zeros(width - |s|) + s else s
  }

  function Zeros(k: nat): (r: string)
    ensures |r| == k && forall i :: 0 <= i < k ==> r[i] == '0'
  {
    if k == 0 then [] else "0" + Zeros(k - 1)
  }

  /** `'%0<width>x' % n`. */
  function HexPad(n: nat, width: nat): string {
    ZeroPad(Hex(n), width)
  }

  /** The number a string of hexadecimal digits denotes, most significant first. */
  function HexValue(s: string): nat {
    if s == [] then 0 else 16 * HexValue(s[..|s| - 1]) + DigitValue(s[|s| - 1])
  }

  lemma {:induction false} HexValueOfHex(n: nat)
    ensures HexValue(Hex(n)) == n
  {
    if n >= 16 {
      var h := Hex(n);
      assert h[..|h| - 1] == Hex(n / 16);
      HexValueOfHex(n / 16);
    }
  }

  lemma {:induction false} HexValueOfZeros(k: nat, s: string)
    ensures HexValue(Zeros(k) + s) == HexValue(s)
    decreases |s| + k
  {
    if s == [] {
      assert Zeros(k) + s == Zeros(k);
      if k > 0 {
        assert Zeros(k)[..k - 1] == Zeros(k - 1);
        HexValueOfZeros(k - 1, []);
        assert Zeros(k - 1) + [] == Zeros(k - 1);
      }
    } else {
      var t := Zeros(k) + s;
      assert t[..|t| - 1] == Zeros(k) + s[..|s| - 1];
      HexValueOfZeros(k, s[..|s| - 1]);
    }
  }

  /** Reading back `'%0<width>x' % n` gives `n`. */
  lemma HexPadValue(n: nat, width: nat)
    ensures HexValue(HexPad(n, width)) == n
  {
    var h := Hex(n);
    if |h| < width {
      HexValueOfZeros(width - |h|, h);
    }
    HexValueOfHex(n);
  }

  /** A number below 16^w needs at most `w` hexadecimal digits. */
  lemma {:induction false} HexLength(n: nat, w: nat)
    requires w >= 1 && n < Pow16(w)
    ensures |Hex(n)| <= w
  {
    if n >= 16 {
      assert w >= 2;
      HexLength(n / 16, w - 1);
    }
  }

  /** `'%02x' % n` for a byte: exactly its two nibbles. */
  lemma HexPadByte(n: nat)
    requires n < 256
    ensures HexPad(n, 2) == [HexDigit(n / 16), HexDigit(n % 16)]
  {
    if n >= 16 {
      assert Hex(n / 16) == [HexDigit(n / 16)];
    }
  }

  /** `str(i)` for an integer. */
  function Decimal(i: int): (r: string)
    ensures |r| >= 1
  {
    if i < 0 then "-" + NatDecimal(-i) else NatDecimal(i)
  }

  function NatDecimal(n: nat): (r: string)
    ensures |r| >= 1 && forall k :: 0 <= k < |r| ==> '0' <= r[k] <= '9'
  {
    var d := ('0' as int + n % 10) as char;
    if n < 10 then [d] else NatDecimal(n / 10) + [d]
  }

  // ---------------------------------------------------------------------
  // Case and whitespace
  // ---------------------------------------------------------------------

  function UpperChar(c: char): char {
    if 'a' <= c <= 'z' then (c as int - 32) as char else c
  }

  /** `s.upper()` on a byte string: ASCII letters only. */
  function Upper(s: string): (r: string)
    ensures |r| == |s| && forall i :: 0 <= i < |s| ==> r[i] == UpperChar(s[i])
  {
    if s == [] then [] else [UpperChar(s[0])] + Upper(s[1..])
  }

  lemma UpperConcat(a: string, b: string)
    ensures Upper(a + b) == Upper(a) + Upper(b)
  {
    var u, v := Upper(a + b), Upper(a) + Upper(b);
    forall i | 0 <= i < |u|
      ensures u[i] == v[i]
    {
      if i < |a| {
        assert (a + b)[i] == a[i];
      } else {
        assert (a + b)[i] == b[i - |a|];
      }
    }
  }

  /** Upper-casing does not change the value of hexadecimal text. */
  lemma {:induction false} HexValueUpper(s: string)
    ensures HexValue(Upper(s)) == HexValue(s)
  {
    if s != [] {
      var u := Upper(s);
      assert u[..|u| - 1] == Upper(s[..|s| - 1]);
      HexValueUpper(s[..|s| - 1]);
    }
  }

  /** The characters Python's `unicode.isspace()` accepts (Unicode 5.2, as in Python 2.7). */
  predicate IsSpace(c: char) {
    var n := c as int;
    (9 <= n <= 13) || (28 <= n <= 32) || n == 133 || n == 160 || n == 5760 || n == 6158
    || (8192 <= n <= 8202) || n == 8232 || n == 8233 || n == 8239 || n == 8287 || n == 12288
  }

  /** `s.rstrip()`: `s` without its trailing whitespace. */
  function RStrip(s: string): (r: string)
    ensures r <= s
    ensures r == [] || !IsSpace(r[|r| - 1])
    ensures forall i :: |r| <= i < |s| ==> IsSpace(s[i])
  {
    if s != [] && IsSpace(s[|s| - 1]) then RStrip(s[..|s| - 1]) else s
  }

  // ---------------------------------------------------------------------
  // URL quoting (urllib.quote with its default safe set '/')
  // ---------------------------------------------------------------------

  predicate SafeChar(c: char) {
    'A' <= c <= 'Z' || 'a' <= c <= 'z' || '0' <= c <= '9' || c == '_' || c == '.' || c == '-' || c == '/'
  }

  /** Every character of `'%0<width>x' % n` is a hexadecimal digit. */
  lemma HexPadDigits(n: nat, width: nat)
    ensures forall i :: 0 <= i < |HexPad(n, width)| ==> IsLowerHexDigit(HexPad(n, width)[i])
  {
    var h, r := Hex(n), HexPad(n, width);
    forall i | 0 <= i < |r| ensures IsLowerHexDigit(r[i]) {
      if i >= |r| - |h| {
        assert r[i] == r[|r| - |h|..][i - (|r| - |h|)] == h[i - (|r| - |h|)];
      }
    }
  }

  /** One character as `urllib.quote` writes it: kept when safe, otherwise
      `'%%%02X' % ord(c)`; either way only safe characters and '%'. */
  function QuoteChar(c: char): (r: string)
    ensures forall i :: 0 <= i < |r| ==> SafeChar(r[i]) || r[i] == '%'
  {
    if SafeChar(c) then [c]
    else
      HexPadDigits(c as nat, 2);
      "%" + Upper(HexPad(c as nat, 2))
  }

  /** `urllib.quote(s)`: only safe characters and '%' escapes remain. */
  function Quote(s: string): (r: string)
    ensures forall i :: 0 <= i < |r| ==> SafeChar(r[i]) || r[i] == '%'
  {
    if s == [] then [] else QuoteChar(s[0]) + Quote(s[1..])
  }

  /** `urllib.unquote(s)`: every `%` followed by two hexadecimal digits becomes
      that byte; any other `%` stays as it is. */
  function Unquote(s: string): string {
    if |s| >= 3 && s[0] == '%' && IsHexDigit(s[1]) && IsHexDigit(s[2])
    then [(16 * DigitValue(s[1]) + DigitValue(s[2])) as char] + Unquote(s[3..])
    else if s == [] then []
    else [s[0]] + Unquote(s[1..])
  }

  predicate IsBytes(s: string) {
    forall i :: 0 <= i < |s| ==> s[i] as int < 256
  }

  /** One upper-cased hexadecimal digit still reads as its value. */
  lemma UpperDigit(d: nat)
    requires d < 16
    ensures IsUpperHexDigit(UpperChar(HexDigit(d)))
    ensures DigitValue(UpperChar(HexDigit(d))) == d
  {
    if d >= 10 {
      assert HexDigit(d) == ('a' as int + d - 10) as char;
      assert UpperChar(HexDigit(d)) == ('A' as int + d - 10) as char;
    }
  }

  /** The two upper-case digits `'%02X'` writes for a byte. */
  lemma QuotedByte(n: nat)
    requires n < 256
    ensures Upper(HexPad(n, 2)) == [UpperChar(HexDigit(n / 16)), UpperChar(HexDigit(n % 16))]
    ensures 16 * DigitValue(UpperChar(HexDigit(n / 16))) + DigitValue(UpperChar(HexDigit(n % 16))) == n
    ensures IsHexDigit(UpperChar(HexDigit(n / 16))) && IsHexDigit(UpperChar(HexDigit(n % 16)))
  {
    HexPadByte(n);
    UpperDigit(n / 16);
    UpperDigit(n % 16);
  }

  /** Unquoting reads one quoted byte back and goes on with what follows it. */
  lemma UnquoteQuoteChar(c: char, rest: string)
    requires c as int < 256
    ensures Unquote(QuoteChar(c) + rest) == [c] + Unquote(rest)
  {
    var t := QuoteChar(c) + rest;
    if SafeChar(c) {
      assert t[0] == c && t[1..] == rest;
    } else {
      var n := c as nat;
      QuotedByte(n);
      assert t[0] == '%' && IsHexDigit(t[1]) && IsHexDigit(t[2]);
      assert t[3..] == rest;
      assert (16 * DigitValue(t[1]) + DigitValue(t[2])) as char == c;
    }
  }

  /** Quoting loses nothing: unquoting a quoted byte string gives it back. */
  lemma {:induction false} UnquoteQuote(s: string)
    requires IsBytes(s)
    ensures Unquote(Quote(s)) == s
  {
    if s != [] {
      UnquoteQuote(s[1..]);
      UnquoteQuoteChar(s[0], Quote(s[1..]));
      assert s == [s[0]] + s[1..];
    }
  }
}
