/**
 * The two text conversions of Go's standard library that end up in labels
 * and messages: decimal rendering of integers (`strconv.Itoa`,
 * `strconv.FormatInt(_, 10)`) and double-quoting of strings (`%q`, i.e.
 * `strconv.Quote`). Each comes with the parser that inverts it.
 */
module Strconv {
  import opened Wrappers

  predicate IsDigit(c: char)
  {
    '0' <= c <= '9'
  }

  function DigitChar(d: nat): (c: char)
    requires d < 10
    ensures IsDigit(c) && c as int - '0' as int == d
  {
    ('0' as int + d) as char
  }

  /** The decimal digits of `n`, most significant first, without leading zeros. */
  function Digits(n: nat): (s: string)
    ensures |s| >= 1 && (forall c :: c in s ==> IsDigit(c))
    ensures |s| > 1 ==> s[0] != '0'
    decreases n
  {
    if n < 10 then [DigitChar(n)] else Digits(n / 10) + [DigitChar(n % 10)]
  }

  /** Decimal rendering: a minus sign exactly for negative numbers, then the digits of |n|. */
  function Itoa(n: int): (s: string)
    ensures |s| >= 1
    ensures s[0] == '-' <==> n < 0
    ensures n < 0 ==> |s| >= 2 && s[1..] == Digits(-n)
    ensures n >= 0 ==> s == Digits(n)
  {
    var digits := Digits(if n < 0 then -n else n);
    assert digits[0] in digits;
    if n < 0 then "-" + digits else digits
  }

  /** The value of a string of decimal digits. */
  function DigitsValue(s: string): nat
    requires forall c :: c in s ==> IsDigit(c)
  {
    if s == [] then 0
    else
      assert s[|s| - 1] in s;
      assert IsDigit(s[|s| - 1]);
      assert '0' as int <= s[|s| - 1] as int;
      DigitsValue(s[..|s| - 1]) * 10 + (s[|s| - 1] as int - '0' as int)
  }

  /** Parses an optional minus sign followed by at least one digit. */
  function Atoi(s: string): Option<int>
  {
    if |s| >= 2 && s[0] == '-' && (forall c :: c in s[1..] ==> IsDigit(c)) then
      var magnitude: int := DigitsValue(s[1..]);
      Some(-magnitude)
    else if |s| >= 1 && (forall c :: c in s ==> IsDigit(c)) then Some(DigitsValue(s))
    else None
  }

  lemma {:induction false} DigitsValueOfDigits(n: nat)
    ensures DigitsValue(Digits(n)) == n
    decreases n
  {
    if n >= 10 {
      var s := Digits(n);
      assert s[..|s| - 1] == Digits(n / 10);
      DigitsValueOfDigits(n / 10);
    }
  }

  /** Rendering then parsing gives the number back. */
  lemma ItoaRoundTrip(n: int)
    ensures Atoi(Itoa(n)) == Some(n)
  {
    var s := Itoa(n);
    if n < 0 {
      DigitsValueOfDigits(-n);
      assert s[1..] == Digits(-n);
    } else {
      DigitsValueOfDigits(n);
      assert s[0] != '-';
    }
  }

  // ---- %q ----

  const HEX_DIGITS: string := "0123456789abcdef"

  /** A character the quoted form must not carry as is: ASCII control characters and DEL. */
  predicate IsControl(c: char)
  {
    c < ' ' || c == '\U{7F}'
  }

  /** How one character appears between the quotes. */
  function Escape(c: char): (r: string)
    ensures |r| >= 1
  {
    if c == '"' || c == '\\' then ['\\', c]
    else if c == '\U{7}' then "\\a"
    else if c == '\U{8}' then "\\b"
    else if c == '\U{C}' then "\\f"
    else if c == '\n' then "\\n"
    else if c == '\r' then "\\r"
    else if c == '\t' then "\\t"
    else if c == '\U{B}' then "\\v"
    else if IsControl(c) then ['\\', 'x', HEX_DIGITS[c as int / 16], HEX_DIGITS[c as int % 16]]
    else [c]
  }

  function EscapeAll(s: string): string
  {
    if s == [] then [] else Escape(s[0]) + EscapeAll(s[1..])
  }

  /** Double-quoted, with quotes, backslashes and control characters escaped. */
  function Quote(s: string): (q: string)
    ensures |q| >= 2 && q[0] == '"' && q[|q| - 1] == '"'
  {
    "\"" + EscapeAll(s) + "\""
  }

  function HexValue(c: char): (v: int)
    ensures -1 <= v < 16
  {
    if '0' <= c <= '9' then c as int - '0' as int
    else if 'a' <= c <= 'f' then c as int - 'a' as int + 10
    else -1
  }

  function Prepend(c: char, rest: Option<string>): Option<string>
  {
    match rest
    case None => None
    case Some(s) => Some([c] + s)
  }

  /** Decodes the text between the quotes; None when it is not a valid escaped text. */
  function Unescape(t: string): Option<string>
    decreases |t|
  {
    if t == [] then Some([])
    else if t[0] == '"' then None
    else if t[0] != '\\' then Prepend(t[0], Unescape(t[1..]))
    else if |t| < 2 then None
    else if t[1] == '\\' || t[1] == '"' then Prepend(t[1], Unescape(t[2..]))
    else if t[1] == 'a' then Prepend('\U{7}', Unescape(t[2..]))
    else if t[1] == 'b' then Prepend('\U{8}', Unescape(t[2..]))
    else if t[1] == 'f' then Prepend('\U{C}', Unescape(t[2..]))
    else if t[1] == 'n' then Prepend('\n', Unescape(t[2..]))
    else if t[1] == 'r' then Prepend('\r', Unescape(t[2..]))
    else if t[1] == 't' then Prepend('\t', Unescape(t[2..]))
    else if t[1] == 'v' then Prepend('\U{B}', Unescape(t[2..]))
    else if t[1] == 'x' && |t| >= 4 && HexValue(t[2]) >= 0 && HexValue(t[3]) >= 0 then
      Prepend((HexValue(t[2]) * 16 + HexValue(t[3])) as char, Unescape(t[4..]))
    else None
  }

  function Unquote(q: string): Option<string>
  {
    if |q| >= 2 && q[0] == '"' && q[|q| - 1] == '"' then Unescape(q[1..|q| - 1]) else None
  }

  lemma UnescapeEscape(c: char, t: string)
    ensures Unescape(Escape(c) + t) == Prepend(c, Unescape(t))
  {
    var e := Escape(c);
    if IsControl(c) && !(c in "\U{7}\U{8}\U{C}\n\r\t\U{B}") {
      var hi, lo := c as int / 16, c as int % 16;
      assert e == ['\\', 'x', HEX_DIGITS[hi], HEX_DIGITS[lo]];
      assert HexValue(HEX_DIGITS[hi]) == hi;
      assert HexValue(HEX_DIGITS[lo]) == lo;
      assert (e + t)[4..] == t;
    } else if |e| == 2 {
      assert (e + t)[2..] == t;
    } else {
      assert (e + t)[1..] == t;
    }
  }

  lemma {:induction false} UnescapeEscapeAll(s: string)
    ensures Unescape(EscapeAll(s)) == Some(s)
  {
    if s != [] {
      UnescapeEscape(s[0], EscapeAll(s[1..]));
      UnescapeEscapeAll(s[1..]);
      assert [s[0]] + s[1..] == s;
    }
  }

  /** Quoting then unquoting gives the string back. */
  lemma QuoteRoundTrip(s: string)
    ensures Unquote(Quote(s)) == Some(s)
  {
    var q := Quote(s);
    assert q[1..|q| - 1] == EscapeAll(s);
    UnescapeEscapeAll(s);
  }
}
