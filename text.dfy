/** String helpers the GPIO code relies on: PHP's default `trim` (used on every
    channel read) and the decimal rendering of a pin number (used in the
    export/unexport payload and in the pin's sysfs directory name). */
module Text {

  /** The characters PHP's `trim` removes by default: space, tab, newline,
      carriage return, NUL and vertical tab. */
  predicate IsBlank(c: char) {
    c == ' ' || c == '\t' || c == '\n' || c == '\r' || c == '\0' || c == '\U{000B}'
  }

  /** Drops leading blanks: the result is the longest suffix of `s` that
      does not start with a blank, and everything dropped is blank. */
  function TrimStart(s: string): (r: string)
    ensures |r| <= |s| && r == s[|s| - |r|..]
    ensures forall j :: 0 <= j < |s| - |r| ==> IsBlank(s[j])
    ensures r != [] ==> !IsBlank(r[0])
  {
    if s != [] && IsBlank(s[0]) then
      var r := TrimStart(s[1..]);
      assert s[1..][|s| - 1 - |r|..] == s[|s| - |r|..];
      r
    else s
  }

  /** Drops trailing blanks: the result is the longest prefix of `s` that
      does not end with a blank, and everything dropped is blank. */
  function TrimEnd(s: string): (r: string)
    ensures |r| <= |s| && r == s[..|r|]
    ensures forall j :: |r| <= j < |s| ==> IsBlank(s[j])
    ensures r != [] ==> !IsBlank(r[|r| - 1])
  {
    if s != [] && IsBlank(s[|s| - 1]) then
      var r := TrimEnd(s[..|s| - 1]);
      assert s[..|s| - 1][..|r|] == s[..|r|];
      r
    else s
  }

  /** PHP `trim($s)` with the default character list. */
  function Trim(s: string): (r: string)
    ensures r != [] ==> !IsBlank(r[0]) && !IsBlank(r[|r| - 1])
    ensures |r| <= |s|
  {
    TrimStart(TrimEnd(s))
  }

  /** A string whose ends are not blank is its own trim. */
  lemma {:induction false} TrimKeeps(s: string)
    requires s != [] ==> !IsBlank(s[0]) && !IsBlank(s[|s| - 1])
    ensures Trim(s) == s
  {
  }

  /** Trimming twice is trimming once. */
  lemma {:induction false} TrimIdempotent(s: string)
    ensures Trim(Trim(s)) == Trim(s)
  {
    TrimKeeps(Trim(s));
  }

  /** Trimming ignores a trailing line terminator. */
  lemma TrimDropsNewline(s: string)
    ensures Trim(s + "\n") == Trim(s)
  {
    assert (s + "\n")[..|s|] == s;
  }

  /** A line whose text has non-blank ends reads back as that text. */
  lemma TrimLine(s: string)
    requires s != [] ==> !IsBlank(s[0]) && !IsBlank(s[|s| - 1])
    ensures Trim(s + "\n") == s
  {
    TrimDropsNewline(s);
    TrimKeeps(s);
  }

  /** The decimal digit for `d`. */
  function Digit(d: nat): (c: char)
    requires d < 10
    ensures '0' <= c <= '9'
  {
    "0123456789"[d]
  }

  /** The value of a decimal digit character. */
  function DigitValue(c: char): (d: nat)
    requires '0' <= c <= '9'
    ensures d < 10 && Digit(d) == c
  {
    (c as int - '0' as int) as nat
  }

  /** PHP's rendering of a non-negative integer, as in `$this->number . "\n"`:
      decimal digits, most significant first, no leading zero. */
  function Decimal(n: nat): (r: string)
    ensures r != []
    ensures forall j :: 0 <= j < |r| ==> '0' <= r[j] <= '9'
    ensures |r| > 1 ==> r[0] != '0'
  {
    if n < 10 then [Digit(n)] else Decimal(n / 10) + [Digit(n % 10)]
  }

  /** Reads a string of decimal digits back as a number. */
  function ParseDecimal(s: string): nat
    requires forall j :: 0 <= j < |s| ==> '0' <= s[j] <= '9'
  {
    if s == [] then 0 else 10 * ParseDecimal(s[..|s| - 1]) + DigitValue(s[|s| - 1])
  }

  /** The decimal rendering names the number it was made from. */
  lemma {:induction false} ParseDecimalOfDecimal(n: nat)
    ensures ParseDecimal(Decimal(n)) == n
  {
    var r := Decimal(n);
    if n >= 10 {
      assert r[..|r| - 1] == Decimal(n / 10);
      assert DigitValue(r[|r| - 1]) == n % 10;
      ParseDecimalOfDecimal(n / 10);
      assert n == 10 * (n / 10) + n % 10;
    } else {
      assert DigitValue(r[0]) == n;
    }
  }

  /** Different pin numbers have different renderings, so an export payload
      names exactly one pin. */
  lemma DecimalInjective(m: nat, n: nat)
    requires Decimal(m) == Decimal(n)
    ensures m == n
  {
    ParseDecimalOfDecimal(m);
    ParseDecimalOfDecimal(n);
  }

  /** A decimal rendering has no blanks, so trimming a line holding it
      gives the rendering back. */
  lemma DecimalLineTrims(n: nat)
    ensures Trim(Decimal(n) + "\n") == Decimal(n)
  {
    var d := Decimal(n);
    assert '0' <= d[0] <= '9' && '0' <= d[|d| - 1] <= '9';
    TrimLine(d);
  }
}
