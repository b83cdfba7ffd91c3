/** String operations of the PHP runtime that the plugin relies on: the `(int)`
    cast of a string, the decimal rendering of an integer, and the
    `str_replace('&#038;', '&', $url)` that un-escapes a settings URL. */
module PhpStrings {

  predicate IsDigit(c: char) { '0' <= c <= '9' }

  /** The characters PHP skips before a number in a numeric string. */
  predicate IsSpace(c: char) { c == ' ' || c == '\t' || c == '\n' || c == '\r' || c == '\U{000B}' || c == '\U{000C}' }

  predicate AllDigits(s: string) { forall i :: 0 <= i < |s| ==> IsDigit(s[i]) }

  function DigitChar(d: nat): (c: char)
    requires d < 10
    ensures IsDigit(c) && c as int - '0' as int == d
  {
    ('0' as int + d) as char
  }

  /** The value of a string of decimal digits, read from the left. */
  function DigitsValue(s: string): nat
    requires AllDigits(s)
  {
    if s == [] then 0
    else 10 * DigitsValue(s[..|s| - 1]) + (s[|s| - 1] as int - '0' as int)
  }

  /** The longest prefix of `s` made of digits. */
  function LeadingDigits(s: string): (r: string)
    ensures AllDigits(r) && r <= s
    ensures |r| < |s| ==> !IsDigit(s[|r|])
  {
    if s != [] && IsDigit(s[0]) then [s[0]] + LeadingDigits(s[1..]) else []
  }

  function SkipSpaces(s: string): (r: string)
    ensures |r| <= |s| && r == s[|s| - |r|..]
    ensures r != [] ==> !IsSpace(r[0])
  {
    if s != [] && IsSpace(s[0]) then SkipSpaces(s[1..]) else s
  }

  /** `(int) $s`: leading white space, an optional sign, then the longest run
      of digits; a string with no digits there casts to 0. */
  function IntCast(s: string): int
  {
    var t := SkipSpaces(s);
    if t != [] && t[0] == '-' then -(DigitsValue(LeadingDigits(t[1..])) as int)
    else if t != [] && t[0] == '+' then DigitsValue(LeadingDigits(t[1..]))
    else DigitsValue(LeadingDigits(t))
  }

  /** The decimal digits of a natural number, most significant first. */
  function NatString(n: nat): (r: string)
    ensures r != [] && AllDigits(r)
  {
    if n < 10 then [DigitChar(n)] else NatString(n / 10) + [DigitChar(n % 10)]
  }

  /** PHP's conversion of an int to a string (`'x' . $n`, `"columns-$n"`). */
  function DecimalString(n: int): (r: string)
    ensures r != []
    ensures n < 0 <==> r[0] == '-'
    ensures n >= 0 ==> AllDigits(r)
  {
    if n < 0 then "-" + NatString(-n) else NatString(n)
  }

  lemma {:induction false} NatStringValue(n: nat)
    ensures DigitsValue(NatString(n)) == n
  {
    if n >= 10 {
      var s := NatString(n);
      assert s[..|s| - 1] == NatString(n / 10);
      NatStringValue(n / 10);
    }
  }

  lemma {:induction false} LeadingDigitsOfDigits(s: string)
    requires AllDigits(s)
    ensures LeadingDigits(s) == s
  {
    if s != [] {
      LeadingDigitsOfDigits(s[1..]);
    }
  }

  /** Casting the decimal rendering of any integer gives that integer back. */
  lemma IntCastDecimalString(n: int)
    ensures IntCast(DecimalString(n)) == n
  {
    var s := DecimalString(n);
    assert SkipSpaces(s) == s;
    if n < 0 {
      assert s[1..] == NatString(-n);
      LeadingDigitsOfDigits(NatString(-n));
      NatStringValue(-n);
    } else {
      LeadingDigitsOfDigits(s);
      NatStringValue(n);
    }
  }

  /** A string that starts with no digit, sign or white space casts to 0. */
  lemma IntCastNonNumeric(s: string)
    requires s != [] && !IsDigit(s[0]) && !IsSpace(s[0]) && s[0] != '-' && s[0] != '+'
    ensures IntCast(s) == 0
  {
  }

  // ---------------------------------------------------------------------------
  // The `&#038;` entity that WordPress's URL escaping writes for `&`.

  const AmpEntity: string := "&#038;"

  /** `str_replace('&#038;', '&', $s)`: a left-to-right scan that replaces each
      non-overlapping occurrence of the entity. */
  function UnescapeAmp(s: string): (r: string)
    ensures |r| <= |s|
    decreases |s|
  {
    if |s| >= 6 && s[..6] == AmpEntity then "&" + UnescapeAmp(s[6..])
    else if s == [] then []
    else [s[0]] + UnescapeAmp(s[1..])
  }

  /** The escaping that `menu_page_url` applies to each `&` of a URL. */
  function EscapeAmp(s: string): (r: string)
    ensures |r| >= |s|
  {
    if s == [] then []
    else if s[0] == '&' then AmpEntity + EscapeAmp(s[1..])
    else [s[0]] + EscapeAmp(s[1..])
  }

  /** Un-escaping undoes the escaping of every URL. */
  lemma {:induction false} UnescapeEscapeAmp(s: string)
    ensures UnescapeAmp(EscapeAmp(s)) == s
  {
    if s != [] {
      var e := EscapeAmp(s);
      UnescapeEscapeAmp(s[1..]);
      if s[0] == '&' {
        assert e[..6] == AmpEntity && e[6..] == EscapeAmp(s[1..]);
        assert "&" + s[1..] == s;
      } else {
        assert e[0] == s[0] && e[1..] == EscapeAmp(s[1..]);
        assert e[0] != AmpEntity[0];
        assert |e| >= 6 ==> e[..6][0] == e[0];
        assert [s[0]] + s[1..] == s;
      }
    }
  }

  /** A URL without an `&` is left as it is. */
  lemma {:induction false} UnescapeNoAmp(s: string)
    requires forall i :: 0 <= i < |s| ==> s[i] != '&'
    ensures UnescapeAmp(s) == s
  {
    if s != [] {
      assert s[0] != AmpEntity[0];
      assert |s| >= 6 ==> s[..6][0] == s[0];
      UnescapeNoAmp(s[1..]);
      assert [s[0]] + s[1..] == s;
    }
  }

  /** `str_replace` makes one pass only: every doubly escaped string comes
      out escaped once, not fully un-escaped; `&#038;#038;` is an instance. */
  lemma UnescapeIsSinglePass(s: string)
    ensures UnescapeAmp(EscapeAmp(EscapeAmp(s))) == EscapeAmp(s)
    ensures UnescapeAmp("&#038;#038;") == "&#038;"
  {
    UnescapeEscapeAmp(EscapeAmp(s));
    assert "&#038;#038;"[..6] == AmpEntity;
    assert "&#038;#038;"[6..] == "#038;";
    var t := "#038;";
    assert !(|t| >= 6);
    calc {
      UnescapeAmp("#038;");
      "#" + UnescapeAmp("038;");
      { assert !(|"038;"| >= 6); }
      "#0" + UnescapeAmp("38;");
      "#03" + UnescapeAmp("8;");
      "#038" + UnescapeAmp(";");
      "#038;";
    }
  }
}
