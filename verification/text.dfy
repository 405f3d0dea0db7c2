/** String helpers the backend relies on: `String.isBlank` and the decimal
    rendering of a `Long` id inside error messages. */
module Text {

  /** `Character.isWhitespace`: the ASCII controls it accepts plus the Unicode
      space, line and paragraph separators except the three no-break spaces. */
  predicate IsWhitespace(c: char) {
    || c == ' ' || c == '\t' || c == '\n' || c == '\U{B}' || c == '\U{C}' || c == '\r'
    || ('\U{1C}' <= c <= '\U{1F}')
    || c == '\U{1680}'
    || ('\U{2000}' <= c <= '\U{200A}' && c != '\U{2007}')
    || c == '\U{2028}' || c == '\U{2029}' || c == '\U{205F}' || c == '\U{3000}'
  }

  /** `String.isBlank`: empty, or whitespace only. */
  function IsBlank(s: string): (b: bool)
    ensures |s| == 0 ==> b
    ensures b ==> forall i :: 0 <= i < |s| ==> !('a' <= s[i] <= 'z' || 'A' <= s[i] <= 'Z' || '0' <= s[i] <= '9')
  {
    forall i :: 0 <= i < |s| ==> IsWhitespace(s[i])
  }

  /** A concatenation is blank exactly when both parts are. */
  lemma BlankConcat(a: string, b: string)
    ensures IsBlank(a + b) <==> IsBlank(a) && IsBlank(b)
  {
    if IsBlank(a + b) {
      forall i | 0 <= i < |a| ensures IsWhitespace(a[i]) {
        assert a[i] == (a + b)[i];
      }
      forall i | 0 <= i < |b| ensures IsWhitespace(b[i]) {
        assert b[i] == (a + b)[|a| + i];
      }
    }
    if IsBlank(a) && IsBlank(b) {
      forall i | 0 <= i < |a + b| ensures IsWhitespace((a + b)[i]) {
        if i < |a| {
          assert (a + b)[i] == a[i];
        } else {
          assert (a + b)[i] == b[i - |a|];
        }
      }
    }
  }

  /** Spaces, tabs and line breaks are blank; a letter is not, and neither is
      a no-break space, which `Character.isWhitespace` rejects. */
  lemma BlankExamples()
    ensures IsBlank("") && IsBlank(" \t\n")
    ensures !IsBlank(" a ") && !IsBlank("\U{A0}")
  {
    assert !IsWhitespace(" a "[1]);
    assert !IsWhitespace("\U{A0}"[0]);
  }

  /** A name the services accept: present and not blank. */
  predicate IsPresentName(s: string) {
    !IsBlank(s)
  }

  function DigitChar(d: nat): (c: char)
    requires d < 10
    ensures '0' <= c <= '9'
  {
    "0123456789"[d]
  }

  function DigitValue(c: char): nat
    requires '0' <= c <= '9'
  {
    (c as int - '0' as int) as nat
  }

  /** Decimal rendering of a natural number, most significant digit first. */
  function NatToString(n: nat): (s: string)
    ensures |s| > 0
    ensures forall i :: 0 <= i < |s| ==> '0' <= s[i] <= '9'
    decreases n
  {
    if n < 10 then [DigitChar(n)] else NatToString(n / 10) + [DigitChar(n % 10)]
  }

  /** `Long.toString`: a leading minus sign for negative values. */
  function IntToString(n: int): (s: string)
    ensures |s| > 0
  {
    if n < 0 then "-" + NatToString(-n) else NatToString(n)
  }

  /** Reads back a string of decimal digits. */
  function ParseNat(s: string): nat
    requires forall i :: 0 <= i < |s| ==> '0' <= s[i] <= '9'
  {
    if |s| == 0 then 0 else 10 * ParseNat(s[..|s| - 1]) + DigitValue(s[|s| - 1])
  }

  lemma {:induction false} NatToStringRoundTrip(n: nat)
    ensures ParseNat(NatToString(n)) == n
    decreases n
  {
    if n >= 10 {
      var s := NatToString(n);
      assert s[..|s| - 1] == NatToString(n / 10);
      NatToStringRoundTrip(n / 10);
    }
  }

  lemma NegativeRendering(n: int)
    requires n < 0
    ensures IntToString(n)[0] == '-'
    ensures IntToString(n)[1..] == NatToString(-n)
  {
  }

  lemma NonNegativeRendering(n: int)
    requires n >= 0
    ensures '0' <= IntToString(n)[0] <= '9'
    ensures IntToString(n) == NatToString(n)
  {
    var s := NatToString(n);
    assert '0' <= s[0] <= '9';
  }

  lemma NatToStringInjective(a: nat, b: nat)
    ensures NatToString(a) == NatToString(b) ==> a == b
  {
    NatToStringRoundTrip(a);
    NatToStringRoundTrip(b);
  }

  /** Two different ids never render to the same text, so the id inside a
      not-found message identifies the missing entity. */
  lemma {:induction false} IntToStringInjective(a: int, b: int)
    ensures IntToString(a) == IntToString(b) ==> a == b
  {
    var sa, sb := IntToString(a), IntToString(b);
    if sa == sb {
      if a < 0 {
        NegativeRendering(a);
        if b >= 0 {
          NonNegativeRendering(b);
        } else {
          NegativeRendering(b);
          assert sa[1..] == sb[1..];
          NatToStringInjective(-a, -b);
        }
      } else {
        NonNegativeRendering(a);
        if b < 0 {
          NegativeRendering(b);
        } else {
          NonNegativeRendering(b);
          NatToStringInjective(a, b);
        }
      }
    }
  }
}
