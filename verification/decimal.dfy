/**
 * Decimal digits: the value of a digit run (what `strconv.Atoi` computes in
 * the lexer) and the canonical rendering of a natural number (what
 * `strconv.Itoa` and `fmt.Sprintf("%d")` produce, used for Number token
 * text and for block labels).
 */
module Decimal {

  predicate IsDigit(c: char) {
    '0' <= c <= '9'
  }

  predicate AllDigits(s: string) {
    forall k :: 0 <= k < |s| ==> IsDigit(s[k])
  }

  function DigitValue(c: char): (d: nat)
    requires IsDigit(c)
    ensures d < 10
  {
    c as int - '0' as int
  }

  function DigitChar(d: nat): (c: char)
    requires d < 10
    ensures IsDigit(c) && DigitValue(c) == d
  {
    ('0' as int + d) as char
  }

  /** The value of a string of decimal digits, read most significant first. */
  function DecimalValue(s: string): (v: nat)
    requires AllDigits(s)
    ensures |s| >= 1 && s[0] == '0' ==> v == DecimalValue(s[1..])
  {
    if |s| == 0 then 0
    else
      var init := s[..|s| - 1];
      assert |s| >= 2 ==> init[1..] == s[1..][..|s| - 2];
      DecimalValue(init) * 10 + DigitValue(s[|s| - 1])
  }

  /** A digit run with no leading zero (the single digit "0" excepted). */
  predicate Canonical(s: string) {
    |s| >= 1 && AllDigits(s) && (s[0] == '0' ==> |s| == 1)
  }

  /** The decimal rendering of `n`, without sign and without leading zeros. */
  function NatToString(n: nat): (s: string)
    ensures Canonical(s)
    ensures |s| == 1 <==> n < 10
  {
    if n < 10 then [DigitChar(n)]
    else
      var init := NatToString(n / 10);
      init + [DigitChar(n % 10)]
  }

  /** Reading the rendering of `n` back gives `n`. */
  lemma {:induction false} ValueOfRendering(n: nat)
    ensures DecimalValue(NatToString(n)) == n
  {
    if n >= 10 {
      var s := NatToString(n);
      assert s[..|s| - 1] == NatToString(n / 10);
      ValueOfRendering(n / 10);
    }
  }

  /** Distinct numbers have distinct renderings. */
  lemma RenderingInjective(n: nat, m: nat)
    ensures NatToString(n) == NatToString(m) ==> n == m
  {
    ValueOfRendering(n);
    ValueOfRendering(m);
  }

  /** A digit run that does not start with '0' has a positive value. */
  lemma {:induction false} NonzeroLeadPositive(s: string)
    requires |s| >= 1 && AllDigits(s) && s[0] != '0'
    ensures DecimalValue(s) >= 1
  {
    if |s| > 1 {
      NonzeroLeadPositive(s[..|s| - 1]);
    }
  }

  /**
   * Rendering the value of a canonical digit run gives the run back; so a
   * Number token's text equals the source digits exactly when they have no
   * leading zero.
   */
  lemma {:induction false} RenderingOfValue(s: string)
    requires Canonical(s)
    ensures NatToString(DecimalValue(s)) == s
  {
    if |s| > 1 {
      var init := s[..|s| - 1];
      assert init[0] == s[0];
      NonzeroLeadPositive(init);
      RenderingOfValue(init);
      var v := DecimalValue(s);
      assert v / 10 == DecimalValue(init) && v % 10 == DigitValue(s[|s| - 1]);
      assert s == init + [s[|s| - 1]];
    }
  }

  /** Leading zeros are dropped: "007" renders back as "7". */
  lemma LeadingZerosDropped()
    ensures NatToString(DecimalValue("007")) == "7"
  {
    assert DecimalValue("0") == 0;
    assert "00"[..1] == "0";
    assert DecimalValue("00") == 0;
    assert "007"[..2] == "00";
    assert DecimalValue("007") == 7;
  }
}
