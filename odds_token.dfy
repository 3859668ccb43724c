/**
 * Odds tokens as the scraper reads them from a provider row (main3.py:310-316,
 * repeated at 388-394) and as check_arbitrage turns them into numbers
 * (main3.py:433-434).
 *
 * The scraper keeps a row only when `tok.replace('.', '', 1).isdigit()` holds
 * for both tokens; check_arbitrage replaces every ',' by '.' and calls `float`.
 * Numbers are exact reals here, not IEEE doubles.
 */
module OddsToken {
  import opened Wrappers

  /** The text the scraper uses when a provider's odds cell has no link. */
  const Missing: string := "-"

  predicate IsDigit(c: char) {
    '0' <= c <= '9'
  }

  predicate AllDigits(s: string) {
    forall i :: 0 <= i < |s| ==> IsDigit(s[i])
  }

  /** Python's `str.isdigit()`: true only of a non-empty string of digits. */
  predicate IsDigitString(s: string) {
    |s| > 0 && AllDigits(s)
  }

  /** Position of the first `c` in `s`, or `|s|` when there is none. */
  function IndexOf(s: string, c: char): (k: nat)
    ensures k <= |s|
    ensures k < |s| ==> s[k] == c
    ensures forall i :: 0 <= i < k ==> s[i] != c
  {
    if |s| == 0 then 0
    else if s[0] == c then 0
    else 1 + IndexOf(s[1..], c)
  }

  /** Python's `s.replace(c, '', 1)`: deletes the first occurrence of `c`, if any. */
  function RemoveFirst(s: string, c: char): string {
    if |s| == 0 then s
    else if s[0] == c then s[1..]
    else [s[0]] + RemoveFirst(s[1..], c)
  }

  /** RemoveFirst leaves a string without `c` alone. */
  lemma {:induction false} RemoveFirstAbsent(s: string, c: char)
    requires c !in s
    ensures RemoveFirst(s, c) == s
  {
    if |s| > 0 {
      assert c !in s[1..];
      RemoveFirstAbsent(s[1..], c);
    }
  }

  /** RemoveFirst splices the first `c` out of a string that has one. */
  lemma {:induction false} RemoveFirstSplices(s: string, c: char)
    requires c in s
    ensures RemoveFirst(s, c) == s[..IndexOf(s, c)] + s[IndexOf(s, c) + 1..]
  {
    if s[0] != c {
      var t := s[1..];
      assert c in t;
      RemoveFirstSplices(t, c);
      var k := IndexOf(t, c);
      assert IndexOf(s, c) == 1 + k;
      calc {
        RemoveFirst(s, c);
        [s[0]] + RemoveFirst(t, c);
        [s[0]] + (t[..k] + t[k + 1..]);
        ([s[0]] + t[..k]) + t[k + 1..];
        { assert s[..1 + k] == [s[0]] + t[..k]; assert s[1 + k + 1..] == t[k + 1..]; }
        s[..1 + k] + s[1 + k + 1..];
      }
    }
  }

  /** The text of an odds cell: its link text, or "-" when the cell has no link. */
  function CellText(link: Option<string>): (tok: string)
    ensures link.None? ==> !PassesOddsFilter(tok)
    ensures link.Some? ==> tok == link.value
  {
    match link
    case None =>
      assert RemoveFirst(Missing, '.') == Missing;
      Missing
    case Some(text) => text
  }

  /** The scraper's validity test for one odds token. */
  predicate PassesOddsFilter(tok: string) {
    IsDigitString(RemoveFirst(tok, '.'))
  }

  /**
   * An independent description of the tokens the filter admits: a non-empty
   * run of digits, or a single '.' with runs of digits on either side that
   * are not both empty.
   */
  predicate IsDecimalToken(tok: string) {
    (|tok| > 0 && AllDigits(tok))
    || (|tok| >= 2 && exists k :: 0 <= k < |tok| && tok[k] == '.' && AllDigits(tok[..k]) && AllDigits(tok[k + 1..]))
  }

  /** The digits before the first '.' (all of `tok` when it has none). */
  function Whole(tok: string): string {
    tok[..IndexOf(tok, '.')]
  }

  /** The text after the first '.' (empty when `tok` has none). */
  function Fraction(tok: string): string {
    var k := IndexOf(tok, '.');
    if k < |tok| then tok[k + 1..] else ""
  }

  lemma AllDigitsConcat(a: string, b: string)
    ensures AllDigits(a + b) <==> AllDigits(a) && AllDigits(b)
  {
    if AllDigits(a + b) {
      forall i | 0 <= i < |a| ensures IsDigit(a[i]) {
        assert (a + b)[i] == a[i];
      }
      forall i | 0 <= i < |b| ensures IsDigit(b[i]) {
        assert (a + b)[|a| + i] == b[i];
      }
    }
  }

  /** The filter splits a token at its first '.' and asks for digits on both sides. */
  lemma FilterBySplit(tok: string)
    ensures RemoveFirst(tok, '.') == Whole(tok) + Fraction(tok)
    ensures PassesOddsFilter(tok) <==>
      |Whole(tok)| + |Fraction(tok)| > 0 && AllDigits(Whole(tok)) && AllDigits(Fraction(tok))
  {
    var k := IndexOf(tok, '.');
    if k < |tok| {
      assert tok[k] in tok;
      RemoveFirstSplices(tok, '.');
    } else {
      RemoveFirstAbsent(tok, '.');
    }
    AllDigitsConcat(Whole(tok), Fraction(tok));
  }

  /** Only the first '.' of a token can have nothing but digits before it. */
  lemma OnlyFirstDotSplits(tok: string, k': nat)
    requires k' < |tok| && tok[k'] == '.' && AllDigits(tok[..k'])
    ensures k' == IndexOf(tok, '.')
  {
  }

  lemma {:induction false} FilterAcceptsExactlyDecimals(tok: string)
    ensures PassesOddsFilter(tok) <==> IsDecimalToken(tok)
  {
    FilterBySplit(tok);
    var k := IndexOf(tok, '.');
    if k == |tok| {
      assert Whole(tok) == tok;
    } else {
      assert !IsDigit(tok[k]);
      forall k' | 0 <= k' < |tok| && tok[k'] == '.' && AllDigits(tok[..k']) ensures k' == k {
        OnlyFirstDotSplits(tok, k');
      }
    }
  }

  /** Tokens the filter turns away: the "-" placeholder, no digits, two dots, a comma. */
  lemma FilterRejectsExamples()
    ensures !PassesOddsFilter(Missing) && !PassesOddsFilter("") && !PassesOddsFilter(".")
    ensures !PassesOddsFilter("1.2.3") && !PassesOddsFilter("1,85")
  {
    assert RemoveFirst("-", '.') == "-";
    assert RemoveFirst(".", '.') == "";
    assert RemoveFirst("1.2.3", '.') == "12.3";
    assert !IsDigit("12.3"[2]);
    assert RemoveFirst("1,85", '.') == "1,85";
    assert !IsDigit("1,85"[1]);
  }

  /** Tokens the filter keeps, including a bare trailing or leading dot and odds of zero or one. */
  lemma FilterAcceptsExamples()
    ensures PassesOddsFilter("1.") && PassesOddsFilter(".5") && PassesOddsFilter("1.85")
    ensures PassesOddsFilter("0") && PassesOddsFilter("1.0")
  {
    assert RemoveFirst("1.", '.') == "1";
    assert RemoveFirst(".5", '.') == "5";
    assert RemoveFirst("1.85", '.') == "185";
    assert RemoveFirst("0", '.') == "0";
    assert RemoveFirst("1.0", '.') == "10";
  }

  /** `s.replace(',', '.')`: every comma becomes a dot. */
  function Normalize(tok: string): (r: string)
    ensures |r| == |tok|
    ensures forall i :: 0 <= i < |tok| ==> r[i] == (if tok[i] == ',' then '.' else tok[i])
  {
    if |tok| == 0 then tok
    else [if tok[0] == ',' then '.' else tok[0]] + Normalize(tok[1..])
  }

  lemma NormalizeIdempotent(tok: string)
    ensures ',' !in Normalize(tok)
    ensures Normalize(Normalize(tok)) == Normalize(tok)
  {
    var n := Normalize(tok);
    assert forall i :: 0 <= i < |n| ==> n[i] != ',';
  }

  /** Tokens that differ only in using ',' or '.' as the separator. */
  predicate SameUpToSeparator(a: string, b: string) {
    |a| == |b| && forall i :: 0 <= i < |a| ==> a[i] == b[i] || (a[i] in ",." && b[i] in ",.")
  }

  lemma SeparatorsNormalizeAlike(a: string, b: string)
    requires SameUpToSeparator(a, b)
    ensures Normalize(a) == Normalize(b)
  {
    var na, nb := Normalize(a), Normalize(b);
    forall i | 0 <= i < |a| ensures na[i] == nb[i] {
      assert a[i] in ",." ==> na[i] == '.';
    }
  }

  lemma FilteredTokensAreNormal(tok: string)
    requires PassesOddsFilter(tok)
    ensures Normalize(tok) == tok
  {
    FilterAcceptsExactlyDecimals(tok);
    forall i | 0 <= i < |tok| ensures tok[i] != ',' {
      if |tok| > 0 && AllDigits(tok) {
        assert IsDigit(tok[i]);
      } else {
        var k :| 0 <= k < |tok| && tok[k] == '.' && AllDigits(tok[..k]) && AllDigits(tok[k + 1..]);
        if i < k {
          assert IsDigit(tok[..k][i]);
        } else if i > k {
          assert IsDigit(tok[k + 1..][i - k - 1]);
        }
      }
    }
  }

  function DigitValue(c: char): (d: nat)
    requires IsDigit(c)
    ensures d < 10
  {
    (c as int - '0' as int) as nat
  }

  /** The number a run of decimal digits denotes; the empty run denotes 0. */
  function DigitsValue(s: string): (n: nat)
    requires AllDigits(s)
  {
    if |s| == 0 then 0
    else DigitsValue(s[..|s| - 1]) * 10 + DigitValue(s[|s| - 1])
  }

  function Pow10(n: nat): (p: nat)
    ensures p >= 1
  {
    if n == 0 then 1 else 10 * Pow10(n - 1)
  }

  /** A run of digits denotes zero exactly when each of its digits is '0'. */
  lemma {:induction false} DigitsValueZero(s: string)
    requires AllDigits(s)
    ensures DigitsValue(s) == 0 <==> forall i :: 0 <= i < |s| ==> s[i] == '0'
  {
    if |s| > 0 {
      var init := s[..|s| - 1];
      DigitsValueZero(init);
      assert forall i :: 0 <= i < |init| ==> init[i] == s[i];
    }
  }

  /**
   * Python's `float(tok)` on decimal tokens (digits and at most one '.', with
   * at least one digit): whole part plus fraction over a power of ten. Every
   * other token reads as None, so the entry holding it is skipped; Python
   * would also read signed, exponent, padded, underscored and inf/nan tokens.
   */
  function ParseFloat(tok: string): (r: Option<real>)
    ensures r.Some? ==> r.value >= 0.0
  {
    var whole, frac := Whole(tok), Fraction(tok);
    if |whole| + |frac| > 0 && AllDigits(whole) && AllDigits(frac) then
      Some(DigitsValue(whole) as real + DigitsValue(frac) as real / Pow10(|frac|) as real)
    else
      None
  }

  /** A run of digits followed by another denotes the first scaled up, plus the second. */
  lemma {:induction false} DigitsValueConcat(a: string, b: string)
    requires AllDigits(a) && AllDigits(b)
    ensures AllDigits(a + b)
    ensures DigitsValue(a + b) == DigitsValue(a) * Pow10(|b|) + DigitsValue(b)
  {
    AllDigitsConcat(a, b);
    if |b| == 0 {
      assert a + b == a;
    } else {
      var init := b[..|b| - 1];
      assert AllDigits(init);
      DigitsValueConcat(a, init);
      assert (a + b)[..|a + b| - 1] == a + init;
      assert (a + b)[|a + b| - 1] == b[|b| - 1];
      var da, di, d := DigitsValue(a), DigitsValue(init), DigitValue(b[|b| - 1]);
      assert DigitsValue(a + b) == DigitsValue(a + init) * 10 + d;
      assert DigitsValue(b) == di * 10 + d;
      assert Pow10(|b|) == 10 * Pow10(|init|);
      ShiftDigit(da, di, d, Pow10(|init|));
    }
  }

  /** Appending a digit to both the scaled run and its tail. */
  lemma ShiftDigit(da: nat, di: nat, d: nat, q: nat)
    ensures (da * q + di) * 10 + d == da * (10 * q) + (di * 10 + d)
  {
  }

  /**
   * The value `float` gives a token the filter keeps is the integer its
   * digits spell once the '.' is deleted, over ten to the number of digits
   * after the '.'.
   */
  lemma ParseFloatValue(tok: string)
    requires PassesOddsFilter(tok)
    ensures ParseFloat(tok) == Some(DigitsValue(RemoveFirst(tok, '.')) as real / Pow10(|Fraction(tok)|) as real)
  {
    FilterBySplit(tok);
    var whole, frac := Whole(tok), Fraction(tok);
    DigitsValueConcat(whole, frac);
    ScaledValue(DigitsValue(whole), DigitsValue(frac), Pow10(|frac|));
  }

  /** A whole part plus a fraction over p is the integer w * p + f over p. */
  lemma ScaledValue(w: nat, f: nat, p: nat)
    requires p >= 1
    ensures w as real + f as real / p as real == (w * p + f) as real / p as real
  {
    CastScaled(w, p, f);
    ScaleBack(w as real, f as real, p as real);
  }

  /** Reading `w * p + f` as a real commutes with the arithmetic. */
  lemma {:induction false} CastScaled(w: nat, p: nat, f: nat)
    ensures (w * p + f) as real == w as real * p as real + f as real
  {
    if p > 0 {
      CastScaled(w, p - 1, f);
      assert w * p + f == (w * (p - 1) + f) + w;
    }
  }

  lemma ScaleBack(w: real, f: real, p: real)
    requires p > 0.0
    ensures w + f / p == (w * p + f) / p
  {
  }

  /** `float` reads exactly the tokens the scraper's filter keeps. */
  lemma ParseFloatReadsFilteredTokens(tok: string)
    ensures ParseFloat(tok).Some? <==> PassesOddsFilter(tok)
  {
    FilterBySplit(tok);
  }

  /** How check_arbitrage reads one odds string: commas become dots, then `float`. */
  function ParseOdds(tok: string): (r: Option<real>)
    ensures r.Some? ==> r.value >= 0.0
  {
    ParseFloat(Normalize(tok))
  }

  /**
   * check_arbitrage reads exactly the tokens that pass the scraper's filter
   * once commas are dots; in particular it reads every token the scraper keeps.
   */
  lemma ParseOddsAcceptance(tok: string)
    ensures ParseOdds(tok).Some? <==> PassesOddsFilter(Normalize(tok))
    ensures PassesOddsFilter(tok) ==> ParseOdds(tok).Some?
  {
    ParseFloatReadsFilteredTokens(Normalize(tok));
    if PassesOddsFilter(tok) {
      FilteredTokensAreNormal(tok);
    }
  }

  lemma SeparatorsParseAlike(a: string, b: string)
    requires SameUpToSeparator(a, b)
    ensures ParseOdds(a) == ParseOdds(b)
  {
    SeparatorsNormalizeAlike(a, b);
  }

  /** "1,85" and "1.85" give the same odds, 1.85. */
  lemma CommaAndDotExample()
    ensures ParseOdds("1,85") == ParseOdds("1.85") == Some(1.85)
  {
    assert Normalize("1,85") == "1.85" by {
      assert Normalize("1,85")[1] == '.';
    }
    assert Normalize("1.85") == "1.85";
    assert Whole("1.85") == "1" && Fraction("1.85") == "85" by {
      assert IndexOf("1.85", '.') == 1;
    }
    assert DigitsValue("85") == 85 by {
      assert "85"[..1] == "8";
    }
    assert DigitsValue("1") == 1 && Pow10(2) == 100;
  }

  lemma SumOfScaledZero(a: nat, b: nat, p: nat)
    requires p >= 1
    ensures a as real + b as real / p as real == 0.0 <==> a == 0 && b == 0
  {
    assert b as real / p as real >= 0.0;
    if b > 0 {
      assert b as real / p as real > 0.0;
    }
  }

  /** When the text after the first '.' is digits: every character is '0' or '.' exactly when both sides are all '0'. */
  lemma ZerosBySplit(tok: string)
    requires AllDigits(Fraction(tok))
    ensures (forall i :: 0 <= i < |tok| ==> tok[i] in "0.") <==>
      (forall i :: 0 <= i < |Whole(tok)| ==> Whole(tok)[i] == '0') && (forall i :: 0 <= i < |Fraction(tok)| ==> Fraction(tok)[i] == '0')
  {
    var k := IndexOf(tok, '.');
    var whole, frac := Whole(tok), Fraction(tok);
    if forall i :: 0 <= i < |tok| ==> tok[i] in "0." {
      forall i | 0 <= i < |whole| ensures whole[i] == '0' {
        assert tok[i] in "0.";
      }
      forall i | 0 <= i < |frac| ensures frac[i] == '0' {
        assert tok[k + 1 + i] in "0." && IsDigit(frac[i]);
      }
    }
    if (forall i :: 0 <= i < |whole| ==> whole[i] == '0') && (forall i :: 0 <= i < |frac| ==> frac[i] == '0') {
      forall i | 0 <= i < |tok| ensures tok[i] in "0." {
        if i < k {
          assert whole[i] == '0';
        } else if i > k {
          assert frac[i - k - 1] == '0';
        }
      }
    }
  }

  /**
   * A token `float` reads (after the comma replacement) gives zero exactly
   * when every character in it is '0' or '.' ("0", "0.0", ".00", ...): the tokens that
   * later make `1 / odds` raise ZeroDivisionError.
   */
  lemma {:induction false} ZeroOddsTokens(tok: string)
    requires ParseFloat(tok).Some?
    ensures ParseFloat(tok).value == 0.0 <==> forall i :: 0 <= i < |tok| ==> tok[i] in "0."
  {
    var whole, frac := Whole(tok), Fraction(tok);
    FilterBySplit(tok);
    DigitsValueZero(whole);
    DigitsValueZero(frac);
    SumOfScaledZero(DigitsValue(whole), DigitsValue(frac), Pow10(|frac|));
    ZerosBySplit(tok);
  }
}
