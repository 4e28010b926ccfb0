/** `Number(text.trim())` as the arithmetic game applies it to the answer box: JavaScript's
    string-to-number conversion on its decimal forms, with NaN as None. */
module NumberText {
  import opened Wrappers
  import IsoTime
  import Streaks

  /** The characters `String.prototype.trim` removes: white space and line terminators. */
  predicate IsSpace(c: char) {
    c == ' ' || c == '\t' || c == '\n' || c == '\r' || c == '\U{000B}' || c == '\U{000C}'
    || c == '\U{00A0}' || c == '\U{1680}' || '\U{2000}' <= c <= '\U{200A}' || c == '\U{2028}' || c == '\U{2029}'
    || c == '\U{202F}' || c == '\U{205F}' || c == '\U{3000}' || c == '\U{FEFF}'
  }

  /** Empty text, or text of white space only. */
  predicate Blank(s: string) {
    forall i :: 0 <= i < |s| ==> IsSpace(s[i])
  }

  /** The text without its leading white space. */
  function TrimStart(s: string): (r: string)
    ensures |r| <= |s|
    ensures forall i :: 0 <= i < |s| - |r| ==> IsSpace(s[i])
    ensures r == [] || !IsSpace(r[0])
  {
    if s != [] && IsSpace(s[0]) then TrimStart(s[1..]) else s
  }

  /** The text without its trailing white space. */
  function TrimEnd(s: string): (r: string)
    ensures |r| <= |s|
    ensures forall i :: |r| <= i < |s| ==> IsSpace(s[i])
    ensures r == [] || !IsSpace(r[|r| - 1])
  {
    if s != [] && IsSpace(s[|s| - 1]) then TrimEnd(s[..|s| - 1]) else s
  }

  /** What `TrimStart` keeps is the end of the text. Stated apart from its contract, so
      that only the proofs that need the slice see it. */
  lemma {:induction false} TrimStartSuffix(s: string)
    ensures TrimStart(s) == s[|s| - |TrimStart(s)|..]
  {
    if s != [] && IsSpace(s[0]) {
      TrimStartSuffix(s[1..]);
      assert s[1..][|s| - 1 - |TrimStart(s)|..] == s[|s| - |TrimStart(s)|..];
    }
  }

  /** What `TrimEnd` keeps is the start of the text. */
  lemma {:induction false} TrimEndPrefix(s: string)
    ensures TrimEnd(s) == s[..|TrimEnd(s)|]
  {
    if s != [] && IsSpace(s[|s| - 1]) {
      TrimEndPrefix(s[..|s| - 1]);
      assert s[..|s| - 1][..|TrimEnd(s)|] == s[..|TrimEnd(s)|];
    }
  }

  function Trim(s: string): string {
    TrimEnd(TrimStart(s))
  }

  predicate AllDigits(t: string) {
    forall i :: 0 <= i < |t| ==> IsoTime.IsDigit(t[i])
  }

  /** The value of the digits after a decimal point: each digit is worth a tenth of the
      one before it. */
  function FractionValue(f: string): (r: real)
    requires AllDigits(f)
    ensures 0.0 <= r < 1.0
  {
    if f == [] then 0.0
    else
      assert IsoTime.IsDigit(f[0]);
      (IsoTime.DigitAt(f, 0) as real + FractionValue(f[1..])) / 10.0
  }

  /** The position of the first '.', or the length when there is none. */
  function DotIndex(t: string): (k: nat)
    ensures k <= |t| && (k < |t| ==> t[k] == '.')
    ensures forall i :: 0 <= i < k ==> t[i] != '.'
  {
    if t == [] || t[0] == '.' then 0 else 1 + DotIndex(t[1..])
  }

  lemma {:induction false} DigitsValueNonNegative(t: string)
    requires AllDigits(t)
    ensures Streaks.DigitsValue(t) >= 0
  {
    if t != [] {
      DigitsValueNonNegative(t[..|t| - 1]);
      assert IsoTime.IsDigit(t[|t| - 1]);
    }
  }

  /** An unsigned decimal literal: digits, a point, digits, with digits on at least one
      side of the point, or digits alone. None stands for NaN. */
  function UnsignedValue(t: string): (r: Option<real>)
    ensures r.Some? ==> r.value >= 0.0
    ensures t != [] && AllDigits(t) ==> r == Some(Streaks.DigitsValue(t) as real)
  {
    var k := DotIndex(t);
    var whole := t[..k];
    var fraction := if k < |t| then t[k + 1..] else [];
    if AllDigits(t) && t != [] then
      DigitsValueNonNegative(t);
      Some(Streaks.DigitsValue(t) as real)
    else if AllDigits(whole) && AllDigits(fraction) && (whole != [] || fraction != []) then
      DigitsValueNonNegative(whole);
      Some(Streaks.DigitsValue(whole) as real + FractionValue(fraction))
    else None
  }

  /** `Number(input.trim())` on the decimal forms: blank text is 0, an optional sign may
      precede an unsigned literal, and anything else is NaN (None). */
  function NumberOfText(input: string): (r: Option<real>)
    ensures Blank(input) ==> r == Some(0.0)
  {
    var t := Trim(input);
    assert Blank(input) ==> TrimStart(input) == [] by {
      TrimStartSuffix(input);
    }
    if t == [] then Some(0.0)
    else if t[0] == '-' then
      match UnsignedValue(t[1..])
      case None => None
      case Some(v) => Some(-v)
    else if t[0] == '+' then UnsignedValue(t[1..])
    else UnsignedValue(t)
  }

  /** Text without surrounding white space is left alone by trimming. */
  lemma TrimUnpadded(t: string)
    requires t != [] && !IsSpace(t[0]) && !IsSpace(t[|t| - 1])
    ensures Trim(t) == t
  {
  }

  /** The numeral a template literal writes for an integer reads back as that integer. */
  lemma NumeralReadsBack(n: int)
    ensures NumberOfText(Streaks.IntText(n)) == Some(n as real)
  {
    var t := Streaks.IntText(n);
    if n < 0 {
      var digits := Streaks.NatText(-n);
      assert t == "-" + digits && t[1..] == digits;
      assert t[|t| - 1] == digits[|digits| - 1];
      assert IsoTime.IsDigit(digits[|digits| - 1]);
      TrimUnpadded(t);
    } else {
      assert IsoTime.IsDigit(t[0]) && IsoTime.IsDigit(t[|t| - 1]);
      TrimUnpadded(t);
    }
  }

  /** Surrounding white space is ignored. */
  lemma PaddedNumberExample()
    ensures NumberOfText(" 12 ") == Some(12.0)
  {
    assert TrimStart(" 12 ") == "12 " by {
      assert (" 12 ")[1..] == "12 ";
    }
    assert TrimEnd("12 ") == "12" by {
      assert ("12 ")[..2] == "12";
    }
    assert ("12")[..1] == "1" && ("1")[..0] == "";
    assert Streaks.DigitsValue("12") == 12;
  }

  /** In a literal with a point, the first point is the one after the whole part. */
  lemma PointAfterWhole(whole: string, fraction: string)
    requires AllDigits(whole)
    ensures DotIndex(whole + "." + fraction) == |whole|
  {
    var t := whole + "." + fraction;
    assert t[|whole|] == '.';
  }

  /** A literal whose first point is at `k` reads as the digits before `k` plus the
      fraction after it. */
  lemma PointSplits(t: string, k: nat)
    requires k == DotIndex(t) && k < |t|
    requires AllDigits(t[..k]) && AllDigits(t[k + 1..]) && k > 0
    ensures UnsignedValue(t) == Some(Streaks.DigitsValue(t[..k]) as real + FractionValue(t[k + 1..]))
  {
    assert !IsoTime.IsDigit(t[k]);
  }

  /** A literal with a point splits back into the whole part and the fraction. */
  lemma PointParts(whole: string, fraction: string)
    ensures (whole + "." + fraction)[..|whole|] == whole
    ensures (whole + "." + fraction)[|whole| + 1..] == fraction
  {
  }

  /** A literal with a point reads as its whole part plus its fraction. */
  lemma DecimalValue(whole: string, fraction: string)
    requires AllDigits(whole) && AllDigits(fraction) && whole != []
    ensures UnsignedValue(whole + "." + fraction)
              == Some(Streaks.DigitsValue(whole) as real + FractionValue(fraction))
  {
    PointAfterWhole(whole, fraction);
    PointParts(whole, fraction);
    PointSplits(whole + "." + fraction, |whole|);
  }

  /** Text that trimming leaves alone and that starts with a minus sign reads as the
      negated literal after the sign. */
  lemma MinusSign(t: string)
    requires Trim(t) == t && t != [] && t[0] == '-'
    ensures NumberOfText(t) == match UnsignedValue(t[1..]) case None => None case Some(v) => Some(-v)
  {
  }

  /** A minus sign negates the literal after it. */
  lemma NegativeExample()
    ensures NumberOfText("-7") == Some(-7.0)
  {
    assert Trim("-7") == "-7" by {
      TrimUnpadded("-7");
    }
    MinusSign("-7");
    assert UnsignedValue(("-7")[1..]) == Some(7.0) by {
      assert ("-7")[1..] == "7";
      assert AllDigits("7");
      assert Streaks.DigitsValue("7") == 7 by {
        assert ("7")[..0] == "";
      }
    }
  }

  /** A decimal point separates the whole part from the fraction. */
  lemma DecimalExample()
    ensures NumberOfText("2.5") == Some(2.5)
  {
    assert UnsignedValue("2.5") == Some(2.5) by {
      assert DotIndex("2.5") == 1 by {
        assert ("2.5")[1..] == ".5";
      }
      assert ("2.5")[..1] == "2" && ("2.5")[2..] == "5";
      assert AllDigits("2") && AllDigits("5");
      PointSplits("2.5", 1);
      assert Streaks.DigitsValue("2") == 2 by {
        assert ("2")[..0] == "";
      }
      assert FractionValue("5") == 0.5 by {
        assert ("5")[1..] == "";
      }
    }
    assert Trim("2.5") == "2.5" by {
      TrimUnpadded("2.5");
    }
  }

  /** Letters are not a number. */
  lemma LettersExample()
    ensures NumberOfText("abc") == None
  {
    assert Trim("abc") == "abc" by {
      TrimUnpadded("abc");
    }
    assert UnsignedValue("abc") == None by {
      assert !IsoTime.IsDigit(("abc")[0]);
    }
  }

  /** A sign alone is not a number. */
  lemma LoneSignExample()
    ensures NumberOfText("-") == None
  {
    assert Trim("-") == "-" by {
      TrimUnpadded("-");
    }
    assert UnsignedValue("") == None;
    assert ("-")[1..] == "";
  }
}
