/** The float -0.0. It is not below 0.0, so `baht_text` writes no "ลบ",
    but `{:.2}` formats it as "-0.00". The routines therefore see the
    integer part "-0", which the two-digit reader says as "สิบ" (ten). */
module Findings {
  import opened ThaiWords
  import opened Reading
  import opened Meaning

  /** What `baht_text` writes after a sign test that found nothing negative,
      when the integer part is taken from the formatted text as it is. */
  function WrittenText(rule: TensOne, intPart: string, frac: string): string
    requires |frac| == 2 && AllDigits(frac)
  {
    Render(IntegerWords(rule, intPart) + [Baht] + SatangWords(rule, frac))
  }

  /** On a plain digit string the code as written is the modelled converter. */
  lemma {:induction false} WrittenAgrees(rule: TensOne, digits: string, frac: string)
    requires IsAmount(digits, frac)
    ensures WrittenText(rule, digits, frac) == AmountText(rule, false, digits, frac)
  {
    assert AmountWords(rule, false, digits, frac) == IntegerWords(rule, digits) + [Baht] + SatangWords(rule, frac);
  }

  /** As written, -0.0 is "สิบบาทถ้วน", ten baht exactly, and not the text of 0.0. */
  lemma {:induction false} NegativeZeroAsWritten(rule: TensOne)
    ensures WrittenText(rule, "-0", "00") == "สิบ" + "บาท" + "ถ้วน"
    ensures WrittenText(rule, "0", "00") == "ศูนย์" + "บาท" + "ถ้วน"
    ensures WrittenText(rule, "-0", "00") != WrittenText(rule, "0", "00")
  {
    assert SatangWords(rule, "00") == [Tuan] by {
      assert DigitsValue("00") == 0 by {
        assert "00"[..1] == "0" && "0"[..0] == "";
      }
    }
    assert IntegerWords(rule, "-0") == [Sip] by {
      assert MillionGroups("-0") == ["-0"];
      assert GroupWords(rule, "-0") == [Sip];
    }
    assert IntegerWords(rule, "0") == [Num(0)] by {
      assert MillionGroups("0") == ["0"];
    }
    TenBahtText();
    ZeroBahtText();
    assert "สิบ"[0] != "ศูนย์"[0];
  }

  lemma TenBahtText()
    ensures Render([Sip] + [Baht] + [Tuan]) == "สิบ" + "บาท" + "ถ้วน"
  {
    RenderOne(Sip);
    RenderSnoc([Sip], Baht);
    assert [Sip] + [Baht] == [Sip, Baht];
    RenderSnoc([Sip, Baht], Tuan);
  }

  lemma ZeroBahtText()
    ensures Render([Num(0)] + [Baht] + [Tuan]) == "ศูนย์" + "บาท" + "ถ้วน"
  {
    RenderOne(Num(0));
    RenderSnoc([Num(0)], Baht);
    assert [Num(0)] + [Baht] == [Num(0), Baht];
    RenderSnoc([Num(0), Baht], Tuan);
  }

  /** The digits of a formatted integer part: a leading '-' dropped. */
  function Magnitude(intPart: string): (digits: string)
    ensures |intPart| > 0 && intPart[0] == '-' ==> intPart == "-" + digits
    ensures !(|intPart| > 0 && intPart[0] == '-') ==> digits == intPart
  {
    if |intPart| > 0 && intPart[0] == '-' then intPart[1..] else intPart
  }

  /** The corrected converter reads only the digits of the integer part. */
  function CorrectedText(rule: TensOne, intPart: string, frac: string): string
    requires IsAmount(Magnitude(intPart), frac)
  {
    AmountText(rule, false, Magnitude(intPart), frac)
  }

  /** Corrected, a '-' in front of the digits changes nothing. The text is
      that of the unsigned amount, whose words read back as its value. */
  lemma {:induction false} MinusIgnored(rule: TensOne, digits: string, frac: string)
    requires IsAmount(digits, frac)
    ensures IsAmount(Magnitude("-" + digits), frac) && IsAmount(Magnitude(digits), frac)
    ensures CorrectedText(rule, "-" + digits, frac) == CorrectedText(rule, digits, frac)
    ensures CorrectedText(rule, digits, frac) == AmountText(rule, false, digits, frac)
    ensures ReadAmount(AmountWords(rule, false, Magnitude("-" + digits), frac)) ==
            Some(Amount(false, DigitsValue(digits), DigitsValue(frac)))
  {
    assert ("-" + digits)[1..] == digits;
    assert digits[0] != '-';
    AmountRoundTrip(rule, false, digits, frac);
  }

  /** Corrected, -0.0 is "ศูนย์บาทถ้วน", the text of 0.0. */
  lemma {:induction false} NegativeZeroCorrected(rule: TensOne)
    ensures IsAmount(Magnitude("-0"), "00")
    ensures CorrectedText(rule, "-0", "00") == "ศูนย์" + "บาท" + "ถ้วน"
  {
    assert IsAmount(Magnitude("-0"), "00") && CorrectedText(rule, "-0", "00") == AmountText(rule, false, "0", "00") by {
      assert "-" + "0" == "-0";
      MinusIgnored(rule, "0", "00");
    }
    assert AmountText(rule, false, "0", "00") == "ศูนย์" + "บาท" + "ถ้วน" by {
      WrittenAgrees(rule, "0", "00");
      NegativeZeroAsWritten(rule);
    }
  }
}
