/** The amounts the source's own unit tests convert, worked out in the model:
    the words each amount reads as, and for the first one the Thai text. */
module Examples {
  import opened ThaiWords
  import opened Reading

  /** 100.25 */
  lemma HundredBaht25()
    ensures AmountWords(Silent, false, "100", "25") == [Num(1), Roi, Baht, Yii, Sip, Num(5), Satang]
    ensures AmountWords(Spoken, false, "100", "25") == AmountWords(Silent, false, "100", "25")
  {
    assert MillionGroups("100") == ["100"];
    assert LeadingWords("100", 1) == [Num(1), Roi] by {
      assert LeadingWords("100", 0) == [];
    }
    assert DigitsValue("25") == 25 by {
      assert "25"[..1] == "2" && "2"[..0] == "";
    }
  }

  /** ... and its text, the one both source files test. */
  lemma HundredBaht25Text()
    ensures AmountText(Silent, false, "100", "25") ==
            "หนึ่ง" + "ร้อย" + "บาท" + "ยี่" + "สิบ" + "ห้า" + "สตางค์"
    ensures AmountText(Spoken, false, "100", "25") ==
            "หนึ่ง" + "ร้อย" + "บาท" + "ยี่" + "สิบ" + "ห้า" + "สตางค์"
  {
    HundredBaht25();
    HundredBaht25Spelled();
  }

  lemma HundredBaht25Spelled()
    ensures Render([Num(1), Roi, Baht, Yii, Sip, Num(5), Satang]) ==
            "หนึ่ง" + "ร้อย" + "บาท" + "ยี่" + "สิบ" + "ห้า" + "สตางค์"
  {
    assert Render([Num(1)]) == "หนึ่ง" by {
      RenderOne(Num(1));
    }
    assert Render([Num(1), Roi]) == "หนึ่ง" + "ร้อย" by {
      assert [Num(1), Roi] == [Num(1)] + [Roi];
      RenderSnoc([Num(1)], Roi);
    }
    assert Render([Num(1), Roi, Baht]) == "หนึ่ง" + "ร้อย" + "บาท" by {
      assert [Num(1), Roi, Baht] == [Num(1), Roi] + [Baht];
      RenderSnoc([Num(1), Roi], Baht);
    }
    assert Render([Num(1), Roi, Baht, Yii]) == "หนึ่ง" + "ร้อย" + "บาท" + "ยี่" by {
      assert [Num(1), Roi, Baht, Yii] == [Num(1), Roi, Baht] + [Yii];
      RenderSnoc([Num(1), Roi, Baht], Yii);
    }
    assert Render([Num(1), Roi, Baht, Yii, Sip]) == "หนึ่ง" + "ร้อย" + "บาท" + "ยี่" + "สิบ" by {
      assert [Num(1), Roi, Baht, Yii, Sip] == [Num(1), Roi, Baht, Yii] + [Sip];
      RenderSnoc([Num(1), Roi, Baht, Yii], Sip);
    }
    assert Render([Num(1), Roi, Baht, Yii, Sip, Num(5)]) == "หนึ่ง" + "ร้อย" + "บาท" + "ยี่" + "สิบ" + "ห้า" by {
      assert [Num(1), Roi, Baht, Yii, Sip, Num(5)] == [Num(1), Roi, Baht, Yii, Sip] + [Num(5)];
      RenderSnoc([Num(1), Roi, Baht, Yii, Sip], Num(5));
    }
    assert Render([Num(1), Roi, Baht, Yii, Sip, Num(5), Satang]) == "หนึ่ง" + "ร้อย" + "บาท" + "ยี่" + "สิบ" + "ห้า" + "สตางค์" by {
      assert [Num(1), Roi, Baht, Yii, Sip, Num(5), Satang] == [Num(1), Roi, Baht, Yii, Sip, Num(5)] + [Satang];
      RenderSnoc([Num(1), Roi, Baht, Yii, Sip, Num(5)], Satang);
    }
  }

  /** 0.0 */
  lemma ZeroBaht()
    ensures AmountWords(Silent, false, "0", "00") == [Num(0), Baht, Tuan]
  {
    assert MillionGroups("0") == ["0"];
    assert DigitsValue("00") == 0 by {
      assert "00"[..1] == "0" && "0"[..0] == "";
    }
  }

  /** 11.0, where the two source files differ */
  lemma ElevenBaht()
    ensures AmountWords(Silent, false, "11", "00") == [Sip, Et, Baht, Tuan]
    ensures AmountWords(Spoken, false, "11", "00") == [Num(1), Sip, Et, Baht, Tuan]
  {
    assert MillionGroups("11") == ["11"];
    assert DigitsValue("00") == 0 by {
      assert "00"[..1] == "0" && "0"[..0] == "";
    }
  }

  /** 1.01 */
  lemma OneBahtOneSatang()
    ensures AmountWords(Silent, false, "1", "01") == [Num(1), Baht, Num(1), Satang]
  {
    assert MillionGroups("1") == ["1"];
    assert DigitsValue("01") == 1 by {
      assert "01"[..1] == "0" && "0"[..0] == "";
    }
  }

  /** 201.0 */
  lemma TwoHundredOne()
    ensures AmountWords(Silent, false, "201", "00") == [Num(2), Roi, Num(1), Baht, Tuan]
  {
    assert MillionGroups("201") == ["201"];
    assert LeadingWords("201", 1) == [Num(2), Roi] by {
      assert LeadingWords("201", 0) == [];
    }
    assert DigitsValue("00") == 0 by {
      assert "00"[..1] == "0" && "0"[..0] == "";
    }
  }

  /** -1000000.0: a group of six zeros says nothing after its "ล้าน" */
  lemma MinusOneMillion()
    ensures AmountWords(Silent, true, "1000000", "00") == [Lop, Num(1), Lan, Baht, Tuan]
  {
    assert MillionGroups("1000000") == ["1", "000000"] by {
      assert "1000000"[..1] == "1" && "1000000"[1..] == "000000";
      assert MillionGroups("1") == ["1"];
    }
    ZeroGroupSilent(Silent, "000000");
    assert Readings(Silent, ["1", "000000"]) == [[Num(1)], []];
    assert DigitsValue("00") == 0 by {
      assert "00"[..1] == "0" && "0"[..0] == "";
    }
  }

  /** 10000000680000.51: three groups, the middle one all zeros */
  lemma TenMillionMillion()
    ensures AmountWords(Silent, false, "10000000680000", "51") ==
            [Sip, Lan, Lan, Num(6), Saen, Num(8), Muen, Baht, Num(5), Sip, Et, Satang]
  {
    TenMillionMillionInteger();
    assert SatangWords(Silent, "51") == [Num(5), Sip, Et, Satang] by {
      assert DigitsValue("51") == 51 by {
        assert "51"[..1] == "5" && "5"[..0] == "";
      }
    }
  }

  lemma TenMillionMillionInteger()
    ensures IntegerWords(Silent, "10000000680000") == [Sip, Lan, Lan, Num(6), Saen, Num(8), Muen]
  {
    TenMillionMillionGroups();
    TenMillionMillionReadings(Readings(Silent, ["10", "000000", "680000"]));
  }

  lemma TenMillionMillionReadings(rs: seq<seq<Word>>)
    requires rs == Readings(Silent, ["10", "000000", "680000"])
    ensures Joined(rs) == [Sip, Lan, Lan, Num(6), Saen, Num(8), Muen]
  {
    assert rs[0] == [Sip] by {
      assert GroupWords(Silent, "10") == [Sip];
    }
    assert rs[1] == [] by {
      ZeroGroupSilent(Silent, "000000");
    }
    assert rs[2] == [Num(6), Saen, Num(8), Muen] by {
      SixEightGroup();
    }
    JoinedThree(rs);
  }

  lemma JoinedThree(parts: seq<seq<Word>>)
    requires |parts| == 3
    ensures Joined(parts) == parts[0] + [Lan] + parts[1] + [Lan] + parts[2]
  {
    assert parts[..1] == [parts[0]] && parts[..3] == parts;
    JoinedSnoc(parts, 1);
    JoinedSnoc(parts, 2);
  }

  lemma TenMillionMillionGroups()
    ensures MillionGroups("10000000680000") == ["10", "000000", "680000"]
  {
    var s := "10000000680000";
    assert s[..8] == "10000000" && s[8..] == "680000";
    assert "10000000"[..2] == "10" && "10000000"[2..] == "000000";
    assert MillionGroups("10") == ["10"];
  }

  lemma SixEightGroup()
    ensures GroupWords(Silent, "680000") == [Num(6), Saen, Num(8), Muen]
  {
    var g := "680000";
    assert LeadingWords(g, 0) == [];
    assert LeadingWords(g, 1) == [Num(6), Saen];
    assert LeadingWords(g, 2) == [Num(6), Saen, Num(8), Muen];
    assert LeadingWords(g, 3) == LeadingWords(g, 2);
    assert LeadingWords(g, 4) == LeadingWords(g, 3);
    assert g[4..] == "00";
  }
}
