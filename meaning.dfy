/** What the words mean: a reader that takes a word sequence back to the
    number it says, and the proofs that every reading the converter writes
    says exactly the amount it was given. This is the independent partner of
    the converter: it knows only how Thai numerals are read, not how the
    converter builds them. */
module Meaning {
  import opened ThaiWords
  import opened Reading

  datatype Option<T> = None | Some(value: T)

  /** The reader's running state: `acc` is what has been completed; `pend` is
      a digit word just heard, waiting to learn whether a multiplier follows
      it (`has` says whether there is one). */
  datatype Tally = Tally(acc: nat, pend: nat, has: bool)

  const Start: Tally := Tally(0, 0, false)

  /** The number heard so far. */
  function Value(t: Tally): nat {
    t.acc + (if t.has then t.pend else 0)
  }

  /** A multiplier word: the pending digit (or one, when there is none) times its place. */
  function Scaled(t: Tally, place: nat): Tally {
    Tally(t.acc + (if t.has then t.pend else 1) * place, 0, false)
  }

  function Step(t: Tally, w: Word): Tally {
    match w
    case Num(d) => Tally(Value(t), d, true)
    case Yii => Tally(Value(t), 2, true)
    case Et => Tally(Value(t) + 1, 0, false)
    case Sip => Scaled(t, 10)
    case Roi => Scaled(t, 100)
    case Phan => Scaled(t, 1000)
    case Muen => Scaled(t, 10000)
    case Saen => Scaled(t, 100000)
    case Lan => Tally(Value(t) * 1000000, 0, false)
    case _ => t
  }

  /** Hearing the words one by one, from the state `t`. */
  function Run(t: Tally, ws: seq<Word>): Tally {
    if ws == [] then t else Step(Run(t, ws[..|ws| - 1]), ws[|ws| - 1])
  }

  /** The number a sequence of number words says. */
  function NumberOf(ws: seq<Word>): nat {
    Value(Run(Start, ws))
  }

  lemma {:induction false} RunConcat(t: Tally, a: seq<Word>, b: seq<Word>)
    ensures Run(t, a + b) == Run(Run(t, a), b)
    decreases |b|
  {
    if b == [] {
      assert a + b == a;
    } else {
      var b' := b[..|b| - 1];
      assert (a + b)[..|a + b| - 1] == a + b';
      RunConcat(t, a, b');
    }
  }

  lemma RunOne(t: Tally, w: Word)
    ensures Run(t, [w]) == Step(t, w)
  {
    assert [w][..0] == [];
  }

  lemma {:induction false} RunTwo(t: Tally, v: Word, w: Word)
    ensures Run(t, [v, w]) == Step(Step(t, v), w)
  {
    assert [v, w][..1] == [v];
    RunOne(t, v);
  }

  // ---------------------------------------------------------------------------
  // Arithmetic on digit strings

  lemma {:induction false} PairValue(p: string)
    requires |p| == 2 && AllDigits(p)
    ensures DigitsValue(p) == 10 * DigitOf(p[0]) + DigitOf(p[1])
  {
    var q := p[..1];
    assert q[..0] == [];
    assert DigitsValue(q) == DigitOf(p[0]);
  }

  lemma {:induction false} PrefixValue(g: string, k: nat)
    requires 1 <= k <= |g| && AllDigits(g[..k])
    ensures DigitsValue(g[..k]) == DigitsValue(g[..k - 1]) * 10 + DigitOf(g[k - 1])
  {
    assert g[..k][..k - 1] == g[..k - 1];
  }

  /** A digit added at place value `p` after the digits `v` one place higher. */
  lemma {:induction false} PlaceValue(base: int, v: int, d: int, p: int, mid: int, total: int)
    requires mid == base + v * (10 * p)
    requires total == mid + d * p
    ensures total == base + (v * 10 + d) * p
  {
  }

  // ---------------------------------------------------------------------------
  // The two-digit reader says its pair

  /** The units reading after a nonzero tens digit adds the units digit. */
  lemma {:induction false} AfterTensValue(t: Tally, u: char)
    requires IsDigit(u) && !t.has
    ensures Value(Run(t, AfterTens(u))) == t.acc + DigitOf(u)
  {
    if u == '0' {
    } else {
      RunOne(t, if u == '1' then Et else Num(DigitOf(u)));
    }
  }

  /** The words of a nonzero tens digit leave its value, completed. */
  lemma {:induction false} TensValue(rule: TensOne, t: Tally, c: char, u: char)
    requires IsDigit(c) && IsDigit(u) && c != '0' && !t.has
    ensures var r := Run(t, TensDigitWords(rule, [c, u]) + TensWord([c, u]));
            !r.has && r.acc == t.acc + 10 * DigitOf(c)
  {
    var pre := TensDigitWords(rule, [c, u]);
    assert TensWord([c, u]) == [Sip];
    if pre == [] {
      RunOne(t, Sip);
    } else {
      assert pre == [Yii] || pre == [Num(DigitOf(c))];
      RunTwo(t, pre[0], Sip);
    }
  }

  lemma {:induction false} TwoDigitDenotes(rule: TensOne, p: string, t: Tally)
    requires |p| == 2 && AllDigits(p) && !t.has
    ensures Value(Run(t, TwoDigitWords(rule, p))) == t.acc + DigitsValue(p)
  {
    PairValue(p);
    var c, u := p[0], p[1];
    assert p == [c, u];
    TwoDigitRules(rule, c, u);
    if c == '0' {
      if u != '0' {
        RunOne(t, Num(DigitOf(u)));
      }
    } else {
      var tens := TensDigitWords(rule, p) + TensWord(p);
      assert UnitsWords(p) == AfterTens(u);
      RunConcat(t, tens, AfterTens(u));
      TensValue(rule, t, c, u);
      AfterTensValue(Run(t, tens), u);
    }
  }

  // ---------------------------------------------------------------------------
  // The group converter says its group

  /** A multiplier word from the list multiplies by its place. */
  lemma MultiplierPlace(t: Tally, m: nat)
    requires 2 <= m <= 5
    ensures |Multipliers[m]| == 1 && Step(t, Multipliers[m][0]) == Scaled(t, Pow10(m))
  {
    assert Pow10(2) == 100 && Pow10(3) == 1000;
    assert Pow10(5) == 10 * Pow10(4) && Pow10(4) == 10000;
  }

  /** A nonzero leading digit says its digit word and multiplier; a zero says nothing. */
  lemma {:induction false} PositionDenotes(g: string, i: nat, r: Tally)
    requires 3 <= |g| <= 6 && i < |g| - 2 && IsDigit(g[i]) && !r.has
    ensures var r' := Run(r, PositionWords(g, i));
            !r'.has && r'.acc == r.acc + DigitOf(g[i]) * Pow10(|g| - i - 1)
  {
    if g[i] != '0' {
      var m := |g| - i - 1;
      MultiplierPlace(Step(r, Num(DigitOf(g[i]))), m);
      RunTwo(r, Num(DigitOf(g[i])), Multipliers[m][0]);
    }
  }

  /** The worth of the first `k` digits of a group, each at its place. */
  function PlaceSum(g: string, k: nat): nat
    requires k <= |g| && LeadingDigits(g, k)
  {
    if k == 0 then 0 else PlaceSum(g, k - 1) + DigitOf(g[k - 1]) * Pow10(|g| - k)
  }

  /** The leading digits, each said with its multiplier, add up to their
      worth at their places. */
  lemma {:induction false} LeadingDenotes(g: string, k: nat, t: Tally)
    requires 3 <= |g| <= 6 && k <= |g| - 2 && LeadingDigits(g, k) && !t.has
    ensures var r := Run(t, LeadingWords(g, k));
            !r.has && r.acc == t.acc + PlaceSum(g, k)
    decreases k
  {
    if k > 0 {
      var head := LeadingWords(g, k - 1);
      LeadingDenotes(g, k - 1, t);
      RunConcat(t, head, PositionWords(g, k - 1));
      PositionDenotes(g, k - 1, Run(t, head));
      assert |g| - (k - 1) - 1 == |g| - k;
    }
  }

  /** That worth is the value of the digits shifted to their place. */
  lemma {:induction false} PlaceSumValue(g: string, k: nat)
    requires k <= |g| && LeadingDigits(g, k)
    ensures AllDigits(g[..k])
    ensures PlaceSum(g, k) == DigitsValue(g[..k]) * Pow10(|g| - k)
    decreases k
  {
    if k > 0 {
      var v: int, d: int, p: int := DigitsValue(g[..k - 1]), DigitOf(g[k - 1]), Pow10(|g| - k);
      assert PlaceSum(g, k - 1) == v * (10 * p) by {
        PlaceSumValue(g, k - 1);
        assert Pow10(|g| - (k - 1)) == 10 * p;
      }
      PrefixValue(g, k);
      PlaceValue(0, v, d, p, PlaceSum(g, k - 1), PlaceSum(g, k));
    }
  }

  lemma {:induction false} LongGroupDenotes(rule: TensOne, g: string, t: Tally)
    requires 3 <= |g| <= 6 && AllDigits(g) && !t.has
    ensures Value(Run(t, GroupWords(rule, g))) == t.acc + DigitsValue(g)
  {
    var n := |g| - 2;
    var lead, pair := g[..n], g[n..];
    assert LeadingDigits(g, n);
    RunConcat(t, LeadingWords(g, n), TwoDigitWords(rule, pair));
    LeadingDenotes(g, n, t);
    PlaceSumValue(g, n);
    TwoDigitDenotes(rule, pair, Run(t, LeadingWords(g, n)));
    assert lead + pair == g;
    DigitsValueConcat(lead, pair);
  }

  /** A group of one to six digits reads as its value. */
  lemma {:induction false} GroupDenotes(rule: TensOne, g: string, t: Tally)
    requires 1 <= |g| <= 6 && AllDigits(g) && !t.has
    ensures Value(Run(t, GroupWords(rule, g))) == t.acc + DigitsValue(g)
  {
    if |g| == 1 {
      RunOne(t, Num(DigitOf(g[0])));
      assert g[..0] == [];
    } else if |g| == 2 {
      TwoDigitDenotes(rule, g, t);
    } else {
      LongGroupDenotes(rule, g, t);
    }
  }

  // ---------------------------------------------------------------------------
  // The integer reading says the integer

  lemma {:induction false} JoinedAppend(parts: seq<seq<Word>>, x: seq<Word>)
    requires |parts| >= 1
    ensures Joined(parts + [x]) == Joined(parts) + [Lan] + x
  {
    assert (parts + [x])[..|parts|] == parts;
  }

  /** A digit string longer than six reads as the reading of its front, "ล้าน",
      and the reading of its last six digits. */
  lemma {:induction false} IntegerWordsSnoc(rule: TensOne, digits: string)
    requires |digits| > 6
    ensures IntegerWords(rule, digits) ==
            IntegerWords(rule, digits[..|digits| - 6]) + [Lan] + GroupWords(rule, digits[|digits| - 6..])
  {
    var front, last := digits[..|digits| - 6], digits[|digits| - 6..];
    var rs := Readings(rule, MillionGroups(front));
    assert Readings(rule, MillionGroups(digits)) == rs + [GroupWords(rule, last)];
    JoinedAppend(rs, GroupWords(rule, last));
  }

  /** After "ล้าน", what was said counts a million times, and a full group follows. */
  lemma {:induction false} AfterLan(rule: TensOne, ws: seq<Word>, last: string)
    requires |last| == 6 && AllDigits(last)
    ensures NumberOf(ws + [Lan] + GroupWords(rule, last)) == NumberOf(ws) * 1000000 + DigitsValue(last)
  {
    RunConcat(Start, ws + [Lan], GroupWords(rule, last));
    RunConcat(Start, ws, [Lan]);
    RunOne(Run(Start, ws), Lan);
    GroupDenotes(rule, last, Run(Start, ws + [Lan]));
  }

  /** The last six digits count once, the ones before them a million times. */
  lemma {:induction false} MillionValue(digits: string)
    requires |digits| > 6 && AllDigits(digits)
    ensures DigitsValue(digits) ==
            DigitsValue(digits[..|digits| - 6]) * 1000000 + DigitsValue(digits[|digits| - 6..])
  {
    var front, last := digits[..|digits| - 6], digits[|digits| - 6..];
    assert front + last == digits;
    DigitsValueConcat(front, last);
    assert Pow10(3) == 1000;
    assert Pow10(6) == 1000 * Pow10(3);
  }

  /** Up to six digits are one group. */
  lemma {:induction false} ShortIntegerDenotes(rule: TensOne, digits: string)
    requires 1 <= |digits| <= 6 && AllDigits(digits)
    ensures NumberOf(IntegerWords(rule, digits)) == DigitsValue(digits)
  {
    assert IntegerWords(rule, digits) == GroupWords(rule, digits) by {
      assert MillionGroups(digits) == [digits];
    }
    GroupDenotes(rule, digits, Start);
  }

  /** The integer reading says the value of the integer digits. */
  lemma {:induction false} IntegerDenotes(rule: TensOne, digits: string)
    requires |digits| >= 1 && AllDigits(digits)
    ensures NumberOf(IntegerWords(rule, digits)) == DigitsValue(digits)
    decreases |digits|
  {
    if |digits| <= 6 {
      ShortIntegerDenotes(rule, digits);
    } else {
      var front, last := digits[..|digits| - 6], digits[|digits| - 6..];
      var ws := IntegerWords(rule, front);
      assert IntegerWords(rule, digits) == ws + [Lan] + GroupWords(rule, last) by {
        IntegerWordsSnoc(rule, digits);
      }
      assert NumberOf(ws) == DigitsValue(front) by {
        IntegerDenotes(rule, front);
      }
      assert NumberOf(ws + [Lan] + GroupWords(rule, last)) == NumberOf(ws) * 1000000 + DigitsValue(last) by {
        AfterLan(rule, ws, last);
      }
      MillionValue(digits);
    }
  }

  // ---------------------------------------------------------------------------
  // Reading a whole amount back

  datatype Amount = Amount(negative: bool, baht: nat, satang: nat)

  /** The position of the first "บาท", or the length when there is none. */
  function FirstBaht(ws: seq<Word>): (i: nat)
    ensures i <= |ws|
    ensures forall j :: 0 <= j < i ==> ws[j] != Baht
    ensures i < |ws| ==> ws[i] == Baht
  {
    if ws == [] then 0 else if ws[0] == Baht then 0 else 1 + FirstBaht(ws[1..])
  }

  /** The words after "บาท": "ถ้วน" for no satang, or number words and "สตางค์". */
  function ReadSatang(ws: seq<Word>): Option<nat> {
    if ws == [Tuan] then Some(0)
    else if |ws| >= 1 && ws[|ws| - 1] == Satang && AllNumberWords(ws[..|ws| - 1]) then
      Some(NumberOf(ws[..|ws| - 1]))
    else None
  }

  /** Reads an amount back from its words: an optional "ลบ", number words,
      "บาท", then the satang part. */
  function ReadAmount(ws: seq<Word>): Option<Amount> {
    var negative := |ws| > 0 && ws[0] == Lop;
    var rest := if negative then ws[1..] else ws;
    var b := FirstBaht(rest);
    if b == |rest| || !AllNumberWords(rest[..b]) then None
    else
      match ReadSatang(rest[b + 1..])
      case None => None
      case Some(satang) => Some(Amount(negative, NumberOf(rest[..b]), satang))
  }

  lemma {:induction false} FirstBahtAfter(a: seq<Word>, b: seq<Word>)
    requires AllNumberWords(a)
    ensures FirstBaht(a + [Baht] + b) == |a|
    decreases |a|
  {
    if a != [] {
      assert a[0] in a;
      assert (a + [Baht] + b)[1..] == a[1..] + [Baht] + b;
      FirstBahtAfter(a[1..], b);
    }
  }

  /** How the reader takes apart a sign, number words, "บาท" and a satang part. */
  lemma {:induction false} ReadParts(negative: bool, ints: seq<Word>, sat: seq<Word>)
    requires AllNumberWords(ints)
    ensures ReadAmount(SignWords(negative) + (ints + [Baht] + sat)) ==
            match ReadSatang(sat)
            case None => None
            case Some(satang) => Some(Amount(negative, NumberOf(ints), satang))
  {
    var rest := ints + [Baht] + sat;
    var ws := SignWords(negative) + rest;
    FirstBahtAfter(ints, sat);
    assert rest[..|ints|] == ints && rest[|ints| + 1..] == sat;
    if negative {
      assert ws[0] == Lop && ws[1..] == rest;
    } else {
      assert ws == rest;
      assert rest[0] != Lop by {
        if |ints| > 0 {
          assert ints[0] in ints;
        }
      }
    }
  }

  lemma {:induction false} SatangReads(rule: TensOne, frac: string)
    requires |frac| == 2 && AllDigits(frac)
    ensures ReadSatang(SatangWords(rule, frac)) == Some(DigitsValue(frac))
  {
    if DigitsValue(frac) != 0 {
      var two := TwoDigitWords(rule, frac);
      assert (two + [Satang])[..|two|] == two;
      TwoDigitWordsKinds(rule, frac);
      TwoDigitDenotes(rule, frac, Start);
    }
  }

  /** The words of an amount read back as exactly that amount: its sign, the
      value of its integer digits and the value of its two fraction digits. */
  lemma {:induction false} AmountRoundTrip(rule: TensOne, negative: bool, intDigits: string, frac: string)
    requires IsAmount(intDigits, frac)
    ensures ReadAmount(AmountWords(rule, negative, intDigits, frac)) ==
            Some(Amount(negative, DigitsValue(intDigits), DigitsValue(frac)))
  {
    IntegerWordsKinds(rule, intDigits);
    ReadParts(negative, IntegerWords(rule, intDigits), SatangWords(rule, frac));
    SatangReads(rule, frac);
    IntegerDenotes(rule, intDigits);
  }

  /** So two amounts that differ in sign, in baht or in satang never get the
      same words. */
  lemma {:induction false} AmountWordsDistinguish(rule: TensOne, n1: bool, i1: string, f1: string,
                                                  n2: bool, i2: string, f2: string)
    requires IsAmount(i1, f1) && IsAmount(i2, f2)
    requires AmountWords(rule, n1, i1, f1) == AmountWords(rule, n2, i2, f2)
    ensures n1 == n2 && DigitsValue(i1) == DigitsValue(i2) && DigitsValue(f1) == DigitsValue(f2)
  {
    AmountRoundTrip(rule, n1, i1, f1);
    AmountRoundTrip(rule, n2, i2, f2);
  }
}
