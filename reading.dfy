/** What the converter says, as word sequences: the group splitter, the
    two-digit reader, the group converter and the whole amount, with the
    structural properties of each.

    Both source files share this algorithm; they differ only in how a tens
    digit of '1' is read, which is the `TensOne` parameter. */
module Reading {
  import opened ThaiWords
  import opened Seqs

  /** How the two-digit reader says a tens digit of '1'. */
  datatype TensOne =
    | Silent   // src/lib.rs: "สิบ" with no digit word
    | Spoken   // src/baht_text/baht_text.rs: "หนึ่งสิบ"

  // ---------------------------------------------------------------------------
  // Group splitter

  /** The integer digits cut into groups of six, counted from the right, most
      significant group first. */
  function MillionGroups(s: string): (gs: seq<string>)
    ensures |gs| == (|s| + 5) / 6
    decreases |s|
  {
    if |s| == 0 then []
    else if |s| <= 6 then [s]
    else
      var front := MillionGroups(s[..|s| - 6]);
      GroupCountStep(|s|);
      front + [s[|s| - 6..]]
  }

  lemma GroupCountStep(n: nat)
    requires n > 6
    ensures (n - 6 + 5) / 6 + 1 == (n + 5) / 6
  {
  }

  /** `gs` is a split of `s` into groups of the /shape/ the splitter promises. */
  predicate IsMillionSplit(s: string, gs: seq<string>) {
    && Flatten(gs) == s
    && (forall k :: 0 <= k < |gs| ==> 1 <= |gs[k]| <= 6)
    && (forall k :: 0 < k < |gs| ==> |gs[k]| == 6)
  }

  /** Every group has one to six digits, and all but the first exactly six. */
  lemma {:induction false} MillionGroupsShape(s: string)
    ensures forall k :: 0 <= k < |MillionGroups(s)| ==> 1 <= |MillionGroups(s)[k]| <= 6
    ensures forall k :: 0 < k < |MillionGroups(s)| ==> |MillionGroups(s)[k]| == 6
    decreases |s|
  {
    if |s| > 6 {
      MillionGroupsShape(s[..|s| - 6]);
    }
  }

  /** Concatenating the groups, in order, gives back the digits. */
  lemma {:induction false} MillionGroupsFlatten(s: string)
    ensures Flatten(MillionGroups(s)) == s
    decreases |s|
  {
    if |s| > 6 {
      var p, t := s[..|s| - 6], s[|s| - 6..];
      MillionGroupsFlatten(p);
      var gs := MillionGroups(p) + [t];
      assert gs[..|gs| - 1] == MillionGroups(p);
      assert p + t == s;
    } else if |s| > 0 {
      assert [s][..0] == [];
    }
  }

  /** There is only one split of that shape: the splitter's. */
  lemma {:induction false} MillionSplitUnique(s: string, gs: seq<string>)
    requires IsMillionSplit(s, gs)
    ensures gs == MillionGroups(s)
    decreases |gs|
  {
    if |gs| == 1 {
      assert gs[..0] == [];
      assert Flatten(gs) == Flatten(gs[..0]) + gs[0];
      assert gs == [gs[0]];
      assert s == gs[0];
      assert MillionGroups(s) == [s];
    } else if |gs| > 1 {
      var init, last := gs[..|gs| - 1], gs[|gs| - 1];
      var p := Flatten(init);
      assert |init[0]| >= 1;
      FlattenLength(init);
      assert s == p + last;
      assert s[..|s| - 6] == p && s[|s| - 6..] == last;
      assert IsMillionSplit(p, init);
      MillionSplitUnique(p, init);
    } else {
      assert s == [];
    }
  }

  lemma {:induction false} FlattenLength(gs: seq<string>)
    requires |gs| > 0 && |gs[0]| >= 1
    ensures |Flatten(gs)| >= 1
    decreases |gs|
  {
    if |gs| > 1 {
      FlattenLength(gs[..|gs| - 1]);
    } else {
      assert gs[..0] == [];
    }
  }

  /** A group put in front of a run of whole six-digit groups becomes the new
      first group. */
  lemma {:induction false} PrependGroup(c: string, t: string)
    requires 1 <= |c| <= 6 && |t| % 6 == 0
    ensures MillionGroups(c + t) == [c] + MillionGroups(t)
    decreases |t|
  {
    if t == [] {
      assert c + t == c;
    } else {
      var t' := t[..|t| - 6];
      assert (c + t)[..|c + t| - 6] == c + t';
      assert (c + t)[|c + t| - 6..] == t[|t| - 6..];
      PrependGroup(c, t');
      if |t| == 6 {
        assert t' == [];
      }
    }
  }

  /** A group of a digit string is a digit string. */
  lemma {:induction false} MillionGroupsDigits(s: string)
    requires AllDigits(s)
    ensures forall k :: 0 <= k < |MillionGroups(s)| ==> AllDigits(MillionGroups(s)[k])
    decreases |s|
  {
    if |s| > 6 {
      MillionGroupsDigits(s[..|s| - 6]);
    }
  }

  // ---------------------------------------------------------------------------
  // Two-digit reader. `s` is read as Rust's `chars().nth(0)` and `nth(1)`: a
  // missing character is `None`.

  /** The word before "สิบ". */
  function TensDigitWords(rule: TensOne, s: string): seq<Word> {
    if |s| == 0 then []
    else if s[0] == '2' then [Yii]
    else if s[0] == '0' || (rule == Silent && s[0] == '1') || !IsDigit(s[0]) then []
    else [Num(DigitOf(s[0]))]
  }

  /** "สิบ" unless the tens digit is '0'. */
  function TensWord(s: string): seq<Word> {
    if |s| > 0 && s[0] == '0' then [] else [Sip]
  }

  /** The units word. */
  function UnitsWords(s: string): seq<Word> {
    if |s| < 2 || !IsDigit(s[1]) || s[1] == '0' then []
    else if s[0] == '0' then [Num(DigitOf(s[1]))]
    else if s[1] == '1' then [Et]
    else [Num(DigitOf(s[1]))]
  }

  function TwoDigitWords(rule: TensOne, s: string): seq<Word> {
    TensDigitWords(rule, s) + TensWord(s) + UnitsWords(s)
  }

  /** The reading of a units digit after a nonzero tens digit. */
  function AfterTens(u: char): seq<Word>
    requires IsDigit(u)
  {
    if u == '0' then [] else if u == '1' then [Et] else [Num(DigitOf(u))]
  }

  /** The rules of the two-digit reader for a pair of digits. */
  lemma {:induction false} TwoDigitRules(rule: TensOne, t: char, u: char)
    requires IsDigit(t) && IsDigit(u)
    ensures t == '0' && u == '0' ==> TwoDigitWords(rule, [t, u]) == []
    ensures t == '0' && u != '0' ==> TwoDigitWords(rule, [t, u]) == [Num(DigitOf(u))]
    ensures t == '1' && rule == Silent ==> TwoDigitWords(rule, [t, u]) == [Sip] + AfterTens(u)
    ensures t == '1' && rule == Spoken ==> TwoDigitWords(rule, [t, u]) == [Num(1), Sip] + AfterTens(u)
    ensures t == '2' ==> TwoDigitWords(rule, [t, u]) == [Yii, Sip] + AfterTens(u)
    ensures '3' <= t ==> TwoDigitWords(rule, [t, u]) == [Num(DigitOf(t)), Sip] + AfterTens(u)
  {
  }

  /** The generic word for one ("หนึ่ง") appears in a two-digit reading exactly
      for the pair "01", and, when the tens '1' is spoken, for a tens '1'; a
      units '1' after a nonzero tens digit is always "เอ็ด". */
  lemma {:induction false} OneWordIff(rule: TensOne, t: char, u: char)
    requires IsDigit(t) && IsDigit(u)
    ensures Num(1) in TwoDigitWords(rule, [t, u]) <==>
            (t == '0' && u == '1') || (rule == Spoken && t == '1')
    ensures t != '0' && u == '1' ==> TwoDigitWords(rule, [t, u])[|TwoDigitWords(rule, [t, u])| - 1] == Et
  {
    TwoDigitRules(rule, t, u);
    var ws := TwoDigitWords(rule, [t, u]);
    if t != '0' && !(rule == Spoken && t == '1') {
      assert ws == TensDigitWords(rule, [t, u]) + [Sip] + AfterTens(u);
      assert Num(1) !in TensDigitWords(rule, [t, u]);
      assert Num(1) !in AfterTens(u);
    }
  }

  /** The two source files agree on every reading whose tens character is not '1'. */
  lemma {:induction false} VariantsAgree(s: string)
    requires |s| == 0 || s[0] != '1'
    ensures TwoDigitWords(Spoken, s) == TwoDigitWords(Silent, s)
  {
  }

  /** ... and on a tens '1' the second file says one more word, "หนึ่ง", in front. */
  lemma {:induction false} VariantsDiffer(s: string)
    requires |s| > 0 && s[0] == '1'
    ensures TwoDigitWords(Spoken, s) == [Num(1)] + TwoDigitWords(Silent, s)
    ensures TwoDigitWords(Spoken, s) != TwoDigitWords(Silent, s)
  {
    assert |TwoDigitWords(Spoken, s)| == |TwoDigitWords(Silent, s)| + 1;
  }

  /** A two-digit reading only uses number words, and never "ล้าน". */
  lemma {:induction false} TwoDigitWordsKinds(rule: TensOne, s: string)
    ensures AllNumberWords(TwoDigitWords(rule, s))
    ensures Lan !in TwoDigitWords(rule, s)
  {
  }

  // ---------------------------------------------------------------------------
  // Group converter

  predicate LeadingDigits(g: string, k: nat)
    requires k <= |g|
  {
    forall i :: 0 <= i < k ==> IsDigit(g[i])
  }

  /** The words for a leading digit at index `i`: silent when '0', otherwise
      its digit word and the multiplier for its distance from the group's end. */
  function PositionWords(g: string, i: nat): seq<Word>
    requires i < |g| <= 6 && IsDigit(g[i])
  {
    if g[i] == '0' then [] else [Num(DigitOf(g[i]))] + Multipliers[|g| - i - 1]
  }

  /** The words for the first `k` digits of a group. */
  function LeadingWords(g: string, k: nat): seq<Word>
    requires k <= |g| <= 6 && LeadingDigits(g, k)
  {
    if k == 0 then [] else LeadingWords(g, k - 1) + PositionWords(g, k - 1)
  }

  function GroupWords(rule: TensOne, g: string): seq<Word> {
    if |g| == 1 then
      if IsDigit(g[0]) then [Num(DigitOf(g[0]))] else []
    else if |g| == 2 then
      TwoDigitWords(rule, g)
    else if 3 <= |g| <= 6 then
      if LeadingDigits(g, |g| - 2) then LeadingWords(g, |g| - 2) + TwoDigitWords(rule, g[|g| - 2..])
      else []
    else []
  }

  /** The fallbacks of the group converter. */
  lemma {:induction false} GroupEdgeCases(rule: TensOne, g: string)
    ensures |g| == 0 || |g| > 6 ==> GroupWords(rule, g) == []
    ensures g == "0" ==> GroupWords(rule, g) == [Num(0)]
    ensures 3 <= |g| <= 6 && (exists i :: 0 <= i < |g| - 2 && !IsDigit(g[i])) ==> GroupWords(rule, g) == []
  {
  }

  /** A '0' at any leading position of any group adds no words. */
  lemma {:induction false} ZeroPositionSilent(g: string, k: nat)
    requires k < |g| <= 6 && LeadingDigits(g, k + 1) && g[k] == '0'
    ensures LeadingWords(g, k + 1) == LeadingWords(g, k)
  {
    assert PositionWords(g, k) == [];
  }

  /** The leading digits of an all-zero group say nothing. */
  lemma {:induction false} LeadingZerosSilent(g: string, k: nat)
    requires k <= |g| <= 6
    requires forall i :: 0 <= i < |g| ==> g[i] == '0'
    ensures LeadingDigits(g, k) && LeadingWords(g, k) == []
    decreases k
  {
    if k > 0 {
      LeadingZerosSilent(g, k - 1);
    }
  }

  lemma TwoDigitZeros(rule: TensOne, p: string)
    requires |p| == 2 && p[0] == '0' && p[1] == '0'
    ensures TwoDigitWords(rule, p) == []
  {
  }

  lemma {:induction false} LongZeroGroupSilent(rule: TensOne, g: string)
    requires 3 <= |g| <= 6
    requires forall i :: 0 <= i < |g| ==> g[i] == '0'
    ensures GroupWords(rule, g) == []
  {
    var pair := g[|g| - 2..];
    assert LeadingDigits(g, |g| - 2) && LeadingWords(g, |g| - 2) == [] by {
      LeadingZerosSilent(g, |g| - 2);
    }
    assert TwoDigitWords(rule, pair) == [] by {
      assert pair[0] == g[|g| - 2] && pair[1] == g[|g| - 1];
      TwoDigitZeros(rule, pair);
    }
    assert GroupWords(rule, g) == LeadingWords(g, |g| - 2) + TwoDigitWords(rule, pair);
  }

  /** A group of two to six zeros reads as nothing. */
  lemma {:induction false} ZeroGroupSilent(rule: TensOne, g: string)
    requires 2 <= |g| <= 6
    requires forall i :: 0 <= i < |g| ==> g[i] == '0'
    ensures GroupWords(rule, g) == []
  {
    if |g| >= 3 {
      LongZeroGroupSilent(rule, g);
    } else {
      assert g[0] == '0' && g[1] == '0';
      TwoDigitZeros(rule, g);
    }
  }

  /** Number words without "ล้าน", put together, stay so. */
  lemma NumberWordsConcat(a: seq<Word>, b: seq<Word>)
    requires AllNumberWords(a) && Lan !in a && AllNumberWords(b) && Lan !in b
    ensures AllNumberWords(a + b) && Lan !in a + b
  {
  }

  lemma PositionWordsKinds(g: string, i: nat)
    requires i < |g| <= 6 && IsDigit(g[i])
    ensures AllNumberWords(PositionWords(g, i)) && Lan !in PositionWords(g, i)
  {
    var m := |g| - i - 1;
    assert m <= 5;
    assert Lan !in Multipliers[m] && AllNumberWords(Multipliers[m]);
  }

  lemma {:induction false} LeadingWordsKinds(g: string, k: nat)
    requires k <= |g| <= 6 && LeadingDigits(g, k)
    ensures AllNumberWords(LeadingWords(g, k)) && Lan !in LeadingWords(g, k)
    decreases k
  {
    if k > 0 {
      LeadingWordsKinds(g, k - 1);
      PositionWordsKinds(g, k - 1);
      NumberWordsConcat(LeadingWords(g, k - 1), PositionWords(g, k - 1));
    }
  }

  /** A group only says number words, and never the seventh multiplier "ล้าน":
      that word is left to the separator between groups. */
  lemma {:induction false} GroupWordsKinds(rule: TensOne, g: string)
    ensures AllNumberWords(GroupWords(rule, g)) && Lan !in GroupWords(rule, g)
  {
    if 3 <= |g| <= 6 && LeadingDigits(g, |g| - 2) {
      LeadingWordsKinds(g, |g| - 2);
      TwoDigitWordsKinds(rule, g[|g| - 2..]);
      NumberWordsConcat(LeadingWords(g, |g| - 2), TwoDigitWords(rule, g[|g| - 2..]));
    } else if |g| == 2 {
      assert GroupWords(rule, g) == TwoDigitWords(rule, g);
      TwoDigitWordsKinds(rule, g);
    } else if |g| == 1 && IsDigit(g[0]) {
      assert GroupWords(rule, g) == [Num(DigitOf(g[0]))];
    } else {
      assert GroupWords(rule, g) == [];
    }
  }

  // ---------------------------------------------------------------------------
  // The whole amount

  /** The reading of each group, in order. */
  function Readings(rule: TensOne, gs: seq<string>): (rs: seq<seq<Word>>)
    ensures |rs| == |gs|
    ensures forall j :: 0 <= j < |gs| ==> rs[j] == GroupWords(rule, gs[j])
  {
    seq(|gs|, j requires 0 <= j < |gs| => GroupWords(rule, gs[j]))
  }

  /** Group readings with the separator "ล้าน" between every two adjacent ones. */
  function Joined(parts: seq<seq<Word>>): seq<Word> {
    if |parts| == 0 then []
    else if |parts| == 1 then parts[0]
    else Joined(parts[..|parts| - 1]) + [Lan] + parts[|parts| - 1]
  }

  function IntegerWords(rule: TensOne, digits: string): seq<Word> {
    Joined(Readings(rule, MillionGroups(digits)))
  }

  function SignWords(negative: bool): seq<Word> {
    if negative then [Lop] else []
  }

  function SatangWords(rule: TensOne, frac: string): seq<Word>
    requires AllDigits(frac)
  {
    if DigitsValue(frac) == 0 then [Tuan] else TwoDigitWords(rule, frac) + [Satang]
  }

  /** The decimal text an amount is formatted to: a non-empty integer part
      and exactly two fraction digits. */
  predicate IsAmount(intDigits: string, frac: string) {
    |intDigits| >= 1 && AllDigits(intDigits) && |frac| == 2 && AllDigits(frac)
  }

  /** The words after the sign: integer reading, "บาท", satang part. */
  function UnsignedWords(rule: TensOne, intDigits: string, frac: string): seq<Word>
    requires IsAmount(intDigits, frac)
  {
    IntegerWords(rule, intDigits) + [Baht] + SatangWords(rule, frac)
  }

  function AmountWords(rule: TensOne, negative: bool, intDigits: string, frac: string): seq<Word>
    requires IsAmount(intDigits, frac)
  {
    SignWords(negative) + UnsignedWords(rule, intDigits, frac)
  }

  function AmountText(rule: TensOne, negative: bool, intDigits: string, frac: string): string
    requires IsAmount(intDigits, frac)
  {
    Render(AmountWords(rule, negative, intDigits, frac))
  }

  predicate EndsWith(s: string, suffix: string) {
    |suffix| <= |s| && s[|s| - |suffix|..] == suffix
  }

  /** Two fraction digits are worth nothing exactly when they are "00". */
  lemma {:induction false} FracZero(frac: string)
    requires |frac| == 2 && AllDigits(frac)
    ensures DigitsValue(frac) == 0 <==> frac == "00"
  {
    DigitsValueZero(frac);
    if DigitsValue(frac) == 0 {
      assert frac[0] == '0' && frac[1] == '0';
    }
  }

  /** A negative amount reads as "ลบ" followed by exactly the text of its absolute value. */
  lemma {:induction false} NegativePrefix(rule: TensOne, intDigits: string, frac: string)
    requires IsAmount(intDigits, frac)
    ensures AmountText(rule, true, intDigits, frac) == "ลบ" + AmountText(rule, false, intDigits, frac)
  {
    SignedText(UnsignedWords(rule, intDigits, frac));
  }

  lemma SignedText(rest: seq<Word>)
    ensures Render(SignWords(true) + rest) == "ลบ" + Render(SignWords(false) + rest)
  {
    assert SignWords(false) + rest == rest;
    RenderPrepend(Lop, rest);
  }

  /** The text is the sign and the integer reading, "บาท", then "ถ้วน" when the
      fraction is "00" and the satang reading and "สตางค์" otherwise. */
  lemma {:induction false} AmountShape(rule: TensOne, negative: bool, intDigits: string, frac: string)
    requires IsAmount(intDigits, frac)
    ensures frac == "00" ==>
              AmountText(rule, negative, intDigits, frac) ==
              Render(SignWords(negative) + IntegerWords(rule, intDigits)) + "บาท" + "ถ้วน"
    ensures frac != "00" ==>
              AmountText(rule, negative, intDigits, frac) ==
              Render(SignWords(negative) + IntegerWords(rule, intDigits)) + "บาท" +
              Render(TwoDigitWords(rule, frac)) + "สตางค์"
  {
    var sign, ints := SignWords(negative), IntegerWords(rule, intDigits);
    FracZero(frac);
    Regroup(sign, ints, SatangWords(rule, frac));
    if frac == "00" {
      TuanText(sign + ints);
    } else {
      SatangTailText(sign + ints, TwoDigitWords(rule, frac));
    }
  }

  lemma Regroup(sign: seq<Word>, ints: seq<Word>, sat: seq<Word>)
    ensures sign + (ints + [Baht] + sat) == sign + ints + [Baht] + sat
  {
  }

  lemma {:induction false} TuanText(pre: seq<Word>)
    ensures Render(pre + [Baht] + [Tuan]) == Render(pre) + "บาท" + "ถ้วน"
  {
    RenderSnoc(pre + [Baht], Tuan);
    RenderSnoc(pre, Baht);
  }

  lemma {:induction false} SatangTailText(pre: seq<Word>, two: seq<Word>)
    ensures Render(pre + [Baht] + (two + [Satang])) == Render(pre) + "บาท" + Render(two) + "สตางค์"
  {
    var head := pre + [Baht];
    assert head + (two + [Satang]) == (head + two) + [Satang];
    RenderSnoc(head + two, Satang);
    RenderConcat(head, two);
    RenderSnoc(pre, Baht);
  }

  lemma {:induction false} SatangText(rule: TensOne, frac: string)
    requires |frac| == 2 && AllDigits(frac)
    ensures Render(SatangWords(rule, frac)) ==
            (if frac == "00" then "ถ้วน" else Render(TwoDigitWords(rule, frac)) + "สตางค์")
  {
    FracZero(frac);
    if frac == "00" {
      assert [Tuan][..0] == [];
    } else {
      RenderSnoc(TwoDigitWords(rule, frac), Satang);
    }
  }

  /** How a text of that shape ends. */
  lemma {:induction false} TuanEndingText(head: string)
    ensures EndsWith(head + "บาท" + "ถ้วน", "บาทถ้วน")
  {
    assert head + "บาท" + "ถ้วน" == head + "บาทถ้วน";
  }

  lemma SatangEnding(front: string)
    ensures EndsWith(front + "สตางค์", "สตางค์")
    ensures !EndsWith(front + "สตางค์", "บาทถ้วน") && !EndsWith(front + "สตางค์", "ถ้วน")
  {
    var text := front + "สตางค์";
    assert text[|text| - 1] == '์';
  }

  /** The text ends in "บาทถ้วน" exactly when the fraction is "00"; otherwise it
      ends in "สตางค์" and not in "ถ้วน". */
  lemma {:induction false} AmountEnding(rule: TensOne, negative: bool, intDigits: string, frac: string)
    requires IsAmount(intDigits, frac)
    ensures EndsWith(AmountText(rule, negative, intDigits, frac), "บาทถ้วน") <==> frac == "00"
    ensures frac != "00" ==> EndsWith(AmountText(rule, negative, intDigits, frac), "สตางค์")
    ensures frac != "00" ==> !EndsWith(AmountText(rule, negative, intDigits, frac), "ถ้วน")
  {
    AmountShape(rule, negative, intDigits, frac);
    var head := Render(SignWords(negative) + IntegerWords(rule, intDigits));
    if frac == "00" {
      TuanEndingText(head);
    } else {
      SatangEnding(head + "บาท" + Render(TwoDigitWords(rule, frac)));
    }
  }

  /** Every part is free of "ล้าน". */
  predicate NoLan(parts: seq<seq<Word>>) {
    forall j :: 0 <= j < |parts| ==> Lan !in parts[j]
  }

  lemma {:induction false} JoinedSeparators(parts: seq<seq<Word>>)
    requires |parts| >= 1 && NoLan(parts)
    ensures multiset(Joined(parts))[Lan] == |parts| - 1
    decreases |parts|
  {
    if |parts| == 1 {
      assert multiset(parts[0])[Lan] == 0;
    } else {
      var init, last := parts[..|parts| - 1], parts[|parts| - 1];
      JoinedSeparators(init);
      assert multiset(last)[Lan] == 0;
      assert multiset(Joined(init) + [Lan] + last) == multiset(Joined(init)) + multiset([Lan]) + multiset(last);
    }
  }

  lemma {:induction false} JoinedNumberWords(parts: seq<seq<Word>>)
    requires forall j :: 0 <= j < |parts| ==> AllNumberWords(parts[j])
    ensures AllNumberWords(Joined(parts))
    decreases |parts|
  {
    if |parts| > 1 {
      JoinedNumberWords(parts[..|parts| - 1]);
    }
  }

  /** The integer reading only uses number words, and says "ล้าน" once
      between every two groups. */
  lemma {:induction false} IntegerWordsKinds(rule: TensOne, digits: string)
    ensures AllNumberWords(IntegerWords(rule, digits))
    ensures |digits| >= 1 ==> multiset(IntegerWords(rule, digits))[Lan] == |MillionGroups(digits)| - 1
  {
    var rs := Readings(rule, MillionGroups(digits));
    forall j | 0 <= j < |rs| ensures AllNumberWords(rs[j]) && Lan !in rs[j] {
      GroupWordsKinds(rule, MillionGroups(digits)[j]);
    }
    JoinedNumberWords(rs);
    if |digits| >= 1 {
      JoinedSeparators(rs);
    }
  }

  lemma {:induction false} SatangNoLan(rule: TensOne, frac: string)
    requires AllDigits(frac)
    ensures Lan !in SatangWords(rule, frac)
  {
    TwoDigitWordsKinds(rule, frac);
  }

  lemma {:induction false} LanCount(sign: seq<Word>, ints: seq<Word>, sat: seq<Word>)
    requires Lan !in sign && Lan !in sat
    ensures multiset(sign + (ints + [Baht] + sat))[Lan] == multiset(ints)[Lan]
  {
    assert multiset(sign + (ints + [Baht] + sat)) == multiset(sign) + multiset(ints) + multiset([Baht]) + multiset(sat);
  }

  /** `g` groups give `g - 1` separators "ล้าน", and nothing else in the text says "ล้าน". */
  lemma {:induction false} SeparatorCount(rule: TensOne, negative: bool, intDigits: string, frac: string)
    requires IsAmount(intDigits, frac)
    ensures multiset(AmountWords(rule, negative, intDigits, frac))[Lan] == |MillionGroups(intDigits)| - 1
    ensures |MillionGroups(intDigits)| - 1 == (|intDigits| - 1) / 6
  {
    IntegerWordsKinds(rule, intDigits);
    SatangNoLan(rule, frac);
    LanCount(SignWords(negative), IntegerWords(rule, intDigits), SatangWords(rule, frac));
  }

  // ---------------------------------------------------------------------------
  // The two variants over whole amounts

  /** Whether a group's reading has a tens digit '1'. */
  predicate HasTensOne(g: string) {
    2 <= |g| <= 6 && g[|g| - 2] == '1'
  }

  /** The number of groups, among the first `k`, whose tens digit is '1'. */
  function TensOneGroups(gs: seq<string>, k: nat): nat
    requires k <= |gs|
  {
    if k == 0 then 0 else TensOneGroups(gs, k - 1) + (if HasTensOne(gs[k - 1]) then 1 else 0)
  }

  /** The number of readings in an amount whose tens digit is '1'. */
  function TensOnes(intDigits: string, frac: string): nat {
    TensOneGroups(MillionGroups(intDigits), |MillionGroups(intDigits)|) +
    (if |frac| > 0 && frac[0] == '1' then 1 else 0)
  }

  lemma {:induction false} GroupVariants(g: string)
    requires AllDigits(g)
    ensures |GroupWords(Spoken, g)| == |GroupWords(Silent, g)| + (if HasTensOne(g) then 1 else 0)
    ensures !HasTensOne(g) ==> GroupWords(Spoken, g) == GroupWords(Silent, g)
  {
    if |g| == 2 {
      if g[0] == '1' { VariantsDiffer(g); } else { VariantsAgree(g); }
    } else if 3 <= |g| <= 6 {
      var pair := g[|g| - 2..];
      if pair[0] == '1' { VariantsDiffer(pair); } else { VariantsAgree(pair); }
    }
  }

  /** The total by which the parts of `a` are longer than those of `b`, over the first `k`. */
  function Surplus(a: seq<seq<Word>>, b: seq<seq<Word>>, k: nat): int
    requires k <= |a| == |b|
  {
    if k == 0 then 0 else Surplus(a, b, k - 1) + (|a[k - 1]| - |b[k - 1]|)
  }

  lemma {:induction false} JoinedSnoc(parts: seq<seq<Word>>, k: nat)
    requires 1 <= k < |parts|
    ensures Joined(parts[..k + 1]) == Joined(parts[..k]) + [Lan] + parts[k]
  {
    assert parts[..k + 1][..k] == parts[..k];
  }

  lemma {:induction false} JoinedLengths(a: seq<seq<Word>>, b: seq<seq<Word>>, k: nat)
    requires 1 <= k <= |a| == |b|
    ensures |Joined(a[..k])| == |Joined(b[..k])| + Surplus(a, b, k)
    decreases k
  {
    if k == 1 {
      assert a[..1] == [a[0]] && b[..1] == [b[0]];
    } else {
      JoinedLengths(a, b, k - 1);
      JoinedSnoc(a, k - 1);
      JoinedSnoc(b, k - 1);
    }
  }

  lemma {:induction false} SurplusTensOnes(gs: seq<string>, a: seq<seq<Word>>, b: seq<seq<Word>>, k: nat)
    requires k <= |gs| == |a| == |b|
    requires forall j :: 0 <= j < |gs| ==> |a[j]| == |b[j]| + (if HasTensOne(gs[j]) then 1 else 0)
    ensures Surplus(a, b, k) == TensOneGroups(gs, k)
    decreases k
  {
    if k > 0 {
      SurplusTensOnes(gs, a, b, k - 1);
    }
  }

  lemma {:induction false} NoTensOneGroups(gs: seq<string>, k: nat)
    requires k <= |gs| && TensOneGroups(gs, k) == 0
    ensures forall j :: 0 <= j < k ==> !HasTensOne(gs[j])
    decreases k
  {
    if k > 0 {
      NoTensOneGroups(gs, k - 1);
    }
  }

  /** The words of the integer part of the two variants. */
  lemma {:induction false} IntegerVariants(digits: string)
    requires |digits| >= 1 && AllDigits(digits)
    ensures |IntegerWords(Spoken, digits)| ==
            |IntegerWords(Silent, digits)| + TensOneGroups(MillionGroups(digits), |MillionGroups(digits)|)
    ensures TensOneGroups(MillionGroups(digits), |MillionGroups(digits)|) == 0 ==>
            IntegerWords(Spoken, digits) == IntegerWords(Silent, digits)
  {
    var gs := MillionGroups(digits);
    var a, b := Readings(Spoken, gs), Readings(Silent, gs);
    MillionGroupsDigits(digits);
    JoinedLengths(a, b, |gs|);
    forall j | 0 <= j < |gs| ensures |a[j]| == |b[j]| + (if HasTensOne(gs[j]) then 1 else 0) {
      GroupVariants(gs[j]);
    }
    SurplusTensOnes(gs, a, b, |gs|);
    assert a[..|gs|] == a && b[..|gs|] == b;
    if TensOneGroups(gs, |gs|) == 0 {
      NoTensOneGroups(gs, |gs|);
      forall j | 0 <= j < |gs| ensures a[j] == b[j] {
        GroupVariants(gs[j]);
      }
      assert a == b;
    }
  }

  /** The satang words of the two variants. */
  lemma {:induction false} SatangVariants(frac: string)
    requires |frac| == 2 && AllDigits(frac)
    ensures |SatangWords(Spoken, frac)| == |SatangWords(Silent, frac)| + (if frac[0] == '1' then 1 else 0)
    ensures frac[0] != '1' ==> SatangWords(Spoken, frac) == SatangWords(Silent, frac)
  {
    FracZero(frac);
    if frac[0] == '1' {
      VariantsDiffer(frac);
    } else {
      VariantsAgree(frac);
    }
  }

  /** The two source files write the same words for an amount exactly when no
      reading in it has a tens digit '1'; each such reading makes the second
      file's words one word longer. */
  lemma {:induction false} AmountVariants(negative: bool, intDigits: string, frac: string)
    requires IsAmount(intDigits, frac)
    ensures |AmountWords(Spoken, negative, intDigits, frac)| ==
            |AmountWords(Silent, negative, intDigits, frac)| + TensOnes(intDigits, frac)
    ensures AmountWords(Spoken, negative, intDigits, frac) == AmountWords(Silent, negative, intDigits, frac)
            <==> TensOnes(intDigits, frac) == 0
  {
    IntegerVariants(intDigits);
    SatangVariants(frac);
  }
}
