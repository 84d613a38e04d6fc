/** The converter itself, step by step as the source builds its text: the
    group splitter's push loop, the two-digit reader and the group converter
    appending to a growing string, and the amount converter's loop over the
    groups with its countdown of "ล้าน" separators. Each method is proved to
    build exactly the text of its reading in `Reading`. */
module Converter {
  import opened ThaiWords
  import opened Seqs
  import opened Reading

  // ---------------------------------------------------------------------------
  // Group splitter

  /** One round of the push loop: the chunk at `i` of the reversed digits,
      turned back around, is the group in front of the `i` digits already cut. */
  lemma {:induction false} SplitStep(s: string, i: nat)
    requires i < |s| && i % 6 == 0
    ensures var stop := if i + 6 > |s| then |s| else i + 6;
            var chunk := Reversed(Reversed(s)[i..stop]);
            MillionGroups(s[|s| - stop..]) == [chunk] + MillionGroups(s[|s| - i..])
  {
    var stop := if i + 6 > |s| then |s| else i + 6;
    var chunk := Reversed(Reversed(s)[i..stop]);
    var done := s[|s| - i..];
    ReversedSlice(s, i, stop);
    assert s[|s| - stop..] == chunk + done;
    PrependGroup(chunk, done);
  }

  /** The last `i` digits of `s`, or all of them once `i` passes the length. */
  function Cut(s: string, i: nat): string {
    s[|s| - (if i <= |s| then i else |s|)..]
  }

  /** The push loop's invariant is kept by one round. */
  lemma {:induction false} PushStep(s: string, i: nat, pushed: seq<string>, chunk: string)
    requires i < |s| && i == 6 * |pushed| && Reversed(pushed) == MillionGroups(Cut(s, i))
    requires chunk == Reversed(Reversed(s)[i..if i + 6 > |s| then |s| else i + 6])
    ensures Reversed(pushed + [chunk]) == MillionGroups(Cut(s, i + 6))
  {
    assert i % 6 == 0;
    SplitStep(s, i);
    ReversedSnoc(pushed, chunk);
  }

  /** Once the loop has passed the last digit, the groups are all of them. */
  lemma {:induction false} PushDone(s: string, i: nat, groups: seq<string>)
    requires |s| <= i && groups == MillionGroups(Cut(s, i))
    ensures groups == MillionGroups(s) && Flatten(groups) == s
  {
    assert Cut(s, i) == s;
    MillionGroupsFlatten(s);
  }

  /** Cuts the digits into groups of six from the right: reverses them, pushes
      each reversed chunk of six, and reverses the list. */
  method SplitMillionSequence(s: string) returns (groups: seq<string>)
    requires IsAscii(s)
    ensures groups == MillionGroups(s)
    ensures Flatten(groups) == s
  {
    var rev := Reversed(s);
    var pushed: seq<string> := [];
    var i := 0;
    while i < |rev|
      invariant i == 6 * |pushed| && i < |s| + 6
      invariant Reversed(pushed) == MillionGroups(Cut(s, i))
      decreases |rev| - i
    {
      var stop := i + 6;
      stop := if stop > |rev| then |rev| else stop;
      var chunk := Reversed(rev[i..stop]);
      PushStep(s, i, pushed, chunk);
      pushed := pushed + [chunk];
      i := i + 6;
    }
    groups := Reversed(pushed);
    PushDone(s, i, groups);
  }

  // ---------------------------------------------------------------------------
  // Two-digit reader

  /** The text of the word before "สิบ". */
  lemma {:induction false} TensDigitText(rule: TensOne, s: string)
    ensures Render(TensDigitWords(rule, s)) ==
            if |s| > 0 && s[0] == '2' then "ยี่"
            else if |s| > 0 && s[0] != '0' && (rule == Spoken || s[0] != '1') && IsDigit(s[0]) then DigitTexts[DigitOf(s[0])]
            else ""
  {
    var ws := TensDigitWords(rule, s);
    if ws != [] {
      RenderOne(ws[0]);
    }
  }

  lemma {:induction false} TensWordText(s: string)
    ensures Render(TensWord(s)) == if |s| > 0 && s[0] == '0' then "" else "สิบ"
  {
    RenderOne(Sip);
  }

  /** The text of the units word. */
  lemma {:induction false} UnitsText(s: string)
    ensures Render(UnitsWords(s)) ==
            if |s| < 2 || !IsDigit(s[1]) || s[1] == '0' then ""
            else if s[0] == '0' then DigitTexts[DigitOf(s[1])]
            else if s[1] == '1' then "เอ็ด"
            else DigitTexts[DigitOf(s[1])]
  {
    var ws := UnitsWords(s);
    if ws != [] {
      RenderOne(ws[0]);
    }
  }

  /** Reads a tens/units pair. A character is only looked up in the digit-word
      table when it is a decimal digit; any other character has no entry. */
  method ConvertSpecialTwoDigits(rule: TensOne, s: string) returns (text: string)
    ensures text == Render(TwoDigitWords(rule, s))
  {
    text := "";
    // the word before "สิบ"
    var tens :=
      if |s| > 0 && s[0] == '2' then "ยี่"
      else if |s| > 0 && s[0] != '0' && (rule == Spoken || s[0] != '1') && IsDigit(s[0]) then DigitTexts[DigitOf(s[0])]
      else "";
    text := text + tens;
    var sip := if |s| > 0 && s[0] == '0' then "" else "สิบ";
    text := text + sip;
    // the units word, for a second character that parses as a digit
    var units :=
      if |s| < 2 || !IsDigit(s[1]) || s[1] == '0' then ""
      else if s[0] == '0' then DigitTexts[DigitOf(s[1])]
      else if s[1] == '1' then "เอ็ด"
      else DigitTexts[DigitOf(s[1])];
    text := text + units;
    TensDigitText(rule, s);
    TensWordText(s);
    UnitsText(s);
    RenderThree(TensDigitWords(rule, s), TensWord(s), UnitsWords(s));
  }

  // ---------------------------------------------------------------------------
  // Group converter

  /** The text of one more leading digit. */
  lemma {:induction false} PositionText(g: string, i: nat)
    requires i < |g| <= 6 && LeadingDigits(g, i + 1)
    ensures g[i] == '0' ==> Render(LeadingWords(g, i + 1)) == Render(LeadingWords(g, i))
    ensures g[i] != '0' ==> Render(LeadingWords(g, i + 1)) ==
                            Render(LeadingWords(g, i)) + DigitTexts[DigitOf(g[i])] + Render(Multipliers[|g| - i - 1])
  {
    var m := Multipliers[|g| - i - 1];
    RenderConcat(LeadingWords(g, i), PositionWords(g, i));
    if g[i] != '0' {
      RenderPrepend(Num(DigitOf(g[i])), m);
    } else {
      assert LeadingWords(g, i + 1) == LeadingWords(g, i) + [];
    }
  }

  /** `texts[i]` is the text of the first `i` leading positions of `g`: each
      position adds nothing for a '0' and otherwise its digit word and its
      multiplier. The step is only stated for a position whose digit is in
      view and whose leading digits are all digits. */
  predicate LeadingTexts(g: string, texts: seq<string>)
    requires 3 <= |g| <= 6
  {
    && |texts| == |g| - 1
    && texts[0] == ""
    && forall i {:trigger DigitOf(g[i])} :: 0 <= i < |g| - 2 && LeadingDigits(g, i + 1) ==>
         texts[i + 1] == if g[i] == '0' then texts[i] else texts[i] + DigitTexts[DigitOf(g[i])] + Render(Multipliers[|g| - i - 1])
  }

  lemma {:induction false} GroupLeadingTexts(g: string) returns (texts: seq<string>)
    requires 3 <= |g| <= 6
    ensures LeadingTexts(g, texts)
    ensures LeadingDigits(g, |g| - 2) ==> texts[|g| - 2] == Render(LeadingWords(g, |g| - 2))
  {
    texts := seq(|g| - 1, i requires 0 <= i < |g| - 1 => if LeadingDigits(g, i) then Render(LeadingWords(g, i)) else "");
    forall i | 0 <= i < |g| - 2 && LeadingDigits(g, i + 1)
      ensures texts[i + 1] == if g[i] == '0' then texts[i] else texts[i] + DigitTexts[DigitOf(g[i])] + Render(Multipliers[|g| - i - 1])
    {
      PositionText(g, i);
    }
  }

  /** The text of a group's reading, case by case. */
  lemma {:induction false} GroupText(rule: TensOne, g: string)
    ensures |g| == 1 ==> Render(GroupWords(rule, g)) == if IsDigit(g[0]) then DigitTexts[DigitOf(g[0])] else ""
    ensures |g| == 2 ==> GroupWords(rule, g) == TwoDigitWords(rule, g)
    ensures 3 <= |g| <= 6 && !LeadingDigits(g, |g| - 2) ==> Render(GroupWords(rule, g)) == ""
    ensures 3 <= |g| <= 6 && LeadingDigits(g, |g| - 2) ==>
            Render(GroupWords(rule, g)) == Render(LeadingWords(g, |g| - 2)) + Render(TwoDigitWords(rule, g[|g| - 2..]))
    ensures |g| == 0 || |g| > 6 ==> Render(GroupWords(rule, g)) == ""
  {
    if |g| == 1 && IsDigit(g[0]) {
      RenderOne(Num(DigitOf(g[0])));
    } else if 3 <= |g| <= 6 && LeadingDigits(g, |g| - 2) {
      RenderConcat(LeadingWords(g, |g| - 2), TwoDigitWords(rule, g[|g| - 2..]));
    }
  }

  /** Reads one group: a single digit word, a pair, or leading digits with
      their multipliers followed by the pair; a non-digit leading character
      gives the empty text, any other length the empty text too. */
  method ConvertMultipleMillions(rule: TensOne, g: string) returns (text: string)
    requires IsAscii(g)
    ensures text == Render(GroupWords(rule, g))
  {
    GroupText(rule, g);
    text := "";
    if |g| == 1 {
      if IsDigit(g[0]) {
        text := text + DigitTexts[DigitOf(g[0])];
      }
    } else if |g| == 2 {
      text := ConvertSpecialTwoDigits(rule, g);
    } else if 3 <= |g| <= 6 {
      ghost var texts := GroupLeadingTexts(g);
      var index := 0;
      while index < |g| - 2
        invariant 0 <= index <= |g| - 2
        invariant LeadingDigits(g, index)
        invariant text == texts[index]
      {
        if !IsDigit(g[index]) {
          assert !LeadingDigits(g, |g| - 2);
          text := "";
          return;
        }
        var digit := DigitOf(g[index]);
        if digit != 0 {
          text := text + DigitTexts[digit];
          text := text + Render(Multipliers[|g| - index - 1]);
        }
        index := index + 1;
      }
      var pair := ConvertSpecialTwoDigits(rule, g[|g| - 2..]);
      text := text + pair;
    }
  }

  // ---------------------------------------------------------------------------
  // Amount converter

  /** The words written after the first `k` groups: each reading, followed
      by "ล้าน" unless it is the last one. */
  function Emitted(parts: seq<seq<Word>>, k: nat): seq<Word>
    requires k <= |parts|
  {
    if k == 0 then []
    else if k < |parts| then Emitted(parts, k - 1) + parts[k - 1] + [Lan]
    else Emitted(parts, k - 1) + parts[k - 1]
  }

  /** The words emitted so far are the readings joined so far, and the
      separator after them unless they are all the groups. */
  lemma {:induction false} EmittedJoined(parts: seq<seq<Word>>, k: nat)
    requires 1 <= k <= |parts|
    ensures k < |parts| ==> Emitted(parts, k) == Joined(parts[..k]) + [Lan]
    ensures k == |parts| ==> Emitted(parts, k) == Joined(parts[..k])
  {
    if k == 1 {
      assert parts[..1] == [parts[0]];
    } else {
      EmittedJoined(parts, k - 1);
      JoinedSnoc(parts, k - 1);
    }
  }

  /** The text of one more group after the groups before it. */
  lemma {:induction false} EmittedText(parts: seq<seq<Word>>, k: nat)
    requires k < |parts|
    ensures k + 1 < |parts| ==>
            Render(Emitted(parts, k + 1)) == Render(Emitted(parts, k)) + Render(parts[k]) + "ล้าน"
    ensures k + 1 == |parts| ==>
            Render(Emitted(parts, k + 1)) == Render(Emitted(parts, k)) + Render(parts[k])
  {
    var before := Emitted(parts, k);
    RenderConcat(before, parts[k]);
    if k + 1 < |parts| {
      RenderSnoc(before + parts[k], Lan);
    }
  }

  /** `texts` holds the text of each group's reading. The link is only made
      for a group whose reading is in view. */
  predicate ReadsAs(rule: TensOne, groups: seq<string>, texts: seq<string>) {
    && |texts| == |groups|
    && forall j {:trigger GroupWords(rule, groups[j])} :: 0 <= j < |groups| ==> texts[j] == Render(GroupWords(rule, groups[j]))
  }

  lemma GroupTexts(rule: TensOne, groups: seq<string>) returns (texts: seq<string>)
    ensures ReadsAs(rule, groups, texts)
  {
    texts := seq(|groups|, j requires 0 <= j < |groups| => Render(GroupWords(rule, groups[j])));
  }

  /** The text after the first `k` groups: each group's text, followed by
      "ล้าน" unless it is the last group. */
  function Written(texts: seq<string>, k: nat): string
    requires k <= |texts|
  {
    if k == 0 then ""
    else if k < |texts| then Written(texts, k - 1) + texts[k - 1] + "ล้าน"
    else Written(texts, k - 1) + texts[k - 1]
  }

  /** One more group of the loop. */
  lemma {:induction false} WrittenStep(texts: seq<string>, k: nat, text: string, words: string)
    requires k < |texts| && text == Written(texts, k) && words == texts[k]
    ensures k + 1 < |texts| ==> text + words + "ล้าน" == Written(texts, k + 1)
    ensures k + 1 == |texts| ==> text + words == Written(texts, k + 1)
  {
  }

  lemma {:induction false} WrittenWordsStep(parts: seq<seq<Word>>, texts: seq<string>, k: nat)
    requires k < |parts| == |texts|
    requires Written(texts, k) == Render(Emitted(parts, k)) && texts[k] == Render(parts[k])
    ensures Written(texts, k + 1) == Render(Emitted(parts, k + 1))
  {
    EmittedText(parts, k);
  }

  lemma {:induction false} WrittenWords(parts: seq<seq<Word>>, texts: seq<string>, k: nat)
    requires k <= |parts| == |texts|
    requires forall j {:trigger Render(parts[j])} :: 0 <= j < |parts| ==> texts[j] == Render(parts[j])
    ensures Written(texts, k) == Render(Emitted(parts, k))
  {
    if k > 0 {
      WrittenWords(parts, texts, k - 1);
      WrittenWordsStep(parts, texts, k - 1);
    }
  }

  /** After the last group, the text written is that of all the readings
      joined by "ล้าน". */
  lemma {:induction false} WrittenAll(rule: TensOne, groups: seq<string>, texts: seq<string>)
    requires |groups| >= 1 && ReadsAs(rule, groups, texts)
    ensures Written(texts, |groups|) == Render(Joined(Readings(rule, groups)))
  {
    var parts := Readings(rule, groups);
    forall j | 0 <= j < |parts|
      ensures texts[j] == Render(parts[j])
    {
      assert parts[j] == GroupWords(rule, groups[j]);
    }
    WrittenWords(parts, texts, |groups|);
    EmittedJoined(parts, |parts|);
    assert parts[..|parts|] == parts;
  }

  /** The loop over the groups: each group's reading, followed by "ล้าน" while
      the countdown of remaining groups is positive. */
  method ConvertGroups(rule: TensOne, groups: seq<string>) returns (text: string)
    requires |groups| >= 1
    requires forall j :: 0 <= j < |groups| ==> AllDigits(groups[j])
    ensures text == Render(Joined(Readings(rule, groups)))
  {
    ghost var texts := GroupTexts(rule, groups);
    text := "";
    var millionIndex := |groups| - 1;
    var k := 0;
    while k < |groups|
      invariant 0 <= k <= |groups|
      invariant millionIndex == if k < |groups| then |groups| - 1 - k else 0
      invariant text == Written(texts, k)
    {
      DigitsAreAscii(groups[k]);
      var words := ConvertMultipleMillions(rule, groups[k]);
      WrittenStep(texts, k, text, words);
      text := text + words;
      if millionIndex > 0 {
        text := text + "ล้าน";
        millionIndex := millionIndex - 1;
      }
      k := k + 1;
    }
    WrittenAll(rule, groups, texts);
  }

  /** The text of the sign in front of the integer reading. */
  lemma {:induction false} SignText(negative: bool, ints: seq<Word>)
    ensures Render(SignWords(negative) + ints) == (if negative then "ลบ" else "") + Render(ints)
  {
    RenderConcat(SignWords(negative), ints);
    RenderOne(Lop);
  }

  /** Converts an amount, given as its sign and its decimal text: "ลบ" when
      negative, each group's reading followed by "ล้าน" while the countdown of
      remaining groups is positive, "บาท", then "ถ้วน" when the fraction is
      worth nothing and otherwise the pair's reading and "สตางค์". */
  method BahtText(rule: TensOne, negative: bool, intDigits: string, frac: string) returns (text: string)
    requires IsAmount(intDigits, frac)
    ensures text == AmountText(rule, negative, intDigits, frac)
  {
    text := if negative then "ลบ" else "";
    DigitsAreAscii(intDigits);
    var groups := SplitMillionSequence(intDigits);
    MillionGroupsDigits(intDigits);
    var integerText := ConvertGroups(rule, groups);
    SignText(negative, IntegerWords(rule, intDigits));
    text := text + integerText;
    AmountShape(rule, negative, intDigits, frac);
    FracZero(frac);
    text := text + "บาท";
    if DigitsValue(frac) == 0 {
      text := text + "ถ้วน";
    } else {
      var satang := ConvertSpecialTwoDigits(rule, frac);
      text := text + satang + "สตางค์";
    }
  }
}
