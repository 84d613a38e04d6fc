/** The two fixed word tables of the converter and the words it writes.

    Words are kept as tokens; `Render` turns a token sequence into the Thai
    text, so every text the converter builds is `Render` of a word sequence. */
module ThaiWords {
  import opened Seqs

  /** A decimal digit value. */
  type DigitValue = d: nat | d < 10

  /** Every word the converter ever writes. `Num(d)` is the entry of the
      digit-word table for `d`; `Sip` .. `Lan` are the multiplier words
      (ten, hundred, thousand, ten-thousand, hundred-thousand, million). */
  datatype Word =
    | Num(d: DigitValue)
    | Yii       // ยี่: the tens digit 2
    | Et        // เอ็ด: a units 1 after a nonzero tens digit
    | Sip | Roi | Phan | Muen | Saen | Lan
    | Lop       // ลบ: minus
    | Baht      // บาท
    | Tuan      // ถ้วน: "exactly", no satang
    | Satang    // สตางค์

  /** The digit-word table, indexed by digit value. */
  const DigitTexts: seq<string> :=
    ["ศูนย์", "หนึ่ง", "สอง", "สาม", "สี่", "ห้า", "หก", "เจ็ด", "แปด", "เก้า"]

  /** The multiplier list, indexed by the distance of a digit from the end of
      its group; entry 0 is the empty word. */
  const Multipliers: seq<seq<Word>> :=
    [[], [Sip], [Roi], [Phan], [Muen], [Saen], [Lan]]

  /** The digit-word table has one entry per digit, and no two digits share
      a word, so a digit word names its digit. */
  lemma DigitTable()
    ensures |DigitTexts| == 10
    ensures forall d :: 0 <= d < 10 ==> |DigitTexts[d]| > 0
    ensures forall d, e :: 0 <= d < e < 10 ==> DigitTexts[d] != DigitTexts[e]
  {
  }

  /** The multiplier list: nothing for the units place, then one multiplier
      word each for the places ten to million, all different. */
  lemma MultiplierTable()
    ensures |Multipliers| == 7 && Multipliers[0] == []
    ensures forall m :: 1 <= m < 7 ==> |Multipliers[m]| == 1 && IsNumberWord(Multipliers[m][0])
    ensures forall m, n :: 1 <= m < n < 7 ==> Multipliers[m][0] != Multipliers[n][0]
    ensures WordText(Multipliers[1][0]) == "สิบ" && WordText(Multipliers[6][0]) == "ล้าน"
  {
  }

  /** Words that say (part of) a number, as opposed to sign and currency words. */
  predicate IsNumberWord(w: Word) {
    !(w.Lop? || w.Baht? || w.Tuan? || w.Satang?)
  }

  predicate AllNumberWords(ws: seq<Word>) {
    forall w :: w in ws ==> IsNumberWord(w)
  }

  function WordText(w: Word): string {
    match w
    case Num(d) => DigitTexts[d]
    case Yii => "ยี่"
    case Et => "เอ็ด"
    case Sip => "สิบ"
    case Roi => "ร้อย"
    case Phan => "พัน"
    case Muen => "หมื่น"
    case Saen => "แสน"
    case Lan => "ล้าน"
    case Lop => "ลบ"
    case Baht => "บาท"
    case Tuan => "ถ้วน"
    case Satang => "สตางค์"
  }

  /** The text of a word sequence: the texts of its words, in order. */
  function Render(ws: seq<Word>): string {
    FlatMap(WordText, ws)
  }

  /** Appending one word appends its text. */
  lemma RenderSnoc(ws: seq<Word>, w: Word)
    ensures Render(ws + [w]) == Render(ws) + WordText(w)
  {
    assert (ws + [w])[..|ws|] == ws;
  }

  lemma RenderConcat(a: seq<Word>, b: seq<Word>)
    ensures Render(a + b) == Render(a) + Render(b)
  {
    FlatMapConcat(WordText, a, b);
  }

  lemma RenderOne(w: Word)
    ensures Render([w]) == WordText(w)
  {
    RenderSnoc([], w);
    assert [] + [w] == [w];
  }

  lemma {:induction false} RenderThree(a: seq<Word>, b: seq<Word>, c: seq<Word>)
    ensures Render(a + b + c) == Render(a) + Render(b) + Render(c)
  {
    RenderConcat(a + b, c);
    RenderConcat(a, b);
  }

  lemma {:induction false} RenderPrepend(w: Word, ws: seq<Word>)
    ensures Render([w] + ws) == WordText(w) + Render(ws)
  {
    RenderConcat([w], ws);
    RenderOne(w);
  }

  /** An ASCII decimal digit, the only characters Rust's integer parser and
      the digit-word table accept. */
  predicate IsDigit(c: char) {
    '0' <= c <= '9'
  }

  function DigitOf(c: char): DigitValue
    requires IsDigit(c)
  {
    c as int - '0' as int
  }

  predicate AllDigits(s: string) {
    forall i :: 0 <= i < |s| ==> IsDigit(s[i])
  }

  predicate IsAscii(s: string) {
    forall i :: 0 <= i < |s| ==> s[i] as int < 128
  }

  lemma {:induction false} DigitsAreAscii(s: string)
    requires AllDigits(s)
    ensures IsAscii(s)
  {
  }

  function Pow10(n: nat): (p: nat)
    ensures p >= 1
  {
    if n == 0 then 1 else 10 * Pow10(n - 1)
  }

  /** The number a string of decimal digits stands for. */
  function DigitsValue(s: string): nat
    requires AllDigits(s)
  {
    if s == [] then 0 else DigitsValue(s[..|s| - 1]) * 10 + DigitOf(s[|s| - 1])
  }

  lemma {:induction false} DigitsValueConcat(a: string, b: string)
    requires AllDigits(a) && AllDigits(b)
    ensures AllDigits(a + b)
    ensures DigitsValue(a + b) == DigitsValue(a) * Pow10(|b|) + DigitsValue(b)
    decreases |b|
  {
    if b == [] {
      assert a + b == a;
    } else {
      var b' := b[..|b| - 1];
      assert (a + b)[..|a + b| - 1] == a + b';
      DigitsValueConcat(a, b');
      assert DigitsValue(a + b) == DigitsValue(a + b') * 10 + DigitOf(b[|b| - 1]);
      assert DigitsValue(b) == DigitsValue(b') * 10 + DigitOf(b[|b| - 1]);
      ShiftStep(DigitsValue(a), Pow10(|b'|), DigitsValue(b'), DigitOf(b[|b| - 1]));
    }
  }

  lemma ShiftStep(x: nat, p: nat, y: nat, d: nat)
    ensures (x * p + y) * 10 + d == x * (p * 10) + (y * 10 + d)
  {
  }

  /** A digit string is worth nothing exactly when all its digits are '0'. */
  lemma {:induction false} DigitsValueZero(s: string)
    requires AllDigits(s)
    ensures DigitsValue(s) == 0 <==> forall i :: 0 <= i < |s| ==> s[i] == '0'
    decreases |s|
  {
    if s != [] {
      var s' := s[..|s| - 1];
      DigitsValueZero(s');
      assert forall i :: 0 <= i < |s'| ==> s'[i] == s[i];
    }
  }
}
