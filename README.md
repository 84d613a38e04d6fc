# Thai baht text, modelled in Dafny

rustBahtText turns a currency amount into the Thai words written on
cheques. The integer baht part is read in groups of six digits, with
"ล้าน" (million) between each group and the next. Then comes "บาท", and
then either "ถ้วน" ("exactly") or the two satang digits followed by
"สตางค์".

The model covers the four routines of `src/lib.rs`: `split_million_sequence`,
`convert_special_two_digits`, `convert_multiple_millions` and `baht_text`.
It also covers the two word tables they read. The same four routines in
`src/baht_text/baht_text.rs` are a near copy. Only one rule differs: how
`convert_special_two_digits` reads a tens digit of '1'.

- `src/lib.rs` says "สิบ", so 11 is "สิบเอ็ด".
- `baht_text.rs` says "หนึ่งสิบ", so 11 is "หนึ่งสิบเอ็ด".

The shared algorithm is written once, with a parameter `TensOne`:
`Silent` is `src/lib.rs` and `Spoken` is `baht_text.rs`. `src/lib.rs` does
not declare `mod baht_text`, so that file is not compiled into the crate.
The model follows that file's code just as it follows `src/lib.rs`.

Layout:

- `seqs.dfy` (`Seqs`): reversal, the same as Rust's `.rev().collect()`;
  flattening; and a generic flat map.
- `thai_words.dfy` (`ThaiWords`):
  - the word tokens the converter writes;
  - the digit-word table and the multiplier list;
  - `Render`, which turns tokens into the Thai text;
  - decimal digit strings and their values.
- `reading.dfy` (`Reading`): the specification, as word sequences:
  - `MillionGroups`, the group splitter;
  - `TwoDigitWords`, the two-digit reader;
  - `GroupWords`, the group converter;
  - `AmountWords` / `AmountText`, the whole amount.

  It also holds the structural lemmas: groups, separators, endings, the
  sign, and how the two variants compare.
- `meaning.dfy` (`Meaning`): an independent reader of the words. It hears
  them one by one, the way a Thai reader adds up digit words and
  multipliers, and gives back a number and an amount. Its main lemmas are
  these:
  - every group and every integer part reads back as the value of its
    digits;
  - the whole amount reads back as its sign, baht and satang;
  - so two amounts with the same words have the same value.
- `converter.dfy` (`Converter`): the imperative routines:
  - `SplitMillionSequence` pushes chunks in a `step_by(6)` loop and
    reverses the result;
  - `ConvertSpecialTwoDigits` and `ConvertMultipleMillions` append to a
    mutable string; the latter keeps its early return;
  - `BahtText` runs the group loop with the `million_index` countdown;
  - each one is proved to return exactly its specification: `MillionGroups`,
    or `Render` of the words.
- `tests.dfy` (`Examples`): amounts from the source's unit tests, worked
  out in the model.
- `findings.dfy` (`Findings`): what the code as written does with the
  float -0.0, and the corrected reading (see "## Findings").

The input is the amount as already-formatted decimal text:

- a sign flag;
- a non-empty string of ASCII digits for the integer part;
- exactly two fraction digits.

## Model

| member | source | states |
|---|---|---|
| `ThaiWords.DigitTable` | src/lib.rs:4-17 | the digit table (`DigitTexts`, ศูนย์ .. เก้า): one entry per digit, each non-empty, no two alike |
| `ThaiWords.MultiplierTable` | src/lib.rs:21-22 | the multiplier list (`Multipliers`): the empty word for the units place, then one word each, all different, from "สิบ" for tens to "ล้าน" for millions |
| `ThaiWords.DigitsValueZero` | src/lib.rs:138 | a digit string is worth zero exactly when every digit is '0' |
| `Reading.MillionGroups` | src/lib.rs:25-36 | an input of n digits is cut into ceil(n/6) groups |
| `Reading.MillionGroupsShape` | src/lib.rs:26-35 | every group has 1 to 6 digits, and every group after the first (most significant) one has exactly 6 |
| `Reading.MillionGroupsFlatten` | src/lib.rs:25-36 | the groups, concatenated in order, give back the input exactly |
| `Reading.MillionSplitUnique` | src/lib.rs:25-36 | any cut into 1–6-digit groups that flattens to the input and has only its first group short is the splitter's: the splitter is determined by these properties |
| `Reading.MillionGroupsDigits` | src/lib.rs:121 | the groups of a digit string are all digit strings |
| `Reading.TwoDigitWords` | src/lib.rs:38-74 | the reading of a tens/units pair, in three steps: tens word or "ยี่", then "สิบ", then the units word or "เอ็ด"; `TensOne` chooses line 44's rule (baht_text.rs:44 for `Spoken`) |
| `Reading.TwoDigitRules` | src/lib.rs:41-69 | the reading of every digit pair: "00" is silent; "0u" is the units word alone; tens '1' is "สิบ" then the units reading (Silent), or "หนึ่งสิบ" then the units reading (Spoken); tens '2' is "ยี่สิบ"; any other tens digit is its word then "สิบ"; after a nonzero tens digit the units '1' is "เอ็ด", '0' silent, else its word |
| `Reading.OneWordIff` | src/lib.rs:43-64 | "หนึ่ง" appears in a pair's reading exactly when the pair is "01", or in the Spoken variant when the tens digit is '1'; a units '1' after a nonzero tens digit always ends in "เอ็ด" |
| `Reading.VariantsAgree` | src/baht_text/baht_text.rs:41-53 | the two variants read every string whose first character is not '1' the same |
| `Reading.VariantsDiffer` | src/baht_text/baht_text.rs:43-47 | on a string whose first character is '1' the Spoken reading is "หนึ่ง" followed by the Silent one, so the two always differ |
| `Reading.TwoDigitWordsKinds` | src/lib.rs:38-74 | the two-digit reader writes only number words and never "ล้าน" |
| `Reading.GroupWords` | src/lib.rs:76-105 | the reading of one group by length: a digit word, the two-digit reading, or the leading digits with their multipliers followed by the two-digit reading of the last two; otherwise nothing |
| `Reading.GroupEdgeCases` | src/lib.rs:80-104 | a group of length 0 or more than 6 reads as nothing; "0" reads as "ศูนย์"; a non-digit among the leading digits of a 3–6-digit group makes the whole group read as nothing |
| `Reading.ZeroPositionSilent` | src/lib.rs:87-96 | a '0' at any leading position of any group adds no words |
| `Reading.LeadingZerosSilent` | src/lib.rs:87-96 | the leading digits of an all-zero group say nothing |
| `Reading.TwoDigitZeros` | src/lib.rs:51-58 | the pair "00" reads as nothing in both variants |
| `Reading.LongZeroGroupSilent` | src/lib.rs:86-101 | an all-zero group of 3 to 6 digits reads as nothing |
| `Reading.ZeroGroupSilent` | src/lib.rs:84-101 | an all-zero group of 2 to 6 digits reads as nothing |
| `Reading.PositionWordsKinds` | src/lib.rs:89-95 | the words for one leading digit are number words and never "ล้าน" |
| `Reading.LeadingWordsKinds` | src/lib.rs:87-100 | the words for the leading digits are number words and never "ล้าน" |
| `Reading.GroupWordsKinds` | src/lib.rs:76-105 | a group's reading is made of number words only and holds no "ล้าน" |
| `Reading.AmountWords` | src/lib.rs:107-151 | the words of an amount: "ลบ" when negative, the group readings joined by "ล้าน", "บาท", then "ถ้วน" or the satang reading and "สตางค์" |
| `Reading.AmountText` | src/lib.rs:107-151 | the text of an amount: the rendering of its words |
| `Reading.FracZero` | src/lib.rs:137-138 | two fraction digits are worth zero exactly when they are "00" |
| `Reading.NegativePrefix` | src/lib.rs:110-113 | the text of a negative amount is "ลบ" followed by exactly the text of the same amount unsigned |
| `Reading.SignedText` | src/lib.rs:110-113 | rendering puts "ลบ" in front when the sign word is present |
| `Reading.AmountShape` | src/lib.rs:121-148 | the text is the sign, the integer reading, "บาท", then "ถ้วน" when the fraction is "00" and otherwise the two-digit reading of the fraction and "สตางค์" |
| `Reading.SatangText` | src/lib.rs:136-148 | the satang part renders as "ถ้วน" for "00" and as the two-digit reading plus "สตางค์" otherwise |
| `Reading.TuanText` | src/lib.rs:134-139 | "บาท" then "ถ้วน" appended to any words renders as the words' text followed by "บาทถ้วน" |
| `Reading.SatangTailText` | src/lib.rs:134-147 | "บาท", a reading, then "สตางค์" appended to any words renders as those texts in order |
| `Reading.TuanEndingText` | src/lib.rs:134-139 | any text followed by "บาท" and "ถ้วน" ends in "บาทถ้วน" |
| `Reading.SatangEnding` | src/lib.rs:147 | a text ending in "สตางค์" does not end in "ถ้วน" or "บาทถ้วน" |
| `Reading.AmountEnding` | src/lib.rs:134-148 | the text ends in "บาทถ้วน" exactly when the fraction is "00"; otherwise it ends in "สตางค์" and not in "ถ้วน" |
| `Reading.JoinedSeparators` | src/lib.rs:125-132 | joining g parts that hold no "ล้าน" puts in exactly g − 1 "ล้าน" |
| `Reading.JoinedNumberWords` | src/lib.rs:125-132 | joining parts made of number words gives number words |
| `Reading.IntegerWordsKinds` | src/lib.rs:121-132 | the integer reading is made of number words and holds exactly one "ล้าน" less than there are groups |
| `Reading.SatangNoLan` | src/lib.rs:136-148 | the satang part holds no "ล้าน" |
| `Reading.LanCount` | src/lib.rs:121-148 | the sign, "บาท" and the satang part add no "ล้าน" to the integer reading's |
| `Reading.SeparatorCount` | src/lib.rs:121-148 | the words of an amount hold exactly g − 1 "ล้าน" for g groups, and g − 1 is (n − 1) / 6 for n integer digits |
| `Reading.GroupVariants` | src/baht_text/baht_text.rs:74-101 | a group reads the same in both variants unless its tens digit is '1', where the Spoken reading has exactly one word more |
| `Reading.JoinedSnoc` | src/lib.rs:125-132 | joining one more part adds "ล้าน" and that part |
| `Reading.JoinedLengths` | src/lib.rs:125-132 | the lengths of two joins of equally many parts differ by the sum of the parts' differences |
| `Reading.SurplusTensOnes` | src/baht_text/baht_text.rs:118-129 | when each group's Spoken reading is one word longer exactly for the groups with tens digit '1', the total surplus is the number of such groups |
| `Reading.NoTensOneGroups` | src/baht_text/baht_text.rs:118-129 | no group counted with tens digit '1' means no group has one |
| `Reading.IntegerVariants` | src/baht_text/baht_text.rs:118-129 | the Spoken integer reading is longer than the Silent one by the number of groups with tens digit '1', and equal to it when there are none |
| `Reading.SatangVariants` | src/baht_text/baht_text.rs:133-145 | the Spoken satang reading has one word more exactly when the first fraction digit is '1', and is otherwise the same |
| `Reading.AmountVariants` | src/baht_text/baht_text.rs:104-148 | the two variants' words for an amount differ in length by the number of '1' tens digits, and are equal exactly when there is none |
| `Meaning.TwoDigitDenotes` | src/lib.rs:38-74 | the two-digit reading of any digit pair, in either variant, reads back as the pair's value |
| `Meaning.PositionDenotes` | src/lib.rs:89-95 | a nonzero leading digit's word and multiplier "ร้อย" .. "แสน" add the digit times its place value; a zero adds nothing |
| `Meaning.LeadingDenotes` | src/lib.rs:87-100 | the leading digits' words add the sum of each digit times its place value |
| `Meaning.LongGroupDenotes` | src/lib.rs:86-101 | the reading of a 3–6-digit group reads back as the group's value |
| `Meaning.GroupDenotes` | src/lib.rs:76-105 | the reading of any 1–6-digit group, in either variant, reads back as the group's value |
| `Meaning.IntegerWordsSnoc` | src/lib.rs:121-132 | the integer reading of more than six digits is the reading of all but the last six, "ล้าน", and the last group's reading |
| `Meaning.AfterLan` | src/lib.rs:128-130 | words followed by "ล้าน" and a six-digit group read as the words' number times a million plus the group's value |
| `Meaning.ShortIntegerDenotes` | src/lib.rs:121-132 | the integer reading of at most six digits reads back as their value |
| `Meaning.IntegerDenotes` | src/lib.rs:121-132 | the integer reading of any non-empty digit string reads back as its value: the words with their "ล้าน" separators say the number |
| `Meaning.FirstBahtAfter` | src/lib.rs:134 | when only number words come before "บาท", the first "บาท" is right after them |
| `Meaning.ReadParts` | src/lib.rs:107-148 | reading back sign words, number words, "บาท" and a satang part gives the sign, the number and what the satang part reads as |
| `Meaning.SatangReads` | src/lib.rs:136-148 | the satang part reads back as the fraction's value ("ถ้วน" as zero) |
| `Meaning.AmountRoundTrip` | src/lib.rs:107-151 | the words of every amount read back as its sign, baht value and satang value, in both variants |
| `Meaning.AmountWordsDistinguish` | src/lib.rs:107-151 | two amounts with the same words have the same sign, baht value and satang value |
| `Converter.SplitStep` | src/lib.rs:29-33 | one round of the push loop puts the next chunk in front of the groups of the part of the input seen so far |
| `Converter.PushStep` | src/lib.rs:29-33 | the push loop's invariant survives one round: the pushed chunks, reversed, are the groups of the input's last i characters |
| `Converter.PushDone` | src/lib.rs:35 | when the loop ends, the reversed chunks are the groups of the whole input and flatten back to it |
| `Converter.SplitMillionSequence` | src/lib.rs:25-36 | the push loop followed by the final reversal returns exactly the groups, which flatten back to the input |
| `Converter.TensDigitText` | src/lib.rs:41-49 | the first step writes "ยี่" for tens '2', nothing for tens '0', nothing for tens '1' in the Silent variant, the digit word otherwise, and nothing for a non-digit |
| `Converter.TensWordText` | src/lib.rs:51-53 | the second step writes "สิบ" unless the first character is '0' |
| `Converter.UnitsText` | src/lib.rs:55-69 | the third step writes nothing for a missing, non-digit or '0' units character, the digit word after a tens '0', "เอ็ด" for '1', else the digit word |
| `Converter.ConvertSpecialTwoDigits` | src/lib.rs:38-74 | the imperative reader writes exactly the text of the two-digit reading, in the variant given |
| `Converter.PositionText` | src/lib.rs:87-96 | one round of the leading-digit loop adds nothing for '0' and otherwise the digit word and multiplier number (length − index − 1) |
| `Converter.GroupLeadingTexts` | src/lib.rs:87-100 | the texts the leading-digit loop builds, round by round, are the texts of the leading words |
| `Converter.GroupText` | src/lib.rs:76-105 | a group's text by length: one digit is its word; two digits are the two-digit reading; 3–6 characters are the leading words then the reading of the last two, or nothing when a leading character is not a digit; other lengths are nothing |
| `Converter.ConvertMultipleMillions` | src/lib.rs:76-105 | the imperative group converter, early return included, writes exactly the text of the group's reading |
| `Converter.EmittedJoined` | src/lib.rs:125-132 | after k rounds of the group loop the words written are the first k readings joined, plus a "ล้าน" when groups remain |
| `Converter.EmittedText` | src/lib.rs:125-132 | each round of the group loop appends the group's text and, except after the last group, "ล้าน" |
| `Converter.WrittenWords` | src/lib.rs:123-132 | the text the countdown loop has written after k rounds is the text of the words emitted so far |
| `Converter.WrittenAll` | src/lib.rs:123-132 | after all rounds it is the text of the joined readings |
| `Converter.ConvertGroups` | src/lib.rs:123-132 | the group loop with its `million_index` countdown writes exactly the text of the readings joined by "ล้าน" |
| `Converter.SignText` | src/lib.rs:110-113 | the sign step writes "ลบ" for a negative amount and nothing otherwise |
| `Converter.BahtText` | src/lib.rs:107-151 | the imperative converter writes exactly the amount's text: sign, groups with "ล้าน", "บาท", then "ถ้วน" or the satang reading and "สตางค์" |
| `Examples.HundredBaht25` | src/lib.rs:155-157 | 100.25 reads as หนึ่ง ร้อย บาท ยี่ สิบ ห้า สตางค์, the same in both variants |
| `Examples.HundredBaht25Text` | src/baht_text/baht_text.rs:154-156 | the text of 100.25 is "หนึ่งร้อยบาทยี่สิบห้าสตางค์" in both variants, the value both files test |
| `Examples.ZeroBaht` | src/lib.rs:168-169 | 0.00 reads as ศูนย์ บาท ถ้วน |
| `Examples.ElevenBaht` | src/lib.rs:198-199 | 11.00 reads as สิบ เอ็ด บาท ถ้วน in `src/lib.rs`, and with a leading หนึ่ง in `baht_text.rs` |
| `Examples.OneBahtOneSatang` | src/lib.rs:217-218 | 1.01 reads as หนึ่ง บาท หนึ่ง สตางค์ |
| `Examples.TwoHundredOne` | src/lib.rs:241-242 | 201.00 reads as สอง ร้อย หนึ่ง บาท ถ้วน |
| `Examples.MinusOneMillion` | src/lib.rs:346-347 | -1000000.00 reads as ลบ หนึ่ง ล้าน บาท ถ้วน: an all-zero last group says nothing |
| `Examples.TenMillionMillion` | src/lib.rs:322-323 | 10000000680000.51 reads as สิบ ล้าน ล้าน หก แสน แปด หมื่น บาท ห้า สิบ เอ็ด สตางค์ |
| `Findings.WrittenAgrees` | src/lib.rs:115-151 | on a plain digit string, the text the code writes after an unsigned sign test is the modelled amount text |
| `Findings.NegativeZeroAsWritten` | src/lib.rs:110-139 | as written, the integer part "-0" gives "สิบบาทถ้วน" (ten baht exactly), which is not the text "ศูนย์บาทถ้วน" of 0.0 |
| `Findings.MinusIgnored` | src/lib.rs:115-118 | corrected, a '-' before the digits changes nothing: the text is that of the unsigned amount, and its words read back as its value |
| `Findings.NegativeZeroCorrected` | src/lib.rs:107-151 | corrected, -0.0 reads as "ศูนย์บาทถ้วน", the text of 0.0 |

## Left out

- Float handling, which happens before the modelled routines: the
  `format!("{:.2}", …)` rounding and formatting, the `input_float *= -1.0`
  negation, NaN and infinity. The model starts from the formatted text: a
  sign flag, the integer digits and two fraction digits. What -0.0 turns
  into is worked out under "## Findings".
- The one-digit fraction branch of `baht_text` (src/lib.rs:141-142):
  formatting always gives two fraction digits, so `BahtText` requires
  exactly two.
- The `len() - 1` underflow on an empty integer part (src/lib.rs:123):
  formatting always gives at least "0", so `BahtText` requires a non-empty
  integer part.
- `lazy_static` and `HashMap` construction and hashing (src/lib.rs:1-23):
  the digit table is a constant sequence indexed by digit value, and the
  multiplier list is a constant sequence. A lookup of a string that is not
  a single digit finds nothing, and the model expresses that with
  `IsDigit`.
- Non-ASCII text: the source takes lengths and slices in bytes
  (src/lib.rs:29-32, 80-101). On non-ASCII text that differs from indexing
  by characters and can panic. `SplitMillionSequence` and
  `ConvertMultipleMillions` therefore require ASCII input. The two-digit
  reader works by characters in the source and is modelled on any string.
- `ConvertGroups`: the group loop of `baht_text` is a separate method that
  `BahtText` calls. Its `million_index` countdown is modelled as a natural
  number, while Rust's `usize` cannot wrap here.
- The `#[test]` harness: a selection of the amounts it checks appear as
  lemmas about the words of those amounts. Only 100.25 is also spelled out
  to the Thai text.

## Findings

| source | as written | input that shows it | evidently intended | confidence | as-written member | corrected member |
|---|---|---|---|---|---|---|
| src/lib.rs:110-118 | In both source files, -0.0 is not below 0.0, so no "ลบ" is written, but `{:.2}` formats it as "-0.00". The integer part "-0" goes through the group splitter and the two-digit reader, which says "สิบ" for it. | `baht_text(-0.0)` gives "สิบบาทถ้วน", ten baht exactly | the text of 0.0, "ศูนย์บาทถ้วน": only the digits of the integer part are read | medium; not executed (relies on Rust printing the sign of negative zero) | `Findings.NegativeZeroAsWritten` | `Findings.NegativeZeroCorrected` |
