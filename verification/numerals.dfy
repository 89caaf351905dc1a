/** `normalizeNumberInput` of the chat page: a spoken number word or a numeral, read as the
    1-based position a user selects; and the decimal rendering the page uses for counts. */
module Numerals {
  import opened Wrappers
  import opened Text

  predicate IsDigit(c: char) {
    '0' <= c <= '9'
  }

  predicate AllDigits(s: string) {
    forall i :: 0 <= i < |s| ==> IsDigit(s[i])
  }

  function DigitValue(c: char): (d: nat)
    requires IsDigit(c)
    ensures d < 10
  {
    c as int - '0' as int
  }

  function DigitChar(d: nat): (c: char)
    requires d < 10
    ensures IsDigit(c) && DigitValue(c) == d
  {
    ('0' as int + d) as char
  }

  /** The value of a decimal numeral, most significant digit first; the empty numeral is 0,
      as `Number("")` is. */
  function DigitsValue(s: string): nat
    requires AllDigits(s)
    decreases |s|
  {
    if s == [] then 0 else DigitsValue(s[..|s| - 1]) * 10 + DigitValue(s[|s| - 1])
  }

  /** The decimal numeral of `n` that a template literal prints. */
  function NatToString(n: nat): (s: string)
    ensures |s| > 0 && AllDigits(s)
  {
    if n < 10 then [DigitChar(n)] else NatToString(n / 10) + [DigitChar(n % 10)]
  }

  /** Reading back a printed count gives the count. */
  lemma {:induction false} NatToStringRoundTrip(n: nat)
    ensures DigitsValue(NatToString(n)) == n
  {
    var s := NatToString(n);
    if n >= 10 {
      NatToStringRoundTrip(n / 10);
      assert s[..|s| - 1] == NatToString(n / 10);
    }
  }

  /** The numeral of a (possibly negative) step number as a template literal prints it. */
  function IntToString(i: int): (s: string)
    ensures |s| > 0
    ensures i < 0 <==> s[0] == '-'
  {
    if i < 0 then "-" + NatToString(-i) else NatToString(i)
  }

  /** The keys of the word table, in the order of their values. */
  const NumberWords: seq<string> :=
    ["one", "two", "three", "four", "five", "six", "seven", "eight", "nine", "ten"]

  /** The lookup `map[cleaned]` in the word table. */
  function WordValue(w: string): (r: Option<nat>)
    ensures r.Some? <==> w in NumberWords
    ensures r.Some? ==> 1 <= r.value <= 10 && NumberWords[r.value - 1] == w
  {
    if w == "one" then Some(1)
    else if w == "two" then Some(2)
    else if w == "three" then Some(3)
    else if w == "four" then Some(4)
    else if w == "five" then Some(5)
    else if w == "six" then Some(6)
    else if w == "seven" then Some(7)
    else if w == "eight" then Some(8)
    else if w == "nine" then Some(9)
    else if w == "ten" then Some(10)
    else None
  }

  /** No number word is a numeral: each starts with a letter. */
  lemma WordIsNoNumeral(w: string)
    requires w in NumberWords
    ensures |w| > 0 && !IsDigit(w[0])
  {
  }

  /** The number a cleaned input stands for: the word table first, then a decimal numeral. */
  function ReadNumber(cleaned: string): (r: Option<int>)
    ensures r.Some? <==> cleaned in NumberWords || AllDigits(cleaned)
    ensures cleaned in NumberWords ==> 1 <= r.value <= 10 && NumberWords[r.value - 1] == cleaned
    ensures AllDigits(cleaned) ==> r == Some(DigitsValue(cleaned))
  {
    var word := WordValue(cleaned);
    if word.Some? then
      WordIsNoNumeral(cleaned);
      Some(word.value)
    else if AllDigits(cleaned) then Some(DigitsValue(cleaned))
    else None
  }

  /** `normalizeNumberInput(input)`: the input lower-cased and trimmed is looked up in the
      word table first, then read as a decimal numeral; anything else is `null` (None). */
  function NormalizeNumberInput(input: string): (r: Option<int>)
    ensures r.Some? <==> Trim(ToLower(input)) in NumberWords || AllDigits(Trim(ToLower(input)))
    ensures Trim(ToLower(input)) in NumberWords ==>
      r.Some? && 1 <= r.value <= 10 && NumberWords[r.value - 1] == Trim(ToLower(input))
    ensures AllDigits(Trim(ToLower(input))) ==> r == Some(DigitsValue(Trim(ToLower(input))))
  {
    var cleaned := Trim(ToLower(input));
    ReadNumber(cleaned)
  }

  /** Each number word reads as its position in the word table, counted from one. */
  lemma WordReadsAsValue(k: nat)
    requires k < |NumberWords|
    ensures ReadNumber(NumberWords[k]) == Some(k + 1)
  {
    if k == 0 {} else if k == 1 {} else if k == 2 {} else if k == 3 {} else if k == 4 {}
    else if k == 5 {} else if k == 6 {} else if k == 7 {} else if k == 8 {} else {}
  }

  /** An input that lower-cases and trims to a number word selects that word's value. */
  lemma NumberWordSelects(input: string, k: nat)
    requires k < |NumberWords| && Trim(ToLower(input)) == NumberWords[k]
    ensures NormalizeNumberInput(input) == Some(k + 1)
  {
    WordReadsAsValue(k);
  }

  /** Each number word starts and ends with a small letter. */
  lemma NumberWordEdges(k: nat)
    requires k < |NumberWords|
    ensures var w := NumberWords[k]; |w| > 0 && 'a' <= w[0] <= 'z' && 'a' <= w[|w| - 1] <= 'z'
  {
    if k == 0 {} else if k == 1 {} else if k == 2 {} else if k == 3 {} else if k == 4 {}
    else if k == 5 {} else if k == 6 {} else if k == 7 {} else if k == 8 {} else {}
  }

  /** A number word spoken or typed in any letter case, with any whitespace around it,
      selects its value. */
  lemma SpokenNumberWordSelects(pre: string, w: string, post: string, k: nat)
    requires k < |NumberWords| && ToLower(w) == NumberWords[k]
    requires forall i :: 0 <= i < |pre| ==> IsSpace(pre[i])
    requires forall i :: 0 <= i < |post| ==> IsSpace(post[i])
    ensures NormalizeNumberInput(pre + w + post) == Some(k + 1)
  {
    var input := pre + w + post;
    var word := NumberWords[k];
    forall i | 0 <= i < |input|
      ensures ToLower(input)[i] == (pre + word + post)[i]
    {
      if i < |pre| {
        assert input[i] == pre[i];
      } else if i < |pre| + |w| {
        assert input[i] == w[i - |pre|];
      } else {
        assert input[i] == post[i - |pre| - |w|];
      }
    }
    assert ToLower(input) == pre + word + post;
    NumberWordEdges(k);
    TrimPadded(pre, word, post);
    WordReadsAsValue(k);
  }

  /** A printed numeral reads back as its value: the numeral half of the round trip. */
  lemma {:induction false} NumeralSelects(n: nat)
    ensures NormalizeNumberInput(NatToString(n)) == Some(n)
  {
    var s := NatToString(n);
    assert forall i :: 0 <= i < |s| ==> !IsUpper(s[i]) && !IsSpace(s[i]);
    assert ToLower(s) == s;
    assert Trim(s) == s;
    NatToStringRoundTrip(n);
  }

  /** Whatever is neither a number word nor a numeral selects nothing. */
  lemma OtherInputSelectsNothing(input: string)
    requires Trim(ToLower(input)) !in NumberWords
    requires exists i :: 0 <= i < |Trim(ToLower(input))| && !IsDigit(Trim(ToLower(input))[i])
    ensures NormalizeNumberInput(input) == None
  {
  }
}
