/**
 * Reading the minutes out of a details payload's runtime text such as "148 min": the
 * first word of the text (what splitting on a space and taking the first part gives),
 * converted to a number. Only words made of decimal digits are modelled.
 */
module Runtime {
  import opened Wrappers

  /** The text before the first space, or all of it when there is none. */
  function FirstWord(s: string): (w: string)
    ensures w <= s && ' ' !in w
    ensures |w| < |s| ==> s[|w|] == ' '
  {
    if s == [] || s[0] == ' ' then [] else [s[0]] + FirstWord(s[1..])
  }

  predicate IsDigit(c: char) {
    '0' <= c <= '9'
  }

  predicate AllDigits(s: string) {
    forall i :: 0 <= i < |s| ==> IsDigit(s[i])
  }

  /** The value of a decimal numeral; the empty numeral is 0, as converting "" to a number gives. */
  function NumeralValue(s: string): (v: nat)
    requires AllDigits(s)
    ensures v == 0 <==> forall i :: 0 <= i < |s| ==> s[i] == '0'
  {
    if s == [] then 0 else 10 * NumeralValue(s[..|s| - 1]) + (s[|s| - 1] as int - '0' as int)
  }

  function DigitChar(d: nat): (c: char)
    requires d < 10
    ensures IsDigit(c) && c as int - '0' as int == d
  {
    ('0' as int + d) as char
  }

  /** `n` in decimal, without leading zeros. */
  function Decimal(n: nat): (s: string)
    ensures s != [] && AllDigits(s)
    ensures |s| > 1 ==> s[0] != '0'
  {
    if n < 10 then [DigitChar(n)] else Decimal(n / 10) + [DigitChar(n % 10)]
  }

  /**
   * The `runtime` of a new watched entry: the value of the first word of the runtime
   * text, or `None` when that word is not a plain decimal numeral.
   */
  function ParseRuntime(runtime: string): (r: Option<nat>)
    ensures r.Some? <==> forall i :: 0 <= i < |FirstWord(runtime)| ==> IsDigit(FirstWord(runtime)[i])
    ensures r == Some(0) <==> forall i :: 0 <= i < |FirstWord(runtime)| ==> FirstWord(runtime)[i] == '0'
  {
    var w := FirstWord(runtime);
    if AllDigits(w) then Some(NumeralValue(w)) else None
  }

  /** Reading a number back from its decimal form gives the number. */
  lemma {:induction false} NumeralValueOfDecimal(n: nat)
    ensures NumeralValue(Decimal(n)) == n
    decreases n
  {
    if n >= 10 {
      var s := Decimal(n);
      assert s[..|s| - 1] == Decimal(n / 10);
      NumeralValueOfDecimal(n / 10);
    }
  }

  /** The first word of a word followed by a space is that word. */
  lemma {:induction false} FirstWordOfSpaced(w: string, rest: string)
    requires ' ' !in w
    ensures FirstWord(w + " " + rest) == w
    decreases |w|
  {
    var s := w + " " + rest;
    if w == [] {
      assert s[0] == ' ';
    } else {
      assert s[0] == w[0];
      assert s[1..] == w[1..] + " " + rest;
      FirstWordOfSpaced(w[1..], rest);
    }
  }

  /** "<n> min", or a numeral followed by any other words, parses to `n`. */
  lemma ParseRuntimeOfMinutes(n: nat, rest: string)
    ensures ParseRuntime(Decimal(n) + " " + rest) == Some(n)
  {
    var d := Decimal(n);
    FirstWordOfSpaced(d, rest);
    NumeralValueOfDecimal(n);
  }

  /** The example from the details payload: "148 min" gives 148. */
  lemma ParseRuntimeExample()
    ensures ParseRuntime("148 min") == Some(148)
  {
    assert Decimal(148) == "148";
    ParseRuntimeOfMinutes(148, "min");
    assert Decimal(148) + " " + "min" == "148 min";
  }

  /** A runtime text that starts with a space has an empty first word, which converts to 0. */
  lemma LeadingSpaceIsZero(rest: string)
    ensures ParseRuntime(" " + rest) == Some(0)
  {
    assert (" " + rest)[0] == ' ';
  }
}
