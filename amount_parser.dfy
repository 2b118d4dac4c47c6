/** `AmountParser` of invoice_qc/utils.py: monetary amounts out of text. */
module AmountParser {
  import opened Optional
  import opened Strings

  /** Python's `float(s)`: None when it raises ValueError. Left abstract. */
  type FloatParser = string -> Option<real>

  /** The characters of the class `[\$€₹,\s]` that `parse_amount` deletes. */
  predicate Removed(c: char) {
    c == '$' || c == '\U{20AC}' || c == '\U{20B9}' || c == ',' || IsSpace(c)
  }

  /** `re.sub(r'[\$€₹,\s]', '', s)`. */
  function CleanAmount(s: string): (r: string)
    ensures |r| <= |s|
    ensures forall i :: 0 <= i < |r| ==> !Removed(r[i])
  {
    if s == [] then [] else (if Removed(s[0]) then [] else [s[0]]) + CleanAmount(s[1..])
  }

  /** Cleaning works character by character: it distributes over concatenation. */
  lemma {:induction false} CleanAmountConcat(a: string, b: string)
    ensures CleanAmount(a + b) == CleanAmount(a) + CleanAmount(b)
  {
    if a == [] {
      assert a + b == b;
    } else {
      assert (a + b)[1..] == a[1..] + b;
      CleanAmountConcat(a[1..], b);
    }
  }

  /** A string cleaning leaves unchanged is one with no removed character, and vice versa. */
  lemma {:induction false} CleanAmountFixed(s: string)
    ensures CleanAmount(s) == s <==> forall i :: 0 <= i < |s| ==> !Removed(s[i])
  {
    if s != [] {
      CleanAmountFixed(s[1..]);
      if Removed(s[0]) {
        assert |CleanAmount(s)| <= |s[1..]| < |s|;
      } else {
        assert CleanAmount(s) == [s[0]] + CleanAmount(s[1..]);
        if CleanAmount(s) == s {
          assert CleanAmount(s[1..]) == s[1..];
        }
        if forall i :: 0 <= i < |s| ==> !Removed(s[i]) {
          assert forall i :: 0 <= i < |s[1..]| ==> !Removed(s[1..][i]) by {
            forall i | 0 <= i < |s[1..]| ensures !Removed(s[1..][i]) { assert s[1..][i] == s[i + 1]; }
          }
        }
      }
    }
  }

  /**
   * `AmountParser.parse_amount`: 0.0 for empty text; otherwise the cleaned text
   * converted by `float`, and 0.0 when that conversion fails.
   */
  function ParseAmount(toFloat: FloatParser, text: string): (r: real)
    ensures text == "" ==> r == 0.0
    ensures text != "" && toFloat(CleanAmount(text)).None? ==> r == 0.0
    ensures text != "" && toFloat(CleanAmount(text)).Some? ==> r == toFloat(CleanAmount(text)).value
  {
    if text == "" then 0.0 else toFloat(CleanAmount(text)).GetOr(0.0)
  }

  predicate IsDigit(c: char) { '0' <= c <= '9' }

  predicate AllDigits(s: string) { forall i :: 0 <= i < |s| ==> IsDigit(s[i]) }

  /** The value of a string of decimal digits. */
  function DigitsValue(s: string): nat
    requires AllDigits(s)
  {
    if s == [] then 0 else DigitsValue(s[..|s| - 1]) * 10 + (s[|s| - 1] as int - '0' as int)
  }

  function Pow10(n: nat): (r: nat)
    ensures r >= 1
  {
    if n == 0 then 1 else 10 * Pow10(n - 1)
  }

  /** The plain decimal literal `whole.frac`. */
  function DecimalText(whole: string, frac: string): string {
    whole + "." + frac
  }

  /** `float` reads a plain decimal literal `digits.digits` as its value. */
  ghost predicate ReadsPlainDecimals(toFloat: FloatParser) {
    forall whole: string, frac: string ::
      whole != [] && frac != [] && AllDigits(whole) && AllDigits(frac) ==>
        toFloat(DecimalText(whole, frac)) ==
          Some(DigitsValue(whole) as real + DigitsValue(frac) as real / Pow10(|frac|) as real)
  }

  /** The documented example: "$1,234.56" parses to 1234.56. */
  lemma {:induction false} DocumentedExample(toFloat: FloatParser)
    requires ReadsPlainDecimals(toFloat)
    ensures ParseAmount(toFloat, "$1,234.56") == 1234.56
  {
    var cleaned := DecimalText("1234", "56");
    assert CleanAmount("$1,234.56") == cleaned by {
      ExampleCleans();
    }
    ExampleReads(toFloat);
  }

  /** Helper of `DocumentedExample`: `float` reads the cleaned example as 1234.56. */
  lemma {:induction false} ExampleReads(toFloat: FloatParser)
    requires ReadsPlainDecimals(toFloat)
    ensures toFloat(DecimalText("1234", "56")) == Some(1234.56)
  {
    ExampleDigits();
    var frac := "56";
    assert |frac| == 2 && Pow10(2) == 100;
    assert toFloat(DecimalText("1234", frac)) == Some(1234.0 + 56.0 / 100.0);
  }

  /** Helper of `DocumentedExample`: cleaning "$1,234.56" leaves "1234.56". */
  lemma {:induction false} ExampleCleans()
    ensures CleanAmount("$1,234.56") == DecimalText("1234", "56")
  {
    assert "$1,234.56" == "$1," + "234.56";
    CleanAmountConcat("$1,", "234.56");
    ExampleCleansPrefix();
    ExampleCleansSuffix();
    assert "1" + "234.56" == DecimalText("1234", "56");
  }

  /** Helper of `DocumentedExample`: the currency sign and the thousands separator go. */
  lemma {:induction false} ExampleCleansPrefix()
    ensures CleanAmount("$1,") == "1"
  {
    assert Removed('$') && !Removed('1') && Removed(',');
  }

  /** Helper of `DocumentedExample`: digits and the decimal point stay. */
  lemma {:induction false} ExampleCleansSuffix()
    ensures CleanAmount("234.56") == "234.56"
  {
    assert !Removed('2') && !Removed('3') && !Removed('4') && !Removed('.') && !Removed('5') && !Removed('6');
    CleanAmountFixed("234.56");
  }

  /** Helper of `DocumentedExample`: the digit strings of the example and their values. */
  lemma {:induction false} ExampleDigits()
    ensures AllDigits("1234") && DigitsValue("1234") == 1234
    ensures AllDigits("56") && DigitsValue("56") == 56
  {
    assert "1234"[..3] == "123" && "123"[..2] == "12" && "12"[..1] == "1" && "1"[..0] == "";
    assert "56"[..1] == "5" && "5"[..0] == "";
  }

  /** `AmountParser.find_amounts`: one parsed amount per match of the amount pattern, in match order. */
  function FindAmounts(toFloat: FloatParser, findAll: string -> seq<string>, text: string): (r: seq<real>)
    ensures |r| == |findAll(text)|
    ensures forall i :: 0 <= i < |r| ==> r[i] == ParseAmount(toFloat, findAll(text)[i])
  {
    var matches := findAll(text);
    seq(|matches|, i requires 0 <= i < |matches| => ParseAmount(toFloat, matches[i]))
  }
}
