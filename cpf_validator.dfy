/**
 * The CPF validator: normalises a Brazilian taxpayer number and checks its
 * two modulus-11 verifier digits (class CPFValidator, src/utils/cpfValidator.js).
 */
module Cpf {
  import opened Wrappers

  const LengthMessage := "CPF deve ter 11 dígitos"
  const RepeatedMessage := "CPF não pode ter todos dígitos iguais"
  const CheckDigitsMessage := "Dígitos verificadores Inválidos"
  const ValidMessage := "CPF válido"
  const ErrorMessage := "Erro na validação do CPF"

  /** What `validate` is called with: a string, or any other JavaScript value. */
  datatype CpfInput = Text(s: string) | NotAString

  /** `cleanedCPF` is absent only on the exception path. */
  datatype ValidationResult = ValidationResult(isValid: bool, message: string, cleanedCPF: Option<string>)

  /** `\d` of a JavaScript regular expression without the `u` flag: an ASCII digit. */
  predicate IsDigit(c: char) {
    '0' <= c <= '9'
  }

  predicate AllDigits(s: string) {
    forall i :: 0 <= i < |s| ==> IsDigit(s[i])
  }

  /** `parseInt` of a one-digit string. */
  function DigitValue(c: char): (v: int)
    requires IsDigit(c)
    ensures 0 <= v <= 9
  {
    c as int - '0' as int
  }

  /** The decimal string of a number 0..9, as `firstNineDigits + firstVerifier` produces it. */
  function DigitChar(d: int): (c: char)
    requires 0 <= d <= 9
    ensures IsDigit(c) && DigitValue(c) == d
  {
    ('0' as int + d) as char
  }

  lemma DigitCharOfValue(c: char)
    requires IsDigit(c)
    ensures DigitChar(DigitValue(c)) == c
  {
  }

  // ---------------------------------------------------------------------------
  // cleanCPF, isValidLength, isRepeatedDigits

  /** `cpf.replace(/\D/g, '')`: every non-digit removed. */
  function Clean(s: string): (r: string)
    ensures AllDigits(r)
    ensures |r| <= |s|
  {
    if s == [] then []
    else (if IsDigit(s[0]) then [s[0]] else []) + Clean(s[1..])
  }

  /** The only length a CPF may have. */
  predicate IsValidLength(s: string) {
    |s| == 11
  }

  /** `/^(\d)\1{10}$/`: exactly eleven copies of one digit. */
  predicate IsRepeatedDigits(s: string): (b: bool)
    ensures b ==> IsValidLength(s) && AllDigits(s)
    ensures b <==> IsValidLength(s) && IsDigit(s[0]) && s == seq(11, _ => s[0])
  {
    |s| == 11 && IsDigit(s[0]) && forall i :: 0 <= i < |s| ==> s[i] == s[0]
  }

  /** Cleaning distributes over concatenation: it keeps the digits in their original order. */
  lemma {:induction false} CleanConcat(a: string, b: string)
    ensures Clean(a + b) == Clean(a) + Clean(b)
  {
    if a == [] {
      assert a + b == b;
    } else {
      assert (a + b)[1..] == a[1..] + b;
      CleanConcat(a[1..], b);
    }
  }

  /** A string of digits is left as it is. */
  lemma {:induction false} CleanKeepsDigits(s: string)
    requires AllDigits(s)
    ensures Clean(s) == s
  {
    if s != [] {
      CleanKeepsDigits(s[1..]);
    }
  }

  /** A string without digits is cleaned to the empty string. */
  lemma {:induction false} CleanDropsNonDigits(s: string)
    requires forall i :: 0 <= i < |s| ==> !IsDigit(s[i])
    ensures Clean(s) == []
  {
    if s != [] {
      CleanDropsNonDigits(s[1..]);
    }
  }

  lemma CleanIdempotent(s: string)
    ensures Clean(Clean(s)) == Clean(s)
  {
    CleanKeepsDigits(Clean(s));
  }

  // ---------------------------------------------------------------------------
  // calculateDigit

  /**
   * The `total` of calculateDigit's loop: each digit is multiplied by the
   * current factor, and the factor is decremented, only while it is above 1.
   */
  function WeightedSum(s: string, factor: int): (total: int)
    requires AllDigits(s)
    ensures total >= 0
  {
    if s == [] then 0
    else if factor > 1 then DigitValue(s[0]) * factor + WeightedSum(s[1..], factor - 1)
    else WeightedSum(s[1..], factor)
  }

  /** The verifier digit calculateDigit returns, in terms of the weighted sum. */
  function CheckDigit(s: string, factor: int): (d: int)
    requires AllDigits(s)
    ensures 0 <= d <= 9
    ensures d == 0 <==> WeightedSum(s, factor) % 11 < 2
    ensures d != 0 ==> (WeightedSum(s, factor) + d) % 11 == 0
  {
    var remainder := WeightedSum(s, factor) % 11;
    if remainder < 2 then 0 else 11 - remainder
  }

  method CalculateDigit(s: string, factor: int) returns (d: int)
    requires AllDigits(s)
    ensures 0 <= d <= 9
    ensures d == CheckDigit(s, factor)
  {
    var total := 0;
    var f := factor;
    for i := 0 to |s|
      invariant total + WeightedSum(s[i..], f) == WeightedSum(s, factor)
    {
      assert s[i..][1..] == s[i + 1..];
      if f > 1 {
        total := total + DigitValue(s[i]) * f;
        f := f - 1;
      }
    }
    assert s[|s|..] == [];
    var remainder := total % 11;
    d := if remainder < 2 then 0 else 11 - remainder;
  }

  /** Once the factor has reached 1, no further digit contributes. */
  lemma {:induction false} WeightedSumSpent(s: string, factor: int)
    requires AllDigits(s) && factor <= 1
    ensures WeightedSum(s, factor) == 0
  {
    if s != [] {
      WeightedSumSpent(s[1..], factor);
    }
  }

  /** Only the first `factor - 1` digits are weighted: cutting the string after them changes nothing. */
  lemma {:induction false} WeightedSumPrefix(s: string, factor: int, k: int)
    requires AllDigits(s) && 0 <= k <= |s| && factor - 1 <= k
    ensures WeightedSum(s, factor) == WeightedSum(s[..k], factor)
  {
    if k == 0 {
      WeightedSumSpent(s, factor);
    } else {
      assert s[..k][1..] == s[1..][..k - 1];
      if factor > 1 {
        WeightedSumPrefix(s[1..], factor - 1, k - 1);
      } else {
        WeightedSumPrefix(s[1..], factor, k - 1);
      }
    }
  }

  // ---------------------------------------------------------------------------
  // The textbook definition of a CPF, as an independent reference

  /** The sum of `s[i] * (w - i)` over every index i. */
  function IndexSum(s: string, w: int): int
    requires AllDigits(s)
  {
    if s == [] then 0
    else IndexSum(s[..|s| - 1], w) + DigitValue(s[|s| - 1]) * (w - (|s| - 1))
  }

  /** The textbook rule: eleven minus the remainder, where ten and eleven become zero. */
  function StandardVerifier(sum: int): int {
    var v := 11 - sum % 11;
    if v >= 10 then 0 else v
  }

  /**
   * An eleven-digit CPF whose verifiers are right: digit 10 checks digits 1..9
   * with weights 10..2, digit 11 checks digits 1..10 with weights 11..2.
   */
  predicate IsStandardCpf(c: string) {
    |c| == 11 && AllDigits(c)
    && DigitValue(c[9]) == StandardVerifier(IndexSum(c[..9], 10))
    && DigitValue(c[10]) == StandardVerifier(IndexSum(c[..10], 11))
  }

  lemma {:induction false} IndexSumFront(s: string, w: int)
    requires AllDigits(s) && |s| > 0
    ensures IndexSum(s, w) == DigitValue(s[0]) * w + IndexSum(s[1..], w - 1)
  {
    var n := |s|;
    if n > 1 {
      IndexSumFront(s[..n - 1], w);
      assert s[..n - 1][1..] == s[1..][..n - 2];
      assert s[..n - 1][0] == s[0];
    }
  }

  /** While the factor stays above 1, calculateDigit's running sum is the plain weighted sum. */
  lemma {:induction false} WeightedSumIsIndexSum(s: string, factor: int)
    requires AllDigits(s) && |s| <= factor - 1
    ensures WeightedSum(s, factor) == IndexSum(s, factor)
  {
    if s != [] {
      IndexSumFront(s, factor);
      WeightedSumIsIndexSum(s[1..], factor - 1);
    }
  }

  lemma CheckDigitIsStandard(s: string, factor: int)
    requires AllDigits(s) && |s| <= factor - 1
    ensures CheckDigit(s, factor) == StandardVerifier(IndexSum(s, factor))
  {
    WeightedSumIsIndexSum(s, factor);
  }

  // ---------------------------------------------------------------------------
  // validate

  function Validate(input: CpfInput): (r: ValidationResult)
    ensures r.cleanedCPF.None? <==> input.NotAString?
    ensures input.Text? ==> r.cleanedCPF == Some(Clean(input.s))
    ensures r.message != []
    ensures r.isValid ==> r.message == ValidMessage
    ensures r.isValid ==> r.cleanedCPF.Some? && var c := r.cleanedCPF.value; |c| == 11 && AllDigits(c) && !IsRepeatedDigits(c)
  {
    match input
    case NotAString => ValidationResult(false, ErrorMessage, None)
    case Text(s) =>
      var cleaned := Clean(s);
      if !IsValidLength(cleaned) then
        ValidationResult(false, LengthMessage, Some(cleaned))
      else if IsRepeatedDigits(cleaned) then
        ValidationResult(false, RepeatedMessage, Some(cleaned))
      else
        var firstNine := cleaned[..9];
        var first := CheckDigit(firstNine, 10);
        var second := CheckDigit(firstNine + [DigitChar(first)], 11);
        if first != DigitValue(cleaned[9]) || second != DigitValue(cleaned[10]) then
          ValidationResult(false, CheckDigitsMessage, Some(cleaned))
        else
          ValidationResult(true, ValidMessage, Some(cleaned))
  }

  // ---------------------------------------------------------------------------
  // What validate promises

  /** The length message is reported exactly when the cleaned string does not have eleven digits, and it still carries that string. */
  lemma LengthRejection(s: string)
    ensures var r := Validate(Text(s));
      && (r.message == LengthMessage <==> |Clean(s)| != 11)
      && (|Clean(s)| != 11 ==> !r.isValid && r.cleanedCPF == Some(Clean(s)))
  {
  }

  /** Among eleven-digit candidates, exactly the repeated-digit ones get the repeated-digits message, before any checksum. */
  lemma RepeatedRejection(s: string)
    requires |Clean(s)| == 11
    ensures var r := Validate(Text(s));
      && (r.message == RepeatedMessage <==> IsRepeatedDigits(Clean(s)))
      && (IsRepeatedDigits(Clean(s)) ==> !r.isValid)
  {
  }

  /** The total of the weights of n digits, starting at f. */
  function WeightTotal(n: nat, f: int): int {
    if n == 0 then 0 else f + WeightTotal(n - 1, f - 1)
  }

  lemma {:induction false} WeightedSumConstant(t: string, f: int, c: char)
    requires IsDigit(c) && AllDigits(t) && |t| <= f - 1
    requires forall i :: 0 <= i < |t| ==> t[i] == c
    ensures WeightedSum(t, f) == DigitValue(c) * WeightTotal(|t|, f)
  {
    if t != [] {
      WeightedSumConstant(t[1..], f - 1, c);
    }
  }

  /**
   * Why the repeated-digit rule exists: eleven copies of one digit would
   * otherwise pass both verifier checks.
   */
  lemma RepeatedDigitsPassChecksum(c: char)
    requires IsDigit(c)
    ensures var s := seq(11, _ => c);
      var first := CheckDigit(s[..9], 10);
      && first == DigitValue(s[9])
      && CheckDigit(s[..9] + [DigitChar(first)], 11) == DigitValue(s[10])
  {
    var s := seq(11, _ => c);
    var v := DigitValue(c);
    WeightedSumConstant(s[..9], 10, c);
    assert WeightTotal(9, 10) == 54;
    assert WeightedSum(s[..9], 10) == 54 * v;
    assert CheckDigit(s[..9], 10) == v by {
      assert v == 0 || v == 1 || v == 2 || v == 3 || v == 4 || v == 5 || v == 6 || v == 7 || v == 8 || v == 9;
    }
    DigitCharOfValue(c);
    var ten := s[..9] + [DigitChar(v)];
    WeightedSumConstant(ten, 11, c);
    assert WeightTotal(10, 11) == 65;
    assert WeightedSum(ten, 11) == 65 * v;
    assert CheckDigit(ten, 11) == v by {
      assert v == 0 || v == 1 || v == 2 || v == 3 || v == 4 || v == 5 || v == 6 || v == 7 || v == 8 || v == 9;
    }
  }

  /** validate accepts exactly the textbook CPFs, once cleaned, that are not one repeated digit. */
  lemma ValidIffStandard(s: string)
    ensures Validate(Text(s)).isValid <==> IsStandardCpf(Clean(s)) && !IsRepeatedDigits(Clean(s))
  {
    var c := Clean(s);
    if |c| == 11 {
      var nine := c[..9];
      CheckDigitIsStandard(nine, 10);
      var first := CheckDigit(nine, 10);
      if first == DigitValue(c[9]) {
        DigitCharOfValue(c[9]);
        assert nine + [DigitChar(first)] == c[..10];
        CheckDigitIsStandard(c[..10], 11);
      }
    }
  }

  /** Punctuation does not matter: validating the cleaned string gives the same result. */
  lemma PunctuationIgnored(s: string)
    ensures Validate(Text(s)) == Validate(Text(Clean(s)))
  {
    CleanIdempotent(s);
  }

  lemma NonStringRejected()
    ensures Validate(NotAString) == ValidationResult(false, ErrorMessage, None)
  {
  }

  /** The usual layout ddd.ddd.ddd-dd is cleaned to its eleven digits. */
  lemma CleanFormatted(x: string, y: string, z: string, w: string)
    requires AllDigits(x) && AllDigits(y) && AllDigits(z) && AllDigits(w)
    ensures Clean(x + "." + y + "." + z + "-" + w) == x + y + z + w
  {
    CleanDropsNonDigits(".");
    CleanDropsNonDigits("-");
    CleanKeepsDigits(x);
    CleanKeepsDigits(y);
    CleanKeepsDigits(z);
    CleanKeepsDigits(w);
    var p1 := x + ".";
    CleanConcat(x, ".");
    assert Clean(p1) == x;
    var p2 := p1 + y;
    CleanConcat(p1, y);
    assert Clean(p2) == x + y;
    var p3 := p2 + ".";
    CleanConcat(p2, ".");
    assert Clean(p3) == x + y;
    var p4 := p3 + z;
    CleanConcat(p3, z);
    assert Clean(p4) == x + y + z;
    var p5 := p4 + "-";
    CleanConcat(p4, "-");
    assert Clean(p5) == x + y + z;
    CleanConcat(p5, w);
  }

  /** The weighted sums of 123456789 are 210 and, with its verifier 0, 255. */
  lemma ExampleSums()
    ensures WeightedSum("123456789", 10) == 210
    ensures WeightedSum("1234567890", 11) == 255
  {
  }

  lemma ExampleCleaned(w: string)
    requires w == "09" || w == "00"
    ensures Clean("123.456.789-" + w) == "123456789" + w
  {
    var x, y, z := "123", "456", "789";
    CleanFormatted(x, y, z, w);
    assert x + "." + y + "." + z + "-" + w == "123.456.789-" + w;
    assert x + y + z + w == "123456789" + w;
  }

  lemma ExampleVerifiers()
    ensures CheckDigit("123456789", 10) == 0
    ensures CheckDigit("1234567890", 11) == 9
  {
    ExampleSums();
  }

  /** 12345678909 is a textbook CPF. */
  lemma ExampleIsStandard()
    ensures IsStandardCpf("12345678909") && !IsRepeatedDigits("12345678909")
  {
    var c := "12345678909";
    assert c[1] != c[0];
    ExampleSums();
    assert c[..9] == "123456789";
    assert c[..10] == "1234567890";
    CheckDigitIsStandard(c[..9], 10);
    CheckDigitIsStandard(c[..10], 11);
  }

  /** The formatted number of the repository's own test is accepted. */
  lemma FormattedExampleAccepted(raw: string)
    requires raw == "123.456.789-09"
    ensures Validate(Text(raw)) == ValidationResult(true, ValidMessage, Some("12345678909"))
  {
    ExampleCleaned("09");
    assert "123.456.789-" + "09" == raw;
    assert Clean(raw) == "12345678909";
    ExampleIsStandard();
    ValidIffStandard(raw);
  }

  /** An eleven-digit candidate that is not one repeated digit and whose verifiers are wrong gets the verifier-digits message. */
  lemma ChecksumRejection(s: string)
    requires |Clean(s)| == 11 && !IsRepeatedDigits(Clean(s)) && !IsStandardCpf(Clean(s))
    ensures Validate(Text(s)) == ValidationResult(false, CheckDigitsMessage, Some(Clean(s)))
  {
    ValidIffStandard(s);
  }

  /** The same number with wrong verifiers passes the length and repetition checks and fails the checksum. */
  lemma WrongVerifiersRejected(raw: string)
    requires raw == "123.456.789-00"
    ensures Validate(Text(raw)) == ValidationResult(false, CheckDigitsMessage, Some("12345678900"))
  {
    ExampleCleaned("00");
    assert "123.456.789-" + "00" == raw;
    var c := Clean(raw);
    assert c == "12345678900";
    assert c[1] != c[0];
    assert c[..10] == "1234567890";
    ExampleVerifiers();
    CheckDigitIsStandard(c[..10], 11);
    assert DigitValue(c[10]) == 0;
    ChecksumRejection(raw);
  }
}
