/** Reading numbers typed into a form: Kotlin's `String.toIntOrNull()` and
  * the plain decimal forms `String.toDoubleOrNull()` accepts. */
module NumberText {
  import opened Common
  import opened Snapshot

  /** Every character is an ASCII digit (`all { it.isDigit() }`). */
  predicate AllDigits(s: string)
  {
    forall i :: 0 <= i < |s| ==> IsDigit(s[i])
  }

  function DigitValue(c: char): (r: int)
  {
    c as int - '0' as int
  }

  /** The number a string of digits spells, most significant digit first. */
  function DigitsValue(s: string): (n: nat)
    requires AllDigits(s)
    decreases |s|
  {
    if s == [] then 0 else DigitsValue(s[..|s| - 1]) * 10 + DigitValue(s[|s| - 1])
  }

  /** `toIntOrNull()`: an optional sign and one or more digits, within the
    * 32-bit range; anything else is null. */
  function ToIntOrNull(s: string): (r: Option<int>)
    ensures r.Some? ==> IntMin <= r.value <= IntMax
    ensures r.Some? && r.value < 0 ==> s != "" && s[0] == '-'
    ensures AllDigits(s) && s != "" ==> r == (if DigitsValue(s) <= IntMax then Some(DigitsValue(s)) else None)
    ensures s == "" ==> r.None?
  {
    if s == [] then None
    else if s[0] == '-' || s[0] == '+' then
      if |s| == 1 || !AllDigits(s[1..]) then None
      else
        var v: int := if s[0] == '-' then -(DigitsValue(s[1..]) as int) else DigitsValue(s[1..]);
        if IntMin <= v <= IntMax then Some(v) else None
    else if !AllDigits(s) then None
    else if DigitsValue(s) <= IntMax then Some(DigitsValue(s))
    else None
  }

  lemma DigitRoundTrip(d: nat)
    requires d < 10
    ensures DigitValue(Digit(d)) == d
  {
    assert Digit(d) == ['0', '1', '2', '3', '4', '5', '6', '7', '8', '9'][d];
  }

  /** Reading back a rendered natural number gives the number. */
  lemma {:induction false} NatTextRoundTrip(n: nat)
    ensures AllDigits(NatToString(n)) && DigitsValue(NatToString(n)) == n
  {
    var t := NatToString(n);
    if n < 10 {
      DigitRoundTrip(n);
      assert t[..0] == [];
    } else {
      NatTextRoundTrip(n / 10);
      DigitRoundTrip(n % 10);
      assert t[..|t| - 1] == NatToString(n / 10);
    }
  }

  /** `n.toString().toIntOrNull()` is `n` for every 32-bit `n`: a stock
    * loaded into the form and saved unchanged keeps its value. */
  lemma IntTextRoundTrip(n: int)
    requires IntMin <= n <= IntMax
    ensures ToIntOrNull(IntToString(n)) == Some(n)
  {
    if n < 0 {
      NatTextRoundTrip(-n);
      assert IntToString(n)[1..] == NatToString(-n);
    } else {
      NatTextRoundTrip(n);
    }
  }

  /** The index of the first '.', or the length when there is none. */
  function FirstDot(s: string): (i: nat)
    ensures i <= |s|
    ensures i < |s| ==> s[i] == '.'
    ensures forall j :: 0 <= j < i ==> s[j] != '.'
  {
    if s == [] then 0 else if s[0] == '.' then 0 else 1 + FirstDot(s[1..])
  }

  function Pow10(k: nat): (p: nat)
    ensures p >= 1
  {
    if k == 0 then 1 else 10 * Pow10(k - 1)
  }

  /** The digits before and after the decimal point, or None when the text
    * is not digits, a point and digits with at least one digit in all. */
  function DecimalParts(body: string): (r: Option<(string, string)>)
    ensures r.Some? ==> AllDigits(r.value.0) && AllDigits(r.value.1) && (r.value.0 != "" || r.value.1 != "")
  {
    var dot := FirstDot(body);
    var whole := body[..dot];
    var fraction := if dot < |body| then body[dot + 1..] else "";
    if AllDigits(whole) && AllDigits(fraction) && (whole != "" || fraction != "") then Some((whole, fraction))
    else None
  }

  /** The value of `whole.fraction`. */
  function Magnitude(whole: string, fraction: string): (m: real)
    requires AllDigits(whole) && AllDigits(fraction)
    ensures m >= 0.0
  {
    var f := DigitsValue(fraction) as real / Pow10(|fraction|) as real;
    assert f >= 0.0;
    DigitsValue(whole) as real + f
  }

  /** `toDoubleOrNull()` on plain decimals: an optional sign, digits, and an
    * optional point followed by digits, with at least one digit; the value
    * is exact. */
  function ToDoubleOrNull(s: string): (r: Option<real>)
    ensures r.Some? && (s == "" || s[0] != '-') ==> r.value >= 0.0
    ensures r.Some? && s != "" && s[0] == '-' ==> r.value <= 0.0
    ensures s == "" ==> r.None?
  {
    var signed := s != [] && (s[0] == '-' || s[0] == '+');
    var body := if signed then s[1..] else s;
    match DecimalParts(body)
    case None => None
    case Some((whole, fraction)) =>
      var magnitude := Magnitude(whole, fraction);
      Some(if signed && s[0] == '-' then -magnitude else magnitude)
  }

  /** A text of digits alone reads as the whole number it spells. */
  lemma DigitsAsDouble(s: string)
    requires AllDigits(s) && s != ""
    ensures ToDoubleOrNull(s) == Some(DigitsValue(s) as real)
  {
    forall j | 0 <= j < |s|
      ensures s[j] != '.'
    {
      assert IsDigit(s[j]);
    }
    assert s[..|s|] == s;
  }

  /** "12.5" reads as 12.5 and "0.0" as zero; "1,5" and "." are not numbers. */
  lemma DecimalExamples()
    ensures ToDoubleOrNull("12.5") == Some(12.5)
    ensures ToDoubleOrNull("0.0") == Some(0.0)
    ensures ToDoubleOrNull("1,5").None?
    ensures ToDoubleOrNull(".").None?
  {
    assert FirstDot("12.5") == 2;
    assert "12.5"[..2] == "12" && "12.5"[3..] == "5";
    assert DigitsValue("12") == 12 by { assert "12"[..1] == "1"; }
    assert DigitsValue("5") == 5 by { assert "5"[..0] == ""; }
    assert FirstDot("0.0") == 1;
    assert "0.0"[..1] == "0" && "0.0"[2..] == "0";
    assert DigitsValue("0") == 0 by { assert "0"[..0] == ""; }
    assert FirstDot("1,5") == 3;
    assert !IsDigit("1,5"[1]);
    assert FirstDot(".") == 0;
  }
}
