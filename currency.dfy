/** `parseKES` of src/lib/currency.ts: keep the digits, read them in base 10, 0 when there are none. */
module Currency {
  import opened Decimal

  /** `value.replace(/[^0-9]/g, '')`: the ASCII digits of `s`, in order. */
  function DigitsOf(s: string): (r: string)
    ensures AllDigits(r) && |r| <= |s|
    ensures forall c :: c in r ==> c in s
    ensures r == [] <==> forall i :: 0 <= i < |s| ==> !IsDigit(s[i])
  {
    if s == [] then [] else (if IsDigit(s[0]) then [s[0]] else []) + DigitsOf(s[1..])
  }

  /** `parseInt(numStr, 10) || 0`: an empty digit string is NaN, which falls back to 0. */
  function ParseKES(value: string): (r: nat)
    ensures (forall i :: 0 <= i < |value| ==> !IsDigit(value[i])) ==> r == 0
  {
    var digits := DigitsOf(value);
    if digits == [] then 0 else Value(digits)
  }

  /** A string of digits only is left as it is. */
  lemma {:induction false} DigitsOfDigits(s: string)
    requires AllDigits(s)
    ensures DigitsOf(s) == s
  {
    if s != [] {
      DigitsOfDigits(s[1..]);
    }
  }

  /** Filtering distributes over concatenation, so non-digits may stand anywhere. */
  lemma {:induction false} DigitsOfAppend(a: string, b: string)
    ensures DigitsOf(a + b) == DigitsOf(a) + DigitsOf(b)
  {
    if a != [] {
      assert (a + b)[1..] == a[1..] + b;
      DigitsOfAppend(a[1..], b);
    } else {
      assert a + b == b;
    }
  }

  /** Filtering twice is filtering once, so parsing the digits alone gives the same number. */
  lemma DigitsOfIdempotent(s: string)
    ensures DigitsOf(DigitsOf(s)) == DigitsOf(s)
    ensures ParseKES(DigitsOf(s)) == ParseKES(s)
  {
    DigitsOfDigits(DigitsOf(s));
  }

  /**
   * Round trip: any string whose digits, in order, spell `n` in decimal (the decimal string
   * of `n` with any non-digit characters inserted anywhere) parses to `n`.
   */
  lemma ParseKESRoundTrip(n: nat, s: string)
    requires DigitsOf(s) == Show(n)
    ensures ParseKES(s) == n
  {
    ValueOfShow(n);
  }

  /** The decimal string of `n` itself parses to `n`. */
  lemma ParseKESOfShow(n: nat)
    ensures ParseKES(Show(n)) == n
  {
    DigitsOfDigits(Show(n));
    ParseKESRoundTrip(n, Show(n));
  }

  function Zeros(k: nat): (z: string)
    ensures |z| == k && AllDigits(z)
  {
    if k == 0 then [] else ['0'] + Zeros(k - 1)
  }

  lemma {:induction false} ZerosValue(k: nat, ds: string)
    requires AllDigits(ds)
    ensures Value(Zeros(k) + ds) == Value(ds)
  {
    if k > 0 {
      assert Zeros(k) + ds == ['0'] + (Zeros(k - 1) + ds);
      LeadingZero(Zeros(k - 1) + ds);
      ZerosValue(k - 1, ds);
    } else {
      assert Zeros(k) + ds == ds;
    }
  }

  /** Leading zeros are ignored. */
  lemma ParseKESLeadingZeros(k: nat, n: nat)
    ensures ParseKES(Zeros(k) + Show(n)) == n
  {
    var s := Zeros(k) + Show(n);
    DigitsOfDigits(s);
    ZerosValue(k, Show(n));
    ValueOfShow(n);
  }

  /** A minus sign is dropped, so the result is never negative. */
  lemma ParseKESDropsMinus()
    ensures ParseKES("-250") == 250
  {
    DigitsOfMinus250();
    ShowOf250();
    ParseKESRoundTrip(250, "-250");
  }

  lemma DigitsOfMinus250()
    ensures DigitsOf("-250") == "250"
  {
    DigitsOfAppend("-", "250");
    DigitsOfDigits("250");
    assert "-" + "250" == "-250";
  }

  lemma ShowOf250()
    ensures Show(250) == "250"
  {
    assert Show(2) == "2";
    assert Show(25) == "25";
  }
}
