/** Facts about the PHP conversions: reading back what the `(string)` casts write. */
module PhpFacts {
  import opened Php

  lemma DigitCharValue(d: nat)
    requires d < 10
    ensures IsDigit(DigitChar(d)) && DigitChar(d) as int - '0' as int == d
  {
    assert DigitChar(d) == "0123456789"[d];
    if d == 0 {} else if d == 1 {} else if d == 2 {} else if d == 3 {} else if d == 4 {}
    else if d == 5 {} else if d == 6 {} else if d == 7 {} else if d == 8 {} else {}
  }

  /** The digits NatText writes read back as the number. */
  lemma {:induction false} NatTextValue(n: nat)
    ensures DigitsValue(NatText(n)) == n
  {
    DigitCharValue(n % 10);
    if n >= 10 {
      var s := NatText(n);
      assert s[..|s| - 1] == NatText(n / 10);
      NatTextValue(n / 10);
    }
  }

  /** PadDigits writes any `n < 10^k` exactly. */
  lemma {:induction false} PadDigitsValue(n: nat, k: nat)
    requires n < Pow10(k)
    ensures DigitsValue(PadDigits(n, k)) == n
  {
    if k > 0 {
      var s := PadDigits(n, k);
      assert s[..|s| - 1] == PadDigits(n / 10, k - 1);
      assert n / 10 < Pow10(k - 1);
      PadDigitsValue(n / 10, k - 1);
      DigitCharValue(n % 10);
    }
  }

  /** A run of digits followed by a non-digit (or nothing) is read up to its end. */
  lemma {:induction false} DigitRunOf(s: string, t: string)
    requires AllDigits(s)
    requires t == [] || !IsDigit(t[0])
    ensures DigitRun(s + t) == |s|
  {
    if |s| > 0 {
      assert (s + t)[1..] == s[1..] + t;
      DigitRunOf(s[1..], t);
    }
  }

  lemma DigitRunAll(s: string)
    requires AllDigits(s)
    ensures DigitRun(s) == |s|
  {
    assert s + [] == s;
    DigitRunOf(s, []);
  }

  /** `(int)` reads back what `(string)` writes for an int. */
  lemma IntTextRoundTrip(i: int)
    ensures StrToInt(IntText(i)) == i
  {
    var m: nat := if i < 0 then -i else i;
    var digits := NatText(m);
    DigitRunAll(digits);
    NatTextValue(m);
    assert digits[..|digits|] == digits;
    if i < 0 {
      assert IntText(i) == "-" + digits;
      assert SkipSpace(IntText(i)) == IntText(i);
      assert Unsign(IntText(i)) == (true, digits);
    } else {
      assert IsDigit(digits[0]);
      assert SkipSpace(digits) == digits;
      assert Unsign(digits) == (false, digits);
    }
  }

  /** The unsigned decimal text `w.f` (with `k` fraction digits) reads as w + f/10^k. */
  lemma DecimalValue(w: nat, f: nat, k: nat)
    requires f < Pow10(k)
    ensures DecimalPrefix(if k == 0 then NatText(w) else NatText(w) + "." + PadDigits(f, k))
      == w as real + f as real / Pow10(k) as real
  {
    var whole := NatText(w);
    NatTextValue(w);
    if k == 0 {
      DigitRunAll(whole);
      assert whole[..|whole|] == whole;
      assert f == 0;
      assert whole[|whole|..] == [];
    } else {
      var pad := PadDigits(f, k);
      var u := whole + "." + pad;
      assert u == whole + ("." + pad);
      DigitRunOf(whole, "." + pad);
      assert u[..|whole|] == whole;
      var rest := u[|whole|..];
      assert rest == "." + pad;
      assert rest[1..] == pad;
      DigitRunAll(pad);
      assert pad[..|pad|] == pad;
      PadDigitsValue(f, k);
    }
  }

  /** `(float)` on a signed decimal text `[-]w[.f]`. */
  lemma SignedDecimalValue(neg: bool, w: nat, f: nat, k: nat)
    requires f < Pow10(k)
    ensures var v := w as real + f as real / Pow10(k) as real;
      StrToFloat(DecimalText(neg, w, f, k)) == if neg then -v else v
  {
    var u := if k == 0 then NatText(w) else NatText(w) + "." + PadDigits(f, k);
    DecimalValue(w, f, k);
    assert IsDigit(u[0]);
    var t := (if neg then "-" else "") + u;
    assert SkipSpace(t) == t;
    if neg {
      assert Unsign(t) == (true, u);
    } else {
      assert t == u;
      assert Unsign(t) == (false, u);
    }
  }

  predicate Exact(a: real, k: nat) {
    Scaled(a, k) as real == a * Pow10(k) as real
  }

  /** Places finds a digit count that writes `a` exactly whenever one up to 14 exists,
      and never more than that one. */
  lemma {:induction false} PlacesExact(a: real, k: nat, j: nat)
    requires k <= j <= 14 && Exact(a, j)
    ensures Places(a, k) <= j && Exact(a, Places(a, k))
    decreases 14 - k
  {
    if !(k == 14 || Exact(a, k)) {
      PlacesExact(a, k + 1, j);
    }
  }

  lemma RealSplit(a: real, s: int, w: int, f: int, p: int)
    requires p > 0 && s == w * p + f && s as real == a * p as real
    ensures a == w as real + f as real / p as real
  {
    var pr := p as real;
    assert (w as real) * pr + f as real == a * pr;
    assert (a - w as real) * pr == f as real;
    assert a - w as real == f as real / pr;
  }

  lemma ProductSign(a: real, p: real)
    requires a >= 0.0 && p >= 1.0
    ensures a * p >= 0.0
    ensures a > 0.0 ==> a * p > 0.0
  {
  }

  /** An exactly scaled `a >= 0` splits into the whole part and the fraction digits
      FloatText prints. */
  lemma ExactSplit(a: real, p: int, scaled: int)
    requires a >= 0.0 && p >= 1 && scaled as real == a * p as real
    ensures scaled >= 0 && scaled / p >= 0 && 0 <= scaled % p < p
    ensures a == (scaled / p) as real + (scaled % p) as real / p as real
    ensures a > 0.0 ==> scaled > 0
  {
    ProductSign(a, p as real);
    RealSplit(a, scaled, scaled / p, scaled % p, p);
  }

  lemma FloatTextIs(r: real, a: real, k: nat, p: nat, scaled: int)
    requires a == (if r < 0.0 then -r else r) && k == Places(a, 0) && p == Pow10(k)
    requires scaled == Scaled(a, k) && scaled >= 0
    ensures FloatText(r) == DecimalText(r < 0.0 && scaled != 0, scaled / p, scaled % p, k)
  {
  }

  /** The scaled magnitude FloatText prints, split into whole part and fraction. */
  lemma MagnitudeParts(a: real, k: nat, p: int, scaled: int)
    requires a >= 0.0 && Exact(a, k) && p == Pow10(k) && scaled == Scaled(a, k)
    ensures scaled >= 0 && scaled / p >= 0 && 0 <= scaled % p < p
    ensures a == (scaled / p) as real + (scaled % p) as real / p as real
    ensures a > 0.0 ==> scaled > 0
  {
    ExactSplit(a, p, scaled);
  }

  /** `(float)` reads back what `(string)` writes for a float with at most 14
      fractional digits. */
  lemma FloatTextRoundTrip(r: real, j: nat)
    requires j <= 14 && Exact(if r < 0.0 then -r else r, j)
    ensures StrToFloat(FloatText(r)) == r
  {
    var a := if r < 0.0 then -r else r;
    var k := Places(a, 0);
    var p := Pow10(k);
    var scaled := Scaled(a, k);
    PlacesExact(a, 0, j);
    MagnitudeParts(a, k, p, scaled);
    var w := scaled / p;
    var f := scaled % p;
    var neg := r < 0.0;
    FloatTextIs(r, a, k, p, scaled);
    SignedDecimalValue(neg, w, f, k);
  }

  /** A whole number of cents is written exactly, so a display amount of n/100 reads
      back as n/100. */
  lemma CentsTextRoundTrip(n: int)
    ensures StrToFloat(FloatText(n as real / 100.0)) == n as real / 100.0
  {
    var r := n as real / 100.0;
    var a := if r < 0.0 then -r else r;
    var m := if n < 0 then -n else n;
    assert a == m as real / 100.0;
    assert Pow10(2) == 100;
    assert a * Pow10(2) as real == m as real;
    FloatTextRoundTrip(r, 2);
  }
}
