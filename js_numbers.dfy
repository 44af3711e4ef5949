/** The two JavaScript string-to-number conversions the console relies on,
    over decimal notation: `Number(s)` (used by `isNaN` and by the payout
    form), which needs the whole string to be a number, and `parseFloat(s)`,
    which reads the longest decimal prefix. NaN is `None`; every comparison
    with NaN is false, which `Lt`/`Le`/`Gt` reproduce. */
module JsNumbers {
  import opened Common

  predicate IsDigit(c: char) { '0' <= c <= '9' }

  predicate AllDigits(s: string) { forall i :: 0 <= i < |s| ==> IsDigit(s[i]) }

  /** Length of the longest prefix of `s` made of digits. */
  function DigitRun(s: string): (n: nat)
    ensures n <= |s|
    ensures AllDigits(s[..n])
    ensures n < |s| ==> !IsDigit(s[n])
  {
    if s == [] || !IsDigit(s[0]) then 0 else 1 + DigitRun(s[1..])
  }

  /** A decimal literal read from the front of a string:
      sign, whole digits, an optional point, fraction digits, and what is left. */
  datatype Scanned = Scanned(negative: bool, signed: bool, whole: string, point: bool, frac: string, rest: string)
  {
    predicate HasDigits() { |whole| + |frac| > 0 }
  }

  /** Reads `[0-9]*(\.[0-9]*)?` from the front of an unsigned body; the
      digit runs are as long as they can be. */
  function ScanUnsigned(body: string): (d: Scanned)
    ensures !d.signed && !d.negative
    ensures d.whole <= body && (|d.whole| < |body| ==> !IsDigit(body[|d.whole|]))
    ensures AllDigits(d.whole) && AllDigits(d.frac)
    ensures !d.point ==> d.frac == [] && (d.rest == [] || (d.rest[0] != '.' && !IsDigit(d.rest[0])))
    ensures d.point ==> d.rest == [] || !IsDigit(d.rest[0])
  {
    var w := DigitRun(body);
    var after := body[w..];
    assert AllDigits(body[..w]);
    assert after == [] || after[0] == body[w];
    if after != [] && after[0] == '.' then
      var tail := after[1..];
      var f := DigitRun(tail);
      assert AllDigits(tail[..f]);
      assert tail[f..] == [] || tail[f..][0] == tail[f];
      Scanned(false, false, body[..w], true, tail[..f], tail[f..])
    else
      Scanned(false, false, body[..w], false, [], after)
  }

  /** Reads the longest prefix of the form `[+-]?[0-9]*(\.[0-9]*)?`. */
  function Scan(s: string): (d: Scanned)
    ensures d.signed <==> s != [] && (s[0] == '-' || s[0] == '+')
    ensures d.negative <==> s != [] && s[0] == '-'
    ensures var body := if d.signed then s[1..] else s;
      d.whole <= body && (|d.whole| < |body| ==> !IsDigit(body[|d.whole|]))
    ensures AllDigits(d.whole) && AllDigits(d.frac)
    ensures !d.point ==> d.frac == [] && (d.rest == [] || (d.rest[0] != '.' && !IsDigit(d.rest[0])))
    ensures d.point ==> d.rest == [] || !IsDigit(d.rest[0])
  {
    if s != [] && (s[0] == '-' || s[0] == '+') then
      ScanUnsigned(s[1..]).(signed := true, negative := s[0] == '-')
    else
      ScanUnsigned(s)
  }

  /** The text a scan stands for. */
  function Reassemble(d: Scanned): string
  {
    (if d.signed then [if d.negative then '-' else '+'] else []) + Unsigned(d)
  }

  function Unsigned(d: Scanned): string
  {
    d.whole + (if d.point then ['.'] else []) + d.frac + d.rest
  }

  lemma {:induction false} ScanUnsignedReassembles(body: string)
    ensures Unsigned(ScanUnsigned(body)) == body
  {
    var w := DigitRun(body);
    var after := body[w..];
    if after != [] && after[0] == '.' {
      ReassembleWithPoint(body[..w], after[1..]);
      assert body[..w] + ['.'] + after[1..] == body;
    } else {
      assert body[..w] + [] + [] + after == body;
    }
  }

  lemma ReassembleWithPoint(whole: string, tail: string)
    ensures var f := DigitRun(tail); whole + ['.'] + tail[..f] + tail[f..] == whole + ['.'] + tail
  {
    var f := DigitRun(tail);
    assert tail[..f] + tail[f..] == tail;
  }

  /** Scanning loses nothing: the pieces put back together give the input. */
  lemma ScanReassembles(s: string)
    ensures Reassemble(Scan(s)) == s
  {
    if s != [] && (s[0] == '-' || s[0] == '+') {
      ScanUnsignedReassembles(s[1..]);
      var u := ScanUnsigned(s[1..]);
      var d := Scan(s);
      assert d == u.(signed := true, negative := s[0] == '-');
      assert Unsigned(d) == Unsigned(u);
      assert [if d.negative then '-' else '+'] == [s[0]];
      assert Reassemble(d) == [s[0]] + s[1..];
      assert [s[0]] + s[1..] == s;
    } else {
      ScanUnsignedReassembles(s);
    }
  }

  function DigitValue(c: char): nat
    requires IsDigit(c)
  {
    c as int - '0' as int
  }

  /** The integer a string of digits denotes (most significant first). */
  function DigitsValue(ds: string): nat
    requires AllDigits(ds)
  {
    if ds == [] then 0 else DigitsValue(ds[..|ds| - 1]) * 10 + DigitValue(ds[|ds| - 1])
  }

  function Pow10(n: nat): (p: nat)
    ensures p >= 1
  {
    if n == 0 then 1 else 10 * Pow10(n - 1)
  }

  /** `n` digits denote less than `10^n`. */
  lemma {:induction false} DigitsBelowPow10(ds: string)
    requires AllDigits(ds)
    ensures DigitsValue(ds) < Pow10(|ds|)
  {
    if ds != [] {
      var init := ds[..|ds| - 1];
      assert AllDigits(init) by { assert forall i :: 0 <= i < |init| ==> init[i] == ds[i]; }
      DigitsBelowPow10(init);
      assert DigitValue(ds[|ds| - 1]) <= 9;
    }
  }

  /** The fraction digits add less than one: a decimal lies between its
      whole part and the next integer. */
  lemma FractionBelowOne(whole: string, frac: string)
    requires AllDigits(whole) && AllDigits(frac)
    ensures var v := Value(Scanned(false, false, whole, true, frac, []));
      DigitsValue(whole) as real <= v < DigitsValue(whole) as real + 1.0
  {
    DigitsBelowPow10(frac);
    RatioBelowOne(DigitsValue(frac) as real, Pow10(|frac|) as real);
  }

  lemma RatioBelowOne(f: real, p: real)
    requires 0.0 <= f < p
    ensures 0.0 <= f / p < 1.0
  {
    var q := f / p;
    assert q * p == f;
  }

  function Value(d: Scanned): real
    requires AllDigits(d.whole) && AllDigits(d.frac)
  {
    var magnitude := DigitsValue(d.whole) as real + DigitsValue(d.frac) as real / Pow10(|d.frac|) as real;
    if d.negative then -magnitude else magnitude
  }

  /** `Number(s)`: the empty string is 0; otherwise the whole string must be
      one decimal literal with at least one digit, else NaN. */
  function ToNumber(s: string): (r: Option<real>)
    ensures s == [] ==> r == Some(0.0)
    ensures s != [] && r.Some? ==> Scan(s).rest == [] && Scan(s).HasDigits()
    ensures s != [] && Scan(s).rest == [] && Scan(s).HasDigits() ==> r == Some(Value(Scan(s)))
  {
    if s == [] then Some(0.0)
    else
      var d := Scan(s);
      if d.rest == [] && d.HasDigits() then Some(Value(d)) else None
  }

  /** `parseFloat(s)`: the value of the longest decimal prefix, NaN when it has no digit. */
  function ParseFloat(s: string): (r: Option<real>)
    ensures r.Some? <==> Scan(s).HasDigits()
    ensures r.Some? ==> r.value == Value(Scan(s))
  {
    var d := Scan(s);
    if d.HasDigits() then Some(Value(d)) else None
  }

  /** On a non-empty string that `Number` accepts, `parseFloat` agrees with it. */
  lemma ParseFloatAgreesWithNumber(s: string)
    requires s != [] && ToNumber(s).Some?
    ensures ParseFloat(s) == ToNumber(s)
  {
  }

  /** JavaScript `<=`, `<` and `>` on numbers: false whenever either side is NaN. */
  predicate Le(a: Option<real>, b: Option<real>) { a.Some? && b.Some? && a.value <= b.value }
  predicate Lt(a: Option<real>, b: Option<real>) { a.Some? && b.Some? && a.value < b.value }
  predicate Gt(a: Option<real>, b: Option<real>) { Lt(b, a) }

  lemma {:induction false} DigitRunAll(ds: string)
    requires AllDigits(ds)
    ensures DigitRun(ds) == |ds|
  {
    if ds != [] { DigitRunAll(ds[1..]); }
  }

  /** A non-empty run of digits is a number, with the value the digits denote. */
  lemma {:induction false} NumberOfDigits(ds: string)
    requires ds != [] && AllDigits(ds)
    ensures ToNumber(ds) == Some(DigitsValue(ds) as real)
  {
    DigitRunAll(ds);
    assert ds[..|ds|] == ds;
    assert !IsDigit('-') && !IsDigit('+');
    assert ds[0] != '-' && ds[0] != '+';
  }

  /** `whole.frac` with digit runs on both sides (at least one digit) is a
      number: the one its digits denote. */
  lemma NumberOfDecimal(whole: string, frac: string)
    requires AllDigits(whole) && AllDigits(frac) && |whole| + |frac| > 0
    ensures ToNumber(whole + "." + frac) == Some(Value(Scanned(false, false, whole, true, frac, [])))
  {
    var s := whole + "." + frac;
    assert s == whole + ("." + frac);
    ScanDecimal(whole, frac);
  }

  lemma ScanDecimal(whole: string, frac: string)
    requires AllDigits(whole) && AllDigits(frac)
    ensures Scan(whole + ("." + frac)) == Scanned(false, false, whole, true, frac, [])
  {
    var s := whole + ("." + frac);
    assert s[0] != '-' && s[0] != '+' by {
      if whole != [] { assert s[0] == whole[0]; } else { assert s[0] == '.'; }
    }
    ScanUnsignedDecimal(whole, frac);
  }

  lemma ScanUnsignedDecimal(whole: string, frac: string)
    requires AllDigits(whole) && AllDigits(frac)
    ensures ScanUnsigned(whole + ("." + frac)) == Scanned(false, false, whole, true, frac, [])
  {
    var body := whole + ("." + frac);
    DigitRunPrefix(whole, "." + frac);
    assert body[..|whole|] == whole;
    assert body[|whole|..] == "." + frac;
    DigitRunAll(frac);
    assert ("." + frac)[1..] == frac;
    assert frac[..|frac|] == frac && frac[|frac|..] == [];
  }

  /** The digit run of a digit string followed by a non-digit stops there. */
  lemma {:induction false} DigitRunPrefix(ds: string, rest: string)
    requires AllDigits(ds) && (rest == [] || !IsDigit(rest[0]))
    ensures DigitRun(ds + rest) == |ds|
  {
    if ds != [] {
      assert (ds + rest)[1..] == ds[1..] + rest;
      DigitRunPrefix(ds[1..], rest);
    } else {
      assert ds + rest == rest;
    }
  }
}
