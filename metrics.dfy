/** The two metric cards of the vendor dashboard: the percentage change of
    the last seven days against a quarter of the all-time figure, the
    clean-up of currency strings before they are parsed, and the badge
    whose colour and arrow follow the sign of the change. Numbers follow
    JavaScript: NaN is `None`, and `x || 0` turns NaN and 0 into 0. */
module Metrics {
  import opened Common
  import opened JsNumbers

  // ---------------------------------------------------------------- change

  /** `calculateChange`: 0 against a zero baseline, otherwise the change in
      percent. Arithmetic with NaN gives NaN. */
  function CalculateChange(current: Option<real>, previous: Option<real>): (r: Option<real>)
    ensures previous == Some(0.0) ==> r == Some(0.0)
    ensures previous != Some(0.0) ==> (r.Some? <==> current.Some? && previous.Some?)
    ensures previous != Some(0.0) && r.Some? ==>
      r.value * previous.value == (current.value - previous.value) * 100.0
  {
    if previous == Some(0.0) then Some(0.0)
    else if current.None? || previous.None? then None
    else Some((current.value - previous.value) / previous.value * 100.0)
  }

  /** A change is never negative exactly when the ratio `(c - p) / p` is not. */
  lemma ChangeSign(c: real, p: real)
    requires p != 0.0
    ensures CalculateChange(Some(c), Some(p)).value >= 0.0 <==> (c - p) / p >= 0.0
  {
  }

  /** For a positive baseline the change is non-negative exactly when the
      current figure reaches the baseline; for a negative one, when it does
      not exceed it. */
  lemma {:induction false} ChangeSignAgainstBaseline(c: real, p: real)
    requires p != 0.0
    ensures p > 0.0 ==> (CalculateChange(Some(c), Some(p)).value >= 0.0 <==> c >= p)
    ensures p < 0.0 ==> (CalculateChange(Some(c), Some(p)).value >= 0.0 <==> c <= p)
  {
    var r := CalculateChange(Some(c), Some(p)).value;
    assert r * p == (c - p) * 100.0;
    if p > 0.0 {
      if r >= 0.0 { assert r * p >= 0.0; } else { assert r * p < 0.0; }
    } else {
      if r >= 0.0 { assert r * p <= 0.0; } else { assert r * p > 0.0; }
    }
  }

  /** `x || 0` on a number: NaN and 0 become 0, anything else is kept. */
  function OrZero(x: Option<real>): (r: real)
    ensures x.Some? ==> r == x.value
    ensures x.None? ==> r == 0.0
  {
    if x.Some? then x.value else 0.0
  }

  // ---------------------------------------------------------------- currency strings

  /** The characters the currency clean-up keeps: digits, `.` and `-`. */
  predicate Kept(c: char) { IsDigit(c) || c == '.' || c == '-' }

  /** `value.replace(/[^0-9.-]+/g, "")`: every run of other characters is removed. */
  function Strip(s: string): (r: string)
    ensures |r| <= |s|
    ensures forall i :: 0 <= i < |r| ==> Kept(r[i])
  {
    if s == [] then []
    else if Kept(s[0]) then [s[0]] + Strip(s[1..])
    else Strip(s[1..])
  }

  /** A string made only of kept characters comes back unchanged. */
  lemma {:induction false} StripKeepsCleanText(s: string)
    requires forall i :: 0 <= i < |s| ==> Kept(s[i])
    ensures Strip(s) == s
  {
    if s != [] {
      StripKeepsCleanText(s[1..]);
      assert [s[0]] + s[1..] == s;
    }
  }

  /** Cleaning twice is cleaning once. */
  lemma StripIdempotent(s: string)
    ensures Strip(Strip(s)) == Strip(s)
  {
    StripKeepsCleanText(Strip(s));
  }

  /** The clean-up works character by character: the pieces of a
      concatenation are cleaned separately. */
  lemma {:induction false} StripAppend(a: string, b: string)
    ensures Strip(a + b) == Strip(a) + Strip(b)
  {
    if a != [] {
      StripAppend(a[1..], b);
      assert (a + b)[0] == a[0];
      assert (a + b)[1..] == a[1..] + b;
    } else {
      assert a + b == b;
    }
  }

  /** Only other characters are dropped: the output is as long as the
      input exactly when every character of the input is kept. */
  lemma {:induction false} StripRemovesOnlyOthers(s: string)
    ensures |Strip(s)| == |s| <==> forall i :: 0 <= i < |s| ==> Kept(s[i])
  {
    if s != [] {
      StripRemovesOnlyOthers(s[1..]);
      if !Kept(s[0]) {
        assert |Strip(s)| < |s|;
      } else {
        assert forall i :: 1 <= i < |s| ==> s[1..][i - 1] == s[i];
      }
    }
  }

  /** `parseCurrency`: a missing or empty value is 0; otherwise the cleaned
      text is read with `parseFloat`. */
  function ParseCurrency(value: Option<string>): (r: Option<real>)
    ensures value.None? || value.value == [] ==> r == Some(0.0)
    ensures value.Some? && value.value != [] ==> r == ParseFloat(Strip(value.value))
  {
    if value.None? || value.value == [] then Some(0.0)
    else ParseFloat(Strip(value.value))
  }

  /** A currency sign and a thousands separator do not change the amount:
      `"$1,234.56"` reads as `"1234.56"` does. */
  lemma CurrencyDecorationsIgnored(digits: string, cents: string)
    requires forall i :: 0 <= i < |digits| ==> Kept(digits[i])
    requires forall i :: 0 <= i < |cents| ==> Kept(cents[i])
    ensures ParseCurrency(Some("$" + digits + "," + cents)) == ParseFloat(digits + cents)
  {
    var text := "$" + digits + "," + cents;
    assert text == ("$" + digits) + ("," + cents);
    StripAppend("$" + digits, "," + cents);
    DropLeadingOther('$', digits);
    DropLeadingOther(',', cents);
    assert Strip(text) == digits + cents;
  }

  /** A character outside the kept set in front of clean text is dropped. */
  lemma DropLeadingOther(c: char, clean: string)
    requires !Kept(c)
    requires forall i :: 0 <= i < |clean| ==> Kept(clean[i])
    ensures Strip([c] + clean) == clean
  {
    StripKeepsCleanText(clean);
    assert ([c] + clean)[1..] == clean;
  }

  // ---------------------------------------------------------------- badge

  /** The direction the badge shows: up and green, or down and red. */
  function TrendBadge(change: Option<real>): (b: Badge)
    ensures b == Success <==> change.Some? && change.value >= 0.0
    ensures b != Success ==> b == Error
  {
    if change.Some? && change.value >= 0.0 then Success else Error
  }

  /** The figure beside the arrow: `Math.abs` of the change (NaN stays NaN). */
  function DisplayedPercent(change: Option<real>): (r: Option<real>)
    ensures r.Some? <==> change.Some?
    ensures r.Some? ==> r.value >= 0.0 && (r.value == change.value || r.value == -change.value)
  {
    if change.None? then None
    else if change.value < 0.0 then Some(-change.value) else change
  }

  /** The orders card: the last seven days' orders (or 0) against a quarter
      of all orders (or 0). */
  function OrdersChange(last7Days: Option<real>, allTime: Option<real>): (r: Option<real>)
    ensures r.Some?
  {
    CalculateChange(Some(OrZero(last7Days)), Some(OrZero(allTime) / 4.0))
  }

  /** The orders badge is green exactly when there is no baseline, or the
      last week reaches a quarter of the all-time orders. */
  lemma OrdersBadgeRule(last7Days: Option<real>, allTime: Option<real>)
    requires OrZero(allTime) >= 0.0
    ensures TrendBadge(OrdersChange(last7Days, allTime)) == Success <==>
      OrZero(allTime) == 0.0 || OrZero(last7Days) >= OrZero(allTime) / 4.0
  {
    if OrZero(allTime) != 0.0 {
      ChangeSignAgainstBaseline(OrZero(last7Days), OrZero(allTime) / 4.0);
    }
  }

  /** The revenue card: the cleaned last-week revenue (NaN becomes 0)
      against a quarter of the cleaned all-time revenue, which defaults to "0". */
  function RevenueChange(last7Days: Option<string>, allTime: Option<string>): (r: Option<real>)
    ensures allTime.None? || allTime.value == [] ==> r == Some(0.0)
    ensures allTime.Some? && allTime.value != [] ==>
      r == CalculateChange(Some(OrZero(ParseCurrency(last7Days))), Quarter(ParseFloat(Strip(allTime.value))))
  {
    var total := if allTime.None? || allTime.value == [] then Some("0") else allTime;
    ZeroTextIsZero();
    CalculateChange(Some(OrZero(ParseCurrency(last7Days))), Quarter(ParseCurrency(total)))
  }

  /** A quarter of a number; NaN stays NaN. */
  function Quarter(x: Option<real>): (r: Option<real>)
    ensures r.Some? <==> x.Some?
    ensures r.Some? ==> r.value * 4.0 == x.value
  {
    if x.Some? then Some(x.value / 4.0) else None
  }

  /** The revenue badge is green exactly when the baseline is zero, or the
      last week reaches a quarter of the all-time revenue (for a positive
      total), or does not exceed it (for a negative one). */
  lemma RevenueBadgeRule(last7Days: Option<string>, total: string, t: real)
    requires total != [] && ParseFloat(Strip(total)) == Some(t)
    ensures t == 0.0 ==> TrendBadge(RevenueChange(last7Days, Some(total))) == Success
    ensures t > 0.0 ==>
      (TrendBadge(RevenueChange(last7Days, Some(total))) == Success <==> OrZero(ParseCurrency(last7Days)) >= t / 4.0)
    ensures t < 0.0 ==>
      (TrendBadge(RevenueChange(last7Days, Some(total))) == Success <==> OrZero(ParseCurrency(last7Days)) <= t / 4.0)
  {
    if t != 0.0 {
      ChangeSignAgainstBaseline(OrZero(ParseCurrency(last7Days)), t / 4.0);
    }
  }

  /** An all-time revenue with no digit in it makes the change NaN, so the
      badge turns red whatever the last week brought. */
  lemma UnreadableRevenueIsRed(last7Days: Option<string>, total: string)
    requires total != [] && !Scan(Strip(total)).HasDigits()
    ensures RevenueChange(last7Days, Some(total)).None?
    ensures TrendBadge(RevenueChange(last7Days, Some(total))) == Error
  {
  }

  /** The default all-time revenue `"0"` reads as 0. */
  lemma ZeroTextIsZero()
    ensures ParseCurrency(Some("0")) == Some(0.0)
  {
    assert Scan("0").whole == "0" && Scan("0").frac == [] && !Scan("0").negative;
    assert "0"[..0] == [];
  }

  /** Without an all-time revenue the baseline is 0 and the badge is green at 0%. */
  lemma MissingRevenueIsFlat(last7Days: Option<string>)
    ensures RevenueChange(last7Days, None) == Some(0.0)
    ensures TrendBadge(RevenueChange(last7Days, None)) == Success
  {
  }
}
