/** The monthly sales chart: twelve monthly slots filled in place from the
    `"YYYY-MM"` trends of the selected year, the error a response without
    trends raises, and the five years the year picker offers. */
module MonthlySales {
  import opened Common
  import opened JsNumbers

  datatype Trend = Trend(month: string, revenue: real)

  const Months: nat := 12

  function Zeros(): (sales: seq<real>)
    ensures |sales| == Months && forall k :: 0 <= k < Months ==> sales[k] == 0.0
  {
    seq(Months, _ => 0.0)
  }

  /** The slot a trend writes for `selectedYear`: `month.split('-').map(Number)`
      gives the year and month; the year must equal the selected one and
      `month - 1` must fall in `[0, 12)`. A missing month is NaN, and a
      fractional index names no slot of the array. */
  function Slot(t: Trend, selectedYear: int): (k: Option<nat>)
    ensures k.Some? ==> k.value < Months
    ensures k.Some? ==> ToNumber(Split(t.month, '-')[0]) == Some(selectedYear as real)
    ensures k.Some? ==> |Split(t.month, '-')| >= 2 && ToNumber(Split(t.month, '-')[1]) == Some(k.value as real + 1.0)
  {
    var (year, month) := YearAndMonth(t.month);
    if year == Some(selectedYear as real) && month.Some? then
      var monthIndex := month.value - 1.0;
      if 0.0 <= monthIndex < Months as real && monthIndex.Floor as real == monthIndex then
        Some(monthIndex.Floor as nat)
      else None
    else None
  }

  /** `month.split('-').map(Number)`, first two entries: NaN when missing. */
  function YearAndMonth(month: string): (ym: (Option<real>, Option<real>))
    ensures '-' !in month ==> ym == (ToNumber(month), None)
  {
    var parts := Split(month, '-');
    assert '-' !in month ==> parts == [month] by {
      if '-' !in month { SplitWithoutSeparator(month, '-'); }
    }
    (ToNumber(parts[0]), if |parts| >= 2 then ToNumber(parts[1]) else None)
  }

  /** The slots after one trend: its slot takes its revenue, the others keep theirs. */
  function Record(sales: seq<real>, t: Trend, selectedYear: int): (r: seq<real>)
    requires |sales| == Months
    ensures |r| == Months
    ensures Slot(t, selectedYear).Some? ==> r[Slot(t, selectedYear).value] == t.revenue
    ensures forall k :: 0 <= k < Months && Slot(t, selectedYear) != Some(k) ==> r[k] == sales[k]
  {
    match Slot(t, selectedYear)
    case Some(k) => sales[k := t.revenue]
    case None => sales
  }

  /** The twelve slots after the trends, in order, starting from zeros. */
  function Bucketed(trends: seq<Trend>, selectedYear: int): (sales: seq<real>)
    ensures |sales| == Months
    decreases |trends|
  {
    if trends == [] then Zeros()
    else Record(Bucketed(trends[..|trends| - 1], selectedYear), trends[|trends| - 1], selectedYear)
  }

  /** The revenue of the last trend that writes slot `k`, if any. */
  function LastWrite(trends: seq<Trend>, selectedYear: int, k: nat): Option<real>
    decreases |trends|
  {
    if trends == [] then None
    else if Slot(trends[|trends| - 1], selectedYear) == Some(k) then Some(trends[|trends| - 1].revenue)
    else LastWrite(trends[..|trends| - 1], selectedYear, k)
  }

  /** Slots are assigned, not summed: each slot holds the revenue of the
      last trend for that month, or 0 when no trend wrote it. */
  lemma {:induction false} BucketIsLastWrite(trends: seq<Trend>, selectedYear: int, k: nat)
    requires k < Months
    ensures Bucketed(trends, selectedYear)[k] ==
      if LastWrite(trends, selectedYear, k).Some? then LastWrite(trends, selectedYear, k).value else 0.0
    decreases |trends|
  {
    if trends != [] {
      BucketIsLastWrite(trends[..|trends| - 1], selectedYear, k);
    }
  }

  /** A slot no trend writes stays 0. */
  lemma {:induction false} UnwrittenSlotStaysZero(trends: seq<Trend>, selectedYear: int, k: nat)
    requires k < Months
    requires forall i :: 0 <= i < |trends| ==> Slot(trends[i], selectedYear) != Some(k)
    ensures Bucketed(trends, selectedYear)[k] == 0.0
    decreases |trends|
  {
    if trends != [] {
      var init := trends[..|trends| - 1];
      assert forall i :: 0 <= i < |init| ==> init[i] == trends[i];
      UnwrittenSlotStaysZero(init, selectedYear, k);
    }
  }

  /** A trend that names no slot (another year, a month out of range, an
      unreadable date) leaves every slot as it was. */
  lemma IgnoredTrendChangesNothing(trends: seq<Trend>, t: Trend, selectedYear: int)
    requires Slot(t, selectedYear).None?
    ensures Bucketed(trends + [t], selectedYear) == Bucketed(trends, selectedYear)
  {
    assert (trends + [t])[..|trends|] == trends;
  }

  /** Of two trends for the same month, the later one is shown. */
  lemma LaterTrendWins(trends: seq<Trend>, a: Trend, b: Trend, selectedYear: int)
    requires Slot(a, selectedYear).Some? && Slot(b, selectedYear) == Slot(a, selectedYear)
    ensures Bucketed(trends + [a, b], selectedYear)[Slot(a, selectedYear).value] == b.revenue
  {
    var all := trends + [a, b];
    assert all[..|all| - 1] == trends + [a] && all[|all| - 1] == b;
    assert Bucketed(all, selectedYear) == Record(Bucketed(trends + [a], selectedYear), b, selectedYear);
  }

  lemma DigitsHaveNoDash(ds: string)
    requires AllDigits(ds)
    ensures '-' !in ds
  {
    assert forall i :: 0 <= i < |ds| ==> ds[i] != '-';
  }

  /** `"YYYY-MM".split('-')` gives the two digit runs. */
  lemma SplitYearMonth(ys: string, ms: string)
    requires AllDigits(ys) && AllDigits(ms)
    ensures Split(ys + "-" + ms, '-') == [ys, ms]
  {
    DigitsHaveNoDash(ys);
    DigitsHaveNoDash(ms);
    SplitAppendPiece(ys, ms, '-');
    SplitWithoutSeparator(ys, '-');
  }

  /** A `"YYYY-MM"` made of digits reads as the two numbers its digits denote. */
  lemma YearAndMonthOfDigits(ys: string, ms: string)
    requires ys != [] && AllDigits(ys) && ms != [] && AllDigits(ms)
    ensures YearAndMonth(ys + "-" + ms) == (Some(DigitsValue(ys) as real), Some(DigitsValue(ms) as real))
  {
    SplitYearMonth(ys, ms);
    NumberOfDigits(ys);
    NumberOfDigits(ms);
  }

  /** A well-formed `"YYYY-MM"` of the selected year writes slot `MM - 1`. */
  lemma SlotOfYearMonth(ys: string, ms: string, revenue: real, selectedYear: int)
    requires ys != [] && AllDigits(ys) && DigitsValue(ys) == selectedYear
    requires ms != [] && AllDigits(ms) && 1 <= DigitsValue(ms) <= Months
    ensures Slot(Trend(ys + "-" + ms, revenue), selectedYear) == Some(DigitsValue(ms) - 1)
  {
    YearAndMonthOfDigits(ys, ms);
    SlotOfMonthNumber(Trend(ys + "-" + ms, revenue), selectedYear, DigitsValue(ms));
  }

  /** A trend of the selected year whose month reads as `m` in `1..12` writes slot `m - 1`. */
  lemma SlotOfMonthNumber(t: Trend, selectedYear: int, m: nat)
    requires YearAndMonth(t.month) == (Some(selectedYear as real), Some(m as real))
    requires 1 <= m <= Months
    ensures Slot(t, selectedYear) == Some(m - 1)
  {
    var monthIndex := m as real - 1.0;
    assert monthIndex == (m - 1) as real;
    assert monthIndex.Floor == m - 1;
    assert 0.0 <= monthIndex < Months as real && monthIndex.Floor as real == monthIndex;
  }

  /** One more trend is one more `Record`. */
  lemma BucketedStep(trends: seq<Trend>, i: nat, selectedYear: int)
    requires i < |trends|
    ensures Bucketed(trends[..i + 1], selectedYear) == Record(Bucketed(trends[..i], selectedYear), trends[i], selectedYear)
  {
    assert trends[..i + 1][..i] == trends[..i];
  }

  /** The bucketing loop of `fetchVendorMonthlySales`: a twelve-slot array
      of zeros written in place, one trend at a time. */
  method BucketMonthlySales(trends: seq<Trend>, selectedYear: int) returns (sales: seq<real>)
    ensures sales == Bucketed(trends, selectedYear)
  {
    var monthlySales := new real[Months](_ => 0.0);
    assert monthlySales[..] == Zeros();
    var i := 0;
    while i < |trends|
      invariant 0 <= i <= |trends|
      invariant monthlySales[..] == Bucketed(trends[..i], selectedYear)
    {
      var trend := trends[i];
      ghost var before := monthlySales[..];
      var (year, month) := YearAndMonth(trend.month);
      if year == Some(selectedYear as real) && month.Some? {
        var monthIndex := month.value - 1.0;
        if 0.0 <= monthIndex < Months as real && monthIndex.Floor as real == monthIndex {
          monthlySales[monthIndex.Floor] := trend.revenue;
          assert Slot(trend, selectedYear) == Some(monthIndex.Floor as nat);
        } else {
          assert Slot(trend, selectedYear).None?;
        }
      } else {
        assert Slot(trend, selectedYear).None?;
      }
      assert monthlySales[..] == Record(before, trend, selectedYear);
      BucketedStep(trends, i, selectedYear);
      i := i + 1;
    }
    assert trends[..i] == trends;
    sales := monthlySales[..];
  }

  // ---------------------------------------------------------------- fetch

  /** What the analytics request came back with. */
  datatype SalesResponse =
    | Received(monthlyTrends: Option<seq<Trend>>)
    | HttpFailure(status: nat)
    | Thrown(message: string)
    | ThrownNonError

  const TrendsMissingMessage := "Invalid data format: monthly_trends missing"
  const FallbackMessage := "Failed to load sales data"

  function NatToString(n: nat): (s: string)
    ensures s != [] && AllDigits(s)
  {
    if n < 10 then [('0' as int + n) as char]
    else NatToString(n / 10) + [('0' as int + n % 10) as char]
  }

  /** The status in the HTTP error message reads back as the status. */
  lemma {:induction false} NatToStringReadsBack(n: nat)
    ensures DigitsValue(NatToString(n)) == n
  {
    var s := NatToString(n);
    if n >= 10 {
      NatToStringReadsBack(n / 10);
      assert s[..|s| - 1] == NatToString(n / 10);
    }
  }

  const HttpErrorPrefix := "HTTP error! status: "

  /** The message of the error thrown for a response that is not ok: the
      prefix, then the status in decimal, which reads back as the status. */
  function HttpErrorMessage(status: nat): (m: string)
    ensures HttpErrorPrefix <= m
    ensures AllDigits(m[|HttpErrorPrefix|..]) && DigitsValue(m[|HttpErrorPrefix|..]) == status
  {
    NatToStringReadsBack(status);
    assert (HttpErrorPrefix + NatToString(status))[|HttpErrorPrefix|..] == NatToString(status);
    HttpErrorPrefix + NatToString(status)
  }

  datatype ChartView = ChartView(series: seq<real>, loading: bool, error: Option<string>)

  /** The chart after one fetch for `selectedYear`: the error is cleared
      first, a response with trends replaces the series, and every failure
      leaves the series as it was and shows its message. */
  function AfterSalesFetch(v: ChartView, r: SalesResponse, selectedYear: int): (w: ChartView)
    ensures !w.loading
    ensures r.Received? && r.monthlyTrends.Some? ==>
      w.series == Bucketed(r.monthlyTrends.value, selectedYear) && w.error == None
    ensures r.Received? && r.monthlyTrends.None? ==> w.series == v.series && w.error == Some(TrendsMissingMessage)
    ensures r.HttpFailure? ==> w.series == v.series && w.error == Some(HttpErrorMessage(r.status))
    ensures r.Thrown? ==> w.series == v.series && w.error == Some(r.message)
    ensures r.ThrownNonError? ==> w.series == v.series && w.error == Some(FallbackMessage)
  {
    match r
    case Received(Some(trends)) => ChartView(Bucketed(trends, selectedYear), false, None)
    case Received(None) => v.(loading := false, error := Some(TrendsMissingMessage))
    case HttpFailure(status) => v.(loading := false, error := Some(HttpErrorMessage(status)))
    case Thrown(message) => v.(loading := false, error := Some(message))
    case ThrownNonError => v.(loading := false, error := Some(FallbackMessage))
  }

  /** Whatever comes back, the series keeps its twelve slots. */
  lemma SeriesKeepsTwelveSlots(v: ChartView, r: SalesResponse, selectedYear: int)
    requires |v.series| == Months
    ensures |AfterSalesFetch(v, r, selectedYear).series| == Months
  {
  }

  /** The years the picker offers: two before the current year to two after, ascending. */
  function YearOptions(currentYear: int): (years: seq<int>)
    ensures |years| == 5
    ensures forall i, j :: 0 <= i < j < |years| ==> years[i] < years[j]
    ensures forall y :: y in years <==> currentYear - 2 <= y <= currentYear + 2
  {
    [currentYear - 2, currentYear - 1, currentYear, currentYear + 1, currentYear + 2]
  }

  class SalesChart {
    var series: seq<real>
    var loading: bool
    var error: Option<string>
    var selectedYear: int

    /** The chart starts on the current year with twelve zero slots, loading. */
    constructor (currentYear: int)
      ensures View() == ChartView(Zeros(), true, None) && selectedYear == currentYear
    {
      series, loading, error := Zeros(), true, None;
      selectedYear := currentYear;
    }

    function View(): ChartView
      reads this
    {
      ChartView(series, loading, error)
    }

    /** `fetchVendorMonthlySales`, with the response given as `r`. */
    method FetchMonthlySales(r: SalesResponse)
      modifies this`series, this`loading, this`error
      ensures View() == AfterSalesFetch(old(View()), r, selectedYear)
    {
      loading := true;
      error := None;
      match r {
        case HttpFailure(status) =>
          error := Some(HttpErrorMessage(status));
        case Thrown(message) =>
          error := Some(message);
        case ThrownNonError =>
          error := Some(FallbackMessage);
        case Received(trends) =>
          if trends.None? {
            error := Some(TrendsMissingMessage);
          } else {
            series := BucketMonthlySales(trends.value, selectedYear);
          }
      }
      loading := false;
    }

    /** Picking a year stores it and fetches again for it. */
    method SelectYear(year: int, r: SalesResponse)
      modifies this
      ensures selectedYear == year
      ensures View() == AfterSalesFetch(old(View()), r, year)
    {
      selectedYear := year;
      FetchMonthlySales(r);
    }
  }
}
