/**
 * The dashboard: the currency roster with the same toggles as the data
 * management page, and a chart of the 30 most recent USD rates.  The rates
 * arrive newest first; the chart reverses them and keeps, per row, the date
 * without its `YYYY-` prefix and the spot sell rate.
 */
module Dashboard {
  import opened Wrappers
  import opened Store
  import opened Paging
  import opened Roster

  /** A row of `select('date, spot_sell_rate')` on `exchange_rates`. */
  datatype DatedRate = DatedRate(date: string, spot_sell_rate: Amount)

  datatype ChartDataPoint = ChartDataPoint(date: string, rate: Amount)

  /** The rates query: one currency's rows, newest first, at most `limit`. */
  datatype RecentRatesQuery = RecentRatesQuery(base_currency: string, limit: nat)

  const RecentUsdRates: RecentRatesQuery := RecentRatesQuery("USD", 30)

  function RowDate(r: DatedRate): string { r.date }

  /** What the store promises of its answer to a `RecentRatesQuery`. */
  ghost predicate Answers(q: RecentRatesQuery, rows: seq<DatedRate>)
  {
    |rows| <= q.limit && Descending(rows, RowDate)
  }

  /** `s.substring(5)`: the text from index 5 on, or empty when `s` is shorter. */
  function DropYear(s: string): (r: string)
    ensures |s| >= 5 ==> s == s[..5] + r
    ensures |s| < 5 ==> r == ""
  {
    if |s| < 5 then "" else s[5..]
  }

  function ToPoint(item: DatedRate): ChartDataPoint
  {
    ChartDataPoint(DropYear(item.date), item.spot_sell_rate)
  }

  /** One chart point per row, in order. */
  function ToPoints(rows: seq<DatedRate>): (r: seq<ChartDataPoint>)
    ensures |r| == |rows|
    ensures forall i :: 0 <= i < |rows| ==> r[i] == ToPoint(rows[i])
  {
    if rows == [] then [] else [ToPoint(rows[0])] + ToPoints(rows[1..])
  }

  /** The chart series: the fetched rows reversed, each turned into a point by `ToPoint`. */
  function ChartSeries(fetched: seq<DatedRate>): (r: seq<ChartDataPoint>)
    ensures |r| == |fetched|
    ensures forall i :: 0 <= i < |fetched| ==>
              r[i].date == DropYear(fetched[|fetched| - 1 - i].date) &&
              r[i].rate == fetched[|fetched| - 1 - i].spot_sell_rate
  {
    ToPoints(Reverse(fetched))
  }

  /** The chart of an answer has one point per row, at most 30, the oldest row first. */
  lemma ChartOfAnswer(fetched: seq<DatedRate>)
    requires Answers(RecentUsdRates, fetched)
    ensures |ChartSeries(fetched)| <= 30
    ensures |fetched| > 0 ==> ChartSeries(fetched)[0].date == DropYear(fetched[|fetched| - 1].date)
    ensures Ascending(Reverse(fetched), RowDate)
  {
    var r := Reverse(fetched);
    forall i, j | 0 <= i < j < |r|
      ensures DateLe(RowDate(r[i]), RowDate(r[j]))
    {
      assert r[i] == fetched[|fetched| - 1 - i] && r[j] == fetched[|fetched| - 1 - j];
    }
  }

  class Page {
    var currencies: seq<Currency>
    var loading: bool
    var chartData: seq<ChartDataPoint>

    constructor ()
      ensures currencies == [] && loading && chartData == []
    {
      currencies, loading, chartData := [], true, [];
    }

    /** The chart section shows the points while there are any, and the spinner otherwise. */
    function ChartArea(): (v: ChartArea<ChartDataPoint>)
      reads this
      ensures |chartData| > 0 <==> v == Chart(chartData)
      ensures |chartData| == 0 <==> v == Spinner
    {
      if |chartData| > 0 then Chart(chartData) else Spinner
    }

    method FetchCurrencies(resp: Response<Currency>)
      modifies this
      ensures currencies == Fetched(old(currencies), resp) && !loading
      ensures chartData == old(chartData)
    {
      currencies := Fetched(currencies, resp);
      loading := false;
    }

    /** `fetchExchangeRates`: an answer without error and with data replaces the chart. */
    method FetchExchangeRates(resp: Response<DatedRate>) returns (q: RecentRatesQuery)
      modifies this
      ensures q == RecentUsdRates
      ensures !resp.error && resp.data.Some? ==> chartData == ChartSeries(resp.data.value)
      ensures !(!resp.error && resp.data.Some?) ==> chartData == old(chartData)
      ensures !resp.error && resp.data == Some([]) ==> ChartArea() == Spinner
      ensures currencies == old(currencies) && loading == old(loading)
    {
      q := RecentUsdRates;
      if resp.error {
        // the error is only logged
      } else if resp.data.Some? {
        chartData := ChartSeries(resp.data.value);
      }
    }

    /** `toggleCurrency(code, currentStatus)`, as on the data management page. */
    method ToggleCurrency(code: string, currentStatus: bool, updateFailed: bool) returns (u: UpdateRequest)
      modifies this
      ensures u == UpdateFor(code, currentStatus)
      ensures currencies == ApplyToggle(old(currencies), code, currentStatus, updateFailed)
      ensures loading == old(loading) && chartData == old(chartData)
    {
      u := UpdateFor(code, currentStatus);
      if !updateFailed {
        currencies := Toggle(currencies, code, currentStatus);
      }
    }
  }

  /**
   * Row `i` of a loaded roster is clicked twice and both updates succeed:
   * the two updates carry opposite values, the first the negation of the
   * row's status, and the list ends as it was loaded.
   */
  method ToggleRowTwice(rows: seq<Currency>, i: nat)
    returns (u1: UpdateRequest, u2: UpdateRequest, after: seq<Currency>)
    requires UniqueCodes(rows) && i < |rows|
    ensures u1 == UpdateRequest(rows[i].code, !rows[i].is_active)
    ensures u2 == UpdateRequest(rows[i].code, rows[i].is_active)
    ensures after == rows
  {
    var page := new Page();
    page.FetchCurrencies(Response(false, Some(rows)));
    u1 := page.ToggleCurrency(page.currencies[i].code, page.currencies[i].is_active, false);
    ToggleClickedRow(rows, i);
    ToggleKeepsCodes(rows, rows[i].code, rows[i].is_active);
    u2 := page.ToggleCurrency(page.currencies[i].code, page.currencies[i].is_active, false);
    ToggleTwice(rows, rows[i].code, rows[i].is_active);
    after := page.currencies;
  }
}
