/**
 * The exchange-rate page.  It lists the active currency codes for a
 * selector; whenever the selected currency or the date range changes it
 * loads that currency's rates oldest first, bounded below by "today minus N
 * days" unless the range is "全部" (all).  The chart draws the rows as
 * loaded; the table pages newest first, 15 rows to a page.
 */
module ExchangeRates {
  import opened Wrappers
  import opened Store
  import opened Paging

  datatype RateHistory = RateHistory(date: string, spot_sell_rate: Amount, cash_sell_rate: Amount)

  /** A row of the `select('code')` answer. */
  datatype CodeRow = CodeRow(code: string)

  datatype RangeOption = RangeOption(caption: string, days: int)

  const ItemsPerPage: nat := 15
  const DefaultCurrency: string := "USD"
  const DefaultRange: int := 90

  /** The range buttons; 0 days stands for the whole history. */
  const RangeOptions: seq<RangeOption> := [
    RangeOption("1M", 30),
    RangeOption("3M", 90),
    RangeOption("6M", 180),
    RangeOption("1Y", 365),
    RangeOption("全部", 0)
  ]

  /**
   * The rates query: rows of `exchange_rates` for one currency, oldest
   * first, with `date >= fromDate` when a lower bound is present.
   */
  datatype RateQuery = RateQuery(base_currency: string, fromDate: Option<string>)

  /**
   * The query the fetch effect builds.  `daysAgo(n)` is the ISO date of the
   * moment `n` days before now, which the page computes from the clock.
   */
  function BuildQuery(currency: string, dateRange: int, daysAgo: int -> string): (q: RateQuery)
    ensures q.base_currency == currency
    ensures q.fromDate.Some? <==> dateRange > 0
    ensures q.fromDate.Some? ==> q.fromDate.value == daysAgo(dateRange)
  {
    if dateRange > 0 then RateQuery(currency, Some(daysAgo(dateRange)))
    else RateQuery(currency, None)
  }

  /** The code of each row, in order. */
  function CodesOf(rows: seq<CodeRow>): (codes: seq<string>)
    ensures |codes| == |rows|
    ensures forall i :: 0 <= i < |rows| ==> codes[i] == rows[i].code
  {
    if rows == [] then [] else [rows[0].code] + CodesOf(rows[1..])
  }

  function RateDate(r: RateHistory): string { r.date }

  /** What the store promises of its answer to a `RateQuery`. */
  ghost predicate Answers(q: RateQuery, rows: seq<RateHistory>)
  {
    Ascending(rows, RateDate) &&
    (q.fromDate.Some? ==> forall i :: 0 <= i < |rows| ==> DateLe(q.fromDate.value, rows[i].date))
  }

  /** Of the range buttons, only "全部" asks for no lower bound. */
  lemma OnlyAllIsUnbounded(i: nat, daysAgo: int -> string, currency: string)
    requires i < |RangeOptions|
    ensures BuildQuery(currency, RangeOptions[i].days, daysAgo).fromDate.None?
        <==> RangeOptions[i].caption == "全部"
  {
  }

  class Page {
    var currencies: seq<string>
    var selectedCurrency: string
    var historyData: seq<RateHistory>
    var loading: bool
    var currentPage: int
    var dateRange: int

    ghost predicate Valid()
      reads this
    {
      PageInRange(currentPage, |historyData|, ItemsPerPage)
    }

    constructor ()
      ensures Valid()
      ensures currencies == [] && selectedCurrency == DefaultCurrency && historyData == []
      ensures !loading && currentPage == 1 && dateRange == DefaultRange
    {
      currencies, selectedCurrency, historyData := [], DefaultCurrency, [];
      loading, currentPage, dateRange := false, 1, DefaultRange;
    }

    function TotalPagesNow(): (r: nat)
      reads this
      ensures r * ItemsPerPage >= |historyData|
      ensures r * ItemsPerPage < |historyData| + ItemsPerPage
    {
      TotalPages(|historyData|, ItemsPerPage)
    }

    /** The rows of the table: page `currentPage` of the newest-first order. */
    function CurrentTableData(): (r: seq<RateHistory>)
      reads this
      requires Valid()
      ensures |r| <= ItemsPerPage
      ensures r == Reverse(historyData)[Min((currentPage - 1) * ItemsPerPage, |historyData|)
                                        ..Min(currentPage * ItemsPerPage, |historyData|)]
    {
      TablePageWindow(historyData, currentPage, ItemsPerPage);
      TablePage(historyData, currentPage, ItemsPerPage)
    }

    /**
     * The chart section: the chart over the history as it is stored while
     * there is any, the empty-state note once loading is over, otherwise
     * nothing (the spinner sits beside the selector).
     */
    function ChartArea(): (v: ChartArea<RateHistory>)
      reads this
      ensures |historyData| > 0 <==> v == Chart(historyData)
      ensures v == EmptyState <==> |historyData| == 0 && !loading
      ensures v == Blank <==> |historyData| == 0 && loading
    {
      if |historyData| > 0 then Chart(historyData) else if !loading then EmptyState else Blank
    }

    /** `fetchAvailableCurrencies`: any answer with data replaces the selector's codes. */
    method FetchAvailableCurrencies(resp: Response<CodeRow>)
      requires Valid()
      modifies this
      ensures Valid()
      ensures resp.data.Some? ==> currencies == CodesOf(resp.data.value)
      ensures resp.data.None? ==> currencies == old(currencies)
      ensures selectedCurrency == old(selectedCurrency) && historyData == old(historyData)
      ensures loading == old(loading) && currentPage == old(currentPage) && dateRange == old(dateRange)
    {
      if resp.data.Some? {
        currencies := CodesOf(resp.data.value);
      }
    }

    method SelectCurrency(code: string)
      requires Valid()
      modifies this
      ensures Valid()
      ensures selectedCurrency == code
      ensures currencies == old(currencies) && historyData == old(historyData)
      ensures loading == old(loading) && currentPage == old(currentPage) && dateRange == old(dateRange)
    {
      selectedCurrency := code;
    }

    /** A range button's `onClick`. */
    method SetDateRange(days: int)
      requires Valid()
      modifies this
      ensures Valid()
      ensures dateRange == days
      ensures currencies == old(currencies) && selectedCurrency == old(selectedCurrency)
      ensures historyData == old(historyData) && loading == old(loading) && currentPage == old(currentPage)
    {
      dateRange := days;
    }

    /**
     * The start of `fetchRates`: with no currency selected nothing happens;
     * otherwise the spinner turns on and the rates query is issued.
     */
    method BeginFetchRates(daysAgo: int -> string) returns (q: Option<RateQuery>)
      requires Valid()
      modifies this
      ensures Valid()
      ensures old(selectedCurrency) == "" ==> q == None && loading == old(loading)
      ensures old(selectedCurrency) != "" ==>
                q == Some(BuildQuery(selectedCurrency, dateRange, daysAgo)) && loading
      ensures currencies == old(currencies) && selectedCurrency == old(selectedCurrency)
      ensures historyData == old(historyData) && currentPage == old(currentPage) && dateRange == old(dateRange)
    {
      if selectedCurrency == "" {
        return None;
      }
      loading := true;
      q := Some(BuildQuery(selectedCurrency, dateRange, daysAgo));
    }

    /**
     * The end of `fetchRates`: an answer without error becomes the history
     * in load order and the table goes back to page 1; the spinner turns off.
     */
    method FinishFetchRates(resp: Response<RateHistory>)
      requires Valid()
      modifies this
      ensures Valid()
      ensures !resp.error && resp.data.Some? ==> historyData == resp.data.value && currentPage == 1
      ensures !(!resp.error && resp.data.Some?) ==>
                historyData == old(historyData) && currentPage == old(currentPage)
      ensures !loading
      ensures !resp.error && resp.data == Some([]) ==> ChartArea() == EmptyState
      ensures !resp.error && resp.data.Some? && |resp.data.value| > 0 ==>
                ChartArea() == Chart(resp.data.value)
      ensures currencies == old(currencies) && selectedCurrency == old(selectedCurrency)
      ensures dateRange == old(dateRange)
    {
      if !resp.error && resp.data.Some? {
        historyData := resp.data.value;
        currentPage := 1;
      }
      loading := false;
    }

    method ClickPrev()
      requires Valid()
      modifies this
      ensures Valid()
      ensures 1 <= currentPage
      ensures if TotalPagesNow() > 1 && old(currentPage) != 1
              then currentPage == PrevPage(old(currentPage))
              else currentPage == old(currentPage)
      ensures currencies == old(currencies) && selectedCurrency == old(selectedCurrency)
      ensures historyData == old(historyData) && loading == old(loading) && dateRange == old(dateRange)
    {
      if TotalPagesNow() > 1 && currentPage != 1 {
        currentPage := PrevPage(currentPage);
      }
    }

    method ClickNext()
      requires Valid()
      modifies this
      ensures Valid()
      ensures currentPage <= TotalPagesNow() || currentPage == 1
      ensures if TotalPagesNow() > 1 && old(currentPage) != TotalPagesNow()
              then currentPage == NextPage(old(currentPage), TotalPagesNow())
              else currentPage == old(currentPage)
      ensures currencies == old(currencies) && selectedCurrency == old(selectedCurrency)
      ensures historyData == old(historyData) && loading == old(loading) && dateRange == old(dateRange)
    {
      if TotalPagesNow() > 1 && currentPage != TotalPagesNow() {
        currentPage := NextPage(currentPage, TotalPagesNow());
      }
    }
  }

  /** On an answer to the rates query, page 1 opens on the row with the greatest date. */
  lemma NewestRowOpensTable(q: RateQuery, rows: seq<RateHistory>)
    requires Answers(q, rows) && |rows| > 0
    ensures |TablePage(rows, 1, ItemsPerPage)| > 0
    ensures forall i :: 0 <= i < |rows| ==> DateLe(rows[i].date, TablePage(rows, 1, ItemsPerPage)[0].date)
  {
    FirstRowIsLast(rows, ItemsPerPage);
    LastIsLatest(rows, RateDate);
    forall i | 0 <= i < |rows|
      ensures DateLe(rows[i].date, TablePage(rows, 1, ItemsPerPage)[0].date)
    {
      assert RateDate(rows[i]) == rows[i].date;
    }
  }

  /**
   * Switching the range from "1M" to "全部" and loading each time: the first
   * request has a lower bound, the second none.
   */
  method RangeSwitch(daysAgo: int -> string) returns (first: Option<RateQuery>, second: Option<RateQuery>)
    ensures first.Some? && first.value.fromDate == Some(daysAgo(30))
    ensures second.Some? && second.value.fromDate.None?
  {
    var page := new Page();
    page.SetDateRange(RangeOptions[0].days);
    first := page.BeginFetchRates(daysAgo);
    page.SetDateRange(RangeOptions[4].days);
    second := page.BeginFetchRates(daysAgo);
  }
}
