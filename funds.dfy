/**
 * The fund NAV page.  It loads the fund list once and selects its first
 * entry; whenever the selection changes it loads the 90 most recent NAV rows
 * of that fund, newest first, and keeps them reversed (oldest first) for the
 * chart.  The table pages over the reverse of that again, so it shows the
 * rows in the order they were fetched, 10 to a page.
 */
module Funds {
  import opened Wrappers
  import opened Store
  import opened Paging

  datatype FundInfo = FundInfo(cnyes_id: string, display_name: string, currency: string)

  datatype FundHistory = FundHistory(price_date: string, nav: Amount)

  const ItemsPerPage: nat := 10
  const HistoryLimit: nat := 90

  /** The NAV query: rows of `fund_nav_history` for one fund, newest first, at most `limit`. */
  datatype NavQuery = NavQuery(cnyes_id: string, limit: nat)

  function PriceDate(h: FundHistory): string { h.price_date }

  /** What the store promises of its answer to a `NavQuery`. */
  ghost predicate Answers(q: NavQuery, rows: seq<FundHistory>)
  {
    |rows| <= q.limit && Descending(rows, PriceDate)
  }

  class Page {
    var funds: seq<FundInfo>
    var selectedFundId: string
    var historyData: seq<FundHistory>
    var loading: bool
    var currentPage: int

    ghost predicate Valid()
      reads this
    {
      PageInRange(currentPage, |historyData|, ItemsPerPage)
    }

    constructor ()
      ensures Valid()
      ensures funds == [] && selectedFundId == "" && historyData == []
      ensures !loading && currentPage == 1
    {
      funds, selectedFundId, historyData := [], "", [];
      loading, currentPage := false, 1;
    }

    function TotalPagesNow(): (r: nat)
      reads this
      ensures r * ItemsPerPage >= |historyData|
      ensures r * ItemsPerPage < |historyData| + ItemsPerPage
    {
      TotalPages(|historyData|, ItemsPerPage)
    }

    /** The rows of the table: page `currentPage` of the newest-first order. */
    function CurrentTableData(): (r: seq<FundHistory>)
      reads this
      requires Valid()
      ensures |r| <= ItemsPerPage
      ensures r == Reverse(historyData)[Min((currentPage - 1) * ItemsPerPage, |historyData|)
                                        ..Min(currentPage * ItemsPerPage, |historyData|)]
    {
      TablePageWindow(historyData, currentPage, ItemsPerPage);
      TablePage(historyData, currentPage, ItemsPerPage)
    }

    /**
     * The chart section: the chart over the history as it is stored while
     * there is any, the empty-state note once loading is over, otherwise
     * nothing (the spinner sits beside the selector).
     */
    function ChartArea(): (v: ChartArea<FundHistory>)
      reads this
      ensures |historyData| > 0 <==> v == Chart(historyData)
      ensures v == EmptyState <==> |historyData| == 0 && !loading
      ensures v == Blank <==> |historyData| == 0 && loading
    {
      if |historyData| > 0 then Chart(historyData) else if !loading then EmptyState else Blank
    }

    /** `fetchFunds`: the list and the default selection change only on a non-empty answer. */
    method FetchFunds(resp: Response<FundInfo>)
      requires Valid()
      modifies this
      ensures Valid()
      ensures if resp.data.Some? && |resp.data.value| > 0
              then funds == resp.data.value && selectedFundId == resp.data.value[0].cnyes_id
              else funds == old(funds) && selectedFundId == old(selectedFundId)
      ensures historyData == old(historyData) && loading == old(loading) && currentPage == old(currentPage)
    {
      if resp.data.Some? && |resp.data.value| > 0 {
        funds := resp.data.value;
        selectedFundId := resp.data.value[0].cnyes_id;
      }
    }

    /** The `onChange` of the fund selector. */
    method SelectFund(id: string)
      requires Valid()
      modifies this
      ensures Valid()
      ensures selectedFundId == id
      ensures funds == old(funds) && historyData == old(historyData)
      ensures loading == old(loading) && currentPage == old(currentPage)
    {
      selectedFundId := id;
    }

    /**
     * The start of `fetchHistory`: with no fund selected nothing happens;
     * otherwise the spinner turns on and the NAV query is issued.
     */
    method BeginFetchHistory() returns (q: Option<NavQuery>)
      requires Valid()
      modifies this
      ensures Valid()
      ensures old(selectedFundId) == "" ==> q == None && loading == old(loading)
      ensures old(selectedFundId) != "" ==> q == Some(NavQuery(selectedFundId, HistoryLimit)) && loading
      ensures funds == old(funds) && selectedFundId == old(selectedFundId)
      ensures historyData == old(historyData) && currentPage == old(currentPage)
    {
      if selectedFundId == "" {
        return None;
      }
      loading := true;
      q := Some(NavQuery(selectedFundId, HistoryLimit));
    }

    /**
     * The end of `fetchHistory`: an answer without error becomes the history,
     * reversed, and the table goes back to page 1; the spinner turns off.
     */
    method FinishFetchHistory(resp: Response<FundHistory>)
      requires Valid()
      modifies this
      ensures Valid()
      ensures !resp.error && resp.data.Some? ==>
                historyData == Reverse(resp.data.value) && currentPage == 1
      ensures !(!resp.error && resp.data.Some?) ==>
                historyData == old(historyData) && currentPage == old(currentPage)
      ensures !loading
      ensures !resp.error && resp.data == Some([]) ==> ChartArea() == EmptyState
      ensures !resp.error && resp.data.Some? && |resp.data.value| > 0 ==>
                ChartArea() == Chart(Reverse(resp.data.value))
      ensures funds == old(funds) && selectedFundId == old(selectedFundId)
    {
      if !resp.error && resp.data.Some? {
        historyData := Reverse(resp.data.value);
        currentPage := 1;
      }
      loading := false;
    }

    /** The Previous button: rendered only when there are several pages, disabled on page 1. */
    method ClickPrev()
      requires Valid()
      modifies this
      ensures Valid()
      ensures 1 <= currentPage
      ensures if TotalPagesNow() > 1 && old(currentPage) != 1
              then currentPage == PrevPage(old(currentPage))
              else currentPage == old(currentPage)
      ensures funds == old(funds) && selectedFundId == old(selectedFundId)
      ensures historyData == old(historyData) && loading == old(loading)
    {
      if TotalPagesNow() > 1 && currentPage != 1 {
        currentPage := PrevPage(currentPage);
      }
    }

    /** The Next button: rendered only when there are several pages, disabled on the last. */
    method ClickNext()
      requires Valid()
      modifies this
      ensures Valid()
      ensures currentPage <= TotalPagesNow() || currentPage == 1
      ensures if TotalPagesNow() > 1 && old(currentPage) != TotalPagesNow()
              then currentPage == NextPage(old(currentPage), TotalPagesNow())
              else currentPage == old(currentPage)
      ensures funds == old(funds) && selectedFundId == old(selectedFundId)
      ensures historyData == old(historyData) && loading == old(loading)
    {
      if TotalPagesNow() > 1 && currentPage != TotalPagesNow() {
        currentPage := NextPage(currentPage, TotalPagesNow());
      }
    }
  }

  /**
   * The double reversal: the table pages come straight from the fetched
   * (newest-first) rows, while the chart is the fetched rows reversed.
   */
  lemma DoubleReversal(fetched: seq<FundHistory>, page: int)
    requires page >= 1
    ensures TablePage(Reverse(fetched), page, ItemsPerPage)
         == fetched[Min((page - 1) * ItemsPerPage, |fetched|)..Min(page * ItemsPerPage, |fetched|)]
  {
    TablePageWindow(Reverse(fetched), page, ItemsPerPage);
    ReverseReverse(fetched);
  }

  /** After a load, page 1 opens on the newest fetched row. */
  lemma NewestFirst(fetched: seq<FundHistory>)
    requires |fetched| > 0
    ensures |TablePage(Reverse(fetched), 1, ItemsPerPage)| > 0
    ensures TablePage(Reverse(fetched), 1, ItemsPerPage)[0] == fetched[0]
  {
    FirstRowIsLast(Reverse(fetched), ItemsPerPage);
  }

  /** An answer the store gives to the NAV query turns into an oldest-first chart of at most 9 pages. */
  lemma LoadedHistoryIsChronological(q: NavQuery, fetched: seq<FundHistory>)
    requires q.limit == HistoryLimit && Answers(q, fetched)
    ensures Ascending(Reverse(fetched), PriceDate)
    ensures TotalPages(|Reverse(fetched)|, ItemsPerPage) <= 9
  {
    var r := Reverse(fetched);
    forall i, j | 0 <= i < j < |r|
      ensures DateLe(PriceDate(r[i]), PriceDate(r[j]))
    {
      assert r[i] == fetched[|fetched| - 1 - i] && r[j] == fetched[|fetched| - 1 - j];
    }
  }

  /** Concatenating the table's pages 1..totalPages gives back the fetched rows. */
  lemma PagesReplayFetch(fetched: seq<FundHistory>)
    ensures PagesUpTo(Reverse(fetched), ItemsPerPage, TotalPages(|fetched|, ItemsPerPage)) == fetched
  {
    PagesCoverHistory(Reverse(fetched), ItemsPerPage);
    ReverseReverse(fetched);
  }
}
