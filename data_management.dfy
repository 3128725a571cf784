/**
 * The data management page: the currency roster with its toggles, and the
 * two manual sync triggers of the external crawler API.  A trigger sets the
 * busy flag `syncing` to its job kind and clears the status banner, issues
 * `GET {base}/api/sync/{kind}` (with the selected year as a query for the
 * exchange job), then sets the banner from the outcome and clears the busy
 * flag on every path.  While the flag is set both triggers are disabled.
 */
module DataManagement {
  import opened Wrappers
  import opened Store
  import opened Roster

  const DefaultApiBaseUrl: string := "http://localhost:8000"
  const FirstYear: int := 2023

  /** The API base: the configured URL, or the local default when the variable is unset or empty. */
  function ApiBaseUrl(env: Option<string>): (base: string)
    ensures env.Some? && env.value != "" ==> base == env.value
    ensures env.None? || env.value == "" ==> base == DefaultApiBaseUrl
    ensures base != ""
  {
    if env.Some? && env.value != "" then env.value else DefaultApiBaseUrl
  }

  /**
   * The year selector: the current year and each year before it down to
   * 2023, one option per year; no options when the current year is before 2023.
   */
  function YearOptions(currentYear: int): (years: seq<int>)
    ensures |years| == if currentYear >= FirstYear then currentYear - (FirstYear - 1) else 0
    ensures forall i, j :: 0 <= i < j < |years| ==> years[i] > years[j]
    ensures |years| > 0 ==> years[0] == currentYear && years[|years| - 1] == FirstYear
  {
    if currentYear < FirstYear then [] else seq(currentYear - (FirstYear - 1), i => currentYear - i)
  }

  /** The selector offers exactly the years from 2023 to the current one. */
  lemma YearOptionsRange(currentYear: int, y: int)
    ensures y in YearOptions(currentYear) <==> FirstYear <= y <= currentYear
  {
    var years := YearOptions(currentYear);
    if FirstYear <= y <= currentYear {
      assert years[currentYear - y] == y;
    }
  }

  // ---- Decimal text of a year, as a template literal writes a number ----

  function Digit(d: nat): (c: char)
    requires d < 10
    ensures '0' <= c <= '9'
  {
    "0123456789"[d]
  }

  function DigitValue(c: char): nat
  {
    if '0' <= c <= '9' then (c as int - '0' as int) as nat else 0
  }

  function NatToString(n: nat): (s: string)
    ensures |s| > 0
    ensures forall i :: 0 <= i < |s| ==> '0' <= s[i] <= '9'
  {
    if n < 10 then [Digit(n)] else NatToString(n / 10) + [Digit(n % 10)]
  }

  /** `${n}` for an integer `n`. */
  function IntToString(n: int): (s: string)
    ensures |s| > 0
    ensures s[0] == '-' <==> n < 0
    ensures n >= 0 ==> '0' <= s[0] <= '9'
    ensures forall i :: 0 < i < |s| ==> '0' <= s[i] <= '9'
  {
    if n < 0 then "-" + NatToString(-n) else NatToString(n)
  }

  function ParseNat(s: string): nat
  {
    if s == [] then 0 else ParseNat(s[..|s| - 1]) * 10 + DigitValue(s[|s| - 1])
  }

  function ParseInt(s: string): int
  {
    if |s| > 0 && s[0] == '-' then 0 - ParseNat(s[1..]) else ParseNat(s)
  }

  lemma {:induction false} ParseNatToString(n: nat)
    ensures ParseNat(NatToString(n)) == n
  {
    var s := NatToString(n);
    if n >= 10 {
      ParseNatToString(n / 10);
      assert s[..|s| - 1] == NatToString(n / 10);
    }
  }

  /** The year's text reads back as the year, so distinct years give distinct texts. */
  lemma ParseIntToString(n: int)
    ensures ParseInt(IntToString(n)) == n
  {
    if n < 0 {
      ParseNatToString(-n);
      assert IntToString(n)[1..] == NatToString(-n);
    } else {
      ParseNatToString(n);
    }
  }

  // ---- Sync triggers ----

  datatype SyncKind = Exchange | Fund

  function KindName(kind: SyncKind): string
  {
    match kind
    case Exchange => "exchange"
    case Fund => "fund"
  }

  function SyncPath(base: string, kind: SyncKind): string
  {
    base + "/api/sync/" + KindName(kind)
  }

  function YearQuery(year: int): string
  {
    "?start_year=" + IntToString(year) + "&end_year=" + IntToString(year)
  }

  /** The URL a trigger requests: the job's path, plus the year range for the exchange job only. */
  function SyncUrl(base: string, kind: SyncKind, year: int): (url: string)
    ensures |url| >= |SyncPath(base, kind)| && url[..|SyncPath(base, kind)|] == SyncPath(base, kind)
    ensures kind == Fund ==> url == SyncPath(base, kind)
    ensures kind == Exchange ==> url[|SyncPath(base, kind)|..] == YearQuery(year)
  {
    var url := SyncPath(base, kind) + (if kind == Exchange then YearQuery(year) else "");
    assert url[..|SyncPath(base, kind)|] == SyncPath(base, kind);
    url
  }

  /** Equal year queries carry equal years. */
  lemma YearQueryInjective(y1: int, y2: int)
    requires YearQuery(y1) == YearQuery(y2)
    ensures y1 == y2
  {
    var t1, t2 := IntToString(y1), IntToString(y2);
    var tail1, tail2 := t1 + "&end_year=" + t1, t2 + "&end_year=" + t2;
    var head := "?start_year=";
    assert YearQuery(y1) == head + tail1 && YearQuery(y2) == head + tail2;
    assert tail1 == YearQuery(y1)[|head|..] && tail2 == YearQuery(y2)[|head|..];
    if |t1| == |t2| {
      assert t1 == tail1[..|t1|] && t2 == tail2[..|t2|];
      ParseIntToString(y1);
      ParseIntToString(y2);
    } else {
      assert false;
    }
  }

  /** Different jobs, or the exchange job for different years, never share a URL. */
  lemma SyncUrlInjective(base: string, k1: SyncKind, y1: int, k2: SyncKind, y2: int)
    requires SyncUrl(base, k1, y1) == SyncUrl(base, k2, y2)
    ensures k1 == k2
    ensures k1 == Exchange ==> y1 == y2
  {
    var u := SyncUrl(base, k1, y1);
    assert SyncPath(base, k1) == base + "/api/sync/" + KindName(k1);
    assert SyncPath(base, k2) == base + "/api/sync/" + KindName(k2);
    if k1 != k2 {
      assert false;
    }
    if k1 == Exchange {
      var q := |SyncPath(base, k1)|;
      assert YearQuery(y1) == u[q..] == YearQuery(y2);
      YearQueryInjective(y1, y2);
    }
  }

  /** What the trigger observes: the `status`/`message` of the JSON reply, or a failed fetch. */
  datatype SyncOutcome = Responded(status: string, message: string) | Unreachable

  /** How a trigger button renders: greyed out and inert, and with a spinner. */
  datatype TriggerButton = TriggerButton(disabled: bool, spinning: bool)

  /** The status banner. */
  datatype SyncStatus = SyncStatus(msg: string, ok: bool)

  const SuccessMark: string := "✅ "
  const FailureMark: string := "❌ 啟動失敗："
  const UnreachableMark: string := "❌ 無法連線至 API 伺服器 ("

  /** The banner set after the request: green iff the reply's status is "success". */
  function StatusFor(outcome: SyncOutcome, base: string): (st: SyncStatus)
    ensures st.ok <==> outcome.Responded? && outcome.status == "success"
    ensures outcome.Responded? ==>
              st.msg == (if st.ok then SuccessMark else FailureMark) + outcome.message
    ensures outcome.Unreachable? ==> st.msg == UnreachableMark + base + ")"
  {
    match outcome
    case Responded(status, message) =>
      if status == "success" then SyncStatus(SuccessMark + message, true)
      else SyncStatus(FailureMark + message, false)
    case Unreachable =>
      SyncStatus(UnreachableMark + base + ")", false)
  }

  class Page {
    var currencies: seq<Currency>
    var loading: bool
    var syncStatus: Option<SyncStatus>
    var syncing: Option<SyncKind>
    var exchangeYear: int
    const currentYear: int
    const apiBaseUrl: string

    /** The selected year is the current one or one the selector offers. */
    ghost predicate Valid()
      reads this
    {
      exchangeYear == currentYear || exchangeYear in YearOptions(currentYear)
    }

    constructor (year: int, env: Option<string>)
      ensures Valid()
      ensures currentYear == year && apiBaseUrl == ApiBaseUrl(env)
      ensures currencies == [] && loading && syncStatus == None && syncing == None
      ensures exchangeYear == year
    {
      currentYear, apiBaseUrl := year, ApiBaseUrl(env);
      currencies, loading, syncStatus, syncing := [], true, None, None;
      exchangeYear := year;
    }

    /**
     * The trigger button of `kind`: both buttons are disabled while any job
     * is in flight, and the one whose job it is shows the spinner.
     */
    function Trigger(kind: SyncKind): (b: TriggerButton)
      reads this
      ensures b.disabled <==> syncing.Some?
      ensures b.spinning <==> syncing == Some(kind)
      ensures b.spinning ==> b.disabled
    {
      TriggerButton(syncing.Some?, syncing == Some(kind))
    }

    method FetchCurrencies(resp: Response<Currency>)
      requires Valid()
      modifies this
      ensures Valid()
      ensures currencies == Fetched(old(currencies), resp) && !loading
      ensures syncStatus == old(syncStatus) && syncing == old(syncing) && exchangeYear == old(exchangeYear)
    {
      currencies := Fetched(currencies, resp);
      loading := false;
    }

    /**
     * `toggleCurrency(code, currentStatus)`: sends the update, and mirrors it
     * into the list only when the store reports no error.
     */
    method ToggleCurrency(code: string, currentStatus: bool, updateFailed: bool) returns (u: UpdateRequest)
      requires Valid()
      modifies this
      ensures Valid()
      ensures u == UpdateFor(code, currentStatus)
      ensures currencies == ApplyToggle(old(currencies), code, currentStatus, updateFailed)
      ensures loading == old(loading) && syncStatus == old(syncStatus)
      ensures syncing == old(syncing) && exchangeYear == old(exchangeYear)
    {
      u := UpdateFor(code, currentStatus);
      if !updateFailed {
        currencies := Toggle(currencies, code, currentStatus);
      }
    }

    /** The year selector's `onChange`; its value is one of the options. */
    method SelectYear(year: int)
      requires Valid() && year in YearOptions(currentYear)
      modifies this
      ensures Valid()
      ensures exchangeYear == year
      ensures currencies == old(currencies) && loading == old(loading)
      ensures syncStatus == old(syncStatus) && syncing == old(syncing)
    {
      exchangeYear := year;
    }

    /**
     * A click on a trigger.  A disabled trigger does nothing; otherwise the
     * busy flag takes the job kind, the banner is cleared and the request
     * goes out.
     */
    method BeginSync(kind: SyncKind) returns (url: Option<string>)
      requires Valid()
      modifies this
      ensures Valid()
      ensures old(syncing).Some? ==> url == None && syncing == old(syncing) && syncStatus == old(syncStatus)
      ensures old(syncing).None? ==>
                url == Some(SyncUrl(apiBaseUrl, kind, exchangeYear)) && syncing == Some(kind) && syncStatus == None
      ensures old(syncing).None? ==>
                Trigger(Exchange).disabled && Trigger(Fund).disabled && Trigger(kind).spinning
      ensures url.Some? && kind == Exchange && currentYear >= FirstYear ==> exchangeYear in YearOptions(currentYear)
      ensures currencies == old(currencies) && loading == old(loading) && exchangeYear == old(exchangeYear)
    {
      if syncing.Some? {
        return None;
      }
      YearOptionsRange(currentYear, currentYear);
      syncing := Some(kind);
      syncStatus := None;
      url := Some(SyncUrl(apiBaseUrl, kind, exchangeYear));
    }

    /** The request of the job in flight has settled: the banner shows the outcome, the busy flag clears. */
    method EndSync(outcome: SyncOutcome)
      requires Valid() && syncing.Some?
      modifies this
      ensures Valid()
      ensures syncStatus == Some(StatusFor(outcome, apiBaseUrl))
      ensures syncing == None && !Trigger(Exchange).disabled && !Trigger(Fund).disabled
      ensures currencies == old(currencies) && loading == old(loading) && exchangeYear == old(exchangeYear)
    {
      syncStatus := Some(StatusFor(outcome, apiBaseUrl));
      syncing := None;
    }
  }

  /**
   * An exchange sync is launched, the fund trigger is clicked while it is in
   * flight, then a fund sync is launched after the first settles: only the
   * first and third clicks issue a request.
   */
  method OverlappingTriggers(year: int, env: Option<string>, first: SyncOutcome)
    returns (u1: Option<string>, u2: Option<string>, u3: Option<string>)
    ensures u1 == Some(SyncUrl(ApiBaseUrl(env), Exchange, year))
    ensures u2 == None
    ensures u3 == Some(SyncUrl(ApiBaseUrl(env), Fund, year))
  {
    var page := new Page(year, env);
    u1 := page.BeginSync(Exchange);
    u2 := page.BeginSync(Fund);
    page.EndSync(first);
    u3 := page.BeginSync(Fund);
  }
}
