/**
 * The roster of tracked currencies (`target_currencies`), shared by the data
 * management page and the dashboard.  Both pages toggle a row the same way:
 * they send a remote point update, keyed by the code, that writes the
 * negation of the status shown; when it reports no error, every local row
 * with that code gets the negated status and every other row stays as it was.
 */
module Roster {
  import opened Wrappers
  import opened Store

  /** One `target_currencies` row; `code` is the table's primary key. */
  datatype Currency = Currency(code: string, is_active: bool, description: string, created_at: string)

  /**
   * `fetchCurrencies`: on an error the list stays as it was (the error is
   * only logged); otherwise it becomes the answer, or empty when the answer
   * has no data.
   */
  function Fetched(current: seq<Currency>, resp: Response<Currency>): (r: seq<Currency>)
    ensures resp.error ==> r == current
    ensures !resp.error && resp.data.Some? ==> r == resp.data.value
    ensures !resp.error && resp.data.None? ==> r == []
  {
    if resp.error then current
    else match resp.data
      case Some(rows) => rows
      case None => []
  }

  /** The point update sent to the store: the new `is_active` value for the row keyed by `code`. */
  datatype UpdateRequest = UpdateRequest(code: string, is_active: bool)

  function UpdateFor(code: string, currentStatus: bool): (u: UpdateRequest)
    ensures u.code == code && u.is_active != currentStatus
  {
    UpdateRequest(code, !currentStatus)
  }

  function ToggleRow(c: Currency, code: string, currentStatus: bool): Currency
  {
    if c.code == code then c.(is_active := !currentStatus) else c
  }

  /** The local `map` applied after a successful update. */
  function Toggle(rows: seq<Currency>, code: string, currentStatus: bool): (r: seq<Currency>)
    ensures |r| == |rows|
    ensures forall i :: 0 <= i < |rows| ==> r[i].code == rows[i].code
    ensures forall i :: 0 <= i < |rows| ==> r[i].description == rows[i].description
    ensures forall i :: 0 <= i < |rows| ==> r[i].created_at == rows[i].created_at
    ensures forall i :: 0 <= i < |rows| && rows[i].code == code ==> r[i].is_active == !currentStatus
    ensures forall i :: 0 <= i < |rows| && rows[i].code != code ==> r[i] == rows[i]
  {
    if rows == [] then [] else [ToggleRow(rows[0], code, currentStatus)] + Toggle(rows[1..], code, currentStatus)
  }

  /** A toggle's effect when the update succeeded, and none when it failed. */
  function ApplyToggle(rows: seq<Currency>, code: string, currentStatus: bool, updateFailed: bool): (r: seq<Currency>)
    ensures updateFailed ==> r == rows
    ensures !updateFailed ==> r == Toggle(rows, code, currentStatus)
  {
    if updateFailed then rows else Toggle(rows, code, currentStatus)
  }

  /** Codes are keys: no two rows share one. */
  ghost predicate UniqueCodes(rows: seq<Currency>)
  {
    forall i, j :: 0 <= i < j < |rows| ==> rows[i].code != rows[j].code
  }

  /** Clicking row `i`, which passes that row's own code and status, flips that row alone. */
  lemma ToggleClickedRow(rows: seq<Currency>, i: nat)
    requires UniqueCodes(rows) && i < |rows|
    ensures Toggle(rows, rows[i].code, rows[i].is_active)
         == rows[i := rows[i].(is_active := !rows[i].is_active)]
  {
    var r := Toggle(rows, rows[i].code, rows[i].is_active);
    var e := rows[i := rows[i].(is_active := !rows[i].is_active)];
    forall j | 0 <= j < |rows|
      ensures r[j] == e[j]
    {
      if j != i {
        assert j < i ==> rows[j].code != rows[i].code;
        assert i < j ==> rows[i].code != rows[j].code;
      }
    }
  }

  lemma ToggleKeepsCodes(rows: seq<Currency>, code: string, currentStatus: bool)
    ensures UniqueCodes(rows) ==> UniqueCodes(Toggle(rows, code, currentStatus))
  {
  }

  /**
   * Two successful toggles of one code, each passing the status the rows
   * show at the time, restore the list.
   */
  lemma ToggleTwice(rows: seq<Currency>, code: string, currentStatus: bool)
    requires forall i :: 0 <= i < |rows| && rows[i].code == code ==> rows[i].is_active == currentStatus
    ensures Toggle(Toggle(rows, code, currentStatus), code, !currentStatus) == rows
  {
    var r := Toggle(Toggle(rows, code, currentStatus), code, !currentStatus);
    assert forall i :: 0 <= i < |rows| ==> r[i] == rows[i];
  }

  /** The codes the scheduled sync will follow: the rows with `is_active` set. */
  ghost function ActiveCodes(rows: seq<Currency>): set<string>
  {
    set i | 0 <= i < |rows| && rows[i].is_active :: rows[i].code
  }

  ghost function Codes(rows: seq<Currency>): set<string>
  {
    set i | 0 <= i < |rows| :: rows[i].code
  }

  /** Deactivating a code removes it from the active set; activating adds it when the roster has it. */
  lemma ToggleActiveCodes(rows: seq<Currency>, code: string, currentStatus: bool)
    ensures ActiveCodes(Toggle(rows, code, currentStatus))
         == if currentStatus then ActiveCodes(rows) - {code}
            else ActiveCodes(rows) + (if code in Codes(rows) then {code} else {})
  {
    var r := Toggle(rows, code, currentStatus);
    var lhs := ActiveCodes(r);
    var rhs := if currentStatus then ActiveCodes(rows) - {code}
               else ActiveCodes(rows) + (if code in Codes(rows) then {code} else {});
    forall x | x in lhs ensures x in rhs {
      var i :| 0 <= i < |r| && r[i].is_active && r[i].code == x;
      assert rows[i].code == x;
    }
    forall x | x in rhs ensures x in lhs {
      if x == code {
        var i :| 0 <= i < |rows| && rows[i].code == code;
        assert r[i].is_active && r[i].code == x;
      } else {
        var i :| 0 <= i < |rows| && rows[i].is_active && rows[i].code == x;
        assert r[i] == rows[i];
      }
    }
  }
}
