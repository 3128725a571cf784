/**
 * What the pages receive from the remote table store.  Every query and update
 * is remote I/O, so its answer is an input of the model: a `Response` carries
 * the `error` flag and the `data` field of the client library's reply.
 * Dates are ISO `YYYY-MM-DD` strings; the store orders them as dates, which
 * for that format is the lexicographic order `DateLe` below.
 */
module Store {
  import opened Wrappers

  /** The `{ data, error }` pair a query resolves to. */
  datatype Response<T> = Response(error: bool, data: Option<seq<T>>)

  /** A rate or a NAV: a JavaScript number the model never computes with. */
  type Amount = real

  /** Lexicographic order on strings, which is date order on ISO dates. */
  predicate DateLe(a: string, b: string)
    decreases |a|
  {
    |a| == 0 || (|b| > 0 && (a[0] < b[0] || (a[0] == b[0] && DateLe(a[1..], b[1..]))))
  }

  lemma {:induction false} DateLeReflexive(a: string)
    ensures DateLe(a, a)
    decreases |a|
  {
    if |a| > 0 {
      DateLeReflexive(a[1..]);
    }
  }

  /** Rows ordered oldest first, as an ascending `order` returns them. */
  ghost predicate Ascending<T>(rows: seq<T>, date: T -> string)
  {
    forall i, j :: 0 <= i < j < |rows| ==> DateLe(date(rows[i]), date(rows[j]))
  }

  /** Rows ordered newest first, as a descending `order` returns them. */
  ghost predicate Descending<T>(rows: seq<T>, date: T -> string)
  {
    forall i, j :: 0 <= i < j < |rows| ==> DateLe(date(rows[j]), date(rows[i]))
  }

  /** The last row of an ascending answer carries its greatest date. */
  lemma LastIsLatest<T>(rows: seq<T>, date: T -> string)
    requires Ascending(rows, date) && |rows| > 0
    ensures forall i :: 0 <= i < |rows| ==> DateLe(date(rows[i]), date(rows[|rows| - 1]))
  {
    DateLeReflexive(date(rows[|rows| - 1]));
  }
}
