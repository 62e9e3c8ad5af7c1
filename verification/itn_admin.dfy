/** pages/autochase/admin/itn.tsx: the search box of the ITN audit log.
    A query keeps the rows whose payment status, payment id or source
    address contains it, ignoring case. */
module ItnAdmin {
  import opened Wrappers
  import opened Strings

  /** A row of the `ac_itn_logs` audit table; nullable columns are
      `Option`s. The raw payload column is not searched and is left out. */
  datatype Log = Log(
    id: string,
    receivedAt: string,
    ip: Option<string>,
    signatureOk: Option<bool>,
    ipOk: Option<bool>,
    postbackOk: Option<bool>,
    paymentStatus: Option<string>,
    mPaymentId: Option<string>)

  /** `(x || '').toLowerCase().includes(q)` for a nullable column. */
  predicate ColumnHas(x: Option<string>, q: string) {
    Contains(ToLower(x.GetOr("")), q)
  }

  /** The row test of the filter, `q` already lower-cased. */
  predicate Matches(l: Log, q: string) {
    ColumnHas(l.paymentStatus, q) || ColumnHas(l.mPaymentId, q) || ColumnHas(l.ip, q)
  }

  /** `logs.filter(...)` with the row test. */
  function MatchingRows(logs: seq<Log>, q: string): (r: seq<Log>)
    ensures |r| <= |logs|
    ensures forall l :: l in r <==> l in logs && Matches(l, q)
    decreases |logs|
  {
    if logs == [] then []
    else (if Matches(logs[0], q) then [logs[0]] else []) + MatchingRows(logs[1..], q)
  }

  /** `filtered`: an empty query shows every row. */
  function Filtered(logs: seq<Log>, query: string): seq<Log> {
    var q := ToLower(query);
    if q == "" then logs else MatchingRows(logs, q)
  }

  /** An empty query shows the whole log; any other shows exactly the
      rows with a column containing it, ignoring case. */
  lemma FilteredMembers(logs: seq<Log>, query: string)
    ensures query == "" ==> Filtered(logs, query) == logs
    ensures query != "" ==> forall l :: l in Filtered(logs, query) <==> l in logs && Matches(l, ToLower(query))
  {
  }

  /** Filtering keeps the order of the log: the rows kept from two runs
      of rows are those of the first followed by those of the second. */
  lemma {:induction false} MatchingRowsAppend(a: seq<Log>, b: seq<Log>, q: string)
    ensures MatchingRows(a + b, q) == MatchingRows(a, q) + MatchingRows(b, q)
    decreases |a|
  {
    if a == [] {
      assert a + b == b;
    } else {
      assert (a + b)[1..] == a[1..] + b;
      MatchingRowsAppend(a[1..], b, q);
    }
  }

  lemma LowerUpperChar(c: char)
    ensures LowerChar(UpperChar(c)) == LowerChar(c)
    ensures LowerChar(LowerChar(c)) == LowerChar(c)
  {
  }

  /** Case does not matter: a query and its upper- or lower-cased forms
      show the same rows. */
  lemma CaseInsensitive(logs: seq<Log>, query: string)
    ensures Filtered(logs, ToUpper(query)) == Filtered(logs, query)
    ensures Filtered(logs, ToLower(query)) == Filtered(logs, query)
  {
    forall i | 0 <= i < |query|
      ensures ToLower(ToUpper(query))[i] == ToLower(query)[i]
      ensures ToLower(ToLower(query))[i] == ToLower(query)[i]
    {
      LowerUpperChar(query[i]);
    }
    assert ToLower(ToUpper(query)) == ToLower(query);
    assert ToLower(ToLower(query)) == ToLower(query);
  }

  /** Nothing but the empty string is contained in "". */
  lemma EmptyContainsOnlyEmpty(q: string)
    requires q != ""
    ensures !Contains("", q)
  {
  }

  /** A row whose three searched columns are all null matches no
      non-empty query. */
  lemma NullRowsHidden(logs: seq<Log>, query: string, l: Log)
    requires query != ""
    requires l.paymentStatus.None? && l.mPaymentId.None? && l.ip.None?
    ensures l !in Filtered(logs, query)
  {
    var q := ToLower(query);
    assert q != "";
    EmptyContainsOnlyEmpty(q);
    assert ToLower("") == "";
    assert !Matches(l, q);
  }

  /** Searching for a row's own payment status, in any case, keeps it. */
  lemma OwnStatusFound(logs: seq<Log>, l: Log)
    requires l in logs && l.paymentStatus.Some?
    ensures l in Filtered(logs, l.paymentStatus.value)
    ensures l in Filtered(logs, ToUpper(l.paymentStatus.value))
  {
    var s := ToLower(l.paymentStatus.value);
    assert IsPrefix(s, s);
    CaseInsensitive(logs, l.paymentStatus.value);
  }
}
