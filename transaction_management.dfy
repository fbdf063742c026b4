/**
 * The admin transaction list: a case-insensitive search on id, user and
 * email, the type and status filters, the colour lookups, the dispute
 * action, and the row selection keyed by the last three characters of
 * the transaction id.
 */
module TransactionManagement {
  import opened Wrappers
  import opened Strings
  import opened Seqs

  datatype AdminTx = AdminTx(id: string, user: string, email: string, kind: string, amount: real,
                             status: string, riskScore: string)

  predicate SearchHit(term: string, tx: AdminTx) {
    var t := Lower(term);
    Contains(Lower(tx.id), t) || Contains(Lower(tx.user), t) || Contains(Lower(tx.email), t)
  }

  predicate Listed(term: string, typeFilter: string, statusFilter: string, tx: AdminTx) {
    && (term == "" || SearchHit(term, tx))
    && (typeFilter == "all" || tx.kind == typeFilter)
    && (statusFilter == "all" || tx.status == statusFilter)
  }

  function Searched(txs: seq<AdminTx>, term: string): (r: seq<AdminTx>)
    ensures forall x :: x in r <==> x in txs && (term == "" || SearchHit(term, x))
    ensures forall x :: multiset(r)[x] == if term == "" || SearchHit(term, x) then multiset(txs)[x] else 0
    ensures IsSubseq(r, txs)
  {
    FilterIf(txs, term != "", (tx: AdminTx) => SearchHit(term, tx))
  }

  function ByType(txs: seq<AdminTx>, typeFilter: string): (r: seq<AdminTx>)
    ensures forall x :: x in r <==> x in txs && (typeFilter == "all" || x.kind == typeFilter)
    ensures forall x :: multiset(r)[x] == if typeFilter == "all" || x.kind == typeFilter then multiset(txs)[x] else 0
    ensures IsSubseq(r, txs)
  {
    FilterIf(txs, typeFilter != "all", (tx: AdminTx) => tx.kind == typeFilter)
  }

  function ByStatus(txs: seq<AdminTx>, statusFilter: string): (r: seq<AdminTx>)
    ensures forall x :: x in r <==> x in txs && (statusFilter == "all" || x.status == statusFilter)
    ensures forall x :: multiset(r)[x] == if statusFilter == "all" || x.status == statusFilter then multiset(txs)[x] else 0
    ensures IsSubseq(r, txs)
  {
    FilterIf(txs, statusFilter != "all", (tx: AdminTx) => tx.status == statusFilter)
  }

  /** filteredTransactions in TransactionManagement.tsx: the listed transactions, in list order. */
  function FilteredTransactions(txs: seq<AdminTx>, term: string, typeFilter: string, statusFilter: string)
    : (r: seq<AdminTx>)
    ensures forall x :: x in r <==> x in txs && Listed(term, typeFilter, statusFilter, x)
    ensures forall x :: multiset(r)[x] == if Listed(term, typeFilter, statusFilter, x) then multiset(txs)[x] else 0
    ensures IsSubseq(r, txs)
  {
    var s := Searched(txs, term);
    var t := ByType(s, typeFilter);
    var r := ByStatus(t, statusFilter);
    SubseqTrans(r, t, s);
    SubseqTrans(r, s, txs);
    r
  }

  /** "Showing n of m": the listing never shows more than the whole list. */
  lemma ShownAtMostTotal(txs: seq<AdminTx>, term: string, typeFilter: string, statusFilter: string)
    ensures |FilteredTransactions(txs, term, typeFilter, statusFilter)| <= |txs|
  {
    SubseqLength(FilteredTransactions(txs, term, typeFilter, statusFilter), txs);
  }

  /** The search is case-insensitive: a term and its upper-cased form list the same transactions. */
  lemma SearchIgnoresCase(txs: seq<AdminTx>, term: string, typeFilter: string, statusFilter: string)
    ensures FilteredTransactions(txs, Upper(term), typeFilter, statusFilter)
         == FilteredTransactions(txs, term, typeFilter, statusFilter)
  {
    LowerUpper(term);
    var p := (tx: AdminTx) => SearchHit(Upper(term), tx);
    var q := (tx: AdminTx) => SearchHit(term, tx);
    FilterExt(txs, p, q);
    assert Searched(txs, Upper(term)) == Searched(txs, term);
  }

  lemma LowerUpper(s: string)
    ensures Lower(Upper(s)) == Lower(s)
  {
    assert forall i :: 0 <= i < |s| ==> LowerChar(UpperChar(s[i])) == LowerChar(s[i]);
  }

  /** The resolve action is offered for disputed and failed transactions only. */
  predicate ShowsResolve(tx: AdminTx) {
    tx.status == "disputed" || tx.status == "failed"
  }

  const Gray := "bg-gray-500/10 text-gray-500"

  const StatusColors: map<string, string> := map[
    "completed" := "bg-green-500/10 text-green-500",
    "pending" := "bg-yellow-500/10 text-yellow-500",
    "failed" := "bg-red-500/10 text-red-500",
    "disputed" := "bg-orange-500/10 text-orange-500"
  ]

  const RiskColors: map<string, string> := map[
    "low" := "text-green-500",
    "medium" := "text-yellow-500",
    "high" := "text-orange-500",
    "critical" := "text-red-500"
  ]

  /** getStatusColor: the colour of a known status, gray for any other. */
  function StatusColor(status: string): (c: string)
    ensures status in StatusColors ==> c == StatusColors[status]
    ensures status !in StatusColors ==> c == Gray
  {
    LookupOr(StatusColors, status, Gray)
  }

  /** getRiskColor: the colour of a known risk score, gray text for any other. */
  function RiskColor(risk: string): (c: string)
    ensures risk in RiskColors ==> c == RiskColors[risk]
    ensures risk !in RiskColors ==> c == "text-gray-500"
  {
    LookupOr(RiskColors, risk, "text-gray-500")
  }

  function DigitOf(c: char): int { c as int - '0' as int }

  /** The value of a string of decimal digits. */
  function DigitsValue(d: string): (n: nat)
    requires forall i :: 0 <= i < |d| ==> IsDigit(d[i])
    ensures n < Pow10(|d|)
  {
    if d == [] then 0
    else
      var last := DigitOf(d[|d| - 1]);
      assert 0 <= last <= 9 by { assert IsDigit(d[|d| - 1]); }
      DigitsValue(d[..|d| - 1]) * 10 + last
  }

  function Pow10(k: nat): (p: nat)
    ensures p >= 1
  {
    if k == 0 then 1 else 10 * Pow10(k - 1)
  }

  /** The number of leading decimal digits. */
  function LeadingDigits(s: string): (k: nat)
    ensures k <= |s|
    ensures forall i :: 0 <= i < k ==> IsDigit(s[i])
    ensures k < |s| ==> !IsDigit(s[k])
  {
    if s == [] || !IsDigit(s[0]) then 0 else 1 + LeadingDigits(s[1..])
  }

  /** The text after an optional leading sign. */
  function Unsigned(s: string): (u: string)
    ensures |u| <= |s| && u == s[|s| - |u|..]
  {
    if s != [] && (s[0] == '-' || s[0] == '+') then s[1..] else s
  }

  /**
   * `parseInt` on a string without leading blanks: the value of the
   * leading digits after an optional sign, None (NaN) when there are none.
   */
  function ParseInt(s: string): (r: Option<int>)
    ensures r.None? <==> LeadingDigits(Unsigned(s)) == 0
    ensures r.Some? && (s == [] || s[0] != '-') ==> r.value >= 0
    ensures r.Some? && s != [] && s[0] == '-' ==> r.value <= 0
  {
    var u := Unsigned(s);
    var k := LeadingDigits(u);
    if k == 0 then None
    else
      var v: int := DigitsValue(u[..k]);
      if s[0] == '-' then Some(-v) else Some(v)
  }

  /** The row key a click selects: `parseInt(tx.id.slice(-3))`. */
  function RowKey(id: string): Option<int> {
    ParseInt(TakeLast(id, 3))
  }

  /** The dispute panel opens for a selection that is neither missing, NaN nor zero. */
  predicate PanelOpen(selected: Option<int>) {
    selected.Some? && selected.value != 0
  }

  /** A row is highlighted when its key equals the selection; NaN equals nothing. */
  predicate Highlighted(selected: Option<int>, tx: AdminTx) {
    selected.Some? && RowKey(tx.id) == selected
  }

  /** An id of the form "TXN" and three digits keys its row by the number those digits spell. */
  lemma StandardIdKey(d: string)
    requires |d| == 3 && forall i :: 0 <= i < 3 ==> IsDigit(d[i])
    ensures RowKey("TXN" + d) == Some(100 * DigitOf(d[0]) + 10 * DigitOf(d[1]) + DigitOf(d[2]))
    ensures 0 <= 100 * DigitOf(d[0]) + 10 * DigitOf(d[1]) + DigitOf(d[2]) < 1000
  {
    assert TakeLast("TXN" + d, 3) == d;
    assert Unsigned(d) == d;
    assert LeadingDigits(d) == 3 by {
      assert d[1..][1..][1..] == [];
    }
    assert d[..3] == d;
    assert ParseInt(d) == Some(DigitsValue(d));
    assert d[..2][..1] == d[..1] && d[..1][..0] == [];
    assert DigitsValue(d[..1]) == DigitOf(d[0]);
    assert DigitsValue(d[..2]) == 10 * DigitOf(d[0]) + DigitOf(d[1]);
  }

  /** Ids that share their last three characters select, and highlight, each other's rows. */
  lemma SharedSuffixCollides(a: AdminTx, b: AdminTx)
    requires |a.id| >= 3 && |b.id| >= 3 && a.id[|a.id| - 3..] == b.id[|b.id| - 3..]
    requires RowKey(a.id).Some?
    ensures Highlighted(RowKey(a.id), b)
  {
    assert TakeLast(a.id, 3) == a.id[|a.id| - 3..];
    assert TakeLast(b.id, 3) == b.id[|b.id| - 3..];
  }

  /** Selecting a row whose id ends in "000" leaves the dispute panel closed. */
  lemma ZeroKeyKeepsPanelClosed()
    ensures !PanelOpen(RowKey("TXN000"))
  {
    var d := "000";
    assert d[0] == '0' && d[1] == '0' && d[2] == '0';
    StandardIdKey(d);
    assert "TXN" + d == "TXN000";
  }
}
