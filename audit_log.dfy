/**
 * The admin audit log: a case-insensitive search on admin, target and
 * action, the category filter, the critical-events counter and the
 * severity colours.
 */
module AuditLog {
  import opened Strings
  import opened Seqs

  datatype Entry = Entry(id: int, timestamp: string, admin: string, action: string, target: string,
                         category: string, status: string, severity: string)

  predicate SearchHit(term: string, e: Entry) {
    var t := Lower(term);
    Contains(Lower(e.admin), t) || Contains(Lower(e.target), t) || Contains(Lower(e.action), t)
  }

  predicate Listed(term: string, actionFilter: string, e: Entry) {
    (term == "" || SearchHit(term, e)) && (actionFilter == "all" || e.category == actionFilter)
  }

  function Searched(logs: seq<Entry>, term: string): (r: seq<Entry>)
    ensures forall x :: x in r <==> x in logs && (term == "" || SearchHit(term, x))
    ensures forall x :: multiset(r)[x] == if term == "" || SearchHit(term, x) then multiset(logs)[x] else 0
    ensures IsSubseq(r, logs)
  {
    FilterIf(logs, term != "", (e: Entry) => SearchHit(term, e))
  }

  function InCategory(logs: seq<Entry>, actionFilter: string): (r: seq<Entry>)
    ensures forall x :: x in r <==> x in logs && (actionFilter == "all" || x.category == actionFilter)
    ensures forall x :: multiset(r)[x] == if actionFilter == "all" || x.category == actionFilter then multiset(logs)[x] else 0
    ensures IsSubseq(r, logs)
  {
    FilterIf(logs, actionFilter != "all", (e: Entry) => e.category == actionFilter)
  }

  /** filteredLogs in AuditLog.tsx: the listed entries, in log order. */
  function FilteredLogs(logs: seq<Entry>, term: string, actionFilter: string): (r: seq<Entry>)
    ensures forall x :: x in r <==> x in logs && Listed(term, actionFilter, x)
    ensures forall x :: multiset(r)[x] == if Listed(term, actionFilter, x) then multiset(logs)[x] else 0
    ensures IsSubseq(r, logs)
    ensures |r| <= |logs|
  {
    var s := Searched(logs, term);
    var r := InCategory(s, actionFilter);
    SubseqTrans(r, s, logs);
    SubseqLength(r, logs);
    r
  }

  /** With no search term and every category, the whole log is listed. */
  lemma NoFilterListsAll(logs: seq<Entry>)
    ensures FilteredLogs(logs, "", "all") == logs
  {
  }

  predicate IsCritical(e: Entry) { e.severity == "critical" }

  /** The "Critical Events" counter, taken over the whole log. */
  function CriticalCount(logs: seq<Entry>): (n: nat)
    ensures n <= |logs|
    ensures n == 0 <==> forall i :: 0 <= i < |logs| ==> logs[i].severity != "critical"
  {
    var r := Filter(logs, IsCritical);
    if r == [] then
      assert forall i :: 0 <= i < |logs| ==> !IsCritical(logs[i]) by {
        forall i | 0 <= i < |logs| ensures !IsCritical(logs[i]) { FilterMembers(logs, IsCritical, logs[i]); }
      }
      0
    else
      assert IsCritical(r[0]);
      FilterMembers(logs, IsCritical, r[0]);
      |r|
  }

  /** The counter adds up over consecutive stretches of the log. */
  lemma CriticalCountAppend(a: seq<Entry>, b: seq<Entry>)
    ensures CriticalCount(a + b) == CriticalCount(a) + CriticalCount(b)
  {
    FilterAppend(a, b, IsCritical);
  }

  /** One entry counts one exactly when it is critical. */
  lemma CriticalCountOne(e: Entry)
    ensures CriticalCount([e]) == if e.severity == "critical" then 1 else 0
  {
  }

  /** The counter ignores the search and the category: no listing shows more critical entries than it counts. */
  lemma CounterIgnoresFilters(logs: seq<Entry>, term: string, actionFilter: string)
    ensures |Filter(FilteredLogs(logs, term, actionFilter), IsCritical)| <= CriticalCount(logs)
  {
    SubseqFilterLength(FilteredLogs(logs, term, actionFilter), logs, IsCritical);
  }

  const SeverityColors: map<string, string> := map[
    "critical" := "bg-red-500/10 text-red-500",
    "high" := "bg-orange-500/10 text-orange-500",
    "medium" := "bg-yellow-500/10 text-yellow-500",
    "low" := "bg-green-500/10 text-green-500"
  ]

  /** getSeverityColor: the colour of a known severity, gray for any other. */
  function SeverityColor(severity: string): (c: string)
    ensures severity in SeverityColors ==> c == SeverityColors[severity]
    ensures severity !in SeverityColors ==> c == "bg-gray-500/10 text-gray-500"
  {
    LookupOr(SeverityColors, severity, "bg-gray-500/10 text-gray-500")
  }
}
