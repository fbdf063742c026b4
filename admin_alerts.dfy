/**
 * The admin alerts panel: alerts of four kinds, a tab filter, the unread
 * and critical counters, and the colour of each kind.
 */
module AdminAlerts {
  import opened Wrappers
  import opened Strings
  import opened Seqs
  import opened Inbox

  datatype AlertInfo = AlertInfo(kind: string, title: string, message: string, timestamp: string,
                                 action: Option<string>)

  type Alert = Item<AlertInfo>

  /** Whether an alert is listed under a tab other than "all". */
  predicate Shows(filterType: string, a: Alert) {
    if filterType == "unread" then !a.read
    else if filterType == "critical" then a.content.kind == "critical"
    else a.content.kind == filterType
  }

  /** filteredAlerts in AdminAlerts.tsx: every alert under "all", else the alerts the tab shows, in order. */
  function FilteredAlerts(alerts: seq<Alert>, filterType: string): (r: seq<Alert>)
    ensures filterType == "all" ==> r == alerts
    ensures filterType != "all" ==> forall i :: 0 <= i < |r| ==> Shows(filterType, r[i])
    ensures forall i :: 0 <= i < |r| ==> r[i] in alerts
    ensures forall i :: 0 <= i < |alerts| && (filterType == "all" || Shows(filterType, alerts[i])) ==> alerts[i] in r
    ensures forall x :: multiset(r)[x] == if filterType == "all" || Shows(filterType, x) then multiset(alerts)[x] else 0
    ensures IsSubseq(r, alerts)
  {
    FilterIf(alerts, filterType != "all", (a: Alert) => Shows(filterType, a))
  }

  /** The "Unread (n)" tab label counts exactly the alerts that tab lists. */
  lemma UnreadTabMatchesCount(alerts: seq<Alert>)
    ensures |FilteredAlerts(alerts, "unread")| == UnreadCount(alerts)
  {
    FilterExt(alerts, (a: Alert) => Shows("unread", a), IsUnread);
  }

  predicate IsCritical(a: Alert) { a.content.kind == "critical" }

  /** The "Critical" counter. */
  function CriticalCount(alerts: seq<Alert>): (n: nat)
    ensures n <= |alerts|
  {
    |Filter(alerts, IsCritical)|
  }

  /** The critical counter counts exactly the alerts the "critical" tab lists. */
  lemma CriticalTabMatchesCount(alerts: seq<Alert>)
    ensures |FilteredAlerts(alerts, "critical")| == CriticalCount(alerts)
  {
    FilterExt(alerts, (a: Alert) => Shows("critical", a), IsCritical);
  }

  const CriticalColor := "bg-red-500/10 border-red-500/20 text-red-500"
  const WarningColor := "bg-yellow-500/10 border-yellow-500/20 text-yellow-500"
  const InfoColor := "bg-blue-500/10 border-blue-500/20 text-blue-500"
  const SuccessColor := "bg-green-500/10 border-green-500/20 text-green-500"

  const TypeColors: map<string, string> :=
    map["critical" := CriticalColor, "warning" := WarningColor, "info" := InfoColor, "success" := SuccessColor]

  /** getTypeColor in AdminAlerts.tsx: the colour of a known kind, the info colour for any other. */
  function TypeColor(kind: string): (c: string)
    ensures kind in TypeColors ==> c == TypeColors[kind]
    ensures kind !in TypeColors ==> c == InfoColor
    ensures c in TypeColors.Values
  {
    LookupOr(TypeColors, kind, TypeColors["info"])
  }
}
