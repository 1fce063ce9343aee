/** The dashboard's alert panel: the tabs with their counts, the type
    filter, how old each alert is said to be, the severity styling, and
    the alert that is expanded. */
module AlertNotifications {
  import opened Results
  import opened Seqs
  import opened JsString
  import opened Lookups
  import opened Expansion

  /** An alert as the panel reads it. `age` is `now - timestamp` in
      milliseconds, `None` when the timestamp is not a date and the
      difference is `NaN`. */
  datatype Alert = Alert(id: string, kind: Option<string>, severity: Option<string>, age: Option<int>)

  /** Whether an alert's `type` is `t`. */
  predicate OfKind(a: Alert, t: string)
  {
    a.kind == Some(t)
  }

  /** `alerts.filter(a => a.type === t).length`. */
  function KindCount(alerts: seq<Alert>, t: string): (n: nat)
    ensures n <= |alerts|
  {
    Count(alerts, (a: Alert) => OfKind(a, t))
  }

  /** A tab and the count on its badge. */
  datatype Tab = Tab(id: string, count: nat)

  /** `alertTypes`: `all` counts every alert, each other tab the alerts of
      its type. */
  function Tabs(alerts: seq<Alert>): (r: seq<Tab>)
    ensures |r| == 4 && r[0] == Tab("all", |alerts|)
    ensures forall i :: 1 <= i < 4 ==> r[i].count == KindCount(alerts, r[i].id)
  {
    [Tab("all", |alerts|), Tab("weather", KindCount(alerts, "weather")),
     Tab("pest", KindCount(alerts, "pest")), Tab("system", KindCount(alerts, "system"))]
  }

  /** The three type badges never add up to more than the `all` badge;
      alerts of any other type are counted only there. */
  lemma {:induction false} KindCountsWithinTotal(alerts: seq<Alert>)
    ensures KindCount(alerts, "weather") + KindCount(alerts, "pest") + KindCount(alerts, "system") <= |alerts|
  {
    if alerts != [] {
      KindCountsWithinTotal(alerts[1..]);
    }
  }

  /** `filteredAlerts`: `all` keeps the list, any other filter the alerts
      whose type is exactly the filter. */
  function FilterAlerts(alerts: seq<Alert>, filter: string): (r: seq<Alert>)
    ensures filter == "all" ==> r == alerts
    ensures filter != "all" ==> forall i :: 0 <= i < |r| ==> OfKind(r[i], filter) && r[i] in alerts
  {
    if filter == "all" then alerts else Filter(alerts, (a: Alert) => OfKind(a, filter))
  }

  /** An alert is listed exactly when the filter is `all` or its type. */
  lemma FilterAlertsMembers(alerts: seq<Alert>, filter: string, x: Alert)
    ensures x in FilterAlerts(alerts, filter) <==> x in alerts && (filter == "all" || OfKind(x, filter))
  {
    if filter != "all" {
      FilterMember(alerts, (a: Alert) => OfKind(a, filter), x);
    }
  }

  /** "N active alerts" above the list is always the count on the
      selected tab's badge. */
  lemma HeaderMatchesBadge(alerts: seq<Alert>, i: nat)
    requires i < 4
    ensures |FilterAlerts(alerts, Tabs(alerts)[i].id)| == Tabs(alerts)[i].count
  {
  }

  /** How `formatTimeAgo` buckets an age. */
  datatype Age = JustNow | Minutes(m: nat) | Hours(h: nat) | Days(d: nat) | NotANumber

  const MinuteMs := 60000
  const HourMs := 3600000
  const DayMs := 86400000

  /** `Math.floor(diff / 60000)` minutes, then the first bucket that fits;
      a future timestamp gives a negative count and is "Just now", and a
      `NaN` age fails every comparison and lands in the days arm. */
  function AgeOf(age: Option<int>): (r: Age)
    ensures r == NotANumber <==> age.None?
    ensures r == JustNow <==> age.Some? && age.value < MinuteMs
    ensures r.Minutes? ==> 1 <= r.m < 60 && r.m == age.value / MinuteMs
    ensures r.Hours? ==> 1 <= r.h < 24 && r.h == age.value / HourMs
    ensures r.Days? ==> r.d >= 1 && r.d == age.value / DayMs
  {
    if age.None? then NotANumber
    else
      var minutes := age.value / MinuteMs;
      if minutes < 1 then JustNow
      else if minutes < 60 then Minutes(minutes)
      else if minutes < 1440 then Hours(minutes / 60)
      else Days(minutes / 1440)
  }

  /** The order of the buckets, finest first. */
  function Rank(a: Age): nat
  {
    match a
    case JustNow => 0
    case Minutes(_) => 1
    case Hours(_) => 2
    case Days(_) => 3
    case NotANumber => 4
  }

  /** An older alert is never put in a finer bucket, nor given a smaller
      number in the same bucket. */
  lemma AgeMonotone(x: int, y: int)
    requires x <= y
    ensures Rank(AgeOf(Some(x))) <= Rank(AgeOf(Some(y)))
    ensures AgeOf(Some(x)).Minutes? && AgeOf(Some(y)).Minutes? ==> AgeOf(Some(x)).m <= AgeOf(Some(y)).m
    ensures AgeOf(Some(x)).Hours? && AgeOf(Some(y)).Hours? ==> AgeOf(Some(x)).h <= AgeOf(Some(y)).h
    ensures AgeOf(Some(x)).Days? && AgeOf(Some(y)).Days? ==> AgeOf(Some(x)).d <= AgeOf(Some(y)).d
  {
  }

  /** The text of a bucket. */
  function AgeText(a: Age): string
  {
    match a
    case JustNow => "Just now"
    case Minutes(m) => NatToString(m) + "m ago"
    case Hours(h) => NatToString(h) + "h ago"
    case Days(d) => NatToString(d) + "d ago"
    case NotANumber => "NaNd ago"
  }

  /** `formatTimeAgo`. */
  function FormatTimeAgo(age: Option<int>): (t: string)
    ensures age.Some? && age.value < MinuteMs ==> t == "Just now"
    ensures age.None? ==> t == "NaNd ago"
  {
    AgeText(AgeOf(age))
  }

  /** Half an hour is "30m ago", two hours "2h ago", a minute in the
      future "Just now". */
  lemma TimeAgoExamples()
    ensures AgeOf(Some(30 * MinuteMs)) == Minutes(30)
    ensures AgeOf(Some(2 * HourMs)) == Hours(2)
    ensures AgeOf(Some(-MinuteMs)) == JustNow
    ensures AgeOf(Some(3 * DayMs + 5)) == Days(3)
  {
  }

  /** The styling of a severity. */
  datatype SeverityStyle = SeverityStyle(color: string, bg: string, border: string, icon: string)

  const Critical := SeverityStyle("text-error", "bg-error/10", "border-error/20", "AlertTriangle")
  const High := SeverityStyle("text-warning", "bg-warning/10", "border-warning/20", "AlertCircle")
  const Medium := SeverityStyle("text-blue-600", "bg-blue-50", "border-blue-200", "Info")
  const Low := SeverityStyle("text-success", "bg-success/10", "border-success/20", "CheckCircle")
  const Unknown := SeverityStyle("text-muted-foreground", "bg-muted", "border-border", "Bell")

  /** The `switch` arms of `getSeverityConfig`. */
  const SeverityTable: seq<(string, SeverityStyle)> := [
    ("critical", Critical), ("high", High), ("medium", Medium), ("low", Low)
  ]

  /** `getSeverityConfig`: the lower-cased severity picks its style. */
  function SeverityConfig(severity: Option<string>): (r: SeverityStyle)
    ensures severity.Some? && ToLower(severity.value) == "critical" ==> r == Critical
    ensures severity.Some? && ToLower(severity.value) == "high" ==> r == High
    ensures severity.Some? && ToLower(severity.value) == "medium" ==> r == Medium
    ensures severity.Some? && ToLower(severity.value) == "low" ==> r == Low
    ensures severity.None? || ToLower(severity.value) !in {"critical", "high", "medium", "low"} ==> r == Unknown
  {
    FindFirst(SeverityTable, 0);
    FindFirst(SeverityTable, 1);
    FindFirst(SeverityTable, 2);
    FindFirst(SeverityTable, 3);
    FindLowerOr(SeverityTable, severity, Unknown)
  }

  /** The icon tells the severity apart: only an unknown severity shows
      the bell, and the four known ones show four different icons. */
  lemma SeverityIconsDistinct(s: Option<string>, t: Option<string>)
    ensures SeverityConfig(s).icon == "Bell" <==> s.None? || ToLower(s.value) !in {"critical", "high", "medium", "low"}
    ensures SeverityConfig(s).icon == SeverityConfig(t).icon ==> SeverityConfig(s) == SeverityConfig(t)
  {
  }

  /** The `iconMap` of `getTypeIcon`. */
  const TypeIcons: seq<(string, string)> := [
    ("weather", "Cloud"), ("pest", "Bug"), ("system", "Settings"),
    ("irrigation", "Droplets"), ("soil", "Mountain"), ("crop", "Sprout")
  ]

  /** `getTypeIcon`. */
  function TypeIcon(kind: Option<string>): (r: string)
    ensures kind.None? ==> r == "Bell"
    ensures r in {"Cloud", "Bug", "Settings", "Droplets", "Mountain", "Sprout", "Bell"}
  {
    FoundOrFallback(TypeIcons, if kind.Some? then Some(ToLower(kind.value)) else None, "Bell");
    FindLowerOr(TypeIcons, kind, "Bell")
  }

  /** A known type gets its icon in any case, and anything else the
      bell. */
  lemma TypeIconExamples(k: string)
    ensures TypeIcon(Some("Weather")) == "Cloud"
    ensures TypeIcon(None) == "Bell"
    ensures TypeIcon(Some(k)) == "Bell" <==> ToLower(k) !in {"weather", "pest", "system", "irrigation", "soil", "crop"}
  {
    assert ToLower("Weather") == "weather";
    FindLowerHitsEntry(TypeIcons, 0, "Weather", "Bell");
    var l := ToLower(k);
    if l == "weather" { FindLowerHitsEntry(TypeIcons, 0, k, "Bell"); }
    else if l == "pest" { FindLowerHitsEntry(TypeIcons, 1, k, "Bell"); }
    else if l == "system" { FindLowerHitsEntry(TypeIcons, 2, k, "Bell"); }
    else if l == "irrigation" { FindLowerHitsEntry(TypeIcons, 3, k, "Bell"); }
    else if l == "soil" { FindLowerHitsEntry(TypeIcons, 4, k, "Bell"); }
    else if l == "crop" { FindLowerHitsEntry(TypeIcons, 5, k, "Bell"); }
  }

  /** The text shown when the filtered list is empty. */
  function EmptyMessage(filter: string): (r: string)
    ensures filter == "all" ==> r == "All clear! No active alerts at the moment."
    ensures filter != "all" ==> Contains(r, filter)
  {
    if filter == "all" then "All clear! No active alerts at the moment."
    else
      var r := "No " + filter + " alerts currently active.";
      assert OccursAt(r, filter, 3) by {
        assert r[3..3 + |filter|] == filter;
      }
      r
  }

  /** The panel's state. */
  class Panel {
    const alerts: seq<Alert>
    var filter: string
    var expandedAlert: Option<string>

    /** The alerts listed. */
    function Shown(): seq<Alert>
      reads this
    {
      FilterAlerts(alerts, filter)
    }

    /** The first render: every alert, none expanded. */
    constructor (all: seq<Alert>)
      ensures alerts == all && filter == "all" && expandedAlert == None && Shown() == all
    {
      alerts := all;
      filter := "all";
      expandedAlert := None;
    }

    /** A tab click. */
    method SelectFilter(f: string)
      modifies this
      ensures filter == f && expandedAlert == old(expandedAlert)
      ensures Shown() == FilterAlerts(alerts, f)
    {
      filter := f;
    }

    /** An alert's expand button. */
    method Toggle(id: string)
      modifies this
      ensures expandedAlert == ToggleExpanded(old(expandedAlert), id)
      ensures IsExpanded(expandedAlert, id) <==> !IsExpanded(old(expandedAlert), id)
      ensures filter == old(filter)
    {
      expandedAlert := ToggleExpanded(expandedAlert, id);
    }
  }
}
