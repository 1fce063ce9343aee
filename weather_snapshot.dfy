/** The weather card: the condition icon and label, the humidity band and
    the alert styling. */
module WeatherSnapshot {
  import opened Results
  import opened JsString
  import opened Lookups

  /** The `iconMap` of `getWeatherIcon`, keyed exactly as written. */
  const WeatherIcons: seq<(string, string)> := [
    ("sunny", "Sun"), ("cloudy", "Cloud"), ("rainy", "CloudRain"),
    ("stormy", "CloudLightning"), ("partly-cloudy", "CloudSun")
  ]

  /** `getWeatherIcon`: the key is not lower-cased. */
  function WeatherIcon(condition: Option<string>): (r: string)
    ensures condition.None? ==> r == "Sun"
    ensures r in {"Sun", "Cloud", "CloudRain", "CloudLightning", "CloudSun"}
  {
    FoundOrFallback(WeatherIcons, condition, "Sun");
    FindOr(WeatherIcons, condition, "Sun")
  }

  /** Any condition the table does not spell exactly gets the sun. */
  lemma UnknownConditionGetsSun(c: string)
    requires c !in {"sunny", "cloudy", "rainy", "stormy", "partly-cloudy"}
    ensures WeatherIcon(Some(c)) == "Sun"
  {
    assert forall i :: 0 <= i < |WeatherIcons| ==> WeatherIcons[i].0 != c;
  }

  /** Known conditions get their icons; a differently cased key gets the
      sun. */
  lemma WeatherIconExamples()
    ensures WeatherIcon(Some("rainy")) == "CloudRain"
    ensures WeatherIcon(Some("partly-cloudy")) == "CloudSun"
    ensures WeatherIcon(Some("Rainy")) == "Sun"
    ensures WeatherIcon(None) == "Sun"
  {
    var keys := seq(|WeatherIcons|, i requires 0 <= i < |WeatherIcons| => WeatherIcons[i].0[0]);
    assert keys == ['s', 'c', 'r', 's', 'p'];
    FindFirst(WeatherIcons, 2);
    FindFirst(WeatherIcons, 4);
    UnknownConditionGetsSun("Rainy");
  }

  /** `getAlertColor` and `getAlertBg`, one pair per severity. */
  datatype AlertStyle = AlertStyle(color: string, bg: string)

  /** The two `switch`es side by side, keyed exactly as written. */
  const AlertStyles: seq<(string, AlertStyle)> := [
    ("high", AlertStyle("text-error", "bg-error/10 border-error/20")),
    ("medium", AlertStyle("text-warning", "bg-warning/10 border-warning/20")),
    ("low", AlertStyle("text-success", "bg-success/10 border-success/20"))
  ]

  const MutedStyle := AlertStyle("text-muted-foreground", "bg-muted border-border")

  /** `getAlertColor` and `getAlertBg` of one severity. */
  function AlertStyleOf(severity: Option<string>): (r: AlertStyle)
    ensures severity.None? ==> r == MutedStyle
    ensures r == MutedStyle || r == AlertStyles[0].1 || r == AlertStyles[1].1 || r == AlertStyles[2].1
  {
    FoundOrFallback(AlertStyles, severity, MutedStyle);
    FindOr(AlertStyles, severity, MutedStyle)
  }

  /** Text and background always come from the same band: high is red,
      medium amber and low green in both, and anything else is muted in
      both. */
  lemma AlertColorMatchesBg(severity: Option<string>)
    ensures var s := AlertStyleOf(severity);
      (s.color == "text-error" <==> s.bg == "bg-error/10 border-error/20") &&
      (s.color == "text-warning" <==> s.bg == "bg-warning/10 border-warning/20") &&
      (s.color == "text-success" <==> s.bg == "bg-success/10 border-success/20") &&
      (s.color == "text-muted-foreground" <==> s.bg == "bg-muted border-border")
    ensures AlertStyleOf(severity) == MutedStyle <==> severity.None? || severity.value !in {"high", "medium", "low"}
  {
    FindFirst(AlertStyles, 0);
    FindFirst(AlertStyles, 1);
    FindFirst(AlertStyles, 2);
  }

  /** The humidity label: above 70 High, above 40 Moderate, else Low; a
      missing reading is Low. */
  function HumidityBand(humidity: Option<real>): (r: string)
    ensures r == "High" <==> humidity.Some? && humidity.value > 70.0
    ensures r == "Moderate" <==> humidity.Some? && 40.0 < humidity.value <= 70.0
    ensures r == "Low" <==> humidity.None? || humidity.value <= 40.0
  {
    if humidity.Some? && humidity.value > 70.0 then "High"
    else if humidity.Some? && humidity.value > 40.0 then "Moderate"
    else "Low"
  }

  /** `condition?.replace('-', ' ')`: only the first hyphen becomes a
      space, and a missing condition shows nothing. */
  function ConditionLabel(condition: Option<string>): (r: Option<string>)
    ensures r.Some? <==> condition.Some?
    ensures r.Some? ==> |r.value| == |condition.value|
  {
    if condition.Some? then Some(ReplaceFirst(condition.value, '-', ' ')) else None
  }

  /** A hyphenated condition such as "partly-cloudy" reads with a space
      in place of its first hyphen, and everything after it kept. */
  lemma ConditionLabelOfHyphenated(a: string, b: string)
    requires '-' !in a
    ensures ConditionLabel(Some(a + ['-'] + b)) == Some(a + [' '] + b)
  {
    ReplaceFirstSplit(a, b, '-', ' ');
  }

  /** A second hyphen is kept. */
  lemma ConditionLabelKeepsLaterHyphens()
    ensures ConditionLabel(Some("a-b-c")) == Some("a b-c")
  {
    ReplaceFirstSplit("a", "b-c", '-', ' ');
    assert "a" + ['-'] + "b-c" == "a-b-c";
    assert "a" + [' '] + "b-c" == "a b-c";
  }

  /** A condition with two hyphens keeps the second: exactly one
      position changes, the first hyphen. */
  lemma ConditionLabelFirstHyphenOnly(c: string)
    ensures var r := ConditionLabel(Some(c)).value;
      forall j :: 0 <= j < |c| ==> (r[j] != c[j] <==> j == IndexOf(c, '-'))
  {
  }

  /** A weather alert as the card reads it. */
  datatype WeatherAlert = WeatherAlert(severity: Option<string>, title: string)

  /** `weatherData?.alerts && weatherData.alerts.length > 0`. */
  predicate AlertsShown(alerts: Option<seq<WeatherAlert>>)
  {
    alerts.Some? && |alerts.value| > 0
  }
}
