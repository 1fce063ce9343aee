/** The crop-yield card: the confidence text and bar, and the trend
    against last season. */
module CropYieldCard {
  import opened Results
  import AiRecommendationsPanel

  /** `getConfidenceBg`, the bar's colour: the background of the same
      band as the panel's confidence text. */
  function ConfidenceBg(confidence: Option<real>): (c: string)
    ensures c == "bg-success" <==> confidence.Some? && confidence.value >= 80.0
    ensures c == "bg-warning" <==> confidence.Some? && 60.0 <= confidence.value < 80.0
    ensures c == "bg-error" <==> confidence.None? || confidence.value < 60.0
  {
    match AiRecommendationsPanel.ConfidenceBand(confidence)
    case Success => "bg-success"
    case Warning => "bg-warning"
    case Error => "bg-error"
  }

  /** The card's own `getConfidenceColor` has the cut-offs of the
      recommendations panel's, so it is that function; the text and the
      bar always show the same band. */
  lemma TextAndBarAgree(confidence: Option<real>)
    ensures AiRecommendationsPanel.ConfidenceColor(confidence) == "text-success" <==> ConfidenceBg(confidence) == "bg-success"
    ensures AiRecommendationsPanel.ConfidenceColor(confidence) == "text-warning" <==> ConfidenceBg(confidence) == "bg-warning"
    ensures AiRecommendationsPanel.ConfidenceColor(confidence) == "text-error" <==> ConfidenceBg(confidence) == "bg-error"
  {
  }

  /** The trend icon's name and colour. */
  datatype TrendIcon = TrendIcon(name: string, color: string)

  /** `getTrendIcon`: a rise, a fall, or neither (a missing trend compares
      false both ways). */
  function TrendIconOf(trend: Option<real>): (r: TrendIcon)
    ensures r.name == "TrendingUp" <==> trend.Some? && trend.value > 0.0
    ensures r.name == "TrendingDown" <==> trend.Some? && trend.value < 0.0
    ensures r.name == "Minus" <==> trend.None? || trend.value == 0.0
    ensures r.name == "TrendingUp" <==> r.color == "text-success"
    ensures r.name == "TrendingDown" <==> r.color == "text-error"
  {
    if trend.Some? && trend.value > 0.0 then TrendIcon("TrendingUp", "text-success")
    else if trend.Some? && trend.value < 0.0 then TrendIcon("TrendingDown", "text-error")
    else TrendIcon("Minus", "text-muted-foreground")
  }

  /** `crop.trend > 0 ? '+' : ''` before the number. */
  function TrendPrefix(trend: Option<real>): (p: string)
    ensures p == "+" <==> trend.Some? && trend.value > 0.0
    ensures p != "+" ==> p == ""
  {
    if trend.Some? && trend.value > 0.0 then "+" else ""
  }

  /** The `+` shows exactly with the rising arrow. */
  lemma PrefixMatchesIcon(trend: Option<real>)
    ensures TrendPrefix(trend) == "+" <==> TrendIconOf(trend).name == "TrendingUp"
    ensures TrendPrefix(trend) == "" <==> TrendIconOf(trend).name != "TrendingUp"
  {
  }
}
