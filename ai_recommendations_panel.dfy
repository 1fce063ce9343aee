/** The dashboard's recommendations panel: the category tabs, the badges
    and colours of each card, and the card that is expanded. */
module AiRecommendationsPanel {
  import opened Results
  import opened Seqs
  import opened JsString
  import opened Lookups
  import opened Expansion

  /** A recommendation as the panel reads it. */
  datatype Recommendation = Recommendation(
    id: string, title: string, category: Option<string>, priority: Option<string>, confidence: Option<real>)

  /** Colour classes of the priority badge. */
  const HighPriority := "text-error bg-error/10 border-error/20"
  const MediumPriority := "text-warning bg-warning/10 border-warning/20"
  const LowPriority := "text-success bg-success/10 border-success/20"
  const DefaultPriority := "text-muted-foreground bg-muted border-border"

  /** The `switch` arms of `getPriorityColor`. */
  const PriorityTable: seq<(string, string)> := [
    ("high", HighPriority), ("medium", MediumPriority), ("low", LowPriority)
  ]

  /** `getPriorityColor`: the lower-cased priority picks its arm. */
  function PriorityColor(priority: Option<string>): (c: string)
    ensures priority.Some? && ToLower(priority.value) == "high" ==> c == HighPriority
    ensures priority.Some? && ToLower(priority.value) == "medium" ==> c == MediumPriority
    ensures priority.Some? && ToLower(priority.value) == "low" ==> c == LowPriority
    ensures priority.None? || ToLower(priority.value) !in {"high", "medium", "low"} ==> c == DefaultPriority
  {
    FindFirst(PriorityTable, 0);
    FindFirst(PriorityTable, 1);
    FindFirst(PriorityTable, 2);
    FindLowerOr(PriorityTable, priority, DefaultPriority)
  }

  /** "High", "HIGH" and "high" get the same badge. */
  lemma PriorityIgnoresCase(p: string)
    ensures PriorityColor(Some(p)) == PriorityColor(Some(ToLower(p)))
  {
    FindLowerIgnoresCase(PriorityTable, p, DefaultPriority);
  }

  /** The three confidence bands the dashboard colours: from 80 success,
      from 60 warning, else error. A missing confidence compares false
      with both cut-offs and falls in the error band. */
  datatype Band = Success | Warning | Error

  function ConfidenceBand(confidence: Option<real>): (b: Band)
    ensures b == Success <==> confidence.Some? && confidence.value >= 80.0
    ensures b == Warning <==> confidence.Some? && 60.0 <= confidence.value < 80.0
    ensures b == Error <==> confidence.None? || confidence.value < 60.0
  {
    if confidence.Some? && confidence.value >= 80.0 then Success
    else if confidence.Some? && confidence.value >= 60.0 then Warning
    else Error
  }

  /** `getConfidenceColor`: the text colour of the confidence's band. */
  function ConfidenceColor(confidence: Option<real>): (c: string)
    ensures c == "text-success" <==> confidence.Some? && confidence.value >= 80.0
    ensures c == "text-warning" <==> confidence.Some? && 60.0 <= confidence.value < 80.0
    ensures c == "text-error" <==> confidence.None? || confidence.value < 60.0
  {
    match ConfidenceBand(confidence)
    case Success => "text-success"
    case Warning => "text-warning"
    case Error => "text-error"
  }

  /** A higher confidence never gets a worse colour. */
  lemma ConfidenceColorMonotone(a: real, b: real)
    requires a <= b
    ensures ConfidenceColor(Some(a)) == "text-success" ==> ConfidenceColor(Some(b)) == "text-success"
    ensures ConfidenceColor(Some(b)) == "text-error" ==> ConfidenceColor(Some(a)) == "text-error"
  {
  }

  /** The `iconMap` of `getCategoryIcon`. */
  const CategoryIcons: seq<(string, string)> := [
    ("irrigation", "Droplets"), ("fertilizer", "Beaker"), ("pest", "Bug"),
    ("harvest", "Scissors"), ("planting", "Sprout"), ("soil", "Mountain")
  ]

  /** `getCategoryIcon`. */
  function CategoryIcon(category: Option<string>): (r: string)
    ensures category.None? ==> r == "Lightbulb"
    ensures r in {"Droplets", "Beaker", "Bug", "Scissors", "Sprout", "Mountain", "Lightbulb"}
  {
    FoundOrFallback(CategoryIcons, if category.Some? then Some(ToLower(category.value)) else None, "Lightbulb");
    FindLowerOr(CategoryIcons, category, "Lightbulb")
  }

  /** Known categories get their icon in any case; a missing category or
      one outside the table gets the light bulb. */
  lemma CategoryIconExamples()
    ensures CategoryIcon(Some("Irrigation")) == "Droplets"
    ensures CategoryIcon(Some("SOIL")) == "Mountain"
    ensures CategoryIcon(None) == "Lightbulb"
  {
    assert ToLower("Irrigation") == "irrigation";
    FindLowerHitsEntry(CategoryIcons, 0, "Irrigation", "Lightbulb");
    assert ToLower("SOIL") == "soil";
    FindLowerHitsEntry(CategoryIcons, 5, "SOIL", "Lightbulb");
  }

  /** The light bulb shows exactly for a category outside the table,
      whatever its case. */
  lemma CategoryIconFallback(c: string)
    ensures CategoryIcon(Some(c)) == "Lightbulb" <==> ToLower(c) !in {"irrigation", "fertilizer", "pest", "harvest", "planting", "soil"}
  {
    var k := ToLower(c);
    if k == "irrigation" { FindLowerHitsEntry(CategoryIcons, 0, c, "Lightbulb"); }
    else if k == "fertilizer" { FindLowerHitsEntry(CategoryIcons, 1, c, "Lightbulb"); }
    else if k == "pest" { FindLowerHitsEntry(CategoryIcons, 2, c, "Lightbulb"); }
    else if k == "harvest" { FindLowerHitsEntry(CategoryIcons, 3, c, "Lightbulb"); }
    else if k == "planting" { FindLowerHitsEntry(CategoryIcons, 4, c, "Lightbulb"); }
    else if k == "soil" { FindLowerHitsEntry(CategoryIcons, 5, c, "Lightbulb"); }
  }

  /** The panel's category filter: `all` shows the list as given; any
      other category keeps exactly the recommendations of that category,
      compared as written, in order. */
  function FilterByCategory(recs: seq<Recommendation>, selected: string): (r: seq<Recommendation>)
    ensures selected == "all" ==> r == recs
    ensures selected != "all" ==> forall i :: 0 <= i < |r| ==> r[i].category == Some(selected) && r[i] in recs
  {
    if selected == "all" then recs else Filter(recs, (rec: Recommendation) => rec.category == Some(selected))
  }

  /** A recommendation is listed exactly when the tab is `all` or its
      category is the tab's. */
  lemma FilterByCategoryMembers(recs: seq<Recommendation>, selected: string, x: Recommendation)
    ensures x in FilterByCategory(recs, selected) <==>
      x in recs && (selected == "all" || x.category == Some(selected))
  {
    if selected != "all" {
      FilterMember(recs, (rec: Recommendation) => rec.category == Some(selected), x);
    }
  }

  /** The panel's state. */
  class Panel {
    const recommendations: seq<Recommendation>
    var selectedCategory: string
    var expandedCard: Option<string>

    /** The cards shown. */
    function Shown(): seq<Recommendation>
      reads this
    {
      FilterByCategory(recommendations, selectedCategory)
    }

    /** The "No recommendations" message replaces the cards. */
    predicate EmptyStateShown()
      reads this
    {
      |Shown()| == 0
    }

    /** The first render: every recommendation, none expanded. */
    constructor (recs: seq<Recommendation>)
      ensures recommendations == recs && selectedCategory == "all" && expandedCard == None
      ensures Shown() == recs && (EmptyStateShown() <==> recs == [])
    {
      recommendations := recs;
      selectedCategory := "all";
      expandedCard := None;
    }

    /** A tab click. */
    method SelectCategory(category: string)
      modifies this
      ensures selectedCategory == category && expandedCard == old(expandedCard)
      ensures Shown() == FilterByCategory(recommendations, category)
    {
      selectedCategory := category;
    }

    /** A card's expand button. */
    method Toggle(id: string)
      modifies this
      ensures expandedCard == ToggleExpanded(old(expandedCard), id)
      ensures IsExpanded(expandedCard, id) <==> !IsExpanded(old(expandedCard), id)
      ensures forall other :: other != id ==> !IsExpanded(expandedCard, other) || expandedCard == old(expandedCard)
      ensures selectedCategory == old(selectedCategory)
    {
      expandedCard := ToggleExpanded(expandedCard, id);
    }
  }
}
