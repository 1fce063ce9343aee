/** The recommendations page: the four mock groups joined according to the
    chosen category, narrowed by a case-insensitive search, and the page
    state that drives them. */
module AiRecommendations {
  import opened Results
  import opened Seqs
  import opened JsString
  import opened RecommendationFilters

  /** A mock recommendation as the page reads it: only the id, the title
      and the optional crop matter to the selection. */
  datatype Item = Item(id: string, title: string, cropType: Option<string>)

  /** An item spread into `{ ...item, type: kind }`. */
  datatype Recommendation = Recommendation(item: Item, kind: string)

  const IrrigationItems: seq<Item> := [
    Item("irr-1", "Morning Irrigation Schedule", Some("Wheat")),
    Item("irr-2", "Drip Irrigation Optimization", Some("Tomato"))
  ]
  const FertilizerItems: seq<Item> := [
    Item("fert-1", "NPK Application for Growth Stage", Some("Rice")),
    Item("fert-2", "Organic Compost Application", Some("Wheat"))
  ]
  const PestItems: seq<Item> := [
    Item("pest-1", "Brown Plant Hopper Infestation", Some("Rice"))
  ]
  /** The rotation plan names no crop of its own. */
  const RotationItems: seq<Item> := [
    Item("rot-1", "Rice-Wheat-Legume Rotation", None)
  ]

  /** `items.map(item => ({ ...item, type: kind }))`. */
  function Tag(items: seq<Item>, kind: string): (r: seq<Recommendation>)
    ensures |r| == |items|
    ensures forall i :: 0 <= i < |r| ==> r[i] == Recommendation(items[i], kind)
  {
    seq(|items|, i requires 0 <= i < |items| => Recommendation(items[i], kind))
  }

  /** A group's items, pushed when the category is `all` or the group's. */
  function Group(category: string, kind: string, items: seq<Item>): seq<Recommendation>
  {
    if category == "all" || category == kind then Tag(items, kind) else []
  }

  /** The list before the search: the groups in their fixed order. */
  function Joined(category: string): seq<Recommendation>
  {
    Group(category, "irrigation", IrrigationItems) + Group(category, "fertilizer", FertilizerItems) +
    Group(category, "pest", PestItems) + Group(category, "rotation", RotationItems)
  }

  /** Whether the lower-cased title, or the lower-cased crop when there is
      one, contains the lower-cased query. */
  predicate Matches(r: Recommendation, query: string)
  {
    Contains(ToLower(r.item.title), ToLower(query)) ||
    (r.item.cropType.Some? && Contains(ToLower(r.item.cropType.value), ToLower(query)))
  }

  /** `getAllRecommendations`: an empty query keeps the joined list. */
  function AllRecommendations(category: string, query: string): (r: seq<Recommendation>)
    ensures query == "" ==> r == Joined(category)
    ensures query != "" ==> forall i :: 0 <= i < |r| ==> Matches(r[i], query) && r[i] in Joined(category)
  {
    if query != "" then Filter(Joined(category), x => Matches(x, query)) else Joined(category)
  }

  /** With `all` the page lists every irrigation, then fertilizer, then
      pest, then rotation item, each tagged with its group. */
  lemma AllCategoryOrder()
    ensures AllRecommendations("all", "") ==
      Tag(IrrigationItems, "irrigation") + Tag(FertilizerItems, "fertilizer") +
      Tag(PestItems, "pest") + Tag(RotationItems, "rotation")
    ensures |AllRecommendations("all", "")| == 6
  {
  }

  /** A named category yields only its own group, and a category that is
      not one of the four yields nothing at all. */
  lemma CategoryYieldsItsGroup(category: string)
    ensures category == "irrigation" ==> Joined(category) == Tag(IrrigationItems, "irrigation")
    ensures category == "fertilizer" ==> Joined(category) == Tag(FertilizerItems, "fertilizer")
    ensures category == "pest" ==> Joined(category) == Tag(PestItems, "pest")
    ensures category == "rotation" ==> Joined(category) == Tag(RotationItems, "rotation")
    ensures category !in {"all", "irrigation", "fertilizer", "pest", "rotation"} ==>
      AllRecommendations(category, "") == []
  {
    if category == "irrigation" {
      assert Joined(category) == Tag(IrrigationItems, "irrigation") + [] + [] + [];
    } else if category == "fertilizer" {
      assert Joined(category) == [] + Tag(FertilizerItems, "fertilizer") + [] + [];
    } else if category == "pest" {
      assert Joined(category) == [] + [] + Tag(PestItems, "pest") + [];
    }
  }

  /** Every listed recommendation is tagged with one of the four card
      kinds, so each one renders exactly one card. */
  lemma EveryItemHasACard(category: string, query: string, i: nat)
    requires i < |AllRecommendations(category, query)|
    ensures AllRecommendations(category, query)[i].kind in {"irrigation", "fertilizer", "pest", "rotation"}
  {
    var r := AllRecommendations(category, query)[i];
    assert r in Joined(category);
  }

  /** A non-empty query keeps exactly the joined items that match it. */
  lemma SearchKeepsExactlyMatches(category: string, query: string, x: Recommendation)
    requires query != ""
    ensures x in AllRecommendations(category, query) <==> x in Joined(category) && Matches(x, query)
  {
    FilterMember(Joined(category), y => Matches(y, query), x);
  }

  /** The search narrows each group on its own and keeps the groups in
      order, so the result is an order-preserving part of the joined
      list. */
  lemma SearchKeepsOrder(category: string, query: string)
    requires query != ""
    ensures var p := (y: Recommendation) => Matches(y, query);
      AllRecommendations(category, query) ==
        Filter(Group(category, "irrigation", IrrigationItems), p) +
        Filter(Group(category, "fertilizer", FertilizerItems), p) +
        Filter(Group(category, "pest", PestItems), p) +
        Filter(Group(category, "rotation", RotationItems), p)
  {
    var p := (y: Recommendation) => Matches(y, query);
    var a := Group(category, "irrigation", IrrigationItems);
    var b := Group(category, "fertilizer", FertilizerItems);
    var c := Group(category, "pest", PestItems);
    var d := Group(category, "rotation", RotationItems);
    FilterAppend(a + b + c, d, p);
    FilterAppend(a + b, c, p);
    FilterAppend(a, b, p);
  }

  /** The rotation plan has no crop, so only its title can match. */
  lemma RotationMatchesOnTitleOnly(query: string)
    ensures forall r :: r in Tag(RotationItems, "rotation") ==>
      (Matches(r, query) <==> Contains(ToLower(r.item.title), ToLower(query)))
  {
  }

  /** A query of the crop's name in any case finds the pest alert. */
  lemma SearchByCropIgnoresCase()
    ensures Tag(PestItems, "pest")[0] in AllRecommendations("all", "RICE")
  {
    var pest := Tag(PestItems, "pest")[0];
    assert ToLower("RICE") == "rice";
    assert ToLower(pest.item.cropType.value) == "rice";
    assert OccursAt("rice", "rice", 0);
    assert Matches(pest, "RICE");
    assert pest in Joined("all") by {
      assert Joined("all")[4] == pest;
    }
    SearchKeepsExactlyMatches("all", "RICE", pest);
  }

  /** A piece of the title finds the item too. */
  lemma SearchByTitlePiece()
    ensures Tag(PestItems, "pest")[0] in AllRecommendations("pest", "hopper")
  {
    var pest := Tag(PestItems, "pest")[0];
    var t := ToLower(pest.item.title);
    assert ToLower("hopper") == "hopper";
    assert t[12..18] == "hopper";
    assert OccursAt(t, "hopper", 12);
    CategoryYieldsItsGroup("pest");
    SearchKeepsExactlyMatches("pest", "hopper", pest);
  }

  /** The badges on the tabs are fixed numbers: the irrigation tab shows 3
      while the irrigation category lists two items, and the `all` tab
      shows 12 for a list of six. */
  lemma BadgesAreNotCounts()
    ensures Badge(Categories, "irrigation") == Some(3) && |AllRecommendations("irrigation", "")| == 2
    ensures Badge(Categories, "all") == Some(12) && |AllRecommendations("all", "")| == 6
  {
    CategoryBadges();
    CategoryYieldsItsGroup("irrigation");
  }

  /** The page's state. */
  class RecommendationsPage {
    var currentLanguage: string
    var activeCategory: string
    var activeFilters: Filters
    var searchQuery: string

    /** What the list shows: the filters take no part in it. */
    function Shown(): (r: seq<Recommendation>)
      reads this
      ensures |r| <= |Joined(activeCategory)|
      ensures forall i :: 0 <= i < |r| ==> r[i] in Joined(activeCategory)
    {
      AllRecommendations(activeCategory, searchQuery)
    }

    /** The "No Recommendations Found" panel replaces the list. */
    predicate EmptyStateShown()
      reads this
    {
      |Shown()| == 0
    }

    /** The page's first render. */
    constructor ()
      ensures currentLanguage == "en" && activeCategory == "all"
      ensures activeFilters == NoFilters && searchQuery == ""
      ensures Shown() == AllRecommendations("all", "") && !EmptyStateShown()
    {
      currentLanguage := "en";
      activeCategory := "all";
      activeFilters := NoFilters;
      searchQuery := "";
      AllCategoryOrder();
    }

    /** The language effect: `getItem('preferred-language') || 'en'`, so a
        missing or empty entry gives English. */
    method LoadLanguage(stored: Option<string>)
      modifies this
      ensures currentLanguage == (if stored.Some? && stored.value != "" then stored.value else "en")
      ensures activeCategory == old(activeCategory) && activeFilters == old(activeFilters)
      ensures searchQuery == old(searchQuery)
    {
      currentLanguage := if stored.Some? && stored.value != "" then stored.value else "en";
    }

    /** A tab click. */
    method CategoryChange(category: string)
      modifies this
      ensures activeCategory == category && Shown() == AllRecommendations(category, searchQuery)
      ensures currentLanguage == old(currentLanguage) && activeFilters == old(activeFilters)
      ensures searchQuery == old(searchQuery)
    {
      activeCategory := category;
    }

    /** Typing in the search box. */
    method SearchChange(query: string)
      modifies this
      ensures searchQuery == query && Shown() == AllRecommendations(activeCategory, query)
      ensures currentLanguage == old(currentLanguage) && activeFilters == old(activeFilters)
      ensures activeCategory == old(activeCategory)
    {
      searchQuery := query;
    }

    /** `onFilterChange` from the panel: the filters change and the list
        does not. */
    method FilterChange(f: Filters)
      modifies this
      ensures activeFilters == f && Shown() == old(Shown())
      ensures currentLanguage == old(currentLanguage) && activeCategory == old(activeCategory)
      ensures searchQuery == old(searchQuery)
    {
      activeFilters := f;
    }

    /** `handleClearFilters`: all three lists are emptied, nothing else
        changes, and neither does the list. */
    method ClearFilters()
      modifies this
      ensures activeFilters == NoFilters && !HasActiveFilters(activeFilters) && Shown() == old(Shown())
      ensures currentLanguage == old(currentLanguage) && activeCategory == old(activeCategory)
      ensures searchQuery == old(searchQuery)
    {
      activeFilters := NoFilters;
    }

    /** The empty state's "Clear All Filters" button: the query, the
        category and the filters are all reset, which always brings the
        six recommendations back. */
    method ResetFromEmptyState()
      modifies this
      ensures searchQuery == "" && activeCategory == "all" && activeFilters == NoFilters
      ensures |Shown()| == 6 && !EmptyStateShown()
      ensures currentLanguage == old(currentLanguage)
    {
      searchQuery := "";
      activeCategory := "all";
      ClearFilters();
      AllCategoryOrder();
    }
  }
}
