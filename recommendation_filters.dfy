/** The filter panel of the recommendations page: the category tabs with
    their fixed badges, and three lists of checked filter ids that the
    checkboxes and the chips edit. The panel holds no state; every handler
    computes a new value and hands it to the page. */
module RecommendationFilters {
  import opened Results
  import opened Seqs
  import opened Lookups

  /** The page's `activeFilters`. */
  datatype Filters = Filters(priority: seq<string>, status: seq<string>, time: seq<string>)

  /** One of the three checkbox groups. */
  datatype Group = Priority | Status | Time

  /** The list a group edits. */
  function List(f: Filters, g: Group): seq<string>
  {
    match g
    case Priority => f.priority
    case Status => f.status
    case Time => f.time
  }

  /** `{ ...activeFilters, [g]: l }`. */
  function WithList(f: Filters, g: Group, l: seq<string>): (r: Filters)
    ensures List(r, g) == l
    ensures forall h :: h != g ==> List(r, h) == List(f, h)
  {
    match g
    case Priority => f.(priority := l)
    case Status => f.(status := l)
    case Time => f.(time := l)
  }

  /** The empty filters the page starts with and `handleClearFilters`
      restores. */
  const NoFilters := Filters([], [], [])

  /** A checkbox's `onChange`: checking appends the id at the end of its
      group, unchecking drops every copy of it, and the other two groups
      are passed on as they were. */
  function Toggle(f: Filters, g: Group, id: string, checked: bool): (r: Filters)
    ensures checked ==> List(r, g) == List(f, g) + [id]
    ensures !checked ==> id !in List(r, g)
    ensures !checked ==> forall x :: x in List(f, g) && x != id ==> x in List(r, g)
    ensures !checked ==> forall x :: x in List(r, g) ==> x in List(f, g)
    ensures forall h :: h != g ==> List(r, h) == List(f, h)
  {
    WithList(f, g, if checked then List(f, g) + [id] else RemoveAll(List(f, g), id))
  }

  /** A chip's remove button filters its id out of its group. */
  function RemoveChip(f: Filters, g: Group, id: string): (r: Filters)
    ensures id !in List(r, g)
    ensures forall x :: x in List(f, g) && x != id ==> x in List(r, g)
    ensures forall x :: x in List(r, g) ==> x in List(f, g)
    ensures forall h :: h != g ==> List(r, h) == List(f, h)
  {
    WithList(f, g, RemoveAll(List(f, g), id))
  }

  /** Removing a chip has exactly the effect of unchecking its box. */
  lemma ChipIsUncheck(f: Filters, g: Group, id: string)
    ensures RemoveChip(f, g, id) == Toggle(f, g, id, false)
  {
  }

  /** `activeFilters[g].includes(id)`: whether the box is ticked. */
  predicate IsChecked(f: Filters, g: Group, id: string)
  {
    id in List(f, g)
  }

  /** A click hands the box its new state, the opposite of what it shows,
      so the box then shows that state; a second click takes the group
      back to what it was, less any duplicates of the id. */
  lemma {:induction false} ClickFlipsBox(f: Filters, g: Group, id: string)
    ensures IsChecked(Toggle(f, g, id, !IsChecked(f, g, id)), g, id) == !IsChecked(f, g, id)
    ensures !IsChecked(f, g, id) ==>
      Toggle(Toggle(f, g, id, true), g, id, false) == f
  {
    if !IsChecked(f, g, id) {
      var l := List(f, g);
      AppendThenRemoveAll(l, id);
      RemoveAllAbsent(l, id);
      assert RemoveAll(l + [id], id) == l;
      var once := Toggle(f, g, id, true);
      assert List(once, g) == l + [id];
      var r := Toggle(once, g, id, false);
      assert List(r, g) == l;
      assert r.priority == f.priority && r.status == f.status && r.time == f.time by {
        assert List(r, Priority) == List(f, Priority);
        assert List(r, Status) == List(f, Status);
        assert List(r, Time) == List(f, Time);
      }
    }
  }

  /** "Clear All" and the active-filter chips show when any group has a
      checked id. */
  predicate HasActiveFilters(f: Filters)
  {
    |f.priority| > 0 || |f.status| > 0 || |f.time| > 0
  }

  /** The panel is hidden exactly when there is nothing to clear, which is
      what `handleClearFilters` leaves behind. */
  lemma ActiveIffSomeGroupNonEmpty(f: Filters)
    ensures HasActiveFilters(f) <==> exists g :: List(f, g) != []
    ensures !HasActiveFilters(f) <==> f == NoFilters
  {
    if List(f, Priority) != [] {
    } else if List(f, Status) != [] {
    } else if List(f, Time) != [] {
    }
    if HasActiveFilters(f) {
      assert List(f, Priority) != [] || List(f, Status) != [] || List(f, Time) != [];
    }
  }

  /** A category tab: its id and the badge it shows. */
  datatype CategoryTab = CategoryTab(id: string, title: string, count: nat)

  /** The tabs, with badges fixed in the source rather than counted from
      the recommendations. */
  const Categories: seq<CategoryTab> := [
    CategoryTab("all", "All Recommendations", 12),
    CategoryTab("irrigation", "Irrigation", 3),
    CategoryTab("fertilizer", "Fertilizer", 4),
    CategoryTab("pest", "Pest & Disease", 2),
    CategoryTab("rotation", "Crop Rotation", 3)
  ]

  /** The tabs as an id-to-badge table. */
  function BadgeTable(tabs: seq<CategoryTab>): (t: seq<(string, nat)>)
    ensures |t| == |tabs|
    ensures forall i :: 0 <= i < |tabs| ==> t[i] == (tabs[i].id, tabs[i].count)
  {
    seq(|tabs|, i requires 0 <= i < |tabs| => (tabs[i].id, tabs[i].count))
  }

  /** The badge of the first tab with id `id`, `None` when no tab has it. */
  function Badge(tabs: seq<CategoryTab>, id: string): (r: Option<nat>)
    ensures r.Some? <==> exists i :: 0 <= i < |tabs| && tabs[i].id == id
    ensures r.Some? ==> exists i :: 0 <= i < |tabs| && tabs[i].id == id && tabs[i].count == r.value
  {
    var table := BadgeTable(tabs);
    assert forall i :: 0 <= i < |tabs| && tabs[i].id == id ==> table[i].0 == id;
    Find(table, id)
  }

  /** The badge each tab shows. */
  lemma CategoryBadges()
    ensures Badge(Categories, "all") == Some(12)
    ensures Badge(Categories, "irrigation") == Some(3)
    ensures Badge(Categories, "fertilizer") == Some(4)
    ensures Badge(Categories, "pest") == Some(2)
    ensures Badge(Categories, "rotation") == Some(3)
  {
    var t := BadgeTable(Categories);
    forall i | 0 <= i < |Categories|
      ensures Find(t, t[i].0) == Some(t[i].1)
    {
      FindFirst(t, i);
    }
    assert t[0].0 == "all" && t[1].0 == "irrigation" && t[2].0 == "fertilizer";
    assert t[3].0 == "pest" && t[4].0 == "rotation";
  }

  /** The four group badges add up to the `all` badge. */
  lemma BadgesAddUp()
    ensures Badge(Categories, "irrigation").Some? && Badge(Categories, "fertilizer").Some? &&
            Badge(Categories, "pest").Some? && Badge(Categories, "rotation").Some? &&
            Badge(Categories, "all").Some?
    ensures Badge(Categories, "irrigation").value + Badge(Categories, "fertilizer").value +
            Badge(Categories, "pest").value + Badge(Categories, "rotation").value == Badge(Categories, "all").value
  {
    CategoryBadges();
  }

  /** The tab highlighted for the page's category. */
  predicate TabActive(activeCategory: string, tab: CategoryTab)
  {
    activeCategory == tab.id
  }

  /** At most one tab is highlighted, because the ids differ. */
  lemma AtMostOneTabActive(activeCategory: string, i: nat, j: nat)
    requires i < j < |Categories|
    ensures !(TabActive(activeCategory, Categories[i]) && TabActive(activeCategory, Categories[j]))
  {
  }
}
