/** The soil-health card: readings are classified against a good and a
    warning interval per parameter, and a field is chosen from a list. */
module SoilHealthMonitoring {
  import opened Results
  import opened Lookups

  /** A closed interval `[lo, hi]`. */
  datatype Interval = Interval(lo: real, hi: real)

  /** `value >= lo && value <= hi`; a missing reading compares false. */
  predicate InInterval(value: Option<real>, i: Interval)
  {
    value.Some? && i.lo <= value.value <= i.hi
  }

  /** The good and warning intervals of a parameter. */
  datatype Ranges = Ranges(good: Interval, warning: Interval)

  /** The `ranges` table; both classifiers carry an identical copy. */
  const RangeTable: seq<(string, Ranges)> := [
    ("ph", Ranges(Interval(6.0, 7.5), Interval(5.5, 8.0))),
    ("moisture", Ranges(Interval(40.0, 70.0), Interval(30.0, 80.0))),
    ("nitrogen", Ranges(Interval(20.0, 40.0), Interval(15.0, 50.0))),
    ("phosphorus", Ranges(Interval(15.0, 30.0), Interval(10.0, 40.0))),
    ("potassium", Ranges(Interval(150.0, 300.0), Interval(100.0, 400.0)))
  ]

  /** For every parameter the good interval lies inside the warning one,
      so a reading the card calls good is also within warning bounds. */
  lemma GoodInsideWarning(i: nat)
    requires i < |RangeTable|
    ensures var r := RangeTable[i].1;
      r.warning.lo <= r.good.lo <= r.good.hi <= r.warning.hi
  {
  }

  /** `getHealthColor`. */
  function HealthColor(value: Option<real>, kind: string): (c: string)
    ensures c == "text-muted-foreground" <==> Find(RangeTable, kind).None?
    ensures c == "text-success" <==> Find(RangeTable, kind).Some? && InInterval(value, Find(RangeTable, kind).value.good)
    ensures c == "text-error" <==> Find(RangeTable, kind).Some? && !InInterval(value, Find(RangeTable, kind).value.good) &&
                                   !InInterval(value, Find(RangeTable, kind).value.warning)
  {
    match Find(RangeTable, kind)
    case None => "text-muted-foreground"
    case Some(r) =>
      if InInterval(value, r.good) then "text-success"
      else if InInterval(value, r.warning) then "text-warning"
      else "text-error"
  }

  /** `getHealthStatus`. */
  function HealthStatus(value: Option<real>, kind: string): (s: string)
    ensures s == "Unknown" <==> Find(RangeTable, kind).None?
    ensures s == "Optimal" <==> Find(RangeTable, kind).Some? && InInterval(value, Find(RangeTable, kind).value.good)
    ensures s == "Needs Attention" <==> Find(RangeTable, kind).Some? && !InInterval(value, Find(RangeTable, kind).value.good) &&
                                        !InInterval(value, Find(RangeTable, kind).value.warning)
  {
    match Find(RangeTable, kind)
    case None => "Unknown"
    case Some(r) =>
      if InInterval(value, r.good) then "Optimal"
      else if InInterval(value, r.warning) then "Moderate"
      else "Needs Attention"
  }

  /** The five parameters the table knows. */
  const Parameters: set<string> := {"ph", "moisture", "nitrogen", "phosphorus", "potassium"}

  /** A reading is Optimal inside the good interval, bounds included,
      Moderate inside the warning interval but outside the good one, and
      Needs Attention otherwise (a missing reading included); a parameter
      the table does not know is Unknown. */
  lemma {:induction false} StatusBands(value: Option<real>, i: nat)
    requires i < |RangeTable|
    ensures var (kind, r) := RangeTable[i];
      (HealthStatus(value, kind) == "Optimal" <==> InInterval(value, r.good)) &&
      (HealthStatus(value, kind) == "Moderate" <==> InInterval(value, r.warning) && !InInterval(value, r.good)) &&
      (HealthStatus(value, kind) == "Needs Attention" <==> !InInterval(value, r.warning))
  {
    FindFirst(RangeTable, i);
    GoodInsideWarning(i);
  }

  /** Any name outside the table gives Unknown and the muted colour. */
  lemma UnknownParameter(value: Option<real>, kind: string)
    requires kind !in Parameters
    ensures HealthStatus(value, kind) == "Unknown" && HealthColor(value, kind) == "text-muted-foreground"
  {
  }

  /** The colour and the status always tell the same story. */
  lemma ColorMatchesStatus(value: Option<real>, kind: string)
    ensures HealthColor(value, kind) == "text-success" <==> HealthStatus(value, kind) == "Optimal"
    ensures HealthColor(value, kind) == "text-warning" <==> HealthStatus(value, kind) == "Moderate"
    ensures HealthColor(value, kind) == "text-error" <==> HealthStatus(value, kind) == "Needs Attention"
    ensures HealthColor(value, kind) == "text-muted-foreground" <==> HealthStatus(value, kind) == "Unknown"
  {
  }

  /** The North Field's pH of 6.8 is optimal and a pH of 5.5 only
      moderate. */
  lemma StatusExamples()
    ensures HealthStatus(Some(6.8), "ph") == "Optimal"
    ensures HealthStatus(Some(5.5), "ph") == "Moderate"
    ensures HealthStatus(Some(85.0), "moisture") == "Needs Attention"
    ensures HealthStatus(None, "ph") == "Needs Attention"
  {
    FindFirst(RangeTable, 0);
    FindFirst(RangeTable, 1);
  }

  /** A field as the card reads it. */
  datatype Field = Field(id: string, name: string, ph: Option<real>, moisture: Option<real>)

  /** `fields.find(f => f.id === id)`. */
  function FindField(fields: seq<Field>, id: string): (r: Option<Field>)
    ensures r.None? <==> forall i :: 0 <= i < |fields| ==> fields[i].id != id
    ensures r.Some? ==> exists i :: 0 <= i < |fields| && fields[i] == r.value && r.value.id == id &&
                                    forall j :: 0 <= j < i ==> fields[j].id != id
  {
    if fields == [] then None
    else if fields[0].id == id then Some(fields[0])
    else
      var r := FindField(fields[1..], id);
      assert forall i :: 1 <= i < |fields| ==> fields[i] == fields[1..][i - 1];
      r
  }

  /** The card's state. */
  class Card {
    const fields: seq<Field>
    var selectedField: Option<Field>

    /** The first render selects the first field, or none when there are
        no fields. */
    constructor (all: seq<Field>)
      ensures fields == all
      ensures all != [] ==> selectedField == Some(all[0])
      ensures all == [] ==> selectedField.None?
    {
      fields := all;
      selectedField := if all != [] then Some(all[0]) else None;
    }

    /** Choosing an id from the select picks the first field with that
        id. */
    method SelectField(id: string)
      modifies this
      ensures selectedField == FindField(fields, id)
      ensures selectedField.Some? ==> selectedField.value.id == id && selectedField.value in fields
    {
      selectedField := FindField(fields, id);
    }
  }
}
