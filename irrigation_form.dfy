/** Step 2 of the data-input wizard: irrigation method, water source,
    frequency and the optional irrigation schedule. */
module IrrigationForm {
  import opened Results
  import opened JsValue
  import opened FormDraft

  const MethodMessage := "Please select irrigation method"
  const SourceMessage := "Please select water source"
  const FrequencyMessage := "Please enter valid irrigation frequency"

  /** `validateForm`: method and source are required, the frequency must be
      truthy and not `<= 0`; nothing else on the step is checked. */
  function IrrigationErrors(d: Draft): (e: Errors)
    ensures "irrigationMethod" in e <==> !Truthy(Field(d, "irrigationMethod"))
    ensures "waterSource" in e <==> !Truthy(Field(d, "waterSource"))
    ensures "irrigationFrequency" in e <==> NotPositive(Field(d, "irrigationFrequency"))
    ensures e.Keys <= {"irrigationMethod", "waterSource", "irrigationFrequency"}
    ensures "irrigationMethod" in e ==> e["irrigationMethod"] == MethodMessage
    ensures "waterSource" in e ==> e["waterSource"] == SourceMessage
    ensures "irrigationFrequency" in e ==> e["irrigationFrequency"] == FrequencyMessage
  {
    var e0: Errors := map[];
    var e1 := if !Truthy(Field(d, "irrigationMethod")) then e0["irrigationMethod" := MethodMessage] else e0;
    var e2 := if !Truthy(Field(d, "waterSource")) then e1["waterSource" := SourceMessage] else e1;
    if NotPositive(Field(d, "irrigationFrequency")) then e2["irrigationFrequency" := FrequencyMessage] else e2
  }

  /** The schedule is never checked: any schedule at all leaves the step's
      errors as they were. */
  lemma ScheduleNotValidated(d: Draft, schedule: Value)
    ensures IrrigationErrors(d["irrigationSchedule" := schedule]) == IrrigationErrors(d)
  {
  }

  /** The entry `addIrrigationEntry` appends. */
  const BlankEntry: Value :=
    Obj(map["date" := Str(""), "duration" := Str(""), "waterAmount" := Str(""), "notes" := Str("")])

  /** `addIrrigationEntry`. */
  function AddIrrigationEntry(d: Draft): (u: Outcome<Draft>)
    ensures var s := Field(d, "irrigationSchedule");
      u.TypeError? <==> Truthy(s) && !s.Arr? && !s.Str?
    ensures u.Ok? ==> u.value.Keys == {"irrigationSchedule"}
    ensures u.Ok? ==> var l := u.value["irrigationSchedule"];
      l.Arr? && l.items != [] && l.items[|l.items| - 1] == BlankEntry
  {
    ListUpdate("irrigationSchedule", AppendEntry(Field(d, "irrigationSchedule"), BlankEntry))
  }

  /** `removeIrrigationEntry(i)`. */
  function RemoveIrrigationEntry(d: Draft, i: nat): (u: Outcome<Draft>)
    ensures var s := Field(d, "irrigationSchedule");
      u.Ok? <==> s.Arr? || s == Undefined || s == Null
    ensures u.Ok? ==> u.value.Keys == {"irrigationSchedule"}
    ensures var s := Field(d, "irrigationSchedule");
      u.Ok? && !s.Arr? ==> u.value["irrigationSchedule"] == Undefined
  {
    ListUpdate("irrigationSchedule", RemoveEntry(Field(d, "irrigationSchedule"), i))
  }

  /** `handleIrrigationScheduleChange(i, f, v)`. */
  function IrrigationScheduleChange(d: Draft, i: nat, f: string, v: Value): (u: Outcome<Draft>)
    ensures var s := Field(d, "irrigationSchedule");
      !(s.Arr? || s.Str? || !Truthy(s)) ==> u.TypeError?
    ensures u.Ok? ==> u.value.Keys == {"irrigationSchedule"}
    ensures var s := Field(d, "irrigationSchedule");
      (s.Arr? || !Truthy(s)) && u.Ok? && !EntryAt(Entries(s), i).Arr? ==>
      var l := u.value["irrigationSchedule"];
      l.Arr? && i < |l.items| && Prop(l.items[i], f) == v
  {
    ListUpdate("irrigationSchedule", EditEntry(Field(d, "irrigationSchedule"), i, f, v))
  }

  /** Adding to a schedule array forwards that array with one blank entry
      more at the end and the earlier entries as they were; an empty or
      missing schedule becomes a one-entry list. */
  lemma AddIrrigationEntryAppends(d: Draft)
    requires Field(d, "irrigationSchedule").Arr? || !Truthy(Field(d, "irrigationSchedule"))
    ensures var before := Entries(Field(d, "irrigationSchedule"));
      var u := AddIrrigationEntry(d);
      u.Ok? && u.value.Keys == {"irrigationSchedule"} &&
      u.value["irrigationSchedule"] == Arr(before + [BlankEntry])
  {
    var list := Field(d, "irrigationSchedule");
    var r := AppendEntry(list, BlankEntry);
    assert r.value.items == Entries(list) + [BlankEntry];
  }

  /** Removing position `i` of a schedule array forwards the array without
      that entry; an out-of-range position forwards it unchanged. */
  lemma RemoveIrrigationEntryDrops(d: Draft, i: nat)
    requires Field(d, "irrigationSchedule").Arr?
    ensures var items := Field(d, "irrigationSchedule").items;
      var u := RemoveIrrigationEntry(d, i);
      u.Ok? && u.value.Keys == {"irrigationSchedule"} &&
      u.value["irrigationSchedule"] == Arr(if i < |items| then items[..i] + items[i + 1..] else items)
  {
    var items := Field(d, "irrigationSchedule").items;
    var r := RemoveEntry(Field(d, "irrigationSchedule"), i);
    if i < |items| {
      assert r.value.items == items[..i] + items[i + 1..];
    }
  }

  /** Editing field `f` of an object entry sets that field and leaves every
      other entry, and every other field of the entry, as it was. */
  lemma IrrigationScheduleChangeSetsField(d: Draft, i: nat, f: string, v: Value)
    requires Field(d, "irrigationSchedule").Arr?
    requires i < |Field(d, "irrigationSchedule").items|
    requires Field(d, "irrigationSchedule").items[i].Obj?
    ensures var items := Field(d, "irrigationSchedule").items;
      var u := IrrigationScheduleChange(d, i, f, v);
      u.Ok? && u.value.Keys == {"irrigationSchedule"} &&
      u.value["irrigationSchedule"] == Arr(items[i := Obj(items[i].fields[f := v])])
  {
    var list := Field(d, "irrigationSchedule");
    var r := EditEntry(list, i, f, v);
    assert r.value.items == list.items[i := Obj(list.items[i].fields[f := v])];
  }

  /** Editing a position with no entry yet creates an object holding just
      that field, with holes before it. */
  lemma IrrigationScheduleChangeCreatesEntry(d: Draft, i: nat, f: string, v: Value)
    requires Field(d, "irrigationSchedule").Arr? || !Truthy(Field(d, "irrigationSchedule"))
    requires i >= |Entries(Field(d, "irrigationSchedule"))|
    ensures var items := Entries(Field(d, "irrigationSchedule"));
      var u := IrrigationScheduleChange(d, i, f, v);
      u.Ok? && u.value["irrigationSchedule"] ==
        Arr(items + seq(i - |items|, _ => Undefined) + [Obj(map[f := v])])
  {
    var list := Field(d, "irrigationSchedule");
    var items := Entries(list);
    var r := EditEntry(list, i, f, v);
    assert r.value.items == items + seq(i - |items|, _ => Undefined) + [Obj(map[f := v])];
  }
}
