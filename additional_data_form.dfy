/** Step 4 of the data-input wizard: optional soil, seed, pest and weather
    data. Only the seed rate is checked, and seed treatments are a list of
    tags kept by check boxes. */
module AdditionalDataForm {
  import opened Results
  import opened JsValue
  import opened JsString
  import opened Seqs
  import opened FormDraft

  const SeedRateMessage := "Please enter valid seed rate"

  /** `validateForm`: a seed rate is only checked when it is truthy, so a
      missing, zero or unparsable rate passes and only a negative one is
      rejected. */
  function AdditionalErrors(d: Draft): (e: Errors)
    ensures "seedRate" in e <==> Truthy(Field(d, "seedRate")) && LeqZero(Field(d, "seedRate"))
    ensures e.Keys <= {"seedRate"}
    ensures "seedRate" in e ==> e["seedRate"] == SeedRateMessage
  {
    if Truthy(Field(d, "seedRate")) && LeqZero(Field(d, "seedRate"))
    then map["seedRate" := SeedRateMessage]
    else map[]
  }

  /** What `parseFloat` hands the seed rate: the step blocks exactly on a
      negative number. */
  lemma SeedRateExamples(d: Draft, x: real)
    ensures NoErrors(AdditionalErrors(d["seedRate" := Num(x)])) <==> x >= 0.0
    ensures NoErrors(AdditionalErrors(d["seedRate" := NaN]))
    ensures NoErrors(AdditionalErrors(d["seedRate" := Str("")]))
    ensures NoErrors(AdditionalErrors(d - {"seedRate"}))
  {
    if x < 0.0 {
      assert "seedRate" in AdditionalErrors(d["seedRate" := Num(x)]);
    }
  }

  /** `handleArrayChange(f, tag, checked)`: checking appends the tag to
      `formData[f] || []`; unchecking keeps every element other than the
      tag, and throws when the current value has no `filter`. */
  function ArrayChange(d: Draft, f: string, tag: string, checked: bool): (u: Outcome<Draft>)
    ensures var cur := Field(d, f);
      checked && (cur.Arr? || !Truthy(cur)) ==>
      u == Ok(map[f := Arr(Entries(cur) + [Str(tag)])])
    ensures var cur := Field(d, f);
      !checked && (cur.Arr? || !Truthy(cur)) ==>
      u == Ok(map[f := Arr(RemoveAll(Entries(cur), Str(tag)))])
    ensures var cur := Field(d, f);
      !checked && Truthy(cur) && !cur.Arr? ==> u.TypeError?
  {
    var cur := Field(d, f);
    if checked then
      ListUpdate(f, AppendEntry(cur, Str(tag)))
    else
      var list := if Truthy(cur) then cur else Arr([]);
      if list.Arr? then Ok(map[f := Arr(RemoveAll(list.items, Str(tag)))])
      else TypeError
  }

  /** `formData?.[f]?.includes(tag) || false`: whether a box shows as
      checked; a list that is text is searched as text, and a value with no
      `includes` throws while rendering. */
  function IsChecked(d: Draft, f: string, tag: string): (r: Outcome<bool>)
    ensures Field(d, f).Arr? ==> r == Ok(Str(tag) in Field(d, f).items)
    ensures Field(d, f) == Undefined || Field(d, f) == Null ==> r == Ok(false)
    ensures r.TypeError? <==> !(Field(d, f).Arr? || Field(d, f).Str? || Field(d, f) == Undefined || Field(d, f) == Null)
  {
    match Field(d, f)
    case Arr(items) => Ok(Str(tag) in items)
    case Str(s) => Ok(Contains(s, tag))
    case Undefined => Ok(false)
    case Null => Ok(false)
    case _ => TypeError
  }

  /** A box shows the last click on it: after checking it reads checked,
      after unchecking it reads unchecked, whatever the list held before. */
  lemma CheckBoxReflectsClick(d: Draft, f: string, tag: string, checked: bool)
    requires Field(d, f).Arr? || !Truthy(Field(d, f))
    ensures var u := ArrayChange(d, f, tag, checked);
      u.Ok? && IsChecked(Merge(d, u.value), f, tag) == Ok(checked)
  {
    var cur := Field(d, f);
    var u := ArrayChange(d, f, tag, checked);
    var next := Merge(d, u.value);
    if checked {
      assert next[f].items[|Entries(cur)|] == Str(tag);
    }
  }

  /** Checking a box and then unchecking it leaves the list as unchecking
      alone would have: no copy of the tag survives and the other tags keep
      their order. */
  lemma CheckThenUncheck(d: Draft, f: string, tag: string)
    requires Field(d, f).Arr? || !Truthy(Field(d, f))
    ensures var u := ArrayChange(d, f, tag, true);
      u.Ok? && ArrayChange(Merge(d, u.value), f, tag, false) == ArrayChange(d, f, tag, false)
  {
    var cur := Field(d, f);
    AppendThenRemoveAll(Entries(cur), Str(tag));
  }
}
