/** The data-input wizard page: the draft it keeps for the five steps, the
    copy it saves in the browser's local storage, and the step it shows. */
module DataInputForms {
  import opened Results
  import opened JsValue
  import opened FormDraft
  import opened FormProgress
  import CropDetailsForm
  import IrrigationForm
  import FertilizerForm
  import AdditionalDataForm

  /** The local-storage key the draft is saved under. */
  const StorageKey := "kisanai-form-data"

  /** What the storage key holds: the text `JSON.stringify` wrote, kept as
      the record it parses back to, or text that does not parse. */
  datatype Stored = Serialized(json: Draft) | Unparseable(text: string)

  /** `JSON.stringify(formData)`. */
  function Serialize(d: Draft): (s: Stored)
    ensures s.Serialized? && s.json == NormalizeFields(d)
  {
    Serialized(NormalizeFields(d))
  }

  /** The draft the page starts from. */
  const InitialDraft: Draft := map[
    "cropType" := Str(""), "variety" := Str(""), "sowingDate" := Str(""), "season" := Str(""),
    "fieldArea" := Str(""), "expectedHarvest" := Str(""), "cropNotes" := Str(""),
    "irrigationMethod" := Str(""), "waterSource" := Str(""), "irrigationFrequency" := Str(""),
    "waterAmount" := Str(""), "irrigationDuration" := Str(""), "isAutomated" := Bool(false),
    "hasMoistureMonitoring" := Bool(false), "irrigationSchedule" := Arr([]),
    "fertilizerApplications" := Arr([]),
    "soilPreparation" := Str(""), "preparationCost" := Str(""), "preparationDate" := Str(""),
    "seedRate" := Str(""), "seedCost" := Str(""), "germinationRate" := Str(""),
    "seedTreatments" := Arr([]), "pestManagement" := Str(""), "pesticideApplications" := Str(""),
    "pestControlCost" := Str(""), "weatherCondition" := Str(""), "totalRainfall" := Str(""),
    "extremeWeatherDays" := Str(""), "challenges" := Str(""), "successFactors" := Str(""),
    "futurePlans" := Str("")]

  /** Every value of the starting draft is text, a boolean or an empty
      list, so saving it loses nothing. */
  lemma InitialDraftSurvivesSave()
    ensures NormalizeFields(InitialDraft) == InitialDraft
  {
    assert forall k :: k in InitialDraft ==>
      InitialDraft[k] == Str("") || InitialDraft[k] == Bool(false) || InitialDraft[k] == Arr([]);
    PlainDraftSurvivesSave(InitialDraft);
  }

  /** A draft whose values are all text, booleans or empty lists is its own
      JSON form. */
  lemma PlainDraftSurvivesSave(d: Draft)
    requires forall k :: k in d ==> d[k].Str? || d[k].Bool? || d[k] == Arr([])
    ensures NormalizeFields(d) == d
  {
    var n := NormalizeFields(d);
    assert n.Keys == d.Keys;
    forall k | k in d
      ensures n[k] == d[k]
    {
      if d[k] == Arr([]) {
        assert Normalize(d[k]).items == [];
      }
    }
  }

  /** The five steps, in order. */
  const Steps: seq<Step> := [
    Step(1, "Crop Details", "Basic crop information", "Sprout"),
    Step(2, "Irrigation", "Water management data", "Droplets"),
    Step(3, "Fertilizer", "Fertilizer applications", "Beaker"),
    Step(4, "Additional", "Extra farm data", "FileText"),
    Step(5, "Review", "Review and submit", "Eye")]

  /** Step `n` sits at position `n - 1`, so the progress panel's info box
      always describes the step on screen. */
  lemma StepsNumbered(current: int)
    requires 1 <= current <= |Steps|
    ensures |Steps| == 5
    ensures CurrentStepInfo(Steps, current).Some? && CurrentStepInfo(Steps, current).value.id == current
  {
  }

  /** The parent's `handleNext`: forward while there is a next step. */
  function NextStep(current: int): (r: int)
    ensures 1 <= current <= |Steps| ==> 1 <= r <= |Steps|
    ensures current < |Steps| ==> r == current + 1
    ensures current >= |Steps| ==> r == current
  {
    if current < |Steps| then current + 1 else current
  }

  /** The parent's `handlePrevious`: back while there is a previous step. */
  function PreviousStep(current: int): (r: int)
    ensures 1 <= current <= |Steps| ==> 1 <= r <= |Steps|
    ensures current > 1 ==> r == current - 1
    ensures current <= 1 ==> r == current
  {
    if current > 1 then current - 1 else current
  }

  /** Which form a step shows and which callbacks it is handed. */
  datatype StepForm = CropDetails | Irrigation | Fertilizer | Additional | Review

  datatype Wiring = Wiring(form: StepForm, onUpdate: bool, onNext: bool, onPrevious: bool, onSubmit: bool)

  /** `renderCurrentStep`: the first step has no way back, the last has
      no way forward and no edits but a submit, and a step number outside
      the list renders nothing. */
  function RenderCurrentStep(current: int): (r: Option<Wiring>)
    ensures r.Some? <==> 1 <= current <= |Steps|
    ensures r.Some? ==> (r.value.onPrevious <==> current > 1)
    ensures r.Some? ==> (r.value.onNext <==> current < |Steps|)
    ensures r.Some? ==> (r.value.onUpdate <==> current < |Steps|)
    ensures r.Some? ==> (r.value.onSubmit <==> current == |Steps|)
  {
    if current == 1 then Some(Wiring(CropDetails, true, true, false, false))
    else if current == 2 then Some(Wiring(Irrigation, true, true, true, false))
    else if current == 3 then Some(Wiring(Fertilizer, true, true, true, false))
    else if current == 4 then Some(Wiring(Additional, true, true, true, false))
    else if current == 5 then Some(Wiring(Review, false, false, true, true))
    else None
  }

  /** What the `validateForm` of the step on screen reports. */
  function StepErrors(current: int, d: Draft): (r: Outcome<Errors>)
    ensures r.TypeError? <==> current == 3 && Field(d, "fertilizerApplications").Str? &&
                              Field(d, "fertilizerApplications").s != ""
    ensures current !in {1, 2, 3, 4} ==> r == Ok(map[])
  {
    if current == 1 then Ok(CropDetailsForm.CropDetailsErrors(d))
    else if current == 2 then Ok(IrrigationForm.IrrigationErrors(d))
    else if current == 3 then FertilizerForm.FertilizerErrors(d)
    else if current == 4 then Ok(AdditionalDataForm.AdditionalErrors(d))
    else Ok(map[])
  }

  /** `k` is a key the form of step `current` can set. */
  ghost predicate StepKey(current: int, k: string)
  {
    if current == 1 then k in {"cropType", "variety", "sowingDate", "season", "fieldArea"}
    else if current == 2 then k in {"irrigationMethod", "waterSource", "irrigationFrequency"}
    else if current == 3 then exists i :: 0 <= i && (k == FertilizerForm.TypeKey(i) || k == FertilizerForm.QuantityKey(i))
    else if current == 4 then k == "seedRate"
    else false
  }

  /** Every step's validation sets only keys of its own fields. */
  lemma StepErrorsKeys(current: int, d: Draft)
    ensures StepErrors(current, d).Ok? ==> forall k :: k in StepErrors(current, d).value ==> StepKey(current, k)
  {
    if current == 3 {
      var apps := Field(d, "fertilizerApplications");
      if apps.Arr? {
        FertilizerForm.ApplicationErrorsKeys(apps.items);
        forall k | k in FertilizerForm.ApplicationErrors(apps.items)
          ensures StepKey(3, k)
        {
          var i :| 0 <= i < |apps.items| &&
            (k == FertilizerForm.TypeKey(i) || k == FertilizerForm.QuantityKey(i));
        }
      }
    }
  }

  /** Reading a field of the saved form is the saved form of the field. */
  lemma FieldOfNormalized(d: Draft, k: string)
    ensures Field(NormalizeFields(d), k) == NormalizeProp(Field(d, k))
  {
  }

  /** The JSON form of a list of applications. */
  function NormalizeItems(apps: seq<Value>): (r: seq<Value>)
    ensures |r| == |apps| && forall i :: 0 <= i < |apps| ==> r[i] == Normalize(apps[i])
  {
    Normalize(Arr(apps)).items
  }

  /** Saving and reloading the application list changes none of its
      messages. */
  lemma {:induction false} ApplicationErrorsNormalize(apps: seq<Value>)
    ensures FertilizerForm.ApplicationErrors(NormalizeItems(apps)) == FertilizerForm.ApplicationErrors(apps)
    decreases |apps|
  {
    if apps != [] {
      var n := |apps| - 1;
      var norm := NormalizeItems(apps);
      assert norm[..n] == NormalizeItems(apps[..n]);
      ApplicationErrorsNormalize(apps[..n]);
      var app := apps[n];
      PropOfNormalize(app, "date");
      PropOfNormalize(app, "type");
      PropOfNormalize(app, "quantity");
      NormalizeKeepsTruthy(Prop(app, "date"));
      NormalizeKeepsTruthy(Prop(app, "type"));
      NormalizeKeepsNotPositive(Prop(app, "quantity"));
      assert FertilizerForm.MissingType(norm[n]) == FertilizerForm.MissingType(app);
      assert FertilizerForm.BadQuantity(norm[n]) == FertilizerForm.BadQuantity(app);
    }
  }

  /** A draft that is saved and loaded again passes or fails every step
      exactly as before, with the same messages. */
  lemma ValidationSurvivesReload(current: int, d: Draft)
    ensures StepErrors(current, NormalizeFields(d)) == StepErrors(current, d)
  {
    var n := NormalizeFields(d);
    forall k
      ensures Truthy(Field(n, k)) == Truthy(Field(d, k))
      ensures NotPositive(Field(n, k)) == NotPositive(Field(d, k))
    {
      FieldOfNormalized(d, k);
      NormalizeKeepsTruthy(Field(d, k));
      NormalizeKeepsNotPositive(Field(d, k));
    }
    if current == 1 {
      var a := CropDetailsForm.CropDetailsErrors(n);
      var b := CropDetailsForm.CropDetailsErrors(d);
      assert a.Keys == b.Keys;
    } else if current == 2 {
      var a := IrrigationForm.IrrigationErrors(n);
      var b := IrrigationForm.IrrigationErrors(d);
      assert a.Keys == b.Keys;
    } else if current == 3 {
      var apps := Field(d, "fertilizerApplications");
      FieldOfNormalized(d, "fertilizerApplications");
      if apps.Arr? {
        ApplicationErrorsNormalize(apps.items);
      }
    } else if current == 4 {
      FieldOfNormalized(d, "seedRate");
    }
  }

  /** What a mount finds in storage becomes the draft: a saved record as it
      parsed, anything else leaves the starting draft. */
  function Loaded(store: map<string, Stored>): (d: Draft)
    ensures StorageKey in store && store[StorageKey].Serialized? ==> d == store[StorageKey].json
    ensures !(StorageKey in store && store[StorageKey].Serialized?) ==> d == InitialDraft
  {
    if StorageKey in store && store[StorageKey].Serialized? then store[StorageKey].json
    else InitialDraft
  }

  /** What the page saves is what a reload shows: loading a saved draft
      and saving it again writes the same record, and the reloaded draft is
      validated as the original was. */
  lemma ReloadIsStable(d: Draft, current: int)
    ensures Serialize(Loaded(map[StorageKey := Serialize(d)])) == Serialize(d)
    ensures StepErrors(current, Loaded(map[StorageKey := Serialize(d)])) == StepErrors(current, d)
  {
    NormalizeIdempotent(Obj(d));
    ValidationSurvivesReload(current, d);
  }

  /** The wizard page while it is open. */
  class Wizard {
    var step: int
    var draft: Draft
    /** The browser's local storage; the page touches only `StorageKey`. */
    var store: map<string, Stored>
    /** The `errors` state of the step form on screen. */
    var errors: Errors
    /** The redirect to the dashboard after a submission is pending. */
    var redirecting: bool

    /** The step is one of the five; whenever the storage key is set it
        holds the current draft; the messages belong to the step on
        screen. */
    ghost predicate Valid()
      reads this
    {
      1 <= step <= |Steps| &&
      (StorageKey in store ==> store[StorageKey] == Serialize(draft)) &&
      forall k :: k in errors ==> StepKey(step, k)
    }

    /** Mounting: the load effect installs a saved draft that parses, then
        the auto-save effect writes the draft back. */
    constructor Mount(saved: map<string, Stored>)
      ensures Valid()
      ensures step == 1 && errors == map[] && !redirecting
      ensures draft == Loaded(saved)
      ensures store == saved[StorageKey := Serialize(draft)]
    {
      step := 1;
      draft := Loaded(saved);
      store := saved[StorageKey := Serialize(Loaded(saved))];
      errors := map[];
      redirecting := false;
    }

    /** `handleFormUpdate`, followed by the auto-save. */
    method FormUpdate(updates: Draft)
      requires Valid()
      modifies this
      ensures Valid()
      ensures draft == Merge(old(draft), updates)
      ensures store == old(store)[StorageKey := Serialize(draft)]
      ensures step == old(step) && errors == old(errors) && redirecting == old(redirecting)
    {
      draft := Merge(draft, updates);
      store := store[StorageKey := Serialize(draft)];
    }

    /** A step form's `handleInputChange(f, v)`: the field is forwarded and
        its message, if set, is blanked. */
    method InputChange(f: string, v: Value)
      requires Valid()
      requires RenderCurrentStep(step).value.onUpdate
      modifies this
      ensures Valid()
      ensures draft == Merge(old(draft), map[f := v])
      ensures errors == ClearError(old(errors), f)
      ensures store == old(store)[StorageKey := Serialize(draft)]
      ensures step == old(step) && redirecting == old(redirecting)
    {
      FormUpdate(map[f := v]);
      errors := ClearError(errors, f);
    }

    /** A list or check-box handler: its update is forwarded, or, when the
        handler threw, nothing changes. */
    method ListEdit(u: Outcome<Draft>)
      requires Valid()
      requires RenderCurrentStep(step).value.onUpdate
      modifies this
      ensures Valid()
      ensures u.TypeError? ==> draft == old(draft) && store == old(store)
      ensures u.Ok? ==> draft == Merge(old(draft), u.value) && store == old(store)[StorageKey := Serialize(draft)]
      ensures step == old(step) && errors == old(errors) && redirecting == old(redirecting)
    {
      if u.Ok? {
        FormUpdate(u.value);
      }
    }

    /** "Next" on steps 1 to 4: the step form validates; with no message
        the wizard moves on and the new step's form starts without
        messages; otherwise the messages show and the step stays. A
        validation that throws changes nothing. */
    method Advance()
      requires Valid()
      requires RenderCurrentStep(step).value.onNext
      modifies this
      ensures Valid()
      ensures var r := StepErrors(old(step), old(draft));
        (r.TypeError? ==> step == old(step) && errors == old(errors)) &&
        (r.Ok? && NoErrors(r.value) ==> step == old(step) + 1 && errors == map[]) &&
        (r.Ok? && !NoErrors(r.value) ==> step == old(step) && errors == r.value)
      ensures draft == old(draft) && store == old(store) && redirecting == old(redirecting)
    {
      var r: Outcome<Errors>;
      if step == 3 {
        var apps := Field(draft, "fertilizerApplications");
        if apps.Arr? && apps.items != [] {
          var e := FertilizerForm.ValidateApplications(apps.items);
          r := Ok(e);
        } else if apps.Str? && apps.s != "" {
          r := TypeError;
        } else {
          r := Ok(map[]);
        }
      } else {
        r := StepErrors(step, draft);
      }
      assert r == StepErrors(step, draft);
      StepErrorsKeys(step, draft);
      if r.Ok? {
        if NoErrors(r.value) {
          step := NextStep(step);
          errors := map[];
        } else {
          errors := r.value;
        }
      }
    }

    /** "Previous" on steps 2 to 5: the step before shows, without
        messages. */
    method Back()
      requires Valid()
      requires RenderCurrentStep(step).value.onPrevious
      modifies this
      ensures Valid()
      ensures step == old(step) - 1 && errors == map[]
      ensures draft == old(draft) && store == old(store) && redirecting == old(redirecting)
    {
      step := PreviousStep(step);
      errors := map[];
    }

    /** `handleSubmit`, called by the review step with the draft it
        captured: the saved copy is removed and the redirect is scheduled;
        the draft itself is kept, so nothing is saved again. */
    method Submit(finalData: Draft)
      requires Valid()
      requires RenderCurrentStep(step).value.onSubmit
      modifies this
      ensures Valid()
      ensures store == old(store) - {StorageKey} && redirecting
      ensures step == old(step) && draft == old(draft) && errors == old(errors)
    {
      store := store - {StorageKey};
      redirecting := true;
    }

    /** "Clear Form", answered with `confirmed`: on confirmation the draft
        is reset, step 1 shows and the saved copy is removed, after which
        the auto-save writes the reset draft back. The crop-details form
        stays mounted, and keeps its messages, only when it was already on
        screen. */
    method Clear(confirmed: bool)
      requires Valid()
      modifies this
      ensures Valid()
      ensures !confirmed ==> step == old(step) && draft == old(draft) && store == old(store) && errors == old(errors)
      ensures confirmed ==> step == 1 && draft == InitialDraft
      ensures confirmed ==> store == old(store)[StorageKey := Serialize(InitialDraft)]
      ensures confirmed ==> errors == if old(step) == 1 then old(errors) else map[]
      ensures redirecting == old(redirecting)
    {
      if confirmed {
        draft := InitialDraft;
        if step != 1 {
          errors := map[];
        }
        step := 1;
        store := store - {StorageKey};
        store := store[StorageKey := Serialize(draft)];
      }
    }
  }

  /** A blank draft is stopped at the crop-details and irrigation steps,
      with every required field reported, and passes the fertilizer and
      additional-data steps. */
  lemma BlankDraftValidation()
    ensures StepErrors(1, InitialDraft).Ok? && |StepErrors(1, InitialDraft).value| == 5
    ensures StepErrors(2, InitialDraft).Ok? && |StepErrors(2, InitialDraft).value| == 3
    ensures StepErrors(3, InitialDraft) == Ok(map[])
    ensures StepErrors(4, InitialDraft) == Ok(map[])
  {
    var d := InitialDraft;
    assert d["cropType"] == Str("");
    assert d["variety"] == Str("");
    assert d["sowingDate"] == Str("");
    assert d["season"] == Str("");
    assert d["fieldArea"] == Str("");
    assert d["irrigationMethod"] == Str("");
    assert d["waterSource"] == Str("");
    assert d["irrigationFrequency"] == Str("");
    assert d["seedRate"] == Str("");
    assert d["fertilizerApplications"] == Arr([]);
    BlankStepErrors(d);
  }

  /** The step messages of any draft whose checked fields are all empty
      text and whose application list is empty. */
  lemma BlankStepErrors(d: Draft)
    requires Field(d, "cropType") == Str("") && Field(d, "variety") == Str("")
    requires Field(d, "sowingDate") == Str("") && Field(d, "season") == Str("") && Field(d, "fieldArea") == Str("")
    requires Field(d, "irrigationMethod") == Str("") && Field(d, "waterSource") == Str("")
    requires Field(d, "irrigationFrequency") == Str("")
    requires Field(d, "fertilizerApplications") == Arr([]) && Field(d, "seedRate") == Str("")
    ensures StepErrors(1, d).Ok? && |StepErrors(1, d).value| == 5
    ensures StepErrors(2, d).Ok? && |StepErrors(2, d).value| == 3
    ensures StepErrors(3, d) == Ok(map[])
    ensures StepErrors(4, d) == Ok(map[])
  {
    var e1 := CropDetailsForm.CropDetailsErrors(d);
    assert e1.Keys == {"cropType", "variety", "sowingDate", "season", "fieldArea"};
    var e2 := IrrigationForm.IrrigationErrors(d);
    assert e2.Keys == {"irrigationMethod", "waterSource", "irrigationFrequency"};
  }
}
