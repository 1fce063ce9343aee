/** Step 5 of the data-input wizard: a read-only summary of the draft and
    the simulated submission. */
module ReviewSubmitForm {
  import opened Results
  import opened JsValue
  import opened FormDraft
  import CropDetailsForm
  import IrrigationForm
  import FertilizerForm
  import AdditionalDataForm

  /** What one summary cell shows. The date and number formatting of the
      browser's locale is not modelled: a cell records the value and how it
      is presented. */
  datatype Cell =
    | Shown(v: Value)                    // the value itself
    | WithUnit(v: Value, unit: string)   // `${v} ${unit}`
    | Every(v: Value, unit: string)      // `Every ${v} ${unit}`
    | LocaleDate(v: Value)               // `new Date(v).toLocaleDateString('en-IN', …)`
    | Currency(v: Value)                 // rupee sign and `v.toLocaleString('en-IN')`
    | NotSpecified                       // 'Not specified'

  /** `v || 'Not specified'`. */
  function TextCell(v: Value): (c: Cell)
    ensures c == NotSpecified <==> !Truthy(v)
    ensures c != NotSpecified ==> c == Shown(v)
  {
    if Truthy(v) then Shown(v) else NotSpecified
  }

  /** `v ? `${v} unit` : 'Not specified'`. */
  function UnitCell(v: Value, unit: string): (c: Cell)
    ensures c == NotSpecified <==> !Truthy(v)
    ensures c != NotSpecified ==> c == WithUnit(v, unit)
  {
    if Truthy(v) then WithUnit(v, unit) else NotSpecified
  }

  /** `formatDate`. */
  function FormatDate(v: Value): (c: Cell)
    ensures c == NotSpecified <==> !Truthy(v)
    ensures c != NotSpecified ==> c == LocaleDate(v)
  {
    if !Truthy(v) then NotSpecified else LocaleDate(v)
  }

  /** `formatCurrency`: a cost of 0 is "not specified", like a missing one. */
  function FormatCurrency(v: Value): (c: Cell)
    ensures c == NotSpecified <==> !Truthy(v)
    ensures c != NotSpecified ==> c == Currency(v)
  {
    if !Truthy(v) then NotSpecified else Currency(v)
  }

  /** `v?.length`, for the values that have one. */
  function Length(v: Value): (r: Option<nat>)
    ensures r.Some? <==> v.Arr? || v.Str?
    ensures v.Arr? ==> r == Some(|v.items|)
    ensures v.Str? ==> r == Some(|v.s|)
  {
    match v
    case Arr(items) => Some(|items|)
    case Str(s) => Some(|s|)
    case _ => None
  }

  /** What React renders for a falsy child: `0` and `NaN` are printed as
      text, `undefined`, `null`, `false` and `""` render nothing. */
  predicate PrintedWhenFalsy(v: Value)
  {
    v == NaN || (v.Num? && v.x == 0.0)
  }

  /** The result of a JSX `guard && <element>`: the element when the guard
      is truthy; otherwise the guard itself, which shows up as stray text
      when it is `0` or `NaN` and as nothing when it is any other falsy
      value. */
  datatype Guarded<T> =
    | Hidden
    | Stray(text: Value)
    | Present(content: T)

  /** `guard && content`. */
  function Guard<T>(guard: Value, content: T): (r: Guarded<T>)
    ensures r.Present? <==> Truthy(guard)
    ensures r.Stray? <==> PrintedWhenFalsy(guard)
    ensures r.Present? ==> r.content == content
    ensures r.Stray? ==> r.text == guard
  {
    if Truthy(guard) then Present(content)
    else if PrintedWhenFalsy(guard) then Stray(guard)
    else Hidden
  }

  /** `v && <…>{v}</…>`: a truthy value is rendered, `0` and `NaN` leak
      through as text, and other falsy values render nothing. */
  function When(v: Value): (r: Guarded<Value>)
    ensures r.Present? <==> Truthy(v)
    ensures r.Stray? <==> v == NaN || (v.Num? && v.x == 0.0)
    ensures r.Present? ==> r.content == v
    ensures r.Stray? ==> r.text == v
  {
    Guard(v, v)
  }

  /** `v && v?.length > 0 && <…>{v?.length}</…>`: the count shown for a
      list. A falsy `v` is the value of the whole expression (so `0` or
      `NaN` is printed); a truthy one without a positive length gives
      `false`, which renders nothing. */
  function ShownCount(v: Value): (r: Guarded<nat>)
    ensures r.Present? <==> Length(v).Some? && Length(v).value > 0
    ensures r.Present? ==> r.content == Length(v).value
    ensures r.Stray? <==> PrintedWhenFalsy(v)
    ensures r.Stray? ==> r.text == v
  {
    if !Truthy(v) then Guard(v, 0)
    else match Length(v)
      case Some(n) => if n > 0 then Present(n) else Hidden
      case None => Hidden
  }

  datatype CropSummary = CropSummary(
    cropType: Cell, variety: Cell, sowingDate: Cell, fieldArea: Cell,
    season: Cell, expectedHarvest: Cell, notes: Guarded<Value>)

  datatype IrrigationSummary = IrrigationSummary(
    irrigationMethod: Cell, waterSource: Cell, frequency: Cell, waterAmount: Cell,
    scheduleCount: Guarded<nat>)

  datatype FertilizerRow = FertilizerRow(
    date: Cell, fertilizerType: Cell, quantity: Cell, cost: Guarded<Cell>, photoCount: Guarded<nat>)

  datatype AdditionalSummary = AdditionalSummary(
    soilPreparation: Guarded<Value>, seedRate: Guarded<Cell>,
    pestManagement: Guarded<Value>, weatherCondition: Guarded<Value>)

  datatype Summary = Summary(
    crop: CropSummary,
    irrigation: IrrigationSummary,
    fertilizer: Guarded<seq<FertilizerRow>>,
    additional: Guarded<AdditionalSummary>,
    completeness: nat)

  /** The crop-details block: each cell is "Not specified" exactly when its
      field is falsy, and the notes paragraph follows `cropNotes && …`. */
  function CropBlock(d: Draft): (c: CropSummary)
    ensures c.cropType == NotSpecified <==> !Truthy(Field(d, "cropType"))
    ensures c.variety == NotSpecified <==> !Truthy(Field(d, "variety"))
    ensures c.sowingDate == NotSpecified <==> !Truthy(Field(d, "sowingDate"))
    ensures c.fieldArea == NotSpecified <==> !Truthy(Field(d, "fieldArea"))
    ensures c.season == NotSpecified <==> !Truthy(Field(d, "season"))
    ensures c.expectedHarvest == NotSpecified <==> !Truthy(Field(d, "expectedHarvest"))
    ensures c.fieldArea != NotSpecified ==> c.fieldArea == WithUnit(Field(d, "fieldArea"), "acres")
    ensures c.notes.Present? <==> Truthy(Field(d, "cropNotes"))
    ensures c.notes.Stray? <==> PrintedWhenFalsy(Field(d, "cropNotes"))
  {
    CropSummary(
      TextCell(Field(d, "cropType")), TextCell(Field(d, "variety")),
      FormatDate(Field(d, "sowingDate")), UnitCell(Field(d, "fieldArea"), "acres"),
      TextCell(Field(d, "season")), FormatDate(Field(d, "expectedHarvest")),
      When(Field(d, "cropNotes")))
  }

  /** The irrigation block: the frequency reads "Every n days", and the
      schedule line shows the number of entries of a non-empty list. */
  function IrrigationBlock(d: Draft): (b: IrrigationSummary)
    ensures b.irrigationMethod == NotSpecified <==> !Truthy(Field(d, "irrigationMethod"))
    ensures b.waterSource == NotSpecified <==> !Truthy(Field(d, "waterSource"))
    ensures b.frequency == NotSpecified <==> !Truthy(Field(d, "irrigationFrequency"))
    ensures b.frequency != NotSpecified ==> b.frequency == Every(Field(d, "irrigationFrequency"), "days")
    ensures b.waterAmount == NotSpecified <==> !Truthy(Field(d, "waterAmount"))
    ensures var s := Field(d, "irrigationSchedule");
      b.scheduleCount.Present? <==> (s.Arr? && s.items != []) || (s.Str? && s.s != "")
    ensures var s := Field(d, "irrigationSchedule");
      s.Arr? && s.items != [] ==> b.scheduleCount == Present(|s.items|)
  {
    IrrigationSummary(
      TextCell(Field(d, "irrigationMethod")), TextCell(Field(d, "waterSource")),
      if Truthy(Field(d, "irrigationFrequency")) then Every(Field(d, "irrigationFrequency"), "days")
      else NotSpecified,
      UnitCell(Field(d, "waterAmount"), "L/acre"),
      ShownCount(Field(d, "irrigationSchedule")))
  }

  /** One card of the fertilizer block. The cost line follows
      `app?.cost && …`, so a cost of 0 or NaN (a cleared input) is printed
      as bare text instead of the line. */
  function Row(app: Value): (r: FertilizerRow)
    ensures r.date == NotSpecified <==> !Truthy(Prop(app, "date"))
    ensures r.fertilizerType == NotSpecified <==> !Truthy(Prop(app, "type"))
    ensures r.quantity == NotSpecified <==> !Truthy(Prop(app, "quantity"))
    ensures r.cost.Present? <==> Truthy(Prop(app, "cost"))
    ensures r.cost.Present? ==> r.cost.content == Currency(Prop(app, "cost"))
    ensures r.cost.Stray? <==> PrintedWhenFalsy(Prop(app, "cost"))
    ensures r.cost.Stray? ==> r.cost.text == Prop(app, "cost")
    ensures r.photoCount.Present? <==> (Prop(app, "photos").Arr? && Prop(app, "photos").items != []) ||
                                       (Prop(app, "photos").Str? && Prop(app, "photos").s != "")
    ensures r.photoCount.Stray? <==> PrintedWhenFalsy(Prop(app, "photos"))
  {
    FertilizerRow(
      FormatDate(Prop(app, "date")), TextCell(Prop(app, "type")),
      UnitCell(Prop(app, "quantity"), "kg/acre"),
      Guard(Prop(app, "cost"), FormatCurrency(Prop(app, "cost"))),
      ShownCount(Prop(app, "photos")))
  }

  /** The fertilizer block: one card per application of a non-empty list,
      in order; a non-empty text has a `length` but no `map`, so rendering
      throws; a list field of 0 or NaN is printed as text. */
  function FertilizerBlock(d: Draft): (r: Outcome<Guarded<seq<FertilizerRow>>>)
    ensures var apps := Field(d, "fertilizerApplications");
      r.TypeError? <==> apps.Str? && apps.s != ""
    ensures var apps := Field(d, "fertilizerApplications");
      r.Ok? && r.value.Present? <==> apps.Arr? && apps.items != []
    ensures var apps := Field(d, "fertilizerApplications");
      r.Ok? && r.value.Present? ==>
      |r.value.content| == |apps.items| &&
      forall i :: 0 <= i < |apps.items| ==> r.value.content[i] == Row(apps.items[i])
    ensures var apps := Field(d, "fertilizerApplications");
      r == Ok(Stray(apps)) <==> PrintedWhenFalsy(apps)
  {
    var apps := Field(d, "fertilizerApplications");
    match ShownCount(apps)
    case Hidden => Ok(Hidden)
    case Stray(v) => Ok(Stray(v))
    case Present(_) =>
      if apps.Arr? then Ok(Present(seq(|apps.items|, i requires 0 <= i < |apps.items| => Row(apps.items[i]))))
      else TypeError
  }

  /** `a || b || c || w`: the first truthy operand, or the last one. */
  function AnyOf(a: Value, b: Value, c: Value, w: Value): (r: Value)
    ensures Truthy(r) <==> Truthy(a) || Truthy(b) || Truthy(c) || Truthy(w)
    ensures !Truthy(r) ==> r == w
  {
    if Truthy(a) then a else if Truthy(b) then b else if Truthy(c) then c else w
  }

  /** The additional-information block, shown when any of its four fields
      is truthy, each of them listed under `field && …`. When none is
      truthy the guard's value is the weather condition, printed when it
      is 0 or NaN. */
  function AdditionalBlock(d: Draft): (r: Guarded<AdditionalSummary>)
    ensures r.Present? <==> Truthy(Field(d, "soilPreparation")) || Truthy(Field(d, "seedRate")) ||
                            Truthy(Field(d, "pestManagement")) || Truthy(Field(d, "weatherCondition"))
    ensures r.Present? ==> r.content.soilPreparation.Present? || r.content.seedRate.Present? ||
                           r.content.pestManagement.Present? || r.content.weatherCondition.Present?
    ensures r.Stray? <==> !r.Present? && PrintedWhenFalsy(Field(d, "weatherCondition"))
    ensures r.Stray? ==> r.text == Field(d, "weatherCondition")
    ensures r.Present? ==> (r.content.seedRate.Present? <==> Truthy(Field(d, "seedRate")))
    ensures r.Present? && r.content.seedRate.Present? ==>
      r.content.seedRate.content == WithUnit(Field(d, "seedRate"), "kg/acre")
    ensures r.Present? ==> (r.content.seedRate.Stray? <==> PrintedWhenFalsy(Field(d, "seedRate")))
    ensures r.Present? && r.content.seedRate.Stray? ==> r.content.seedRate.text == Field(d, "seedRate")
  {
    Guard(AnyOf(Field(d, "soilPreparation"), Field(d, "seedRate"),
                Field(d, "pestManagement"), Field(d, "weatherCondition")),
          AdditionalSummary(
            When(Field(d, "soilPreparation")),
            Guard(Field(d, "seedRate"), WithUnit(Field(d, "seedRate"), "kg/acre")),
            When(Field(d, "pestManagement")), When(Field(d, "weatherCondition"))))
  }

  /** The completeness score is a fixed 85 per cent, whatever the draft. */
  const Completeness: nat := 85

  /** The whole summary, or the TypeError rendering throws. */
  function SummaryOf(d: Draft): (r: Outcome<Summary>)
    ensures r.Ok? <==> FertilizerBlock(d).Ok?
    ensures r.Ok? ==> r.value.completeness == 85
  {
    match FertilizerBlock(d)
    case TypeError => TypeError
    case Ok(f) => Ok(Summary(CropBlock(d), IrrigationBlock(d), f, AdditionalBlock(d), Completeness))
  }

  /** A draft that passed the crop-details step shows every checked crop
      field as specified. */
  lemma ValidCropDetailsAllSpecified(d: Draft)
    requires NoErrors(CropDetailsForm.CropDetailsErrors(d))
    ensures var c := CropBlock(d);
      c.cropType != NotSpecified && c.variety != NotSpecified && c.sowingDate != NotSpecified &&
      c.fieldArea != NotSpecified && c.season != NotSpecified
  {
    var e := CropDetailsForm.CropDetailsErrors(d);
    assert "cropType" !in e && "variety" !in e && "sowingDate" !in e && "season" !in e && "fieldArea" !in e;
  }

  /** A draft that passed the irrigation step shows its method, source and
      frequency as specified. */
  lemma ValidIrrigationAllSpecified(d: Draft)
    requires NoErrors(IrrigationForm.IrrigationErrors(d))
    ensures var b := IrrigationBlock(d);
      b.irrigationMethod != NotSpecified && b.waterSource != NotSpecified && b.frequency != NotSpecified
  {
    var e := IrrigationForm.IrrigationErrors(d);
    assert "irrigationMethod" !in e && "waterSource" !in e && "irrigationFrequency" !in e;
  }

  /** The additional step lets a seed rate of 0 or NaN (a cleared input)
      through, and the review then prints that value as bare text inside
      the block instead of a "Seed Rate" line. */
  lemma AcceptedSeedRateMayPrintStray(d: Draft)
    requires PrintedWhenFalsy(Field(d, "seedRate"))
    ensures NoErrors(AdditionalDataForm.AdditionalErrors(d))
    ensures AdditionalBlock(d).Present? ==>
      AdditionalBlock(d).content.seedRate == Stray(Field(d, "seedRate"))
  {
  }

  /** A list that passed the fertilizer step shows a type and a quantity on
      every card that shows a date. */
  lemma ValidApplicationsSpecified(apps: seq<Value>, i: nat)
    requires NoErrors(FertilizerForm.ApplicationErrors(apps))
    requires i < |apps|
    requires Row(apps[i]).date != NotSpecified
    ensures Row(apps[i]).fertilizerType != NotSpecified && Row(apps[i]).quantity != NotSpecified
  {
    FertilizerForm.ApplicationErrorsAt(apps, i);
  }

  /** Where the simulated submission is: the two timers of `handleSubmit`
      that have not fired yet, each with the draft it was started with. */
  class ReviewSubmitState {
    var isSubmitting: bool
    var submitSuccess: bool
    /** Submissions waiting for the two-second simulated request. */
    var waiting: seq<Draft>
    /** Submissions waiting for the 1.5-second delay before `onSubmit`. */
    var delivering: seq<Draft>

    /** The submit button shows a spinner only while a request is waiting,
        and nothing is delivered before the success screen is up. */
    predicate Valid()
      reads this
    {
      (isSubmitting ==> waiting != []) && (!submitSuccess ==> delivering == [])
    }

    /** The state on mounting the step. */
    constructor ()
      ensures Valid()
      ensures !isSubmitting && !submitSuccess && waiting == [] && delivering == []
    {
      isSubmitting := false;
      submitSuccess := false;
      waiting := [];
      delivering := [];
    }

    /** The success screen replaces the summary. */
    predicate ShowsSuccess()
      reads this
    {
      submitSuccess
    }

    /** Clicking "Submit Data": the spinner shows and a simulated request
        starts with the draft on screen. */
    method Submit(formData: Draft)
      requires Valid()
      requires !submitSuccess
      modifies this
      ensures Valid()
      ensures isSubmitting && submitSuccess == old(submitSuccess)
      ensures waiting == old(waiting) + [formData] && delivering == old(delivering)
    {
      isSubmitting := true;
      waiting := waiting + [formData];
    }

    /** The oldest simulated request ends: the spinner goes, the success
        screen shows and the 1.5-second delay starts. */
    method RequestDone()
      requires Valid()
      requires waiting != []
      modifies this
      ensures Valid()
      ensures !isSubmitting && submitSuccess
      ensures waiting == old(waiting)[1..] && delivering == old(delivering) + [old(waiting)[0]]
    {
      delivering := delivering + [waiting[0]];
      waiting := waiting[1..];
      isSubmitting := false;
      submitSuccess := true;
    }

    /** The oldest delay ends: `onSubmit` receives the draft captured when
        that submission started, not the one on screen now. */
    method Deliver() returns (d: Draft)
      requires Valid()
      requires delivering != []
      modifies this
      ensures Valid()
      ensures d == old(delivering)[0]
      ensures delivering == old(delivering)[1..]
      ensures waiting == old(waiting) && isSubmitting == old(isSubmitting) && submitSuccess
    {
      d := delivering[0];
      delivering := delivering[1..];
    }
  }
}
