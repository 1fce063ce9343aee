/** Step 1 of the data-input wizard: crop type, variety, sowing date,
    season and field area. */
module CropDetailsForm {
  import opened JsValue
  import opened FormDraft

  /** The fields this step checks, each with its message. */
  const CropTypeMessage := "Please select a crop type"
  const VarietyMessage := "Please select a variety"
  const SowingDateMessage := "Please enter sowing date"
  const SeasonMessage := "Please select growing season"
  const FieldAreaMessage := "Please enter valid field area"

  /** `validateForm`: the four choice fields are required, and the field
      area must be truthy and not `<= 0`. */
  function CropDetailsErrors(d: Draft): (e: Errors)
    ensures "cropType" in e <==> !Truthy(Field(d, "cropType"))
    ensures "variety" in e <==> !Truthy(Field(d, "variety"))
    ensures "sowingDate" in e <==> !Truthy(Field(d, "sowingDate"))
    ensures "season" in e <==> !Truthy(Field(d, "season"))
    ensures "fieldArea" in e <==> NotPositive(Field(d, "fieldArea"))
    ensures e.Keys <= {"cropType", "variety", "sowingDate", "season", "fieldArea"}
    ensures "cropType" in e ==> e["cropType"] == CropTypeMessage
    ensures "variety" in e ==> e["variety"] == VarietyMessage
    ensures "sowingDate" in e ==> e["sowingDate"] == SowingDateMessage
    ensures "season" in e ==> e["season"] == SeasonMessage
    ensures "fieldArea" in e ==> e["fieldArea"] == FieldAreaMessage
  {
    var e0: Errors := map[];
    var e1 := if !Truthy(Field(d, "cropType")) then e0["cropType" := CropTypeMessage] else e0;
    var e2 := if !Truthy(Field(d, "variety")) then e1["variety" := VarietyMessage] else e1;
    var e3 := if !Truthy(Field(d, "sowingDate")) then e2["sowingDate" := SowingDateMessage] else e2;
    var e4 := if !Truthy(Field(d, "season")) then e3["season" := SeasonMessage] else e3;
    if NotPositive(Field(d, "fieldArea")) then e4["fieldArea" := FieldAreaMessage] else e4
  }

  /** For the text a select or date input produces, "missing" means empty. */
  lemma ChoiceErrorIffEmpty(d: Draft, k: string, s: string)
    requires k in {"cropType", "variety", "sowingDate", "season"}
    requires Field(d, k) == Str(s)
    ensures k in CropDetailsErrors(d) <==> s == ""
  {
  }

  /** A field area of 0 is rejected and one of 3.5 acres is accepted. */
  lemma FieldAreaExamples(d: Draft)
    ensures "fieldArea" in CropDetailsErrors(d["fieldArea" := Num(0.0)])
    ensures "fieldArea" !in CropDetailsErrors(d["fieldArea" := Num(3.5)])
    ensures "fieldArea" in CropDetailsErrors(d["fieldArea" := NaN])
    ensures "fieldArea" in CropDetailsErrors(d["fieldArea" := Num(-2.0)])
  {
  }

  /** The variety options of the crops that have any. */
  function VarietyTable(): (t: map<string, seq<string>>)
    ensures t.Keys == {"rice", "wheat", "cotton"}
    ensures forall c :: c in t ==> t[c] != []
  {
    map[
      "rice" := ["basmati", "ir64", "pusa44"],
      "wheat" := ["hd2967", "pusa3085", "raj4037"],
      "cotton" := ["bt", "desi"]
    ]
  }

  /** `currentVarieties`: the options for the chosen crop, or none when no
      crop is chosen or the crop has no entry. */
  function CurrentVarieties(d: Draft): (r: seq<string>)
    ensures r != [] <==> Field(d, "cropType").Str? && Field(d, "cropType").s in {"rice", "wheat", "cotton"}
    ensures r != [] ==> r == VarietyTable()[Field(d, "cropType").s]
  {
    var crop := Field(d, "cropType");
    if Truthy(crop) && crop.Str? && crop.s in VarietyTable() then VarietyTable()[crop.s] else []
  }

  /** Choosing a crop with `handleInputChange` forwards only that field, so
      the variety chosen earlier and its message are both kept. */
  lemma ChangingCropKeepsVariety(d: Draft, errors: Errors, crop: Value)
    ensures Field(Merge(d, map["cropType" := crop]), "variety") == Field(d, "variety")
    ensures "variety" in errors ==> ClearError(errors, "cropType")["variety"] == errors["variety"]
  {
  }
}
