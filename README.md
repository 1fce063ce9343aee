# KisanAI front-end rules, modelled in Dafny

KisanAI is a React front end for farmers: a five-step data-entry wizard, sign-in and registration forms, a recommendations page, dashboard panels, a chat widget, the application header and a multilingual landing page. Almost all of it is markup and mock data. This project models the rules that sit underneath and proves what they promise.

- **Data-entry wizard.** The step counter stays within 1..5, and the flat draft record is shallow-merged and written through to local storage. A confirmed reset restores the default, and submit clears the stored draft. Four per-step validators map the draft to field messages, including the fertilizer `forEach` loop, written as a method and proved against its specification function. Also modelled: the list and photo edits of the irrigation and fertilizer steps, the seed-treatment tag toggles, the "Not specified" review summary with the submit timers, and the progress bar and markers.
- **Authentication.** Password strength and its bands, registration and sign-in validation with the e-mail and phone patterns, the demo-account check, and the simulated requests of both forms.
- **Recommendations and alerts.** The category union and case-insensitive search, the filter checkboxes and chips, the panels' category and type filters, the single-card expand toggle, minute-bucketing of alert ages, and the soil, confidence, humidity and trend classifiers.
- **Small state machines.** A chat log that only grows and answers every question once, header dropdowns that are never open together, and the `preferred-language` entry with the English fallback of the landing page.

JavaScript values are a datatype (`JsValue.Value`) with a `Truthy` predicate, so `!v || v <= 0`, `v || 'Not specified'` and `formData?.[k]` keep their JavaScript meaning. A `TypeError` is an explicit `Outcome`. Local storage is a map field of the page that owns it. A `setTimeout` becomes a queue of pending requests that a separate method completes.

Every state-changing component is a class. Its methods state the whole new state and the invariant they keep. The pure rules are functions with lemmas about them.

## Model

| member | source | states |
|---|---|---|
| FormDraft.Merge | kisanai/src/pages/data-input-forms/index.jsx:111-113 | `{ ...prev, ...updates }`: the keys of both, every key of the update with its new value, every other key unchanged |
| FormDraft.ClearError | kisanai/src/pages/data-input-forms/components/CropDetailsForm.jsx:46-51 | blanking a field's message keeps every key, blanks only that field, and changes nothing when the message is already blank |
| FormDraft.ListUpdate | kisanai/src/pages/data-input-forms/components/IrrigationForm.jsx:34-56 | a list handler forwards exactly one field, and nothing when building the list threw |
| FormDraft.AppendEntry | kisanai/src/pages/data-input-forms/components/IrrigationForm.jsx:43-51 | `[...(list || []), entry]`: an array or falsy list gains the entry at the end with earlier entries kept; a non-empty string spreads; anything else throws |
| FormDraft.RemoveEntry | kisanai/src/pages/data-input-forms/components/IrrigationForm.jsx:53-56 | `list?.filter((_, j) => j !== i)`: exactly position `i` goes, the rest keep their order, an index past the end changes nothing, a missing list gives `undefined`, a non-array throws |
| FormDraft.Padded | kisanai/src/pages/data-input-forms/components/IrrigationForm.jsx:34-41 | assigning past the end of a copied list leaves holes between the old end and the new position |
| FormDraft.EditEntry | kisanai/src/pages/data-input-forms/components/IrrigationForm.jsx:34-41 | `copy[i][f] = v`: field `f` of entry `i` becomes `v`, a missing entry is created as `{ f: v }`, every other entry and field is untouched, and writing into a primitive throws |
| JsValue.NotPositiveOnNumbers | kisanai/src/pages/data-input-forms/components/CropDetailsForm.jsx:60 | for what a number input produces, `!v || v <= 0` holds exactly when the value is not a positive number |
| JsValue.Prop | kisanai/src/pages/data-input-forms/components/FertilizerForm.jsx:79-86 | `v?.k` is a value only for an object that has the property |
| JsValue.Spread | kisanai/src/pages/data-input-forms/components/FertilizerForm.jsx:64 | `[...v]` works on arrays and strings and throws on anything else |
| JsValue.SpreadOrEmpty | kisanai/src/pages/data-input-forms/components/IrrigationForm.jsx:35 | `[...(v || [])]`: a falsy value spreads as nothing, an array as its elements |
| JsValue.SetProp | kisanai/src/pages/data-input-forms/components/FertilizerForm.jsx:41 | a property write succeeds on objects and arrays and throws on primitives |
| JsValue.NormalizeFields | kisanai/src/pages/data-input-forms/index.jsx:108 | the JSON form of a record drops `undefined` properties and converts the rest |
| JsValue.NormalizeKeepsTruthy | kisanai/src/pages/data-input-forms/index.jsx:94-109 | a JSON round trip keeps every value's truthiness |
| JsValue.NormalizeKeepsNotPositive | kisanai/src/pages/data-input-forms/index.jsx:94-109 | a JSON round trip keeps the outcome of `!v || v <= 0` |
| JsValue.PropOfNormalize | kisanai/src/pages/data-input-forms/index.jsx:94-109 | reading a property of the JSON form is the JSON form of the property |
| JsValue.NormalizeIdempotent | kisanai/src/pages/data-input-forms/index.jsx:94-109 | a second JSON round trip changes nothing |
| JsValue.NormalizeNeverUndefined | kisanai/src/pages/data-input-forms/index.jsx:94-109 | parsed JSON never holds `undefined` |
| DataInputForms.Serialize | kisanai/src/pages/data-input-forms/index.jsx:108 | what is saved is the JSON form of the draft |
| DataInputForms.InitialDraftSurvivesSave | kisanai/src/pages/data-input-forms/index.jsx:18-58 | the starting draft is its own JSON form |
| DataInputForms.PlainDraftSurvivesSave | kisanai/src/pages/data-input-forms/index.jsx:107-109 | a draft of text, booleans and empty lists survives a save unchanged |
| DataInputForms.StepsNumbered | kisanai/src/pages/data-input-forms/index.jsx:60-91 | there are five steps and step `n` is found at position `n - 1` |
| DataInputForms.NextStep | kisanai/src/pages/data-input-forms/index.jsx:115-120 | forward by exactly one below the last step, unchanged at it, always within 1..5 |
| DataInputForms.PreviousStep | kisanai/src/pages/data-input-forms/index.jsx:122-127 | back by exactly one above the first step, unchanged at it, always within 1..5 |
| DataInputForms.RenderCurrentStep | kisanai/src/pages/data-input-forms/index.jsx:142-190 | steps 1..5 each render one form and any other value nothing; only step 1 lacks `onPrevious`, only step 5 lacks `onUpdate`/`onNext` and has `onSubmit` |
| DataInputForms.StepErrorsKeys | kisanai/src/pages/data-input-forms/index.jsx:142-190 | each step's validation only sets keys of its own fields |
| DataInputForms.StepErrors | kisanai/src/pages/data-input-forms/index.jsx:142-190 | only the fertilizer step can throw, exactly for a non-empty text list; the review step and any other number have no messages |
| DataInputForms.FieldOfNormalized | kisanai/src/pages/data-input-forms/index.jsx:94-109 | reading a field of the saved draft is the saved form of that field |
| DataInputForms.NormalizeItems | kisanai/src/pages/data-input-forms/index.jsx:94-109 | the JSON form of an application list converts each entry in place |
| DataInputForms.ApplicationErrorsNormalize | kisanai/src/pages/data-input-forms/index.jsx:94-109 | saving and reloading the application list changes none of its messages |
| DataInputForms.ValidationSurvivesReload | kisanai/src/pages/data-input-forms/index.jsx:94-109 | a saved and reloaded draft passes or fails every step exactly as before |
| DataInputForms.Loaded | kisanai/src/pages/data-input-forms/index.jsx:94-104 | a present, parseable entry replaces the whole draft with no merge; a missing or unparseable one keeps the default |
| DataInputForms.ReloadIsStable | kisanai/src/pages/data-input-forms/index.jsx:94-109 | loading a saved draft and saving it again writes the same thing, and every step validates it the same way |
| DataInputForms.Wizard.Mount | kisanai/src/pages/data-input-forms/index.jsx:94-109 | after mounting, the draft is what was loaded, the step is 1 and the store holds the saved draft |
| DataInputForms.Wizard.FormUpdate | kisanai/src/pages/data-input-forms/index.jsx:111-113 | the draft is merged with the update and written to the store; nothing else changes |
| DataInputForms.Wizard.InputChange | kisanai/src/pages/data-input-forms/components/CropDetailsForm.jsx:46-51 | `handleInputChange(f, v)` forwards exactly `{f: v}`, blanks only `f`'s message, and saves |
| DataInputForms.Wizard.ListEdit | kisanai/src/pages/data-input-forms/components/IrrigationForm.jsx:34-56 | a list handler's update is merged and saved; one that threw changes nothing |
| DataInputForms.Wizard.Advance | kisanai/src/pages/data-input-forms/components/CropDetailsForm.jsx:61-70 | the step form validates and `onNext` runs only with no message: then the step rises by one and messages clear; otherwise the messages show and the step stays |
| DataInputForms.Wizard.Back | kisanai/src/pages/data-input-forms/index.jsx:122-127 | the step falls by one and the new form starts without messages; the draft is untouched |
| DataInputForms.Wizard.Submit | kisanai/src/pages/data-input-forms/index.jsx:129-140 | the stored key is removed and a redirect is pending; draft and step are unchanged |
| DataInputForms.Wizard.Clear | kisanai/src/pages/data-input-forms/index.jsx:192-231 | unconfirmed changes nothing; confirmed resets draft and step, removes the key, and the auto-save then writes the default back |
| DataInputForms.BlankDraftValidation | kisanai/src/pages/data-input-forms/index.jsx:18-58 | the starting draft is stopped at step 1 with five messages and at step 2 with three, and passes steps 3 and 4 |
| DataInputForms.BlankStepErrors | kisanai/src/pages/data-input-forms/components/CropDetailsForm.jsx:53-64 | any draft whose checked fields are empty gets the same verdicts as the starting draft |
| CropDetailsForm.CropDetailsErrors | kisanai/src/pages/data-input-forms/components/CropDetailsForm.jsx:53-64 | crop type, variety, sowing date and season each have a message exactly when falsy; field area exactly when falsy or <= 0; no other key; the fixed messages |
| CropDetailsForm.ChoiceErrorIffEmpty | kisanai/src/pages/data-input-forms/components/CropDetailsForm.jsx:56-59 | for text from a select or date input, a message appears exactly when it is empty |
| CropDetailsForm.FieldAreaExamples | kisanai/src/pages/data-input-forms/components/CropDetailsForm.jsx:60 | field areas of 0, NaN and -2 are rejected; 3.5 is accepted |
| CropDetailsForm.CurrentVarieties | kisanai/src/pages/data-input-forms/components/CropDetailsForm.jsx:23-38 | options are non-empty exactly for rice, wheat and cotton, and are that crop's list |
| CropDetailsForm.VarietyTable | kisanai/src/pages/data-input-forms/components/CropDetailsForm.jsx:23-38 | options exist for rice, wheat and cotton only, and none of the lists is empty |
| CropDetailsForm.ChangingCropKeepsVariety | kisanai/src/pages/data-input-forms/components/CropDetailsForm.jsx:46-51 | changing the crop keeps the chosen variety and its message |
| IrrigationForm.IrrigationErrors | kisanai/src/pages/data-input-forms/components/IrrigationForm.jsx:58-69 | method and source each have a message exactly when falsy; frequency exactly when falsy or <= 0; no other key |
| IrrigationForm.ScheduleNotValidated | kisanai/src/pages/data-input-forms/components/IrrigationForm.jsx:58-69 | the schedule never affects the step's messages |
| IrrigationForm.AddIrrigationEntry | kisanai/src/pages/data-input-forms/components/IrrigationForm.jsx:43-51 | only the schedule is forwarded, ending with the blank entry; it throws exactly for a truthy non-array, non-text schedule |
| IrrigationForm.RemoveIrrigationEntry | kisanai/src/pages/data-input-forms/components/IrrigationForm.jsx:53-56 | only the schedule is forwarded; it succeeds exactly for an array or a missing schedule, and a missing one forwards `undefined` |
| IrrigationForm.IrrigationScheduleChange | kisanai/src/pages/data-input-forms/components/IrrigationForm.jsx:34-41 | only the schedule is forwarded, with field `f` of entry `i` set to `v` unless that entry is an array; a truthy non-iterable schedule throws |
| IrrigationForm.AddIrrigationEntryAppends | kisanai/src/pages/data-input-forms/components/IrrigationForm.jsx:43-51 | adding forwards the schedule with one blank entry at the end and earlier entries unchanged |
| IrrigationForm.RemoveIrrigationEntryDrops | kisanai/src/pages/data-input-forms/components/IrrigationForm.jsx:53-56 | removing `i` forwards the schedule without entry `i`, the rest in order; an out-of-range `i` leaves it unchanged |
| IrrigationForm.IrrigationScheduleChangeSetsField | kisanai/src/pages/data-input-forms/components/IrrigationForm.jsx:34-41 | editing field `f` of entry `i` sets it and leaves every other entry and field untouched |
| IrrigationForm.IrrigationScheduleChangeCreatesEntry | kisanai/src/pages/data-input-forms/components/IrrigationForm.jsx:34-41 | editing a position with no entry creates one holding just that field |
| FertilizerForm.KeysDistinct | kisanai/src/pages/data-input-forms/components/FertilizerForm.jsx:82-85 | `type_i` and `quantity_j` never collide and each names one position |
| FertilizerForm.AddEntryErrors | kisanai/src/pages/data-input-forms/components/FertilizerForm.jsx:79-86 | one `forEach` step adds exactly `type_i` when the entry has a date and no type and `quantity_i` when it has a date and a bad quantity, with their messages, and keeps every other message |
| FertilizerForm.ApplicationErrors | kisanai/src/pages/data-input-forms/components/FertilizerForm.jsx:76-92 | an empty list has no messages |
| FertilizerForm.ApplicationErrorsKeys | kisanai/src/pages/data-input-forms/components/FertilizerForm.jsx:82-85 | the only keys are `type_i`/`quantity_i` with `i` below the list length |
| FertilizerForm.ApplicationErrorsAt | kisanai/src/pages/data-input-forms/components/FertilizerForm.jsx:79-86 | position `i` has a type message exactly when it has a date and no type, and a quantity message exactly when it has a date and a falsy or non-positive quantity |
| FertilizerForm.ValidateApplications | kisanai/src/pages/data-input-forms/components/FertilizerForm.jsx:76-92 | the `forEach` loop builds exactly the message map the specification function describes |
| FertilizerForm.FertilizerErrors | kisanai/src/pages/data-input-forms/components/FertilizerForm.jsx:76-92 | the list is only walked when it is a non-empty array; an empty or absent list is valid |
| FertilizerForm.UndatedApplicationsValid | kisanai/src/pages/data-input-forms/components/FertilizerForm.jsx:79-88 | applications without a date never produce a message |
| FertilizerForm.AddFertilizerApplication | kisanai/src/pages/data-input-forms/components/FertilizerForm.jsx:45-56 | only the list is forwarded, ending with the blank application; it throws exactly for a truthy non-array, non-text list |
| FertilizerForm.RemoveFertilizerApplication | kisanai/src/pages/data-input-forms/components/FertilizerForm.jsx:58-61 | only the list is forwarded; it succeeds exactly for an array or a missing list, and a missing one forwards `undefined` |
| FertilizerForm.FertilizerApplicationChange | kisanai/src/pages/data-input-forms/components/FertilizerForm.jsx:36-43 | only the list is forwarded, with field `f` of entry `i` set to `v` unless that entry is an array; a truthy non-iterable list throws |
| FertilizerForm.AddFertilizerApplicationAppends | kisanai/src/pages/data-input-forms/components/FertilizerForm.jsx:45-56 | adding forwards the list with one blank, photo-less entry at the end and earlier entries unchanged |
| FertilizerForm.BlankApplicationAddsNoErrors | kisanai/src/pages/data-input-forms/components/FertilizerForm.jsx:45-56 | the blank entry adds no message |
| FertilizerForm.RemoveFertilizerApplicationDrops | kisanai/src/pages/data-input-forms/components/FertilizerForm.jsx:58-61 | removing `i` drops exactly entry `i` and keeps the rest in order |
| FertilizerForm.PhotoRefs | kisanai/src/pages/data-input-forms/components/FertilizerForm.jsx:65 | each upload becomes one photo reference, in order |
| FertilizerForm.PhotoUpload | kisanai/src/pages/data-input-forms/components/FertilizerForm.jsx:63-68 | the new references follow entry `i`'s existing photos; other entries keep theirs; a missing entry throws |
| FertilizerForm.HandlePhotoUpload | kisanai/src/pages/data-input-forms/components/FertilizerForm.jsx:63-68 | only the list is forwarded, same length, every other entry unchanged; a missing list or entry throws |
| FertilizerForm.RemovePhotoAt | kisanai/src/pages/data-input-forms/components/FertilizerForm.jsx:70-74 | only photo `j` of entry `i` goes |
| FertilizerForm.RemovePhoto | kisanai/src/pages/data-input-forms/components/FertilizerForm.jsx:70-74 | only the list is forwarded, same length, every other entry unchanged; a missing list or entry throws |
| AdditionalDataForm.AdditionalErrors | kisanai/src/pages/data-input-forms/components/AdditionalDataForm.jsx:52-62 | the seed rate has a message exactly when truthy and <= 0; no other field is checked |
| AdditionalDataForm.SeedRateExamples | kisanai/src/pages/data-input-forms/components/AdditionalDataForm.jsx:56-58 | a parsed number passes exactly when it is not negative; NaN, empty and missing pass |
| AdditionalDataForm.ArrayChange | kisanai/src/pages/data-input-forms/components/AdditionalDataForm.jsx:43-50 | checking appends the tag to the end (missing counts as empty, no duplicate check); unchecking removes every copy, keeping order |
| AdditionalDataForm.IsChecked | kisanai/src/pages/data-input-forms/components/AdditionalDataForm.jsx:43-50 | a box is ticked exactly when the tag is in the list; a missing list reads unticked |
| AdditionalDataForm.CheckBoxReflectsClick | kisanai/src/pages/data-input-forms/components/AdditionalDataForm.jsx:43-50 | after a click the box shows the state the click asked for |
| AdditionalDataForm.CheckThenUncheck | kisanai/src/pages/data-input-forms/components/AdditionalDataForm.jsx:43-50 | checking then unchecking a box leaves what unchecking alone would |
| ReviewSubmitForm.TextCell | kisanai/src/pages/data-input-forms/components/ReviewSubmitForm.jsx:87 | a text cell shows its value, or "Not specified" exactly when it is falsy |
| ReviewSubmitForm.UnitCell | kisanai/src/pages/data-input-forms/components/ReviewSubmitForm.jsx:100 | a value with a unit is shown only when truthy |
| ReviewSubmitForm.FormatDate | kisanai/src/pages/data-input-forms/components/ReviewSubmitForm.jsx:25-32 | "Not specified" exactly for a falsy date |
| ReviewSubmitForm.FormatCurrency | kisanai/src/pages/data-input-forms/components/ReviewSubmitForm.jsx:34-37 | "Not specified" exactly for a falsy amount, 0 included |
| ReviewSubmitForm.Length | kisanai/src/pages/data-input-forms/components/ReviewSubmitForm.jsx:148-151 | `v?.length` exists exactly for arrays and strings |
| ReviewSubmitForm.Guard | kisanai/src/pages/data-input-forms/components/ReviewSubmitForm.jsx:182 | `guard && content`: the content exactly for a truthy guard, stray text exactly for a guard of 0 or NaN, nothing otherwise |
| ReviewSubmitForm.ShownCount | kisanai/src/pages/data-input-forms/components/ReviewSubmitForm.jsx:148-151 | a count is shown exactly when the value has a positive length; a guard of 0 or NaN is printed as that text; other falsy or length-less values show nothing |
| ReviewSubmitForm.When | kisanai/src/pages/data-input-forms/components/ReviewSubmitForm.jsx:112-117 | `v && <element>` shows the element exactly for a truthy `v`, prints `v` itself as text exactly when it is 0 or NaN, and shows nothing for the other falsy values |
| ReviewSubmitForm.CropBlock | kisanai/src/pages/data-input-forms/components/ReviewSubmitForm.jsx:78-118 | each crop cell reads "Not specified" exactly when its field is falsy, the area carries "acres", and the notes follow `cropNotes && …` including stray 0/NaN |
| ReviewSubmitForm.IrrigationBlock | kisanai/src/pages/data-input-forms/components/ReviewSubmitForm.jsx:120-154 | method, source, frequency and amount read "Not specified" exactly when falsy, the frequency reads "Every n days", and the schedule count shows exactly for a non-empty list |
| ReviewSubmitForm.Row | kisanai/src/pages/data-input-forms/components/ReviewSubmitForm.jsx:164-195 | date, type and quantity read "Not specified" exactly when falsy; the cost line shows exactly for a truthy cost, and a cost of 0 or NaN is printed as bare text; the photo count shows exactly for a non-empty list |
| ReviewSubmitForm.FertilizerBlock | kisanai/src/pages/data-input-forms/components/ReviewSubmitForm.jsx:157-197 | the block shows exactly for a non-empty array, one `Row` per entry in order; a non-empty text throws; a list field of 0 or NaN is printed as text |
| ReviewSubmitForm.AdditionalBlock | kisanai/src/pages/data-input-forms/components/ReviewSubmitForm.jsx:202-240 | the block shows exactly when one of the four fields is truthy; otherwise a weather condition of 0 or NaN is printed; inside, the seed-rate line shows exactly for a truthy rate and a rate of 0 or NaN is printed as bare text |
| ReviewSubmitForm.AnyOf | kisanai/src/pages/data-input-forms/components/ReviewSubmitForm.jsx:202 | `a \|\| b \|\| c \|\| w` is truthy exactly when one operand is, and is `w` otherwise |
| ReviewSubmitForm.AcceptedSeedRateMayPrintStray | kisanai/src/pages/data-input-forms/components/ReviewSubmitForm.jsx:215-220 | a seed rate of 0 or NaN passes the additional step and is then printed as bare text in the review |
| ReviewSubmitForm.SummaryOf | kisanai/src/pages/data-input-forms/components/ReviewSubmitForm.jsx:244-250 | the completeness figure is 85 whatever the draft |
| ReviewSubmitForm.ValidCropDetailsAllSpecified | kisanai/src/pages/data-input-forms/components/ReviewSubmitForm.jsx:85-105 | a draft that passed step 1 shows no "Not specified" for crop type, variety, area or season |
| ReviewSubmitForm.ValidIrrigationAllSpecified | kisanai/src/pages/data-input-forms/components/ReviewSubmitForm.jsx:125-140 | a draft that passed step 2 shows its method, source and frequency |
| ReviewSubmitForm.ValidApplicationsSpecified | kisanai/src/pages/data-input-forms/components/ReviewSubmitForm.jsx:167-180 | a dated application that passed step 3 shows its type and quantity |
| ReviewSubmitForm.ReviewSubmitState.constructor | kisanai/src/pages/data-input-forms/components/ReviewSubmitForm.jsx:7-8 | the step starts idle and unsubmitted |
| ReviewSubmitForm.ReviewSubmitState.Submit | kisanai/src/pages/data-input-forms/components/ReviewSubmitForm.jsx:10-14 | the spinner starts and a request is waiting |
| ReviewSubmitForm.ReviewSubmitState.RequestDone | kisanai/src/pages/data-input-forms/components/ReviewSubmitForm.jsx:16-20 | the spinner stops, success shows, and the draft waits for `onSubmit` |
| ReviewSubmitForm.ReviewSubmitState.Deliver | kisanai/src/pages/data-input-forms/components/ReviewSubmitForm.jsx:20-22 | `onSubmit` receives the unchanged draft captured at submission |
| FormProgress.ProgressPercentage | kisanai/src/pages/data-input-forms/components/FormProgress.jsx:5 | the percentage solves `p * (total - 1) == (current - 1) * 100`; a single step divides by zero |
| FormProgress.ProgressBounds | kisanai/src/pages/data-input-forms/components/FormProgress.jsx:5 | with two or more steps it is 0 exactly at step 1, 100 exactly at the last, and within 0..100 |
| FormProgress.ProgressIncreasing | kisanai/src/pages/data-input-forms/components/FormProgress.jsx:5 | it strictly increases with the step |
| FormProgress.StatusOf | kisanai/src/pages/data-input-forms/components/FormProgress.jsx:24-27 | completed exactly below the current step, current exactly at it, never both |
| FormProgress.Statuses | kisanai/src/pages/data-input-forms/components/FormProgress.jsx:55-58 | step `i + 1` has the status of its number |
| FormProgress.StatusCounts | kisanai/src/pages/data-input-forms/components/FormProgress.jsx:24-27 | with the current step in 1..n, exactly one step is current, `current - 1` are completed and the rest upcoming |
| FormProgress.BeforeCurrent | kisanai/src/pages/data-input-forms/components/FormProgress.jsx:24-27 | when every step is before the current one, all are completed |
| FormProgress.CurrentStepInfo | kisanai/src/pages/data-input-forms/components/FormProgress.jsx:93-100 | the info panel shows `steps[current - 1]`, and nothing outside 1..n |
| AuthPatterns.EmailExamples | kisanai/src/pages/user-authentication/components/RegisterForm.jsx:202-206 | the unanchored e-mail pattern finds an address inside text and rejects one without a dot after the `@` |
| AuthPatterns.PhoneExamples | kisanai/src/pages/user-authentication/components/RegisterForm.jsx:208-212 | ten or more digits, spaces, dashes or brackets after an optional `+` pass; five digits or a letter fail |
| AuthPatterns.EmailLike | kisanai/src/pages/user-authentication/components/RegisterForm.jsx:204 | `/\S+@\S+\.\S+/.test`: a match has at least five characters, an `@` and a `.` |
| AuthPatterns.PhoneLike | kisanai/src/pages/user-authentication/components/RegisterForm.jsx:210 | `/^\+?[\d\s-()]{10,}$/.test`: a match has at least ten characters, all of them phone characters after an optional leading `+` |
| AuthPatterns.PhoneCharsOf | kisanai/src/pages/user-authentication/components/RegisterForm.jsx:208-212 | every character of digits, space, `-`, `(`, `)` belongs to the phone class |
| RegisterForm.PasswordStrength | kisanai/src/pages/user-authentication/components/RegisterForm.jsx:135-143 | the score is within 0..5 and 0 exactly for the empty password |
| RegisterForm.StrengthGrowsWithTyping | kisanai/src/pages/user-authentication/components/RegisterForm.jsx:135-143 | typing more never lowers the score |
| RegisterForm.StrengthExamples | kisanai/src/pages/user-authentication/components/RegisterForm.jsx:135-143 | "password" scores 2 and "Passw0rd!" 5 |
| RegisterForm.StrengthBandsAgree | kisanai/src/pages/user-authentication/components/RegisterForm.jsx:145-157 | each label always pairs with one colour |
| RegisterForm.StrengthText | kisanai/src/pages/user-authentication/components/RegisterForm.jsx:145-150 | <= 1 Weak, 2 Fair, 3 Good, >= 4 Strong |
| RegisterForm.StrengthColor | kisanai/src/pages/user-authentication/components/RegisterForm.jsx:152-157 | <= 1 destructive, 2 warning, 3 primary, >= 4 success |
| RegisterForm.StrengthBar | kisanai/src/pages/user-authentication/components/RegisterForm.jsx:325-336 | the bar shows exactly while the password is not empty |
| RegisterForm.BarNeverEmpty | kisanai/src/pages/user-authentication/components/RegisterForm.jsx:325-336 | a shown bar is between 20 and 100 per cent wide |
| RegisterForm.SetField | kisanai/src/pages/user-authentication/components/RegisterForm.jsx:159-178 | setting a field changes that field only; an unknown name changes nothing |
| RegisterForm.RegisterErrors | kisanai/src/pages/user-authentication/components/RegisterForm.jsx:195-232 | messages only for the seven fields, each with its own text |
| RegisterForm.RegisterErrorsAt | kisanai/src/pages/user-authentication/components/RegisterForm.jsx:195-232 | a name message iff the trimmed name is empty; email iff empty or not e-mail-like; phone iff empty or not phone-like; password iff shorter than 8; confirmation iff different; role and language iff empty |
| RegisterForm.RegisterExamples | kisanai/src/pages/user-authentication/components/RegisterForm.jsx:214-220 | two equal short passwords raise only the length message; a blank name is rejected |
| RegisterForm.AcceptedMeansWellFormed | kisanai/src/pages/user-authentication/components/RegisterForm.jsx:195-232 | an accepted form has a non-blank name, valid address and phone, a long enough confirmed password, a role and a language |
| RegisterForm.SavedUserWellFormed | kisanai/src/pages/user-authentication/components/RegisterForm.jsx:242-272 | whatever is saved is an authenticated user with a role and a language, and a form user has a valid address and phone |
| RegisterForm.SavedUser | kisanai/src/pages/user-authentication/components/RegisterForm.jsx:242-272 | a form request saves its own address, name, role, phone and language; Google saves the fixed farmer account with the page language; both are signed in |
| RegisterForm.RegisterFormState.constructor | kisanai/src/pages/user-authentication/components/RegisterForm.jsx:10-21 | the empty form with the page's language preselected |
| RegisterForm.RegisterFormState.InputChange | kisanai/src/pages/user-authentication/components/RegisterForm.jsx:159-178 | the field is set, the strength is recomputed only for the password, a language change is reported, and only that field's message is blanked |
| RegisterForm.RegisterFormState.SelectChange | kisanai/src/pages/user-authentication/components/RegisterForm.jsx:180-193 | the same for the role and language selects, without touching the strength |
| RegisterForm.RegisterFormState.Submit | kisanai/src/pages/user-authentication/components/RegisterForm.jsx:234-241 | messages are replaced by a fresh validation; only an accepted form starts the spinner and a request |
| RegisterForm.RegisterFormState.GoogleRegister | kisanai/src/pages/user-authentication/components/RegisterForm.jsx:259-262 | no validation; the spinner starts and a request is queued |
| RegisterForm.RegisterFormState.Complete | kisanai/src/pages/user-authentication/components/RegisterForm.jsx:242-272 | the request's user is saved and the page navigates; only the form request stops the spinner |
| LoginForm.ApplyInput | kisanai/src/pages/user-authentication/components/LoginForm.jsx:65-71 | the checkbox stores `checked`, the text inputs store `value`, and the other fields are kept |
| LoginForm.LoginErrors | kisanai/src/pages/user-authentication/components/LoginForm.jsx:78-93 | an email message iff empty or not e-mail-like, a password message iff empty, no other key |
| LoginForm.LoginExamples | kisanai/src/pages/user-authentication/components/LoginForm.jsx:78-93 | a one-character password passes; an address without a dot fails |
| LoginForm.Authenticate | kisanai/src/pages/user-authentication/components/LoginForm.jsx:60-63 | success exactly for the two fixed pairs, and the role matches the account |
| LoginForm.DemoAccountsPassValidation | kisanai/src/pages/user-authentication/components/LoginForm.jsx:60-63 | both demo accounts pass validation |
| LoginForm.SignedInUser | kisanai/src/pages/user-authentication/components/LoginForm.jsx:110-117 | the saved user has the typed address and the account's name and role, is signed in, and has no phone or language |
| LoginForm.LoginFormState.BannerShown | kisanai/src/pages/user-authentication/components/LoginForm.jsx:149-156 | the banner shows exactly when `invalid` holds a non-empty message |
| LoginForm.LoginFormState.constructor | kisanai/src/pages/user-authentication/components/LoginForm.jsx:10-14 | the empty form |
| LoginForm.LoginFormState.InputChange | kisanai/src/pages/user-authentication/components/LoginForm.jsx:65-76 | the field is set and only its message is blanked; the banner is untouched |
| LoginForm.LoginFormState.Submit | kisanai/src/pages/user-authentication/components/LoginForm.jsx:95-101 | messages are replaced by a fresh validation; only a valid form starts the spinner and a request |
| LoginForm.LoginFormState.GoogleLogin | kisanai/src/pages/user-authentication/components/LoginForm.jsx:129-132 | no validation; the spinner starts and a request is queued |
| LoginForm.LoginFormState.Complete | kisanai/src/pages/user-authentication/components/LoginForm.jsx:103-140 | a demo pair saves farmer/Rajesh Kumar or expert/Dr. Priya Sharma and navigates; any other pair replaces the messages with the banner alone; the credentials request stops the spinner |
| RecommendationFilters.WithList | kisanai/src/pages/ai-recommendations/components/RecommendationFilters.jsx:105 | the group gets the new list and the other two are copied unchanged |
| RecommendationFilters.Toggle | kisanai/src/pages/ai-recommendations/components/RecommendationFilters.jsx:100-151 | checking appends the id at the end; unchecking removes every copy and keeps the rest; other groups are unchanged |
| RecommendationFilters.ChipIsUncheck | kisanai/src/pages/ai-recommendations/components/RecommendationFilters.jsx:174-211 | removing a chip equals unchecking its box |
| RecommendationFilters.RemoveChip | kisanai/src/pages/ai-recommendations/components/RecommendationFilters.jsx:174-211 | the id leaves its group, every other id of the group stays, nothing is added, and the other groups are unchanged |
| RecommendationFilters.ClickFlipsBox | kisanai/src/pages/ai-recommendations/components/RecommendationFilters.jsx:100-105 | a click leaves the box showing the opposite of before, and two clicks restore an unticked group |
| RecommendationFilters.ActiveIffSomeGroupNonEmpty | kisanai/src/pages/ai-recommendations/components/RecommendationFilters.jsx:78 | "Clear All" shows exactly when some group is non-empty, and is hidden exactly for the empty filters |
| RecommendationFilters.Badge | kisanai/src/pages/ai-recommendations/components/RecommendationFilters.jsx:12-18 | a badge exists exactly for a tab id and is that tab's count |
| RecommendationFilters.BadgesAddUp | kisanai/src/pages/ai-recommendations/components/RecommendationFilters.jsx:12-18 | the four group badges sum to the `all` badge |
| RecommendationFilters.CategoryBadges | kisanai/src/pages/ai-recommendations/components/RecommendationFilters.jsx:12-18 | the tabs show 12, 3, 4, 2 and 3 |
| RecommendationFilters.AtMostOneTabActive | kisanai/src/pages/ai-recommendations/components/RecommendationFilters.jsx:51 | at most one tab is highlighted |
| AiRecommendations.Tag | kisanai/src/pages/ai-recommendations/index.jsx:240-251 | every item is tagged with its group, one for one, in order |
| AiRecommendations.AllRecommendations | kisanai/src/pages/ai-recommendations/index.jsx:237-262 | an empty query keeps the joined list; otherwise every result matches and comes from it |
| AiRecommendations.AllCategoryOrder | kisanai/src/pages/ai-recommendations/index.jsx:240-251 | `all` yields irrigation, fertilizer, pest and rotation items in that order, six in total |
| AiRecommendations.CategoryYieldsItsGroup | kisanai/src/pages/ai-recommendations/index.jsx:240-251 | a named category yields only its group; an unknown one yields nothing |
| AiRecommendations.EveryItemHasACard | kisanai/src/pages/ai-recommendations/index.jsx:395-440 | every listed item has one of the four card types |
| AiRecommendations.SearchKeepsExactlyMatches | kisanai/src/pages/ai-recommendations/index.jsx:254-258 | a non-empty query keeps exactly the joined items whose lower-cased title or crop contains it |
| AiRecommendations.SearchKeepsOrder | kisanai/src/pages/ai-recommendations/index.jsx:254-258 | the result is the per-group matches in group order |
| AiRecommendations.RotationMatchesOnTitleOnly | kisanai/src/pages/ai-recommendations/index.jsx:175-228 | rotation items have no crop and match on title only |
| AiRecommendations.SearchByCropIgnoresCase | kisanai/src/pages/ai-recommendations/index.jsx:255-258 | "RICE" finds the rice pest alert |
| AiRecommendations.SearchByTitlePiece | kisanai/src/pages/ai-recommendations/index.jsx:255-258 | a piece of a title finds its item |
| AiRecommendations.BadgesAreNotCounts | kisanai/src/pages/ai-recommendations/components/RecommendationFilters.jsx:12-18 | the fixed badges disagree with the lists shown (3 against 2, 12 against 6) |
| AiRecommendations.RecommendationsPage.Shown | kisanai/src/pages/ai-recommendations/index.jsx:282 | the list shown only holds joined items of the active category |
| AiRecommendations.RecommendationsPage.constructor | kisanai/src/pages/ai-recommendations/index.jsx:17-24 | the page starts in English on `all` with no filters and no query, and is not empty |
| AiRecommendations.RecommendationsPage.LoadLanguage | kisanai/src/pages/ai-recommendations/index.jsx:230-234 | a missing or empty stored language gives `en` |
| AiRecommendations.RecommendationsPage.CategoryChange | kisanai/src/pages/ai-recommendations/index.jsx:335 | the list follows the new category |
| AiRecommendations.RecommendationsPage.SearchChange | kisanai/src/pages/ai-recommendations/index.jsx:320 | the list follows the new query |
| AiRecommendations.RecommendationsPage.FilterChange | kisanai/src/pages/ai-recommendations/index.jsx:337 | the filters change and the list does not |
| AiRecommendations.RecommendationsPage.ClearFilters | kisanai/src/pages/ai-recommendations/index.jsx:274-280 | the three lists are emptied and the list is unchanged |
| AiRecommendations.RecommendationsPage.ResetFromEmptyState | kisanai/src/pages/ai-recommendations/index.jsx:450-456 | clearing query, category and filters always brings back all six items |
| Expansion.ToggleExpanded | kisanai/src/pages/farmer-dashboard/components/AIRecommendationsPanel.jsx:47-49 | the clicked card collapses when it was open and is the only one open otherwise |
| Expansion.AtMostOneExpanded | kisanai/src/pages/farmer-dashboard/components/AIRecommendationsPanel.jsx:47-49 | no two distinct cards are ever expanded together |
| Expansion.ToggleSwitchesCards | kisanai/src/pages/farmer-dashboard/components/AlertNotifications.jsx:71-73 | opening a card closes the one open before |
| AiRecommendationsPanel.PriorityColor | kisanai/src/pages/farmer-dashboard/components/AIRecommendationsPanel.jsx:16-23 | high, medium and low in any case get their classes; anything else the default |
| AiRecommendationsPanel.PriorityIgnoresCase | kisanai/src/pages/farmer-dashboard/components/AIRecommendationsPanel.jsx:16-23 | the case of a priority never matters |
| AiRecommendationsPanel.ConfidenceBand | kisanai/src/pages/farmer-dashboard/components/AIRecommendationsPanel.jsx:25-29 | >= 80 success, 60..80 warning, otherwise (a missing value too) error |
| AiRecommendationsPanel.ConfidenceColor | kisanai/src/pages/farmer-dashboard/components/AIRecommendationsPanel.jsx:25-29 | the text colour of the band: >= 80 success, 60..80 warning, otherwise error |
| AiRecommendationsPanel.ConfidenceColorMonotone | kisanai/src/pages/farmer-dashboard/components/AIRecommendationsPanel.jsx:25-29 | a higher confidence never gets a worse colour |
| AiRecommendationsPanel.CategoryIconExamples | kisanai/src/pages/farmer-dashboard/components/AIRecommendationsPanel.jsx:31-41 | "Irrigation" and "SOIL" get their icons; a missing category the light bulb |
| AiRecommendationsPanel.CategoryIcon | kisanai/src/pages/farmer-dashboard/components/AIRecommendationsPanel.jsx:31-41 | a missing category gets the light bulb, and every result is one of the six icons or the light bulb |
| AiRecommendationsPanel.CategoryIconFallback | kisanai/src/pages/farmer-dashboard/components/AIRecommendationsPanel.jsx:31-41 | the light bulb exactly for a category outside the table, in any case |
| AiRecommendationsPanel.FilterByCategory | kisanai/src/pages/farmer-dashboard/components/AIRecommendationsPanel.jsx:43-45 | `all` keeps the list; otherwise only items of that category |
| AiRecommendationsPanel.FilterByCategoryMembers | kisanai/src/pages/farmer-dashboard/components/AIRecommendationsPanel.jsx:43-45 | an item is shown exactly when the tab is `all` or its category |
| AiRecommendationsPanel.Panel.constructor | kisanai/src/pages/farmer-dashboard/components/AIRecommendationsPanel.jsx:5-6 | every item shown, none expanded; empty state exactly for no items |
| AiRecommendationsPanel.Panel.SelectCategory | kisanai/src/pages/farmer-dashboard/components/AIRecommendationsPanel.jsx:43-45 | the cards shown follow the tab |
| AiRecommendationsPanel.Panel.Toggle | kisanai/src/pages/farmer-dashboard/components/AIRecommendationsPanel.jsx:47-49 | the clicked card flips and no other card opens |
| AlertNotifications.KindCount | kisanai/src/pages/farmer-dashboard/components/AlertNotifications.jsx:8-13 | a type count never exceeds the total |
| AlertNotifications.Tabs | kisanai/src/pages/farmer-dashboard/components/AlertNotifications.jsx:8-13 | `all` counts every alert; each other tab counts alerts of its type |
| AlertNotifications.KindCountsWithinTotal | kisanai/src/pages/farmer-dashboard/components/AlertNotifications.jsx:8-13 | the three type counts sum to at most the total |
| AlertNotifications.FilterAlerts | kisanai/src/pages/farmer-dashboard/components/AlertNotifications.jsx:67-69 | `all` keeps the list; otherwise only alerts of that type |
| AlertNotifications.FilterAlertsMembers | kisanai/src/pages/farmer-dashboard/components/AlertNotifications.jsx:67-69 | an alert is listed exactly when the filter is `all` or its type |
| AlertNotifications.HeaderMatchesBadge | kisanai/src/pages/farmer-dashboard/components/AlertNotifications.jsx:96 | "N active alerts" equals the selected tab's badge |
| AlertNotifications.AgeOf | kisanai/src/pages/farmer-dashboard/components/AlertNotifications.jsx:75-84 | minutes are the floor of ms / 60000; "Just now" exactly below a minute (future included); minute, hour and day counts are the floors of the age; NaN lands in the days arm |
| AlertNotifications.AgeMonotone | kisanai/src/pages/farmer-dashboard/components/AlertNotifications.jsx:75-84 | an older alert never gets a finer bucket or a smaller number |
| AlertNotifications.TimeAgoExamples | kisanai/src/pages/farmer-dashboard/components/AlertNotifications.jsx:75-84 | 30 minutes, 2 hours, a minute ahead and 3 days bucket as expected |
| AlertNotifications.FormatTimeAgo | kisanai/src/pages/farmer-dashboard/components/AlertNotifications.jsx:75-84 | under a minute (or in the future) reads "Just now"; a missing time reads "NaNd ago" |
| AlertNotifications.SeverityConfig | kisanai/src/pages/farmer-dashboard/components/AlertNotifications.jsx:15-53 | critical, high, medium and low in any case get their styles; anything else the bell |
| AlertNotifications.SeverityIconsDistinct | kisanai/src/pages/farmer-dashboard/components/AlertNotifications.jsx:15-53 | only an unknown severity shows the bell, and equal icons mean equal styles |
| AlertNotifications.TypeIconExamples | kisanai/src/pages/farmer-dashboard/components/AlertNotifications.jsx:55-65 | the six types in any case get their icons; anything else the bell |
| AlertNotifications.TypeIcon | kisanai/src/pages/farmer-dashboard/components/AlertNotifications.jsx:55-65 | a missing type gets the bell, and every result is one of the six icons or the bell |
| AlertNotifications.EmptyMessage | kisanai/src/pages/farmer-dashboard/components/AlertNotifications.jsx:228-237 | "All clear…" for `all`, otherwise a message naming the filter |
| AlertNotifications.Panel.constructor | kisanai/src/pages/farmer-dashboard/components/AlertNotifications.jsx:5-6 | every alert, none expanded |
| AlertNotifications.Panel.SelectFilter | kisanai/src/pages/farmer-dashboard/components/AlertNotifications.jsx:67-69 | the alerts shown follow the tab |
| AlertNotifications.Panel.Toggle | kisanai/src/pages/farmer-dashboard/components/AlertNotifications.jsx:71-73 | the clicked alert flips |
| SoilHealthMonitoring.GoodInsideWarning | kisanai/src/pages/farmer-dashboard/components/SoilHealthMonitoring.jsx:9-15 | every good interval lies inside its warning interval |
| SoilHealthMonitoring.StatusBands | kisanai/src/pages/farmer-dashboard/components/SoilHealthMonitoring.jsx:25-40 | inclusive bounds: Optimal exactly in the good interval, Moderate in warning but not good, Needs Attention otherwise |
| SoilHealthMonitoring.HealthColor | kisanai/src/pages/farmer-dashboard/components/SoilHealthMonitoring.jsx:8-23 | muted exactly for an unknown parameter, success exactly inside the good interval, error exactly outside both |
| SoilHealthMonitoring.HealthStatus | kisanai/src/pages/farmer-dashboard/components/SoilHealthMonitoring.jsx:25-40 | Unknown exactly for an unknown parameter, Optimal exactly inside the good interval, Needs Attention exactly outside both |
| SoilHealthMonitoring.UnknownParameter | kisanai/src/pages/farmer-dashboard/components/SoilHealthMonitoring.jsx:18-35 | an unknown parameter gives "Unknown" and the muted colour |
| SoilHealthMonitoring.ColorMatchesStatus | kisanai/src/pages/farmer-dashboard/components/SoilHealthMonitoring.jsx:8-40 | colour and status always agree |
| SoilHealthMonitoring.StatusExamples | kisanai/src/pages/farmer-dashboard/components/SoilHealthMonitoring.jsx:26-39 | pH 6.8 is optimal, 5.5 moderate, moisture 85 needs attention, a missing value too |
| SoilHealthMonitoring.FindField | kisanai/src/pages/farmer-dashboard/components/SoilHealthMonitoring.jsx:51 | the first field with the id, or none when no field has it |
| SoilHealthMonitoring.Card.constructor | kisanai/src/pages/farmer-dashboard/components/SoilHealthMonitoring.jsx:6 | the first field is selected |
| SoilHealthMonitoring.Card.SelectField | kisanai/src/pages/farmer-dashboard/components/SoilHealthMonitoring.jsx:51 | selecting an id picks the first field with that id |
| CropYieldCard.ConfidenceBg | kisanai/src/pages/farmer-dashboard/components/CropYieldCard.jsx:12-16 | the bar colour of the same band: >= 80 success, 60..80 warning, otherwise error |
| CropYieldCard.TextAndBarAgree | kisanai/src/pages/farmer-dashboard/components/CropYieldCard.jsx:6-16 | text and bar colours always agree |
| CropYieldCard.TrendIconOf | kisanai/src/pages/farmer-dashboard/components/CropYieldCard.jsx:18-22 | up and success for > 0, down and error for < 0, `Minus` for 0 |
| CropYieldCard.PrefixMatchesIcon | kisanai/src/pages/farmer-dashboard/components/CropYieldCard.jsx:61 | `+` exactly when the trend points up |
| CropYieldCard.TrendPrefix | kisanai/src/pages/farmer-dashboard/components/CropYieldCard.jsx:61 | `+` exactly for a positive trend, otherwise nothing |
| WeatherSnapshot.WeatherIconExamples | kisanai/src/pages/farmer-dashboard/components/WeatherSnapshot.jsx:5-14 | rainy and partly-cloudy get their icons; "Rainy" and a missing condition get `Sun` |
| WeatherSnapshot.WeatherIcon | kisanai/src/pages/farmer-dashboard/components/WeatherSnapshot.jsx:5-14 | a missing condition gets `Sun`, and every result is one of the five icons |
| WeatherSnapshot.UnknownConditionGetsSun | kisanai/src/pages/farmer-dashboard/components/WeatherSnapshot.jsx:5-14 | any key not spelt exactly as in the table gets `Sun` |
| WeatherSnapshot.AlertColorMatchesBg | kisanai/src/pages/farmer-dashboard/components/WeatherSnapshot.jsx:16-32 | colour and background agree for high, medium and low; anything else is muted |
| WeatherSnapshot.AlertStyleOf | kisanai/src/pages/farmer-dashboard/components/WeatherSnapshot.jsx:16-32 | a missing severity is muted, and every result is one of the table's three pairs or the muted one |
| WeatherSnapshot.HumidityBand | kisanai/src/pages/farmer-dashboard/components/WeatherSnapshot.jsx:67 | > 70 High, 40..70 Moderate, otherwise Low |
| WeatherSnapshot.ConditionLabel | kisanai/src/pages/farmer-dashboard/components/WeatherSnapshot.jsx:81 | the label exists exactly for a condition and keeps its length |
| WeatherSnapshot.ConditionLabelOfHyphenated | kisanai/src/pages/farmer-dashboard/components/WeatherSnapshot.jsx:81 | the first `-` becomes a space |
| WeatherSnapshot.ConditionLabelKeepsLaterHyphens | kisanai/src/pages/farmer-dashboard/components/WeatherSnapshot.jsx:81 | "a-b-c" becomes "a b-c" |
| WeatherSnapshot.ConditionLabelFirstHyphenOnly | kisanai/src/pages/farmer-dashboard/components/WeatherSnapshot.jsx:81 | only the first hyphen is replaced |
| ChatbotWidget.BlankIffWhiteSpace | kisanai/src/components/ui/ChatbotWidget.jsx:158 | send is disabled exactly for input of white space only |
| ChatbotWidget.Chat.constructor | kisanai/src/components/ui/ChatbotWidget.jsx:6-16 | the closed widget holds the greeting alone; quick actions show and send is disabled |
| ChatbotWidget.Chat.ToggleOpen | kisanai/src/components/ui/ChatbotWidget.jsx:169 | the widget opens or closes; nothing else changes |
| ChatbotWidget.Chat.Type | kisanai/src/components/ui/ChatbotWidget.jsx:150 | the input takes the typed text |
| ChatbotWidget.Chat.QuickAction | kisanai/src/components/ui/ChatbotWidget.jsx:52-54 | the input takes the label and nothing is sent |
| ChatbotWidget.Chat.Send | kisanai/src/components/ui/ChatbotWidget.jsx:25-37 | blank input changes nothing; otherwise one user message with the untrimmed input is appended, the input clears, typing starts and a reply is due; the log only grows |
| ChatbotWidget.Chat.Reply | kisanai/src/components/ui/ChatbotWidget.jsx:40-49 | one bot answer is appended and typing stops; every user message is answered once |
| ChatbotWidget.EveryQuestionAnswered | kisanai/src/components/ui/ChatbotWidget.jsx:25-50 | with no reply due, user and bot messages (past the greeting) are equal in number |
| LanguagePreference.Load | kisanai/src/components/ui/Header.jsx:14 | reading the key gives what is stored, or nothing |
| LanguagePreference.Save | kisanai/src/components/ui/Header.jsx:14 | writing the key changes that entry only |
| LanguagePreference.LoadAfterSave | kisanai/src/pages/welcome-landing/index.jsx:20-23 | what is saved is read back |
| Header.BellBadge | kisanai/src/components/ui/Header.jsx:123-127 | the badge shows exactly for a non-empty list, with its length |
| Header.BellShowsThree | kisanai/src/components/ui/Header.jsx:22-44 | the fixed list puts a 3 on the bell |
| Header.DotColor | kisanai/src/components/ui/Header.jsx:143-146 | warning and success get their colours; anything else the primary one |
| Header.Label | kisanai/src/components/ui/Header.jsx:102-105 | a label exists exactly for en, hi, te and ta |
| Header.LabelExamples | kisanai/src/components/ui/Header.jsx:46-51 | English is labelled; gu, pa and or are not |
| Header.HeaderState.constructor | kisanai/src/components/ui/Header.jsx:7-9 | both dropdowns closed, English |
| Header.HeaderState.BellClick | kisanai/src/components/ui/Header.jsx:116-119 | notifications flip, profile closes; never both open |
| Header.HeaderState.ProfileClick | kisanai/src/components/ui/Header.jsx:180-183 | profile flips, notifications close; never both open |
| Header.HeaderState.LanguageButtonClick | kisanai/src/components/ui/Header.jsx:98 | only notifications close; profile unchanged |
| Header.HeaderState.LanguageChange | kisanai/src/components/ui/Header.jsx:12-15 | the language becomes `lang` and is stored |
| Header.HeaderState.Logout | kisanai/src/components/ui/Header.jsx:17-20 | nothing changes |
| WelcomeLanding.ContentFor | kisanai/src/pages/welcome-landing/index.jsx:230 | Hindi exactly for `hi`; English for everything else |
| WelcomeLanding.SelectorCodesFallBack | kisanai/src/pages/welcome-landing/components/LanguageSelector.jsx:8-14 | gu, pa and or render English |
| WelcomeLanding.LanguageOnMount | kisanai/src/pages/welcome-landing/index.jsx:13-18 | a present, non-empty stored language replaces `en` |
| WelcomeLanding.LandingPage.constructor | kisanai/src/pages/welcome-landing/index.jsx:10-18 | the page starts in the stored language, or English |
| WelcomeLanding.LandingPage.LanguageChange | kisanai/src/pages/welcome-landing/index.jsx:20-23 | state and store both become the code |
| WelcomeLanding.ChoiceSurvivesReload | kisanai/src/pages/welcome-landing/index.jsx:13-23 | a change survives a reload, except an empty code, which gives English |
## Left out

- Rendering, CSS and Helmet metadata are left out. Class and icon names are kept only as opaque strings where a rule compares them.
- Translation tables are left out. Messages are the English texts; the role, language and quick-action lists keep their codes and labels.
- JSON text is not modelled. Saving is `Serialize`, the JSON form of the draft (NaN becomes null, `undefined` properties drop). An entry that does not parse is an explicit `Unparseable` value.
- `window.confirm` is a boolean parameter of `Wizard.Clear`. Redirects, `navigate` and `window.scrollTo` become a `redirecting`/`navigated` flag.
- Timers (`setTimeout`, the awaited delays) become pending queues that a separate method completes. Their lengths, ordering across kinds and cancellation on unmount are not modelled. `Complete(i)` takes which request fires.
- Date and money formatting (`toLocaleDateString`, `toLocaleString`), `new Date()` bounds on date inputs, `Date.now()` message ids and `URL.createObjectURL` are opaque. Only their "Not specified" fallbacks are modelled, and photos are their reference strings.
- `parseFloat`/`parseInt` are not modelled: fields hold the parsed value, with NaN a distinct falsy value.
- `JsValue.LeqZero`: the number conversion of a string, array or object operand of `<= 0` is not modelled, so such operands never compare `<= 0`. Number inputs only produce numbers, NaN or the empty string.
- `toLowerCase` is ASCII only. The two regular expressions are hand-written predicates (`AuthPatterns.EmailLike`, `AuthPatterns.PhoneLike`), and `\s` and `trim()` use ECMAScript's white space and line terminators.
- Prototype keys such as `constructor` are not modelled: an `iconMap[key]` or `content[code]` lookup with such a key would find an inherited function.
- The charts (recharts) and the map iframe are left out. So are the farm-level dashboard page, the recommendation cards, the landing-page sections, the sidebar, the mobile navigation, the routes, the auth header and tabs, and the language selector, beyond its list of codes.
- The rendered list of alerts and recommendations is left out: the models stop at the selection that feeds it.
- `Header.HeaderState.LanguageChange`: nothing in the header calls it, so it is modelled as a method but reached by no event.
- The `console.log` in `handleLogout` is left out.
- RegisterForm.PasswordStrength, RegisterForm.RegisterErrors, ReviewSubmitForm.Length: a Dafny string counts Unicode scalar values, while JavaScript's `.length` counts UTF-16 code units. A password of four characters outside the Basic Multilingual Plane has length 8 in the browser, so it passes the eight-character rules of RegisterForm.jsx:137 and :214, but it fails them in the model. Below that plane the two counts agree.
- FormDraft.EditEntry, FertilizerForm.PhotoUpload, FertilizerForm.RemovePhotoAt: the handlers copy the list but write into the entry objects it shares with the previous draft (IrrigationForm.jsx:39, FertilizerForm.jsx:41, 66, 72). The model builds fresh entries, so that aliasing of the old state is not captured. The new draft is the same either way.
- DataInputForms.Loaded: a stored draft that parses to something other than an object (`null`, a number, a list) cannot be represented. `Stored` holds object drafts, so what the page does after `setFormData` of such a value is not modelled.
