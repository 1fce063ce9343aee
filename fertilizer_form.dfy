/** Step 3 of the data-input wizard: a list of fertilizer applications,
    each with a date, type, quantity, method, cost, notes and photos. */
module FertilizerForm {
  import opened Results
  import opened JsValue
  import opened JsString
  import opened FormDraft

  const TypeMessage := "Please select fertilizer type"
  const QuantityMessage := "Please enter valid quantity"

  /** `type_${i}`. */
  function TypeKey(i: nat): string
  {
    "type_" + NatToString(i)
  }

  /** `quantity_${i}`. */
  function QuantityKey(i: nat): string
  {
    "quantity_" + NatToString(i)
  }

  /** The two key families never meet, and each key names one position. */
  lemma KeysDistinct(i: nat, j: nat)
    ensures TypeKey(i) != QuantityKey(j)
    ensures TypeKey(i) == TypeKey(j) ==> i == j
    ensures QuantityKey(i) == QuantityKey(j) ==> i == j
  {
    assert TypeKey(i)[0] == 't' && QuantityKey(j)[0] == 'q';
    if TypeKey(i) == TypeKey(j) {
      assert NatToString(i) == TypeKey(i)[5..] == TypeKey(j)[5..] == NatToString(j);
      NatToStringInjective(i, j);
    }
    if QuantityKey(i) == QuantityKey(j) {
      assert NatToString(i) == QuantityKey(i)[9..] == QuantityKey(j)[9..] == NatToString(j);
      NatToStringInjective(i, j);
    }
  }

  /** An application with a date must name its type. */
  predicate MissingType(app: Value)
  {
    Truthy(Prop(app, "date")) && !Truthy(Prop(app, "type"))
  }

  /** An application with a date must have a quantity that is truthy and
      not `<= 0`. */
  predicate BadQuantity(app: Value)
  {
    Truthy(Prop(app, "date")) && NotPositive(Prop(app, "quantity"))
  }

  /** One call of the `forEach` callback: the messages for the application
      at position `i` are added to those gathered so far. */
  function AddEntryErrors(e: Errors, app: Value, i: nat): (r: Errors)
    ensures r.Keys == e.Keys + (if MissingType(app) then {TypeKey(i)} else {}) +
                              (if BadQuantity(app) then {QuantityKey(i)} else {})
    ensures MissingType(app) ==> r[TypeKey(i)] == TypeMessage
    ensures BadQuantity(app) ==> r[QuantityKey(i)] == QuantityMessage
    ensures forall k :: k in e && k != TypeKey(i) && k != QuantityKey(i) ==> r[k] == e[k]
  {
    var e1 := if MissingType(app) then e[TypeKey(i) := TypeMessage] else e;
    if BadQuantity(app) then e1[QuantityKey(i) := QuantityMessage] else e1
  }

  /** The messages `validateForm` gathers over a list of applications, one
      `forEach` step per position in order. */
  function ApplicationErrors(apps: seq<Value>): (e: Errors)
    ensures apps == [] ==> e == map[]
    decreases |apps|
  {
    if apps == [] then map[]
    else AddEntryErrors(ApplicationErrors(apps[..|apps| - 1]), apps[|apps| - 1], |apps| - 1)
  }

  /** `k` is the type or quantity key of a position below `n`. */
  ghost predicate PositionKey(k: string, n: nat)
  {
    exists i :: 0 <= i < n && (k == TypeKey(i) || k == QuantityKey(i))
  }

  /** No key other than the type and quantity keys of the listed positions
      is ever set. */
  lemma {:induction false} ApplicationErrorsKeys(apps: seq<Value>)
    ensures forall k :: k in ApplicationErrors(apps) ==> PositionKey(k, |apps|)
    decreases |apps|
  {
    if apps != [] {
      var n := |apps| - 1;
      ApplicationErrorsKeys(apps[..n]);
      forall k | k in ApplicationErrors(apps)
        ensures PositionKey(k, |apps|)
      {
        if k in ApplicationErrors(apps[..n]) {
          var i :| 0 <= i < n && (k == TypeKey(i) || k == QuantityKey(i));
          assert 0 <= i < |apps|;
        } else {
          assert k == TypeKey(n) || k == QuantityKey(n);
        }
      }
    }
  }

  /** Position `i` has a type message exactly when it has a date and no
      type, and a quantity message exactly when it has a date and a
      quantity that is missing or not positive; the messages are fixed. */
  lemma {:induction false} ApplicationErrorsAt(apps: seq<Value>, i: nat)
    requires i < |apps|
    ensures TypeKey(i) in ApplicationErrors(apps) <==> MissingType(apps[i])
    ensures QuantityKey(i) in ApplicationErrors(apps) <==> BadQuantity(apps[i])
    ensures TypeKey(i) in ApplicationErrors(apps) ==> ApplicationErrors(apps)[TypeKey(i)] == TypeMessage
    ensures QuantityKey(i) in ApplicationErrors(apps) ==> ApplicationErrors(apps)[QuantityKey(i)] == QuantityMessage
    decreases |apps|
  {
    var n := |apps| - 1;
    var before := ApplicationErrors(apps[..n]);
    KeysDistinct(i, n);
    KeysDistinct(n, i);
    if i < n {
      ApplicationErrorsAt(apps[..n], i);
      assert apps[..n][i] == apps[i];
    } else {
      ApplicationErrorsKeys(apps[..n]);
      if TypeKey(n) in before {
        var j :| 0 <= j < n && (TypeKey(n) == TypeKey(j) || TypeKey(n) == QuantityKey(j));
        KeysDistinct(n, j);
      }
      if QuantityKey(n) in before {
        var j :| 0 <= j < n && (QuantityKey(n) == TypeKey(j) || QuantityKey(n) == QuantityKey(j));
        KeysDistinct(j, n);
        KeysDistinct(n, j);
      }
    }
  }

  /** `validateForm`'s `forEach` over the application list. */
  method ValidateApplications(apps: seq<Value>) returns (e: Errors)
    ensures e == ApplicationErrors(apps)
  {
    e := map[];
    var i := 0;
    while i < |apps|
      invariant 0 <= i <= |apps|
      invariant e == ApplicationErrors(apps[..i])
    {
      var app := apps[i];
      if Truthy(Prop(app, "date")) && !Truthy(Prop(app, "type")) {
        e := e[TypeKey(i) := TypeMessage];
      }
      if Truthy(Prop(app, "date")) && NotPositive(Prop(app, "quantity")) {
        e := e[QuantityKey(i) := QuantityMessage];
      }
      assert apps[..i + 1][..i] == apps[..i];
      i := i + 1;
    }
    assert apps[..|apps|] == apps;
  }

  /** `validateForm` on the whole draft: the list is walked only when it is
      truthy and has a positive `length`; a non-empty text has a length but
      no `forEach`, so the call throws. */
  function FertilizerErrors(d: Draft): (r: Outcome<Errors>)
    ensures var apps := Field(d, "fertilizerApplications");
      r.TypeError? <==> apps.Str? && apps.s != ""
    ensures var apps := Field(d, "fertilizerApplications");
      apps.Arr? ==> r == Ok(ApplicationErrors(apps.items))
    ensures var apps := Field(d, "fertilizerApplications");
      !apps.Arr? && !apps.Str? ==> r == Ok(map[])
  {
    var apps := Field(d, "fertilizerApplications");
    if apps.Arr? && apps.items != [] then Ok(ApplicationErrors(apps.items))
    else if apps.Str? && apps.s != "" then TypeError
    else Ok(map[])
  }

  /** Applications without a date never block the step, whatever else they
      hold, and an empty list is always valid. */
  lemma UndatedApplicationsValid(apps: seq<Value>)
    requires forall i :: 0 <= i < |apps| ==> !Truthy(Prop(apps[i], "date"))
    ensures ApplicationErrors(apps) == map[]
  {
    var e := ApplicationErrors(apps);
    ApplicationErrorsKeys(apps);
    forall k | k in e
      ensures false
    {
      var i :| 0 <= i < |apps| && (k == TypeKey(i) || k == QuantityKey(i));
      ApplicationErrorsAt(apps, i);
    }
    assert e.Keys == {};
  }

  /** The entry `addFertilizerApplication` appends. */
  const BlankApplication: Value :=
    Obj(map["date" := Str(""), "type" := Str(""), "quantity" := Str(""), "method" := Str(""),
            "cost" := Str(""), "notes" := Str(""), "photos" := Arr([])])

  /** `addFertilizerApplication`. */
  function AddFertilizerApplication(d: Draft): (u: Outcome<Draft>)
    ensures var s := Field(d, "fertilizerApplications");
      u.TypeError? <==> Truthy(s) && !s.Arr? && !s.Str?
    ensures u.Ok? ==> u.value.Keys == {"fertilizerApplications"}
    ensures u.Ok? ==> var l := u.value["fertilizerApplications"];
      l.Arr? && l.items != [] && l.items[|l.items| - 1] == BlankApplication
  {
    ListUpdate("fertilizerApplications", AppendEntry(Field(d, "fertilizerApplications"), BlankApplication))
  }

  /** Adding forwards the list with one blank, photo-less entry more at the
      end and the earlier entries as they were. */
  lemma AddFertilizerApplicationAppends(d: Draft)
    requires Field(d, "fertilizerApplications").Arr? || !Truthy(Field(d, "fertilizerApplications"))
    ensures var before := Entries(Field(d, "fertilizerApplications"));
      var u := AddFertilizerApplication(d);
      u.Ok? && u.value.Keys == {"fertilizerApplications"} &&
      u.value["fertilizerApplications"] == Arr(before + [BlankApplication])
  {
    var list := Field(d, "fertilizerApplications");
    var r := AppendEntry(list, BlankApplication);
    assert r.value.items == Entries(list) + [BlankApplication];
  }

  /** The blank entry has no date, so it adds no message: the errors of the
      step are those of the list before it was added. */
  lemma BlankApplicationAddsNoErrors(apps: seq<Value>)
    ensures ApplicationErrors(apps + [BlankApplication]) == ApplicationErrors(apps)
  {
    assert (apps + [BlankApplication])[..|apps|] == apps;
    assert !Truthy(Prop(BlankApplication, "date"));
  }

  /** `removeFertilizerApplication(i)`. */
  function RemoveFertilizerApplication(d: Draft, i: nat): (u: Outcome<Draft>)
    ensures var s := Field(d, "fertilizerApplications");
      u.Ok? <==> s.Arr? || s == Undefined || s == Null
    ensures u.Ok? ==> u.value.Keys == {"fertilizerApplications"}
    ensures var s := Field(d, "fertilizerApplications");
      u.Ok? && !s.Arr? ==> u.value["fertilizerApplications"] == Undefined
  {
    ListUpdate("fertilizerApplications", RemoveEntry(Field(d, "fertilizerApplications"), i))
  }

  /** Removing position `i` forwards the list without that entry and the
      others in their order. */
  lemma RemoveFertilizerApplicationDrops(d: Draft, i: nat)
    requires Field(d, "fertilizerApplications").Arr?
    requires i < |Field(d, "fertilizerApplications").items|
    ensures var items := Field(d, "fertilizerApplications").items;
      var u := RemoveFertilizerApplication(d, i);
      u.Ok? && u.value["fertilizerApplications"] == Arr(items[..i] + items[i + 1..])
  {
    var items := Field(d, "fertilizerApplications").items;
    var r := RemoveEntry(Field(d, "fertilizerApplications"), i);
    assert r.value.items == items[..i] + items[i + 1..];
  }

  /** `handleFertilizerApplicationChange(i, f, v)`. */
  function FertilizerApplicationChange(d: Draft, i: nat, f: string, v: Value): (u: Outcome<Draft>)
    ensures var s := Field(d, "fertilizerApplications");
      !(s.Arr? || s.Str? || !Truthy(s)) ==> u.TypeError?
    ensures u.Ok? ==> u.value.Keys == {"fertilizerApplications"}
    ensures var s := Field(d, "fertilizerApplications");
      (s.Arr? || !Truthy(s)) && u.Ok? && !EntryAt(Entries(s), i).Arr? ==>
      var l := u.value["fertilizerApplications"];
      l.Arr? && i < |l.items| && Prop(l.items[i], f) == v
  {
    ListUpdate("fertilizerApplications", EditEntry(Field(d, "fertilizerApplications"), i, f, v))
  }

  /** Photo references as the list holds them. */
  function PhotoRefs(urls: seq<string>): (r: seq<Value>)
    ensures |r| == |urls| && forall k :: 0 <= k < |urls| ==> r[k] == Str(urls[k])
  {
    seq(|urls|, k requires 0 <= k < |urls| => Str(urls[k]))
  }

  /** `handlePhotoUpload(i, files)` on the list: the copy is made without a
      `|| []` fallback, so a missing list throws, and so does a position
      with no entry. */
  function PhotoUpload(list: Value, i: nat, urls: seq<string>): (r: Outcome<Value>)
    ensures !(list.Arr? || list.Str?) ==> r.TypeError?
    ensures list.Arr? && i >= |list.items| ==> r.TypeError?
    ensures (list.Arr? && i < |list.items| && list.items[i].Obj? &&
             (Prop(list.items[i], "photos").Arr? || !Truthy(Prop(list.items[i], "photos")))) ==>
      r.Ok? && r.value.Arr? && |r.value.items| == |list.items| &&
      (forall j :: 0 <= j < |list.items| && j != i ==> r.value.items[j] == list.items[j]) &&
      r.value.items[i] == Obj(list.items[i].fields["photos" :=
        Arr(Entries(Prop(list.items[i], "photos")) + PhotoRefs(urls))])
  {
    match Spread(list)
    case TypeError => TypeError
    case Ok(items) =>
      var entry := EntryAt(items, i);
      match SpreadOrEmpty(Prop(entry, "photos"))
      case TypeError => TypeError
      case Ok(photos) =>
        match SetProp(entry, "photos", Arr(photos + PhotoRefs(urls)))
        case TypeError => TypeError
        case Ok(e) => Ok(Arr(if i < |items| then items[i := e] else items))
  }

  /** `handlePhotoUpload(i, files)`. */
  function HandlePhotoUpload(d: Draft, i: nat, urls: seq<string>): (u: Outcome<Draft>)
    ensures var s := Field(d, "fertilizerApplications");
      !(s.Arr? || s.Str?) || (s.Arr? && i >= |s.items|) ==> u.TypeError?
    ensures u.Ok? ==> u.value.Keys == {"fertilizerApplications"}
    ensures var s := Field(d, "fertilizerApplications");
      u.Ok? && s.Arr? ==> var l := u.value["fertilizerApplications"];
      l.Arr? && |l.items| == |s.items| &&
      forall j :: 0 <= j < |s.items| && j != i ==> l.items[j] == s.items[j]
  {
    ListUpdate("fertilizerApplications", PhotoUpload(Field(d, "fertilizerApplications"), i, urls))
  }

  /** `removePhoto(i, j)` on the list: only photo `j` of entry `i` goes. */
  function RemovePhotoAt(list: Value, i: nat, j: nat): (r: Outcome<Value>)
    ensures !(list.Arr? || list.Str?) ==> r.TypeError?
    ensures list.Arr? && i >= |list.items| ==> r.TypeError?
    ensures (list.Arr? && i < |list.items| && list.items[i].Obj? &&
             Prop(list.items[i], "photos").Arr?) ==>
      var photos := Prop(list.items[i], "photos").items;
      r.Ok? && r.value.Arr? && |r.value.items| == |list.items| &&
      (forall k :: 0 <= k < |list.items| && k != i ==> r.value.items[k] == list.items[k]) &&
      r.value.items[i] == Obj(list.items[i].fields["photos" :=
        Arr(if j < |photos| then photos[..j] + photos[j + 1..] else photos)])
  {
    match Spread(list)
    case TypeError => TypeError
    case Ok(items) =>
      var entry := EntryAt(items, i);
      match RemoveEntry(Prop(entry, "photos"), j)
      case TypeError => TypeError
      case Ok(photos) =>
        match SetProp(entry, "photos", photos)
        case TypeError => TypeError
        case Ok(e) => Ok(Arr(if i < |items| then items[i := e] else items))
  }

  /** `removePhoto(i, j)`. */
  function RemovePhoto(d: Draft, i: nat, j: nat): (u: Outcome<Draft>)
    ensures var s := Field(d, "fertilizerApplications");
      !(s.Arr? || s.Str?) || (s.Arr? && i >= |s.items|) ==> u.TypeError?
    ensures u.Ok? ==> u.value.Keys == {"fertilizerApplications"}
    ensures var s := Field(d, "fertilizerApplications");
      u.Ok? && s.Arr? ==> var l := u.value["fertilizerApplications"];
      l.Arr? && |l.items| == |s.items| &&
      forall k :: 0 <= k < |s.items| && k != i ==> l.items[k] == s.items[k]
  {
    ListUpdate("fertilizerApplications", RemovePhotoAt(Field(d, "fertilizerApplications"), i, j))
  }
}
