/** What the four editing steps of the data-input wizard share: the draft
    record they edit, the error map each of them keeps, the input handler
    they all use, and the copy-then-assign edits they make to the
    irrigation-schedule and fertilizer-application lists. */
module FormDraft {
  import opened Results
  import opened JsValue
  import opened Seqs

  /** The wizard's `formData`: a flat record from field name to value. */
  type Draft = map<string, Value>

  /** A step form's `errors` state: field name to message. */
  type Errors = map<string, string>

  /** `formData?.[k]`: a missing field reads as `undefined`. */
  function Field(d: Draft, k: string): Value
  {
    if k in d then d[k] else Undefined
  }

  /** `{ ...prev, ...updates }`: every key of `updates` takes its value from
      `updates`, every other key of `prev` keeps its value. */
  function Merge(prev: Draft, updates: Draft): (r: Draft)
    ensures r.Keys == prev.Keys + updates.Keys
    ensures forall k :: k in updates ==> r[k] == updates[k]
    ensures forall k :: k in prev && k !in updates ==> r[k] == prev[k]
  {
    prev + updates
  }

  /** The second half of `handleInputChange`: a field's message is blanked
      only when it is set and non-empty; no other message changes and no
      key is added or dropped. */
  function ClearError(errors: Errors, f: string): (r: Errors)
    ensures r.Keys == errors.Keys
    ensures f in r ==> r[f] == ""
    ensures forall k :: k in r && k != f ==> r[k] == errors[k]
    ensures f in errors && errors[f] == "" ==> r == errors
  {
    if f in errors && errors[f] != "" then errors[f := ""] else errors
  }

  /** `Object.keys(newErrors).length === 0`. */
  predicate NoErrors(e: Errors)
  {
    |e| == 0
  }

  /** The one-field update record `{ [f]: v }` a list handler passes to
      `onUpdate`, or the TypeError it threw before getting there. */
  function ListUpdate(f: string, r: Outcome<Value>): (u: Outcome<Draft>)
    ensures u.Ok? <==> r.Ok?
    ensures u.Ok? ==> u.value.Keys == {f} && u.value[f] == r.value
  {
    match r
    case Ok(v) => Ok(map[f := v])
    case TypeError => TypeError
  }

  /** The entries of a list field that is an array or falsy (`list || []`). */
  function Entries(list: Value): seq<Value>
  {
    if list.Arr? then list.items else []
  }

  /** `[...(list || []), entry]`. */
  function AppendEntry(list: Value, entry: Value): (r: Outcome<Value>)
    ensures r.Ok? <==> !Truthy(list) || list.Arr? || list.Str?
    ensures (list.Arr? || !Truthy(list)) ==>
      r.Ok? && r.value.Arr? && |r.value.items| == |Entries(list)| + 1
    ensures (list.Arr? || !Truthy(list)) ==>
      forall j :: 0 <= j < |Entries(list)| ==> r.value.items[j] == Entries(list)[j]
    ensures r.Ok? ==> r.value.Arr? && r.value.items != [] && r.value.items[|r.value.items| - 1] == entry
  {
    match SpreadOrEmpty(list)
    case Ok(items) => Ok(Arr(items + [entry]))
    case TypeError => TypeError
  }

  /** `list?.filter((_, j) => j !== i)`: a missing list gives `undefined`,
      an array loses entry `i`, and anything else has no `filter`. */
  function RemoveEntry(list: Value, i: nat): (r: Outcome<Value>)
    ensures r.Ok? <==> list.Arr? || list == Undefined || list == Null
    ensures list == Undefined || list == Null ==> r == Ok(Undefined)
    ensures list.Arr? ==> r.Ok? && r.value.Arr?
    ensures list.Arr? && i < |list.items| ==>
      |r.value.items| == |list.items| - 1 &&
      (forall j :: 0 <= j < i ==> r.value.items[j] == list.items[j]) &&
      (forall j :: i <= j < |r.value.items| ==> r.value.items[j] == list.items[j + 1])
    ensures list.Arr? && i >= |list.items| ==> r.value == list
  {
    match list
    case Undefined => Ok(Undefined)
    case Null => Ok(Undefined)
    case Arr(items) => Ok(Arr(RemoveAt(items, i)))
    case _ => TypeError
  }

  /** The entries after assigning position `i` of a copied list: positions
      between the old end and `i` become holes. */
  function Padded(items: seq<Value>, i: nat): (r: seq<Value>)
    ensures |r| == if i < |items| then |items| else i + 1
    ensures forall j :: 0 <= j < |items| ==> r[j] == items[j]
    ensures forall j :: |items| <= j < |r| ==> r[j] == Undefined
  {
    if i < |items| then items else items + seq(i + 1 - |items|, _ => Undefined)
  }

  /** The entry at `i`, or `undefined` past the end. */
  function EntryAt(items: seq<Value>, i: nat): Value
  {
    if i < |items| then items[i] else Undefined
  }

  /** `copy = [...(list || [])]; if (!copy[i]) copy[i] = {}; copy[i][f] = v`.
      A falsy or missing entry is replaced by a fresh object; an object
      entry gets the field; an array entry takes a named property that is
      not an element; assigning to a text, number or boolean entry throws in
      strict mode. */
  function EditEntry(list: Value, i: nat, f: string, v: Value): (r: Outcome<Value>)
    ensures !(list.Arr? || list.Str? || !Truthy(list)) ==> r.TypeError?
    ensures (list.Arr? || !Truthy(list)) ==>
      var e := EntryAt(Entries(list), i);
      r.Ok? <==> !Truthy(e) || e.Obj? || e.Arr?
    ensures (list.Arr? || !Truthy(list)) && r.Ok? ==>
      r.value.Arr? &&
      |r.value.items| == (if i < |Entries(list)| then |Entries(list)| else i + 1)
    ensures (list.Arr? || !Truthy(list)) && r.Ok? ==>
      forall j :: 0 <= j < |Entries(list)| && j != i ==> r.value.items[j] == Entries(list)[j]
    ensures (list.Arr? || !Truthy(list)) && r.Ok? ==>
      forall j :: |Entries(list)| <= j < i ==> r.value.items[j] == Undefined
    ensures (list.Arr? || !Truthy(list)) && r.Ok? ==>
      var e := EntryAt(Entries(list), i);
      r.value.items[i] == (if e.Obj? then Obj(e.fields[f := v])
                           else if e.Arr? then e
                           else Obj(map[f := v]))
  {
    match SpreadOrEmpty(list)
    case TypeError => TypeError
    case Ok(items) =>
      var padded := Padded(items, i);
      var entry := if Truthy(padded[i]) then padded[i] else Obj(map[]);
      match SetProp(entry, f, v)
      case TypeError => TypeError
      case Ok(e) => Ok(Arr(padded[i := e]))
  }
}
