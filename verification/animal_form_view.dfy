/**
 The create/edit form's state: the initial field values taken from the record
 being edited, the shallow-merge hydration when that record arrives, the
 single-field update and the submission of the current values.
 */
module AnimalFormView {
  import opened Js

  /** The form's values, by field name. */
  type FormData = map<string, Value>

  /**
   `iso.split("T")[0]`: the text before the first "T", or all of it when
   there is none.
   */
  function DatePart(iso: string): (r: string)
    ensures |r| <= |iso| && r == iso[..|r|]
    ensures 'T' !in r
    ensures |r| < |iso| ==> iso[|r|] == 'T'
    decreases |iso|
  {
    if iso == [] || iso[0] == 'T' then ""
    else [iso[0]] + DatePart(iso[1..])
  }

  /**
   The form's value for a stored date: the date part of its ISO form when the
   date is truthy. `new Date(d).toISOString()` is the parameter `toIso`.
   */
  function FormDate(raw: Value, toIso: Value -> string): Value {
    if Truthy(raw) then Str(DatePart(toIso(raw))) else Str("")
  }

  /** The value each field takes when the record does not supply a truthy one. */
  const FieldDefaults: map<string, Value> := map[
    "name" := Str(""),
    "identifier" := Str(""),
    "type" := Str("Bovino"),
    "breed" := Str(""),
    "gender" := Str("Macho"),
    "birthDate" := Str(""),
    "weight" := Str(""),
    "height" := Str(""),
    "location" := Str(""),
    "motherId" := Str(""),
    "fatherId" := Str(""),
    "status" := Str("Saludable"),
    "notes" := Str("")]

  /** `isEdit`: the form edits an existing animal exactly when an id was given. */
  function IsEdit(animalId: Value): (r: bool)
    ensures r <==> !Nullish(animalId) && animalId != Str("") && animalId != Num(0) && animalId != Bool(false)
  {
    Truthy(animalId)
  }

  /**
   The form state on first render, from the record being edited (absent when
   creating): each field takes the record's value when it is truthy and its
   default otherwise, and the birth date is converted.
   */
  function InitialForm(initialData: Option<Record>, toIso: Value -> string): (f: FormData)
    ensures f.Keys == FieldDefaults.Keys
    ensures forall k :: k in FieldDefaults && k != "birthDate" ==> f[k] == Or(OptField(initialData, k), FieldDefaults[k])
    ensures f["birthDate"] == FormDate(OptField(initialData, "birthDate"), toIso)
    ensures initialData.None? ==> f == FieldDefaults
  {
    map k | k in FieldDefaults ::
      if k == "birthDate" then FormDate(OptField(initialData, k), toIso)
      else Or(OptField(initialData, k), FieldDefaults[k])
  }

  /**
   The state after the hydration effect: `{...prev, ...initialData, birthDate}`,
   where the birth date is converted when the record has a truthy one and is
   otherwise the previous form value.
   */
  function Hydrated(prev: FormData, initialData: Option<Record>, toIso: Value -> string): (f: FormData)
    ensures initialData.None? ==> f == prev
    ensures initialData.Some? ==> f.Keys == prev.Keys + initialData.value.Keys + {"birthDate"}
    ensures initialData.Some? ==>
              forall k :: k in initialData.value && k != "birthDate" ==> f[k] == initialData.value[k]
    ensures initialData.Some? ==>
              forall k :: k in prev && k !in initialData.value && k != "birthDate" ==> f[k] == prev[k]
    ensures initialData.Some? && Truthy(Field(initialData.value, "birthDate")) ==>
              f["birthDate"] == Str(DatePart(toIso(Field(initialData.value, "birthDate"))))
    ensures initialData.Some? && !Truthy(Field(initialData.value, "birthDate")) ==>
              f["birthDate"] == Field(prev, "birthDate")
  {
    match initialData
    case None => prev
    case Some(rec) =>
      var birthDate := Field(rec, "birthDate");
      (prev + rec)["birthDate" := if Truthy(birthDate) then Str(DatePart(toIso(birthDate))) else Field(prev, "birthDate")]
  }

  /**
   On mount the effect runs right after the first render, so the form shows
   every value the record carries, falsy ones included: a default survives
   only for a field the record does not have at all.
   */
  lemma MountedFormShowsRecord(rec: Record, toIso: Value -> string)
    ensures var f := Hydrated(InitialForm(Some(rec), toIso), Some(rec), toIso);
            && f.Keys == FieldDefaults.Keys + rec.Keys
            && (forall k :: k in rec && k != "birthDate" ==> f[k] == rec[k])
            && (forall k :: k in FieldDefaults && k !in rec ==> f[k] == FieldDefaults[k])
            && f["birthDate"] == FormDate(Field(rec, "birthDate"), toIso)
  {
    var init := InitialForm(Some(rec), toIso);
    var f := Hydrated(init, Some(rec), toIso);
    forall k | k in FieldDefaults && k !in rec ensures f[k] == FieldDefaults[k] {
      assert OptField(Some(rec), k) == Undefined;
      if k == "birthDate" {
        assert Field(rec, "birthDate") == Undefined;
      }
    }
  }

  /** Hydrating twice with the same record gives the same form as hydrating once. */
  lemma HydrationIdempotent(prev: FormData, initialData: Option<Record>, toIso: Value -> string)
    ensures Hydrated(Hydrated(prev, initialData, toIso), initialData, toIso) == Hydrated(prev, initialData, toIso)
  {
    if initialData.Some? {
      var rec := initialData.value;
      var once := Hydrated(prev, initialData, toIso);
      var twice := Hydrated(once, initialData, toIso);
      assert twice.Keys == once.Keys;
      forall k | k in once ensures twice[k] == once[k] {
        if k == "birthDate" && !Truthy(Field(rec, "birthDate")) {
          assert Field(once, "birthDate") == once["birthDate"];
        }
      }
    }
  }

  /** The form component's state: its two state hooks and the `isEdit` flag derived from the route. */
  class AnimalForm {
    const isEdit: bool
    var formData: FormData
    var imagePreview: Value

    /** First render with the `animalId` and `initialData` props. */
    constructor (animalId: Value, initialData: Option<Record>, toIso: Value -> string)
      ensures isEdit == IsEdit(animalId)
      ensures formData == InitialForm(initialData, toIso)
      ensures imagePreview == Or(OptField(initialData, "image"), Null)
    {
      isEdit := Truthy(animalId);
      formData := InitialForm(initialData, toIso);
      imagePreview := Or(OptField(initialData, "image"), Null);
    }

    /** The hydration effect, run whenever the `initialData` prop changes. */
    method OnInitialData(initialData: Option<Record>, toIso: Value -> string)
      modifies this
      ensures formData == Hydrated(old(formData), initialData, toIso)
      ensures initialData.Some? && Truthy(Field(initialData.value, "image"))
              ==> imagePreview == Field(initialData.value, "image")
      ensures initialData.None? || !Truthy(Field(initialData.value, "image"))
              ==> imagePreview == old(imagePreview)
    {
      if initialData.Some? {
        var rec := initialData.value;
        var prev := formData;
        var birthDate := Field(rec, "birthDate");
        formData := prev + rec;
        formData := formData["birthDate" := if Truthy(birthDate) then Str(DatePart(toIso(birthDate))) else Field(prev, "birthDate")];
        if Truthy(Field(rec, "image")) {
          imagePreview := Field(rec, "image");
        }
      }
    }

    /** `handleChange(field, value)`: sets that one field and nothing else. */
    method HandleChange(field: string, value: Value)
      modifies this
      ensures formData == old(formData)[field := value]
      ensures forall k :: k in old(formData) && k != field ==> formData[k] == old(formData)[k]
      ensures imagePreview == old(imagePreview)
    {
      formData := formData[field := value];
    }

    /** `handleSubmit`: what is handed to `onSave` is the current form state, untouched. */
    method HandleSubmit() returns (submitted: FormData)
      ensures submitted == formData
    {
      submitted := formData;
    }
  }
}
