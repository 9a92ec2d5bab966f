/**
 The form's validation schema: five required text fields and two required,
 strictly positive numbers, each with its own message. A verdict is computed
 for every field, as a validation that does not stop at the first error
 reports them.
 */
module AnimalSchema {
  import opened Js

  /** The seven fields the schema names. */
  datatype SchemaField = Name | Identifier | Type | Breed | Age | Weight | Status

  /** The property of the validated object each field reads. */
  function Key(field: SchemaField): string {
    match field
    case Name => "name"
    case Identifier => "identifier"
    case Type => "type"
    case Breed => "breed"
    case Age => "age"
    case Weight => "weight"
    case Status => "status"
  }

  const PositiveMessage := "Debe ser positivo"

  /** `age` and `weight` are numbers that must be positive; the other five are text. */
  predicate IsNumeric(field: SchemaField) {
    field == Age || field == Weight
  }

  /** Each field's own message for a missing value. */
  function RequiredMessage(field: SchemaField): string {
    match field
    case Name => "El nombre es requerido"
    case Identifier => "El identificador es requerido"
    case Type => "El tipo es requerido"
    case Breed => "La raza es requerida"
    case Age => "La edad es requerida"
    case Weight => "El peso es requerido"
    case Status => "El estado es requerido"
  }

  /** Why a field fails: one of the schema's own messages, or a value of the wrong type. */
  datatype Issue = Message(text: string) | WrongType

  /** The value of a string of decimal digits with an optional leading minus sign. */
  function ParseInteger(s: string): Option<int> {
    if |s| > 0 && s[0] == '-' then
      match ParseDigits(s[1..])
      case Some(n) => Some(-(n as int))
      case None => None
    else
      match ParseDigits(s)
      case Some(n) => Some(n as int)
      case None => None
  }

  function ParseDigits(s: string): Option<nat>
    decreases |s|
  {
    if s == [] || !('0' <= s[|s| - 1] <= '9') then None
    else
      var d := (s[|s| - 1] as int) - ('0' as int);
      if |s| == 1 then Some(d)
      else match ParseDigits(s[..|s| - 1])
        case Some(n) => Some(n * 10 + d)
        case None => None
  }

  /** The number a numeric field's value casts to, if any. */
  function AsNumber(v: Value): Option<int> {
    match v
    case Num(n) => Some(n)
    case Str(s) => ParseInteger(s)
    case _ => None
  }

  /** A required text field: a missing or empty value fails; numbers and booleans cast to text. */
  function CheckText(v: Value, requiredMessage: string): (r: Option<Issue>)
    ensures r.None? <==> PresentText(v)
    ensures Nullish(v) || v == Str("") ==> r == Some(Message(requiredMessage))
    ensures v.Arr? || v.Obj? ==> r == Some(WrongType)
  {
    match v
    case Undefined => Some(Message(requiredMessage))
    case Null => Some(Message(requiredMessage))
    case Str(s) => if s == "" then Some(Message(requiredMessage)) else None
    case Num(_) => None
    case Bool(_) => None
    case Arr(_) => Some(WrongType)
    case Obj(_) => Some(WrongType)
  }

  /** A required positive number: missing fails, a non-number is a type error, zero and below are not positive. */
  function CheckPositive(v: Value, requiredMessage: string): (r: Option<Issue>)
    ensures r.None? <==> PositiveValue(v)
    ensures Nullish(v) ==> r == Some(Message(requiredMessage))
    ensures !Nullish(v) && AsNumber(v).None? ==> r == Some(WrongType)
    ensures AsNumber(v).Some? && AsNumber(v).value <= 0 ==> r == Some(Message(PositiveMessage))
  {
    if Nullish(v) then Some(Message(requiredMessage))
    else match AsNumber(v)
      case None => Some(WrongType)
      case Some(n) => if n > 0 then None else Some(Message(PositiveMessage))
  }

  function CheckField(field: SchemaField, v: Value): Option<Issue> {
    if IsNumeric(field) then CheckPositive(v, RequiredMessage(field))
    else CheckText(v, RequiredMessage(field))
  }

  /** The verdict on an object: the issue of every failing field. */
  function Validate(obj: Record): (errors: map<SchemaField, Issue>)
    ensures forall f :: f in errors ==> CheckField(f, Field(obj, Key(f))) == Some(errors[f])
    ensures forall f :: CheckField(f, Field(obj, Key(f))).Some? ==> f in errors
  {
    map f: SchemaField | CheckField(f, Field(obj, Key(f))).Some? :: CheckField(f, Field(obj, Key(f))).value
  }

  /** A text field holds something the schema accepts as non-empty text. */
  predicate PresentText(v: Value) {
    (v.Str? && v.s != "") || v.Num? || v.Bool?
  }

  /** A numeric field holds a number above zero. */
  predicate PositiveValue(v: Value) {
    AsNumber(v).Some? && AsNumber(v).value > 0
  }

  /** What a single field accepts. */
  lemma {:induction false} FieldPassesIff(f: SchemaField, v: Value)
    ensures CheckField(f, v).None? <==> if IsNumeric(f) then PositiveValue(v) else PresentText(v)
  {
    if IsNumeric(f) {
      if !Nullish(v) && AsNumber(v).Some? {
        assert CheckField(f, v) == CheckPositive(v, RequiredMessage(f));
      }
    }
  }

  /** No field fails. */
  predicate AllFieldsPass(obj: Record) {
    forall f: SchemaField :: CheckField(f, Field(obj, Key(f))).None?
  }

  /**
   An object passes exactly when the five text fields are present and
   non-empty and `age` and `weight` are numbers above zero (so 0 fails).
   */
  lemma {:induction false} PassesIffComplete(obj: Record)
    ensures Validate(obj) == map[] <==>
              && PresentText(Field(obj, "name")) && PresentText(Field(obj, "identifier"))
              && PresentText(Field(obj, "type")) && PresentText(Field(obj, "breed"))
              && PresentText(Field(obj, "status"))
              && PositiveValue(Field(obj, "age")) && PositiveValue(Field(obj, "weight"))
  {
    EmptyIffAllPass(obj);
    FieldPassesIff(Name, Field(obj, "name"));
    FieldPassesIff(Identifier, Field(obj, "identifier"));
    FieldPassesIff(Type, Field(obj, "type"));
    FieldPassesIff(Breed, Field(obj, "breed"));
    FieldPassesIff(Status, Field(obj, "status"));
    FieldPassesIff(Age, Field(obj, "age"));
    FieldPassesIff(Weight, Field(obj, "weight"));
    if AllFieldsPass(obj) {
      assert CheckField(Name, Field(obj, Key(Name))).None?;
      assert CheckField(Identifier, Field(obj, Key(Identifier))).None?;
      assert CheckField(Type, Field(obj, Key(Type))).None?;
      assert CheckField(Breed, Field(obj, Key(Breed))).None?;
      assert CheckField(Status, Field(obj, Key(Status))).None?;
      assert CheckField(Age, Field(obj, Key(Age))).None?;
      assert CheckField(Weight, Field(obj, Key(Weight))).None?;
    } else {
      var f: SchemaField :| CheckField(f, Field(obj, Key(f))).Some?;
      FieldPassesIff(f, Field(obj, Key(f)));
    }
  }

  lemma EmptyIffAllPass(obj: Record)
    ensures Validate(obj) == map[] <==> AllFieldsPass(obj)
  {
    if !AllFieldsPass(obj) {
      var f: SchemaField :| CheckField(f, Field(obj, Key(f))).Some?;
      assert f in Validate(obj);
    }
  }

  /**
   A failing field reports only its own required message, the shared
   "must be positive" message (numeric fields only) or a type error: never the
   required message of another field.
   */
  lemma OwnMessagesOnly(obj: Record, f: SchemaField)
    requires f in Validate(obj)
    ensures var issue := Validate(obj)[f];
            issue == Message(RequiredMessage(f))
            || (IsNumeric(f) && issue == Message(PositiveMessage))
            || issue == WrongType
    ensures forall g :: g != f ==> Validate(obj)[f] != Message(RequiredMessage(g))
  {
  }
}
