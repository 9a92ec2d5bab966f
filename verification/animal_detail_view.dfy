/**
 The detail view's normalisation of a record for display: fallback chains over
 the two field-naming conventions, the sex-code labels, fixed defaults, sample
 health and weight histories and the colour lookup of an information tile.
 */
module AnimalDetailView {
  import opened Js

  /** The object the view renders from (`displayAnimal`). */
  datatype DisplayAnimal = DisplayAnimal(
    name: Value,
    identifier: Value,
    kind: Value,
    breed: Value,
    gender: Value,
    birthDate: Value,
    weight: Value,
    height: Value,
    status: Value,
    location: Value,
    motherId: Value,
    fatherId: Value,
    image: Value)

  const DefaultPhoto := "https://images.unsplash.com/photo-1616842610498-6c5f606d69f9?w=800"

  /** `animal?.a || animal?.b || ... || fallback` over the named properties, left to right. */
  function FirstTruthy(animal: Option<Record>, sources: seq<string>, fallback: Value): (r: Value)
    ensures Truthy(r) || r == fallback
    ensures animal.None? ==> r == fallback
    ensures forall k :: 0 <= k < |sources| && Truthy(OptField(animal, sources[k]))
              && (forall j :: 0 <= j < k ==> !Truthy(OptField(animal, sources[j])))
              ==> r == OptField(animal, sources[k])
    ensures (forall j :: 0 <= j < |sources| ==> !Truthy(OptField(animal, sources[j]))) ==> r == fallback
    decreases |sources|
  {
    if sources == [] then fallback
    else Or(OptField(animal, sources[0]), FirstTruthy(animal, sources[1..], fallback))
  }

  /** The label for a sex code: "M" and "F" are spelled out, anything else passes through. */
  function SexLabel(sex: Value): Value {
    if sex == Str("M") then Str("Macho")
    else if sex == Str("F") then Str("Hembra")
    else sex
  }

  /** The `gender` entry: the record's own gender, else the labelled sex code, else "N/A". */
  function GenderText(animal: Option<Record>): (r: Value)
    ensures Truthy(OptField(animal, "gender")) ==> r == OptField(animal, "gender")
    ensures !Truthy(OptField(animal, "gender")) && OptField(animal, "sex") == Str("M") ==> r == Str("Macho")
    ensures !Truthy(OptField(animal, "gender")) && OptField(animal, "sex") == Str("F") ==> r == Str("Hembra")
    ensures !Truthy(OptField(animal, "gender")) && Truthy(OptField(animal, "sex"))
            && OptField(animal, "sex") != Str("M") && OptField(animal, "sex") != Str("F")
            ==> r == OptField(animal, "sex")
    ensures !Truthy(OptField(animal, "gender")) && !Truthy(OptField(animal, "sex")) ==> r == Str("N/A")
  {
    Or(Or(OptField(animal, "gender"), SexLabel(OptField(animal, "sex"))), Str("N/A"))
  }

  /**
   `displayAnimal`. The locale-dependent rendering of the birth date
   (`new Date(d).toLocaleDateString()`) is the parameter `formatDate`.
   */
  function Display(animal: Option<Record>, formatDate: Value -> string): (d: DisplayAnimal)
    ensures animal.None? ==> d == DisplayAnimal(
              Str("Sin Nombre"), Str("N/A"), Str("Desconocido"), Str("Desconocida"), Str("N/A"), Str("N/A"),
              Num(0), Num(0), Str("Desconocido"), Str("Sin asignar"), Str("N/A"), Str("N/A"), Str(DefaultPhoto))
    ensures Truthy(OptField(animal, "birthDate")) ==> d.birthDate == Str(formatDate(OptField(animal, "birthDate")))
    ensures !Truthy(OptField(animal, "birthDate")) ==> d.birthDate == Str("N/A")
    ensures d.gender == GenderText(animal)
  {
    DisplayAnimal(
      name := Or(OptField(animal, "name"), Str("Sin Nombre")),
      identifier := Or(Or(OptField(animal, "identifier"), OptField(animal, "visualCode")), Str("N/A")),
      kind := Or(Or(OptField(animal, "type"), OptField(animal, "categoryName")), Str("Desconocido")),
      breed := Or(Or(OptField(animal, "breed"), OptField(animal, "breedName")), Str("Desconocida")),
      gender := GenderText(animal),
      birthDate := if Truthy(OptField(animal, "birthDate")) then Str(formatDate(OptField(animal, "birthDate"))) else Str("N/A"),
      weight := Or(OptField(animal, "weight"), Num(0)),
      height := Or(OptField(animal, "height"), Num(0)),
      status := Or(Or(OptField(animal, "status"), OptField(animal, "currentStatus")), Str("Desconocido")),
      location := Or(Or(OptField(animal, "location"), OptField(animal, "paddockName")), Str("Sin asignar")),
      motherId := Or(OptField(animal, "motherId"), Str("N/A")),
      fatherId := Or(OptField(animal, "fatherId"), Str("N/A")),
      image := Or(OptField(animal, "image"), Str(DefaultPhoto)))
  }

  /** One row of the precedence table: the displayed entry, the record properties tried in order, the default. */
  datatype FieldRule = FieldRule(entry: string, sources: seq<string>, fallback: Value)

  /** The precedence table of every entry that is a plain fallback chain. */
  const Precedence: seq<FieldRule> := [
    FieldRule("name", ["name"], Str("Sin Nombre")),
    FieldRule("identifier", ["identifier", "visualCode"], Str("N/A")),
    FieldRule("type", ["type", "categoryName"], Str("Desconocido")),
    FieldRule("breed", ["breed", "breedName"], Str("Desconocida")),
    FieldRule("weight", ["weight"], Num(0)),
    FieldRule("height", ["height"], Num(0)),
    FieldRule("status", ["status", "currentStatus"], Str("Desconocido")),
    FieldRule("location", ["location", "paddockName"], Str("Sin asignar")),
    FieldRule("motherId", ["motherId"], Str("N/A")),
    FieldRule("fatherId", ["fatherId"], Str("N/A")),
    FieldRule("image", ["image"], Str(DefaultPhoto))
  ]

  /** The entry of `displayAnimal` with the given key. */
  function Entry(d: DisplayAnimal, entry: string): Value {
    match entry
    case "name" => d.name
    case "identifier" => d.identifier
    case "type" => d.kind
    case "breed" => d.breed
    case "gender" => d.gender
    case "birthDate" => d.birthDate
    case "weight" => d.weight
    case "height" => d.height
    case "status" => d.status
    case "location" => d.location
    case "motherId" => d.motherId
    case "fatherId" => d.fatherId
    case "image" => d.image
    case _ => Undefined
  }

  lemma FirstTruthyOne(animal: Option<Record>, a: string, fallback: Value)
    ensures FirstTruthy(animal, [a], fallback) == Or(OptField(animal, a), fallback)
  {
    assert [a][1..] == [];
  }

  lemma FirstTruthyTwo(animal: Option<Record>, a: string, b: string, fallback: Value)
    ensures FirstTruthy(animal, [a, b], fallback) == Or(Or(OptField(animal, a), OptField(animal, b)), fallback)
  {
    assert [a, b][1..] == [b];
    FirstTruthyOne(animal, b, fallback);
  }

  /**
   Every entry of the precedence table holds of `displayAnimal`: the first
   truthy property in the listed order, else the entry's default.
   */
  lemma DisplayFollowsPrecedence(animal: Option<Record>, formatDate: Value -> string, i: nat)
    requires i < |Precedence|
    ensures Entry(Display(animal, formatDate), Precedence[i].entry)
            == FirstTruthy(animal, Precedence[i].sources, Precedence[i].fallback)
  {
    var rule := Precedence[i];
    if |rule.sources| == 1 {
      FirstTruthyOne(animal, rule.sources[0], rule.fallback);
      assert rule.sources == [rule.sources[0]];
    } else {
      FirstTruthyTwo(animal, rule.sources[0], rule.sources[1], rule.fallback);
      assert rule.sources == [rule.sources[0], rule.sources[1]];
    }
  }

  /** A missing or zero weight or height shows as 0; any other value shows unchanged. */
  lemma WeightAndHeightDefaultToZero(animal: Option<Record>, formatDate: Value -> string)
    ensures var d := Display(animal, formatDate);
            (!Truthy(OptField(animal, "weight")) ==> d.weight == Num(0))
            && (Truthy(OptField(animal, "weight")) ==> d.weight == OptField(animal, "weight"))
            && (!Truthy(OptField(animal, "height")) ==> d.height == Num(0))
            && (Truthy(OptField(animal, "height")) ==> d.height == OptField(animal, "height"))
  {
    DisplayFollowsPrecedence(animal, formatDate, 4);
    DisplayFollowsPrecedence(animal, formatDate, 5);
    FirstTruthyOne(animal, "weight", Num(0));
    FirstTruthyOne(animal, "height", Num(0));
  }

  /** The sample entry shown when a record carries no health records. */
  const SampleHealthRecord: Value := Obj(map[
    "date" := Str("2024-12-01"),
    "type" := Str("Vacunación"),
    "description" := Str("Registro de ejemplo"),
    "veterinarian" := Str("N/A")])

  /** `healthRecords`: the record's own list when truthy, else exactly one sample record. */
  function HealthRecords(animal: Option<Record>): (r: Value)
    ensures !Truthy(OptField(animal, "healthRecords")) ==> r == Arr([SampleHealthRecord])
    ensures Truthy(OptField(animal, "healthRecords")) ==> r == OptField(animal, "healthRecords")
    ensures Truthy(r)
  {
    Or(OptField(animal, "healthRecords"), Arr([SampleHealthRecord]))
  }

  /**
   `weightHistory`: the record's own history when truthy, else one "Actual"
   entry at the weight `displayAnimal` shows for the same record, which is the
   record's truthy weight or 0.
   */
  function WeightHistory(animal: Option<Record>, formatDate: Value -> string): (r: Value)
    ensures !Truthy(OptField(animal, "weightHistory"))
            ==> r.Arr? && |r.items| == 1 && r.items[0].Obj?
                && r.items[0].fields.Keys == {"date", "weight"}
                && r.items[0].fields["date"] == Str("Actual")
                && r.items[0].fields["weight"] == Display(animal, formatDate).weight
                && (Truthy(OptField(animal, "weight")) ==> r.items[0].fields["weight"] == OptField(animal, "weight"))
                && (!Truthy(OptField(animal, "weight")) ==> r.items[0].fields["weight"] == Num(0))
    ensures Truthy(OptField(animal, "weightHistory")) ==> r == OptField(animal, "weightHistory")
  {
    WeightAndHeightDefaultToZero(animal, formatDate);
    var shown := Display(animal, formatDate);
    Or(OptField(animal, "weightHistory"), Arr([Obj(map["date" := Str("Actual"), "weight" := shown.weight])]))
  }

  /** The background and text classes of an information tile. */
  datatype ColorClasses = ColorClasses(bg: string, text: string)

  /** The palette of `InfoItem`, by colour name. */
  const InfoPalette: map<string, ColorClasses> := map[
    "blue" := ColorClasses("bg-blue-50", "text-blue-600"),
    "purple" := ColorClasses("bg-purple-50", "text-purple-600"),
    "orange" := ColorClasses("bg-orange-50", "text-orange-600"),
    "green" := ColorClasses("bg-green-50", "text-green-600"),
    "teal" := ColorClasses("bg-teal-50", "text-teal-600"),
    "pink" := ColorClasses("bg-pink-50", "text-pink-600")]

  /** `InfoItem`'s colour lookup: a palette colour gives its shades, any other key the gray ones. */
  function InfoColor(color: string): (r: ColorClasses)
    ensures var c := if color in InfoPalette then color else "gray";
            r.bg == "bg-" + c + "-50" && r.text == "text-" + c + "-600"
  {
    if color in InfoPalette then InfoPalette[color] else ColorClasses("bg-gray-50", "text-gray-600")
  }
}
