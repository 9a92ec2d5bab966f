/**
 The pure logic of the animals list view: the search-and-type filter applied to
 the list, the status badge colours and the choice of a picture for a card.
 */
module AnimalsListView {
  import opened Js

  // ---------------------------------------------------------------------------
  // Search and type filter

  /** `Array.isArray(animals) ? animals : []`. */
  function SafeAnimals(animals: Value): seq<Value> {
    if animals.Arr? then animals.items else []
  }

  /** `animal.name || ""`. */
  function NameText(animal: Value): Value {
    Or(OptGet(animal, "name"), Str(""))
  }

  /** `animal.identifier || animal.visualCode || ""`. */
  function IdentifierText(animal: Value): Value {
    Or(Or(OptGet(animal, "identifier"), OptGet(animal, "visualCode")), Str(""))
  }

  /** `animal.type || animal.categoryName || ""`. */
  function TypeText(animal: Value): Value {
    Or(Or(OptGet(animal, "type"), OptGet(animal, "categoryName")), Str(""))
  }

  /** The type filter: "all" lets everything through, any other value must equal the type exactly. */
  predicate TypeHit(animal: Value, filterType: string) {
    filterType == "all" || TypeText(animal) == Str(filterType)
  }

  /** An animal whose name and identifier fall back to strings, so that lower-casing them cannot throw. */
  predicate Searchable(animal: Value) {
    !Nullish(animal) && NameText(animal).Str? && IdentifierText(animal).Str?
  }

  /** The search: the lower-cased term occurs in the lower-cased name or identifier. */
  predicate SearchHit(animal: Value, searchTerm: string)
    requires Searchable(animal)
  {
    Includes(Lower(NameText(animal).s), Lower(searchTerm))
    || Includes(Lower(IdentifierText(animal).s), Lower(searchTerm))
  }

  /**
   The filter callback, evaluated as JavaScript does: reading a property of a
   nullish element throws, and so does lower-casing a truthy name that is not a
   string. The identifier is lower-cased only when the name did not match.
   */
  function Matches(animal: Value, searchTerm: string, filterType: string): (r: Result<bool>)
    ensures r.Throws? <==>
              Nullish(animal) || !NameText(animal).Str?
              || (!Includes(Lower(NameText(animal).s), Lower(searchTerm)) && !IdentifierText(animal).Str?)
    ensures r.Ok? ==>
              r.value == ((Includes(Lower(NameText(animal).s), Lower(searchTerm))
                           || Includes(Lower(IdentifierText(animal).s), Lower(searchTerm)))
                          && TypeHit(animal, filterType))
    ensures Searchable(animal) ==> r == Ok(SearchHit(animal, searchTerm) && TypeHit(animal, filterType))
    ensures r == Ok(true) ==> TypeHit(animal, filterType)
  {
    if Nullish(animal) then Throws(TypeError)
    else
      var term := Lower(searchTerm);
      match ToLowerCase(NameText(animal))
      case Throws(e) => Throws(e)
      case Ok(name) =>
        var matchesSearch :=
          if Includes(name, term) then Ok(true)
          else match ToLowerCase(IdentifierText(animal))
            case Throws(e) => Throws(e)
            case Ok(identifier) => Ok(Includes(identifier, term));
        match matchesSearch
        case Throws(e) => Throws(e)
        case Ok(hit) => Ok(hit && (filterType == "all" || TypeText(animal) == Str(filterType)))
  }

  /** `items.filter(...)`: the elements the callback keeps, in order; a throwing callback throws. */
  function FilterAnimals(items: seq<Value>, searchTerm: string, filterType: string): (r: Result<seq<Value>>)
    ensures r.Ok? ==> |r.value| <= |items|
    ensures r.Ok? ==> forall i :: 0 <= i < |r.value| ==> Matches(r.value[i], searchTerm, filterType) == Ok(true)
    decreases |items|
  {
    if items == [] then Ok([])
    else
      match Matches(items[0], searchTerm, filterType)
      case Throws(e) => Throws(e)
      case Ok(keep) =>
        match FilterAnimals(items[1..], searchTerm, filterType)
        case Throws(e) => Throws(e)
        case Ok(rest) => Ok(if keep then [items[0]] + rest else rest)
  }

  /** `filteredAnimals` for the `animals` prop, whatever value it holds. */
  function FilteredAnimals(animals: Value, searchTerm: string, filterType: string): (r: Result<seq<Value>>)
    ensures !animals.Arr? ==> r == Ok([])
  {
    FilterAnimals(SafeAnimals(animals), searchTerm, filterType)
  }

  /** `r` is obtained from `s` by deleting elements, keeping the order of the rest. */
  predicate IsSubsequence(r: seq<Value>, s: seq<Value>)
    decreases |s|
  {
    if r == [] then true
    else if s == [] then false
    else (r[0] == s[0] && IsSubsequence(r[1..], s[1..])) || IsSubsequence(r, s[1..])
  }

  /** The filtered list is a subsequence of the input, in the input's order. */
  lemma {:induction false} FilterIsSubsequence(items: seq<Value>, searchTerm: string, filterType: string)
    requires FilterAnimals(items, searchTerm, filterType).Ok?
    ensures IsSubsequence(FilterAnimals(items, searchTerm, filterType).value, items)
    decreases |items|
  {
    if items != [] {
      FilterIsSubsequence(items[1..], searchTerm, filterType);
      var rest := FilterAnimals(items[1..], searchTerm, filterType).value;
      SubsequenceOfTail(rest, items);
    }
  }

  lemma {:induction false} SubsequenceOfTail(r: seq<Value>, s: seq<Value>)
    requires s != [] && IsSubsequence(r, s[1..])
    ensures IsSubsequence(r, s) && IsSubsequence([s[0]] + r, s)
  {
    assert ([s[0]] + r)[1..] == r;
  }

  /**
   When the filter does not throw, every callback returned a value, and each
   input element occurs in the result exactly as often as in the input when the
   callback keeps it, and not at all otherwise.
   */
  lemma {:induction false} FilterKeepsExactlyTheMatches(items: seq<Value>, searchTerm: string, filterType: string)
    requires FilterAnimals(items, searchTerm, filterType).Ok?
    ensures forall i :: 0 <= i < |items| ==> Matches(items[i], searchTerm, filterType).Ok?
    ensures forall x :: multiset(FilterAnimals(items, searchTerm, filterType).value)[x]
                        == if Matches(x, searchTerm, filterType) == Ok(true) then multiset(items)[x] else 0
    decreases |items|
  {
    if items == [] {
    } else {
      FilterKeepsExactlyTheMatches(items[1..], searchTerm, filterType);
      assert items == [items[0]] + items[1..];
      forall i | 0 <= i < |items| ensures Matches(items[i], searchTerm, filterType).Ok? {
        if i > 0 {
          assert items[i] == items[1..][i - 1];
        }
      }
    }
  }

  /** The filter throws exactly when the callback throws on some element. */
  lemma {:induction false} FilterThrowsIffSomeElementThrows(items: seq<Value>, searchTerm: string, filterType: string)
    ensures FilterAnimals(items, searchTerm, filterType).Throws?
            <==> exists i :: 0 <= i < |items| && Matches(items[i], searchTerm, filterType).Throws?
    decreases |items|
  {
    if items != [] {
      FilterThrowsIffSomeElementThrows(items[1..], searchTerm, filterType);
      if exists i :: 0 <= i < |items[1..]| && Matches(items[1..][i], searchTerm, filterType).Throws? {
        var i :| 0 <= i < |items[1..]| && Matches(items[1..][i], searchTerm, filterType).Throws?;
        assert Matches(items[i + 1], searchTerm, filterType).Throws?;
      }
      if exists i :: 0 <= i < |items| && Matches(items[i], searchTerm, filterType).Throws? {
        var i :| 0 <= i < |items| && Matches(items[i], searchTerm, filterType).Throws?;
        if i > 0 {
          assert Matches(items[1..][i - 1], searchTerm, filterType).Throws?;
        }
      }
    }
  }

  /**
   With the initial search term "" and filter "all", every animal whose name
   falls back to a string is shown: the empty term occurs in every name, so the
   identifier is never lower-cased.
   */
  lemma {:induction false} EmptySearchKeepsEverything(items: seq<Value>)
    requires forall i :: 0 <= i < |items| ==> !Nullish(items[i]) && NameText(items[i]).Str?
    ensures FilteredAnimals(Arr(items), "", "all") == Ok(items)
    decreases |items|
  {
    if items != [] {
      IncludesEmpty(Lower(NameText(items[0]).s));
      assert Lower("") == "";
      EmptySearchKeepsEverything(items[1..]);
      assert [items[0]] + items[1..] == items;
    }
  }

  // ---------------------------------------------------------------------------
  // Status badge colour

  const HealthyClasses := "bg-green-100 text-green-700 border-green-200"
  const TreatmentClasses := "bg-red-100 text-red-700 border-red-200"
  const ObservationClasses := "bg-yellow-100 text-yellow-700 border-yellow-200"
  const OtherStatusClasses := "bg-gray-100 text-gray-700 border-gray-200"

  /** `getStatusColor`: a `switch` with strict comparison on the status value. */
  function StatusColor(status: Value): (r: string)
    ensures r == HealthyClasses <==> status == Str("Saludable")
    ensures r == TreatmentClasses <==> status == Str("En Tratamiento")
    ensures r == ObservationClasses <==> status == Str("Observación")
    ensures r == OtherStatusClasses <==>
              status != Str("Saludable") && status != Str("En Tratamiento") && status != Str("Observación")
  {
    match status
    case Str("Saludable") => HealthyClasses
    case Str("En Tratamiento") => TreatmentClasses
    case Str("Observación") => ObservationClasses
    case _ => OtherStatusClasses
  }

  // ---------------------------------------------------------------------------
  // Card picture

  const BovineImage := "https://images.unsplash.com/photo-1546445317-29f4545e9d53?q=80&w=800&auto=format&fit=crop"
  const PorcineImage := "https://images.unsplash.com/photo-1516467508483-a7212febe31a?q=80&w=800&auto=format&fit=crop"
  const OvineImage := "https://images.unsplash.com/photo-1484557939439-5838d70889ec?q=80&w=800&auto=format&fit=crop"
  const PoultryImage := "https://images.unsplash.com/photo-1548550023-2bdb3c5beed7?q=80&w=800&auto=format&fit=crop"
  const EquineImage := "https://images.unsplash.com/photo-1553284965-83fd3e82fa5a?q=80&w=800&auto=format&fit=crop"
  const DefaultImage := "https://images.unsplash.com/photo-1545468800-85cc9bc6ecf7?q=80&w=800&auto=format&fit=crop"

  /** One row of the classifier: any of the keywords selects the picture. */
  datatype KeywordGroup = KeywordGroup(keywords: seq<string>, image: string)

  /** The classifier as a table, in the order the groups are tried. */
  const KeywordGroups: seq<KeywordGroup> := [
    KeywordGroup(["bovino", "vaca", "toro"], BovineImage),
    KeywordGroup(["porcino", "cerdo"], PorcineImage),
    KeywordGroup(["ovino", "oveja"], OvineImage),
    KeywordGroup(["avicultura", "pollo", "gallina"], PoultryImage),
    KeywordGroup(["equino", "caballo"], EquineImage)
  ]

  predicate MentionsAny(t: string, keywords: seq<string>) {
    exists k :: 0 <= k < |keywords| && Includes(t, keywords[k])
  }

  /** Reference reading of the table: the picture of the first group a keyword of which occurs in `t`. */
  function FirstGroupImage(t: string, groups: seq<KeywordGroup>): (r: string)
    ensures r == DefaultImage || exists g :: 0 <= g < |groups| && r == groups[g].image
    ensures forall g :: 0 <= g < |groups| && MentionsAny(t, groups[g].keywords)
              && (forall h :: 0 <= h < g ==> !MentionsAny(t, groups[h].keywords))
              ==> r == groups[g].image
    ensures (forall g :: 0 <= g < |groups| ==> !MentionsAny(t, groups[g].keywords)) ==> r == DefaultImage
    ensures (forall g :: 0 <= g < |groups| ==> groups[g].image != DefaultImage)
            ==> (r == DefaultImage <==> forall g :: 0 <= g < |groups| ==> !MentionsAny(t, groups[g].keywords))
    decreases |groups|
  {
    if groups == [] then DefaultImage
    else if MentionsAny(t, groups[0].keywords) then groups[0].image
    else FirstGroupImage(t, groups[1..])
  }

  /**
   The if-chain of `includes` tests on the lower-cased type. It is the table
   tried top to bottom, the first match winning, with the default last.
   */
  function StockImage(t: string): (r: string)
    ensures r == FirstGroupImage(t, KeywordGroups)
  {
    var gs := KeywordGroups;
    MentionsThree(t, "bovino", "vaca", "toro");
    MentionsTwo(t, "porcino", "cerdo");
    MentionsTwo(t, "ovino", "oveja");
    MentionsThree(t, "avicultura", "pollo", "gallina");
    MentionsTwo(t, "equino", "caballo");
    var g1, g2, g3, g4 := gs[1..], gs[2..], gs[3..], gs[4..];
    assert g1 == [gs[1]] + g2 && g2 == [gs[2]] + g3 && g3 == [gs[3]] + g4 && g4 == [gs[4]];
    assert FirstGroupImage(t, g4[1..]) == DefaultImage;
    assert FirstGroupImage(t, g4) == if MentionsAny(t, gs[4].keywords) then EquineImage else DefaultImage;
    assert FirstGroupImage(t, g3) == if MentionsAny(t, gs[3].keywords) then PoultryImage else FirstGroupImage(t, g4);
    assert FirstGroupImage(t, g2) == if MentionsAny(t, gs[2].keywords) then OvineImage else FirstGroupImage(t, g3);
    assert FirstGroupImage(t, g1) == if MentionsAny(t, gs[1].keywords) then PorcineImage else FirstGroupImage(t, g2);
    if Includes(t, "bovino") || Includes(t, "vaca") || Includes(t, "toro") then BovineImage
    else if Includes(t, "porcino") || Includes(t, "cerdo") then PorcineImage
    else if Includes(t, "ovino") || Includes(t, "oveja") then OvineImage
    else if Includes(t, "avicultura") || Includes(t, "pollo") || Includes(t, "gallina") then PoultryImage
    else if Includes(t, "equino") || Includes(t, "caballo") then EquineImage
    else DefaultImage
  }

  /** A type gets the default picture exactly when it mentions no keyword of any group. */
  lemma StockImageFollowsTable(t: string)
    ensures StockImage(t) == DefaultImage <==> forall g :: 0 <= g < |KeywordGroups| ==> !MentionsAny(t, KeywordGroups[g].keywords)
  {
    assert forall g :: 0 <= g < |KeywordGroups| ==> KeywordGroups[g].image != DefaultImage;
  }

  lemma MentionsTwo(t: string, a: string, b: string)
    ensures MentionsAny(t, [a, b]) <==> Includes(t, a) || Includes(t, b)
  {
    if Includes(t, a) {
      assert [a, b][0] == a;
    } else if Includes(t, b) {
      assert [a, b][1] == b;
    }
  }

  lemma MentionsThree(t: string, a: string, b: string, c: string)
    ensures MentionsAny(t, [a, b, c]) <==> Includes(t, a) || Includes(t, b) || Includes(t, c)
  {
    if Includes(t, a) {
      assert [a, b, c][0] == a;
    } else if Includes(t, b) {
      assert [a, b, c][1] == b;
    } else if Includes(t, c) {
      assert [a, b, c][2] == c;
    }
  }

  /** Every "bovino" type also contains "ovino", yet it gets the bovine picture: the bovine test comes first. */
  lemma BovineTestedBeforeOvine(t: string)
    requires Includes(t, "bovino")
    ensures Includes(t, "ovino")
    ensures StockImage(t) == BovineImage
  {
    assert OccursAt("bovino", "ovino", 1);
    IncludesIff("bovino", "ovino");
    IncludesTransitive(t, "bovino", "ovino");
  }

  /** The picture value for an own `image` that is truthy, or `None` when the stock picture applies. */
  function OwnImage(image: Value): (r: Result<Option<Value>>)
    ensures r.Throws? <==> Truthy(image) && !image.Str? && !image.Arr?
    ensures r == Ok(None) <==>
              !Truthy(image)
              || (image.Str? && Includes(image.s, "placeholder"))
              || (image.Arr? && Str("placeholder") in image.items)
    ensures r.Ok? && r.value.Some? ==> r.value.value == image && Truthy(image)
  {
    if !Truthy(image) then Ok(None)
    else match image
      case Str(s) => Ok(if Includes(s, "placeholder") then None else Some(image))
      case Arr(items) => Ok(if Str("placeholder") in items then None else Some(image))
      case _ => Throws(TypeError)
  }

  /**
   `getAnimalImage`: the animal's own picture unless it is empty or a placeholder,
   otherwise the stock picture chosen from the lower-cased type.
   */
  function AnimalImage(animal: Value): (r: Result<Value>)
    ensures Nullish(animal) ==> r.Throws?
    ensures !Nullish(animal) && OptGet(animal, "image").Str? && OptGet(animal, "image").s != ""
            && !Includes(OptGet(animal, "image").s, "placeholder")
            ==> r == Ok(OptGet(animal, "image"))
    ensures !Nullish(animal) && OptGet(animal, "image").Arr? && Str("placeholder") !in OptGet(animal, "image").items
            ==> r == Ok(OptGet(animal, "image"))
    ensures !Nullish(animal) && Truthy(OptGet(animal, "image"))
            && !OptGet(animal, "image").Str? && !OptGet(animal, "image").Arr?
            ==> r.Throws?
    ensures !Nullish(animal)
            && (!Truthy(OptGet(animal, "image"))
                || (OptGet(animal, "image").Str? && Includes(OptGet(animal, "image").s, "placeholder"))
                || (OptGet(animal, "image").Arr? && Str("placeholder") in OptGet(animal, "image").items))
            ==> r == if TypeText(animal).Str? then Ok(Str(StockImage(Lower(TypeText(animal).s)))) else Throws(TypeError)
    ensures !Nullish(animal) && !Truthy(OptGet(animal, "image")) && TypeText(animal).Str?
            ==> r == Ok(Str(StockImage(Lower(TypeText(animal).s))))
    ensures r.Ok? && r.value != OptGet(animal, "image")
            ==> TypeText(animal).Str? && r.value == Str(FirstGroupImage(Lower(TypeText(animal).s), KeywordGroups))
  {
    if Nullish(animal) then Throws(TypeError)
    else
      match OwnImage(OptGet(animal, "image"))
      case Throws(e) => Throws(e)
      case Ok(Some(image)) => Ok(image)
      case Ok(None) =>
        match ToLowerCase(TypeText(animal))
        case Throws(e) => Throws(e)
        case Ok(t) =>
          StockImageFollowsTable(t);
          Ok(Str(StockImage(t)))
  }
}
