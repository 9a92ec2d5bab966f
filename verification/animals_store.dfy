/**
 The shared list store: four slots of state, each replaced by its own setter
 through a shallow merge of a one-key patch.
 */
module AnimalsStore {
  import opened Js

  /** The store's state slots. */
  datatype StoreState = StoreState(animals: Value, selectedAnimal: Value, filters: Value, loading: Value)

  /** The one-key patch each setter merges into the state. */
  datatype Patch =
    | AnimalsPatch(animals: Value)
    | SelectedAnimalPatch(animal: Value)
    | FiltersPatch(filters: Value)
    | LoadingPatch(loading: Value)

  /** The state a store starts in: no animals, none selected, no filters, not loading. */
  const InitialState := StoreState(Arr([]), Null, Obj(map[]), Bool(false))

  /** Merging a patch: its slot takes the new value, the others keep theirs. */
  function Merge(s: StoreState, p: Patch): (t: StoreState)
    ensures p.AnimalsPatch? ==> t.animals == p.animals
    ensures p.SelectedAnimalPatch? ==> t.selectedAnimal == p.animal
    ensures p.FiltersPatch? ==> t.filters == p.filters
    ensures p.LoadingPatch? ==> t.loading == p.loading
    ensures !p.AnimalsPatch? ==> t.animals == s.animals
    ensures !p.SelectedAnimalPatch? ==> t.selectedAnimal == s.selectedAnimal
    ensures !p.FiltersPatch? ==> t.filters == s.filters
    ensures !p.LoadingPatch? ==> t.loading == s.loading
  {
    match p
    case AnimalsPatch(v) => s.(animals := v)
    case SelectedAnimalPatch(v) => s.(selectedAnimal := v)
    case FiltersPatch(v) => s.(filters := v)
    case LoadingPatch(v) => s.(loading := v)
  }

  /** The slot a patch writes. */
  function Slot(p: Patch): nat {
    match p
    case AnimalsPatch(_) => 0
    case SelectedAnimalPatch(_) => 1
    case FiltersPatch(_) => 2
    case LoadingPatch(_) => 3
  }

  /** Calling a setter a second time with the same value changes nothing. */
  lemma MergeIdempotent(s: StoreState, p: Patch)
    ensures Merge(Merge(s, p), p) == Merge(s, p)
  {
  }

  /** Setters of different slots commute; of the same slot, the later one wins. */
  lemma MergeOrder(s: StoreState, p: Patch, q: Patch)
    ensures Slot(p) != Slot(q) ==> Merge(Merge(s, p), q) == Merge(Merge(s, q), p)
    ensures Slot(p) == Slot(q) ==> Merge(Merge(s, p), q) == Merge(s, q)
  {
  }

  class AnimalsStore {
    var animals: Value
    var selectedAnimal: Value
    var filters: Value
    var loading: Value

    /** The current state as a value. */
    function State(): StoreState
      reads this
    {
      StoreState(animals, selectedAnimal, filters, loading)
    }

    constructor ()
      ensures State() == InitialState
    {
      animals := Arr([]);
      selectedAnimal := Null;
      filters := Obj(map[]);
      loading := Bool(false);
    }

    /** `setAnimals(animals)`. */
    method SetAnimals(v: Value)
      modifies this
      ensures State() == Merge(old(State()), AnimalsPatch(v))
    {
      animals := v;
    }

    /** `setSelectedAnimal(animal)`. */
    method SetSelectedAnimal(v: Value)
      modifies this
      ensures State() == Merge(old(State()), SelectedAnimalPatch(v))
    {
      selectedAnimal := v;
    }

    /** `setFilters(filters)`. */
    method SetFilters(v: Value)
      modifies this
      ensures State() == Merge(old(State()), FiltersPatch(v))
    {
      filters := v;
    }

    /** `setLoading(loading)`. */
    method SetLoading(v: Value)
      modifies this
      ensures State() == Merge(old(State()), LoadingPatch(v))
    {
      loading := v;
    }
  }
}
