/**
 The list hook: the `animals`, `loading` and `error` state of the list page,
 loaded once on mount. The awaited request is split into the effect's
 synchronous part (`Mount`) and the continuation when it settles (`Settle`).
 */
module UseAnimals {
  import opened Js

  const ListFailedMessage := "Error al cargar la lista de animales."

  /** How the awaited list request settles: the response data, or a thrown error. */
  datatype ListOutcome = Loaded(data: Value) | LoadFailed(cause: Value)

  class AnimalsHook {
    var animals: Value
    var loading: bool
    var error: Option<string>
    /** How many list requests the hook has started. */
    ghost var requests: nat

    /** The only error the hook ever reports is its one fixed message. */
    ghost predicate Valid()
      reads this
    {
      error.None? || error == Some(ListFailedMessage)
    }

    /** First render: an empty list, loading, no error, nothing requested yet. */
    constructor ()
      ensures Valid()
      ensures animals == Arr([]) && loading && error.None? && requests == 0
    {
      animals := Arr([]);
      loading := true;
      error := None;
      requests := 0;
    }

    /**
     The mount effect up to the `await`: it sets `loading` and requests the
     list with the service's default, empty filter object, returned as
     `filters`. That the effect runs once is React's contract for an empty
     dependency list; the model assumes it as `requests == 0` and counts the
     one request.
     */
    method Mount() returns (filters: Value)
      requires Valid() && requests == 0
      modifies this
      ensures Valid()
      ensures filters == Obj(map[]) && requests == 1
      ensures loading && animals == old(animals) && error == old(error)
    {
      loading := true;
      requests := requests + 1;
      filters := Obj(map[]);
    }

    /**
     The continuation: success stores the response data as it is, whatever its
     shape, and clears `error`; failure sets the fixed message and keeps the
     previous list; either way `loading` ends false.
     */
    method Settle(outcome: ListOutcome)
      requires Valid()
      modifies this
      ensures Valid() && requests == old(requests)
      ensures !loading
      ensures outcome.Loaded? ==> animals == outcome.data && error.None?
      ensures outcome.LoadFailed? ==> animals == old(animals) && error == Some(ListFailedMessage)
    {
      match outcome {
        case Loaded(data) =>
          animals := data;
          error := None;
        case LoadFailed(_) =>
          error := Some(ListFailedMessage);
      }
      loading := false;
    }
  }
}
