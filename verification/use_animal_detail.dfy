/**
 The detail hook: the `animal`, `loading` and `error` state of the view of one
 record, driven by an effect that runs when the route id changes. The awaited
 lookup is split into the effect's synchronous part (`RunEffect`) and the
 continuation that runs when the lookup settles (`Settle`).
 */
module UseAnimalDetail {
  import opened Js

  const NotFoundMessage := "Animal no encontrado"
  const LoadFailedMessage := "Error al cargar el detalle del animal."

  /** How the awaited lookup settles: a record, `null`, or a thrown error. */
  datatype FetchOutcome = Found(record: Record) | NotFound | Failed(cause: Value)

  class AnimalDetailHook {
    var animal: Option<Record>
    var loading: bool
    var error: Option<string>
    /** Every record a lookup has resolved with so far. */
    ghost var served: set<Record>

    /** The state holds only the two fixed messages, and only records a lookup returned. */
    ghost predicate Valid()
      reads this
    {
      && (error.None? || error == Some(NotFoundMessage) || error == Some(LoadFailedMessage))
      && (animal.Some? ==> animal.value in served)
    }

    /** First render: nothing loaded, no error, and loading exactly when an id is given. */
    constructor (id: Value)
      ensures Valid()
      ensures animal.None? && error.None? && loading == Truthy(id)
      ensures served == {}
    {
      animal := None;
      loading := Truthy(id);
      error := None;
      served := {};
    }

    /**
     The effect body up to the `await`. Without an id it clears the record and
     the loading flag and starts nothing, leaving any earlier error in place;
     with one it sets `loading` and starts a lookup of that id, which `fetch`
     reports.
     */
    method RunEffect(id: Value) returns (fetch: Option<Value>)
      requires Valid()
      modifies this
      ensures Valid() && served == old(served)
      ensures !Truthy(id) ==> fetch.None? && animal.None? && !loading && error == old(error)
      ensures Truthy(id) ==> fetch == Some(id) && loading && animal == old(animal) && error == old(error)
    {
      if !Truthy(id) {
        animal := None;
        loading := false;
        fetch := None;
        return;
      }
      loading := true;
      fetch := Some(id);
    }

    /**
     The continuation after the lookup settles: a record replaces `animal` and
     clears `error`; `null` or a thrown error set their message and keep the
     previous `animal`; in every case `loading` ends false.
     */
    method Settle(outcome: FetchOutcome)
      requires Valid()
      modifies this
      ensures Valid()
      ensures !loading
      ensures outcome.Found? ==> animal == Some(outcome.record) && error.None? && served == old(served) + {outcome.record}
      ensures outcome.NotFound? ==> animal == old(animal) && error == Some(NotFoundMessage) && served == old(served)
      ensures outcome.Failed? ==> animal == old(animal) && error == Some(LoadFailedMessage) && served == old(served)
    {
      match outcome {
        case NotFound =>
          error := Some(NotFoundMessage);
        case Found(record) =>
          served := served + {record};
          animal := Some(record);
          error := None;
        case Failed(_) =>
          error := Some(LoadFailedMessage);
      }
      loading := false;
    }
  }
}
