/**
 The second save hook: `loading` and `error` around the create and update
 calls, like the mutation hook but with no fallback text for an error without
 a message. Each async function is split at its `await` into the synchronous
 start and the continuation that runs when the service call settles.
 */
module UseAnimalForm {
  import opened Js
  import opened UseAnimalMutation

  class AnimalFormHook {
    var loading: bool
    var error: Value

    constructor ()
      ensures !loading && error == Null
    {
      loading := false;
      error := Null;
    }

    /** `createAnimal(data)` up to the `await`: loading, no error, and the service called with `data`. */
    method StartCreate(data: Value) returns (call: ServiceCall)
      modifies this
      ensures loading && error == Null
      ensures call == CreateCall(data)
    {
      loading := true;
      error := Null;
      call := CreateCall(data);
    }

    /** `updateAnimal(id, data)` up to the `await`: the same `id` and `data` go to the service. */
    method StartUpdate(id: Value, data: Value) returns (call: ServiceCall)
      modifies this
      ensures loading && error == Null
      ensures call == UpdateCall(id, data)
    {
      loading := true;
      error := Null;
      call := UpdateCall(id, data);
    }

    /**
     The continuation: a response is returned unchanged; a rejection stores
     `err.message` as it is, even when it is missing or empty, and is
     rethrown; in every case `loading` ends false.
     */
    method Finish(outcome: ServiceOutcome) returns (r: CallResult)
      modifies this
      ensures !loading
      ensures outcome.Resolved? ==> r == Returned(outcome.result) && error == old(error)
      ensures outcome.Rejected? && !Nullish(outcome.reason)
              ==> r == Rethrown(outcome.reason) && error == OptGet(outcome.reason, "message")
      ensures outcome.Rejected? && Nullish(outcome.reason)
              ==> r == ThrewInCatch(TypeError) && error == old(error)
    {
      match outcome {
        case Resolved(response) =>
          r := Returned(response);
        case Rejected(reason) =>
          match Get(reason, "message") {
            case Throws(e) =>
              r := ThrewInCatch(e);
            case Ok(message) =>
              error := message;
              r := Rethrown(reason);
          }
      }
      loading := false;
    }
  }
}
