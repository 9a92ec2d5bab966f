/**
 The save hook used by the form page: `isSaving` and `saveError` around the
 create and update calls. Each async function is split at its `await` into the
 synchronous start (`StartCreate`, `StartUpdate`) and the continuation that
 runs when the service call settles (`Finish`).
 */
module UseAnimalMutation {
  import opened Js

  /** The service call a save starts, with the arguments it forwards. */
  datatype ServiceCall = CreateCall(data: Value) | UpdateCall(id: Value, data: Value)

  /** How the awaited service call settles: its result, or the value it rejected with. */
  datatype ServiceOutcome = Resolved(result: Value) | Rejected(reason: Value)

  /**
   What the hook's function does with the outcome: return a value, rethrow
   the caught error, or throw the TypeError raised by reading `.message` of a
   nullish rejection value inside the `catch`.
   */
  datatype CallResult = Returned(value: Value) | Rethrown(reason: Value) | ThrewInCatch(exception: Exception)

  const CreateFailedMessage := "Error al crear animal"
  const UpdateFailedMessage := "Error al actualizar animal"

  /** The fallback message of the call that failed. */
  function FallbackMessage(call: ServiceCall): string {
    match call
    case CreateCall(_) => CreateFailedMessage
    case UpdateCall(_, _) => UpdateFailedMessage
  }

  /**
   `err.message || fallback`: never empty, the error's own message when it has
   a truthy one, the call's fixed text otherwise.
   */
  function SaveErrorText(call: ServiceCall, reason: Value): (r: Value)
    requires !Nullish(reason)
    ensures Truthy(r)
    ensures Truthy(OptGet(reason, "message")) ==> r == OptGet(reason, "message")
    ensures !Truthy(OptGet(reason, "message")) ==> r == Str(if call.CreateCall? then "Error al crear animal" else "Error al actualizar animal")
  {
    Or(OptGet(reason, "message"), Str(FallbackMessage(call)))
  }

  class AnimalMutationHook {
    var isSaving: bool
    var saveError: Value

    /** A reported save error is never empty: either none at all or a truthy message. */
    ghost predicate Valid()
      reads this
    {
      saveError == Null || Truthy(saveError)
    }

    constructor ()
      ensures Valid() && !isSaving && saveError == Null
    {
      isSaving := false;
      saveError := Null;
    }

    /** `createAnimal(data)` up to the `await`: saving, no error, and the service called with `data`. */
    method StartCreate(data: Value) returns (call: ServiceCall)
      requires Valid()
      modifies this
      ensures Valid() && isSaving && saveError == Null
      ensures call == CreateCall(data)
    {
      isSaving := true;
      saveError := Null;
      call := CreateCall(data);
    }

    /** `updateAnimal(id, data)` up to the `await`: the same `id` and `data` go to the service. */
    method StartUpdate(id: Value, data: Value) returns (call: ServiceCall)
      requires Valid()
      modifies this
      ensures Valid() && isSaving && saveError == Null
      ensures call == UpdateCall(id, data)
    {
      isSaving := true;
      saveError := Null;
      call := UpdateCall(id, data);
    }

    /**
     The continuation of `call`: a result is returned unchanged; a rejection
     records its message (or the call's fallback text) and is rethrown; in
     every case `isSaving` ends false.
     */
    method Finish(call: ServiceCall, outcome: ServiceOutcome) returns (r: CallResult)
      requires Valid()
      modifies this
      ensures Valid() && !isSaving
      ensures outcome.Resolved? ==> r == Returned(outcome.result) && saveError == old(saveError)
      ensures outcome.Rejected? && !Nullish(outcome.reason)
              ==> r == Rethrown(outcome.reason) && saveError == SaveErrorText(call, outcome.reason)
      ensures outcome.Rejected? && Nullish(outcome.reason)
              ==> r == ThrewInCatch(TypeError) && saveError == old(saveError)
    {
      match outcome {
        case Resolved(result) =>
          r := Returned(result);
        case Rejected(reason) =>
          match Get(reason, "message") {
            case Throws(e) =>
              r := ThrewInCatch(e);
            case Ok(message) =>
              saveError := Or(message, Str(FallbackMessage(call)));
              r := Rethrown(reason);
          }
      }
      isSaving := false;
    }
  }
}
