/**
 The detail service's lookup: the first stored record whose `id` is strictly
 equal to the requested id, or `null` when none is. The lookup never rejects.
 */
module AnimalDetailService {
  import opened Js

  /** A record's `id` is strictly equal to the requested one. */
  predicate HasId(record: Record, id: Value) {
    StrictEquals(Field(record, "id"), id)
  }

  /** The index of the first record with the id, searched from the front. */
  function FindIndex(records: seq<Record>, id: Value): (r: Option<nat>)
    ensures r.Some? ==> r.value < |records| && HasId(records[r.value], id)
    ensures r.Some? ==> forall j :: 0 <= j < r.value ==> !HasId(records[j], id)
    ensures r.None? <==> forall j :: 0 <= j < |records| ==> !HasId(records[j], id)
  {
    if records == [] then None
    else if HasId(records[0], id) then Some(0)
    else match FindIndex(records[1..], id)
      case None => None
      case Some(k) => Some(k + 1)
  }

  /**
   `getAnimalById(id)` once its timer fires: the stored record itself when one
   has the id, `None` (the service's `null`) otherwise.
   */
  function GetAnimalById(records: seq<Record>, id: Value): (r: Option<Record>)
    ensures r.Some? ==> r.value in records && HasId(r.value, id)
    ensures r.None? <==> forall j :: 0 <= j < |records| ==> !HasId(records[j], id)
  {
    match FindIndex(records, id)
    case None => None
    case Some(i) => Some(records[i])
  }

  /** With duplicate ids, the earliest stored record wins. */
  lemma {:induction false} FirstMatchWins(records: seq<Record>, id: Value, i: nat)
    requires i < |records| && HasId(records[i], id)
    requires forall j :: 0 <= j < i ==> !HasId(records[j], id)
    ensures GetAnimalById(records, id) == Some(records[i])
  {
    assert FindIndex(records, id).Some?;
  }

  /** Only primitive ids can be found: an array or object id never is, being never strictly equal to anything. */
  lemma CompositeIdNeverFound(records: seq<Record>, id: Value)
    requires id.Arr? || id.Obj?
    ensures GetAnimalById(records, id).None?
  {
  }

  /** A found record's `id` is exactly the requested id. */
  lemma FoundIdIsRequestedId(records: seq<Record>, id: Value)
    requires GetAnimalById(records, id).Some?
    ensures Field(GetAnimalById(records, id).value, "id") == id
  {
  }

  /**
   Strict equality does no conversion: a numeric id never finds a record
   whose id is a string, such as "3" for the number 3.
   */
  lemma NumberNeverFindsStringId(records: seq<Record>, n: int)
    requires forall j :: 0 <= j < |records| ==> Field(records[j], "id").Str?
    ensures GetAnimalById(records, Num(n)).None?
  {
  }
}
