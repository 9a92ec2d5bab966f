# Animals micro-frontend: a Dafny model

This project models the logic of the "animals" micro-frontend of a
farm-management web application (livestock list, detail view and create/edit
form). The front end itself is mostly presentation. Its logic consists of the
rules and state machines below, and each is modelled and proved here:

- The list page's search and type filter, its status-to-colour table and its
  keyword classifier that picks a stock photo from the animal's type.
- The detail page's normalisation of a record for display. The record may use
  either of two field-naming conventions, and missing fields get fixed
  defaults.
- The edit form's local state:
  - initial values;
  - hydration by shallow merge when the record arrives;
  - single-field updates and submission.
- The HTTP client's two interceptors:
  - the request interceptor, which derives the session headers from the stored
    authentication state;
  - the response interceptor, which decides whether a 401 ends the session.
- The loading/error state of the four data hooks (detail, list, and two save
  hooks). Each `await` is split into the synchronous start and the
  continuation that runs on an abstract outcome.
- The form's validation schema, the mock lookup of a record by id, and the
  shared store's four setters.

JavaScript's dynamic values are modelled by `Js.Value`:

- `undefined`, `null`, booleans, integers, strings, arrays and plain objects;
- truthiness, `||` and optional chaining;
- a property read that throws a `TypeError` on `null`/`undefined`;
- `String(...)` conversion, `toLowerCase`, `includes` and `===`.

Files, one module each:

| file | module | models |
|---|---|---|
| js.dfy | Js | JavaScript values and the built-ins the core uses |
| animals_list_view.dfy | AnimalsListView | filter predicate, status colours, stock image |
| animal_detail_view.dfy | AnimalDetailView | display normalisation, record defaults, colour lookup |
| animal_form_view.dfy | AnimalFormView | form state as a class `AnimalForm` |
| api_client.dfy | ApiClient | request and response-error interceptors |
| use_animal_detail.dfy | UseAnimalDetail | detail hook as a class |
| use_animals.dfy | UseAnimals | list hook as a class |
| use_animal_mutation.dfy | UseAnimalMutation | save hook (`isSaving`/`saveError`) as a class |
| use_animal_form.dfy | UseAnimalForm | second save hook (`loading`/`error`) as a class |
| animal_schema.dfy | AnimalSchema | validation schema |
| animal_detail_service.dfy | AnimalDetailService | lookup by id |
| animals_store.dfy | AnimalsStore | shared store as a class over a pure merge |

The model follows the code as written. In particular:

- useAnimalDetail.js stores whatever response arrives, even one for an id that
  has since changed: no cleanup discards a stale response.
- In useAnimalDetail.js, the branch for a missing id clears the animal and
  `loading` but keeps an earlier error.
- useAnimals.js requests the list once, on mount, with the service's default
  empty filter object; it has no sample-data fallback.
- AnimalFormView.jsx reads each initial value from one field name (`type`,
  `breed`, `gender`, …), not from the alternate names the detail view also
  accepts (`categoryName`, `sex`, …).
- AnimalFormView.jsx, useAnimalMutation.js and useAnimalForm.js pass the form
  on as it is: `gender` is sent under that name, with no mapping to `sex`.

## Model

| member | source | states |
|---|---|---|
| Js.Get | src/features/animal-form/hooks/useAnimalMutation.js:14-16 | reading `err.message` throws exactly when `err` is null or undefined, otherwise yields the optional-chained value |
| Js.ToLowerCase | src/features/animals-list/components/AnimalsListView.jsx:41-42 | `toLowerCase` succeeds exactly on strings, and then its result has the same length with every character lowered (`LowerChar`); on any other value it throws |
| Js.IncludesIff | src/features/animals-list/components/AnimalsListView.jsx:41-42 | `includes` holds exactly when the needle occurs at some position of the text |
| Js.IncludesTransitive | src/features/animals-list/components/AnimalsListView.jsx:64-82 | a text that contains a word also contains every substring of that word |
| AnimalsListView.Matches | src/features/animals-list/components/AnimalsListView.jsx:36-45 | whenever the callback returns, an animal is kept iff the lower-cased term occurs in its lower-cased name or identifier (`identifier`, then `visualCode`) and the filter is "all" or equals its type (`type`, then `categoryName`) exactly; the predicate throws iff the animal is nullish, the name text is not a string, or the name misses and the identifier text is not a string (the identifier is not lower-cased once the name matches) |
| AnimalsListView.FilterAnimals | src/features/animals-list/components/AnimalsListView.jsx:36-45 | when the filter returns, the result is no longer than the input and every element of it is one the callback keeps |
| AnimalsListView.FilteredAnimals | src/features/animals-list/components/AnimalsListView.jsx:34 | a non-array `animals` is treated as the empty list, so the result is empty |
| AnimalsListView.FilterIsSubsequence | src/features/animals-list/components/AnimalsListView.jsx:36-45 | the filtered list is a subsequence of the input in its original order |
| AnimalsListView.FilterKeepsExactlyTheMatches | src/features/animals-list/components/AnimalsListView.jsx:37-44 | every kept value occurs as often as in the input, and exactly the values that match are kept |
| AnimalsListView.FilterThrowsIffSomeElementThrows | src/features/animals-list/components/AnimalsListView.jsx:36-45 | the filter throws exactly when the predicate throws on some element |
| AnimalsListView.EmptySearchKeepsEverything | src/features/animals-list/components/AnimalsListView.jsx:40-43 | with an empty search term and filter "all", every animal whose name text is a string is kept, in order, whatever its identifier, because the identifier is then never lower-cased |
| AnimalsListView.StatusColor | src/features/animals-list/components/AnimalsListView.jsx:47-58 | "Saludable", "En Tratamiento" and "Observación" each map to their own classes, and every other status maps to the gray default |
| AnimalsListView.FirstGroupImage | src/features/animals-list/components/AnimalsListView.jsx:64-84 | the reference table reading: when group g is the first group whose keywords the type mentions, the result is g's image; when no group is mentioned it is the default; with no group image equal to the default, the default comes exactly when no group is mentioned |
| AnimalsListView.StockImage | src/features/animals-list/components/AnimalsListView.jsx:64-84 | the if-chain of `includes` tests equals the first match over the ordered keyword table (bovino/vaca/toro, porcino/cerdo, ovino/oveja, avicultura/pollo/gallina, equino/caballo) |
| AnimalsListView.StockImageFollowsTable | src/features/animals-list/components/AnimalsListView.jsx:64-84 | the if-chain gives the default image iff the type mentions no keyword of any group |
| AnimalsListView.MentionsTwo | src/features/animals-list/components/AnimalsListView.jsx:71 | a two-keyword group matches iff either keyword occurs |
| AnimalsListView.MentionsThree | src/features/animals-list/components/AnimalsListView.jsx:65-69 | a three-keyword group matches iff one of its keywords occurs |
| AnimalsListView.BovineTestedBeforeOvine | src/features/animals-list/components/AnimalsListView.jsx:64-74 | a type containing "bovino" also contains "ovino", yet gets the bovine image |
| AnimalsListView.OwnImage | src/features/animals-list/components/AnimalsListView.jsx:61-62 | the own image is used iff it is truthy and does not contain "placeholder" (substring of a string, element of an array); a truthy image of any other kind throws, as it has no `includes` |
| AnimalsListView.AnimalImage | src/features/animals-list/components/AnimalsListView.jsx:60-85 | a nullish animal throws; a non-empty own image without "placeholder" (or an array image without that element) is returned as is; a falsy image or one containing "placeholder" gives the stock image of the lower-cased type, or throws when the type text is not a string; a truthy image that is neither string nor array throws |
| AnimalDetailView.FirstTruthy | src/features/animal-detail/components/AnimalDetailView.jsx:19-22 | when field k is truthy and every earlier field is falsy, the result is field k; when every field is falsy (or there is no record) it is the fallback |
| AnimalDetailView.GenderText | src/features/animal-detail/components/AnimalDetailView.jsx:23-30 | uses a truthy `gender`; otherwise `sex` "M" gives "Macho", "F" gives "Hembra", any other truthy `sex` passes through, and "N/A" is used when nothing is set |
| AnimalDetailView.Display | src/features/animal-detail/components/AnimalDetailView.jsx:18-43 | with no record, every entry takes its default; `birthDate` is the formatted date when truthy, else "N/A" |
| AnimalDetailView.FirstTruthyOne | src/features/animal-detail/components/AnimalDetailView.jsx:19 | a one-field chain is that field `||` the default |
| AnimalDetailView.FirstTruthyTwo | src/features/animal-detail/components/AnimalDetailView.jsx:20-22 | a two-field chain prefers the first name, then the alternate, then the default |
| AnimalDetailView.DisplayFollowsPrecedence | src/features/animal-detail/components/AnimalDetailView.jsx:18-43 | each entry of the display follows its row of the precedence table: its fields tried in order, then its default |
| AnimalDetailView.WeightAndHeightDefaultToZero | src/features/animal-detail/components/AnimalDetailView.jsx:34-35 | a missing or falsy weight or height displays as 0 |
| AnimalDetailView.HealthRecords | src/features/animal-detail/components/AnimalDetailView.jsx:46-53 | absent health records default to exactly one sample record; the result is never falsy |
| AnimalDetailView.WeightHistory | src/features/animal-detail/components/AnimalDetailView.jsx:55-57 | a falsy weight history becomes exactly one entry `{date: "Actual", weight}` whose weight is `displayAnimal.weight` for the same record, so the record's truthy weight or 0; a truthy history is kept |
| AnimalDetailView.InfoColor | src/features/animal-detail/components/AnimalDetailView.jsx:342-350 | a palette colour gives its own background and text classes; any other key falls back to gray |
| AnimalFormView.DatePart | src/features/animal-form/components/AnimalFormView.jsx:22-24 | the part of the ISO text before the first "T": a prefix without "T", followed by "T" when shorter |
| AnimalFormView.IsEdit | src/features/animal-form/components/AnimalFormView.jsx:13 | edit mode holds exactly when `animalId` is truthy |
| AnimalFormView.InitialForm | src/features/animal-form/components/AnimalFormView.jsx:16-32 | the thirteen fields take the record's truthy value, else their defaults ("Bovino", "Macho", "Saludable", otherwise ""); `birthDate` is the date part of the ISO date, or "" |
| AnimalFormView.Hydrated | src/features/animal-form/components/AnimalFormView.jsx:37-45 | no record leaves the form unchanged; otherwise every key of the record overrides the form, other keys keep their values, and `birthDate` is re-derived or kept |
| AnimalFormView.MountedFormShowsRecord | src/features/animal-form/components/AnimalFormView.jsx:16-45 | after mount and hydration with the same record, each record key shows the record's value and each default key missing from the record shows its default |
| AnimalFormView.HydrationIdempotent | src/features/animal-form/components/AnimalFormView.jsx:37-45 | hydrating twice with the same record gives the same form as hydrating once |
| AnimalFormView.AnimalForm.constructor | src/features/animal-form/components/AnimalFormView.jsx:13-34 | the form starts in edit mode iff the id is truthy, with the initial values and the record's image (or none) as preview |
| AnimalFormView.AnimalForm.OnInitialData | src/features/animal-form/components/AnimalFormView.jsx:37-48 | the form becomes the hydrated form; the preview changes only when the record has a truthy image |
| AnimalFormView.AnimalForm.HandleChange | src/features/animal-form/components/AnimalFormView.jsx:50-52 | exactly the named field takes the value; every other field and the preview are unchanged |
| AnimalFormView.AnimalForm.HandleSubmit | src/features/animal-form/components/AnimalFormView.jsx:65-68 | submission hands on the current form unchanged |
| ApiClient.WithSessionHeaders | src/shared/utils/apiClient.js:30-53 | `Authorization` is "Bearer " + token iff the token is truthy; `X-Farm-Id` and `X-User-Id` are the string form of the ids iff present; `X-User-Email` is the email iff present; `X-Gateway-Secret` and every other header are untouched |
| ApiClient.InterceptRequest | src/shared/utils/apiClient.js:14-72 | a parsed session sets the session headers on the same config object; with no stored session or one that does not parse, the headers are unchanged |
| ApiClient.OnResponseError | src/shared/utils/apiClient.js:75-124 | a nullish error throws a TypeError at the unguarded `error.response` read of the log statement, with no logout; otherwise the error is rejected unchanged, and logout happens iff the status is 401 and there is no stored session, it does not parse, or its token is falsy; a truthy token never logs out, selected farm or not |
| UseAnimalDetail.AnimalDetailHook.constructor | src/features/animal-detail/hooks/useAnimalDetail.js:4-7 | no animal, no error, and loading iff the id is truthy |
| UseAnimalDetail.AnimalDetailHook.RunEffect | src/features/animal-detail/hooks/useAnimalDetail.js:9-19 | without an id: no animal, not loading, no fetch, and the error is kept; with one: loading, a fetch of that id, and the error is kept |
| UseAnimalDetail.AnimalDetailHook.Settle | src/features/animal-detail/hooks/useAnimalDetail.js:19-31 | a record replaces the animal and clears the error; a null result sets "Animal no encontrado" and a throw sets the load-failure message, both keeping the animal; loading ends false |
| UseAnimals.AnimalsHook.constructor | src/features/animals-list/hooks/useAnimals.js:5-7 | an empty list, loading, no error |
| UseAnimals.AnimalsHook.Mount | src/features/animals-list/hooks/useAnimals.js:9-25 | the list is requested once, with the default empty filters, and loading is set |
| UseAnimals.AnimalsHook.Settle | src/features/animals-list/hooks/useAnimals.js:14-21 | success stores the data as is and clears the error; failure sets the fixed message and keeps the list; loading ends false |
| UseAnimalMutation.AnimalMutationHook.constructor | src/features/animal-form/hooks/useAnimalMutation.js:5-6 | not saving and no save error |
| UseAnimalMutation.SaveErrorText | src/features/animal-form/hooks/useAnimalMutation.js:14-16 | the stored save error is the error's truthy message, else the call's fixed text, and is never falsy |
| UseAnimalMutation.AnimalMutationHook.StartCreate | src/features/animal-form/hooks/useAnimalMutation.js:8-12 | saving, no error, and the service called with the same data |
| UseAnimalMutation.AnimalMutationHook.StartUpdate | src/features/animal-form/hooks/useAnimalMutation.js:22-26 | saving, no error, and the service called with the same id and data |
| UseAnimalMutation.AnimalMutationHook.Finish | src/features/animal-form/hooks/useAnimalMutation.js:12-19 | a result is returned unchanged; a rejection stores its message or the fallback and is rethrown; a nullish rejection throws a TypeError in the catch; saving ends false in every case |
| UseAnimalForm.AnimalFormHook.constructor | src/features/animal-form/hooks/useAnimalForm.js:5-6 | not loading and no error |
| UseAnimalForm.AnimalFormHook.StartCreate | src/features/animal-form/hooks/useAnimalForm.js:8-12 | loading, no error, and the service called with the same data |
| UseAnimalForm.AnimalFormHook.StartUpdate | src/features/animal-form/hooks/useAnimalForm.js:22-26 | loading, no error, and the service called with the same id and data |
| UseAnimalForm.AnimalFormHook.Finish | src/features/animal-form/hooks/useAnimalForm.js:12-19 | a response is returned unchanged; a rejection stores `err.message` as it is, with no default, and is rethrown; loading ends false in every case |
| AnimalSchema.CheckText | src/features/animal-form/validations/animalSchema.js:4-10 | a required text field passes iff it holds non-empty text, a number or a boolean; a missing value or "" gives the field's own message; an array or object is a type error |
| AnimalSchema.CheckPositive | src/features/animal-form/validations/animalSchema.js:8-9 | a required number passes iff it casts to a number above zero; a missing value gives the field's own message, a value that is not a number a type error, and zero or less "Debe ser positivo" |
| AnimalSchema.Validate | src/features/animal-form/validations/animalSchema.js:3-11 | a field is reported exactly when its rule fails, with that rule's issue |
| AnimalSchema.FieldPassesIff | src/features/animal-form/validations/animalSchema.js:4-10 | a text field passes iff it holds non-empty text (or a number or boolean, which cast to text); `age` and `weight` pass iff they are numbers above zero |
| AnimalSchema.PassesIffComplete | src/features/animal-form/validations/animalSchema.js:3-11 | an object passes iff the five text fields are present and non-empty and `age` > 0 and `weight` > 0, so 0 is rejected |
| AnimalSchema.EmptyIffAllPass | src/features/animal-form/validations/animalSchema.js:3-11 | no error is reported iff every field passes |
| AnimalSchema.OwnMessagesOnly | src/features/animal-form/validations/animalSchema.js:4-10 | a failing field reports its own required message, "Debe ser positivo" (numeric fields only) or a type error, and never another field's message |
| AnimalDetailService.FindIndex | src/features/animal-detail/services/animalDetailService.js:7 | the first index whose record's `id` strictly equals the requested id, or none when no record has it |
| AnimalDetailService.GetAnimalById | src/features/animal-detail/services/animalDetailService.js:4-17 | a found record is one of the stored records with the requested id; null (never a rejection) exactly when no id matches |
| AnimalDetailService.FirstMatchWins | src/features/animal-detail/services/animalDetailService.js:7-9 | with duplicate ids, the earliest stored record is the one returned |
| AnimalDetailService.CompositeIdNeverFound | src/features/animal-detail/services/animalDetailService.js:7 | an array or object id finds nothing, as `===` compares them by reference |
| AnimalDetailService.FoundIdIsRequestedId | src/features/animal-detail/services/animalDetailService.js:7 | a non-null result's `id` is exactly the requested id |
| AnimalDetailService.NumberNeverFindsStringId | src/features/animal-detail/services/animalDetailService.js:7 | `===` converts nothing: a numeric id finds nothing among records whose ids are all strings (the number 3 does not find "3") |
| AnimalsStore.Merge | src/shared/store/animalsStore.js:9-12 | a setter's patch replaces only its own slot, and the other three keep their values |
| AnimalsStore.MergeIdempotent | src/shared/store/animalsStore.js:9-12 | applying a setter twice with the same value equals applying it once |
| AnimalsStore.MergeOrder | src/shared/store/animalsStore.js:9-12 | setters of different slots commute; of the same slot, the later one wins |
| AnimalsStore.AnimalsStore.constructor | src/shared/store/animalsStore.js:3-7 | the store starts with no animals, nothing selected, empty filters and not loading |
| AnimalsStore.AnimalsStore.SetAnimals | src/shared/store/animalsStore.js:9 | the state becomes the merge of the `animals` patch |
| AnimalsStore.AnimalsStore.SetSelectedAnimal | src/shared/store/animalsStore.js:10 | the state becomes the merge of the `selectedAnimal` patch |
| AnimalsStore.AnimalsStore.SetFilters | src/shared/store/animalsStore.js:11 | the state becomes the merge of the `filters` patch |
| AnimalsStore.AnimalsStore.SetLoading | src/shared/store/animalsStore.js:12 | the state becomes the merge of the `loading` patch |

## Left out

- Numbers are integers only: no fractions, `NaN`, `Infinity` or `-0`. So `weight: 0.5`, for example, is not representable. They are also unbounded, while JavaScript numbers are doubles: an id of 2^53 or more loses precision, and one of 10^21 or more prints in exponent form. So `ToJsString` of such an id, used for the `X-Farm-Id` and `X-User-Id` headers, differs from `toString()`.
- `toLowerCase` lowers only Basic Latin and Latin-1 letters. Other scripts' case mappings and Unicode special casing are not modelled.
- `toLocaleDateString` and `toISOString` are parameters (`formatDate`, `toIso`), because locale and time-zone handling are outside the model. An invalid date's `toISOString` throwing is not modelled.
- `===` on two arrays or objects is always false, since values here carry no identity. `String(...)` of an object is "[object Object]"; an object's own `toString` is not modelled.
- AnimalDetailView.InfoColor: keys inherited from `Object.prototype` (such as "constructor") are treated like any unknown colour.
- AnimalsListView.OwnImage: an array image is tested with `Array.prototype.includes` on its elements. Any other truthy non-string image throws, as the missing `includes` method would; a custom object with its own `includes` is not modelled.
- Spreading a non-object `initialData` into the form is not modelled. The record is a map of fields, or absent.
- JSX rendering, tabs, view mode, animation, routing, `FileReader` image upload and the module-federation build configuration.
- HTTP requests and the service wrappers over them. The simulated backend behind the save hooks, built on timers and the clock, is not part of this model.
- `localStorage`, `JSON.parse`, console logging, the `auth-change` window event and the redirect to the login page. Only the decision is modelled: `StoredAuth` is the abstract result of reading and parsing, and `logout` is the decision.
- The detail service's 600 ms timer. The lookup is the value the promise resolves with once the timer fires.
- Asynchronous interleaving. Each `await` is one atomic step between a start method and a continuation, with the outcome as a parameter.
- React's re-render scheduling, effect dependencies and state batching. A setter call is an assignment.
- AnimalSchema.Validate: reports every failing field, while a default validation stops at the first error. The library's own type-error message texts are a single `WrongType` issue.
- AnimalSchema.AsNumber: a numeric string is accepted only as optional minus and decimal digits. Whitespace anywhere in the text (which the library strips before casting, so "1 2" casts to 12), "+", fractions, exponents and hexadecimal are not parsed, and the library's `parseFloat` fallback for arrays such as `[5]` is not modelled.
- The animal-type constants file has no behaviour.
