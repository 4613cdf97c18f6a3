# Pet-clinic client management, modelled in Dafny

This project models the logic of a small veterinary-clinic application (a
Next.js front end over a MongoDB `clients` collection). It covers:

- **Payload validation** (`src/services/client-validation.service.ts`): the
  create and update validators. They turn an untyped JSON value into a typed
  client input, or a patch, or the list of error messages. Messages accumulate
  in a fixed order and are never short-circuited.
- **The repository** (`src/services/client.service.ts`): query building, id
  parsing, record shaping, and the list, get, add, update and remove
  operations. These run over a `ClientStore` object whose `docs` map stands
  for the collection.
- **The collection route** (`src/app/api/clients/route.ts`) with its response
  builders (`src/lib/api/route-response.ts`) and error helpers
  (`src/lib/api/route-errors.ts`).
- **The browser side**:
  - the API client's query string, pet-type narrowing, record decoding and
    error text (`src/lib/api/clientApi.ts`);
  - the page's filter normalisation and submit payload
    (`src/components/clients/clients-page.tsx`);
  - the add/edit dialog's form, validation and two-click delete
    (`src/components/clients/client-modal.tsx`);
  - the pet-age column (`src/components/clients/client-table.tsx`);
  - the column layout (`src/components/clients/client-table-config.tsx`);
  - the cache keys (`src/constants/query-keys.ts`).

Each core file is one module. `ClientTypes` holds the shared datatypes.
`JsStrings` holds the JavaScript string built-ins the code relies on (`trim`
over the ECMAScript whitespace set, `toLowerCase`, `includes`, `join`).
`JsRuntime` holds the JavaScript values the validators inspect and the
values a `throw` can carry. `Wrappers` holds `Option`.

Some things are inputs rather than modelled code:

- the clock;
- `new Date(string)`;
- the id the driver generates;
- the driver's regular-expression matcher;
- whether a database call fails;
- what an awaited call returns.

Where the source mutates state step by step, the model uses methods, proved
equal to specification functions:

- the `read*` helpers that push onto `errors`;
- the key loop of the update validator;
- `buildFilters` and `buildQueryString`;
- `validate` in the dialog;
- `getPetAge`.

The collection and the dialog's state are classes whose methods modify their
fields.

Where the code and the project's description of it disagree, the model
follows the code:

- The `GET` route reads a single `petType` parameter, only its first
  occurrence. A comma-joined value such as `dog,cat` is rejected with 400, not
  read as two types (`ClientsRoute.CommaJoinedPetTypesRejected`,
  `ClientsRoute.FirstPetTypeParamWins`).
- The `petTypes` list that `ClientFilters` declares is never serialised into
  the query string, so the page's pet-type selection does not reach the server
  (`ClientsPage.PetTypeSelectionNotSent`).
- The service filters on the undeclared `petType` field, by equality.
- Error messages have the capitalisation the code uses, for example `Payload
  must be an object` and `Unknown field: <key>`.
- An update whose only field is a blank `notes` succeeds and clears the
  notes, because the validator sets the `notes` key even to `undefined`
  (`ClientValidation.BlankNotesOnlyUpdateSucceeds`). It is not answered with
  `No valid fields were provided for update`.

## Model

| member | source | states |
|---|---|---|
| JsStrings.TrimEmptyIffBlank | src/services/client-validation.service.ts:28-31 | `s.trim()` is empty exactly when every character of `s` is whitespace |
| JsStrings.TrimIdempotent | src/components/clients/clients-page.tsx:30-31 | trimming a trimmed string changes nothing |
| JsStrings.TrimIsMiddleSlice | src/services/client-validation.service.ts:28 | `trim` returns a contiguous slice of its input with only whitespace cut off at both ends |
| JsStrings.TrimsToEmpty | src/components/clients/client-modal.tsx:63-65 | `!s.trim()` holds exactly when `s` is blank |
| ClientTypes.PetTypeFromName | src/types/client.ts:1 | a string names a pet type exactly when it is `dog`, `cat` or `parrot`, and the type found has that name |
| ClientTypes.PetTypeNameRoundTrip | src/types/client.ts:1 | every pet type reads back from its own name |
| RouteResponse.Success | src/lib/api/route-response.ts:4-7 | the response has the given status, the data, and a null error |
| RouteResponse.Failure | src/lib/api/route-response.ts:9-15 | the response has the given status, null data, and an error carrying the message and the details unchanged |
| RouteResponse.EnvelopesAreOneSided | src/lib/api/route-response.ts:4-15 | in both kinds of envelope exactly one of data and error is present, and no success equals a failure |
| RouteResponse.SuccessDefaultsTo200 | src/lib/api/route-response.ts:4 | a success built without a status is a 200 |
| RouteErrors.GetErrorMessage | src/lib/api/route-errors.ts:1-7 | an `Error` yields its own message; any other thrown value yields `Unknown error` |
| RouteErrors.InvalidIdIgnoresCase | src/lib/api/route-errors.ts:9-11 | the invalid-id test classifies a message and its lower-cased form alike |
| RouteErrors.NonErrorsAreUnknown | src/lib/api/route-errors.ts:1-11 | a thrown value that is not an `Error` is never an invalid-id error, and its message is `Unknown error` |
| RouteErrors.PhraseAnywhereIsInvalidId | src/lib/api/route-errors.ts:9-11 | any `Error` whose message holds `invalid client id` anywhere is an invalid-id error |
| RouteErrors.ToLowerIdempotent | src/lib/api/route-errors.ts:10 | lower-casing twice is lower-casing once |
| ClientValidation.IsRecord | src/services/client-validation.service.ts:18-20 | true exactly when `typeof` is `object` and the value is not null, so arrays and dates pass |
| ClientValidation.RequiredString | src/services/client-validation.service.ts:22-33 | accepted exactly for a string that is not blank, with its trimmed, non-empty value; otherwise the message is `<field> is required` |
| ClientValidation.OptionalString | src/services/client-validation.service.ts:35-47 | absent stays absent; a string is trimmed and a blank one becomes absent; any other value gives `<field> must be a string` |
| ClientValidation.PetTypeCheck | src/services/client-validation.service.ts:49-61 | a non-string gives `petType is required`; a string is accepted exactly when it is an allowed name, and otherwise gives the `must be one of` message |
| ClientValidation.DateCheck | src/services/client-validation.service.ts:63-76 | neither a string nor a date gives `<field> is required`; otherwise the date is accepted exactly when it is valid, else `<field> must be a valid date` |
| ClientValidation.ReadRequiredString | src/services/client-validation.service.ts:22-33 | appends exactly the field's verdict message to the errors, and returns a non-empty string exactly when the field is accepted |
| ClientValidation.ReadOptionalString | src/services/client-validation.service.ts:35-47 | appends exactly the verdict's message, and returns the accepted value or absent |
| ClientValidation.ReadPetType | src/services/client-validation.service.ts:49-61 | appends exactly the verdict's message, and returns a pet type exactly when the verdict accepts one |
| ClientValidation.ReadDate | src/services/client-validation.service.ts:63-76 | appends exactly the verdict's message, and returns a date exactly when the verdict accepts one |
| ClientValidation.CreateOutcome | src/services/client-validation.service.ts:83-105 | on an object, any field message makes the result exactly those messages; with none, every field is accepted and the input carries the accepted values |
| ClientValidation.CreateRejected | src/services/client-validation.service.ts:91-93 | an object with at least one field message is rejected with exactly the field messages |
| ClientValidation.ValidateClientPayload | src/services/client-validation.service.ts:78-106 | the imperative validator, which pushes onto one list through every field, returns the specification's result |
| ClientValidation.UnknownFieldErrors | src/services/client-validation.service.ts:120-124 | at most one message per key, and none exactly when every key is allowed |
| ClientValidation.CollectUnknownFields | src/services/client-validation.service.ts:120-124 | the key loop produces one `Unknown field: <key>` per disallowed key, in key order |
| ClientValidation.ReadPresentRequiredString | src/services/client-validation.service.ts:128-141 | a field is read only when present; its messages are appended, and its value is kept only when accepted |
| ClientValidation.ReadPresentDate | src/services/client-validation.service.ts:143-146 | the birth date is read only when present, and kept only when valid |
| ClientValidation.ReadPresentPetType | src/services/client-validation.service.ts:148-151 | the pet type is read only when present, and kept only when allowed |
| ClientValidation.ReadPresentNotes | src/services/client-validation.service.ts:153-156 | when `notes` is present the patch's `notes` is set, even to `undefined` |
| ClientValidation.ReadUpdateFields | src/services/client-validation.service.ts:126-156 | reads each present field in order, appends each one's messages, and yields exactly the patch of accepted present fields |
| ClientValidation.UpdateOutcome | src/services/client-validation.service.ts:158-166 | with keys: any message rejects with the messages; none and an empty patch gives `No valid fields...`; otherwise the patch is returned |
| ClientValidation.ValidateClientUpdatePayload | src/services/client-validation.service.ts:108-167 | the imperative update validator (key loop, then field by field into `data`) returns the specification's result |
| ClientValidation.NonObjectRejected | src/services/client-validation.service.ts:78-111 | a non-object or null payload gets exactly `["Payload must be an object"]` from both validators |
| ClientValidation.CreateValidIffNoErrors | src/services/client-validation.service.ts:83-93 | a create succeeds exactly when no field message was collected, otherwise the errors are those messages, at most six |
| ClientValidation.CreateValidNormalised | src/services/client-validation.service.ts:91-105 | on success the names and phone are the trimmed non-empty strings sent, the date is valid, the pet type is the one named, and notes are absent or trimmed and non-empty |
| ClientValidation.CreateCollectsAllErrors | src/services/client-validation.service.ts:83-93 | missing name and phone plus an unknown pet type give exactly those three messages, in field order |
| ClientValidation.UpdateWithoutKeysRejected | src/services/client-validation.service.ts:114-118 | an object without keys gets exactly `["At least one field must be provided for update"]` |
| ClientValidation.UnknownFieldsReportedFirst | src/services/client-validation.service.ts:120-160 | with a disallowed key the update fails, and its errors begin with the unknown-field messages in key order |
| ClientValidation.NoValidFieldsIff | src/services/client-validation.service.ts:158-164 | `No valid fields...` is the answer exactly when every key is allowed and every allowed field reads `undefined` |
| ClientValidation.EmptyUpdateHasNoField | src/services/client-validation.service.ts:126-164 | no messages and an empty patch mean no unknown key and no field present |
| ClientValidation.NoValidFieldsNotAFieldMessage | src/services/client-validation.service.ts:158-164 | the collected messages are never just `No valid fields...`: none of them starts with `N` |
| ClientValidation.UpdateValidPatchExact | src/services/client-validation.service.ts:126-166 | a successful patch is not empty and holds exactly the present fields: names and phone as the trimmed non-empty strings sent, a valid date, the pet type named, and `notes` set whenever it was sent |
| ClientValidation.ValidUpdateIsPatch | src/services/client-validation.service.ts:158-166 | a successful update had no messages and returns the non-empty patch of accepted present fields |
| ClientValidation.PatchWithoutMessagesExact | src/services/client-validation.service.ts:126-156 | when no present field produced a message, each field is in the patch exactly when it was present, with its normalised value |
| ClientValidation.BlankNotesOnlyUpdateSucceeds | src/services/client-validation.service.ts:153-166 | `{notes: "<blank>"}` is a valid update that sets the notes to `undefined` |
| ClientValidation.ArrayUpdateReportsIndices | src/services/client-validation.service.ts:114-124 | a two-element array passes `isRecord` and is rejected with `Unknown field: 0` and `Unknown field: 1` |
| ClientService.ParseObjectId | src/services/client.service.ts:48-54 | an id is returned exactly for 24 hexadecimal digits, and its hex form is the string lower-cased |
| ClientService.ParseHexRoundTrip | src/services/client.service.ts:16-18 | the `id` a record carries parses back to the same object id |
| ClientService.ParseIgnoresCase | src/services/client.service.ts:48-54 | an id in capitals denotes the same object as its lower-case spelling |
| ClientService.ToClientRecord | src/services/client.service.ts:16-28 | the record's id is the hex form of `_id`, and every other field is the document's own |
| ClientService.ToClientRecordInjective | src/services/client.service.ts:16-28 | distinct ids or documents give distinct records |
| ClientService.NewDocument | src/services/client.service.ts:100-109 | the inserted document copies the input, with `createdAt` and `updatedAt` both `now` |
| ClientService.ApplyPatch | src/services/client.service.ts:133-142 | each supplied field replaces the stored one and the others stay; `createdAt` stays; `updatedAt` becomes `now` |
| ClientService.ApplyPatchIdempotent | src/services/client.service.ts:133-142 | applying the same update twice is applying it once |
| ClientService.EmptyPatchTouchesOnlyUpdatedAt | src/services/client.service.ts:133-136 | an empty patch changes only `updatedAt` |
| ClientService.PatchKeepsDocumentWellFormed | src/services/client.service.ts:133-142 | through a patch with non-empty strings, required fields stay non-empty, and `createdAt <= updatedAt` holds while the clock does not go back |
| ClientService.BuildFilters | src/services/client.service.ts:30-46 | the step-by-step query equals the filter query of the fields that are truthy |
| ClientService.FilterQuerySelects | src/services/client.service.ts:30-46 | a document matches the built query exactly when it satisfies each non-empty filter (a case-insensitive pattern for the names, equality for `petType`), all at once |
| ClientService.NoFiltersMatchAll | src/services/client.service.ts:30-46 | with no truthy field the query is empty and matches every document |
| ClientService.EmptyQueryOnlyWithoutFilters | src/services/client.service.ts:30-46 | the query is empty only when no field is truthy |
| ClientService.EmptyStringAddsNothing | src/services/client.service.ts:33-43 | an empty string filter adds no constraint, and `petTypes` is ignored |
| ClientService.PlainNameFilterIsSubstring | src/services/client.service.ts:33-35 | for a metacharacter-free ASCII pattern, the name filter is a case-insensitive substring test |
| ClientService.InsertNewestFirst | src/services/client.service.ts:68 | inserting adds exactly the new entry and keeps every old one |
| ClientService.InsertKeepsNewestFirst | src/services/client.service.ts:68 | inserting into a newest-first list keeps it newest first |
| ClientService.InsertKeepsIdsDistinct | src/services/client.service.ts:68 | inserting an entry with a new id keeps the ids distinct |
| ClientService.Records | src/services/client.service.ts:69 | each listed entry is shaped into its record, in order |
| ClientService.PickedIsListing | src/services/client.service.ts:68-69 | the matching documents, newest first and each id once, shaped into records form a listing: every record comes from a matching document, every match is listed, ids are distinct and `createdAt` does not increase |
| ClientService.ListingEmptyIffNoMatch | src/services/client.service.ts:64-69 | a listing is empty exactly when no stored document matches |
| ClientService.Wrapped | src/services/client.service.ts:70-72 | a failure is rethrown as an `Error` reading `<context>: <message>` |
| ClientService.ServiceInvalidIdIsClassified | src/services/client.service.ts:75-79 | the service's `Invalid client id` error is recognised by the routes' invalid-id test |
| ClientService.ClientStore.Find | src/services/client.service.ts:68 | returns exactly the stored documents the query matches, newest first, each id once |
| ClientService.ClientStore.GetClients | src/services/client.service.ts:64-73 | a failure throws `Failed to list clients: ...`; otherwise the result lists exactly the matching documents, once each, newest first |
| ClientService.ClientStore.GetClientById | src/services/client.service.ts:75-93 | a malformed id throws `Invalid client id` before any access; a failure is rethrown with its context; a well-formed unknown id gives null; a known one gives its record, and looking up the hex text of any stored id finds that id's record |
| ClientService.ClientStore.AddClient | src/services/client.service.ts:95-120 | the input is stored under the new id, stamped with `now`, and the stored record is returned; a failure before the insert changes nothing; a failure reading the document back leaves it stored; either failure is rethrown as `Failed to add client: <message>` |
| ClientService.AddFailsAfterInsert | src/services/client.service.ts:100-118 | when the read-back fails, the add throws, yet a later get of the new id finds the stored client |
| ClientService.ClientStore.UpdateClient | src/services/client.service.ts:122-152 | a malformed id throws first; an unknown id gives null and changes nothing; otherwise only that document is patched and its updated record returned |
| ClientService.ClientStore.RemoveClient | src/services/client.service.ts:154-167 | a malformed id throws first; otherwise the document is removed, and the answer is whether one was deleted |
| ClientService.AddThenGet | src/services/client.service.ts:95-120 | a client just added is found again by the id of the returned record, with `createdAt == updatedAt == now` |
| ClientService.RemoveTwice | src/services/client.service.ts:154-167 | removing the same client twice answers `true`, then `false` |
| ClientService.UpdateThenGet | src/services/client.service.ts:122-152 | a later get returns the updated record: same id, `createdAt` kept, `updatedAt` set, and each of the six fields the patched value when supplied and the stored one otherwise |
| ClientsRoute.SearchParam | src/app/api/clients/route.ts:24-26 | the value is the first one given for the key, and absent exactly when the key is not there |
| ClientsRoute.ParsePetType | src/app/api/clients/route.ts:10-20 | a pet type is returned exactly for an allowed name, and it is that name's type |
| ClientsRoute.TrimmedParam | src/app/api/clients/route.ts:24-26 | the parameter's trimmed value when it is not blank; absent otherwise |
| ClientsRoute.PlanGet | src/app/api/clients/route.ts:22-36 | rejects with 400 `Invalid petType filter` exactly when a non-blank `petType` is not allowed; otherwise lists with the trimmed names and pet type |
| ClientsRoute.HandleGet | src/app/api/clients/route.ts:22-42 | the rejection, or the service's list as a 200, or its failure as a 500 `Failed to fetch clients` with the error's message |
| ClientsRoute.PaddedPetTypeAccepted | src/app/api/clients/route.ts:26-35 | `petType` is trimmed before the check, so `" dog "` lists dogs |
| ClientsRoute.UnknownPetTypeRejectedWithoutListing | src/app/api/clients/route.ts:28-30 | an unknown pet type gets a 400 with the allowed-values detail, whatever the service would answer |
| ClientsRoute.FirstPetTypeParamWins | src/app/api/clients/route.ts:26 | only the first `petType` parameter is read |
| ClientsRoute.CommaJoinedPetTypesRejected | src/app/api/clients/route.ts:26-30 | `petType=<a>,<b>` is one value and is rejected |
| ClientsRoute.ListFailureIs500 | src/app/api/clients/route.ts:39-41 | a failing service call is a 500 whose only detail is the error's message |
| ClientsRoute.PostError | src/app/api/clients/route.ts:55-61 | a `SyntaxError` gives 400 `Invalid JSON body` without details; anything else gives 500 `Failed to create client` with its message |
| ClientsRoute.HandlePost | src/app/api/clients/route.ts:44-62 | every response has exactly one of data and error |
| ClientsRoute.AddFailureIs500 | src/app/api/clients/route.ts:53-61 | a valid payload whose insert throws anything but a `SyntaxError` gets 500 `Failed to create client` with the error's message as its one detail and no data |
| ClientsRoute.InvalidPayloadIs400 | src/app/api/clients/route.ts:47-51 | a payload that fails validation gets 400 `Validation failed` with the validator's errors, and the service is not called |
| ClientsRoute.CreatedIs201 | src/app/api/clients/route.ts:53-54 | a valid payload the service stores gets 201 with the created record |
| ClientsRoute.PostErrorStatuses | src/app/api/clients/route.ts:55-61 | a body that is not JSON is a 400 without details; any other error is a 500 with its message |
| ClientApi.RemoveParam | src/lib/api/clientApi.ts:21-29 | the pairs left are exactly those not named `key` |
| ClientApi.SetParam | src/lib/api/clientApi.ts:21-29 | afterwards the key has the one new value, other keys are untouched, and a new key is appended |
| ClientApi.Serialize | src/lib/api/clientApi.ts:31-32 | the serialised list is empty exactly when there are no parameters |
| ClientApi.BuildQueryString | src/lib/api/clientApi.ts:18-33 | `''` exactly when no field is truthy; otherwise `?` followed by the parameters that are set |
| ClientApi.QueryParamsExact | src/lib/api/clientApi.ts:21-29 | the parameters are exactly the truthy `name`, `petName` and `petType`, each with its value, in that order |
| ClientApi.PetTypesNeverSerialised | src/lib/api/clientApi.ts:21-29 | the `petTypes` list never affects the parameters |
| ClientApi.QueryRoundTrip | src/lib/api/clientApi.ts:18-33 | for trimmed filters with an allowed pet type, the list route reads back the same filters (less `petTypes`) |
| ClientApi.NormalizePetType | src/lib/api/clientApi.ts:35-41 | an allowed name yields its pet type; anything else throws `Invalid pet type in response: <v>` |
| ClientApi.NormalizePetTypeRoundTrip | src/lib/api/clientApi.ts:35-41 | every pet type survives the trip through its name |
| ClientApi.ToClientRecord | src/lib/api/clientApi.ts:43-55 | succeeds exactly for an allowed pet type; the strings are copied, the dates parsed, and the pet type narrowed |
| ClientApi.RecordRoundTrip | src/lib/api/clientApi.ts:43-55 | a record encoded by the server decodes to itself when parsing undoes formatting for each date |
| ClientApi.ErrorText | src/lib/api/clientApi.ts:64-67 | never empty; the error's message (or `Request failed` when it has none), followed by ` (<details joined by ", ">)` exactly when the details join to something |
| ClientApi.DetailsTextEmptyIff | src/lib/api/clientApi.ts:65-66 | the details part is empty exactly when there are no details, or only one empty detail |
| ClientApi.UnwrapResponse | src/lib/api/clientApi.ts:61-71 | yields the data exactly when the status is 2xx and there is no error; otherwise throws the error text |
| ClientApi.SuccessUnwraps | src/lib/api/clientApi.ts:64-70 | a server success with a 2xx status unwraps to its data |
| ClientApi.FailureThrows | src/lib/api/clientApi.ts:64-67 | a server failure throws its message and details, whatever its status |
| ClientApi.OneDetailText | src/lib/api/clientApi.ts:65-67 | one non-empty detail is appended in parentheses |
| ClientApi.ValidationFailureText | src/lib/api/clientApi.ts:64-67 | a create rejected by validation reads in the browser as `Validation failed (<messages joined by ", ">)`, whatever the service would have done |
| ClientValidation.InvalidCreateMessagesNonEmpty | src/services/client-validation.service.ts:83-93 | a rejected create carries at least one message and none of them is empty |
| ClientApi.ListFailureText | src/lib/api/clientApi.ts:64-67 | a failed server listing reads in the browser as `Failed to fetch clients (<message>)` |
| ClientsPage.GetErrorMessage | src/components/clients/clients-page.tsx:20-26 | an `Error`'s message, or `Something went wrong` |
| ClientsPage.TrimOrUndefined | src/components/clients/clients-page.tsx:30-31 | absent exactly when the text is absent or blank; otherwise its trimmed form |
| ClientsPage.NormalizeFilters | src/components/clients/clients-page.tsx:28-34 | names trimmed, or dropped when blank; an empty pet-type list dropped, a non-empty one kept; no `petType` |
| ClientsPage.TrimOrUndefinedTrimmed | src/components/clients/clients-page.tsx:30-31 | the result is absent or trimmed and non-empty, and normalising it again changes nothing |
| ClientsPage.NormalizeFiltersIdempotent | src/components/clients/clients-page.tsx:28-34 | normalising twice is normalising once |
| ClientsPage.NormalizedFiltersReachServer | src/components/clients/clients-page.tsx:28-34 | the list route receives the page's normalised filters, less the pet-type list |
| ClientsPage.PetTypeSelectionNotSent | src/components/clients/clients-page.tsx:28-34 | whatever pet types are ticked, the route is asked for the same filters, and without `petTypes` |
| ClientsPage.ToPayload | src/components/clients/clients-page.tsx:104-127 | names and phone trimmed; date and pet type as entered; blank notes dropped, others trimmed |
| ClientsPage.PayloadJson | src/components/clients/clients-page.tsx:105-112 | the JSON object has five fields, and a sixth, `notes`, only when notes are present |
| ClientsPage.PayloadValidated | src/components/clients/clients-page.tsx:105-112 | when each field passes its check, server validation yields exactly the payload's values |
| ClientsPage.AcceptedFormPassesServerValidation | src/components/clients/clients-page.tsx:100-112 | a form the dialog accepts, with a parsable date, passes the server's create validation with the trimmed values sent |
| ClientsPage.SubmitCall | src/components/clients/clients-page.tsx:103-128 | add calls create, edit calls update with the client's id, and edit without a client throws `Missing selected client` |
| ClientsPage.OnSubmitModal | src/components/clients/clients-page.tsx:100-135 | the modal closes exactly when the call succeeds; otherwise it stays and shows the call's error message |
| ClientsPage.EditWithoutClientFails | src/components/clients/clients-page.tsx:113-116 | an edit without a selected client shows `Missing selected client` without calling update |
| ClientsPage.ServerFailureShown | src/components/clients/clients-page.tsx:132-134 | a server failure is shown as the API client's error text |
| ClientModal.ToValues | src/components/clients/client-modal.tsx:45-58 | no client gives the default form; a client gives its fields, its formatted date, its pet type's name, and `''` for absent notes |
| ClientModal.Validate | src/components/clients/client-modal.tsx:60-72 | a field has an error exactly when its check fails, with that field's fixed message |
| ClientModal.NoFieldErrorIff | src/components/clients/client-modal.tsx:60-72 | no field fails exactly when name, phone and pet name are not blank, a date is given, and the pet type is allowed |
| ClientModal.DefaultFormErrors | src/components/clients/client-modal.tsx:32-39 | the default form fails on name, phone, pet name and birth date, and on nothing else |
| ClientModal.StoredClientFormValid | src/components/clients/client-modal.tsx:45-72 | the form opened on a stored client passes validation when the formatted date is not empty |
| ClientModal.ClientModalState.constructor | src/components/clients/client-modal.tsx:87-89 | the default form, no errors, no pending delete |
| ClientModal.ClientModalState.Open | src/components/clients/client-modal.tsx:95-101 | the form reset from the client, errors cleared, delete pre-armed only in edit mode when asked |
| ClientModal.ClientModalState.FieldChange | src/components/clients/client-modal.tsx:103-115 | the field takes the value and loses its error; nothing else changes |
| ClientModal.ClientModalState.Submit | src/components/clients/client-modal.tsx:117-127 | the errors are recomputed, and the values are handed on exactly when the form is acceptable |
| ClientModal.ClientModalState.DeleteClick | src/components/clients/client-modal.tsx:129-140 | nothing happens unless delete is possible; the first click arms; delete runs only on a click while armed |
| ClientModal.WithField | src/components/clients/client-modal.tsx:103-108 | the named field reads the new value and every other field reads as before |
| ClientModal.FieldValuesDetermineForm | src/components/clients/client-modal.tsx:103-108 | two forms whose six fields all read alike are the same form, so `WithField` determines the whole next form |
| ClientModal.TwoClicksDelete | src/components/clients/client-modal.tsx:129-140 | in edit mode with a client and a handler, the first click does not delete and the second does |
| ClientModal.AddModeNeverDeletes | src/components/clients/client-modal.tsx:93 | in add mode no click deletes |
| ClientTable.GetPetAge | src/components/clients/client-table.tsx:24-36 | never negative; for a past birth date, the age-th birthday is reached and the next is not; a future birth date gives 0 |
| ClientTable.HasHadBirthdayIff | src/components/clients/client-table.tsx:27-29 | the birthday counts as had exactly when this year's anniversary is not after today; in the birth month, when today's day is at least the birth day |
| ClientTable.AgeIsUnique | src/components/clients/client-table.tsx:24-36 | only one count of years has its anniversary reached and the next not |
| ClientTable.BirthdayToday | src/components/clients/client-table.tsx:24-36 | on the birthday, `n` years on, the age is `n` |
| ClientTable.DayBeforeBirthday | src/components/clients/client-table.tsx:31-33 | the day before the `n`-th birthday, the age is `n - 1` |
| ClientTableConfig.SomeSortable | src/components/clients/client-table-config.tsx:58 | true exactly when some column has the id and is sortable |
| ClientTableConfig.IsSortableClientColumn | src/components/clients/client-table-config.tsx:57-59 | true exactly for `name` and `petName` |
| ClientTableConfig.ColumnsInOrder | src/components/clients/client-table-config.tsx:12-45 | six columns: name, phone, pet name, pet age, pet type, actions; no id twice |
| QueryKeys.AllReachesEveryKey | src/constants/query-keys.ts:5-7 | `all` is a prefix of every list key and every detail key |
| QueryKeys.ListAndDetailApart | src/constants/query-keys.ts:6-7 | no list key is a detail key, nor a prefix of one, nor the other way round |
| QueryKeys.KeysInjective | src/constants/query-keys.ts:6-7 | list keys are equal exactly when their filters are, and detail keys exactly when their ids are |

## Left out

- `src/services/db.service.ts`: the cached connection promise and the environment variables. A failing connection is a `StoreFailure` argument.
- The MongoDB driver is not modelled:
  - regular-expression evaluation is a parameter, with a law for plain ASCII patterns;
  - `ObjectId.isValid` is modelled as 24 hexadecimal digits;
  - the generated id is an argument.
- What `$set` does with an `undefined` `notes` is modelled as clearing the notes.
- `fetch` and the wrappers around it (`getClients`, `getClientById`, `createClient`, `updateClient`, `deleteClient`) are I/O around the modelled `BuildQueryString`, `UnwrapResponse` and `ToClientRecord`.
- `NextResponse.json` and `request.json()`: a response is a status and an envelope, and the parsed body (or the error it threw) is an input.
- URL percent-encoding by `URLSearchParams`: `Serialize` writes `name=value` pairs unescaped.
- JavaScript `Date`: parsing, `toISOString`, the local-time getters and `new Date()` are parameters. Timestamps are milliseconds.
- Object key order: the model takes the order of an object's entries as its enumeration order. The reordering of integer-like keys is not modelled.
- Duplicate object keys: a `JObject` may list a key twice, which no object `JSON.parse` returns. Lookups then read the first entry where `JSON.parse` would have kept the last, and an unknown key repeated in the list is reported twice.
- JsStrings.ToLower: lower-cases ASCII letters only, because the full Unicode case mapping is not needed by the phrases and patterns the model reasons about.
- ClientService.ClientStore.AddClient: requires the generated id to be fresh and in canonical form, as the driver guarantees. A successful read-back then always finds the document, so the `Failed to load created client` branch is unreachable and not modelled. A read-back that itself fails is modelled.
- ClientService.ClientStore.UpdateClient: `notes: undefined` in the patch and an absent `notes` in the document are the same state, `None`.
- ClientService.PatchKeepsDocumentWellFormed: `createdAt <= updatedAt` is proved only when the clock does not go back, which the source does not enforce.
- ClientValidation.NoValidFieldsIff: characterises the message through `undefined` values. That a JSON body, which has no `undefined`, never produces it is stated in prose and is not a lemma.
- The page's debounce timer, the React state hooks and effects, rendering, `onModalClose` and `isBusy`, and the delete dialog are UI plumbing.
- The `[id]` route (`src/app/api/clients/[id]/route.ts`) is not part of this model. Its invalid-id classification is covered through `RouteErrors` and `ClientService.ServiceInvalidIdIsClassified`.
- `src/components/clients/client-filters.tsx`, `client-form-fields.tsx`, the hooks, the providers, the styles and `scripts/api-smoke-test.mjs` are rendering, wiring or network code.
