/** The records, inputs, patches, filters and response envelopes the clinic
    application passes between its layers. */
module ClientTypes {
  import opened Wrappers
  import opened JsRuntime

  /** `'dog' | 'cat' | 'parrot'`. */
  datatype PetType = Dog | Cat | Parrot

  function PetTypeName(t: PetType): string {
    match t
    case Dog => "dog"
    case Cat => "cat"
    case Parrot => "parrot"
  }

  /** The allowed pet-type names, in the order every error message lists them. */
  const AllowedPetTypeNames: seq<string> := ["dog", "cat", "parrot"]

  /** `allowedPetTypes.includes(s)`, returning the pet type that matched. */
  function PetTypeFromName(s: string): (r: Option<PetType>)
    ensures r.Some? <==> s in AllowedPetTypeNames
    ensures r.Some? ==> PetTypeName(r.value) == s
  {
    if s == "dog" then Some(Dog)
    else if s == "cat" then Some(Cat)
    else if s == "parrot" then Some(Parrot)
    else None
  }

  /** Every pet type reads back from its own name. */
  lemma PetTypeNameRoundTrip(t: PetType)
    ensures PetTypeFromName(PetTypeName(t)) == Some(t)
  {
  }

  /** `ClientInput`: what a successful create validation yields. */
  datatype ClientInput = ClientInput(
    name: string,
    phone: string,
    petName: string,
    petBirthDate: JsDate,
    petType: PetType,
    notes: Option<string>)

  /** `ClientRecord`: a stored client with its identity and timestamps. */
  datatype ClientRecord = ClientRecord(
    id: string,
    name: string,
    phone: string,
    petName: string,
    petBirthDate: JsDate,
    petType: PetType,
    notes: Option<string>,
    createdAt: JsDate,
    updatedAt: JsDate)

  /** `Partial<ClientInput>`: each field is present or absent. `notes` can be
      present with the value `undefined`, which is why it is doubly optional. */
  datatype ClientPatch = ClientPatch(
    name: Option<string>,
    phone: Option<string>,
    petName: Option<string>,
    petBirthDate: Option<JsDate>,
    petType: Option<PetType>,
    notes: Option<Option<string>>)

  const EmptyPatch := ClientPatch(None, None, None, None, None, None)

  /** A filter object as the code reads it at run time. `name`, `petName` and
      `petTypes` are the declared fields of `ClientFilters`; `petType` is not
      declared, yet the list route passes it and both `buildFilters` and
      `buildQueryString` read it. */
  datatype ClientFilters = ClientFilters(
    name: Option<string>,
    petName: Option<string>,
    petTypes: Option<seq<PetType>>,
    petType: Option<string>)

  const NoFilters := ClientFilters(None, None, None, None)

  /** JavaScript truthiness of an optional string: present and not empty. */
  predicate Truthy(s: Option<string>) {
    s.Some? && s.value != ""
  }

  /** `ApiError`. */
  datatype ApiError = ApiError(message: string, details: Option<seq<string>>)

  /** The `{ data, error }` body of every API response; `None` stands for `null`. */
  datatype Envelope<T> = Envelope(data: Option<T>, error: Option<ApiError>)

  /** An HTTP response: its status and JSON body. */
  datatype Response<T> = Response(status: int, body: Envelope<T>)

  /** `response.ok`. */
  predicate IsOkStatus(status: int) {
    200 <= status <= 299
  }
}
