/** The browser's API client (`src/lib/api/clientApi.ts`): the query string
    it appends to the list URL, the narrowing of the pet type a response
    carries, the conversion of a response payload into a record, and the
    error it throws for a failed response. `fetch` itself is not modelled:
    the response it yields is an argument. */
module ClientApi {
  import opened Wrappers
  import opened JsStrings
  import opened JsRuntime
  import opened ClientTypes
  import RouteErrors
  import RouteResponse
  import ClientsRoute
  import ClientValidation

  /** The name/value list of a `URLSearchParams`, in order. */
  type ParamList = seq<(string, string)>

  /** Every pair of `ps` not named `key`, in order. */
  function RemoveParam(ps: ParamList, key: string): (r: ParamList)
    ensures forall p :: p in r <==> p in ps && p.0 != key
  {
    if ps == [] then []
    else if ps[0].0 == key then RemoveParam(ps[1..], key)
    else [ps[0]] + RemoveParam(ps[1..], key)
  }

  /** `params.set(key, value)`: the first pair named `key` takes the new value
      and the later ones are dropped; without such a pair, the new pair is
      appended. */
  function SetParam(ps: ParamList, key: string, value: string): (r: ParamList)
    ensures (key, value) in r
    ensures forall p :: p in r && p.0 == key ==> p == (key, value)
    ensures forall p: (string, string) :: p.0 != key ==> (p in r <==> p in ps)
    ensures (forall i :: 0 <= i < |ps| ==> ps[i].0 != key) ==> r == ps + [(key, value)]
  {
    if ps == [] then [(key, value)]
    else if ps[0].0 == key then [(key, value)] + RemoveParam(ps[1..], key)
    else [ps[0]] + SetParam(ps[1..], key, value)
  }

  /** `params.toString()`: `name=value` pairs joined by `&` (the percent-encoding
      of reserved characters is not modelled). */
  function Serialize(ps: ParamList): (r: string)
    ensures r == "" <==> ps == []
  {
    var pairs := seq(|ps|, i requires 0 <= i < |ps| => ps[i].0 + "=" + ps[i].1);
    assert ps != [] ==> |pairs[0]| > 0;
    Join(pairs, "&")
  }

  /** The parameters `buildQueryString` sets, in the order it sets them: each
      of `name`, `petName` and `petType` whose value is truthy. */
  function QueryParams(f: ClientFilters): ParamList {
    (if Truthy(f.name) then [("name", f.name.value)] else [])
    + (if Truthy(f.petName) then [("petName", f.petName.value)] else [])
    + (if Truthy(f.petType) then [("petType", f.petType.value)] else [])
  }

  /** `buildQueryString`: the parameters are set one after the other on an
      empty `URLSearchParams`, and the query is prefixed with `?` unless it
      is empty. */
  method BuildQueryString(filters: ClientFilters) returns (query: string)
    ensures query == "" <==> !Truthy(filters.name) && !Truthy(filters.petName) && !Truthy(filters.petType)
    ensures query != "" ==> query == "?" + Serialize(QueryParams(filters))
  {
    var params: ParamList := [];
    if Truthy(filters.name) {
      params := SetParam(params, "name", filters.name.value);
    }
    if Truthy(filters.petName) {
      params := SetParam(params, "petName", filters.petName.value);
    }
    if Truthy(filters.petType) {
      params := SetParam(params, "petType", filters.petType.value);
    }
    assert params == QueryParams(filters);
    var serialized := Serialize(params);
    query := if serialized != "" then "?" + serialized else "";
  }

  /** Where each parameter name stands in the order `buildQueryString` sets them. */
  function Rank(key: string): int {
    if key == "name" then 0 else if key == "petName" then 1 else 2
  }

  /** The query carries exactly the truthy fields among `name`, `petName` and
      `petType`, each with its value, and in that order. */
  lemma QueryParamsExact(f: ClientFilters)
    ensures forall k, v :: (k, v) in QueryParams(f) <==>
      (k == "name" && Truthy(f.name) && v == f.name.value)
      || (k == "petName" && Truthy(f.petName) && v == f.petName.value)
      || (k == "petType" && Truthy(f.petType) && v == f.petType.value)
    ensures forall i, j :: 0 <= i < j < |QueryParams(f)| ==> Rank(QueryParams(f)[i].0) < Rank(QueryParams(f)[j].0)
  {
  }

  /** The `petTypes` list never reaches the query string. */
  lemma PetTypesNeverSerialised(f: ClientFilters, petTypes: Option<seq<PetType>>)
    ensures QueryParams(f.(petTypes := petTypes)) == QueryParams(f)
  {
  }

  /** Values that are absent, or not blank and already trimmed. */
  predicate TrimmedOrAbsent(s: Option<string>) {
    s.None? || (s.value != "" && Trim(s.value) == s.value)
  }

  /** A filter object whose values are already trimmed, and whose `petType` (if
      any) is an allowed name, reads back from its query as the same filters
      less `petTypes`: the list route sees what the client sent. */
  lemma QueryRoundTrip(f: ClientFilters)
    requires TrimmedOrAbsent(f.name) && TrimmedOrAbsent(f.petName) && TrimmedOrAbsent(f.petType)
    requires f.petType.Some? ==> f.petType.value in AllowedPetTypeNames
    ensures ClientsRoute.PlanGet(QueryParams(f)) == ClientsRoute.List(f.(petTypes := None))
  {
    var ps := QueryParams(f);
    assert ClientsRoute.TrimmedParam(ps, "name") == f.name
        && ClientsRoute.TrimmedParam(ps, "petName") == f.petName
        && ClientsRoute.TrimmedParam(ps, "petType") == f.petType by {
      QueryParamsExact(f);
      SearchParamOfDistinct(ps, "name", f.name);
      SearchParamOfDistinct(ps, "petName", f.petName);
      SearchParamOfDistinct(ps, "petType", f.petType);
      TrimmedParamOf(ps, "name", f.name);
      TrimmedParamOf(ps, "petName", f.petName);
      TrimmedParamOf(ps, "petType", f.petType);
    }
  }

  /** A parameter given trimmed and not blank reads back unchanged. */
  lemma TrimmedParamOf(ps: ParamList, key: string, value: Option<string>)
    requires ClientsRoute.SearchParam(ps, key) == value && TrimmedOrAbsent(value)
    ensures ClientsRoute.TrimmedParam(ps, key) == value
  {
  }

  /** Reading back one parameter of a list whose names are distinct. */
  lemma SearchParamOfDistinct(ps: ParamList, key: string, value: Option<string>)
    requires forall i, j :: 0 <= i < j < |ps| ==> ps[i].0 != ps[j].0
    requires value.Some? ==> (key, value.value) in ps
    requires value.None? ==> forall v :: (key, v) !in ps
    ensures ClientsRoute.SearchParam(ps, key) == value
  {
    var r := ClientsRoute.SearchParam(ps, key);
    if value.Some? && r.Some? {
      var i :| 0 <= i < |ps| && ps[i] == (key, value.value);
      var j :| 0 <= j < |ps| && ps[j] == (key, r.value) && forall k :: 0 <= k < j ==> ps[k].0 != key;
      assert i == j;
    }
  }

  const InvalidPetTypeInResponse := "Invalid pet type in response: "

  /** `normalizePetType`: an allowed name is passed through, anything else
      throws. */
  function NormalizePetType(value: string): (r: Outcome<PetType>)
    ensures r.Ok? <==> value in AllowedPetTypeNames
    ensures r.Ok? ==> PetTypeName(r.value) == value
    ensures r.Throws? ==> r.error == Err(InvalidPetTypeInResponse + value)
  {
    match PetTypeFromName(value)
    case Some(t) => Ok(t)
    case None => Throws(Err(InvalidPetTypeInResponse + value))
  }

  /** Every pet type survives the trip through its name. */
  lemma NormalizePetTypeRoundTrip(t: PetType)
    ensures NormalizePetType(PetTypeName(t)) == Ok(t)
  {
    PetTypeNameRoundTrip(t);
  }

  /** A record as the response's JSON carries it: dates are strings. */
  datatype ClientResponsePayload = ClientResponsePayload(
    id: string,
    name: string,
    phone: string,
    petName: string,
    petBirthDate: string,
    petType: string,
    notes: Option<string>,
    createdAt: string,
    updatedAt: string)

  /** `toClientRecord`: the strings are copied, the dates parsed, and the pet
      type narrowed. */
  function ToClientRecord(payload: ClientResponsePayload, parse: DateParser): (r: Outcome<ClientRecord>)
    ensures r.Ok? <==> payload.petType in AllowedPetTypeNames
    ensures r.Throws? ==> r.error == Err(InvalidPetTypeInResponse + payload.petType)
    ensures r.Ok? ==>
      && r.value.id == payload.id && r.value.name == payload.name
      && r.value.phone == payload.phone && r.value.petName == payload.petName
      && r.value.notes == payload.notes
      && PetTypeName(r.value.petType) == payload.petType
      && r.value.petBirthDate == parse(payload.petBirthDate)
      && r.value.createdAt == parse(payload.createdAt)
      && r.value.updatedAt == parse(payload.updatedAt)
  {
    match NormalizePetType(payload.petType)
    case Throws(e) => Throws(e)
    case Ok(t) => Ok(ClientRecord(
      payload.id, payload.name, payload.phone, payload.petName,
      parse(payload.petBirthDate), t, payload.notes,
      parse(payload.createdAt), parse(payload.updatedAt)))
  }

  /** How the server's JSON encoding writes a record: every `Date` through
      the given formatter (`toJSON`). */
  function ToPayload(rec: ClientRecord, format: JsDate -> string): (p: ClientResponsePayload)
    ensures p.id == rec.id && p.petType == PetTypeName(rec.petType)
  {
    ClientResponsePayload(
      rec.id, rec.name, rec.phone, rec.petName, format(rec.petBirthDate),
      PetTypeName(rec.petType), rec.notes, format(rec.createdAt), format(rec.updatedAt))
  }

  /** A record the server sends reaches the browser unchanged, provided that
      parsing reads back what formatting wrote for each of its dates. */
  lemma RecordRoundTrip(rec: ClientRecord, format: JsDate -> string, parse: DateParser)
    requires parse(format(rec.petBirthDate)) == rec.petBirthDate
    requires parse(format(rec.createdAt)) == rec.createdAt
    requires parse(format(rec.updatedAt)) == rec.updatedAt
    ensures ToClientRecord(ToPayload(rec, format), parse) == Ok(rec)
  {
    PetTypeNameRoundTrip(rec.petType);
  }

  const RequestFailed := "Request failed"

  /** `json.error?.details?.join(', ')`, with `undefined` as the empty string. */
  function DetailsText(error: Option<ApiError>): string {
    if error.Some? && error.value.details.Some? then Join(error.value.details.value, ", ") else ""
  }

  /** The message `unwrapResponse` throws: the error's message (or `Request
      failed` when it has none), followed by the details in parentheses when
      they join to a non-empty string. */
  function ErrorText(error: Option<ApiError>): (r: string)
    ensures r != ""
    ensures error.Some? && error.value.message != "" ==>
      |error.value.message| <= |r| && r[..|error.value.message|] == error.value.message
    ensures DetailsText(error) == "" ==>
      r == (if error.Some? && error.value.message != "" then error.value.message else RequestFailed)
    ensures DetailsText(error) != "" ==>
      r == (if error.Some? && error.value.message != "" then error.value.message else RequestFailed)
        + " (" + DetailsText(error) + ")"
  {
    var message := if error.Some? && error.value.message != "" then error.value.message else RequestFailed;
    var details := DetailsText(error);
    message + (if details != "" then " (" + details + ")" else "")
  }

  /** The details part is present exactly when there is more than one detail,
      or one non-empty detail. */
  lemma DetailsTextEmptyIff(error: Option<ApiError>)
    ensures DetailsText(error) == "" <==>
      error.None? || error.value.details.None? || error.value.details.value == []
      || (|error.value.details.value| == 1 && error.value.details.value[0] == "")
  {
    if error.Some? && error.value.details.Some? {
      JoinEmptyIff(error.value.details.value, ", ");
    }
  }

  /** `unwrapResponse`: a response that is not ok, or that carries an error,
      throws; any other yields its data. */
  function UnwrapResponse<T>(response: Response<T>): (r: Outcome<Option<T>>)
    ensures r.Ok? <==> IsOkStatus(response.status) && response.body.error.None?
    ensures r.Ok? ==> r.value == response.body.data
    ensures r.Throws? ==> r.error == Err(ErrorText(response.body.error))
  {
    if !IsOkStatus(response.status) || response.body.error.Some? then
      Throws(Err(ErrorText(response.body.error)))
    else
      Ok(response.body.data)
  }

  /** A success the server builds with a 2xx status unwraps to its data. */
  lemma SuccessUnwraps<T>(data: T, status: int)
    requires IsOkStatus(status)
    ensures UnwrapResponse(RouteResponse.Success(data, status)) == Ok(Some(data))
  {
  }

  /** A failure the server builds throws, whatever its status, with the
      failure's message and details. */
  lemma FailureThrows<T>(message: string, status: int, details: Option<seq<string>>)
    ensures UnwrapResponse(RouteResponse.Failure<T>(message, status, details))
      == Throws(Err(ErrorText(Some(ApiError(message, details)))))
  {
  }

  /** When listing fails on the server with a message, the browser's error
      reads `Failed to fetch clients (<message>)`. */
  lemma ListFailureText(params: ClientsRoute.SearchParams, list: ClientsRoute.ListCall, e: Thrown)
    requires ClientsRoute.PlanGet(params).List? && list(ClientsRoute.PlanGet(params).filters) == Throws(e)
    requires RouteErrors.GetErrorMessage(e) != ""
    ensures UnwrapResponse(ClientsRoute.HandleGet(params, list))
      == Throws(Err(ClientsRoute.FetchFailed + " (" + RouteErrors.GetErrorMessage(e) + ")"))
  {
    ClientsRoute.ListFailureIs500(params, list, e);
    OneDetailText(ClientsRoute.FetchFailed, RouteErrors.GetErrorMessage(e));
  }

  /** One non-empty detail is appended in parentheses. */
  lemma OneDetailText(message: string, detail: string)
    requires message != "" && detail != ""
    ensures ErrorText(Some(ApiError(message, Some([detail])))) == message + " (" + detail + ")"
  {
    assert DetailsText(Some(ApiError(message, Some([detail])))) == detail;
  }

  /** A create whose payload fails validation makes the browser throw
      `Validation failed (<messages joined by ", ">)`, whatever the service
      would have done. */
  lemma ValidationFailureText(payload: JsValue, parse: DateParser, add: ClientsRoute.AddCall)
    requires ClientValidation.ValidateCreate(payload, parse).Invalid?
    ensures UnwrapResponse(ClientsRoute.HandlePost(Ok(payload), parse, add))
      == Throws(Err(ClientsRoute.ValidationFailed + " ("
        + Join(ClientValidation.ValidateCreate(payload, parse).errors, ", ") + ")"))
  {
    var errors := ClientValidation.ValidateCreate(payload, parse).errors;
    ClientsRoute.InvalidPayloadIs400(payload, parse, add, add);
    ClientValidation.InvalidCreateMessagesNonEmpty(payload, parse);
    JoinEmptyIff(errors, ", ");
    assert Join(errors, ", ") != "" by {
      if |errors| == 1 {
        assert errors[0] in errors;
      }
    }
    assert DetailsText(Some(ApiError(ClientsRoute.ValidationFailed, Some(errors)))) == Join(errors, ", ");
  }
}
