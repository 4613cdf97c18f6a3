/** The collection route (`src/app/api/clients/route.ts`): `GET` turns the
    query string into filters and lists clients, `POST` validates a body and
    adds a client. Both are straight-line decisions over the results of the
    calls they await, which are passed in: the parsed body, and the service's
    answers as functions of the arguments the route passes. */
module ClientsRoute {
  import opened Wrappers
  import opened JsStrings
  import opened JsRuntime
  import opened ClientTypes
  import opened ClientValidation
  import opened RouteResponse
  import opened RouteErrors

  /** A URL's search parameters, in the order they appear. */
  type SearchParams = seq<(string, string)>

  /** `searchParams.get(key)`: the first value given for the key. */
  function SearchParam(params: SearchParams, key: string): (r: Option<string>)
    ensures r.None? <==> forall i :: 0 <= i < |params| ==> params[i].0 != key
    ensures r.Some? ==> exists i :: 0 <= i < |params| && params[i] == (key, r.value)
                          && forall j :: 0 <= j < i ==> params[j].0 != key
  {
    if params == [] then None
    else if params[0].0 == key then Some(params[0].1)
    else
      var r := SearchParam(params[1..], key);
      if r.Some? then
        var i :| 0 <= i < |params[1..]| && params[1..][i] == (key, r.value)
                  && forall j :: 0 <= j < i ==> params[1..][j].0 != key;
        assert params[i + 1] == (key, r.value);
        assert forall j :: 0 <= j < i + 1 ==> params[j].0 != key by {
          forall j | 0 <= j < i + 1 ensures params[j].0 != key {
            if j > 0 {
              assert params[j] == params[1..][j - 1];
            }
          }
        }
        r
      else
        assert forall i :: 0 <= i < |params| ==> params[i].0 != key by {
          forall i | 0 <= i < |params| ensures params[i].0 != key {
            if i > 0 {
              assert params[i] == params[1..][i - 1];
            }
          }
        }
        r
  }

  /** `parsePetType`: the pet type a non-empty allowed name denotes. */
  function ParsePetType(value: Option<string>): (r: Option<PetType>)
    ensures r.Some? <==> value.Some? && value.value in AllowedPetTypeNames
    ensures r.Some? ==> PetTypeName(r.value) == value.value
  {
    if value.None? || value.value == "" then None
    else PetTypeFromName(value.value)
  }

  /** `searchParams.get(key)?.trim() || undefined`. */
  function TrimmedParam(params: SearchParams, key: string): (r: Option<string>)
    ensures r.Some? ==> r.value != "" && SearchParam(params, key).Some? && r.value == Trim(SearchParam(params, key).value)
    ensures r.None? ==> SearchParam(params, key).None? || Trim(SearchParam(params, key).value) == ""
  {
    var v := SearchParam(params, key);
    if v.Some? && Trim(v.value) != "" then Some(Trim(v.value)) else None
  }

  const InvalidPetTypeFilter := "Invalid petType filter"
  const FetchFailed := "Failed to fetch clients"
  const ValidationFailed := "Validation failed"
  const InvalidJsonBody := "Invalid JSON body"
  const CreateFailed := "Failed to create client"

  /** What `GET` decides before it awaits anything: a rejection, or the
      filters it passes to `GetClients`. */
  datatype GetPlan = Reject(response: Response<seq<ClientRecord>>) | List(filters: ClientFilters)

  function PlanGet(params: SearchParams): (r: GetPlan)
    ensures r.Reject? <==> TrimmedParam(params, "petType").Some? && TrimmedParam(params, "petType").value !in AllowedPetTypeNames
    ensures r.Reject? ==> r.response == Failure(InvalidPetTypeFilter, 400, Some([PetTypeNotAllowed]))
    ensures r.List? ==> r.filters == ClientFilters(
      TrimmedParam(params, "name"),
      TrimmedParam(params, "petName"),
      None,
      TrimmedParam(params, "petType"))
  {
    var name := TrimmedParam(params, "name");
    var petName := TrimmedParam(params, "petName");
    var petTypeRaw := TrimmedParam(params, "petType");
    if petTypeRaw.Some? && ParsePetType(petTypeRaw).None? then
      Reject(Failure(InvalidPetTypeFilter, 400, Some([PetTypeNotAllowed])))
    else
      var petType := ParsePetType(petTypeRaw);
      List(ClientFilters(name, petName, None, if petType.Some? then Some(PetTypeName(petType.value)) else None))
  }

  /** The service's answer to a list call, for each filter object. */
  type ListCall = ClientFilters -> Outcome<seq<ClientRecord>>

  /** `GET /api/clients`. */
  function HandleGet(params: SearchParams, list: ListCall): (r: Response<seq<ClientRecord>>)
    ensures OneSided(r.body)
    ensures PlanGet(params).Reject? ==> r == PlanGet(params).response
    ensures PlanGet(params).List? ==>
      match list(PlanGet(params).filters)
      case Ok(clients) => r == Success(clients)
      case Throws(e) => r == Failure(FetchFailed, 500, Some([GetErrorMessage(e)]))
  {
    match PlanGet(params)
    case Reject(response) => response
    case List(filters) =>
      match list(filters)
      case Ok(clients) => Success(clients)
      case Throws(e) => Failure(FetchFailed, 500, Some([GetErrorMessage(e)]))
  }

  /** A `petType` that trims to an allowed name is passed on trimmed, so
      `" dog "` lists dogs. */
  lemma PaddedPetTypeAccepted(params: SearchParams, t: PetType)
    requires SearchParam(params, "petType").Some? && Trim(SearchParam(params, "petType").value) == PetTypeName(t)
    ensures PlanGet(params).List? && PlanGet(params).filters.petType == Some(PetTypeName(t))
  {
  }

  /** A non-blank `petType` outside the allowed names is answered with 400
      before the service is called: the answer does not depend on it. */
  lemma UnknownPetTypeRejectedWithoutListing(params: SearchParams, list1: ListCall, list2: ListCall)
    requires SearchParam(params, "petType").Some?
    requires Trim(SearchParam(params, "petType").value) != ""
    requires Trim(SearchParam(params, "petType").value) !in AllowedPetTypeNames
    ensures HandleGet(params, list1) == HandleGet(params, list2)
    ensures HandleGet(params, list1).status == 400
    ensures HandleGet(params, list1).body.error == Some(ApiError(InvalidPetTypeFilter, Some([PetTypeNotAllowed])))
  {
  }

  /** Only the first `petType` parameter is read: with `dog` first, a later
      `cat` changes nothing. */
  lemma FirstPetTypeParamWins(rest: SearchParams)
    ensures PlanGet([("petType", "dog")] + rest).List?
    ensures PlanGet([("petType", "dog")] + rest).filters.petType == Some("dog")
  {
    var params := [("petType", "dog")] + rest;
    assert params[0] == ("petType", "dog");
    TrimStartNoop("dog");
    TrimEndNoop("dog");
  }

  /** A comma-joined pair of pet types is one value, and not a pet type. */
  lemma CommaJoinedPetTypesRejected(a: PetType, b: PetType, rest: SearchParams)
    ensures PlanGet([("petType", PetTypeName(a) + "," + PetTypeName(b))] + rest).Reject?
  {
    var v := PetTypeName(a) + "," + PetTypeName(b);
    CommaJoinedIsTrimmedUnknown(a, b);
    FirstUnknownPetTypeRejected(v, rest);
  }

  /** `"<a>,<b>"` has no whitespace at its ends and names no pet type. */
  lemma CommaJoinedIsTrimmedUnknown(a: PetType, b: PetType)
    ensures var v := PetTypeName(a) + "," + PetTypeName(b);
      v != "" && Trim(v) == v && v !in AllowedPetTypeNames
  {
    var v := PetTypeName(a) + "," + PetTypeName(b);
    assert !IsWhitespace(v[0]) && !IsWhitespace(v[|v| - 1]) by {
      assert v[0] == PetTypeName(a)[0] && v[|v| - 1] == PetTypeName(b)[|PetTypeName(b)| - 1];
    }
    TrimNoop(v);
    assert v !in AllowedPetTypeNames by {
      assert |v| >= 7;
      assert forall n :: n in AllowedPetTypeNames ==> |n| <= 6;
    }
  }

  /** A leading trimmed `petType` outside the allowed names is rejected. */
  lemma FirstUnknownPetTypeRejected(v: string, rest: SearchParams)
    requires v != "" && Trim(v) == v && v !in AllowedPetTypeNames
    ensures PlanGet([("petType", v)] + rest).Reject?
  {
    var params := [("petType", v)] + rest;
    assert SearchParam(params, "petType") == Some(v) by {
      assert params[0] == ("petType", v);
    }
    assert TrimmedParam(params, "petType") == Some(v);
  }

  /** A failing service call becomes a 500 whose only detail is the error's
      message. */
  lemma ListFailureIs500(params: SearchParams, list: ListCall, e: Thrown)
    requires PlanGet(params).List? && list(PlanGet(params).filters) == Throws(e)
    ensures HandleGet(params, list).status == 500
    ensures HandleGet(params, list).body.error == Some(ApiError(FetchFailed, Some([GetErrorMessage(e)])))
  {
  }

  /** The service's answer to an add call, for each validated input. */
  type AddCall = ClientInput -> Outcome<ClientRecord>

  /** The `catch` of `POST`: a `SyntaxError` means the body was not JSON. */
  function PostError(e: Thrown): (r: Response<ClientRecord>)
    ensures e.ErrorObject? && e.cls == SyntaxError ==> r == Failure(InvalidJsonBody, 400, None)
    ensures !(e.ErrorObject? && e.cls == SyntaxError) ==> r == Failure(CreateFailed, 500, Some([GetErrorMessage(e)]))
  {
    if e.ErrorObject? && e.cls == SyntaxError then Failure(InvalidJsonBody, 400, None)
    else Failure(CreateFailed, 500, Some([GetErrorMessage(e)]))
  }

  /** `POST /api/clients`: `body` is what `request.json()` produced or threw. */
  function HandlePost(body: Outcome<JsValue>, parse: DateParser, add: AddCall): (r: Response<ClientRecord>)
    ensures OneSided(r.body)
  {
    match body
    case Throws(e) => PostError(e)
    case Ok(payload) =>
      match ValidateCreate(payload, parse)
      case Invalid(errors) => Failure(ValidationFailed, 400, Some(errors))
      case Valid(input) =>
        match add(input)
        case Ok(created) => Success(created, 201)
        case Throws(e) => PostError(e)
  }

  /** A payload that fails validation is a 400 carrying the validator's
      errors, and the service is not called. */
  lemma InvalidPayloadIs400(payload: JsValue, parse: DateParser, add1: AddCall, add2: AddCall)
    requires ValidateCreate(payload, parse).Invalid?
    ensures HandlePost(Ok(payload), parse, add1) == HandlePost(Ok(payload), parse, add2)
    ensures HandlePost(Ok(payload), parse, add1) ==
      Failure(ValidationFailed, 400, Some(ValidateCreate(payload, parse).errors))
  {
  }

  /** A valid payload that the service stores is a 201 carrying the record. */
  lemma CreatedIs201(payload: JsValue, parse: DateParser, add: AddCall)
    requires ValidateCreate(payload, parse).Valid?
    requires add(ValidateCreate(payload, parse).data).Ok?
    ensures HandlePost(Ok(payload), parse, add).status == 201
    ensures HandlePost(Ok(payload), parse, add).body.data == Some(add(ValidateCreate(payload, parse).data).value)
  {
  }

  /** A valid payload whose add call throws goes through the same `catch`:
      unless the error is a `SyntaxError`, the answer is a 500 `Failed to
      create client` carrying the error's message, and no data. */
  lemma AddFailureIs500(payload: JsValue, parse: DateParser, add: AddCall, e: Thrown)
    requires ValidateCreate(payload, parse).Valid?
    requires add(ValidateCreate(payload, parse).data) == Throws(e)
    ensures HandlePost(Ok(payload), parse, add) == PostError(e)
    ensures !(e.ErrorObject? && e.cls == SyntaxError) ==>
      && HandlePost(Ok(payload), parse, add).status == 500
      && HandlePost(Ok(payload), parse, add).body.data == None
      && HandlePost(Ok(payload), parse, add).body.error == Some(ApiError(CreateFailed, Some([GetErrorMessage(e)])))
  {
  }

  /** A body that is not JSON is a 400 without details; any other error is a
      500 with its message. */
  lemma PostErrorStatuses(e: Thrown, parse: DateParser, add: AddCall)
    ensures e.ErrorObject? && e.cls == SyntaxError ==>
      HandlePost(Throws(e), parse, add) == Failure(InvalidJsonBody, 400, None)
    ensures !(e.ErrorObject? && e.cls == SyntaxError) ==>
      HandlePost(Throws(e), parse, add).status == 500
      && HandlePost(Throws(e), parse, add).body.error == Some(ApiError(CreateFailed, Some([GetErrorMessage(e)])))
  {
  }
}
