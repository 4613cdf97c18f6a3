/** The page's logic (`src/components/clients/clients-page.tsx`): how typed
    filters are normalised before they are sent, how a thrown value becomes
    the message shown, and how a submitted form becomes the payload of the
    create or update call. The state hooks, the debounce timer and the
    rendering are not modelled; the mutations are passed in as functions. */
module ClientsPage {
  import opened Wrappers
  import opened JsStrings
  import opened JsRuntime
  import opened ClientTypes
  import opened ClientModal
  import ClientApi
  import ClientsRoute
  import ClientValidation

  const SomethingWentWrong := "Something went wrong"
  const MissingSelectedClient := "Missing selected client"

  /** `getErrorMessage`: an `Error`'s own message, a fixed text otherwise. */
  function GetErrorMessage(error: Thrown): (r: string)
    ensures error.ErrorObject? ==> r == error.message
    ensures error.NonErrorValue? ==> r == SomethingWentWrong
  {
    match error
    case ErrorObject(_, message) => message
    case NonErrorValue(_) => SomethingWentWrong
  }

  /** `s?.trim() || undefined`: the trimmed text, or nothing when it is blank. */
  function TrimOrUndefined(s: Option<string>): (r: Option<string>)
    ensures r.None? <==> s.None? || IsBlank(s.value)
    ensures r.Some? ==> s.Some? && r.value == Trim(s.value)
  {
    if s.Some? then
      TrimEmptyIffBlank(s.value);
      if Trim(s.value) != "" then Some(Trim(s.value)) else None
    else None
  }

  /** `normalizeFilters`: names trimmed or dropped when blank, an empty pet-type
      list dropped. The result has no `petType`. */
  function NormalizeFilters(f: ClientFilters): (r: ClientFilters)
    ensures r.name.None? <==> f.name.None? || IsBlank(f.name.value)
    ensures r.name.Some? ==> r.name.value == Trim(f.name.value)
    ensures r.petName.None? <==> f.petName.None? || IsBlank(f.petName.value)
    ensures r.petName.Some? ==> r.petName.value == Trim(f.petName.value)
    ensures r.petTypes.Some? <==> f.petTypes.Some? && f.petTypes.value != []
    ensures r.petTypes.Some? ==> r.petTypes == f.petTypes
    ensures r.petType.None?
  {
    ClientFilters(
      TrimOrUndefined(f.name),
      TrimOrUndefined(f.petName),
      if f.petTypes.Some? && |f.petTypes.value| > 0 then f.petTypes else None,
      None)
  }

  /** A trimmed text that is not blank stays so. */
  lemma TrimOrUndefinedTrimmed(s: Option<string>)
    ensures ClientApi.TrimmedOrAbsent(TrimOrUndefined(s))
    ensures TrimOrUndefined(TrimOrUndefined(s)) == TrimOrUndefined(s)
  {
    if s.Some? {
      TrimIdempotent(s.value);
      TrimEmptyIffBlank(Trim(s.value));
    }
  }

  /** Normalising twice is normalising once. */
  lemma NormalizeFiltersIdempotent(f: ClientFilters)
    ensures NormalizeFilters(NormalizeFilters(f)) == NormalizeFilters(f)
  {
    TrimOrUndefinedTrimmed(f.name);
    TrimOrUndefinedTrimmed(f.petName);
  }

  /** The list route receives the page's normalised filters, less the pet-type
      list. */
  lemma NormalizedFiltersReachServer(f: ClientFilters)
    ensures ClientsRoute.PlanGet(ClientApi.QueryParams(NormalizeFilters(f)))
      == ClientsRoute.List(NormalizeFilters(f).(petTypes := None))
  {
    TrimOrUndefinedTrimmed(f.name);
    TrimOrUndefinedTrimmed(f.petName);
    ClientApi.QueryRoundTrip(NormalizeFilters(f));
  }

  /** The pet types ticked on the page never reach the server: whatever they
      are, the list route is asked for the same filters. */
  lemma PetTypeSelectionNotSent(f: ClientFilters, petTypes: Option<seq<PetType>>)
    ensures ClientsRoute.PlanGet(ClientApi.QueryParams(NormalizeFilters(f.(petTypes := petTypes))))
      == ClientsRoute.PlanGet(ClientApi.QueryParams(NormalizeFilters(f)))
    ensures ClientsRoute.PlanGet(ClientApi.QueryParams(NormalizeFilters(f))).List?
      && ClientsRoute.PlanGet(ClientApi.QueryParams(NormalizeFilters(f))).filters.petTypes.None?
  {
    NormalizedFiltersReachServer(f);
    NormalizedFiltersReachServer(f.(petTypes := petTypes));
  }

  /** The body of the create or update call: `ClientCreateInput` with the
      birth date still a string. */
  datatype SubmitPayload = SubmitPayload(
    name: string,
    phone: string,
    petName: string,
    petBirthDate: string,
    petType: string,
    notes: Option<string>)

  /** The payload `onSubmitModal` builds, the same in add and edit mode: text
      fields trimmed, date and pet type as entered, blank notes dropped. */
  function ToPayload(values: FormValues): (p: SubmitPayload)
    ensures p.name == Trim(values.name) && p.phone == Trim(values.phone) && p.petName == Trim(values.petName)
    ensures p.petBirthDate == values.petBirthDate && p.petType == values.petType
    ensures p.notes.None? <==> IsBlank(values.notes)
    ensures p.notes.Some? ==> p.notes.value == Trim(values.notes)
  {
    SubmitPayload(
      Trim(values.name), Trim(values.phone), Trim(values.petName),
      values.petBirthDate, values.petType, TrimOrUndefined(Some(values.notes)))
  }

  /** The JSON object the payload is sent as, read back by the server:
      `JSON.stringify` omits a property whose value is `undefined`. */
  function PayloadJson(p: SubmitPayload): (v: JsValue)
    ensures v.JObject?
    ensures p.notes.None? ==> |v.fields| == 5
    ensures p.notes.Some? ==> |v.fields| == 6 && v.fields[5] == ("notes", JString(p.notes.value))
  {
    JObject([
      ("name", JString(p.name)),
      ("phone", JString(p.phone)),
      ("petName", JString(p.petName)),
      ("petBirthDate", JString(p.petBirthDate)),
      ("petType", JString(p.petType))]
      + (if p.notes.Some? then [("notes", JString(p.notes.value))] else []))
  }

  /** A text that is not blank trims to a text that is not empty and is its
      own trim. */
  lemma TrimmedNotBlank(s: string)
    requires !IsBlank(s)
    ensures Trim(s) != "" && Trim(Trim(s)) == Trim(s)
  {
    TrimEmptyIffBlank(s);
    TrimIdempotent(s);
  }

  /** The server reads each field of the payload back. */
  lemma PayloadJsonFields(p: SubmitPayload)
    ensures Get(PayloadJson(p), "name") == JString(p.name)
    ensures Get(PayloadJson(p), "phone") == JString(p.phone)
    ensures Get(PayloadJson(p), "petName") == JString(p.petName)
    ensures Get(PayloadJson(p), "petBirthDate") == JString(p.petBirthDate)
    ensures Get(PayloadJson(p), "petType") == JString(p.petType)
    ensures Get(PayloadJson(p), "notes") == if p.notes.Some? then JString(p.notes.value) else JUndefined
  {
    var fields := PayloadJson(p).fields;
    LookupAt(fields, "name", 0);
    LookupAt(fields, "phone", 1);
    LookupAt(fields, "petName", 2);
    LookupAt(fields, "petBirthDate", 3);
    LookupAt(fields, "petType", 4);
    if p.notes.Some? {
      LookupAt(fields, "notes", 5);
    } else {
      assert Lookup(fields[5..], "notes") == JUndefined;
      LookupSkips(fields, "notes", 5);
    }
  }

  /** Each field of an accepted form's payload passes its server check. */
  lemma PayloadFieldsAccepted(values: FormValues, parse: DateParser)
    requires AcceptableForm(values)
    requires parse(values.petBirthDate).ValidDate?
    ensures var p := ToPayload(values);
      && ClientValidation.RequiredString(JString(p.name), "name") == ClientValidation.Accepted(p.name)
      && ClientValidation.RequiredString(JString(p.phone), "phone") == ClientValidation.Accepted(p.phone)
      && ClientValidation.RequiredString(JString(p.petName), "petName") == ClientValidation.Accepted(p.petName)
      && ClientValidation.DateCheck(JString(p.petBirthDate), "petBirthDate", parse)
           == ClientValidation.Accepted(parse(values.petBirthDate))
      && ClientValidation.PetTypeCheck(JString(p.petType)).Accepted?
      && PetTypeName(ClientValidation.PetTypeCheck(JString(p.petType)).value) == values.petType
      && ClientValidation.OptionalString(if p.notes.Some? then JString(p.notes.value) else JUndefined, "notes")
           == ClientValidation.Accepted(p.notes)
  {
    RequiredTextAccepted(values.name, "name");
    RequiredTextAccepted(values.phone, "phone");
    RequiredTextAccepted(values.petName, "petName");
    NotesAccepted(values.notes);
  }

  /** A text field the dialog accepts, once trimmed, passes the server's
      required-string check unchanged. */
  lemma RequiredTextAccepted(s: string, field: string)
    requires !IsBlank(s)
    ensures ClientValidation.RequiredString(JString(Trim(s)), field) == ClientValidation.Accepted(Trim(s))
  {
    TrimmedNotBlank(s);
  }

  /** The notes the page sends pass the server's optional-string check
      unchanged. */
  lemma NotesAccepted(notes: string)
    ensures var sent := TrimOrUndefined(Some(notes));
      ClientValidation.OptionalString(if sent.Some? then JString(sent.value) else JUndefined, "notes")
        == ClientValidation.Accepted(sent)
  {
    if !IsBlank(notes) {
      TrimmedNotBlank(notes);
      TrimmedNotesAccepted(Trim(notes));
    }
  }

  /** Notes that are already trimmed and not empty pass as they are. */
  lemma TrimmedNotesAccepted(t: string)
    requires t != "" && Trim(t) == t
    ensures ClientValidation.OptionalString(JString(t), "notes") == ClientValidation.Accepted(Some(t))
  {
  }

  /** A payload each of whose fields passes its check is accepted whole,
      with the values the checks produced. */
  lemma PayloadValidated(p: SubmitPayload, parse: DateParser)
    requires ClientValidation.RequiredString(JString(p.name), "name") == ClientValidation.Accepted(p.name)
    requires ClientValidation.RequiredString(JString(p.phone), "phone") == ClientValidation.Accepted(p.phone)
    requires ClientValidation.RequiredString(JString(p.petName), "petName") == ClientValidation.Accepted(p.petName)
    requires ClientValidation.DateCheck(JString(p.petBirthDate), "petBirthDate", parse)
               == ClientValidation.Accepted(parse(p.petBirthDate))
    requires ClientValidation.PetTypeCheck(JString(p.petType)).Accepted?
    requires ClientValidation.OptionalString(if p.notes.Some? then JString(p.notes.value) else JUndefined, "notes")
               == ClientValidation.Accepted(p.notes)
    ensures ClientValidation.ValidateCreate(PayloadJson(p), parse) == ClientValidation.Valid(ClientInput(
      p.name, p.phone, p.petName, parse(p.petBirthDate),
      ClientValidation.PetTypeCheck(JString(p.petType)).value, p.notes))
  {
    var j := PayloadJson(p);
    PayloadJsonFields(p);
    assert ClientValidation.CreateFieldErrors(j, parse) == [];
    ClientValidation.CreateOutcome(j, parse);
  }

  /** A form the dialog accepts is accepted by the server's create validation,
      provided the server can parse its birth date, and it yields the trimmed
      values the page sent. */
  lemma AcceptedFormPassesServerValidation(values: FormValues, parse: DateParser)
    requires AcceptableForm(values)
    requires parse(values.petBirthDate).ValidDate?
    ensures ClientValidation.ValidateCreate(PayloadJson(ToPayload(values)), parse).Valid?
    ensures var c := ClientValidation.ValidateCreate(PayloadJson(ToPayload(values)), parse).data;
      && c.name == Trim(values.name) && c.phone == Trim(values.phone) && c.petName == Trim(values.petName)
      && c.petBirthDate == parse(values.petBirthDate)
      && PetTypeName(c.petType) == values.petType
      && c.notes == ToPayload(values).notes
  {
    PayloadFieldsAccepted(values, parse);
    PayloadValidated(ToPayload(values), parse);
  }

  /** Which form the page's modal is in, and for which client. */
  datatype ModalState = ModalState(mode: Mode, isOpen: bool, client: Option<ClientRecord>)

  /** The create and update mutations, as functions of what they are sent. */
  type CreateCall = SubmitPayload -> Outcome<ClientRecord>
  type UpdateCall = (string, SubmitPayload) -> Outcome<ClientRecord>

  /** The call `onSubmitModal` awaits, or the error it throws before any
      call: an edit without a selected client. */
  function SubmitCall(modal: ModalState, values: FormValues, create: CreateCall, update: UpdateCall): (r: Outcome<ClientRecord>)
    ensures modal.mode == Add ==> r == create(ToPayload(values))
    ensures modal.mode == Edit && modal.client.Some? ==> r == update(modal.client.value.id, ToPayload(values))
    ensures modal.mode == Edit && modal.client.None? ==> r == Throws(Err(MissingSelectedClient))
  {
    if modal.mode == Add then create(ToPayload(values))
    else if modal.client.None? then Throws(Err(MissingSelectedClient))
    else update(modal.client.value.id, ToPayload(values))
  }

  /** What `onSubmitModal` leaves behind: the modal and the submit error. */
  datatype SubmitResult = SubmitResult(modal: ModalState, submitError: Option<string>)

  /** `onSubmitModal`: the error is cleared, and the modal closes when the call
      succeeds; otherwise it stays as it was and shows the call's error. */
  function OnSubmitModal(modal: ModalState, values: FormValues, create: CreateCall, update: UpdateCall): (r: SubmitResult)
    ensures r.submitError.None? <==> SubmitCall(modal, values, create, update).Ok?
    ensures r.submitError.None? ==> r.modal == modal.(isOpen := false)
    ensures r.submitError.Some? ==>
      r.modal == modal && r.submitError.value == GetErrorMessage(SubmitCall(modal, values, create, update).error)
  {
    match SubmitCall(modal, values, create, update)
    case Ok(_) => SubmitResult(modal.(isOpen := false), None)
    case Throws(e) => SubmitResult(modal, Some(GetErrorMessage(e)))
  }

  /** An edit without a selected client shows `Missing selected client` and
      sends nothing: the update call does not matter. */
  lemma EditWithoutClientFails(modal: ModalState, values: FormValues, create: CreateCall, update1: UpdateCall, update2: UpdateCall)
    requires modal.mode == Edit && modal.client.None?
    ensures OnSubmitModal(modal, values, create, update1) == OnSubmitModal(modal, values, create, update2)
    ensures OnSubmitModal(modal, values, create, update1) == SubmitResult(modal, Some(MissingSelectedClient))
  {
  }

  /** A failed response shown on the page reads as the API client wrote it:
      the server's message and details. */
  lemma ServerFailureShown(modal: ModalState, values: FormValues, create: CreateCall, update: UpdateCall, response: Response<ClientRecord>)
    requires modal.mode == Add
    requires ClientApi.UnwrapResponse(response).Throws?
    requires create(ToPayload(values)) == Throws(ClientApi.UnwrapResponse(response).error)
    ensures OnSubmitModal(modal, values, create, update).submitError == Some(ClientApi.ErrorText(response.body.error))
  {
  }
}
