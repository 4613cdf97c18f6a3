/** Validation of the create and update payloads that reach the API
    (`src/services/client-validation.service.ts`).

    Each field has a pure verdict (`RequiredString`, `OptionalString`,
    `PetTypeCheck`, `DateCheck`) and an imperative reader that pushes that
    verdict's message onto the shared error list, as the service's `read*`
    helpers do. The two validators are methods proved equal to the
    declarative specifications `ValidateCreate` and `ValidateUpdate`, and the
    lemmas at the end state what those specifications promise. */
module ClientValidation {
  import opened Wrappers
  import opened JsStrings
  import opened JsRuntime
  import opened ClientTypes

  /** `ValidationResult<T>`: `{ ok: true, data }` or `{ ok: false, errors }`. */
  datatype ValidationResult<T> = Valid(data: T) | Invalid(errors: seq<string>)

  const PayloadNotObject := "Payload must be an object"
  const NoFieldsForUpdate := "At least one field must be provided for update"
  const NoValidFields := "No valid fields were provided for update"

  /** The per-field messages, by the field (or key) they name. */
  function RequiredMessage(field: string): string { field + " is required" }
  function NotStringMessage(field: string): string { field + " must be a string" }
  function InvalidDateMessage(field: string): string { field + " must be a valid date" }
  function UnknownFieldMessage(key: string): string { "Unknown field: " + key }

  const PetTypeRequired := "petType is required"
  const PetTypeNotAllowed := "petType must be one of: dog, cat, parrot"

  /** `allowedUpdateKeys`. */
  const AllowedUpdateKeys: seq<string> := ["name", "phone", "petName", "petBirthDate", "petType", "notes"]

  /** The verdict on one field: its normalised value, or the one message the
      validator records for it. */
  datatype FieldCheck<T> = Accepted(value: T) | Rejected(message: string)

  /** The messages a verdict adds to the error list: none or exactly one. */
  function MessagesOf<T>(c: FieldCheck<T>): (r: seq<string>)
    ensures c.Accepted? <==> r == []
    ensures c.Rejected? ==> r == [c.message]
  {
    match c
    case Accepted(_) => []
    case Rejected(m) => [m]
  }

  /** `isRecord`: `typeof value === 'object' && value !== null`, which admits
      arrays and `Date` instances as well as plain objects. */
  function IsRecord(v: JsValue): (r: bool)
    ensures r <==> TypeOf(v) == "object" && v != JNull
  {
    v.JObject? || v.JArray? || v.JDate?
  }

  /** The verdict of `readRequiredString`: a string that is not blank, trimmed. */
  function RequiredString(v: JsValue, field: string): (r: FieldCheck<string>)
    ensures r.Accepted? <==> v.JString? && !IsBlank(v.s)
    ensures r.Accepted? ==> r.value == Trim(v.s) && r.value != "" && Trim(r.value) == r.value
    ensures r.Rejected? ==> r.message == RequiredMessage(field)
  {
    if !v.JString? then Rejected(RequiredMessage(field))
    else
      var trimmed := Trim(v.s);
      TrimEmptyIffBlank(v.s);
      TrimIdempotent(v.s);
      if trimmed == "" then Rejected(RequiredMessage(field)) else Accepted(trimmed)
  }

  /** The verdict of `readOptionalString`: absent stays absent, a string is
      trimmed and a blank one becomes absent, anything else is an error. */
  function OptionalString(v: JsValue, field: string): (r: FieldCheck<Option<string>>)
    ensures v == JUndefined ==> r == Accepted(None)
    ensures r.Rejected? <==> v != JUndefined && !v.JString?
    ensures r.Rejected? ==> r.message == NotStringMessage(field)
    ensures v.JString? ==> r == Accepted(if Trim(v.s) == "" then None else Some(Trim(v.s)))
    ensures v.JString? ==> (r == Accepted(None) <==> IsBlank(v.s))
    ensures r.Accepted? && r.value.Some? ==> r.value.value != "" && Trim(r.value.value) == r.value.value
  {
    if v == JUndefined then Accepted(None)
    else if !v.JString? then Rejected(NotStringMessage(field))
    else
      var trimmed := Trim(v.s);
      TrimEmptyIffBlank(v.s);
      TrimIdempotent(v.s);
      Accepted(if trimmed == "" then None else Some(trimmed))
  }

  /** The verdict of `readPetType`: a string naming one of the three types. */
  function PetTypeCheck(v: JsValue): (r: FieldCheck<PetType>)
    ensures !v.JString? ==> r == Rejected(PetTypeRequired)
    ensures v.JString? ==> (r.Accepted? <==> v.s in AllowedPetTypeNames)
    ensures v.JString? && r.Rejected? ==> r.message == PetTypeNotAllowed
    ensures r.Accepted? ==> v == JString(PetTypeName(r.value))
  {
    if !v.JString? then Rejected(PetTypeRequired)
    else
      match PetTypeFromName(v.s)
      case None => Rejected(PetTypeNotAllowed)
      case Some(t) => Accepted(t)
  }

  /** The verdict of `readDate`: a string or a `Date` that `new Date(value)`
      turns into a valid date. */
  function DateCheck(v: JsValue, field: string, parse: DateParser): (r: FieldCheck<JsDate>)
    ensures r.Accepted? ==> r.value.ValidDate?
    ensures !v.JString? && !v.JDate? ==> r == Rejected(RequiredMessage(field))
    ensures v.JString? ==> (r.Accepted? <==> parse(v.s).ValidDate?) && (r.Accepted? ==> r.value == parse(v.s))
    ensures v.JDate? ==> (r.Accepted? <==> v.date.ValidDate?) && (r.Accepted? ==> r.value == v.date)
    ensures (v.JString? || v.JDate?) && r.Rejected? ==> r.message == InvalidDateMessage(field)
  {
    if !(v.JString? || v.JDate?) then Rejected(RequiredMessage(field))
    else
      var parsed := if v.JString? then parse(v.s) else v.date;
      if parsed.InvalidDate? then Rejected(InvalidDateMessage(field)) else Accepted(parsed)
  }

  /** `readRequiredString`: pushes the field's message, if any, and returns the
      trimmed string (empty when the field is rejected). */
  method ReadRequiredString(value: JsValue, fieldName: string, errors: seq<string>)
    returns (s: string, errs: seq<string>)
    ensures errs == errors + MessagesOf(RequiredString(value, fieldName))
    ensures s != "" <==> RequiredString(value, fieldName).Accepted?
    ensures s != "" ==> s == RequiredString(value, fieldName).value
  {
    errs := errors;
    if !value.JString? {
      errs := errs + [RequiredMessage(fieldName)];
      return "", errs;
    }
    var trimmed := Trim(value.s);
    TrimEmptyIffBlank(value.s);
    if trimmed == "" {
      errs := errs + [RequiredMessage(fieldName)];
    }
    s := trimmed;
  }

  /** `readOptionalString`. */
  method ReadOptionalString(value: JsValue, fieldName: string, errors: seq<string>)
    returns (s: Option<string>, errs: seq<string>)
    ensures errs == errors + MessagesOf(OptionalString(value, fieldName))
    ensures s == match OptionalString(value, fieldName) case Accepted(t) => t case Rejected(_) => None
  {
    errs := errors;
    if value == JUndefined {
      return None, errs;
    }
    if !value.JString? {
      errs := errs + [NotStringMessage(fieldName)];
      return None, errs;
    }
    var trimmed := Trim(value.s);
    s := if trimmed == "" then None else Some(trimmed);
  }

  /** `readPetType`. */
  method ReadPetType(value: JsValue, errors: seq<string>) returns (t: Option<PetType>, errs: seq<string>)
    ensures errs == errors + MessagesOf(PetTypeCheck(value))
    ensures t.Some? <==> PetTypeCheck(value).Accepted?
    ensures t.Some? ==> t.value == PetTypeCheck(value).value
  {
    errs := errors;
    if !value.JString? {
      errs := errs + [PetTypeRequired];
      return None, errs;
    }
    if value.s !in AllowedPetTypeNames {
      errs := errs + [PetTypeNotAllowed];
      return None, errs;
    }
    t := PetTypeFromName(value.s);
  }

  /** `readDate`. */
  method ReadDate(value: JsValue, fieldName: string, parse: DateParser, errors: seq<string>)
    returns (d: Option<JsDate>, errs: seq<string>)
    ensures errs == errors + MessagesOf(DateCheck(value, fieldName, parse))
    ensures d.Some? <==> DateCheck(value, fieldName, parse).Accepted?
    ensures d.Some? ==> d.value == DateCheck(value, fieldName, parse).value
  {
    errs := errors;
    if !(value.JString? || value.JDate?) {
      errs := errs + [RequiredMessage(fieldName)];
      return None, errs;
    }
    var parsed := if value.JString? then parse(value.s) else value.date;
    if parsed.InvalidDate? {
      errs := errs + [InvalidDateMessage(fieldName)];
      return None, errs;
    }
    d := Some(parsed);
  }

  // ---------------------------------------------------------------------
  // Create

  /** The messages of a create payload that is an object, field by field in
      the order name, phone, petName, petBirthDate, petType, notes. */
  function CreateFieldErrors(p: JsValue, parse: DateParser): seq<string> {
    MessagesOf(RequiredString(Get(p, "name"), "name"))
    + MessagesOf(RequiredString(Get(p, "phone"), "phone"))
    + MessagesOf(RequiredString(Get(p, "petName"), "petName"))
    + MessagesOf(DateCheck(Get(p, "petBirthDate"), "petBirthDate", parse))
    + MessagesOf(PetTypeCheck(Get(p, "petType")))
    + MessagesOf(OptionalString(Get(p, "notes"), "notes"))
  }

  /** What `validateClientPayload` returns. */
  function ValidateCreate(p: JsValue, parse: DateParser): ValidationResult<ClientInput> {
    if !IsRecord(p) then Invalid([PayloadNotObject])
    else
      var name := RequiredString(Get(p, "name"), "name");
      var phone := RequiredString(Get(p, "phone"), "phone");
      var petName := RequiredString(Get(p, "petName"), "petName");
      var date := DateCheck(Get(p, "petBirthDate"), "petBirthDate", parse);
      var petType := PetTypeCheck(Get(p, "petType"));
      var notes := OptionalString(Get(p, "notes"), "notes");
      var errors := CreateFieldErrors(p, parse);
      if errors != [] || !date.Accepted? || !petType.Accepted? then Invalid(errors)
      else
        assert |errors| == 0;
        Valid(ClientInput(name.value, phone.value, petName.value, date.value, petType.value, notes.value))
  }

  /** `ValidateCreate` on an object, with the verdicts spelled out. */
  lemma CreateOutcome(p: JsValue, parse: DateParser)
    requires IsRecord(p)
    ensures CreateFieldErrors(p, parse) != [] ==> ValidateCreate(p, parse) == Invalid(CreateFieldErrors(p, parse))
    ensures CreateFieldErrors(p, parse) == [] ==>
      && RequiredString(Get(p, "name"), "name").Accepted?
      && RequiredString(Get(p, "phone"), "phone").Accepted?
      && RequiredString(Get(p, "petName"), "petName").Accepted?
      && DateCheck(Get(p, "petBirthDate"), "petBirthDate", parse).Accepted?
      && PetTypeCheck(Get(p, "petType")).Accepted?
      && OptionalString(Get(p, "notes"), "notes").Accepted?
      && ValidateCreate(p, parse) == Valid(ClientInput(
           RequiredString(Get(p, "name"), "name").value,
           RequiredString(Get(p, "phone"), "phone").value,
           RequiredString(Get(p, "petName"), "petName").value,
           DateCheck(Get(p, "petBirthDate"), "petBirthDate", parse).value,
           PetTypeCheck(Get(p, "petType")).value,
           OptionalString(Get(p, "notes"), "notes").value))
  {
  }

  /** `validateClientPayload`: reads every field in order into one error list,
      never stopping early. */
  method ValidateClientPayload(payload: JsValue, parse: DateParser) returns (r: ValidationResult<ClientInput>)
    ensures r == ValidateCreate(payload, parse)
  {
    if !IsRecord(payload) {
      return Invalid([PayloadNotObject]);
    }
    var errors: seq<string> := [];
    var name, phone, petName;
    name, errors := ReadRequiredString(Get(payload, "name"), "name", errors);
    assert errors == MessagesOf(RequiredString(Get(payload, "name"), "name"));
    phone, errors := ReadRequiredString(Get(payload, "phone"), "phone", errors);
    petName, errors := ReadRequiredString(Get(payload, "petName"), "petName", errors);
    var petBirthDate;
    petBirthDate, errors := ReadDate(Get(payload, "petBirthDate"), "petBirthDate", parse, errors);
    var petType;
    petType, errors := ReadPetType(Get(payload, "petType"), errors);
    var notes;
    notes, errors := ReadOptionalString(Get(payload, "notes"), "notes", errors);
    assert errors == CreateFieldErrors(payload, parse);
    CreateOutcome(payload, parse);
    if |errors| > 0 || petBirthDate.None? || petType.None? {
      return Invalid(errors);
    }
    r := Valid(ClientInput(name, phone, petName, petBirthDate.value, petType.value, notes));
  }

  // ---------------------------------------------------------------------
  // Update

  /** One `Unknown field: <key>` message per key outside `allowedUpdateKeys`,
      in key order. */
  function UnknownFieldErrors(keys: seq<string>): (r: seq<string>)
    ensures |r| <= |keys|
    ensures r == [] <==> forall k :: k in keys ==> k in AllowedUpdateKeys
  {
    if keys == [] then []
    else
      var init, last := keys[..|keys| - 1], keys[|keys| - 1];
      assert keys == init + [last];
      UnknownFieldErrors(init) + (if last in AllowedUpdateKeys then [] else [UnknownFieldMessage(last)])
  }

  /** `payload[key] !== undefined`. */
  predicate Present(p: JsValue, key: string) {
    Get(p, key) != JUndefined
  }

  function MessagesIfPresent<T>(p: JsValue, key: string, c: FieldCheck<T>): seq<string> {
    if Present(p, key) then MessagesOf(c) else []
  }

  /** The messages of an update of an object with keys: the unknown keys
      first, then the fields that are present, in field order. */
  function UpdateErrors(p: JsValue, parse: DateParser): seq<string> {
    UnknownFieldErrors(Keys(p))
    + MessagesIfPresent(p, "name", RequiredString(Get(p, "name"), "name"))
    + MessagesIfPresent(p, "phone", RequiredString(Get(p, "phone"), "phone"))
    + MessagesIfPresent(p, "petName", RequiredString(Get(p, "petName"), "petName"))
    + MessagesIfPresent(p, "petBirthDate", DateCheck(Get(p, "petBirthDate"), "petBirthDate", parse))
    + MessagesIfPresent(p, "petType", PetTypeCheck(Get(p, "petType")))
    + MessagesIfPresent(p, "notes", OptionalString(Get(p, "notes"), "notes"))
  }

  function AcceptedIfPresent<T>(p: JsValue, key: string, c: FieldCheck<T>): Option<T> {
    if Present(p, key) && c.Accepted? then Some(c.value) else None
  }

  /** The `notes` entry of an update: set whenever `notes` is present, to the
      accepted value or, after an error, to `undefined`. */
  function NotesIfPresent(p: JsValue): Option<Option<string>> {
    if Present(p, "notes") then
      Some(match OptionalString(Get(p, "notes"), "notes") case Accepted(n) => n case Rejected(_) => None)
    else None
  }

  /** The patch an update builds: every present field that was accepted, and
      `notes` whenever it is present, even when its value is `undefined`. */
  function UpdatePatch(p: JsValue, parse: DateParser): ClientPatch {
    ClientPatch(
      AcceptedIfPresent(p, "name", RequiredString(Get(p, "name"), "name")),
      AcceptedIfPresent(p, "phone", RequiredString(Get(p, "phone"), "phone")),
      AcceptedIfPresent(p, "petName", RequiredString(Get(p, "petName"), "petName")),
      AcceptedIfPresent(p, "petBirthDate", DateCheck(Get(p, "petBirthDate"), "petBirthDate", parse)),
      AcceptedIfPresent(p, "petType", PetTypeCheck(Get(p, "petType"))),
      NotesIfPresent(p))
  }

  /** What `validateClientUpdatePayload` returns. */
  function ValidateUpdate(p: JsValue, parse: DateParser): ValidationResult<ClientPatch> {
    if !IsRecord(p) then Invalid([PayloadNotObject])
    else if Keys(p) == [] then Invalid([NoFieldsForUpdate])
    else
      var errors := UpdateErrors(p, parse);
      if errors != [] then Invalid(errors)
      else if UpdatePatch(p, parse) == EmptyPatch then Invalid([NoValidFields])
      else Valid(UpdatePatch(p, parse))
  }

  /** `if (payload[key] !== undefined) { const v = readRequiredString(...); if (v) ... }`:
      the value to store, if any. */
  method ReadPresentRequiredString(payload: JsValue, key: string, errors: seq<string>)
    returns (v: Option<string>, errs: seq<string>)
    ensures errs == errors + MessagesIfPresent(payload, key, RequiredString(Get(payload, key), key))
    ensures v == AcceptedIfPresent(payload, key, RequiredString(Get(payload, key), key))
  {
    v, errs := None, errors;
    if Get(payload, key) != JUndefined {
      var s;
      s, errs := ReadRequiredString(Get(payload, key), key, errs);
      if s != "" { v := Some(s); }
    }
  }

  /** The `petBirthDate` step of an update. */
  method ReadPresentDate(payload: JsValue, key: string, parse: DateParser, errors: seq<string>)
    returns (v: Option<JsDate>, errs: seq<string>)
    ensures errs == errors + MessagesIfPresent(payload, key, DateCheck(Get(payload, key), key, parse))
    ensures v == AcceptedIfPresent(payload, key, DateCheck(Get(payload, key), key, parse))
  {
    v, errs := None, errors;
    if Get(payload, key) != JUndefined {
      v, errs := ReadDate(Get(payload, key), key, parse, errs);
    }
  }

  /** The `petType` step of an update. */
  method ReadPresentPetType(payload: JsValue, errors: seq<string>)
    returns (v: Option<PetType>, errs: seq<string>)
    ensures errs == errors + MessagesIfPresent(payload, "petType", PetTypeCheck(Get(payload, "petType")))
    ensures v == AcceptedIfPresent(payload, "petType", PetTypeCheck(Get(payload, "petType")))
  {
    v, errs := None, errors;
    if Get(payload, "petType") != JUndefined {
      v, errs := ReadPetType(Get(payload, "petType"), errs);
    }
  }

  /** The `notes` step of an update: the key is set whenever `notes` is present,
      even to `undefined`. */
  method ReadPresentNotes(payload: JsValue, errors: seq<string>)
    returns (v: Option<Option<string>>, errs: seq<string>)
    ensures errs == errors + MessagesIfPresent(payload, "notes", OptionalString(Get(payload, "notes"), "notes"))
    ensures v == NotesIfPresent(payload)
  {
    v, errs := None, errors;
    if Get(payload, "notes") != JUndefined {
      var notes;
      notes, errs := ReadOptionalString(Get(payload, "notes"), "notes", errs);
      v := Some(notes);
    }
  }

  /** `ValidateUpdate` on an object with keys, in terms of its errors and patch. */
  lemma UpdateOutcome(p: JsValue, parse: DateParser)
    requires IsRecord(p) && Keys(p) != []
    ensures UpdateErrors(p, parse) != [] ==> ValidateUpdate(p, parse) == Invalid(UpdateErrors(p, parse))
    ensures UpdateErrors(p, parse) == [] && UpdatePatch(p, parse) == EmptyPatch ==>
              ValidateUpdate(p, parse) == Invalid([NoValidFields])
    ensures UpdateErrors(p, parse) == [] && UpdatePatch(p, parse) != EmptyPatch ==>
              ValidateUpdate(p, parse) == Valid(UpdatePatch(p, parse))
  {
  }

  /** The loop of `validateClientUpdatePayload` that reports every key outside
      `allowedUpdateKeys`. */
  method CollectUnknownFields(keys: seq<string>) returns (errors: seq<string>)
    ensures errors == UnknownFieldErrors(keys)
  {
    errors := [];
    for i := 0 to |keys|
      invariant errors == UnknownFieldErrors(keys[..i])
    {
      assert keys[..i + 1][..i] == keys[..i];
      if keys[i] !in AllowedUpdateKeys {
        errors := errors + ["Unknown field: " + keys[i]];
      }
    }
    assert keys[..|keys|] == keys;
  }

  /** The field-by-field part of `validateClientUpdatePayload`: each present
      field is read in turn, its messages appended, and its accepted value put
      into `data`. */
  method ReadUpdateFields(payload: JsValue, parse: DateParser, errors: seq<string>)
    returns (data: ClientPatch, errs: seq<string>)
    ensures data == UpdatePatch(payload, parse)
    ensures errs == errors
      + MessagesIfPresent(payload, "name", RequiredString(Get(payload, "name"), "name"))
      + MessagesIfPresent(payload, "phone", RequiredString(Get(payload, "phone"), "phone"))
      + MessagesIfPresent(payload, "petName", RequiredString(Get(payload, "petName"), "petName"))
      + MessagesIfPresent(payload, "petBirthDate", DateCheck(Get(payload, "petBirthDate"), "petBirthDate", parse))
      + MessagesIfPresent(payload, "petType", PetTypeCheck(Get(payload, "petType")))
      + MessagesIfPresent(payload, "notes", OptionalString(Get(payload, "notes"), "notes"))
  {
    data, errs := EmptyPatch, errors;
    var name, phone, petName;
    name, errs := ReadPresentRequiredString(payload, "name", errs);
    if name.Some? { data := data.(name := name); }
    phone, errs := ReadPresentRequiredString(payload, "phone", errs);
    if phone.Some? { data := data.(phone := phone); }
    petName, errs := ReadPresentRequiredString(payload, "petName", errs);
    if petName.Some? { data := data.(petName := petName); }
    assert data == EmptyPatch.(name := name, phone := phone, petName := petName);
    var petBirthDate;
    petBirthDate, errs := ReadPresentDate(payload, "petBirthDate", parse, errs);
    if petBirthDate.Some? { data := data.(petBirthDate := petBirthDate); }
    var petType;
    petType, errs := ReadPresentPetType(payload, errs);
    if petType.Some? { data := data.(petType := petType); }
    var notes;
    notes, errs := ReadPresentNotes(payload, errs);
    if notes.Some? { data := data.(notes := notes); }
  }

  /** `validateClientUpdatePayload`: a loop over the keys for unknown fields,
      then the present fields one by one into `data`. */
  method ValidateClientUpdatePayload(payload: JsValue, parse: DateParser) returns (r: ValidationResult<ClientPatch>)
    ensures r == ValidateUpdate(payload, parse)
  {
    if !IsRecord(payload) {
      return Invalid([PayloadNotObject]);
    }
    var errors: seq<string> := [];
    var keys := Keys(payload);
    if |keys| == 0 {
      return Invalid([NoFieldsForUpdate]);
    }
    errors := CollectUnknownFields(keys);

    var data;
    data, errors := ReadUpdateFields(payload, parse, errors);
    UpdateOutcome(payload, parse);

    if |errors| > 0 {
      return Invalid(errors);
    }
    if data == EmptyPatch {
      return Invalid([NoValidFields]);
    }
    r := Valid(data);
  }

  // ---------------------------------------------------------------------
  // What the validators promise

  /** Anything that is not an object, or is `null`, is turned away by both
      validators with the one message. */
  lemma NonObjectRejected(p: JsValue, parse: DateParser)
    requires !IsRecord(p)
    ensures ValidateCreate(p, parse) == Invalid([PayloadNotObject])
    ensures ValidateUpdate(p, parse) == Invalid([PayloadNotObject])
  {
  }

  /** A create succeeds exactly when no field produced a message; otherwise the
      errors are the field messages in field order, at most one per field.
      The extra `!petBirthDate || !petType` guard of the source never decides
      anything on its own. */
  lemma CreateValidIffNoErrors(p: JsValue, parse: DateParser)
    requires IsRecord(p)
    ensures ValidateCreate(p, parse).Valid? <==> CreateFieldErrors(p, parse) == []
    ensures ValidateCreate(p, parse).Invalid? ==> ValidateCreate(p, parse).errors == CreateFieldErrors(p, parse)
    ensures |CreateFieldErrors(p, parse)| <= 6
  {
    CreateFieldErrorsBound(p, parse);
    if CreateFieldErrors(p, parse) == [] {
      NoCreateMessagesAccepted(p, parse);
    }
  }

  /** Without field messages the birth date and the pet type were accepted,
      so the `!petBirthDate || !petType` guard does not fire. */
  lemma NoCreateMessagesAccepted(p: JsValue, parse: DateParser)
    requires CreateFieldErrors(p, parse) == []
    ensures DateCheck(Get(p, "petBirthDate"), "petBirthDate", parse).Accepted?
    ensures PetTypeCheck(Get(p, "petType")).Accepted?
  {
    assert |CreateFieldErrors(p, parse)| == 0;
  }

  /** A rejected create always says why: there is at least one message, and
      none of them is empty. */
  lemma InvalidCreateMessagesNonEmpty(p: JsValue, parse: DateParser)
    requires ValidateCreate(p, parse).Invalid?
    ensures ValidateCreate(p, parse).errors != []
    ensures forall m :: m in ValidateCreate(p, parse).errors ==> m != ""
  {
    if IsRecord(p) {
      CreateValidIffNoErrors(p, parse);
      CreateMessagesNonEmpty(p, parse);
    }
  }

  /** Every message a create collects from its fields is non-empty. */
  lemma CreateMessagesNonEmpty(p: JsValue, parse: DateParser)
    ensures forall m :: m in CreateFieldErrors(p, parse) ==> m != ""
  {
    var name := MessagesOf(RequiredString(Get(p, "name"), "name"));
    var phone := MessagesOf(RequiredString(Get(p, "phone"), "phone"));
    var petName := MessagesOf(RequiredString(Get(p, "petName"), "petName"));
    var date := MessagesOf(DateCheck(Get(p, "petBirthDate"), "petBirthDate", parse));
    var petType := MessagesOf(PetTypeCheck(Get(p, "petType")));
    var notes := MessagesOf(OptionalString(Get(p, "notes"), "notes"));
    assert NoEmptyMessage(name) by { MessagesNonEmpty(RequiredString(Get(p, "name"), "name")); }
    assert NoEmptyMessage(phone) by { MessagesNonEmpty(RequiredString(Get(p, "phone"), "phone")); }
    assert NoEmptyMessage(petName) by { MessagesNonEmpty(RequiredString(Get(p, "petName"), "petName")); }
    assert NoEmptyMessage(date) by { MessagesNonEmpty(DateCheck(Get(p, "petBirthDate"), "petBirthDate", parse)); }
    assert NoEmptyMessage(petType) by { MessagesNonEmpty(PetTypeCheck(Get(p, "petType"))); }
    assert NoEmptyMessage(notes) by { MessagesNonEmpty(OptionalString(Get(p, "notes"), "notes")); }
    assert CreateFieldErrors(p, parse) == name + phone + petName + date + petType + notes;
    NoEmptyMessageAppend6(name, phone, petName, date, petType, notes);
  }

  predicate NoEmptyMessage(msgs: seq<string>) {
    forall m :: m in msgs ==> m != ""
  }

  lemma NoEmptyMessageAppend6(a: seq<string>, b: seq<string>, c: seq<string>, d: seq<string>, e: seq<string>, f: seq<string>)
    requires NoEmptyMessage(a) && NoEmptyMessage(b) && NoEmptyMessage(c)
    requires NoEmptyMessage(d) && NoEmptyMessage(e) && NoEmptyMessage(f)
    ensures NoEmptyMessage(a + b + c + d + e + f)
  {
  }

  lemma MessagesNonEmpty<T>(c: FieldCheck<T>)
    requires c.Rejected? ==> c.message != ""
    ensures NoEmptyMessage(MessagesOf(c))
  {
  }

  /** Each field contributes at most one message. */
  lemma CreateFieldErrorsBound(p: JsValue, parse: DateParser)
    ensures |CreateFieldErrors(p, parse)| <= 6
  {
    var name := MessagesOf(RequiredString(Get(p, "name"), "name"));
    var phone := MessagesOf(RequiredString(Get(p, "phone"), "phone"));
    var petName := MessagesOf(RequiredString(Get(p, "petName"), "petName"));
    var date := MessagesOf(DateCheck(Get(p, "petBirthDate"), "petBirthDate", parse));
    var petType := MessagesOf(PetTypeCheck(Get(p, "petType")));
    var notes := MessagesOf(OptionalString(Get(p, "notes"), "notes"));
    assert CreateFieldErrors(p, parse) == name + phone + petName + date + petType + notes;
    assert |name| <= 1 && |phone| <= 1 && |petName| <= 1 && |date| <= 1 && |petType| <= 1 && |notes| <= 1;
  }

  /** A successful create returns the three required strings trimmed and not
      empty, a valid birth date, an allowed pet type and notes that are absent
      or a trimmed non-empty string; each is the one the payload supplied. */
  lemma CreateValidNormalised(p: JsValue, parse: DateParser)
    requires ValidateCreate(p, parse).Valid?
    ensures var c := ValidateCreate(p, parse).data;
      && Get(p, "name").JString? && c.name == Trim(Get(p, "name").s) && c.name != ""
      && Get(p, "phone").JString? && c.phone == Trim(Get(p, "phone").s) && c.phone != ""
      && Get(p, "petName").JString? && c.petName == Trim(Get(p, "petName").s) && c.petName != ""
      && c.petBirthDate.ValidDate?
      && Get(p, "petType") == JString(PetTypeName(c.petType))
      && (c.notes.Some? ==> c.notes.value != "" && Trim(c.notes.value) == c.notes.value)
      && (Get(p, "notes") == JUndefined ==> c.notes == None)
  {
  }

  /** Create evaluates every field and stops at none: a payload missing `name`
      and `phone` and naming an unknown pet type, with the other fields
      acceptable, collects all three messages, in field order. */
  lemma CreateCollectsAllErrors(p: JsValue, parse: DateParser)
    requires IsRecord(p)
    requires Get(p, "name") == JUndefined && Get(p, "phone") == JUndefined
    requires RequiredString(Get(p, "petName"), "petName").Accepted?
    requires DateCheck(Get(p, "petBirthDate"), "petBirthDate", parse).Accepted?
    requires Get(p, "petType").JString? && Get(p, "petType").s !in AllowedPetTypeNames
    requires OptionalString(Get(p, "notes"), "notes").Accepted?
    ensures ValidateCreate(p, parse) == Invalid([RequiredMessage("name"), RequiredMessage("phone"), PetTypeNotAllowed])
  {
    var errors := [RequiredMessage("name"), RequiredMessage("phone"), PetTypeNotAllowed];
    assert CreateFieldErrors(p, parse) == errors by {
      var name := MessagesOf(RequiredString(Get(p, "name"), "name"));
      var phone := MessagesOf(RequiredString(Get(p, "phone"), "phone"));
      var petType := MessagesOf(PetTypeCheck(Get(p, "petType")));
      assert name == [RequiredMessage("name")];
      assert phone == [RequiredMessage("phone")];
      assert petType == [PetTypeNotAllowed];
      assert CreateFieldErrors(p, parse) == name + phone + [] + [] + petType + [];
      ThreeMessages(RequiredMessage("name"), RequiredMessage("phone"), PetTypeNotAllowed);
    }
    CreateRejected(p, parse);
  }

  lemma ThreeMessages(a: string, b: string, c: string)
    ensures [a] + [b] + [] + [] + [c] + [] == [a, b, c]
  {
  }

  /** An object with some field message is rejected with exactly those messages. */
  lemma CreateRejected(p: JsValue, parse: DateParser)
    requires IsRecord(p) && CreateFieldErrors(p, parse) != []
    ensures ValidateCreate(p, parse) == Invalid(CreateFieldErrors(p, parse))
  {
  }

  /** An object, array or `Date` without own enumerable keys is not an update. */
  lemma UpdateWithoutKeysRejected(p: JsValue, parse: DateParser)
    requires IsRecord(p) && Keys(p) == []
    ensures ValidateUpdate(p, parse) == Invalid([NoFieldsForUpdate])
  {
  }

  /** When some key is not an allowed field, the update fails, and its errors
      start with one `Unknown field` message per such key, in key order. */
  lemma UnknownFieldsReportedFirst(p: JsValue, parse: DateParser)
    requires IsRecord(p)
    requires exists k :: k in Keys(p) && k !in AllowedUpdateKeys
    ensures ValidateUpdate(p, parse).Invalid?
    ensures var errs := ValidateUpdate(p, parse).errors;
      && UnknownFieldErrors(Keys(p)) != []
      && |UnknownFieldErrors(Keys(p))| <= |errs|
      && errs[..|UnknownFieldErrors(Keys(p))|] == UnknownFieldErrors(Keys(p))
  {
    var k :| k in Keys(p) && k !in AllowedUpdateKeys;
    assert Keys(p) != [];
    UpdateOutcome(p, parse);
    var unknown := UnknownFieldErrors(Keys(p));
    var name := MessagesIfPresent(p, "name", RequiredString(Get(p, "name"), "name"));
    var phone := MessagesIfPresent(p, "phone", RequiredString(Get(p, "phone"), "phone"));
    var petName := MessagesIfPresent(p, "petName", RequiredString(Get(p, "petName"), "petName"));
    var date := MessagesIfPresent(p, "petBirthDate", DateCheck(Get(p, "petBirthDate"), "petBirthDate", parse));
    var petType := MessagesIfPresent(p, "petType", PetTypeCheck(Get(p, "petType")));
    var notes := MessagesIfPresent(p, "notes", OptionalString(Get(p, "notes"), "notes"));
    PrefixKept(unknown, unknown, name);
    PrefixKept(unknown, unknown + name, phone);
    PrefixKept(unknown, unknown + name + phone, petName);
    PrefixKept(unknown, unknown + name + phone + petName, date);
    PrefixKept(unknown, unknown + name + phone + petName + date, petType);
    PrefixKept(unknown, unknown + name + phone + petName + date + petType, notes);
  }

  lemma PrefixKept(a: seq<string>, x: seq<string>, b: seq<string>)
    requires |a| <= |x| && x[..|a|] == a
    ensures |a| <= |x + b| && (x + b)[..|a|] == a
  {
    assert (x + b)[..|a|] == x[..|a|];
  }

  /** For an object with keys, `No valid fields were provided for update` is
      the answer exactly when all keys are allowed and every allowed field
      reads `undefined`; a JSON body, which has no `undefined`, can never
      produce it. */
  lemma NoValidFieldsIff(p: JsValue, parse: DateParser)
    requires IsRecord(p) && Keys(p) != []
    ensures ValidateUpdate(p, parse) == Invalid([NoValidFields]) <==>
      (forall k :: k in Keys(p) ==> k in AllowedUpdateKeys) && NoFieldPresent(p)
  {
    UpdateOutcome(p, parse);
    if ValidateUpdate(p, parse) == Invalid([NoValidFields]) {
      NoValidFieldsNotAFieldMessage(p, parse);
      EmptyUpdateHasNoField(p, parse);
    }
  }

  /** Every allowed field reads `undefined`. */
  predicate NoFieldPresent(p: JsValue) {
    && !Present(p, "name") && !Present(p, "phone") && !Present(p, "petName")
    && !Present(p, "petBirthDate") && !Present(p, "petType") && !Present(p, "notes")
  }

  lemma EmptyUpdateHasNoField(p: JsValue, parse: DateParser)
    requires UpdateErrors(p, parse) == [] && UpdatePatch(p, parse) == EmptyPatch
    ensures UnknownFieldErrors(Keys(p)) == []
    ensures NoFieldPresent(p)
  {
  }

  /** The update-specific message is never one of the messages an update
      collects from keys and fields: those start with `U` or with the
      lower-case initial of a field name. */
  lemma NoValidFieldsNotAFieldMessage(p: JsValue, parse: DateParser)
    requires IsRecord(p)
    ensures UpdateErrors(p, parse) != [NoValidFields]
  {
    UnknownFieldMessages(Keys(p));
    var unknown := UnknownFieldErrors(Keys(p));
    var name := MessagesIfPresent(p, "name", RequiredString(Get(p, "name"), "name"));
    var phone := MessagesIfPresent(p, "phone", RequiredString(Get(p, "phone"), "phone"));
    var petName := MessagesIfPresent(p, "petName", RequiredString(Get(p, "petName"), "petName"));
    var date := MessagesIfPresent(p, "petBirthDate", DateCheck(Get(p, "petBirthDate"), "petBirthDate", parse));
    var petType := MessagesIfPresent(p, "petType", PetTypeCheck(Get(p, "petType")));
    var notes := MessagesIfPresent(p, "notes", OptionalString(Get(p, "notes"), "notes"));
    RequiredFieldMessagesAvoidN(p);
    OtherFieldMessagesAvoidN(p, parse);
    NoneStartWithAppend(unknown, name, 'N');
    NoneStartWithAppend(unknown + name, phone, 'N');
    NoneStartWithAppend(unknown + name + phone, petName, 'N');
    NoneStartWithAppend(unknown + name + phone + petName, date, 'N');
    NoneStartWithAppend(unknown + name + phone + petName + date, petType, 'N');
    NoneStartWithAppend(unknown + name + phone + petName + date + petType, notes, 'N');
    assert NoValidFields[0] == 'N';
  }

  lemma RequiredFieldMessagesAvoidN(p: JsValue)
    ensures NoneStartWith(MessagesIfPresent(p, "name", RequiredString(Get(p, "name"), "name")), 'N')
    ensures NoneStartWith(MessagesIfPresent(p, "phone", RequiredString(Get(p, "phone"), "phone")), 'N')
    ensures NoneStartWith(MessagesIfPresent(p, "petName", RequiredString(Get(p, "petName"), "petName")), 'N')
  {
    assert NoneStartWith(MessagesIfPresent(p, "name", RequiredString(Get(p, "name"), "name")), 'N') by {
      assert "name"[0] == 'n';
      FieldMessagesStartWith(p, "name", RequiredString(Get(p, "name"), "name"));
    }
    assert NoneStartWith(MessagesIfPresent(p, "phone", RequiredString(Get(p, "phone"), "phone")), 'N') by {
      assert "phone"[0] == 'p';
      FieldMessagesStartWith(p, "phone", RequiredString(Get(p, "phone"), "phone"));
    }
    assert NoneStartWith(MessagesIfPresent(p, "petName", RequiredString(Get(p, "petName"), "petName")), 'N') by {
      assert "petName"[0] == 'p';
      FieldMessagesStartWith(p, "petName", RequiredString(Get(p, "petName"), "petName"));
    }
  }

  lemma OtherFieldMessagesAvoidN(p: JsValue, parse: DateParser)
    ensures NoneStartWith(MessagesIfPresent(p, "petBirthDate", DateCheck(Get(p, "petBirthDate"), "petBirthDate", parse)), 'N')
    ensures NoneStartWith(MessagesIfPresent(p, "petType", PetTypeCheck(Get(p, "petType"))), 'N')
    ensures NoneStartWith(MessagesIfPresent(p, "notes", OptionalString(Get(p, "notes"), "notes")), 'N')
  {
    assert NoneStartWith(MessagesIfPresent(p, "petBirthDate", DateCheck(Get(p, "petBirthDate"), "petBirthDate", parse)), 'N') by {
      assert "petBirthDate"[0] == 'p';
      FieldMessagesStartWith(p, "petBirthDate", DateCheck(Get(p, "petBirthDate"), "petBirthDate", parse));
    }
    assert NoneStartWith(MessagesIfPresent(p, "petType", PetTypeCheck(Get(p, "petType"))), 'N') by {
      assert "petType"[0] == 'p';
      FieldMessagesStartWith(p, "petType", PetTypeCheck(Get(p, "petType")));
    }
    assert NoneStartWith(MessagesIfPresent(p, "notes", OptionalString(Get(p, "notes"), "notes")), 'N') by {
      assert "notes"[0] == 'n';
      FieldMessagesStartWith(p, "notes", OptionalString(Get(p, "notes"), "notes"));
    }
  }

  /** No message in `msgs` is empty or starts with `c`. */
  predicate NoneStartWith(msgs: seq<string>, c: char) {
    forall e :: e in msgs ==> e != "" && e[0] != c
  }

  lemma NoneStartWithAppend(a: seq<string>, b: seq<string>, c: char)
    requires NoneStartWith(a, c) && NoneStartWith(b, c)
    ensures NoneStartWith(a + b, c)
  {
  }

  /** A field's messages start with the field name's initial, which for the
      fields of a client is a lower-case letter. */
  lemma FieldMessagesStartWith<T>(p: JsValue, field: string, c: FieldCheck<T>)
    requires field != "" && 'a' <= field[0] <= 'z'
    requires c.Rejected? ==> c.message != "" && c.message[0] == field[0]
    ensures NoneStartWith(MessagesIfPresent(p, field, c), 'N')
  {
  }

  /** Every unknown-field message starts with `U`. */
  lemma {:induction false} UnknownFieldMessages(keys: seq<string>)
    ensures NoneStartWith(UnknownFieldErrors(keys), 'N')
  {
    if keys != [] {
      UnknownFieldMessages(keys[..|keys| - 1]);
      assert UnknownFieldMessage(keys[|keys| - 1])[0] == 'U';
    }
  }

  /** `d` holds exactly the allowed fields present in `p`, normalised as in a
      create; `notes` is there whenever it was sent. */
  predicate KeepsPresentFields(p: JsValue, d: ClientPatch) {
    && (d.name.Some? <==> Present(p, "name"))
    && (d.name.Some? ==> Get(p, "name").JString? && d.name.value == Trim(Get(p, "name").s) && d.name.value != "")
    && (d.phone.Some? <==> Present(p, "phone"))
    && (d.phone.Some? ==> Get(p, "phone").JString? && d.phone.value == Trim(Get(p, "phone").s) && d.phone.value != "")
    && (d.petName.Some? <==> Present(p, "petName"))
    && (d.petName.Some? ==> Get(p, "petName").JString? && d.petName.value == Trim(Get(p, "petName").s) && d.petName.value != "")
    && (d.petBirthDate.Some? <==> Present(p, "petBirthDate"))
    && (d.petBirthDate.Some? ==> d.petBirthDate.value.ValidDate?)
    && (d.petType.Some? <==> Present(p, "petType"))
    && (d.petType.Some? ==> Get(p, "petType") == JString(PetTypeName(d.petType.value)))
    && (d.notes.Some? <==> Present(p, "notes"))
    && (d.notes.Some? && d.notes.value.Some? ==> d.notes.value.value != "" && Trim(d.notes.value.value) == d.notes.value.value)
  }

  /** A successful update is not empty and holds exactly the allowed fields
      that were present, normalised as in a create. */
  lemma UpdateValidPatchExact(p: JsValue, parse: DateParser)
    requires ValidateUpdate(p, parse).Valid?
    ensures ValidateUpdate(p, parse).data != EmptyPatch
    ensures KeepsPresentFields(p, ValidateUpdate(p, parse).data)
  {
    ValidUpdateIsPatch(p, parse);
    PatchWithoutMessagesExact(p, parse);
  }

  /** A successful update returns the patch, and no field produced a message. */
  lemma ValidUpdateIsPatch(p: JsValue, parse: DateParser)
    requires ValidateUpdate(p, parse).Valid?
    ensures UpdateErrors(p, parse) == [] && UpdatePatch(p, parse) != EmptyPatch
    ensures ValidateUpdate(p, parse).data == UpdatePatch(p, parse)
  {
  }

  /** When no field produced a message, the patch keeps exactly the present
      fields. */
  lemma PatchWithoutMessagesExact(p: JsValue, parse: DateParser)
    requires UpdateErrors(p, parse) == []
    ensures KeepsPresentFields(p, UpdatePatch(p, parse))
  {
    var name := RequiredString(Get(p, "name"), "name");
    var phone := RequiredString(Get(p, "phone"), "phone");
    var petName := RequiredString(Get(p, "petName"), "petName");
    var date := DateCheck(Get(p, "petBirthDate"), "petBirthDate", parse);
    var petType := PetTypeCheck(Get(p, "petType"));
    assert && MessagesIfPresent(p, "name", name) == [] && MessagesIfPresent(p, "phone", phone) == []
           && MessagesIfPresent(p, "petName", petName) == [] && MessagesIfPresent(p, "petBirthDate", date) == []
           && MessagesIfPresent(p, "petType", petType) == []
    by {
      assert |UpdateErrors(p, parse)| == 0;
    }
    PresentFieldKept(p, "name", name);
    PresentFieldKept(p, "phone", phone);
    PresentFieldKept(p, "petName", petName);
    PresentFieldKept(p, "petBirthDate", date);
    PresentFieldKept(p, "petType", petType);
  }

  /** A field without messages is kept exactly when it is present, with its
      accepted value. */
  lemma PresentFieldKept<T>(p: JsValue, key: string, c: FieldCheck<T>)
    requires MessagesIfPresent(p, key, c) == []
    ensures AcceptedIfPresent(p, key, c).Some? <==> Present(p, key)
    ensures Present(p, key) ==> c.Accepted? && AcceptedIfPresent(p, key, c).value == c.value
  {
  }

  /** An update whose only field is blank `notes` succeeds and clears the
      notes, because the `notes` key is set even to `undefined`. */
  lemma BlankNotesOnlyUpdateSucceeds(s: string, parse: DateParser)
    requires IsBlank(s)
    ensures ValidateUpdate(JObject([("notes", JString(s))]), parse) == Valid(EmptyPatch.(notes := Some(None)))
  {
    var p := JObject([("notes", JString(s))]);
    OnlyNotesPresent(JString(s));
    assert OptionalString(Get(p, "notes"), "notes") == Accepted(None);
    assert UpdateErrors(p, parse) == [];
    assert UpdatePatch(p, parse) == EmptyPatch.(notes := Some(None));
    UpdateOutcome(p, parse);
  }

  /** An object whose one key is `notes` has no other field and no unknown key. */
  lemma OnlyNotesPresent(v: JsValue)
    requires v != JUndefined
    ensures var p := JObject([("notes", v)]);
      && IsRecord(p) && Keys(p) == ["notes"] && UnknownFieldErrors(Keys(p)) == []
      && Get(p, "notes") == v && Present(p, "notes")
      && !Present(p, "name") && !Present(p, "phone") && !Present(p, "petName")
      && !Present(p, "petBirthDate") && !Present(p, "petType")
  {
    var p := JObject([("notes", v)]);
    assert Keys(p) == ["notes"];
    assert AllowedUpdateKeys[5] == "notes";
  }

  /** Arrays pass `isRecord`, and their indices are reported as unknown fields. */
  lemma ArrayUpdateReportsIndices(x: JsValue, y: JsValue, parse: DateParser)
    ensures ValidateUpdate(JArray([x, y]), parse) == Invalid([UnknownFieldMessage("0"), UnknownFieldMessage("1")])
  {
    var p := JArray([x, y]);
    assert NatToString(0) == "0" && NatToString(1) == "1";
    assert Keys(p) == ["0", "1"];
    assert "0" !in AllowedUpdateKeys && "1" !in AllowedUpdateKeys;
    assert ["0"][..0] == [];
    assert ["0", "1"][..1] == ["0"];
    assert UnknownFieldErrors(["0"]) == [UnknownFieldMessage("0")];
  }
}
