/** The add/edit dialog (`src/components/clients/client-modal.tsx`): the
    form it opens with, the checks it runs before handing the values on,
    and the two-click confirmation of a delete. The dialog's state hooks
    become the fields of `ClientModalState`; rendering is not modelled. */
module ClientModal {
  import opened Wrappers
  import opened JsStrings
  import opened JsRuntime
  import opened ClientTypes

  /** `ClientFormValues`. `petType` holds the string the select field yields,
      which `onFieldChange` casts to `PetType` without a check. */
  datatype FormValues = FormValues(
    name: string,
    phone: string,
    petName: string,
    petBirthDate: string,
    petType: string,
    notes: string)

  /** `keyof ClientFormValues`. */
  datatype FormField = NameField | PhoneField | PetNameField | PetBirthDateField | PetTypeField | NotesField

  /** `defaultValues`: empty fields and a dog. */
  const DefaultValues := FormValues("", "", "", "", "dog", "")

  /** `toDateInputValue` (`toISOString().slice(0, 10)`), supplied by the caller. */
  type DateInputFormatter = JsDate -> string

  /** `toValues`: the default form without a client, else the client's fields,
      with absent or empty notes shown as the empty string. */
  function ToValues(client: Option<ClientRecord>, toDateInput: DateInputFormatter): (r: FormValues)
    ensures client.None? ==> r == DefaultValues
    ensures client.Some? ==>
      && r.name == client.value.name && r.phone == client.value.phone
      && r.petName == client.value.petName
      && r.petBirthDate == toDateInput(client.value.petBirthDate)
      && PetTypeFromName(r.petType) == Some(client.value.petType)
      && (client.value.notes.Some? ==> r.notes == client.value.notes.value)
      && (client.value.notes.None? ==> r.notes == "")
  {
    match client
    case None => DefaultValues
    case Some(c) =>
      PetTypeNameRoundTrip(c.petType);
      FormValues(c.name, c.phone, c.petName, toDateInput(c.petBirthDate), PetTypeName(c.petType), c.notes.GetOr(""))
  }

  const NameRequired := "Name is required"
  const PhoneRequired := "Phone is required"
  const PetNameRequired := "Pet name is required"
  const PetBirthDateRequired := "Pet birth date is required"
  const PetTypeMustBeAllowed := "Pet type must be one of: dog, cat, parrot"

  /** The message `validate` records for one field, if its check fails. A
      text field fails when it trims to nothing, that is, when it is blank. */
  function FieldError(values: FormValues, field: FormField): Option<string> {
    match field
    case NameField => if IsBlank(values.name) then Some(NameRequired) else None
    case PhoneField => if IsBlank(values.phone) then Some(PhoneRequired) else None
    case PetNameField => if IsBlank(values.petName) then Some(PetNameRequired) else None
    case PetBirthDateField => if values.petBirthDate == "" then Some(PetBirthDateRequired) else None
    case PetTypeField => if values.petType !in AllowedPetTypeNames then Some(PetTypeMustBeAllowed) else None
    case NotesField => None
  }

  /** `validate`: each failing check records its field's message. */
  method Validate(values: FormValues) returns (errors: map<FormField, string>)
    ensures forall f :: f in errors <==> FieldError(values, f).Some?
    ensures forall f :: f in errors ==> errors[f] == FieldError(values, f).value
  {
    errors := map[];
    var nameBlank := TrimsToEmpty(values.name);
    if nameBlank {
      errors := errors[NameField := NameRequired];
    }
    var phoneBlank := TrimsToEmpty(values.phone);
    if phoneBlank {
      errors := errors[PhoneField := PhoneRequired];
    }
    var petNameBlank := TrimsToEmpty(values.petName);
    if petNameBlank {
      errors := errors[PetNameField := PetNameRequired];
    }
    if values.petBirthDate == "" {
      errors := errors[PetBirthDateField := PetBirthDateRequired];
    }
    if values.petType !in AllowedPetTypeNames {
      errors := errors[PetTypeField := PetTypeMustBeAllowed];
    }
  }

  /** The form is valid exactly when name, phone and pet name are not blank,
      a birth date is given (a blank one will do: it is not trimmed), and the
      pet type is an allowed name. Notes are never checked. */
  predicate AcceptableForm(values: FormValues) {
    && !IsBlank(values.name) && !IsBlank(values.phone) && !IsBlank(values.petName)
    && values.petBirthDate != ""
    && values.petType in AllowedPetTypeNames
  }

  /** No field fails exactly when the form is acceptable. */
  lemma NoFieldErrorIff(values: FormValues)
    ensures (forall f :: FieldError(values, f).None?) <==> AcceptableForm(values)
  {
    if AcceptableForm(values) {
      forall f ensures FieldError(values, f).None? {
        match f
        case NameField =>
        case PhoneField =>
        case PetNameField =>
        case PetBirthDateField =>
        case PetTypeField =>
        case NotesField =>
      }
    } else {
      var f :=
        if IsBlank(values.name) then NameField
        else if IsBlank(values.phone) then PhoneField
        else if IsBlank(values.petName) then PetNameField
        else if values.petBirthDate == "" then PetBirthDateField
        else PetTypeField;
      assert FieldError(values, f).Some?;
    }
  }

  /** The default form fails on every required text field and on the birth
      date, and on nothing else. */
  lemma DefaultFormErrors()
    ensures forall f :: FieldError(DefaultValues, f).Some? <==>
      f in {NameField, PhoneField, PetNameField, PetBirthDateField}
  {
    forall f ensures FieldError(DefaultValues, f).Some? <==> f in {NameField, PhoneField, PetNameField, PetBirthDateField} {
      if f == PetTypeField {
        assert DefaultValues.petType == AllowedPetTypeNames[0];
      }
    }
  }

  /** The form opened on a stored client passes the check, provided the date
      formatter yields something: records are stored trimmed and non-blank. */
  lemma StoredClientFormValid(c: ClientRecord, toDateInput: DateInputFormatter)
    requires !IsBlank(c.name) && !IsBlank(c.phone) && !IsBlank(c.petName)
    requires toDateInput(c.petBirthDate) != ""
    ensures forall f :: FieldError(ToValues(Some(c), toDateInput), f).None?
  {
    var v := ToValues(Some(c), toDateInput);
    assert v.petType == PetTypeName(c.petType);
    NoFieldErrorIff(v);
  }

  datatype Mode = Add | Edit

  /** The dialog's state: the form, the errors shown, whether a delete awaits
      confirmation, and the props the handlers read. */
  class ClientModalState {
    var values: FormValues
    var errors: map<FormField, string>
    var isConfirmingDelete: bool
    var mode: Mode
    var client: Option<ClientRecord>
    var hasDeleteHandler: bool

    /** The initial `useState` values. */
    constructor (mode: Mode, client: Option<ClientRecord>, hasDeleteHandler: bool)
      ensures values == DefaultValues && errors == map[] && !isConfirmingDelete
      ensures this.mode == mode && this.client == client && this.hasDeleteHandler == hasDeleteHandler
    {
      values := DefaultValues;
      errors := map[];
      isConfirmingDelete := false;
      this.mode := mode;
      this.client := client;
      this.hasDeleteHandler := hasDeleteHandler;
    }

    /** `canDelete`. */
    predicate CanDelete()
      reads this
    {
      mode == Edit && client.Some? && hasDeleteHandler
    }

    /** The effect run when the dialog opens: the form is reset from the
        client, the errors cleared, and a delete is pre-armed only in edit
        mode when asked for. */
    method Open(startInDeleteConfirm: bool, toDateInput: DateInputFormatter)
      modifies this
      ensures values == ToValues(client, toDateInput) && errors == map[]
      ensures isConfirmingDelete == (mode == Edit && startInDeleteConfirm)
      ensures mode == old(mode) && client == old(client) && hasDeleteHandler == old(hasDeleteHandler)
    {
      values := ToValues(client, toDateInput);
      errors := map[];
      isConfirmingDelete := mode == Edit && startInDeleteConfirm;
    }

    /** `onFieldChange`: the field takes the new value and loses its error. */
    method FieldChange(field: FormField, value: string)
      modifies this
      ensures values == WithField(old(values), field, value)
      ensures errors == old(errors) - {field}
      ensures isConfirmingDelete == old(isConfirmingDelete)
      ensures mode == old(mode) && client == old(client) && hasDeleteHandler == old(hasDeleteHandler)
    {
      values := WithField(values, field, value);
      if field in errors {
        errors := errors - {field};
      }
    }

    /** `onFormSubmit`: the errors are recomputed, and the values are handed to
        `onSubmit` (returned here) only when there are none. */
    method Submit() returns (submitted: Option<FormValues>)
      modifies this
      ensures forall f :: f in errors <==> FieldError(values, f).Some?
      ensures forall f :: f in errors ==> errors[f] == FieldError(values, f).value
      ensures submitted.Some? <==> AcceptableForm(values)
      ensures submitted.Some? ==> submitted.value == values
      ensures values == old(values) && isConfirmingDelete == old(isConfirmingDelete)
      ensures mode == old(mode) && client == old(client) && hasDeleteHandler == old(hasDeleteHandler)
    {
      var validationErrors := Validate(values);
      errors := validationErrors;
      NoFieldErrorIff(values);
      if |validationErrors| > 0 {
        return None;
      }
      submitted := Some(values);
    }

    /** `onDeleteClick`: nothing happens unless deleting is possible; the first
        click only arms the confirmation, and `onDelete` runs (`true`) only on
        a click made while armed. */
    method DeleteClick() returns (deleteCalled: bool)
      modifies this
      ensures deleteCalled <==> CanDelete() && old(isConfirmingDelete)
      ensures isConfirmingDelete == (old(isConfirmingDelete) || CanDelete())
      ensures values == old(values) && errors == old(errors)
      ensures mode == old(mode) && client == old(client) && hasDeleteHandler == old(hasDeleteHandler)
    {
      if !CanDelete() {
        return false;
      }
      if !isConfirmingDelete {
        isConfirmingDelete := true;
        return false;
      }
      deleteCalled := true;
    }
  }

  /** The value a form holds for one field. */
  function FieldValue(values: FormValues, field: FormField): string {
    match field
    case NameField => values.name
    case PhoneField => values.phone
    case PetNameField => values.petName
    case PetBirthDateField => values.petBirthDate
    case PetTypeField => values.petType
    case NotesField => values.notes
  }

  /** A form is determined by the values of its six fields. */
  lemma FieldValuesDetermineForm(a: FormValues, b: FormValues)
    requires forall f :: FieldValue(a, f) == FieldValue(b, f)
    ensures a == b
  {
    assert FieldValue(a, NameField) == FieldValue(b, NameField);
    assert FieldValue(a, PhoneField) == FieldValue(b, PhoneField);
    assert FieldValue(a, PetNameField) == FieldValue(b, PetNameField);
    assert FieldValue(a, PetBirthDateField) == FieldValue(b, PetBirthDateField);
    assert FieldValue(a, PetTypeField) == FieldValue(b, PetTypeField);
    assert FieldValue(a, NotesField) == FieldValue(b, NotesField);
  }

  /** The form with one field replaced: that field holds the new value and
      every other field keeps its old one. */
  function WithField(values: FormValues, field: FormField, value: string): (r: FormValues)
    ensures FieldValue(r, field) == value
    ensures forall f :: f != field ==> FieldValue(r, f) == FieldValue(values, f)
  {
    match field
    case NameField => values.(name := value)
    case PhoneField => values.(phone := value)
    case PetNameField => values.(petName := value)
    case PetBirthDateField => values.(petBirthDate := value)
    case PetTypeField => values.(petType := value)
    case NotesField => values.(notes := value)
  }

  /** Opened on a client in edit mode with a delete handler, the dialog
      deletes on the second click and not on the first. */
  method TwoClicksDelete(c: ClientRecord, toDateInput: DateInputFormatter) returns (first: bool, second: bool)
    ensures !first && second
  {
    var modal := new ClientModalState(Edit, Some(c), true);
    modal.Open(false, toDateInput);
    first := modal.DeleteClick();
    second := modal.DeleteClick();
  }

  /** In add mode no number of clicks deletes. */
  method AddModeNeverDeletes(toDateInput: DateInputFormatter) returns (first: bool, second: bool)
    ensures !first && !second
  {
    var modal := new ClientModalState(Add, None, true);
    modal.Open(true, toDateInput);
    first := modal.DeleteClick();
    second := modal.DeleteClick();
  }
}
