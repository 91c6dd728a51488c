/** src/pages/RegisterAthor.jsx: self-registration of an author. Three fields are
    required; the payload turns empty optional fields into null and then deletes
    every null property before it is sent. */
module RegisterAuthor {
  import opened Js
  import opened JsNumber
  import opened ServiceCalls

  /** A property value of the payload object. */
  datatype JsValue = Str(s: string) | Num(n: Number) | Null

  /** The properties of `formData` and of the payload. */
  datatype Field = Email | HemisId | FirstName | LastName | MiddleName | Orcid | Ror | DepartmentId

  /** The property name, as it appears in messages. */
  function Name(f: Field): string {
    match f
    case Email => "email"
    case HemisId => "hemisId"
    case FirstName => "firstName"
    case LastName => "lastName"
    case MiddleName => "middleName"
    case Orcid => "orcid"
    case Ror => "ror"
    case DepartmentId => "departmentId"
  }

  const FieldNames: seq<Field> := [Email, HemisId, FirstName, LastName, MiddleName, Orcid, Ror, DepartmentId]
  const RequiredFields: seq<Field> := [Email, FirstName, LastName]

  /** The fields that `|| null` turns empty into null. */
  predicate Optional(f: Field) {
    f == HemisId || f == MiddleName || f == Orcid || f == Ror
  }

  const RequiredPrefix := "Please fill in the required field: "
  const Registered := "Registration successful! You can now log in."
  const DefaultError := "An unexpected error occurred during registration."

  /** Every input starts, and is reset to, the empty string. */
  const EmptyForm: map<Field, string> := map k | k in FieldNames :: ""

  /** `formData[field]`; a missing property reads as undefined, falsy like "". */
  function Lookup(form: map<Field, string>, field: Field): string {
    if field in form then form[field] else ""
  }

  /** The first required field, in form order, left empty, if any. */
  function FirstMissing(form: map<Field, string>): (missing: Option<Field>)
    ensures missing.None? <==> forall i :: 0 <= i < |RequiredFields| ==> Lookup(form, RequiredFields[i]) != []
    ensures missing.Some? ==>
              exists i :: && 0 <= i < |RequiredFields| && RequiredFields[i] == missing.value
                          && Lookup(form, RequiredFields[i]) == []
                          && forall j :: 0 <= j < i ==> Lookup(form, RequiredFields[j]) != []
  {
    assert RequiredFields[0] == Email && RequiredFields[1] == FirstName && RequiredFields[2] == LastName;
    if Lookup(form, Email) == [] then Some(Email)
    else if Lookup(form, FirstName) == [] then Some(FirstName)
    else if Lookup(form, LastName) == [] then Some(LastName)
    else None
  }

  /** The validation loop over the required fields. */
  method FirstMissingField(form: map<Field, string>) returns (missing: Option<Field>)
    ensures missing == FirstMissing(form)
  {
    for i := 0 to |RequiredFields|
      invariant forall j :: 0 <= j < i ==> Lookup(form, RequiredFields[j]) != []
    {
      if Lookup(form, RequiredFields[i]) == [] {
        return Some(RequiredFields[i]);
      }
    }
    return None;
  }

  /** `value || null`. */
  function OrNullValue(s: string): JsValue {
    if s == [] then Null else Str(s)
  }

  /** The object literal: every input as typed, then the department id parsed
      base 10 and the four optional fields with "" turned into null. */
  function BuildPayload(form: map<Field, string>): (payload: map<Field, JsValue>)
    ensures payload.Keys == form.Keys + {DepartmentId, HemisId, MiddleName, Orcid, Ror}
    ensures payload[DepartmentId] == Num(ParseInt(Lookup(form, DepartmentId)))
    ensures forall k :: Optional(k) ==> payload[k] == OrNullValue(Lookup(form, k))
    ensures forall k :: k in form && k != DepartmentId && !Optional(k) ==> payload[k] == Str(form[k])
  {
    var department := Num(ParseInt(Lookup(form, DepartmentId)));
    map k | k in form.Keys + {DepartmentId, HemisId, MiddleName, Orcid, Ror} ::
      if k == DepartmentId then department
      else if Optional(k) then OrNullValue(Lookup(form, k))
      else Str(form[k])
  }

  /** The properties that are not null, with their values. */
  function WithoutNulls(payload: map<Field, JsValue>): (cleaned: map<Field, JsValue>)
    ensures forall k :: k in cleaned <==> k in payload && payload[k] != Null
    ensures forall k :: k in cleaned ==> cleaned[k] == payload[k] && cleaned[k] != Null
  {
    map k | k in payload && payload[k] != Null :: payload[k]
  }

  /** The `delete` loop over `Object.keys(payload)`. */
  method DeleteNulls(payload: map<Field, JsValue>) returns (cleaned: map<Field, JsValue>)
    ensures cleaned == WithoutNulls(payload)
  {
    cleaned := payload;
    var keys := payload.Keys;
    while keys != {}
      invariant keys <= payload.Keys
      invariant forall k :: k in cleaned <==> k in payload && (k in keys || payload[k] != Null)
      invariant forall k :: k in cleaned ==> cleaned[k] == payload[k]
      decreases keys
    {
      var key :| key in keys;
      if cleaned[key] == Null {
        cleaned := cleaned - {key};
      }
      keys := keys - {key};
    }
  }

  /** An optional field is sent exactly when it was filled in, and then as typed. */
  lemma OptionalSentWhenFilled(form: map<Field, string>, k: Field)
    requires Optional(k)
    ensures var sent := WithoutNulls(BuildPayload(form));
      && (k in sent <==> Lookup(form, k) != [])
      && (k in sent ==> sent[k] == Str(Lookup(form, k)))
  {
    var payload := BuildPayload(form);
    assert payload[k] == OrNullValue(Lookup(form, k));
  }

  /** The required fields are sent as typed. */
  lemma RequiredSentAsTyped(form: map<Field, string>, k: Field)
    requires k in RequiredFields && k in form
    ensures var sent := WithoutNulls(BuildPayload(form));
      k in sent && sent[k] == Str(form[k])
  {
    var payload := BuildPayload(form);
    assert payload[k] == Str(form[k]);
  }

  /** The department id is always sent, parsed base 10. */
  lemma DepartmentAlwaysSent(form: map<Field, string>)
    ensures var sent := WithoutNulls(BuildPayload(form));
      DepartmentId in sent && sent[DepartmentId] == Num(ParseInt(Lookup(form, DepartmentId)))
  {
  }

  /** An empty department id is parsed to NaN, which is not null and is sent. */
  lemma EmptyDepartmentIsSentAsNaN(form: map<Field, string>)
    requires Lookup(form, DepartmentId) == []
    ensures WithoutNulls(BuildPayload(form))[DepartmentId] == Num(NaN)
  {
  }

  class RegisterAuthorPage {
    var formData: map<Field, string>
    var error: string
    var success: string
    var loading: bool

    constructor ()
      ensures formData == EmptyForm && error == "" && success == "" && !loading
    {
      formData := EmptyForm;
      error := "";
      success := "";
      loading := false;
    }

    /** `handleRegistration`, given how the server answers: the payload sent, if
        validation let it through. */
    method HandleRegistration(reply: Reply) returns (sent: Option<map<Field, JsValue>>)
      modifies this`formData, this`error, this`success, this`loading
      ensures sent.None? <==> FirstMissing(old(formData)).Some?
      ensures sent.None? ==>
                && formData == old(formData) && success == "" && loading == old(loading)
                && error == RequiredPrefix + Name(FirstMissing(old(formData)).value)
      ensures sent.Some? ==> sent.value == WithoutNulls(BuildPayload(old(formData))) && !loading
      ensures sent.Some? && reply.Accepted? ==> formData == EmptyForm && success == Registered && error == ""
      ensures sent.Some? && reply.Refused? ==>
                && formData == old(formData) && success == ""
                && error == ServerMessageOr(reply.message, DefaultError)
    {
      var missing := FirstMissingField(formData);
      if missing.Some? {
        Refuse(missing.value);
        return None;
      }
      // `loading` is raised around the request and lowered in `finally`
      var payload := DeleteNulls(BuildPayload(formData));
      Settle(reply);
      return Some(payload);
    }

    /** The message for an empty required field; nothing is sent. */
    method Refuse(field: Field)
      modifies this`error, this`success
      ensures error == RequiredPrefix + Name(field) && success == ""
    {
      error, success := RequiredPrefix + Name(field), "";
    }

    /** The `try`/`catch`/`finally` around `registerAuthor`, given its reply. */
    method Settle(reply: Reply)
      modifies this`formData, this`error, this`success, this`loading
      ensures !loading
      ensures reply.Accepted? ==> formData == EmptyForm && success == Registered && error == ""
      ensures reply.Refused? ==>
                && formData == old(formData) && success == ""
                && error == ServerMessageOr(reply.message, DefaultError)
    {
      if reply.Accepted? {
        formData, error, success := EmptyForm, "", Registered;
      } else {
        error, success := ServerMessageOr(reply.message, DefaultError), "";
      }
      loading := false;
    }
  }
}
