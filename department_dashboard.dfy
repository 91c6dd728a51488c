/** src/pages/DepartmentDashboard.jsx: the older department form, without a
    department type. Its input handler writes into the form object under the
    input's name, the checked state for a checkbox and the text otherwise. */
module DepartmentDashboard {
  import opened Js

  /** The properties of the form object. */
  datatype Property = NameUz | NameEn | NameRu | IsBlocked

  /** A property value: text from a text input, or a checkbox's checked state. */
  datatype FormValue = Text(s: string) | Flag(b: bool)

  /** A property value is truthy: non-empty text or a set flag. */
  predicate Truthy(v: FormValue) {
    match v
    case Text(s) => s != []
    case Flag(b) => b
  }

  /** A department as listed by the server. */
  datatype DepartmentRow = DepartmentRow(id: int, nameUz: string, nameEn: string, nameRu: string, isBlocked: bool)

  /** The change event of an input: its name, its text, whether it is a checkbox
      and, if so, whether it is checked. */
  datatype InputEvent = InputEvent(name: Property, value: string, checkbox: bool, checked: bool)

  /** The call a valid submission makes. */
  datatype DepartmentCall = Create(form: map<Property, FormValue>) | Update(id: int, form: map<Property, FormValue>)

  /** `initialFormData`. */
  const InitialForm: map<Property, FormValue> :=
    map[NameUz := Text(""), NameEn := Text(""), NameRu := Text(""), IsBlocked := Flag(false)]

  const NamesRequired := "\U{274C} All name fields are required."
  const Updated := "\U{2705} Department updated successfully."
  const Created := "\U{2705} Department created successfully."
  const FetchFailed := "\U{274C} Failed to fetch departments."
  /** The failure messages, which name the mode that failed. */
  const UpdateFailed := "\U{274C} Error: Updating department failed."
  const CreateFailed := "\U{274C} Error: Creating department failed."

  /** `formData[p]` is truthy; a missing property is undefined and falsy. */
  predicate Filled(form: map<Property, FormValue>, p: Property) {
    p in form && Truthy(form[p])
  }

  /** The guard of `handleSubmit`: all three names are filled in. */
  predicate Complete(form: map<Property, FormValue>) {
    Filled(form, NameUz) && Filled(form, NameEn) && Filled(form, NameRu)
  }

  /** `editingId` is truthy: an id is set and it is not 0. */
  predicate Editing(editingId: Option<int>) {
    editingId.Some? && editingId.value != 0
  }

  /** `handleInputChange(e)`: the input's property gets the checked state of a
      checkbox or the text of any other input; nothing else changes. */
  function WithInput(form: map<Property, FormValue>, e: InputEvent): (g: map<Property, FormValue>)
    ensures e.name in g && g[e.name] == if e.checkbox then Flag(e.checked) else Text(e.value)
    ensures forall p :: p != e.name ==> (p in g <==> p in form)
    ensures forall p :: p != e.name && p in form ==> g[p] == form[p]
  {
    form[e.name := if e.checkbox then Flag(e.checked) else Text(e.value)]
  }

  /** The form Edit fills in from a department. */
  function EditForm(dept: DepartmentRow): (f: map<Property, FormValue>)
    ensures f.Keys == InitialForm.Keys
    ensures f[NameUz] == Text(dept.nameUz) && f[NameEn] == Text(dept.nameEn) && f[NameRu] == Text(dept.nameRu)
    ensures f[IsBlocked] == Flag(dept.isBlocked)
  {
    map[NameUz := Text(dept.nameUz), NameEn := Text(dept.nameEn), NameRu := Text(dept.nameRu),
        IsBlocked := Flag(dept.isBlocked)]
  }

  /** Ticking a box under a name property stores `true`, which the guard takes for
      a filled-in name. */
  lemma CheckedFlagCountsAsName(form: map<Property, FormValue>, p: Property, value: string)
    requires p != IsBlocked
    ensures Filled(WithInput(form, InputEvent(p, value, true, true)), p)
  {
  }

  class DepartmentDashboard {
    var departments: seq<DepartmentRow>
    var formData: map<Property, FormValue>
    var editingId: Option<int>
    var loading: bool
    var message: string

    constructor ()
      ensures departments == [] && formData == InitialForm && editingId == None
      ensures loading && message == ""
    {
      departments := [];
      formData := InitialForm;
      editingId := None;
      loading := true;
      message := "";
    }

    /** `fetchDepartments`, given what the list call resolves to (`None` when it
        rejects). */
    method FetchDepartments(result: Option<seq<DepartmentRow>>)
      modifies this`departments, this`message, this`loading
      ensures result.Some? ==> departments == result.value && message == old(message)
      ensures result.None? ==> departments == old(departments) && message == FetchFailed
      ensures !loading
    {
      loading := true;
      if result.Some? {
        departments := result.value;
      } else {
        message := FetchFailed;
      }
      loading := false;
    }

    /** `handleInputChange(e)`. */
    method HandleInputChange(e: InputEvent)
      modifies this`formData
      ensures formData == WithInput(old(formData), e)
    {
      var v := if e.checkbox then Flag(e.checked) else Text(e.value);
      formData := formData[e.name := v];
    }

    /** `handleSubmit`, given whether the create or update call succeeds: the call
        made, if the guard let the form through, and whether the list is reloaded. */
    method HandleSubmit(succeeded: bool) returns (call: Option<DepartmentCall>, reload: bool)
      modifies this`formData, this`editingId, this`message
      ensures call.None? <==> !Complete(old(formData))
      ensures call.None? ==> message == NamesRequired && formData == old(formData) && editingId == old(editingId)
      ensures call.Some? ==> call.value == if Editing(old(editingId)) then Update(old(editingId).value, old(formData))
                                           else Create(old(formData))
      ensures reload <==> call.Some? && succeeded
      ensures call.Some? && succeeded ==>
                && message == (if call.value.Update? then Updated else Created)
                && formData == InitialForm && editingId == None
      ensures call.Some? && !succeeded ==>
                && message == (if call.value.Update? then UpdateFailed else CreateFailed)
                && formData == old(formData) && editingId == old(editingId)
    {
      message := "";
      reload := false;
      if !Filled(formData, NameUz) || !Filled(formData, NameEn) || !Filled(formData, NameRu) {
        message := NamesRequired;
        return None, false;
      }
      if editingId.Some? && editingId.value != 0 {
        call := Some(Update(editingId.value, formData));
      } else {
        call := Some(Create(formData));
      }
      if !succeeded {
        message := if call.value.Update? then UpdateFailed else CreateFailed;
        return;
      }
      message := if call.value.Update? then Updated else Created;
      formData := InitialForm;
      editingId := None;
      reload := true;
    }

    /** `handleEdit(department)`. */
    method HandleEdit(dept: DepartmentRow)
      modifies this`editingId, this`formData
      ensures editingId == Some(dept.id) && formData == EditForm(dept)
      ensures Editing(editingId) <==> dept.id != 0
    {
      editingId := Some(dept.id);
      formData := EditForm(dept);
    }

    /** `handleCancelEdit`: back to create mode with a fresh form. */
    method HandleCancelEdit()
      modifies this`editingId, this`formData, this`message
      ensures editingId == None && formData == InitialForm && message == ""
    {
      editingId := None;
      formData := InitialForm;
      message := "";
    }
  }
}
