/** src/pages/AdminDepartmentDashboard.jsx: the administrator's department form,
    which creates a department, or updates one after Edit has picked it. The
    service calls are given by their outcome. */
module AdminDepartmentDashboard {
  import opened Js
  import opened Constants

  /** A department as listed by the server; `depType` may be missing. */
  datatype DepartmentRow = DepartmentRow(id: int, depType: Option<string>, nameUz: string,
                                         nameEn: string, nameRu: string, isBlocked: bool)

  /** The form. */
  datatype DepartmentForm = DepartmentForm(depType: string, nameUz: string, nameEn: string,
                                           nameRu: string, isBlocked: bool)

  /** The call a valid submission makes. */
  datatype DepartmentCall = Create(form: DepartmentForm) | Update(id: int, form: DepartmentForm)

  /** `INITIAL_DEPARTMENT_FORM_DATA`. */
  const InitialDepartmentForm := DepartmentForm(DepartmentTypeFaculty, "", "", "", false)

  const NamesRequired := "\U{274C} All name fields and Department Type are required."
  const Updated := "\U{2705} Department updated successfully."
  const Created := "\U{2705} Department created successfully."
  const FetchFailed := "\U{274C} Failed to fetch departments."
  /** The failure messages, which name the mode that failed. */
  const UpdateFailed := "\U{274C} Error: Updating department failed."
  const CreateFailed := "\U{274C} Error: Creating department failed."

  /** `editingId` is truthy: an id is set and it is not 0. */
  predicate Editing(editingId: Option<int>) {
    editingId.Some? && editingId.value != 0
  }

  /** The guard of `handleSubmit`: every name and the type are filled in. */
  predicate Complete(f: DepartmentForm) {
    f.nameUz != [] && f.nameEn != [] && f.nameRu != [] && f.depType != []
  }

  /** The form Edit fills in: the five fields of the department, its type
      defaulting to FACULTY when missing or empty. */
  function EditForm(dept: DepartmentRow): (f: DepartmentForm)
    ensures f.nameUz == dept.nameUz && f.nameEn == dept.nameEn && f.nameRu == dept.nameRu
    ensures f.isBlocked == dept.isBlocked
    ensures f.depType == if dept.depType.Some? && dept.depType.value != [] then dept.depType.value
                         else DepartmentTypeFaculty
    ensures f.depType != []
  {
    DepartmentForm(OrDefault(dept.depType, DepartmentTypeFaculty), dept.nameUz, dept.nameEn, dept.nameRu, dept.isBlocked)
  }

  /** `s || fallback` on a string that may be missing. */
  function OrDefault(s: Option<string>, fallback: string): string {
    if s.Some? && s.value != [] then s.value else fallback
  }

  class DepartmentDashboard {
    var departments: seq<DepartmentRow>
    var formData: DepartmentForm
    var editingId: Option<int>
    var loading: bool
    var message: string

    constructor ()
      ensures departments == [] && formData == InitialDepartmentForm && editingId == None
      ensures loading && message == ""
    {
      departments := [];
      formData := InitialDepartmentForm;
      editingId := None;
      loading := true;
      message := "";
    }

    /** `fetchDepartments`, given what the list call resolves to (`None` when it
        rejects). */
    method FetchDepartments(result: Option<seq<DepartmentRow>>)
      modifies this`departments, this`message, this`loading
      ensures result.Some? ==> departments == result.value && message == old(message)
      ensures result.None? ==> departments == old(departments) && message == FetchFailed
      ensures !loading
    {
      loading := true;
      if result.Some? {
        departments := result.value;
      } else {
        message := FetchFailed;
      }
      loading := false;
    }

    /** `handleSubmit`, given whether the create or update call succeeds: the call
        made, if the guard let the form through, and whether the list is reloaded. */
    method HandleSubmit(succeeded: bool) returns (call: Option<DepartmentCall>, reload: bool)
      modifies this`formData, this`editingId, this`message
      ensures call.None? <==> !Complete(old(formData))
      ensures call.None? ==> message == NamesRequired && formData == old(formData) && editingId == old(editingId)
      ensures call.Some? ==> call.value == if Editing(old(editingId)) then Update(old(editingId).value, old(formData))
                                           else Create(old(formData))
      ensures reload <==> call.Some? && succeeded
      ensures call.Some? && succeeded ==>
                && message == (if call.value.Update? then Updated else Created)
                && formData == InitialDepartmentForm && editingId == None
      ensures call.Some? && !succeeded ==>
                && message == (if call.value.Update? then UpdateFailed else CreateFailed)
                && formData == old(formData) && editingId == old(editingId)
    {
      message := "";
      reload := false;
      if formData.nameUz == [] || formData.nameEn == [] || formData.nameRu == [] || formData.depType == [] {
        message := NamesRequired;
        return None, false;
      }
      if editingId.Some? && editingId.value != 0 {
        call := Some(Update(editingId.value, formData));
      } else {
        call := Some(Create(formData));
      }
      if !succeeded {
        message := if call.value.Update? then UpdateFailed else CreateFailed;
        return;
      }
      message := if call.value.Update? then Updated else Created;
      formData := InitialDepartmentForm;
      editingId := None;
      reload := true;
    }

    /** `handleEdit(dept)`: edit mode on that department, whose id 0 would still
        read as create mode. */
    method HandleEdit(dept: DepartmentRow)
      modifies this`editingId, this`formData
      ensures editingId == Some(dept.id) && formData == EditForm(dept)
      ensures Editing(editingId) <==> dept.id != 0
    {
      editingId := Some(dept.id);
      formData := EditForm(dept);
    }

    /** `handleCancelEdit`: back to create mode with a fresh form. */
    method HandleCancelEdit()
      modifies this`editingId, this`formData, this`message
      ensures editingId == None && formData == InitialDepartmentForm && message == ""
    {
      editingId := None;
      formData := InitialDepartmentForm;
      message := "";
    }
  }

  /** A form filled in by Edit passes the guard exactly when the department has
      all three names, since the type is defaulted. */
  lemma EditedFormCompleteness(dept: DepartmentRow)
    ensures Complete(EditForm(dept)) <==> dept.nameUz != [] && dept.nameEn != [] && dept.nameRu != []
  {
  }

  /** The initial form is refused: its names are empty. */
  lemma InitialFormIncomplete()
    ensures !Complete(InitialDepartmentForm)
  {
  }
}
