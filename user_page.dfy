/** src/pages/UserPage.jsx: a signed-in user's own profile. Loading refreshes the
    cached user; the details form is checked by a chain of guarded early returns
    before the update call; the password form is cleared after a successful update.
    The page calls the legacy services of src/services/UserService.js. */
module UserPage {
  import opened Js
  import opened JsNumber
  import opened Api
  import UserService
  import LegacyUserService

  /** The details form, every input as a string. */
  datatype DetailsForm = DetailsForm(hemisId: string, firstName: string, lastName: string,
                                     middleName: string, departmentId: string)

  /** The password form. */
  datatype Passwords = Passwords(oldPassword: string, newPassword: string)

  const EmptyPasswords := Passwords("", "")

  const FirstNameRequired := "\U{274C} First name is required."
  const FirstNameTooLong := "\U{274C} First name must be at most 63 characters."
  const LastNameRequired := "\U{274C} Last name is required."
  const LastNameTooLong := "\U{274C} Last name must be at most 63 characters."
  const HemisIdTooLong := "\U{274C} Hemis ID must be at most 31 characters."
  const MiddleNameTooLong := "\U{274C} Middle name must be at most 63 characters."
  const DepartmentNotNumber := "\U{274C} Department ID must be a number."
  const DetailsSaved := "\U{2705} User details updated successfully."
  const DetailsFailed := "\U{274C} Failed to update user details."
  const PasswordSaved := "\U{2705} Password updated successfully."
  const PasswordFailed := "\U{274C} Failed to update password."

  /** The longest first, last and middle name, and the longest HEMIS id. */
  const MaxNameLength := 63
  const MaxHemisIdLength := 31

  /** The form filled from a user: `user?.field || ""` for every input; the
      department id, a number, is shown as its decimal text, and 0 is falsy. */
  function FormFromUser(u: Option<User>): (f: DetailsForm)
    ensures u.None? ==> f == DetailsForm("", "", "", "", "")
    ensures f.departmentId == [] || IsDigits(f.departmentId)
  {
    if u.None? then DetailsForm("", "", "", "", "")
    else
      var v := u.value;
      DetailsForm(OrEmpty(v.hemisId), OrEmpty(v.firstName), OrEmpty(v.lastName), OrEmpty(v.middleName),
                  if v.departmentId.Some? && v.departmentId.value != 0 then DecimalText(v.departmentId.value) else "")
  }

  /** The checks of the details form, in the order they run. */
  datatype Check = FirstNameGiven | FirstNameFits | LastNameGiven | LastNameFits
                 | HemisIdFits | MiddleNameFits | DepartmentIsNumber

  /** The position of a check in the chain. */
  function Rank(c: Check): nat {
    match c
    case FirstNameGiven => 0
    case FirstNameFits => 1
    case LastNameGiven => 2
    case LastNameFits => 3
    case HemisIdFits => 4
    case MiddleNameFits => 5
    case DepartmentIsNumber => 6
  }

  /** What each check demands of the form. */
  predicate Passes(f: DetailsForm, c: Check) {
    match c
    case FirstNameGiven => !IsBlank(f.firstName)
    case FirstNameFits => Length(f.firstName) <= MaxNameLength
    case LastNameGiven => !IsBlank(f.lastName)
    case LastNameFits => Length(f.lastName) <= MaxNameLength
    case HemisIdFits => Length(f.hemisId) <= MaxHemisIdLength
    case MiddleNameFits => Length(f.middleName) <= MaxNameLength
    case DepartmentIsNumber => f.departmentId == [] || !IsNaN(f.departmentId)
  }

  /** The message a failing check shows: an error, marked with a cross, and never
      one of the outcome messages. */
  function Message(c: Check): (m: string)
    ensures |m| > 0 && m[0] == '\U{274C}'
    ensures m != DetailsSaved && m != DetailsFailed
  {
    match c
    case FirstNameGiven => FirstNameRequired
    case FirstNameFits => FirstNameTooLong
    case LastNameGiven => LastNameRequired
    case LastNameFits => LastNameTooLong
    case HemisIdFits => HemisIdTooLong
    case MiddleNameFits => MiddleNameTooLong
    case DepartmentIsNumber => DepartmentNotNumber
  }

  /** Each check shows a message of its own. */
  lemma MessagesDistinct(c: Check, d: Check)
    requires Message(c) == Message(d)
    ensures c == d
  {
  }

  /** Every check passes exactly when each of the seven does. */
  lemma AllChecksPass(f: DetailsForm)
    ensures (forall c :: Passes(f, c)) <==>
      && Passes(f, FirstNameGiven) && Passes(f, FirstNameFits) && Passes(f, LastNameGiven)
      && Passes(f, LastNameFits) && Passes(f, HemisIdFits) && Passes(f, MiddleNameFits)
      && Passes(f, DepartmentIsNumber)
  {
    if && Passes(f, FirstNameGiven) && Passes(f, FirstNameFits) && Passes(f, LastNameGiven)
       && Passes(f, LastNameFits) && Passes(f, HemisIdFits) && Passes(f, MiddleNameFits)
       && Passes(f, DepartmentIsNumber)
    {
      forall c ensures Passes(f, c) {
        match c
        case FirstNameGiven =>
        case FirstNameFits =>
        case LastNameGiven =>
        case LastNameFits =>
        case HemisIdFits =>
        case MiddleNameFits =>
        case DepartmentIsNumber =>
      }
    }
  }

  /** The guard chain of `handleDetailsSubmit`: the first failing check, or none
      when the update call is made. */
  function DetailsError(f: DetailsForm): (failed: Option<Check>)
    ensures failed.None? <==> forall c :: Passes(f, c)
    ensures failed.Some? ==> !Passes(f, failed.value)
    ensures failed.Some? ==> forall c :: Rank(c) < Rank(failed.value) ==> Passes(f, c)
  {
    AllChecksPass(f);
    if !Passes(f, FirstNameGiven) then Some(FirstNameGiven)
    else if !Passes(f, FirstNameFits) then Some(FirstNameFits)
    else if !Passes(f, LastNameGiven) then Some(LastNameGiven)
    else if !Passes(f, LastNameFits) then Some(LastNameFits)
    else if !Passes(f, HemisIdFits) then Some(HemisIdFits)
    else if !Passes(f, MiddleNameFits) then Some(MiddleNameFits)
    else if !Passes(f, DepartmentIsNumber) then Some(DepartmentIsNumber)
    else None
  }

  /** The first-name length is checked before trimming: a name that is not blank
      but is longer than 63 code units, surrounding spaces included, is refused as
      too long, even when it is short once trimmed. */
  lemma PaddedFirstNameTooLong(f: DetailsForm)
    requires !IsBlank(f.firstName) && Length(f.firstName) > MaxNameLength
    ensures DetailsError(f) == Some(FirstNameFits)
  {
  }

  /** For instance a one-letter name between a space and 63 more spaces. */
  lemma PaddedOneLetterName(f: DetailsForm)
    requires f.firstName == " " + "a" + seq(63, _ => ' ')
    ensures Trim(f.firstName) != [] && DetailsError(f) == Some(FirstNameFits)
  {
    assert f.firstName[1] == 'a';
    assert !IsBlank(f.firstName);
    assert forall i :: 0 <= i < |f.firstName| ==> !IsAstral(f.firstName[i]);
    PaddedFirstNameTooLong(f);
  }

  /** A department id filled in from the cached user never fails the number check. */
  lemma LoadedDepartmentIsNumeric(u: User)
    ensures Passes(FormFromUser(Some(u)), DepartmentIsNumber)
  {
    if u.departmentId.Some? && u.departmentId.value != 0 {
      NumberOfDecimalText(u.departmentId.value);
    }
  }

  class UserPageForm {
    /** The page's copy of the user, shown as JSON. */
    var user: Option<User>
    var loading: bool
    var formData: DetailsForm
    var passwordData: Passwords
    var message: string

    /** The initial state, read from the 'user' slot. */
    constructor (c: Client)
      ensures user == c.user && loading && formData == FormFromUser(c.user)
      ensures passwordData == EmptyPasswords && message == ""
    {
      user := c.user;
      loading := true;
      formData := FormFromUser(c.user);
      passwordData := EmptyPasswords;
      message := "";
    }

    /** The mount effect `fetchAndUpdateUser`. A refresh failure rejects the
        effect after `updateUserInStorage` has sent the browser to /login, and
        `loading` stays set. */
    method Load(c: Client)
      modifies this`user, this`formData, this`loading, c
      ensures var (r, g) := UserService.Refreshed(c.server, old(c.State()));
        && c.State() == g
        && (r.Done? ==> user == Some(r.value) && formData == FormFromUser(Some(r.value)) && !loading)
        && (r.Threw? ==> user == old(user) && formData == old(formData) && loading)
    {
      loading := true;
      var r := LegacyUserService.UpdateUserInStorage(c);
      if r.Threw? {
        return;
      }
      user := Some(r.value);
      formData := FormFromUser(Some(r.value));
      loading := false;
    }

    /** The chain of early returns in `handleDetailsSubmit`, run in order: the
        check that stops it, if any. */
    static method FirstFailedCheck(f: DetailsForm) returns (failed: Option<Check>)
      ensures failed == DetailsError(f)
    {
      if Trim(f.firstName) == [] {
        return Some(FirstNameGiven);
      }
      assert Passes(f, FirstNameGiven);
      if Length(f.firstName) > 63 {
        return Some(FirstNameFits);
      }
      assert Passes(f, FirstNameFits);
      if Trim(f.lastName) == [] {
        return Some(LastNameGiven);
      }
      assert Passes(f, LastNameGiven);
      if Length(f.lastName) > 63 {
        return Some(LastNameFits);
      }
      assert Passes(f, LastNameFits);
      if f.hemisId != [] && Length(f.hemisId) > 31 {
        return Some(HemisIdFits);
      }
      assert Passes(f, HemisIdFits);
      if f.middleName != [] && Length(f.middleName) > 63 {
        return Some(MiddleNameFits);
      }
      assert Passes(f, MiddleNameFits);
      if f.departmentId != [] && IsNaN(f.departmentId) {
        return Some(DepartmentIsNumber);
      }
      assert Passes(f, DepartmentIsNumber);
      return None;
    }

    /** `handleDetailsSubmit`: the first failing check sets its message and returns
        with no call; otherwise the details are sent and the page keeps the user
        the server returns. */
    method HandleDetailsSubmit(c: Client)
      modifies this`message, this`user, c
      ensures DetailsError(formData).Some? ==>
                message == Message(DetailsError(formData).value) && user == old(user) && c.State() == old(c.State())
      ensures DetailsError(formData).None? ==>
                var (r, g) := UserService.DetailsUpdated(c.server, old(c.State()));
                && c.State() == g
                && (r.Done? ==> user == Some(r.value) && message == DetailsSaved)
                && (r.Threw? ==> user == old(user) && message == DetailsFailed)
    {
      message := "";
      var failed := FirstFailedCheck(formData);
      if failed.Some? {
        message := Message(failed.value);
        return;
      }
      var r := LegacyUserService.UpdateUserDetails(c);
      if r.Done? {
        user := Some(r.value);
        message := DetailsSaved;
      } else {
        message := DetailsFailed;
      }
    }

    /** `handlePasswordSubmit`: a success clears both fields, a failure keeps them. */
    method HandlePasswordSubmit(c: Client)
      modifies this`message, this`passwordData, c
      ensures var (r, g) := UserService.PasswordUpdated(c.server, old(c.State()));
        && c.State() == g
        && (r.Done? ==> passwordData == EmptyPasswords && message == PasswordSaved)
        && (r.Threw? ==> passwordData == old(passwordData) && message == PasswordFailed)
    {
      var r := LegacyUserService.UpdateUserPassword(c);
      if r.Done? {
        message := PasswordSaved;
        passwordData := EmptyPasswords;
      } else {
        message := PasswordFailed;
      }
    }
  }
}
