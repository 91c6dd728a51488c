/** src/pages/AdminUserDashboard.jsx: the administrator's list of users (searched by
    key and role filter, one page at a time), the staff registration form and the
    password-reset dialog. The feature service calls are given by their outcome. */
module AdminUserDashboard {
  import opened Js
  import opened JsNumber
  import opened Constants
  import opened ServiceCalls

  /** `LIST_LIMIT`: users per page. */
  const ListLimit := 10

  /** An argument passed to `fetchUsers` or `searchUsers`: JavaScript lets a string,
      a number or nothing at all through the same parameter. */
  datatype Arg = Undefined | Text(s: string) | Numeric(n: int)

  /** The arguments `searchUsers(key, role, limit, page)` receives. */
  datatype Query = Query(key: string, role: Arg, limit: nat, page: Arg)

  /** A row of the user table. */
  datatype UserRow = UserRow(id: int, username: string, isBlocked: bool)

  /** A department offered by the registration form. */
  datatype Department = Department(id: int)

  /** What `searchUsers` resolves to. */
  datatype SearchResult = SearchResult(clientList: Option<seq<UserRow>>, totalCount: int, pageCount: int)

  /** The registration form; `departmentId` is a number, or null (`None`). */
  datatype UserForm = UserForm(username: string, password: string, firstName: string,
                               lastName: string, middleName: string, departmentId: Option<Number>)

  /** The inputs of the registration form, by their `name`. */
  datatype Input = Username | Password | FirstName | LastName | MiddleName | DepartmentId

  /** `INITIAL_USER_FORM_DATA`. */
  const InitialUserForm := UserForm("", "", "", "", "", None)

  const InitialLoadFailed := "\U{274C} Failed to load initial data (Users or Departments)."
  const FetchFailed := "\U{274C} Failed to fetch users."
  const RegistrationRequired := "\U{274C} Username, Password, First Name, Last Name, and Department are required."
  const StaffRegistered := "\U{2705} Staff user registered successfully."
  const RegistrationFailed := "Registration failed."
  const PasswordRule := "\U{274C} Password must be between 8 and 64 characters and contain no spaces."
  const ResetFailed := "\U{274C} Failed to reset password."
  const DeleteFailed := "\U{274C} Failed to delete user."

  const MinPasswordLength := 8
  const MaxPasswordLength := 64

  /** The arguments of `searchUsers` for `fetchUsers(key, role, page)`: the ALL
      filter becomes an undefined role; key and page pass through. */
  function SearchQuery(key: string, role: Arg, page: Arg): (q: Query)
    ensures q.key == key && q.limit == ListLimit && q.page == page
    ensures q.role == Undefined <==> role == Text(RoleFilterAll) || role == Undefined
    ensures q.role != Undefined ==> q.role == role
  {
    Query(key, if role == Text(RoleFilterAll) then Undefined else role, ListLimit, page)
  }

  /** `fetchUsers(searchKey, userRoleFilter, currentPage)`, as the search effect
      issues it whenever the key, the filter or the page changes. */
  function ListQuery(searchKey: string, roleFilter: string, currentPage: int): Query {
    SearchQuery(searchKey, Text(roleFilter), Numeric(currentPage))
  }

  /** The reload after a registration, deletion or block, as written:
      `fetchUsers(searchKey, currentPage)` passes the page as the role and no page. */
  function ReloadAsWritten(searchKey: string, currentPage: int): (q: Query)
    ensures q.key == searchKey && q.limit == ListLimit
    ensures q.role == Numeric(currentPage) && q.page == Undefined
  {
    SearchQuery(searchKey, Numeric(currentPage), Undefined)
  }

  /** The reload as evidently intended: the query of the list on show. */
  function Reload(searchKey: string, roleFilter: string, currentPage: int): (q: Query)
    ensures q == ListQuery(searchKey, roleFilter, currentPage)
    ensures q.page == Numeric(currentPage)
    ensures q.role == if roleFilter == RoleFilterAll then Undefined else Text(roleFilter)
  {
    SearchQuery(searchKey, Text(roleFilter), Numeric(currentPage))
  }

  /** As written, a reload never asks for the page or the filter on show: it sends
      the page number as the role, whatever the filter, and leaves the page out. */
  lemma ReloadAsWrittenLosesFilterAndPage(searchKey: string, roleFilter: string, currentPage: int)
    ensures ReloadAsWritten(searchKey, currentPage) != ListQuery(searchKey, roleFilter, currentPage)
    ensures ReloadAsWritten(searchKey, currentPage) != Reload(searchKey, roleFilter, currentPage)
  {
    assert ListQuery(searchKey, roleFilter, currentPage).page == Numeric(currentPage);
  }

  /** `departments[0]?.id || null`: an id of 0 is falsy and also gives null. */
  function FirstDepartmentId(departments: seq<Department>): (id: Option<Number>)
    ensures id.Some? <==> |departments| > 0 && departments[0].id != 0
    ensures id.Some? ==> id.value == Int(departments[0].id)
  {
    if |departments| > 0 && departments[0].id != 0 then Some(Int(departments[0].id)) else None
  }

  /** `handleInputChange`: the department id is coerced with `Number`, every other
      input is stored as typed. */
  function WithInput(f: UserForm, name: Input, value: string): (g: UserForm)
    ensures name == DepartmentId ==> g == f.(departmentId := Some(ToNumber(value)))
    ensures name == Username ==> g == f.(username := value)
    ensures name == Password ==> g == f.(password := value)
    ensures name == FirstName ==> g == f.(firstName := value)
    ensures name == LastName ==> g == f.(lastName := value)
    ensures name == MiddleName ==> g == f.(middleName := value)
  {
    match name
    case Username => f.(username := value)
    case Password => f.(password := value)
    case FirstName => f.(firstName := value)
    case LastName => f.(lastName := value)
    case MiddleName => f.(middleName := value)
    case DepartmentId => f.(departmentId := Some(ToNumber(value)))
  }

  /** The required-fields guard of `handleRegisterSubmit`: the four text fields
      are tested for truthiness, but the department only for null, so a
      department of 0 or NaN lets the registration through. */
  function RegistrationBlocked(f: UserForm): (blocked: bool)
    ensures f.departmentId.None? ==> blocked
    ensures f.departmentId.Some? ==>
              (blocked <==> f.username == [] || f.password == [] || f.firstName == [] || f.lastName == [])
  {
    f.username == [] || f.password == [] || f.firstName == [] || f.lastName == [] || f.departmentId == None
  }

  /** Once the department input has been touched the department is never null:
      clearing it stores `Number("")`, which is 0, and text that is not a number
      stores NaN; neither blocks the registration. */
  lemma TouchedDepartmentNeverNull(f: UserForm, value: string)
    ensures WithInput(f, DepartmentId, value).departmentId.Some?
    ensures IsBlank(value) ==> WithInput(f, DepartmentId, value).departmentId == Some(Int(0))
    ensures var g := WithInput(f, DepartmentId, value);
      RegistrationBlocked(g) <==> g.username == [] || g.password == [] || g.firstName == [] || g.lastName == []
  {
  }

  /** A first department with id 0 is kept on mount, but the reset after a
      registration turns it into null, so the next registration is refused until
      a department is picked again. */
  lemma FirstDepartmentZeroId(departments: seq<Department>, f: UserForm)
    requires |departments| > 0 && departments[0].id == 0
    requires f.username != [] && f.password != [] && f.firstName != [] && f.lastName != []
    ensures !RegistrationBlocked(f.(departmentId := Some(Int(departments[0].id))))
    ensures RegistrationBlocked(f.(departmentId := FirstDepartmentId(departments)))
  {
  }

  /** `/\s/.test(p)`: some character of `p` is white space. */
  function HasSpace(p: string): (found: bool)
    ensures found <==> exists i :: 0 <= i < |p| && IsSpace(p[i])
  {
    if p == [] then false
    else if IsSpace(p[0]) then true
    else
      assert forall i :: 0 < i < |p| ==> p[i] == p[1..][i - 1];
      HasSpace(p[1..])
  }

  /** The guard of `handlePasswordReset`; the bounds count UTF-16 code units. */
  function PasswordRejected(p: string): (rejected: bool)
    ensures !rejected <==> && MinPasswordLength <= Length(p) <= MaxPasswordLength
                           && forall i :: 0 <= i < |p| ==> !IsSpace(p[i])
  {
    p == [] || Length(p) < 8 || Length(p) > 64 || HasSpace(p)
  }

  /** Four emoji make a password of length 8, which the guard accepts. */
  lemma FourEmojiPasswordAccepted()
    ensures !PasswordRejected("\U{1F600}\U{1F600}\U{1F600}\U{1F600}")
  {
    var p := "\U{1F600}\U{1F600}\U{1F600}\U{1F600}";
    assert p[1..][1..][1..][1..] == [];
    assert Length(p) == 8;
  }

  class UserDashboard {
    var users: seq<UserRow>
    var departments: seq<Department>
    var formData: UserForm
    var loading: bool
    var message: string
    var searchKey: string
    var userRoleFilter: string
    var currentPage: int
    var totalCount: int
    var pageCount: int
    var showPasswordModal: bool
    var userToReset: Option<UserRow>
    var newPassword: string

    constructor ()
      ensures users == [] && departments == [] && formData == InitialUserForm && loading
      ensures message == "" && searchKey == "" && userRoleFilter == RoleFilterAll
      ensures currentPage == 0 && totalCount == 0 && pageCount == 0
      ensures !showPasswordModal && userToReset == None && newPassword == ""
    {
      users := [];
      departments := [];
      formData := InitialUserForm;
      loading := true;
      message := "";
      searchKey := "";
      userRoleFilter := RoleFilterAll;
      currentPage := 0;
      totalCount := 0;
      pageCount := 0;
      showPasswordModal := false;
      userToReset := None;
      newPassword := "";
    }

    /** `fetchUsers(key, role, page)`, given what `searchUsers` resolves to (`None`
        when it rejects): the query sent. A failure empties the list and the counts. */
    method FetchUsers(key: string, role: Arg, page: Arg, result: Option<SearchResult>) returns (q: Query)
      modifies this`users, this`totalCount, this`pageCount, this`message, this`loading
      ensures q == SearchQuery(key, role, page) && !loading
      ensures result.Some? ==>
                && users == (if result.value.clientList.Some? then result.value.clientList.value else [])
                && totalCount == result.value.totalCount && pageCount == result.value.pageCount
                && message == old(message)
      ensures result.None? ==> users == [] && totalCount == 0 && pageCount == 0 && message == FetchFailed
    {
      loading := true;
      var roleToSearch := if role == Text(RoleFilterAll) then Undefined else role;
      q := Query(key, roleToSearch, ListLimit, page);
      if result.Some? {
        var data := result.value;
        users := if data.clientList.Some? then data.clientList.value else [];
        totalCount := data.totalCount;
        pageCount := data.pageCount;
      } else {
        message := FetchFailed;
        users := [];
        totalCount := 0;
        pageCount := 0;
      }
      loading := false;
    }

    /** The mount effect `loadData`, given what `getPublicDepartmentNonBlocked`
        resolves to and what the first `searchUsers` resolves to (`None` when a
        call rejects): the first department is picked, its id kept as it is, and
        the list on show is fetched. `fetchUsers` catches its own failure, so only
        a failure to load the departments reaches the catch block. */
    method LoadInitial(loaded: Option<seq<Department>>, result: Option<SearchResult>) returns (q: Option<Query>)
      modifies this`departments, this`formData, this`users, this`totalCount, this`pageCount, this`message, this`loading
      ensures loaded.None? ==>
                && q == None && message == InitialLoadFailed && !loading
                && departments == old(departments) && formData == old(formData)
                && users == old(users) && totalCount == old(totalCount) && pageCount == old(pageCount)
      ensures loaded.Some? ==>
                && departments == loaded.value && q == Some(ListQuery(searchKey, userRoleFilter, currentPage))
                && formData == (if |loaded.value| > 0 then old(formData).(departmentId := Some(Int(loaded.value[0].id)))
                                else old(formData))
                && !loading
      ensures loaded.Some? && result.Some? ==>
                && users == (if result.value.clientList.Some? then result.value.clientList.value else [])
                && totalCount == result.value.totalCount && pageCount == result.value.pageCount
                && message == old(message)
      ensures loaded.Some? && result.None? ==>
                users == [] && totalCount == 0 && pageCount == 0 && message == FetchFailed
    {
      if loaded.None? {
        message := InitialLoadFailed;
        loading := false;
        return None;
      }
      var deptData := loaded.value;
      departments := deptData;
      if |deptData| > 0 {
        formData := formData.(departmentId := Some(Int(deptData[0].id)));
      }
      var sent := FetchUsers(searchKey, Text(userRoleFilter), Numeric(currentPage), result);
      q := Some(sent);
    }

    /** `handlePageChange(newPage)`: only a page that exists is accepted. */
    method HandlePageChange(newPage: int)
      modifies this`currentPage
      ensures 0 <= newPage < pageCount ==> currentPage == newPage
      ensures !(0 <= newPage < pageCount) ==> currentPage == old(currentPage)
    {
      if newPage >= 0 && newPage < pageCount {
        currentPage := newPage;
      }
    }

    /** `handleRoleFilterChange(role)`: a new filter starts from the first page. */
    method HandleRoleFilterChange(role: string)
      modifies this`userRoleFilter, this`currentPage
      ensures userRoleFilter == role && currentPage == 0
    {
      userRoleFilter := role;
      currentPage := 0;
    }

    /** `handleInputChange` for the input called `name`. */
    method HandleInputChange(name: Input, value: string)
      modifies this`formData
      ensures formData == WithInput(old(formData), name, value)
    {
      if name == DepartmentId {
        formData := formData.(departmentId := Some(ToNumber(value)));
      } else {
        formData := WithInput(formData, name, value);
      }
    }

    /** `handleRegisterSubmit`, given how `registerStaff` ends: the form sent, if
        the guard let it through, and the reload query issued after a success. */
    method HandleRegisterSubmit(reply: Reply) returns (sent: Option<UserForm>, reload: Option<Query>)
      modifies this`message, this`formData
      ensures sent.None? <==> RegistrationBlocked(old(formData))
      ensures sent.None? ==> message == RegistrationRequired && formData == old(formData) && reload == None
      ensures sent.Some? ==> sent.value == old(formData)
      ensures sent.Some? && reply.Accepted? ==>
                && message == StaffRegistered
                && formData == InitialUserForm.(departmentId := FirstDepartmentId(departments))
                && reload == Some(ReloadAsWritten(searchKey, currentPage))
      ensures sent.Some? && reply.Refused? ==>
                && message == "\U{274C} Error: " + ServerMessageOr(reply.message, RegistrationFailed)
                && formData == old(formData) && reload == None
    {
      message := "";
      var f := formData;
      if f.username == [] || f.password == [] || f.firstName == [] || f.lastName == [] || f.departmentId == None {
        message := RegistrationRequired;
        return None, None;
      }
      sent := Some(f);
      if reply.Accepted? {
        message := StaffRegistered;
        formData := InitialUserForm.(departmentId := FirstDepartmentId(departments));
        reload := Some(ReloadAsWritten(searchKey, currentPage));
      } else {
        message := "\U{274C} Error: " + ServerMessageOr(reply.message, RegistrationFailed);
        reload := None;
      }
    }

    /** `handleDelete(id, username)`, given the confirmation and whether
        `deleteUser` succeeded: the reload query issued after a success. */
    method HandleDelete(username: string, confirmed: bool, succeeded: bool) returns (reload: Option<Query>)
      modifies this`message
      ensures !confirmed ==> message == old(message) && reload == None
      ensures confirmed && succeeded ==>
                && message == "\U{2705} User " + username + " deleted successfully."
                && reload == Some(ReloadAsWritten(searchKey, currentPage))
      ensures confirmed && !succeeded ==> message == DeleteFailed && reload == None
    {
      reload := None;
      if confirmed {
        if succeeded {
          message := "\U{2705} User " + username + " deleted successfully.";
          reload := Some(ReloadAsWritten(searchKey, currentPage));
        } else {
          message := DeleteFailed;
        }
      }
    }

    /** `handleToggleBlock(user)`, given the confirmation and whether `blockUser`
        succeeded: the block status requested and the reload query issued. */
    method HandleToggleBlock(user: UserRow, confirmed: bool, succeeded: bool)
      returns (requested: Option<bool>, reload: Option<Query>)
      modifies this`message
      ensures requested.Some? <==> confirmed
      ensures requested.Some? ==> requested.value == !user.isBlocked
      ensures !confirmed ==> message == old(message) && reload == None
      ensures confirmed && succeeded ==>
                && message == "\U{2705} User " + user.username + " successfully " + BlockAction(!user.isBlocked) + "ed."
                && reload == Some(ReloadAsWritten(searchKey, currentPage))
      ensures confirmed && !succeeded ==>
                message == "\U{274C} Failed to " + BlockAction(!user.isBlocked) + " user." && reload == None
    {
      var newBlockStatus := !user.isBlocked;
      var action := BlockAction(newBlockStatus);
      requested, reload := None, None;
      if confirmed {
        requested := Some(newBlockStatus);
        if succeeded {
          message := "\U{2705} User " + user.username + " successfully " + action + "ed.";
          reload := Some(ReloadAsWritten(searchKey, currentPage));
        } else {
          message := "\U{274C} Failed to " + action + " user.";
        }
      }
    }

    /** `openPasswordModal(user)`: an error message left over is cleared. */
    method OpenPasswordModal(user: UserRow)
      modifies this`userToReset, this`newPassword, this`message, this`showPasswordModal
      ensures userToReset == Some(user) && newPassword == "" && showPasswordModal
      ensures message == if |old(message)| > 0 && old(message)[0] == '\U{274C}' then "" else old(message)
    {
      userToReset := Some(user);
      newPassword := "";
      if |message| > 0 && message[0] == '\U{274C}' {
        message := "";
      }
      showPasswordModal := true;
    }

    /** `closePasswordModal`: the dialog is closed and the message cleared. */
    method ClosePasswordModal()
      modifies this`userToReset, this`newPassword, this`message, this`showPasswordModal
      ensures userToReset == None && newPassword == "" && !showPasswordModal && message == ""
    {
      userToReset := None;
      newPassword := "";
      showPasswordModal := false;
      message := "";
    }

    /** `handlePasswordReset`, given whether `resetPassword` succeeds: the password
        sent, if the guard let it through. With no user picked, reading its id
        throws inside the `try` and counts as a failure. A success closes the
        dialog, whose closing clears the success message as well. */
    method HandlePasswordReset(succeeded: bool) returns (sent: Option<string>)
      modifies this`userToReset, this`newPassword, this`message, this`showPasswordModal
      ensures PasswordRejected(old(newPassword)) ==>
                && sent.None? && message == PasswordRule && userToReset == old(userToReset)
                && newPassword == old(newPassword) && showPasswordModal == old(showPasswordModal)
      ensures sent.Some? ==> !PasswordRejected(old(newPassword)) && sent.value == old(newPassword)
      ensures !PasswordRejected(old(newPassword)) ==> (sent.Some? <==> old(userToReset).Some?)
      ensures !PasswordRejected(old(newPassword)) && sent.Some? && succeeded ==>
                userToReset == None && newPassword == "" && !showPasswordModal && message == ""
      ensures !PasswordRejected(old(newPassword)) && !(sent.Some? && succeeded) ==>
                && message == ResetFailed && userToReset == old(userToReset)
                && newPassword == old(newPassword) && showPasswordModal == old(showPasswordModal)
    {
      message := "";
      var p := newPassword;
      if p == [] || Length(p) < 8 || Length(p) > 64 || HasSpace(p) {
        message := PasswordRule;
        return None;
      }
      if userToReset.None? {
        message := ResetFailed;
        return None;
      }
      sent := Some(p);
      if succeeded {
        message := "\U{2705} Password for " + userToReset.value.username + " successfully reset.";
        ClosePasswordModal();
      } else {
        message := ResetFailed;
      }
    }
  }

  /** `newBlockStatus ? "block" : "unblock"`. */
  function BlockAction(newBlockStatus: bool): string {
    if newBlockStatus then "block" else "unblock"
  }
}
