/** The constants of src/configs/constants.js that the modelled handlers read. */
module Constants {
  const UserRoleAdmin := "ADMIN"
  const UserRoleStaff := "STAFF"
  const UserRoleAuthor := "AUTHOR"

  const DepartmentTypeFaculty := "FACULTY"
  const DepartmentTypeConference := "CONFERENCE"

  /** `USER_ROLE_FILTER_OPTIONS.ALL`. */
  const RoleFilterAll := "ALL"

  const DocTypeList: seq<string> :=
    ["DISSERTATION", "CONFERENCE_PROCEEDINGS", "CONFERENCE_PAPER", "BOOK", "BOOK_CHAPTER", "REPORT"]

  const DocRoleAuthor := "AUTHOR"
  const DocRoleList: seq<string> := [DocRoleAuthor, "REVIEWER", "EDITOR", "SUPERVISOR"]
}
