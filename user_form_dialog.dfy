/** The create/edit user dialog (src/components/users/user-form-dialog.tsx): the validation
    schema, the values the form starts from, and `onSubmit`, which builds the request and adds
    the password to it only when one was typed. The email check of the schema library is the
    parameter `isEmail`. */
module UserFormDialog {
  import opened Wrappers
  import opened Types
  import opened Text
  import opened Dto

  datatype UserFormValues = UserFormValues(
    username: string,
    password: Option<string>,
    email: string,
    firstName: Option<string>,
    lastName: Option<string>,
    role: Option<UserRole>)

  datatype FieldError = FieldError(field: string, message: string)

  /** `userSchema`: the field errors, in field order; an absent role defaults to EMPLOYEE. */
  function SchemaErrors(v: UserFormValues, isEmail: string -> bool): (r: seq<FieldError>)
    ensures r == [] <==>
      3 <= |v.username| <= 50 && (v.password.Some? ==> |v.password.value| >= 6) && isEmail(v.email)
  {
    (if |v.username| < 3 then [FieldError("username", "Username must be 3-50 characters")]
     else if |v.username| > 50 then [FieldError("username", "String must contain at most 50 character(s)")]
     else []) +
    (if v.password.Some? && |v.password.value| < 6
     then [FieldError("password", "Password must be at least 6 characters")] else []) +
    (if !isEmail(v.email) then [FieldError("email", "Invalid email format")] else [])
  }

  /** The role after parsing: the schema's default fills in a missing one. */
  function ParsedRole(v: UserFormValues): UserRole
  {
    v.role.GetOr(EMPLOYEE)
  }

  /** The form's initial values: from the user when there is one, with an empty password only
      when creating. */
  function Defaults(user: Option<UserDto>, isEditMode: bool): (v: UserFormValues)
    ensures isEditMode ==> v.password.None?
    ensures !isEditMode ==> v.password == Some("")
    ensures user.None? ==> v.username == "" && v.email == "" && v.role == Some(EMPLOYEE)
  {
    UserFormValues(
      if user.Some? then user.value.username else "",
      if isEditMode then None else Some(""),
      if user.Some? then user.value.email else "",
      Some(if user.Some? && TruthyString(user.value.firstName) then user.value.firstName.value else ""),
      Some(if user.Some? && TruthyString(user.value.lastName) then user.value.lastName.value else ""),
      Some(if user.Some? then user.value.role else EMPLOYEE))
  }

  /** `form.reset(...)` when a user is passed in. */
  function FromUser(u: UserDto): (v: UserFormValues)
    ensures v.password.None?
    ensures v.username == u.username && v.email == u.email && v.role == Some(u.role)
  {
    UserFormValues(u.username, None, u.email,
                   Some(if TruthyString(u.firstName) then u.firstName.value else ""),
                   Some(if TruthyString(u.lastName) then u.lastName.value else ""),
                   Some(u.role))
  }

  /** A fresh create dialog cannot be submitted as it starts: the schema already rejects its
      empty password, before `onSubmit` would. */
  lemma FreshCreateFormRejected(isEmail: string -> bool)
    ensures FieldError("password", "Password must be at least 6 characters") in SchemaErrors(Defaults(None, false), isEmail)
  {
    var errors := SchemaErrors(Defaults(None, false), isEmail);
    assert errors[1] == FieldError("password", "Password must be at least 6 characters");
  }

  datatype UserRequest = UserRequest(
    username: string,
    email: string,
    firstName: Option<string>,
    lastName: Option<string>,
    role: UserRole,
    password: Option<string>)

  /** What `onSubmit` does: a create or an update request, or a field error on the password. */
  datatype Outcome = CreateUser(body: UserRequest) | UpdateUser(id: int, body: UserRequest) | PasswordRequired

  /** `onSubmit` on values the schema accepted. */
  method OnSubmit(values: UserFormValues, isEditMode: bool, userId: Option<int>) returns (r: Outcome)
    ensures r.PasswordRequired? <==> !TruthyString(values.password) && !isEditMode
    ensures r.UpdateUser? <==> !r.PasswordRequired? && isEditMode && userId.Some? && userId.value != 0
    ensures r.UpdateUser? ==> r.id == userId.value
    ensures !r.PasswordRequired? ==>
      r.body.username == values.username && r.body.email == values.email &&
      r.body.role == ParsedRole(values) &&
      (r.body.firstName.Some? <==> TruthyString(values.firstName)) &&
      (r.body.firstName.Some? ==> r.body.firstName == values.firstName) &&
      (r.body.lastName.Some? <==> TruthyString(values.lastName)) &&
      (r.body.lastName.Some? ==> r.body.lastName == values.lastName) &&
      (r.body.password.Some? <==> TruthyString(values.password)) &&
      (r.body.password.Some? ==> r.body.password == values.password)
  {
    var userData := UserRequest(values.username, values.email,
                                if TruthyString(values.firstName) then values.firstName else None,
                                if TruthyString(values.lastName) then values.lastName else None,
                                ParsedRole(values), None);
    if TruthyString(values.password) {
      userData := userData.(password := values.password);
    } else if !isEditMode {
      return PasswordRequired;
    }
    if isEditMode && userId.Some? && userId.value != 0 {
      r := UpdateUser(userId.value, userData);
    } else {
      r := CreateUser(userData);
    }
  }
}
