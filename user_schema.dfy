/** The request bodies of backend/schemas/user.py and their validation. */
module UserSchema {
  import opened Outcome
  import opened Tables

  const MinPasswordLength := 8

  /** CreateUser; password_hash carries the plain password the repository hashes. */
  datatype CreateUser = CreateUser(
    firstName: string,
    lastName: string,
    username: string,
    emailAddress: string,
    password: Option<string>,
    businessUnitId: Uuid,
    departmentId: Uuid)

  /**
   * CreateUser.check_password_length: None and "" pass, any other value
   * shorter than eight characters is refused, and what passes is kept as is.
   */
  function CheckPasswordLength(v: Option<string>): (r: Result<Option<string>>)
    ensures r.Ok? ==> r.value == v
    ensures r.Err? ==> r.error == Unprocessable
  {
    if v.Some? && v.value != "" && |v.value| < MinPasswordLength then Err(Unprocessable) else Ok(v)
  }

  /** Exactly the absent, the empty, and the long-enough passwords are accepted. */
  lemma {:induction false} AcceptedPasswords(v: Option<string>)
    ensures CheckPasswordLength(v).Ok? <==> v.None? || v.value == "" || |v.value| >= MinPasswordLength
  {
  }

  /** ChangePassword once validated: new_password is present and long enough. */
  datatype ChangePassword = ChangePassword(currentPassword: Option<string>, newPassword: string)

  /** Builds ChangePassword from the fields received; new_password is required, with min_length 8. */
  function ValidateChangePassword(currentPassword: Option<string>, newPassword: Option<string>)
    : (r: Result<ChangePassword>)
    ensures r.Ok? <==> newPassword.Some? && |newPassword.value| >= MinPasswordLength
    ensures r.Ok? ==> r.value == ChangePassword(currentPassword, newPassword.value)
    ensures r.Err? ==> r.error == Unprocessable
  {
    if newPassword.None? || |newPassword.value| < MinPasswordLength then Err(Unprocessable)
    else Ok(ChangePassword(currentPassword, newPassword.value))
  }

  /**
   * Every new password ChangePassword admits would also pass the creation
   * validator, while the creation validator admits the empty password that
   * ChangePassword refuses.
   */
  lemma {:induction false} ChangePasswordStricterThanCreate(current: Option<string>, newPassword: Option<string>)
    ensures ValidateChangePassword(current, newPassword).Ok? ==> CheckPasswordLength(newPassword).Ok?
    ensures CheckPasswordLength(Some("")).Ok? && ValidateChangePassword(current, Some("")).Err?
  {
  }
}
