/**
 * validations/authValidation.js: the register and login schemas. Email syntax is the
 * predicate `isEmail`.
 */
module AuthValidation {
  import opened Wrappers
  import opened Text
  import opened Rules

  datatype RegisterBody = RegisterBody(name: Option<string>, email: Option<string>, password: Option<string>, role: Option<string>)
  datatype Registration = Registration(name: string, email: string, password: string, role: string)

  const Roles: seq<string> := ["Seller", "Buyer"]

  const NameRequiredMessage := "Please enter a username"
  const EmailRequiredMessage := "Enter a valid email"
  const PasswordRequiredMessage := "Enter a valid password"
  const RoleRequiredMessage := "Select a valid role, either Seller or Buyer"

  /** `registerSchema` */
  function Register(b: RegisterBody, isEmail: string -> bool): (r: Result<Registration, seq<Issue>>)
    ensures r.Success? <==>
      && b.name.Some? && 2 <= Utf16Length(Trim(b.name.value)) <= 50
      && b.email.Some? && b.email.value != "" && isEmail(b.email.value)
      && b.password.Some? && 6 <= Utf16Length(b.password.value) <= 128
      && b.role.Some? && (b.role.value == "Seller" || b.role.value == "Buyer")
    ensures r.Success? ==> r.value == Registration(Trim(b.name.value), b.email.value, b.password.value, b.role.value)
    ensures r.Failure? ==> 1 <= |r.error| <= 4
  {
    var name := TextRule("name", b.name, true, 2, Some(50), true, Some(NameRequiredMessage));
    var email := EmailRule("email", b.email, isEmail, Some(EmailRequiredMessage));
    var password := TextRule("password", b.password, false, 6, Some(128), true, Some(PasswordRequiredMessage));
    var role := OneOfRule("role", b.role, Roles, Some(RoleRequiredMessage));
    var issues := name.Issues() + email.Issues() + password.Issues() + role.Issues();
    if issues == [] then Success(Registration(name.value, email.value, password.value, role.value))
    else Failure(issues)
  }

  /** A role other than "Seller" or "Buyer" (an "Admin", a lower-case "seller") is refused. */
  lemma RegisterRejectsOtherRoles(b: RegisterBody, isEmail: string -> bool)
    requires b.role.Some? && b.role.value != "Seller" && b.role.value != "Buyer"
    ensures Register(b, isEmail).Failure?
    ensures Issue("role", NotAllowed) in Register(b, isEmail).error
  {
  }

  /** An empty body reports each field's custom message, in schema order. */
  lemma RegisterMissingMessages(isEmail: string -> bool)
    ensures Register(RegisterBody(None, None, None, None), isEmail) == Failure([
      Issue("name", Required(NameRequiredMessage)),
      Issue("email", Required(EmailRequiredMessage)),
      Issue("password", Required(PasswordRequiredMessage)),
      Issue("role", Required(RoleRequiredMessage))])
  {
    var name := Issue("name", Required(NameRequiredMessage));
    var email := Issue("email", Required(EmailRequiredMessage));
    var password := Issue("password", Required(PasswordRequiredMessage));
    var role := Issue("role", Required(RoleRequiredMessage));
    assert [name] + [email] + [password] + [role] == [name, email, password, role];
  }

  datatype LoginBody = LoginBody(name: Option<string>, password: Option<string>)
  datatype Credentials = Credentials(name: string, password: string)

  const UsernameRequiredMessage := "Username is required"
  const PasswordMissingMessage := "Password is required"

  /** `loginSchema`: a non-blank name and a non-empty password, with no length bounds. */
  function Login(b: LoginBody): (r: Result<Credentials, seq<Issue>>)
    ensures r.Success? <==> b.name.Some? && Trim(b.name.value) != "" && b.password.Some? && b.password.value != ""
    ensures r.Success? ==> r.value == Credentials(Trim(b.name.value), b.password.value)
    ensures b.name.None? ==> r.Failure? && |r.error| > 0 && r.error[0] == Issue("name", Required(UsernameRequiredMessage))
    ensures b.password.None? ==> r.Failure? && |r.error| > 0 && r.error[|r.error| - 1] == Issue("password", Required(PasswordMissingMessage))
  {
    var name := TextRule("name", b.name, true, 0, None, true, Some(UsernameRequiredMessage));
    var password := TextRule("password", b.password, false, 0, None, true, Some(PasswordMissingMessage));
    var issues := name.Issues() + password.Issues();
    if issues == [] then Success(Credentials(name.value, password.value)) else Failure(issues)
  }

  /** The name and password of any accepted registration pass the login schema unchanged. */
  lemma RegisteredCanLogIn(b: RegisterBody, isEmail: string -> bool)
    requires Register(b, isEmail).Success?
    ensures var reg := Register(b, isEmail).value;
      Login(LoginBody(Some(reg.name), Some(reg.password))) == Success(Credentials(reg.name, reg.password))
  {
    var reg := Register(b, isEmail).value;
    TrimTrimmed(reg.name);
    LoginAccepts(LoginBody(Some(reg.name), Some(reg.password)));
  }

  lemma LoginAccepts(b: LoginBody)
    requires b.name.Some? && Trim(b.name.value) != "" && b.password.Some? && b.password.value != ""
    ensures Login(b) == Success(Credentials(Trim(b.name.value), b.password.value))
  {
  }
}
