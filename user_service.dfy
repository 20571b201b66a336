/** src-tauri/src/backend/user.rs: the registration request and its declared
    field constraints, and the two requests of `UserService`. */
module UserService {
  import opened Wrappers
  import opened Text
  import opened Backend
  import opened UserValidators

  datatype CreateUserRequest = CreateUserRequest(
    username: string, password: string, firstName: string, lastName: string, email: string)

  datatype LoginRequest = LoginRequest(username: string, password: string)

  /** What `auth/login` answers. */
  datatype LoginResponse = LoginResponse(token: string, userId: int, username: string, role: string)

  /** One failed constraint of `validate()`, by field. */
  datatype FieldError = FieldError(field: string, error: ValidationError)

  function LengthError(field: string, message: string): FieldError {
    FieldError(field, ValidationError("length", message))
  }

  function UsernameErrors(username: string): seq<FieldError> {
    (if 3 <= |username| <= 200 then [] else [LengthError("username", "Username must be between 3 and 50 characters")])
    + (match ValidateNoSpaces(username) case Ok(_) => [] case Err(e) => [FieldError("username", e)])
  }

  function PasswordErrors(password: string): seq<FieldError> {
    match ValidatePassword(password) case Ok(_) => [] case Err(e) => [FieldError("password", e)]
  }

  function NameErrors(field: string, name: string, message: string): seq<FieldError> {
    if 3 <= |name| <= 20 then [] else [LengthError(field, message)]
  }

  /** `CreateUserRequest::validate()`: every failed constraint of every field.
      The e-mail check of the validator crate is the parameter `isEmail`. */
  function ValidateCreateUser(r: CreateUserRequest, isEmail: string -> bool): (errs: seq<FieldError>)
    ensures errs == [] <==>
      3 <= |r.username| <= 200 && !ContainsChar(r.username, ' ')
      && ValidatePassword(r.password).Ok?
      && 3 <= |r.firstName| <= 20 && 3 <= |r.lastName| <= 20
      && isEmail(r.email)
    ensures forall e :: e in errs ==> e.field in {"username", "password", "first_name", "last_name", "email"}
  {
    UsernameErrors(r.username)
    + PasswordErrors(r.password)
    + NameErrors("first_name", r.firstName, "First name cannot exceed 20 characters")
    + NameErrors("last_name", r.lastName, "Last name cannot exceed 20 characters")
    + (if isEmail(r.email) then [] else [FieldError("email", ValidationError("email", "Invalid email format"))])
  }

  /** The username bound is 200 although its message says 50: a 51-character name
      without spaces draws no username error. */
  lemma UsernameBoundIsTwoHundred(username: string)
    requires 50 < |username| <= 200 && !ContainsChar(username, ' ')
    ensures UsernameErrors(username) == []
  {
  }

  /** `register`: POST the serialised request to `register`, returning the status. */
  function Register(req: CreateUserRequest, serialize: CreateUserRequest -> string): RequestSpec {
    RequestSpec(Post, "register", Some(Serialized(serialize(req))))
  }

  /** `login`: POST the serialised credentials to `auth/login`, decoding a `LoginResponse`. */
  function Login(req: LoginRequest, serialize: LoginRequest -> string): RequestSpec {
    RequestSpec(PostWithReturn, "auth/login", Some(Serialized(serialize(req))))
  }

  /** `register` does not call `validate()`: a request that fails validation is
      still sent, body and all. */
  lemma RegisterSendsInvalidRequests(serialize: CreateUserRequest -> string, isEmail: string -> bool)
    ensures var bad := CreateUserRequest("a b", "", "", "", "");
      ValidateCreateUser(bad, isEmail) != []
      && Register(bad, serialize).call == Post
      && Register(bad, serialize).body == Some(Serialized(serialize(bad)))
  {
    assert "a b"[1] == ' ';
  }
}
