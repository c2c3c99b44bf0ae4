/** The user directory's service layer (app/service.py, lines 10-130; the
    older copy bench_management_app/app/service.py has the same code): the
    request models with their designation validator, registration and login.

    Password hashing, password verification, token creation, the text of a
    caught exception and the email check with its normalisation belong to libraries whose code
    is not part of this model; they arrive as the function-valued fields of a
    `Lib` value, and the only fact assumed about them is `HashVerifies`.
 */
module UserService {
  import opened Errors
  import opened Dao

  /** The library functions the service calls. */
  datatype Lib = Lib(
    hash: string -> string,            // get_password_hash (bcrypt)
    verify: (string, string) -> bool,  // verify_password(plain, hashed)
    createToken: string -> string,     // create_access_token(data={"sub": subject})
    text: Error -> string,             // str(e) of a caught exception
    validateEmail: string -> Option<string>)  // EmailStr: the normalised address, or None if malformed

  /** A password always verifies against its own hash. */
  ghost predicate HashVerifies(lib: Lib) {
    forall p :: lib.verify(p, lib.hash(p))
  }

  // ---------------------------------------------------------------------
  // Request and response models

  const ValidDesignations: set<string> := {
    "Manager_Level1", "Manager_Level2", "Manager_Level3", "Manager_Level4",
    "SeniorConsultant_Level1", "SeniorConsultant_Level2", "SeniorConsultant_Level3", "SeniorConsultant_Level4"
  }

  /** The validator's message. Python renders the set in its own iteration
      order; the model fixes one. */
  const DesignationMessage: string :=
    "Designation must be one of {'Manager_Level1', 'Manager_Level2', 'Manager_Level3', 'Manager_Level4', "
    + "'SeniorConsultant_Level1', 'SeniorConsultant_Level2', 'SeniorConsultant_Level3', 'SeniorConsultant_Level4'}"

  /** What the request parser reports for a malformed email address. */
  const EmailMessage: string := "value is not a valid email address"

  datatype UserCreate = UserCreate(
    firstName: string,
    lastName: string,
    email: string,
    password: string,
    designation: string)

  datatype UserLogin = UserLogin(email: string, password: string)

  /** The user as the API shows it: every column but the password. */
  datatype UserResponse = UserResponse(
    id: nat,
    firstName: string,
    lastName: string,
    email: string,
    designation: string)

  datatype TokenResponse = TokenResponse(accessToken: string, tokenType: string, user: UserResponse)

  /** `UserCreate.validate_designation`: the value itself when it is one of
      the eight designations, a ValueError otherwise. */
  function ValidateDesignation(v: string): (r: Result<string>)
    ensures r.Ok? <==> v in ValidDesignations
    ensures r.Ok? ==> r.value == v
    ensures r.Err? ==> r.error == ValueError(DesignationMessage)
  {
    if v !in ValidDesignations then Err(ValueError(DesignationMessage)) else Ok(v)
  }

  /** Building a `UserCreate` from a request body: every field that fails its
      check is reported, and the request is rejected as a whole. The email
      kept is the normalised one the EmailStr check returns. */
  function MakeUserCreate(firstName: string, lastName: string, email: string, password: string,
                          designation: string, lib: Lib): (r: Result<UserCreate>)
    ensures r.Ok? <==> lib.validateEmail(email).Some? && designation in ValidDesignations
    ensures r.Ok? ==> r.value == UserCreate(firstName, lastName, lib.validateEmail(email).value, password, designation)
    ensures lib.validateEmail(email).None? ==>
              r.Err? && r.error.RequestValidation? && FieldError("email", EmailMessage) in r.error.errors
    ensures r.Err? ==> r.error.RequestValidation? && StatusCode(r.error) == UnprocessableEntity
    ensures designation !in ValidDesignations ==>
              r.Err? && FieldError("designation", DesignationMessage) in r.error.errors
  {
    var emailErrors := if lib.validateEmail(email).Some? then [] else [FieldError("email", EmailMessage)];
    var designationErrors :=
      match ValidateDesignation(designation)
      case Ok(_) => []
      case Err(e) => [FieldError("designation", e.message)];
    var errors := emailErrors + designationErrors;
    if errors == [] then Ok(UserCreate(firstName, lastName, lib.validateEmail(email).value, password, designation))
    else Err(RequestValidation(errors))
  }

  /** `UserResponse.from_orm`. */
  function ToResponse(u: User): UserResponse {
    UserResponse(u.id, u.firstName, u.lastName, u.email, u.designation)
  }

  function Digit(d: nat): char
    requires d < 10
  {
    ('0' as int + d) as char
  }

  /** `str(n)` for a natural number: its decimal digits. */
  function DecimalString(n: nat): (s: string)
    ensures |s| > 0
    ensures forall i :: 0 <= i < |s| ==> '0' <= s[i] <= '9'
  {
    if n < 10 then [Digit(n)] else DecimalString(n / 10) + [Digit(n % 10)]
  }

  /** The number a string of decimal digits denotes (`int(s)`). */
  function DecimalValue(s: string): nat
    requires forall i :: 0 <= i < |s| ==> '0' <= s[i] <= '9'
  {
    if |s| == 0 then 0
    else DecimalValue(s[..|s| - 1]) * 10 + (s[|s| - 1] as int - '0' as int)
  }

  // ---------------------------------------------------------------------
  // UserService.register_user

  const EmailAlreadyRegistered: string := "Email already registered"
  const RegistrationFailedPrefix: string := "Failed to register user: "

  /** A successful registration: the response and the table after it. */
  datatype Registered = Registered(response: UserResponse, table: Table)

  /** The body of the `try` block: the duplicate check, hashing, the insert
      and the echo, each step raising what the code raises. */
  function TryRegister(db: Store, userData: UserCreate, lib: Lib): Result<Registered> {
    if RetrieveUserByEmail(db, userData.email).Some? then
      Err(HttpError(BadRequest, EmailAlreadyRegistered))
    else
      var userDict := UserFields(userData.firstName, userData.lastName, userData.email,
                                 lib.hash(userData.password), userData.designation);
      match Insert(db.users, userDict)
      case Ok(saved) => Ok(Registered(ToResponse(saved.user), saved.table))
      case Err(e) => Err(e)
  }

  /** What the `except Exception` clause raises for a caught `e`. */
  function RegistrationFailed(e: Error, lib: Lib): Error {
    HttpError(InternalServerError, RegistrationFailedPrefix + lib.text(e))
  }

  /** `register_user` as written: the handler catches every exception of the
      `try` block, the duplicate-email HTTPException included, and re-raises
      it as a 500. A failure never writes the table. */
  function Register(db: Store, userData: UserCreate, lib: Lib): Result<Registered> {
    match TryRegister(db, userData, lib)
    case Ok(reg) => Ok(reg)
    case Err(e) => Err(RegistrationFailed(e, lib))
  }

  /** `register_user` as its tests expect it: an HTTPException raised inside
      the `try` block passes through unchanged, and only other exceptions
      become a 500. */
  function RegisterIntended(db: Store, userData: UserCreate, lib: Lib): Result<Registered> {
    match TryRegister(db, userData, lib)
    case Ok(reg) => Ok(reg)
    case Err(e) => Err(if e.HttpError? then e else RegistrationFailed(e, lib))
  }

  /** `UserService.register_user`, step by step against the session. */
  method RegisterUser(db: Session, userData: UserCreate, lib: Lib) returns (r: Result<UserResponse>)
    requires db.Valid()
    modifies db
    ensures db.Valid()
    ensures match Register(old(db.store), userData, lib)
            case Ok(reg) => r == Ok(reg.response) && db.store == old(db.store).(users := reg.table)
            case Err(e) => r == Err(e) && db.store == old(db.store)
  {
    var raised: Error;
    // try:
    var existingUser := RetrieveUserByEmail(db.store, userData.email);
    if existingUser.Some? {
      raised := HttpError(BadRequest, EmailAlreadyRegistered);
    } else {
      var hashedPassword := lib.hash(userData.password);
      var userDict := UserFields(userData.firstName, userData.lastName, userData.email,
                                 hashedPassword, userData.designation);
      var saved := SaveUser(db, userDict);
      match saved {
        case Ok(user) =>
          r := Ok(ToResponse(user));
          return;
        case Err(e) =>
          raised := e;
      }
    }
    // except Exception as e:
    r := Err(RegistrationFailed(raised, lib));
  }

  // ---------------------------------------------------------------------
  // UserService.validate_user

  const InvalidCredentials: string := "Invalid email or password"

  /** `UserService.validate_user`: the same 401 for an unknown email and for
      a wrong password; on success a bearer token for the user's id and the
      user it belongs to. It reads the table and never writes it. */
  function ValidateUser(db: Store, userData: UserLogin, lib: Lib): (r: Result<TokenResponse>)
    ensures r.Err? ==> r.error == HttpError(Unauthorized, InvalidCredentials)
    ensures !EmailTaken(db.users.rows, userData.email) ==> r.Err?
    ensures r.Ok? ==> && r.value.tokenType == "bearer"
                      && r.value.accessToken == lib.createToken(DecimalString(r.value.user.id))
                      && exists u :: && u in db.users.rows && u.email == userData.email
                                     && lib.verify(userData.password, u.password)
                                     && r.value.user == ToResponse(u)
  {
    match RetrieveUserByEmail(db, userData.email)
    case None => Err(HttpError(Unauthorized, InvalidCredentials))
    case Some(user) =>
      if !lib.verify(userData.password, user.password) then
        Err(HttpError(Unauthorized, InvalidCredentials))
      else
        var accessToken := lib.createToken(DecimalString(user.id));
        Ok(TokenResponse(accessToken, "bearer", ToResponse(user)))
  }

  // ---------------------------------------------------------------------
  // Lemmas

  /** The request the tests send with designation "InvalidDesignation" is
      rejected with a 422. */
  lemma InvalidDesignationIsRejected(firstName: string, lastName: string, email: string, password: string, lib: Lib)
    ensures var r := MakeUserCreate(firstName, lastName, email, password, "InvalidDesignation", lib);
            r.Err? && StatusCode(r.error) == UnprocessableEntity
  {
  }

  /** `str(n)` reads back as `n`. */
  lemma {:induction false} DecimalRoundTrip(n: nat)
    ensures DecimalValue(DecimalString(n)) == n
    decreases n
  {
    var s := DecimalString(n);
    if n >= 10 {
      assert s[..|s| - 1] == DecimalString(n / 10);
      DecimalRoundTrip(n / 10);
    }
  }

  /** `str(n)` determines `n`: distinct user ids give distinct token subjects. */
  lemma DecimalStringInjective(a: nat, b: nat)
    requires DecimalString(a) == DecimalString(b)
    ensures a == b
  {
    DecimalRoundTrip(a);
    DecimalRoundTrip(b);
  }

  /** As written, registering a taken email surfaces as a 500 whose detail is
      the prefix followed by the text of the inner 400, and writes nothing. */
  lemma DuplicateEmailIsInternalError(db: Store, userData: UserCreate, lib: Lib)
    requires EmailTaken(db.users.rows, userData.email)
    ensures Register(db, userData, lib)
            == Err(HttpError(InternalServerError,
                             RegistrationFailedPrefix + lib.text(HttpError(BadRequest, EmailAlreadyRegistered))))
    ensures StatusCode(Register(db, userData, lib).error) != BadRequest
  {
  }

  /** Every failed registration is a 500 whose detail starts with
      "Failed to register user: ", and a failure returns no new table. */
  lemma RegistrationErrorsAreInternal(db: Store, userData: UserCreate, lib: Lib)
    requires Register(db, userData, lib).Err?
    ensures var e := Register(db, userData, lib).error;
            && StatusCode(e) == InternalServerError
            && e.detail[..|RegistrationFailedPrefix|] == RegistrationFailedPrefix
  {
  }

  /** A registration with a free email succeeds: exactly one row is added,
      holding the hash of the password and the other fields unchanged under
      a fresh id, and the response echoes that row without its password. */
  lemma RegisterStoresHashedCopy(db: Store, userData: UserCreate, lib: Lib)
    requires WellFormed(db.users)
    requires !EmailTaken(db.users.rows, userData.email)
    ensures Register(db, userData, lib).Ok?
    ensures var reg := Register(db, userData, lib).value;
            var row := User(db.users.nextId, userData.firstName, userData.lastName, userData.email,
                            lib.hash(userData.password), userData.designation);
            && reg.table == Table(db.users.rows + [row], db.users.nextId + 1)
            && !IdTaken(db.users.rows, row.id)
            && reg.response == UserResponse(row.id, userData.firstName, userData.lastName, userData.email, userData.designation)
            && WellFormed(reg.table)
  {
  }

  /** The corrected handler reports a taken email as the 400 the tests
      expect, still writing nothing. */
  lemma DuplicateEmailIsBadRequest(db: Store, userData: UserCreate, lib: Lib)
    requires EmailTaken(db.users.rows, userData.email)
    ensures RegisterIntended(db, userData, lib) == Err(HttpError(BadRequest, EmailAlreadyRegistered))
    ensures StatusCode(RegisterIntended(db, userData, lib).error) == BadRequest
  {
  }

  /** The correction changes nothing but the duplicate-email case. */
  lemma RegisterIntendedAgrees(db: Store, userData: UserCreate, lib: Lib)
    requires !EmailTaken(db.users.rows, userData.email)
    ensures RegisterIntended(db, userData, lib) == Register(db, userData, lib)
  {
  }

  /** Login against a well-formed table: for the row holding the email, the
      login succeeds exactly when the password verifies, and then returns a
      bearer token for its id and the row itself; an unknown email fails with
      the same error as a wrong password. */
  lemma LoginOutcome(db: Store, u: User, password: string, lib: Lib)
    requires WellFormed(db.users)
    requires u in db.users.rows
    ensures ValidateUser(db, UserLogin(u.email, password), lib)
            == if lib.verify(password, u.password)
               then Ok(TokenResponse(lib.createToken(DecimalString(u.id)), "bearer", ToResponse(u)))
               else Err(HttpError(Unauthorized, InvalidCredentials))
  {
  }

  /** Register, then log in with the same credentials: the login succeeds,
      returns a bearer token for the new id and echoes the registration's
      response; the table is the one registration left. */
  lemma {:induction false} RegisterThenLogin(db: Store, userData: UserCreate, lib: Lib)
    requires WellFormed(db.users)
    requires HashVerifies(lib)
    requires Register(db, userData, lib).Ok?
    ensures var reg := Register(db, userData, lib).value;
            ValidateUser(db.(users := reg.table), UserLogin(userData.email, userData.password), lib)
            == Ok(TokenResponse(lib.createToken(DecimalString(reg.response.id)), "bearer", reg.response))
  {
    var fields := UserFields(userData.firstName, userData.lastName, userData.email,
                             lib.hash(userData.password), userData.designation);
    assert !EmailTaken(db.users.rows, userData.email);
    SavedUserIsRetrievable(db, fields, userData.email);
    assert lib.verify(userData.password, lib.hash(userData.password));
  }
}
