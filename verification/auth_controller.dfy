/**
 * The authentication handlers: `signup`, `login`, `logout`,
 * `updateProfile` and `checkAuth`. Each runs a guard chain with early
 * returns (modelled by pure decision functions) and then performs its
 * effects on the response and on the user collection (modelled by methods
 * on those objects). Password hashing and comparison and token signing are
 * parameters: the model never looks inside them.
 */
module AuthController {
  import opened Wrappers
  import opened JsValues
  import opened Users
  import opened Http
  import opened MediaHost

  const FillAllFields := "Please fill in all fields"
  const ShortPassword := "Password must be at least 6 characters long"
  const EmailTaken := "Email already exists"
  const InvalidCredentials := "Invalid credentials"
  const LoggedOut := "User logged out successfully"
  const NoPicture := "Please provide a profile picture"
  const NoSecret := "JWT_SECRET environment variable is not defined"

  const MinPasswordLength := 6
  /** Seven days, in milliseconds. */
  const TokenMaxAge := 7 * 24 * 60 * 60 * 1000

  /** Where a guard chain stops: a refusal answered with status 400, an
      error thrown by a query, or every check passed. */
  datatype Verdict<T> = Refuse(message: string) | Fault(thrown: Thrown) | Pass(value: T)

  /** The body of a signup request; a missing field is `None`. */
  datatype SignupForm = SignupForm(fullName: Option<string>, email: Option<string>, password: Option<string>)

  /** The fields of a signup request that passed every check. */
  datatype Fields = Fields(fullName: string, email: string, password: string)

  /** The checks of `signup` that look at the request alone: all three
      fields filled in, then the password at least six UTF-16 code units
      long. */
  function FormProblem(form: SignupForm): (p: Option<string>)
    ensures p.None? <==>
      Present(form.fullName) && Present(form.email) && Present(form.password) &&
      Utf16Length(form.password.value) >= MinPasswordLength
    ensures p == Some(FillAllFields) <==> !(Present(form.fullName) && Present(form.email) && Present(form.password))
    ensures p.Some? ==> p.value == FillAllFields || p.value == ShortPassword
  {
    if !Present(form.fullName) || !Present(form.email) || !Present(form.password) then Some(FillAllFields)
    else if Utf16Length(form.password.value) < MinPasswordLength then Some(ShortPassword)
    else None
  }

  /** The whole guard chain of `signup`, in source order: the request
      checks, then the lookup of the email in the collection. */
  function SignupCheck(form: SignupForm, docs: seq<UserDoc>, outage: Option<Thrown>): (v: Verdict<Fields>)
    // the first failing request check decides, whatever the collection holds
    ensures FormProblem(form).Some? ==> v == Refuse(FormProblem(form).value)
    ensures FormProblem(form).None? && outage.Some? ==> v == Fault(outage.value)
    // a query error is the only way to a fault
    ensures v.Fault? <==> FormProblem(form).None? && outage.Some?
    ensures FormProblem(form).None? && outage.None? && (exists d :: d in docs && d.email == form.email.value) ==>
      v == Refuse(EmailTaken)
    ensures v.Pass? <==> FormProblem(form).None? && outage.None? && forall d :: d in docs ==> d.email != form.email.value
    ensures v.Pass? ==> v.value == Fields(form.fullName.value, form.email.value, form.password.value)
    ensures v.Refuse? && FormProblem(form).None? ==> v.message == EmailTaken && exists d :: d in docs && d.email == form.email.value
  {
    match FormProblem(form)
    case Some(problem) => Refuse(problem)
    case None =>
      match Lookup(docs, outage, ByEmail(form.email.value))
      case Err(t) => Fault(t)
      case Ok(Some(_)) => Refuse(EmailTaken)
      case Ok(None) => Pass(Fields(form.fullName.value, form.email.value, form.password.value))
  }

  /** For a password of Basic Multilingual Plane characters, the length
      check refuses exactly the passwords of fewer than six characters:
      six characters pass. */
  lemma ShortPasswordBoundary(form: SignupForm)
    requires Present(form.fullName) && Present(form.email) && Present(form.password)
    requires forall i :: 0 <= i < |form.password.value| ==> form.password.value[i] as int <= 0xFFFF
    ensures FormProblem(form) == Some(ShortPassword) <==> |form.password.value| < MinPasswordLength
  {
    Utf16LengthOfBmp(form.password.value);
  }

  /** The document a successful signup stores. */
  function NewUser(f: Fields, id: string, hashed: string, defaultPic: Option<string>): UserDoc
  {
    UserDoc(id, f.fullName, f.email, hashed, defaultPic)
  }

  /** A signup that passes its checks keeps ids and emails unique, provided
      the freshly generated id is not in use. */
  lemma SignupKeepsUnique(form: SignupForm, docs: seq<UserDoc>, id: string, hashed: string, defaultPic: Option<string>)
    requires Unique(docs)
    requires SignupCheck(form, docs, None).Pass?
    requires forall d :: d in docs ==> d.id != id
    ensures Unique(docs + [NewUser(SignupCheck(form, docs, None).value, id, hashed, defaultPic)])
  {
  }

  /** When the email lookup of `signup` throws something other than an
      `Error`, the reply carries the fixed message, whatever was thrown. */
  lemma SignupHidesNonError(form: SignupForm, docs: seq<UserDoc>, v1: JsValue, v2: JsValue)
    ensures SignupCheck(form, docs, Some(NonError(v1))).Fault? == SignupCheck(form, docs, Some(NonError(v2))).Fault?
    ensures SignupCheck(form, docs, Some(NonError(v1))).Fault? ==>
      ErrorMessage(SignupCheck(form, docs, Some(NonError(v1))).thrown) == InternalErrorText &&
      ErrorMessage(SignupCheck(form, docs, Some(NonError(v2))).thrown) == InternalErrorText
  {
  }

  /** The body of a login request. */
  datatype Credentials = Credentials(email: string, password: string)

  /** The guard chain of `login`: the user with that email, then the
      password check; `compare(plain, hash)` stands for `bcrypt.compare`. */
  function LoginCheck(c: Credentials, docs: seq<UserDoc>, outage: Option<Thrown>, compare: (string, string) -> bool): (v: Verdict<UserDoc>)
    ensures v.Fault? <==> outage.Some?
    ensures v.Fault? ==> v.thrown == outage.value
    // an unknown email and a wrong password get the same refusal
    ensures v.Refuse? ==> v == Refuse(InvalidCredentials)
    ensures outage.None? && (forall d :: d in docs ==> d.email != c.email) ==> v.Refuse?
    ensures v.Pass? ==> v.value in docs && v.value.email == c.email && compare(c.password, v.value.password)
  {
    match Lookup(docs, outage, ByEmail(c.email))
    case Err(t) => Fault(t)
    case Ok(None) => Refuse(InvalidCredentials)
    case Ok(Some(user)) =>
      if compare(c.password, user.password) then Pass(user) else Refuse(InvalidCredentials)
  }

  /** When the lookup of `login` throws something other than an `Error`,
      the reply carries the fixed message, whatever was thrown. */
  lemma LoginHidesNonError(c: Credentials, docs: seq<UserDoc>, compare: (string, string) -> bool, v: JsValue)
    ensures LoginCheck(c, docs, Some(NonError(v)), compare).Fault?
    ensures ErrorMessage(LoginCheck(c, docs, Some(NonError(v)), compare).thrown) == InternalErrorText
  {
  }

  /** In a collection with unique emails, login admits exactly the user
      with that email whose stored hash matches the password. */
  lemma LoginAdmitsOwner(c: Credentials, docs: seq<UserDoc>, compare: (string, string) -> bool, u: UserDoc)
    requires Unique(docs)
    requires u in docs && u.email == c.email
    ensures LoginCheck(c, docs, None, compare) == (if compare(c.password, u.password) then Pass(u) else Refuse(InvalidCredentials))
  {
  }

  /** `generateToken(userId, res)`: signs a token for the user with the
      configured secret and sets it as the `jwt` cookie; throws when no
      secret is configured. `sign(userId, secret)` stands for `jwt.sign`. */
  method GenerateToken(userId: string, res: Response, secret: Option<string>, sign: (string, string) -> string)
    returns (r: Result<string, Thrown>)
    modifies res`cookies
    ensures !Present(secret) ==> r == Err(ErrorObject(NoSecret)) && res.cookies == old(res.cookies)
    ensures Present(secret) ==>
      r == Ok(sign(userId, secret.value)) &&
      res.cookies == old(res.cookies)[TokenCookie := Cookie(sign(userId, secret.value), TokenMaxAge)]
  {
    if !Present(secret) {
      return Err(ErrorObject(NoSecret));
    }
    var token := sign(userId, secret.value);
    res.SetCookie(TokenCookie, Cookie(token, TokenMaxAge));
    r := Ok(token);
  }

  /** `signup`. `salt` is what `bcrypt.genSalt(10)` produced, `hash` stands
      for `bcrypt.hash`, `newId` is the id the new document is created
      with and `defaultPic` the picture the schema gives it. */
  method Signup(form: SignupForm, db: UserCollection, res: Response,
                salt: string, hash: (string, string) -> string, newId: string, defaultPic: Option<string>,
                secret: Option<string>, sign: (string, string) -> string)
    modifies db`docs, db`log, res
    // the request checks run before any query
    ensures FormProblem(form).Some? ==> db.log == old(db.log)
    ensures SignupCheck(form, old(db.docs), db.outage).Refuse? ==>
      res.statusCode == BadRequest && res.body == Some(Note(SignupCheck(form, old(db.docs), db.outage).message)) &&
      res.cookies == old(res.cookies) && db.docs == old(db.docs)
    ensures SignupCheck(form, old(db.docs), db.outage).Fault? ==>
      res.statusCode == InternalServerError && res.body == Some(Note(ErrorMessage(SignupCheck(form, old(db.docs), db.outage).thrown))) &&
      res.cookies == old(res.cookies) && db.docs == old(db.docs)
    ensures SignupCheck(form, old(db.docs), db.outage).Pass? && !Present(secret) ==>
      res.statusCode == InternalServerError && res.body == Some(Note(NoSecret)) &&
      res.cookies == old(res.cookies) && db.docs == old(db.docs)
    // the stored document holds the hash, and the reply leaves the password out
    ensures SignupCheck(form, old(db.docs), db.outage).Pass? && Present(secret) ==>
      var f := SignupCheck(form, old(db.docs), db.outage).value;
      var user := NewUser(f, newId, hash(f.password, salt), defaultPic);
      db.docs == old(db.docs) + [user] &&
      res.statusCode == Created && res.body == Some(Account(WithoutPassword(user))) &&
      res.cookies == old(res.cookies)[TokenCookie := Cookie(sign(newId, secret.value), TokenMaxAge)]
  {
    var problem := FormProblem(form);
    if problem.Some? {
      res.Send(BadRequest, Note(problem.value));
      return;
    }
    var existing := db.FindOne(ByEmail(form.email.value));
    if existing.Err? {
      res.Send(InternalServerError, Note(ErrorMessage(existing.error)));
      return;
    }
    if existing.value.Some? {
      res.Send(BadRequest, Note(EmailTaken));
      return;
    }
    var f := Fields(form.fullName.value, form.email.value, form.password.value);
    var user := NewUser(f, newId, hash(f.password, salt), defaultPic);
    var token := GenerateToken(newId, res, secret, sign);
    if token.Err? {
      res.Send(InternalServerError, Note(ErrorMessage(token.error)));
      return;
    }
    var failure := db.Save(user);
    if failure.Some? {
      res.Send(InternalServerError, Note(ErrorMessage(failure.value)));
      return;
    }
    res.Send(Created, Account(WithoutPassword(user)));
  }

  /** `login`; `compare` stands for `bcrypt.compare`. */
  method Login(c: Credentials, db: UserCollection, res: Response, compare: (string, string) -> bool,
               secret: Option<string>, sign: (string, string) -> string)
    modifies db`log, res
    ensures db.docs == old(db.docs)
    ensures LoginCheck(c, db.docs, db.outage, compare).Refuse? ==>
      res.statusCode == BadRequest && res.body == Some(Note(InvalidCredentials)) && res.cookies == old(res.cookies)
    ensures LoginCheck(c, db.docs, db.outage, compare).Fault? ==>
      res.statusCode == InternalServerError && res.body == Some(Note(ErrorMessage(db.outage.value))) &&
      res.cookies == old(res.cookies)
    ensures LoginCheck(c, db.docs, db.outage, compare).Pass? && !Present(secret) ==>
      res.statusCode == InternalServerError && res.body == Some(Note(NoSecret)) && res.cookies == old(res.cookies)
    // a token is issued for the user's id and the reply leaves the password out
    ensures LoginCheck(c, db.docs, db.outage, compare).Pass? && Present(secret) ==>
      var user := LoginCheck(c, db.docs, db.outage, compare).value;
      res.statusCode == Success && res.body == Some(Account(WithoutPassword(user))) &&
      res.cookies == old(res.cookies)[TokenCookie := Cookie(sign(user.id, secret.value), TokenMaxAge)]
  {
    var found := db.FindOne(ByEmail(c.email));
    if found.Err? {
      res.Send(InternalServerError, Note(ErrorMessage(found.error)));
      return;
    }
    if found.value.None? {
      res.Send(BadRequest, Note(InvalidCredentials));
      return;
    }
    var user := found.value.value;
    if !compare(c.password, user.password) {
      res.Send(BadRequest, Note(InvalidCredentials));
      return;
    }
    var token := GenerateToken(user.id, res, secret, sign);
    if token.Err? {
      res.Send(InternalServerError, Note(ErrorMessage(token.error)));
      return;
    }
    res.Send(Success, Account(WithoutPassword(user)));
  }

  /** `logout`: clears the `jwt` cookie, whatever the request. */
  method Logout(res: Response)
    modifies res
    ensures res.cookies == old(res.cookies)[TokenCookie := Cookie("", 0)]
    ensures res.statusCode == Success && res.body == Some(Note(LoggedOut))
  {
    res.SetCookie(TokenCookie, Cookie("", 0));
    res.Send(Success, Note(LoggedOut));
  }

  /** The id `req.user?._id` gives; `undefined` when no user is attached. */
  function UserId(user: Option<PublicUser>): Option<string>
  {
    if user.Some? then Some(user.value.id) else None
  }

  /** `updateProfile`: uploads the picture and stores its address on the
      requesting user's document. */
  method UpdateProfile(profilePic: Option<string>, user: Option<PublicUser>, db: UserCollection, host: ImageHost, res: Response)
    modifies db`docs, db`log, host`uploads, res
    ensures res.cookies == old(res.cookies)
    // an empty picture is refused before any upload or query
    ensures !Present(profilePic) ==>
      res.statusCode == BadRequest && res.body == Some(Note(NoPicture)) &&
      host.uploads == old(host.uploads) && db.docs == old(db.docs) && db.log == old(db.log)
    ensures Present(profilePic) && host.failure.Some? ==>
      res.statusCode == InternalServerError && res.body == Some(Note(ErrorMessage(host.failure.value))) &&
      host.uploads == old(host.uploads) && db.docs == old(db.docs) && db.log == old(db.log)
    ensures Present(profilePic) && host.failure.None? ==>
      host.uploads == old(host.uploads) + [profilePic.value]
    ensures Present(profilePic) && host.failure.None? && db.outage.Some? ==>
      res.statusCode == InternalServerError && res.body == Some(Note(ErrorMessage(db.outage.value))) &&
      db.docs == old(db.docs)
    ensures Present(profilePic) && host.failure.None? && db.outage.None? ==>
      var url := host.secureUrl(profilePic.value);
      db.docs == SetPicture(old(db.docs), UserId(user), url) &&
      res.statusCode == Success && res.body == Some(Document(UpdatedDoc(old(db.docs), UserId(user), url)))
  {
    if !Present(profilePic) {
      res.Send(BadRequest, Note(NoPicture));
      return;
    }
    var uploaded := host.Upload(profilePic.value);
    if uploaded.Err? {
      res.Send(InternalServerError, Note(ErrorMessage(uploaded.error)));
      return;
    }
    var updated := db.FindByIdAndUpdate(UserId(user), uploaded.value);
    if updated.Err? {
      res.Send(InternalServerError, Note(ErrorMessage(updated.error)));
      return;
    }
    res.Send(Success, Document(updated.value));
  }

  /** `checkAuth`: answers with the user the middleware attached. */
  method CheckAuth(user: Option<PublicUser>, res: Response)
    modifies res
    ensures res.statusCode == Success && res.body == Some(CurrentUser(user)) && res.cookies == old(res.cookies)
  {
    res.Send(Success, CurrentUser(user));
  }
}
