/**
 * The signup endpoint (`POST /api/auth/signup`): an early-return validator
 * over the JSON body, then account creation and a best-effort profile row,
 * with the backend's answers as inputs. The result is the reply and the
 * list of backend calls made, in order.
 */
module SignupRoute {
  import opened Wrappers
  import opened Strings

  const MsgCredentialsRequired: string := "Email and password are required"
  const MsgNameTooShort: string := "Full name must be at least 2 characters"
  const MsgNoUser: string := "Failed to create user"
  const MsgInternal: string := "Internal server error"
  const MsgCreated: string := "User created successfully. Check your email to confirm your account."

  /** A value of the parsed JSON body: `Undefined` is a missing field, `Compound` any object or array (`JSON.parse` never yields `NaN`). */
  datatype Json = Undefined | Null | Bool(b: bool) | Number(x: real) | Str(s: string) | Compound

  /** JavaScript truthiness. */
  predicate Truthy(v: Json) {
    match v
    case Undefined => false
    case Null => false
    case Bool(b) => b
    case Number(x) => x != 0.0
    case Str(s) => s != ""
    case Compound => true
  }

  /** The destructured body; `Unreadable` is a body that does not parse, or parses to `null`. */
  datatype Body = Unreadable | Fields(email: Json, password: Json, fullName: Json)

  /** The evaluation of an expression that may throw. */
  datatype Eval<T> = Returns(value: T) | Throws

  /** `fullName && fullName.trim().length < 2`: is the name given and too short? `.trim` throws on a truthy non-string. */
  function NameTooShort(fullName: Json): (r: Eval<bool>)
    ensures r == Throws <==> Truthy(fullName) && !fullName.Str?
    ensures r == Returns(true) <==> fullName.Str? && fullName.s != "" && Utf16Length(Trim(fullName.s)) < 2
  {
    if !Truthy(fullName) then Returns(false)
    else if fullName.Str? then Returns(Utf16Length(Trim(fullName.s)) < 2)
    else Throws
  }

  /** `fullName?.trim() || null`: the name stored; `?.` passes `undefined`/`null`, and other non-strings throw. */
  function StoredName(fullName: Json): (r: Eval<Option<string>>)
    ensures fullName.Undefined? || fullName.Null? ==> r == Returns(None)
    ensures fullName.Str? ==> r.Returns? && (r.value.Some? <==> Trim(fullName.s) != "")
    ensures r.Returns? && r.value.Some? ==> fullName.Str? && r.value.value == Trim(fullName.s)
    ensures r == Throws <==> !(fullName.Undefined? || fullName.Null? || fullName.Str?)
  {
    match fullName
    case Undefined => Returns(None)
    case Null => Returns(None)
    case Str(s) => var t := Trim(s); Returns(if t != "" then Some(t) else None)
    case _ => Throws
  }

  /** The user the auth backend returns. */
  datatype User = User(id: string, email: string, emailConfirmedAt: Option<string>)

  /** What `auth.signUp` gave back. */
  datatype SignUpOutcome = SignUpError(message: string) | NoUser | SignedUp(user: User) | SignUpThrew

  /** What the profile insert gave back. */
  datatype InsertOutcome = Inserted | InsertError | InsertThrew

  /** The backend's answers: whether creating the two clients succeeded, then the two calls' outcomes. */
  datatype Backend = Backend(clientsCreated: bool, signUp: SignUpOutcome, insert: InsertOutcome)

  /** A call into the backend. */
  datatype Call =
    | CreateClients
    | AuthSignUp(email: Json, password: Json, fullName: Option<string>)
    | InsertProfile(id: string, userEmail: string, fullName: Option<string>)

  /** The JSON reply; a success is sent with the default status 200. */
  datatype Reply =
    | ErrorReply(status: nat, error: string)
    | SuccessReply(status: nat, message: string, user: User)

  datatype Outcome = Outcome(reply: Reply, calls: seq<Call>)

  const Internal: Reply := ErrorReply(500, MsgInternal)

  /** Both checks pass: email and password are truthy and a given name is a string whose trim has two or more code units. */
  predicate Valid(b: Body) {
    b.Fields? && Truthy(b.email) && Truthy(b.password) && NameTooShort(b.fullName) == Returns(false)
  }

  /** `POST` */
  function Post(body: Body, backend: Backend): (o: Outcome)
    // The two checks come first and each rejects before any backend call.
    ensures body.Unreadable? ==> o == Outcome(Internal, [])
    ensures body.Fields? && (!Truthy(body.email) || !Truthy(body.password)) ==>
      o == Outcome(ErrorReply(400, MsgCredentialsRequired), [])
    ensures body.Fields? && Truthy(body.email) && Truthy(body.password) && NameTooShort(body.fullName) == Returns(true) ==>
      o == Outcome(ErrorReply(400, MsgNameTooShort), [])
    ensures o.calls != [] <==> Valid(body)
    ensures o.calls != [] ==> o.calls[0] == CreateClients
    // The one normalised name goes both to the account metadata and to the profile row.
    ensures forall i, j :: 0 <= i < |o.calls| && 0 <= j < |o.calls| && o.calls[i].AuthSignUp? && o.calls[j].InsertProfile? ==>
      i < j && o.calls[i].fullName == o.calls[j].fullName
    ensures forall i :: 0 <= i < |o.calls| && o.calls[i].AuthSignUp? ==>
      StoredName(body.fullName) == Returns(o.calls[i].fullName) && o.calls[i].email == body.email && o.calls[i].password == body.password
    // Backend answers.
    ensures o.reply.SuccessReply? <==>
      Valid(body) && backend.clientsCreated && StoredName(body.fullName).Returns?
      && backend.signUp.SignedUp? && !backend.insert.InsertThrew?
    ensures o.reply.SuccessReply? ==> o.reply == SuccessReply(200, MsgCreated, backend.signUp.user)
    ensures Valid(body) && backend.clientsCreated && StoredName(body.fullName).Returns? ==>
      (backend.signUp.SignUpError? ==> o.reply == ErrorReply(400, backend.signUp.message))
      && (backend.signUp.NoUser? ==> o.reply == ErrorReply(500, MsgNoUser))
      && (backend.signUp.SignUpThrew? ==> o.reply == Internal)
    // Every other throw (`.trim` on a truthy non-string, creating the clients, the second `trim`, the insert) reaches the catch.
    ensures (body.Fields? && Truthy(body.email) && Truthy(body.password)
             && (NameTooShort(body.fullName) == Throws
                 || (Valid(body) && (!backend.clientsCreated || StoredName(body.fullName) == Throws
                                     || (backend.signUp.SignedUp? && backend.insert.InsertThrew?)))))
      ==> o.reply == Internal
    // Once the clients exist and the name is stored, the sign-up call is made with it, and the profile insert follows exactly when a user came back.
    ensures Valid(body) && backend.clientsCreated && StoredName(body.fullName).Returns? ==>
      |o.calls| >= 2 && o.calls[1] == AuthSignUp(body.email, body.password, StoredName(body.fullName).value)
      && (|o.calls| == 3 <==> backend.signUp.SignedUp?)
      && (backend.signUp.SignedUp? ==>
            o.calls[2] == InsertProfile(backend.signUp.user.id, backend.signUp.user.email, StoredName(body.fullName).value))
    ensures Valid(body) && (!backend.clientsCreated || StoredName(body.fullName) == Throws) ==> o.calls == [CreateClients]
    ensures |o.calls| <= 3
    ensures o.reply.ErrorReply? && o.reply.status == 500 ==> o.reply.error in {MsgInternal, MsgNoUser}
  {
    match body
    case Unreadable => Outcome(Internal, [])
    case Fields(email, password, fullName) =>
      if !Truthy(email) || !Truthy(password) then
        Outcome(ErrorReply(400, MsgCredentialsRequired), [])
      else
        match NameTooShort(fullName)
        case Throws => Outcome(Internal, [])
        case Returns(true) => Outcome(ErrorReply(400, MsgNameTooShort), [])
        case Returns(false) =>
          if !backend.clientsCreated then Outcome(Internal, [CreateClients])
          else
            match StoredName(fullName)
            case Throws => Outcome(Internal, [CreateClients])
            case Returns(name) =>
              var calls := [CreateClients, AuthSignUp(email, password, name)];
              match backend.signUp
              case SignUpThrew => Outcome(Internal, calls)
              case SignUpError(message) => Outcome(ErrorReply(400, message), calls)
              case NoUser => Outcome(ErrorReply(500, MsgNoUser), calls)
              case SignedUp(user) =>
                var calls := calls + [InsertProfile(user.id, user.email, name)];
                if backend.insert.InsertThrew? then Outcome(Internal, calls)
                else Outcome(SuccessReply(200, MsgCreated, user), calls)
  }

  /** A failed profile insert is swallowed: the reply is the one a successful insert gives. */
  lemma ProfileErrorIgnored(body: Body, clientsCreated: bool, signUp: SignUpOutcome)
    ensures Post(body, Backend(clientsCreated, signUp, InsertError)) == Post(body, Backend(clientsCreated, signUp, Inserted))
  {
  }

  /** An absent or empty name passes the check and is stored as `null`. */
  lemma MissingNameAccepted(v: Json)
    requires v in {Undefined, Null, Str("")}
    ensures NameTooShort(v) == Returns(false) && StoredName(v) == Returns(None)
  {
  }

  /** A name that is only whitespace is rejected, also when it is long. */
  lemma BlankNameRejected()
    ensures NameTooShort(Str("   ")) == Returns(true)
  {
    TrimAllSpace("   ");
  }

  /** A falsy non-string name (`false`, `0`) passes the check, but `fullName?.trim()` throws after the clients exist. */
  lemma FalsyNonStringName(email: Json, password: Json, backend: Backend)
    requires Truthy(email) && Truthy(password) && backend.clientsCreated
    ensures Post(Fields(email, password, Bool(false)), backend) == Outcome(Internal, [CreateClients])
    ensures Post(Fields(email, password, Number(0.0)), backend) == Outcome(Internal, [CreateClients])
  {
  }
}
