/** The five request handlers of the auth router, as functions from the store's state before
    a request to its state after it and the reply. Each handler either fails with a fixed
    error and leaves the store as it was, or rewrites a named set of fields of one row. */
module Workflow {
  import opened Wrappers
  import opened Models
  import opened Passwords
  import opened Tokens
  import opened Notifier

  /** Process-wide configuration: the signing codec (secret key and algorithm), the
      password context, and the two configurable token lifetimes in minutes. */
  datatype Config = Config(
    codec: Codec,
    hasher: Hasher,
    accessTokenExpireMinutes: int,
    resetPasswordExpireMinutes: int
  )

  /** Lifetime of the token `register` mails out, in minutes. */
  const VerificationExpireMinutes := 60

  /** The `users` table, the next primary key the database will assign, and the mails the
      SMTP server has accepted so far, oldest first. */
  datatype State = State(users: map<string, User>, nextId: nat, outbox: seq<Mail>) {
    predicate Valid() {
      KeyedByEmail(users) && DistinctIds(users, nextId)
    }
  }

  /** The `HTTPException`s the handlers raise. `MailNotSent` is the unhandled SMTP error,
      which FastAPI answers with 500 after the row has been committed. */
  datatype AuthError =
    | EmailAlreadyRegistered
    | InvalidCredentials
    | EmailNotVerified
    | UserNotFound
    | UserNotFoundOrInvalidToken
    | InvalidOrExpiredToken
    | MailNotSent

  /** The `status_code` each error is raised with. */
  function StatusCode(e: AuthError): int {
    match e
    case EmailAlreadyRegistered => 400
    case InvalidCredentials => 401
    case EmailNotVerified => 403
    case UserNotFound => 404
    case UserNotFoundOrInvalidToken => 404
    case InvalidOrExpiredToken => 400
    case MailNotSent => 500
  }

  /** The `detail` each error is raised with; FastAPI's own body for the unhandled error. */
  function Detail(e: AuthError): string {
    match e
    case EmailAlreadyRegistered => "Email already registered"
    case InvalidCredentials => "Invalid credentials"
    case EmailNotVerified => "Email not verified"
    case UserNotFound => "User not found"
    case UserNotFoundOrInvalidToken => "User not found or invalid token"
    case InvalidOrExpiredToken => "Invalid or expired token"
    case MailNotSent => "Internal Server Error"
  }

  /** A successful response body: `{"msg": ...}`, or the login response. */
  datatype Reply = Message(msg: string) | Bearer(accessToken: string, tokenType: string)

  const RegisteredMessage := "Registered successfully. Check your email to verify account."
  const ResetSentMessage := "Reset token sent to email"
  const PasswordResetMessage := "Password reset successful"
  const EmailVerifiedMessage := "Email verified successfully"

  datatype Outcome = Outcome(state: State, reply: Result<Reply, AuthError>)

  /** `{"sub": email}`, the claims of every token the service issues. */
  function SubjectClaims(email: string): Payload {
    map["sub" := Text(email)]
  }

  function VerificationToken(cfg: Config, email: string, now: int): string {
    CreateAccessToken(cfg.codec, SubjectClaims(email), Some(VerificationExpireMinutes * SecondsPerMinute), now)
  }

  function SessionToken(cfg: Config, email: string, now: int): string {
    CreateAccessToken(cfg.codec, SubjectClaims(email), Some(cfg.accessTokenExpireMinutes * SecondsPerMinute), now)
  }

  function ResetToken(cfg: Config, email: string, now: int): string {
    CreateAccessToken(cfg.codec, SubjectClaims(email), Some(cfg.resetPasswordExpireMinutes * SecondsPerMinute), now)
  }

  /** Every row except the one under `email` is still there, unchanged. */
  predicate Untouched(before: map<string, User>, after: map<string, User>, email: string) {
    forall e | e in before && e != email :: e in after && after[e] == before[e]
  }

  /** The decoded subject names a row whose `reset_token` is `token`: the filter
      `email == sub, reset_token == token` finds a row. */
  predicate HoldsResetToken(s: State, sub: Option<string>, token: string) {
    sub.Some? && sub.value in s.users && s.users[sub.value].resetToken == Some(token)
  }

  /** The decoded subject names a row whose `verification_token` is `token`. */
  predicate HoldsVerificationToken(s: State, sub: Option<string>, token: string) {
    sub.Some? && sub.value in s.users && s.users[sub.value].verificationToken == Some(token)
  }

  /** `register`: refuses a stored email; otherwise inserts one unverified row holding a
      hash of the password and a fresh 60-minute verification token, commits it, and only
      then mails that same token. `delivered` says whether the SMTP server took the mail. */
  function Register(s: State, cfg: Config, email: string, password: string, salt: Salt, now: int, delivered: bool): (o: Outcome)
    ensures email in s.users <==> o.reply == Failure(EmailAlreadyRegistered)
    ensures email in s.users ==> o.state == s
    ensures email !in s.users ==>
      && o.state.users.Keys == s.users.Keys + {email}
      && Untouched(s.users, o.state.users, email)
      && o.state.users[email] == NewUser(s.nextId, email, HashPassword(cfg.hasher, password, salt), Some(VerificationToken(cfg, email, now)))
      && o.state.nextId == s.nextId + 1
      && o.state.outbox == s.outbox + (if delivered then [VerificationMail(email, VerificationToken(cfg, email, now))] else [])
      && o.reply == (if delivered then Success(Message(RegisteredMessage)) else Failure(MailNotSent))
    ensures o.reply.Failure? ==>
      if email in s.users then StatusCode(o.reply.error) == 400 && Detail(o.reply.error) == "Email already registered"
      else StatusCode(o.reply.error) == 500
  {
    if email in s.users then
      Outcome(s, Failure(EmailAlreadyRegistered))
    else
      var hashedPw := HashPassword(cfg.hasher, password, salt);
      var verificationToken := VerificationToken(cfg, email, now);
      var newUser := NewUser(s.nextId, email, hashedPw, Some(verificationToken));
      var committed := s.(users := s.users[email := newUser], nextId := s.nextId + 1);
      if delivered then
        Outcome(committed.(outbox := s.outbox + [VerificationMail(email, verificationToken)]), Success(Message(RegisteredMessage)))
      else
        Outcome(committed, Failure(MailNotSent))
  }

  /** A row exists for `email` and its hash accepts `password`. */
  predicate CredentialsMatch(s: State, cfg: Config, email: string, password: string) {
    email in s.users && VerifyPassword(cfg.hasher, password, s.users[email].hashedPassword)
  }

  /** `login`: an unknown email and a wrong password give the same 401, checked before the
      403 for an unverified account; success is a bearer session token for the row's email.
      Login returns no new state: it cannot change the store. */
  function Login(s: State, cfg: Config, email: string, password: string, now: int): (r: Result<Reply, AuthError>)
    ensures r == Failure(InvalidCredentials) <==> !CredentialsMatch(s, cfg, email, password)
    ensures r == Failure(EmailNotVerified) <==> CredentialsMatch(s, cfg, email, password) && !s.users[email].isVerified
    ensures r.Success? <==> CredentialsMatch(s, cfg, email, password) && s.users[email].isVerified
    ensures r.Success? ==> r.value == Bearer(SessionToken(cfg, s.users[email].email, now), "bearer")
    ensures r.Failure? ==>
      if !CredentialsMatch(s, cfg, email, password) then StatusCode(r.error) == 401 && Detail(r.error) == "Invalid credentials"
      else StatusCode(r.error) == 403 && Detail(r.error) == "Email not verified"
  {
    if email !in s.users || !VerifyPassword(cfg.hasher, password, s.users[email].hashedPassword) then
      Failure(InvalidCredentials)
    else if !s.users[email].isVerified then
      Failure(EmailNotVerified)
    else
      var dbUser := s.users[email];
      Success(Bearer(SessionToken(cfg, dbUser.email, now), "bearer"))
  }

  /** `forgot_password`: 404 for an unknown email; otherwise overwrites that row's
      `reset_token` alone, commits, and then mails the same token. */
  function ForgotPassword(s: State, cfg: Config, email: string, now: int, delivered: bool): (o: Outcome)
    ensures email !in s.users <==> o.reply == Failure(UserNotFound)
    ensures email !in s.users ==> o.state == s
    ensures email in s.users ==>
      var u := s.users[email];
      && o.state.users == s.users[email := u.(resetToken := Some(ResetToken(cfg, u.email, now)))]
      && o.state.nextId == s.nextId
      && o.state.outbox == s.outbox + (if delivered then [ResetMail(u.email, ResetToken(cfg, u.email, now))] else [])
      && o.reply == (if delivered then Success(Message(ResetSentMessage)) else Failure(MailNotSent))
    ensures o.reply.Failure? ==>
      if email !in s.users then StatusCode(o.reply.error) == 404 && Detail(o.reply.error) == "User not found"
      else StatusCode(o.reply.error) == 500
  {
    if email !in s.users then
      Outcome(s, Failure(UserNotFound))
    else
      var user := s.users[email];
      var token := ResetToken(cfg, user.email, now);
      var committed := s.(users := s.users[email := user.(resetToken := Some(token))]);
      if delivered then
        Outcome(committed.(outbox := s.outbox + [ResetMail(user.email, token)]), Success(Message(ResetSentMessage)))
      else
        Outcome(committed, Failure(MailNotSent))
  }

  /** `reset_password`: 400 if the token does not decode or has expired, 404 if no row
      under its subject holds it as `reset_token`; otherwise replaces that row's hash and
      clears its `reset_token`, nothing else. */
  function ResetPassword(s: State, cfg: Config, token: string, newPassword: string, salt: Salt, now: int): (o: Outcome)
    ensures o.reply == Failure(InvalidOrExpiredToken) <==> Decode(cfg.codec, token, now).Failure?
    ensures o.reply == Failure(UserNotFoundOrInvalidToken) <==>
      Decode(cfg.codec, token, now).Success? && !HoldsResetToken(s, Decode(cfg.codec, token, now).value, token)
    ensures o.reply.Success? <==>
      Decode(cfg.codec, token, now).Success? && HoldsResetToken(s, Decode(cfg.codec, token, now).value, token)
    ensures o.reply.Failure? ==> o.state == s
    ensures o.reply.Success? ==>
      var e := Decode(cfg.codec, token, now).value.value;
      && o.state == s.(users := s.users[e := s.users[e].(hashedPassword := HashPassword(cfg.hasher, newPassword, salt), resetToken := None)])
      && o.reply == Success(Message(PasswordResetMessage))
    ensures o.reply.Failure? ==>
      if Decode(cfg.codec, token, now).Failure? then StatusCode(o.reply.error) == 400 && Detail(o.reply.error) == "Invalid or expired token"
      else StatusCode(o.reply.error) == 404 && Detail(o.reply.error) == "User not found or invalid token"
  {
    match Decode(cfg.codec, token, now)
    case Failure(_) => Outcome(s, Failure(InvalidOrExpiredToken))
    case Success(email) =>
      if !HoldsResetToken(s, email, token) then
        Outcome(s, Failure(UserNotFoundOrInvalidToken))
      else
        var user := s.users[email.value];
        var updated := user.(hashedPassword := HashPassword(cfg.hasher, newPassword, salt), resetToken := None);
        Outcome(s.(users := s.users[email.value := updated]), Success(Message(PasswordResetMessage)))
  }

  /** `verify_email`: 400 if the token does not decode or has expired, 404 if no row under
      its subject holds it as `verification_token`; otherwise marks that row verified and
      clears its `verification_token`, nothing else. */
  function VerifyEmail(s: State, cfg: Config, token: string, now: int): (o: Outcome)
    ensures o.reply == Failure(InvalidOrExpiredToken) <==> Decode(cfg.codec, token, now).Failure?
    ensures o.reply == Failure(UserNotFound) <==>
      Decode(cfg.codec, token, now).Success? && !HoldsVerificationToken(s, Decode(cfg.codec, token, now).value, token)
    ensures o.reply.Success? <==>
      Decode(cfg.codec, token, now).Success? && HoldsVerificationToken(s, Decode(cfg.codec, token, now).value, token)
    ensures o.reply.Failure? ==> o.state == s
    ensures o.reply.Success? ==>
      var e := Decode(cfg.codec, token, now).value.value;
      && o.state == s.(users := s.users[e := s.users[e].(isVerified := true, verificationToken := None)])
      && o.reply == Success(Message(EmailVerifiedMessage))
    ensures o.reply.Failure? ==>
      if Decode(cfg.codec, token, now).Failure? then StatusCode(o.reply.error) == 400 && Detail(o.reply.error) == "Invalid or expired token"
      else StatusCode(o.reply.error) == 404 && Detail(o.reply.error) == "User not found"
  {
    match Decode(cfg.codec, token, now)
    case Failure(_) => Outcome(s, Failure(InvalidOrExpiredToken))
    case Success(email) =>
      if !HoldsVerificationToken(s, email, token) then
        Outcome(s, Failure(UserNotFound))
      else
        var user := s.users[email.value];
        var updated := user.(isVerified := true, verificationToken := None);
        Outcome(s.(users := s.users[email.value := updated]), Success(Message(EmailVerifiedMessage)))
  }

  /** A request to one of the five endpoints, with the clock reading, the salt and the
      mail-delivery result it meets. */
  datatype Request =
    | RegisterRequest(email: string, password: string, salt: Salt, now: int, delivered: bool)
    | LoginRequest(email: string, password: string, now: int)
    | ForgotPasswordRequest(email: string, now: int, delivered: bool)
    | ResetPasswordRequest(token: string, newPassword: string, salt: Salt, now: int)
    | VerifyEmailRequest(token: string, now: int)

  /** The email of the one row a request may touch: the one it names, or the subject its
      token decodes to. */
  function Target(cfg: Config, req: Request): string {
    match req
    case RegisterRequest(email, _, _, _, _) => email
    case LoginRequest(email, _, _) => email
    case ForgotPasswordRequest(email, _, _) => email
    case ResetPasswordRequest(token, _, _, now) =>
      (match Decode(cfg.codec, token, now) case Success(Some(e)) => e case _ => "")
    case VerifyEmailRequest(token, now) =>
      (match Decode(cfg.codec, token, now) case Success(Some(e)) => e case _ => "")
  }

  function Handle(s: State, cfg: Config, req: Request): Outcome {
    match req
    case RegisterRequest(email, password, salt, now, delivered) => Register(s, cfg, email, password, salt, now, delivered)
    case LoginRequest(email, password, now) => Outcome(s, Login(s, cfg, email, password, now))
    case ForgotPasswordRequest(email, now, delivered) => ForgotPassword(s, cfg, email, now, delivered)
    case ResetPasswordRequest(token, newPassword, salt, now) => ResetPassword(s, cfg, token, newPassword, salt, now)
    case VerifyEmailRequest(token, now) => VerifyEmail(s, cfg, token, now)
  }

  /** A row keeps its id and email, and a verified account stays verified. */
  predicate Persists(u: User, u': User) {
    u'.id == u.id && u'.email == u.email && (u.isVerified ==> u'.isVerified)
  }

  /** How the store may move: no row disappears or loses its identity or verification,
      ids are never reused, and sent mail stays sent. */
  predicate Evolves(s: State, s': State) {
    && s.users.Keys <= s'.users.Keys
    && (forall e | e in s.users :: Persists(s.users[e], s'.users[e]))
    && s.nextId <= s'.nextId
    && s.outbox <= s'.outbox
  }

  /** What every handler guarantees about one step from `s` to `o`, for the row under
      `target`: the store only evolves, the table stays consistent, no other row is
      touched, and an error other than a failed mail changes nothing. */
  predicate StepOk(s: State, o: Outcome, target: string) {
    && Evolves(s, o.state)
    && (s.Valid() ==> o.state.Valid())
    && Untouched(s.users, o.state.users, target)
    && o.state.users.Keys <= s.users.Keys + {target}
    && (o.reply.Failure? && o.reply.error != MailNotSent ==> o.state == s)
  }

  lemma RegisterStep(s: State, cfg: Config, email: string, password: string, salt: Salt, now: int, delivered: bool)
    ensures StepOk(s, Register(s, cfg, email, password, salt, now, delivered), email)
  {
    var o := Register(s, cfg, email, password, salt, now, delivered);
    if email !in s.users && s.Valid() {
      assert o.state.users[email].id == s.nextId;
      assert KeyedByEmail(o.state.users);
    }
  }

  lemma ForgotPasswordStep(s: State, cfg: Config, email: string, now: int, delivered: bool)
    ensures StepOk(s, ForgotPassword(s, cfg, email, now, delivered), email)
  {
  }

  lemma ResetPasswordStep(s: State, cfg: Config, token: string, newPassword: string, salt: Salt, now: int)
    ensures StepOk(s, ResetPassword(s, cfg, token, newPassword, salt, now),
                   Target(cfg, ResetPasswordRequest(token, newPassword, salt, now)))
  {
  }

  lemma VerifyEmailStep(s: State, cfg: Config, token: string, now: int)
    ensures StepOk(s, VerifyEmail(s, cfg, token, now), Target(cfg, VerifyEmailRequest(token, now)))
  {
  }

  /** One request at a time: it touches at most the row of its target, keeps the table's
      keys and ids consistent, never un-verifies an account, and an error other than a
      failed mail leaves the store exactly as it was. Login leaves it as it was always. */
  lemma HandleStep(s: State, cfg: Config, req: Request)
    ensures StepOk(s, Handle(s, cfg, req), Target(cfg, req))
    ensures req.LoginRequest? ==> Handle(s, cfg, req).state == s
  {
    match req
    case RegisterRequest(email, password, salt, now, delivered) =>
      RegisterStep(s, cfg, email, password, salt, now, delivered);
    case LoginRequest(_, _, _) =>
    case ForgotPasswordRequest(email, now, delivered) =>
      ForgotPasswordStep(s, cfg, email, now, delivered);
    case ResetPasswordRequest(token, newPassword, salt, now) =>
      ResetPasswordStep(s, cfg, token, newPassword, salt, now);
    case VerifyEmailRequest(token, now) =>
      VerifyEmailStep(s, cfg, token, now);
  }
}
