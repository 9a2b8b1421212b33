/** The auth router as it runs: a database session over the `users` table and a mail
    transport, changed in place by the five handlers. Each method is proved to do what the
    corresponding function of `Workflow` says. */
module Auth {
  import opened Wrappers
  import opened Models
  import opened Passwords
  import opened Tokens
  import opened Notifier
  import opened Workflow

  class Service {
    const cfg: Config
    var users: map<string, User>
    var nextId: nat
    var outbox: seq<Mail>

    /** The store as a value. */
    function Snapshot(): State
      reads this
    {
      State(users, nextId, outbox)
    }

    /** An empty table (the database assigns ids 1, 2, 3, …) and no mail sent yet. */
    constructor (cfg: Config)
      ensures this.cfg == cfg
      ensures Snapshot() == State(map[], 1, [])
      ensures Snapshot().Valid()
    {
      this.cfg := cfg;
      users := map[];
      nextId := 1;
      outbox := [];
    }

    method Register(email: string, password: string, salt: Salt, now: int, delivered: bool)
      returns (r: Result<Reply, AuthError>)
      requires Snapshot().Valid()
      modifies this
      ensures Snapshot().Valid()
      ensures Snapshot() == Workflow.Register(old(Snapshot()), cfg, email, password, salt, now, delivered).state
      ensures r == Workflow.Register(old(Snapshot()), cfg, email, password, salt, now, delivered).reply
      ensures r == Failure(EmailAlreadyRegistered) ==> Snapshot() == old(Snapshot())
    {
      RegisterStep(Snapshot(), cfg, email, password, salt, now, delivered);
      if email in users {
        return Failure(EmailAlreadyRegistered);
      }
      var hashedPw := HashPassword(cfg.hasher, password, salt);
      var verificationToken := VerificationToken(cfg, email, now);
      var newUser := NewUser(nextId, email, hashedPw, Some(verificationToken));
      // The row is committed here, before the mail is attempted.
      users := users[email := newUser];
      nextId := nextId + 1;
      if !delivered {
        return Failure(MailNotSent);
      }
      outbox := outbox + [VerificationMail(email, verificationToken)];
      r := Success(Message(RegisteredMessage));
    }

    /** Reads the table only: the method has no `modifies` clause. */
    method Login(email: string, password: string, now: int) returns (r: Result<Reply, AuthError>)
      ensures r == Workflow.Login(Snapshot(), cfg, email, password, now)
    {
      if email !in users || !VerifyPassword(cfg.hasher, password, users[email].hashedPassword) {
        return Failure(InvalidCredentials);
      }
      var dbUser := users[email];
      if !dbUser.isVerified {
        return Failure(EmailNotVerified);
      }
      var accessToken := SessionToken(cfg, dbUser.email, now);
      r := Success(Bearer(accessToken, "bearer"));
    }

    method ForgotPassword(email: string, now: int, delivered: bool) returns (r: Result<Reply, AuthError>)
      requires Snapshot().Valid()
      modifies this
      ensures Snapshot().Valid()
      ensures Snapshot() == Workflow.ForgotPassword(old(Snapshot()), cfg, email, now, delivered).state
      ensures r == Workflow.ForgotPassword(old(Snapshot()), cfg, email, now, delivered).reply
      ensures r == Failure(UserNotFound) ==> Snapshot() == old(Snapshot())
    {
      ForgotPasswordStep(Snapshot(), cfg, email, now, delivered);
      if email !in users {
        return Failure(UserNotFound);
      }
      var user := users[email];
      var token := ResetToken(cfg, user.email, now);
      // The new reset token is committed before the mail is attempted.
      user := user.(resetToken := Some(token));
      users := users[email := user];
      if !delivered {
        return Failure(MailNotSent);
      }
      outbox := outbox + [ResetMail(user.email, token)];
      r := Success(Message(ResetSentMessage));
    }

    method ResetPassword(token: string, newPassword: string, salt: Salt, now: int) returns (r: Result<Reply, AuthError>)
      requires Snapshot().Valid()
      modifies this
      ensures Snapshot().Valid()
      ensures Snapshot() == Workflow.ResetPassword(old(Snapshot()), cfg, token, newPassword, salt, now).state
      ensures r == Workflow.ResetPassword(old(Snapshot()), cfg, token, newPassword, salt, now).reply
      ensures r.Failure? ==> Snapshot() == old(Snapshot())
    {
      ResetPasswordStep(Snapshot(), cfg, token, newPassword, salt, now);
      var decoded := Decode(cfg.codec, token, now);
      if decoded.Failure? {
        return Failure(InvalidOrExpiredToken);
      }
      var email := decoded.value;
      if email.None? || email.value !in users || users[email.value].resetToken != Some(token) {
        return Failure(UserNotFoundOrInvalidToken);
      }
      var user := users[email.value];
      // Two field writes on the row, then one commit.
      user := user.(hashedPassword := HashPassword(cfg.hasher, newPassword, salt));
      user := user.(resetToken := None);
      users := users[email.value := user];
      r := Success(Message(PasswordResetMessage));
    }

    method VerifyEmail(token: string, now: int) returns (r: Result<Reply, AuthError>)
      requires Snapshot().Valid()
      modifies this
      ensures Snapshot().Valid()
      ensures Snapshot() == Workflow.VerifyEmail(old(Snapshot()), cfg, token, now).state
      ensures r == Workflow.VerifyEmail(old(Snapshot()), cfg, token, now).reply
      ensures r.Failure? ==> Snapshot() == old(Snapshot())
    {
      VerifyEmailStep(Snapshot(), cfg, token, now);
      var decoded := Decode(cfg.codec, token, now);
      if decoded.Failure? {
        return Failure(InvalidOrExpiredToken);
      }
      var email := decoded.value;
      if email.None? || email.value !in users || users[email.value].verificationToken != Some(token) {
        return Failure(UserNotFound);
      }
      var user := users[email.value];
      // Two field writes on the row, then one commit.
      user := user.(isVerified := true);
      user := user.(verificationToken := None);
      users := users[email.value := user];
      r := Success(Message(EmailVerifiedMessage));
    }
  }
}
