/** How a token's purpose is enforced, and the register / verify / login / reset story
    told end to end. */
module Scenarios {
  import opened Wrappers
  import opened Passwords
  import opened Tokens
  import opened Notifier
  import opened Workflow
  import opened Lifecycle

  // ---------------------------------------------------------------------------------
  // Purpose binding

  /** Reset-password looks at nothing but the `reset_token` column: two stores whose rows
      agree on it give the same answer to the same token, whatever their verification
      tokens, flags and hashes. */
  lemma ResetSeesOnlyResetColumn(s1: State, s2: State, cfg: Config, token: string, p: string, salt: Salt, now: int)
    requires s1.users.Keys == s2.users.Keys
    requires forall e | e in s1.users :: s1.users[e].resetToken == s2.users[e].resetToken
    ensures ResetPassword(s1, cfg, token, p, salt, now).reply == ResetPassword(s2, cfg, token, p, salt, now).reply
  {
  }

  /** Verify-email looks at nothing but the `verification_token` column. */
  lemma VerifySeesOnlyVerificationColumn(s1: State, s2: State, cfg: Config, token: string, now: int)
    requires s1.users.Keys == s2.users.Keys
    requires forall e | e in s1.users :: s1.users[e].verificationToken == s2.users[e].verificationToken
    ensures VerifyEmail(s1, cfg, token, now).reply == VerifyEmail(s2, cfg, token, now).reply
  {
  }

  /** The payload carries no purpose: a bearer token from login whose expiry falls on the
      same second as a reset token issued for the same account is the same string, and
      reset-password accepts it. */
  lemma {:induction false} SessionTokenResetsWhenExpiriesCoincide(s: State, cfg: Config, email: string, password: string,
                                                loginAt: int, forgotAt: int, p: string, salt: Salt, now: int)
    requires Sound(cfg.codec) && s.Valid()
    requires Login(s, cfg, email, password, loginAt).Success?
    requires loginAt + Lifetime(Some(cfg.accessTokenExpireMinutes * SecondsPerMinute))
          == forgotAt + Lifetime(Some(cfg.resetPasswordExpireMinutes * SecondsPerMinute))
    requires now <= loginAt + Lifetime(Some(cfg.accessTokenExpireMinutes * SecondsPerMinute))
    ensures var bearer := Login(s, cfg, email, password, loginAt).value.accessToken;
      ResetPassword(ForgotPassword(s, cfg, email, forgotAt, true).state, cfg, bearer, p, salt, now).reply.Success?
  {
    var bearer := SessionToken(cfg, email, loginAt);
    assert AccessClaims(SubjectClaims(email), Some(cfg.accessTokenExpireMinutes * SecondsPerMinute), loginAt)
        == AccessClaims(SubjectClaims(email), Some(cfg.resetPasswordExpireMinutes * SecondsPerMinute), forgotAt);
    assert bearer == ResetToken(cfg, email, forgotAt);
    DecodeIssuedToken(cfg.codec, SubjectClaims(email), Some(cfg.accessTokenExpireMinutes * SecondsPerMinute), loginAt, now);
  }

  // ---------------------------------------------------------------------------------
  // The account lifecycle

  /** Registering an email twice: the second attempt is refused with 400 and changes
      nothing. */
  lemma RegisterTwice(s: State, cfg: Config, email: string, p1: string, p2: string, salt1: Salt, salt2: Salt,
                      t1: int, t2: int, d1: bool, d2: bool)
    requires email !in s.users
    ensures var s1 := Register(s, cfg, email, p1, salt1, t1, d1).state;
      Register(s1, cfg, email, p2, salt2, t2, d2) == Outcome(s1, Failure(EmailAlreadyRegistered))
  {
  }

  /** Right after registering, the mailed link carries the stored verification token;
      logging in with the right password is refused with 403 and with a wrong one with
      401. */
  lemma {:induction false} FreshAccountIsUnverified(s: State, cfg: Config, email: string, password: string, wrong: string,
                                  salt: Salt, t0: int, t1: int)
    requires BcryptLaws(cfg.hasher) && wrong != password
    requires email !in s.users
    ensures var s1 := Register(s, cfg, email, password, salt, t0, true).state;
      && s1.outbox != []
      && Some(VerificationLinkToken(Last(s1.outbox)).value) == s1.users[email].verificationToken
      && Login(s1, cfg, email, password, t1) == Failure(EmailNotVerified)
      && Login(s1, cfg, email, wrong, t1) == Failure(InvalidCredentials)
  {
    var s1 := Register(s, cfg, email, password, salt, t0, true).state;
    assert Last(s1.outbox) == VerificationMail(email, VerificationToken(cfg, email, t0));
  }

  /** Following the mailed link within the hour verifies the account, after which the
      password logs in and yields a bearer token for the account's email. */
  lemma {:induction false} MailedLinkVerifies(s: State, cfg: Config, email: string, password: string,
                            salt: Salt, t0: int, t1: int, t2: int)
    requires Sound(cfg.codec) && BcryptLaws(cfg.hasher)
    requires email !in s.users
    requires t1 <= t0 + VerificationExpireMinutes * SecondsPerMinute
    ensures var s1 := Register(s, cfg, email, password, salt, t0, true).state;
      && s1.outbox != []
      && VerificationLinkToken(Last(s1.outbox)).Some?
      && var o2 := VerifyEmail(s1, cfg, VerificationLinkToken(Last(s1.outbox)).value, t1);
         && o2.reply == Success(Message(EmailVerifiedMessage))
         && o2.state.users[email].isVerified
         && Login(o2.state, cfg, email, password, t2) == Success(Bearer(SessionToken(cfg, email, t2), "bearer"))
  {
    var s1 := Register(s, cfg, email, password, salt, t0, true).state;
    var token := VerificationToken(cfg, email, t0);
    assert Last(s1.outbox) == VerificationMail(email, token);
    DecodeIssuedToken(cfg.codec, SubjectClaims(email), Some(VerificationExpireMinutes * SecondsPerMinute), t0, t1);
    assert Decode(cfg.codec, token, t1) == Success(Some(email));
  }

  /** A verified account whose password is `oldPassword` asks for a reset and follows the
      mailed link in time with `newPassword`: the reset succeeds, `oldPassword` is refused
      with 401 from then on and `newPassword` logs in. */
  lemma {:induction false} PasswordResetScenario(s: State, cfg: Config, email: string, oldPassword: string, newPassword: string,
                               salt: Salt, t3: int, t4: int, t5: int)
    requires Sound(cfg.codec) && BcryptLaws(cfg.hasher) && s.Valid()
    requires CredentialsMatch(s, cfg, email, oldPassword) && s.users[email].isVerified
    requires oldPassword != newPassword
    requires t4 <= t3 + Lifetime(Some(cfg.resetPasswordExpireMinutes * SecondsPerMinute))
    ensures var s3 := ForgotPassword(s, cfg, email, t3, true).state;
      && s3.outbox != []
      && ResetLinkToken(Last(s3.outbox)).Some?
      && var o4 := ResetPassword(s3, cfg, ResetLinkToken(Last(s3.outbox)).value, newPassword, salt, t4);
         && o4.reply == Success(Message(PasswordResetMessage))
         && Login(o4.state, cfg, email, oldPassword, t5) == Failure(InvalidCredentials)
         && Login(o4.state, cfg, email, newPassword, t5) == Success(Bearer(SessionToken(cfg, email, t5), "bearer"))
  {
    var s3 := ForgotPassword(s, cfg, email, t3, true).state;
    var token := ResetToken(cfg, email, t3);
    assert s.users[email].email == email;
    assert Last(s3.outbox) == ResetMail(email, token);
    DecodeIssuedToken(cfg.codec, SubjectClaims(email), Some(cfg.resetPasswordExpireMinutes * SecondsPerMinute), t3, t4);
    assert Decode(cfg.codec, token, t4) == Success(Some(email));
    var s4 := ResetPassword(s3, cfg, token, newPassword, salt, t4).state;
    assert s4.users[email].hashedPassword == HashPassword(cfg.hasher, newPassword, salt);
  }

  /** The whole story: register with `pw1`, verify through the mailed link, log in, ask
      for a reset, reset to `pw2` through the mailed link; then `pw1` is refused with 401
      and `pw2` logs in. */
  lemma {:induction false} AccountLifecycle(s: State, cfg: Config, email: string, pw1: string, pw2: string,
                          salt1: Salt, salt2: Salt, t0: int, t1: int, t2: int, t3: int, t4: int, t5: int)
    requires Sound(cfg.codec) && BcryptLaws(cfg.hasher) && s.Valid()
    requires email !in s.users && pw1 != pw2
    requires t1 <= t0 + VerificationExpireMinutes * SecondsPerMinute
    requires t4 <= t3 + Lifetime(Some(cfg.resetPasswordExpireMinutes * SecondsPerMinute))
    ensures
      var s1 := Register(s, cfg, email, pw1, salt1, t0, true).state;
      var s2 := VerifyEmail(s1, cfg, VerificationLinkToken(Last(s1.outbox)).value, t1).state;
      var s3 := ForgotPassword(s2, cfg, email, t3, true).state;
      var s4 := ResetPassword(s3, cfg, ResetLinkToken(Last(s3.outbox)).value, pw2, salt2, t4).state;
      && Login(s2, cfg, email, pw1, t2).Success?
      && Login(s4, cfg, email, pw1, t5) == Failure(InvalidCredentials)
      && Login(s4, cfg, email, pw2, t5).Success?
  {
    MailedLinkVerifies(s, cfg, email, pw1, salt1, t0, t1, t2);
    var s1 := Register(s, cfg, email, pw1, salt1, t0, true).state;
    RegisterStep(s, cfg, email, pw1, salt1, t0, true);
    var o2 := VerifyEmail(s1, cfg, VerificationLinkToken(Last(s1.outbox)).value, t1);
    VerifyEmailStep(s1, cfg, VerificationLinkToken(Last(s1.outbox)).value, t1);
    PasswordResetScenario(o2.state, cfg, email, pw1, pw2, salt2, t3, t4, t5);
  }
}
