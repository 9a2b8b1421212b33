/** Properties of the account lifecycle across several requests: what any sequence of
    handler calls preserves, where the tokens in the two token columns come from, why a
    consumed token stays consumed, and the register-verify-login-reset scenario. */
module Lifecycle {
  import opened Wrappers
  import opened Passwords
  import opened Tokens
  import opened Notifier
  import opened Workflow

  /** The store after serving `reqs` one after the other. */
  function Run(s: State, cfg: Config, reqs: seq<Request>): State
    decreases |reqs|
  {
    if reqs == [] then s else Run(Handle(s, cfg, reqs[0]).state, cfg, reqs[1..])
  }

  function Last(outbox: seq<Mail>): Mail
    requires outbox != []
  {
    outbox[|outbox| - 1]
  }

  // ---------------------------------------------------------------------------------
  // Invariants of every run

  /** Over any sequence of requests the table keeps one row per email with distinct ids,
      no row is deleted or changes its id or email, no account is un-verified, and the
      mail already sent stays sent. */
  lemma {:induction false} RunEvolves(s: State, cfg: Config, reqs: seq<Request>)
    ensures Evolves(s, Run(s, cfg, reqs))
    ensures s.Valid() ==> Run(s, cfg, reqs).Valid()
    decreases |reqs|
  {
    if reqs != [] {
      var s1 := Handle(s, cfg, reqs[0]).state;
      HandleStep(s, cfg, reqs[0]);
      RunEvolves(s1, cfg, reqs[1..]);
    }
  }

  /** `is_verified` only ever becomes true: once an account is verified, it is verified
      after any further requests. */
  lemma {:induction false} VerifiedStaysVerified(s: State, cfg: Config, reqs: seq<Request>, email: string)
    requires email in s.users && s.users[email].isVerified
    ensures email in Run(s, cfg, reqs).users && Run(s, cfg, reqs).users[email].isVerified
  {
    RunEvolves(s, cfg, reqs);
  }

  // ---------------------------------------------------------------------------------
  // Stored password hashes

  /** Every row holds a password hash: `hashed_password` is never left empty. */
  predicate HashesSet(s: State) {
    forall e | e in s.users :: s.users[e].hashedPassword != ""
  }

  /** After one request a row's `hashed_password` is what it was, or the hash of the
      password that register or reset-password just received. */
  lemma HashStep(s: State, cfg: Config, req: Request, email: string)
    requires email in Handle(s, cfg, req).state.users
    ensures var h := Handle(s, cfg, req).state.users[email].hashedPassword;
      || (email in s.users && h == s.users[email].hashedPassword)
      || (req.RegisterRequest? && h == HashPassword(cfg.hasher, req.password, req.salt))
      || (req.ResetPasswordRequest? && h == HashPassword(cfg.hasher, req.newPassword, req.salt))
  {
  }

  /** Under the bcrypt laws, every row of the table holds a non-empty hash after any
      sequence of requests, provided it did at the start. */
  lemma {:induction false} RunKeepsHashesSet(s: State, cfg: Config, reqs: seq<Request>)
    requires BcryptLaws(cfg.hasher)
    requires HashesSet(s)
    ensures HashesSet(Run(s, cfg, reqs))
    decreases |reqs|
  {
    if reqs != [] {
      var s1 := Handle(s, cfg, reqs[0]).state;
      forall e | e in s1.users
        ensures s1.users[e].hashedPassword != ""
      {
        HashStep(s, cfg, reqs[0], e);
      }
      RunKeepsHashesSet(s1, cfg, reqs[1..]);
    }
  }

  // ---------------------------------------------------------------------------------
  // Where stored tokens come from

  /** `req` is a forgot-password request for `email` that issues `token`. */
  predicate IssuesResetToken(cfg: Config, req: Request, email: string, token: string) {
    req.ForgotPasswordRequest? && req.email == email && token == ResetToken(cfg, email, req.now)
  }

  /** `req` is a register request for `email` that issues `token`. */
  predicate IssuesVerificationToken(cfg: Config, req: Request, email: string, token: string) {
    req.RegisterRequest? && req.email == email && token == VerificationToken(cfg, email, req.now)
  }

  /** After one request, a row's `reset_token` is either what it was or the token that
      request issued by forgot-password for that row. */
  lemma ResetTokenStep(s: State, cfg: Config, req: Request, email: string, token: string)
    requires s.Valid()
    requires email in Handle(s, cfg, req).state.users
    requires Handle(s, cfg, req).state.users[email].resetToken == Some(token)
    ensures (email in s.users && s.users[email].resetToken == Some(token)) || IssuesResetToken(cfg, req, email, token)
  {
    HandleStep(s, cfg, req);
  }

  /** After one request, a row's `verification_token` is either what it was or the token
      that request issued by registering that row. */
  lemma VerificationTokenStep(s: State, cfg: Config, req: Request, email: string, token: string)
    requires email in Handle(s, cfg, req).state.users
    requires Handle(s, cfg, req).state.users[email].verificationToken == Some(token)
    ensures (email in s.users && s.users[email].verificationToken == Some(token))
         || IssuesVerificationToken(cfg, req, email, token)
  {
    HandleStep(s, cfg, req);
  }

  /** Only forgot-password puts a token into `reset_token`: a token held there at the end
      of a run was held there at its start or was issued by one of the run's
      forgot-password requests for that same row. */
  lemma {:induction false} StoredResetTokenWasIssued(s: State, cfg: Config, reqs: seq<Request>, email: string, token: string)
    requires s.Valid()
    requires email in Run(s, cfg, reqs).users
    requires Run(s, cfg, reqs).users[email].resetToken == Some(token)
    ensures (email in s.users && s.users[email].resetToken == Some(token))
         || exists i | 0 <= i < |reqs| :: IssuesResetToken(cfg, reqs[i], email, token)
    decreases |reqs|
  {
    if reqs != [] {
      var s1 := Handle(s, cfg, reqs[0]).state;
      HandleStep(s, cfg, reqs[0]);
      StoredResetTokenWasIssued(s1, cfg, reqs[1..], email, token);
      if email in s1.users && s1.users[email].resetToken == Some(token) {
        ResetTokenStep(s, cfg, reqs[0], email, token);
      } else {
        var i :| 0 <= i < |reqs[1..]| && IssuesResetToken(cfg, reqs[1..][i], email, token);
        assert IssuesResetToken(cfg, reqs[i + 1], email, token);
      }
    }
  }

  /** Only register puts a token into `verification_token`: a token held there at the
      end of a run was held there at its start or was issued by one of the run's register
      requests for that same row. */
  lemma {:induction false} StoredVerificationTokenWasIssued(s: State, cfg: Config, reqs: seq<Request>, email: string, token: string)
    requires email in Run(s, cfg, reqs).users
    requires Run(s, cfg, reqs).users[email].verificationToken == Some(token)
    ensures (email in s.users && s.users[email].verificationToken == Some(token))
         || exists i | 0 <= i < |reqs| :: IssuesVerificationToken(cfg, reqs[i], email, token)
    decreases |reqs|
  {
    if reqs != [] {
      var s1 := Handle(s, cfg, reqs[0]).state;
      StoredVerificationTokenWasIssued(s1, cfg, reqs[1..], email, token);
      if email in s1.users && s1.users[email].verificationToken == Some(token) {
        VerificationTokenStep(s, cfg, reqs[0], email, token);
      } else {
        var i :| 0 <= i < |reqs[1..]| && IssuesVerificationToken(cfg, reqs[1..][i], email, token);
        assert IssuesVerificationToken(cfg, reqs[i + 1], email, token);
      }
    }
  }

  // ---------------------------------------------------------------------------------
  // Tokens are single-use

  /** Decoding a token at two different times yields the same subject whenever both
      succeed: the subject is read from the payload, only the expiry depends on the clock. */
  lemma DecodedSubjectIgnoresClock(c: Codec, token: string, t1: int, t2: int)
    requires Decode(c, token, t1).Success? && Decode(c, token, t2).Success?
    ensures Decode(c, token, t1).value == Decode(c, token, t2).value
  {
  }

  /** Replaying a reset token right after it was used fails: with 404 while it still
      decodes, with 400 once it has expired. */
  lemma ResetTokenSingleUse(s: State, cfg: Config, token: string, p1: string, salt1: Salt, t1: int,
                            p2: string, salt2: Salt, t2: int)
    requires ResetPassword(s, cfg, token, p1, salt1, t1).reply.Success?
    ensures var again := ResetPassword(ResetPassword(s, cfg, token, p1, salt1, t1).state, cfg, token, p2, salt2, t2).reply;
      again == (if Decode(cfg.codec, token, t2).Success? then Failure(UserNotFoundOrInvalidToken) else Failure(InvalidOrExpiredToken))
  {
    if Decode(cfg.codec, token, t2).Success? {
      DecodedSubjectIgnoresClock(cfg.codec, token, t1, t2);
    }
  }

  /** Replaying a verification token right after it was used fails: with 404 while it
      still decodes, with 400 once it has expired. */
  lemma VerificationTokenSingleUse(s: State, cfg: Config, token: string, t1: int, t2: int)
    requires VerifyEmail(s, cfg, token, t1).reply.Success?
    ensures var again := VerifyEmail(VerifyEmail(s, cfg, token, t1).state, cfg, token, t2).reply;
      again == (if Decode(cfg.codec, token, t2).Success? then Failure(UserNotFound) else Failure(InvalidOrExpiredToken))
  {
    if Decode(cfg.codec, token, t2).Success? {
      DecodedSubjectIgnoresClock(cfg.codec, token, t1, t2);
    }
  }

  /** A row that does not hold `token` as its reset token still does not after a run in
      which no forgot-password request issues that token. */
  lemma {:induction false} ResetTokenNotReissued(s: State, cfg: Config, reqs: seq<Request>, email: string, token: string)
    requires s.Valid()
    requires email in s.users && s.users[email].resetToken != Some(token)
    requires forall i | 0 <= i < |reqs| :: !(reqs[i].ForgotPasswordRequest? && ResetToken(cfg, reqs[i].email, reqs[i].now) == token)
    ensures email in Run(s, cfg, reqs).users && Run(s, cfg, reqs).users[email].resetToken != Some(token)
  {
    RunEvolves(s, cfg, reqs);
    if Run(s, cfg, reqs).users[email].resetToken == Some(token) {
      StoredResetTokenWasIssued(s, cfg, reqs, email, token);
      assert false;
    }
  }

  /** A row that does not hold `token` as its verification token still does not after a
      run in which no register request issues that token. */
  lemma {:induction false} VerificationTokenNotReissued(s: State, cfg: Config, reqs: seq<Request>, email: string, token: string)
    requires email in s.users && s.users[email].verificationToken != Some(token)
    requires forall i | 0 <= i < |reqs| :: !(reqs[i].RegisterRequest? && VerificationToken(cfg, reqs[i].email, reqs[i].now) == token)
    ensures email in Run(s, cfg, reqs).users && Run(s, cfg, reqs).users[email].verificationToken != Some(token)
  {
    RunEvolves(s, cfg, reqs);
    if Run(s, cfg, reqs).users[email].verificationToken == Some(token) {
      StoredVerificationTokenWasIssued(s, cfg, reqs, email, token);
      assert false;
    }
  }

  /** Reset-password refuses a token whose subject's row does not hold it as reset token. */
  lemma ResetRefusedUnlessHeld(f: State, cfg: Config, token: string, t1: int, e: string,
                               p: string, salt: Salt, t2: int)
    requires Decode(cfg.codec, token, t1) == Success(Some(e))
    requires e in f.users && f.users[e].resetToken != Some(token)
    ensures ResetPassword(f, cfg, token, p, salt, t2).reply.Failure?
  {
    if Decode(cfg.codec, token, t2).Success? {
      DecodedSubjectIgnoresClock(cfg.codec, token, t1, t2);
    }
  }

  /** Verify-email refuses a token whose subject's row does not hold it as verification
      token. */
  lemma VerifyRefusedUnlessHeld(f: State, cfg: Config, token: string, t1: int, e: string, t2: int)
    requires Decode(cfg.codec, token, t1) == Success(Some(e))
    requires e in f.users && f.users[e].verificationToken != Some(token)
    ensures VerifyEmail(f, cfg, token, t2).reply.Failure?
  {
    if Decode(cfg.codec, token, t2).Success? {
      DecodedSubjectIgnoresClock(cfg.codec, token, t1, t2);
    }
  }

  /** A consumed reset token stays consumed: after it reset a password, whatever requests
      follow, it is refused again unless some forgot-password request re-issued the very
      same token string. */
  lemma {:induction false} ConsumedResetTokenStaysDead(s: State, cfg: Config, token: string, p1: string, salt1: Salt, t1: int,
                                    reqs: seq<Request>, p2: string, salt2: Salt, t2: int)
    requires s.Valid()
    requires ResetPassword(s, cfg, token, p1, salt1, t1).reply.Success?
    requires forall i | 0 <= i < |reqs| :: !(reqs[i].ForgotPasswordRequest? && ResetToken(cfg, reqs[i].email, reqs[i].now) == token)
    ensures ResetPassword(Run(ResetPassword(s, cfg, token, p1, salt1, t1).state, cfg, reqs), cfg, token, p2, salt2, t2).reply.Failure?
  {
    var s1 := ResetPassword(s, cfg, token, p1, salt1, t1).state;
    var e := Decode(cfg.codec, token, t1).value.value;
    ResetPasswordStep(s, cfg, token, p1, salt1, t1);
    ResetTokenNotReissued(s1, cfg, reqs, e, token);
    ResetRefusedUnlessHeld(Run(s1, cfg, reqs), cfg, token, t1, e, p2, salt2, t2);
  }

  /** A consumed verification token stays consumed: after it verified an account, it is
      refused again unless some register request re-issued the very same token string. */
  lemma {:induction false} ConsumedVerificationTokenStaysDead(s: State, cfg: Config, token: string, t1: int,
                                           reqs: seq<Request>, t2: int)
    requires VerifyEmail(s, cfg, token, t1).reply.Success?
    requires forall i | 0 <= i < |reqs| :: !(reqs[i].RegisterRequest? && VerificationToken(cfg, reqs[i].email, reqs[i].now) == token)
    ensures VerifyEmail(Run(VerifyEmail(s, cfg, token, t1).state, cfg, reqs), cfg, token, t2).reply.Failure?
  {
    var s1 := VerifyEmail(s, cfg, token, t1).state;
    var e := Decode(cfg.codec, token, t1).value.value;
    VerificationTokenNotReissued(s1, cfg, reqs, e, token);
    VerifyRefusedUnlessHeld(Run(s1, cfg, reqs), cfg, token, t1, e, t2);
  }
}
