# Account lifecycle of a FastAPI/JWT authentication service, in Dafny

This project models the core of a small authentication service: five HTTP handlers
(register, login, forgot-password, reset-password, verify-email) acting on a `users` table
keyed by email, the token helper that mints signed, expiring JWTs, the bcrypt password
helpers, and the two mails the service sends.

- `models.dfy` (module `Models`): the `users` row (`id`, `email`, `hashed_password`,
  `reset_token`, `is_verified`, `verification_token`), the defaults the ORM fills in, and
  the table's two constraints (unique email, distinct primary keys).
- `passwords.dfy` (module `Passwords`): bcrypt, as a pair of abstract operations `hash` and
  `verify` carried in a `Hasher` value. What the model relies on from bcrypt is written
  down as the predicate `BcryptLaws` and appears as a hypothesis wherever it is used.
- `tokens.dfy` (module `Tokens`): `create_access_token` and the `jwt.decode` call. JWT
  signing is a `Codec` value (`encode`, `decode`) standing for the secret key and
  algorithm. What the model relies on from it is the predicate `Sound`: decoding inverts
  encoding.
- `notifier.dfy` (module `Notifier`): the verification and reset mails as
  `(to, subject, body)` triples, with the link and its token.
- `workflow.dfy` (module `Workflow`): the five handlers as functions from the store
  before a request to the store after it and the reply. The store is the table, the next
  row id, and the outbox of mails the SMTP server accepted. The module also holds the
  one-step guarantees every handler gives.
- `auth.dfy` (module `Auth`): class `Service`, the same handlers as methods that update
  the table and the outbox in place. Each method is proved to agree with its function in
  `Workflow`. `Login` has no `modifies` clause, so it cannot change the store.
- `lifecycle.dfy` (module `Lifecycle`): properties of any sequence of requests. The table
  stays consistent. `is_verified` never goes back to false. Every row keeps a non-empty password hash. A token reaches `reset_token`
  only through forgot-password and `verification_token` only through register. A
  consumed token stays consumed.
- `scenarios.dfy` (module `Scenarios`): how a token's purpose is enforced, and the
  register → verify → login → forgot → reset → login story end to end.

Time is an integer number of seconds passed to each handler as `now`. A `timedelta` of
`m` minutes is `m * 60` seconds. The bcrypt salt is a parameter (`salt`). Whether the
SMTP server accepted a mail is a parameter (`delivered`).

Points where the model follows a detail of the code or of its libraries:

- Mail errors. `send_verification_email` and `send_reset_email` are called without a
  `try` (app/auth.py:36, app/auth.py:66), so an SMTP error propagates and FastAPI answers
  500. By then `db.commit()` has already kept the row. The model returns `MailNotSent` (status 500) with the
  committed state and an unchanged outbox.
- Token expiry. python-jose rejects a token when `exp < now`, so a token is still
  accepted at the very second of its expiry. `Tokens.Decode` follows that library rule
  (`ExpiredAt` is `exp < now`).
- Error details. Reset-password's 404 detail ("User not found or invalid token") differs
  from verify-email's ("User not found"). They are two constructors of `AuthError`.

## Model

| member | source | states |
|---|---|---|
| `Models.NewUser` | app/models.py:9-12 | A freshly inserted row is unverified and has no reset token; id, email, hash and verification token are the ones given |
| `Passwords.HashPassword` | app/utils.py:10-14 | Under the bcrypt laws the stored hash is non-empty and `verify_password` accepts exactly the password it was made from |
| `Passwords.SaltedHashesDiffer` | app/utils.py:8-11 | Two hashes of one password with different salts differ, yet both verify it |
| `Tokens.AccessClaims` | app/utils.py:16-19 | The payload is the caller's claims plus `exp`, which replaces any `exp` the caller gave; `exp` is now + delta for a non-zero delta, and now + 15 minutes when the delta is missing or zero |
| `Tokens.CreateAccessToken` | app/utils.py:16-20 | Under a sound codec the token decodes back to exactly that payload |
| `Tokens.Decode` | app/auth.py:71-75 | Decoding succeeds iff the signature checks, the `exp` claim is well-formed and not past, and `sub` is absent or a string; it fails as expired iff `exp` is a well-formed instant in the past; on success it yields `sub` when present |
| `Tokens.DecodeIssuedToken` | app/utils.py:16-20 | A token the service minted decodes to its subject up to and including its expiry second, and is rejected as expired afterwards |
| `Notifier.VerificationMail` | app/utils.py:34-37 | The mail goes to the given address with subject "Verifikasi Email", and the verify-email link in its body carries exactly the given token |
| `Notifier.ResetMail` | app/utils.py:39-42 | The mail goes to the given address with subject "Reset Password", and the reset-password-page link in its body carries exactly the given token |
| `Workflow.Register` | app/auth.py:16-37 | A stored email gives 400 and no change. Otherwise exactly one row is added under that email: unverified, no reset token, a hash of the password, the next id, and a 60-minute verification token for that email. Other rows are untouched. The mail carries the same token and is sent after the insert; a failed send gives 500 with the row kept; the 400 carries detail "Email already registered" (app/auth.py:19) |
| `Workflow.Login` | app/auth.py:39-52 | 401 iff the email is unknown or the password does not verify, checked before the 403 for an unverified account; success iff both pass, with a bearer token for the row's email and the configured lifetime; there is no new state; 401 carries detail "Invalid credentials" and 403 "Email not verified" (app/auth.py:43, 46) |
| `Workflow.ForgotPassword` | app/auth.py:54-67 | Unknown email gives 404 and no change; otherwise only that row's `reset_token` is overwritten with a fresh reset token, then a reset mail with the same token is sent; a failed send gives 500 with the token kept; the 404 carries detail "User not found" (app/auth.py:58) |
| `Workflow.ResetPassword` | app/auth.py:69-84 | 400 iff the token fails to decode or has expired; 404 iff it decodes but no row under its subject holds it as `reset_token`; both leave the store unchanged; success replaces that row's hash and clears its `reset_token`, nothing else; the details are "Invalid or expired token" and "User not found or invalid token" (app/auth.py:75, 79) |
| `Workflow.VerifyEmail` | app/auth.py:86-100 | 400 iff the token fails to decode or has expired; 404 iff no row under its subject holds it as `verification_token`; both leave the store unchanged; success sets `is_verified` and clears `verification_token` on that row only; the details are "Invalid or expired token" and "User not found" (app/auth.py:92, 96) |
| `Workflow.RegisterStep` | app/auth.py:18-33 | Register keeps the table consistent, touches only the row of its email, and never un-verifies |
| `Workflow.ForgotPasswordStep` | app/auth.py:56-65 | Forgot-password touches only the row of its email and keeps the table consistent |
| `Workflow.ResetPasswordStep` | app/auth.py:71-83 | Reset-password touches only the row its token names and keeps the table consistent |
| `Workflow.VerifyEmailStep` | app/auth.py:88-100 | Verify-email touches only the row its token names, keeps the table consistent, and only ever sets `is_verified` to true |
| `Workflow.HandleStep` | app/auth.py:16-100 | Every request touches at most one row. It keeps one row per email with distinct ids. It never deletes a row or un-verifies an account. An error other than a failed mail leaves the store unchanged. Login never changes it |
| `Auth.Service.constructor` | app/models.py:4-12 | The table starts empty with ids from 1 and satisfies its constraints |
| `Auth.Service.Register` | app/auth.py:16-37 | The in-place insert, commit and send produce the store and reply of `Workflow.Register`; a duplicate email changes nothing; on a consistent table (one row per email, distinct ids) it leaves the table consistent |
| `Auth.Service.Login` | app/auth.py:39-52 | Reads the table only and replies as `Workflow.Login` |
| `Auth.Service.ForgotPassword` | app/auth.py:54-67 | The in-place update of `reset_token`, commit and send produce the store and reply of `Workflow.ForgotPassword`; on a consistent table (one row per email, distinct ids) it leaves the table consistent |
| `Auth.Service.ResetPassword` | app/auth.py:69-84 | The in-place update of hash and `reset_token` produces the store and reply of `Workflow.ResetPassword`; every error changes nothing; on a consistent table (one row per email, distinct ids) it leaves the table consistent |
| `Auth.Service.VerifyEmail` | app/auth.py:86-100 | The in-place update of `is_verified` and `verification_token` produces the store and reply of `Workflow.VerifyEmail`; every error changes nothing; on a consistent table (one row per email, distinct ids) it leaves the table consistent |
| `Lifecycle.RunEvolves` | app/models.py:7-8 | Over any sequence of requests, email stays unique, ids stay distinct, rows are never deleted and keep their id and email, and sent mail stays sent |
| `Lifecycle.VerifiedStaysVerified` | app/auth.py:98 | Once `is_verified` is true it stays true whatever requests follow |
| `Lifecycle.HashStep` | app/auth.py:21-28 | After one request a row's `hashed_password` is what it was, or the hash of the password register (for a new row) or reset-password (app/auth.py:81) just received |
| `Lifecycle.RunKeepsHashesSet` | app/models.py:9 | Under the bcrypt laws, if every row holds a non-empty `hashed_password` at the start, every row does after any sequence of requests |
| `Lifecycle.ResetTokenStep` | app/auth.py:64 | After one request a row's `reset_token` is what it was, or the token forgot-password just issued for that row |
| `Lifecycle.VerificationTokenStep` | app/auth.py:26-31 | After one request a row's `verification_token` is what it was, or the token register just issued for that row |
| `Lifecycle.StoredResetTokenWasIssued` | app/auth.py:60-64 | Over any run, a token found in `reset_token` was there at the start or was issued by one of the run's forgot-password requests for that row |
| `Lifecycle.StoredVerificationTokenWasIssued` | app/auth.py:22-31 | Over any run, a token found in `verification_token` was there at the start or was issued by one of the run's register requests for that row |
| `Lifecycle.DecodedSubjectIgnoresClock` | app/auth.py:72-73 | Two successful decodes of one token yield the same subject; only the expiry depends on the clock |
| `Lifecycle.ResetTokenSingleUse` | app/auth.py:77-82 | Replaying a reset token right after it succeeded gives 404 while it still decodes and 400 once expired |
| `Lifecycle.VerificationTokenSingleUse` | app/auth.py:94-99 | Replaying a verification token right after it succeeded gives 404 while it still decodes and 400 once expired |
| `Lifecycle.ResetTokenNotReissued` | app/auth.py:60-64 | A row that does not hold a token as reset token still does not after any run in which no forgot-password issues that token |
| `Lifecycle.VerificationTokenNotReissued` | app/auth.py:22-31 | A row that does not hold a token as verification token still does not after any run in which no register issues that token |
| `Lifecycle.ResetRefusedUnlessHeld` | app/auth.py:77-79 | Reset-password refuses a token whose subject's row does not hold it as reset token, at any time |
| `Lifecycle.VerifyRefusedUnlessHeld` | app/auth.py:94-96 | Verify-email refuses a token whose subject's row does not hold it as verification token, at any time |
| `Lifecycle.ConsumedResetTokenStaysDead` | app/auth.py:77-83 | After a reset token has been used, it is refused after any later requests, unless forgot-password re-issued the identical token string |
| `Lifecycle.ConsumedVerificationTokenStaysDead` | app/auth.py:94-100 | After a verification token has been used, it is refused after any later requests, unless register re-issued the identical token string |
| `Scenarios.ResetSeesOnlyResetColumn` | app/auth.py:77 | Reset-password's answer depends on the store only through the `reset_token` column |
| `Scenarios.VerifySeesOnlyVerificationColumn` | app/auth.py:94 | Verify-email's answer depends on the store only through the `verification_token` column |
| `Scenarios.SessionTokenResetsWhenExpiriesCoincide` | app/auth.py:48-51 | A login bearer token whose expiry falls on the same second as the account's reset token is that very token and is accepted by reset-password: the payload carries no purpose |
| `Scenarios.RegisterTwice` | app/auth.py:18-19 | Registering an email a second time is refused with 400 and changes nothing |
| `Scenarios.FreshAccountIsUnverified` | app/auth.py:29-46 | Right after register, the mailed link carries the stored verification token; the right password gets 403 and a wrong one 401 |
| `Scenarios.MailedLinkVerifies` | app/auth.py:86-100 | Following the mailed link within 60 minutes verifies the account, after which the password logs in with a bearer token |
| `Scenarios.PasswordResetScenario` | app/auth.py:54-84 | Forgot-password then reset through the mailed link in time: the reset succeeds, the old password gets 401 and the new one logs in |
| `Scenarios.AccountLifecycle` | app/auth.py:16-100 | Register, verify by link, login, forgot, reset by link: login works after verification, and after the reset the old password gets 401 and the new one logs in |

## Left out

- `get_db` (app/auth.py:9-14): opening and closing the database session is resource handling with no effect on the table.
- app/main.py: application construction and table creation are wiring.
- `send_email` (app/utils.py:22-32): the SMTP conversation is I/O. A delivered mail is appended to the outbox. A failed one is the `delivered = false` case.
- `db.refresh(new_user)`: it re-reads the committed row, and the model's row is already the committed value.
- `Passwords.BcryptLaws`: bcrypt compares only the first 72 bytes of a password, so two long passwords that share those bytes verify against each other. The law "a hash verifies no other password" ignores that. Byte length is not modelled, since passwords are character strings here. passlib also refuses a password that contains a NUL character or is longer than 4096 bytes, by raising (app/utils.py:11, app/utils.py:14). Register (app/auth.py:21), login (app/auth.py:42) and reset-password (app/auth.py:81) then answer 500 with the store unchanged. The model's `hash` and `verify` are total, so it gives such a password the same answers as any other.
- `Tokens.Decode`: python-jose also checks `iat`, `nbf`, `aud`, `iss` and `jti`. The service never puts those claims in a token, so they are not modelled.
- `Tokens.Decode`: python-jose converts `exp` with `int()`, so a numeric string would pass. The model treats any non-instant `exp` as malformed.
- `Tokens.Codec`: the compact serialisation (base64url, HMAC signature) is abstract. `SECRET_KEY` and `ALGORITHM` are folded into the codec.
- Clock: `datetime.utcnow()` becomes the `now` parameter in whole seconds. Sub-second precision is dropped, as it is when the token is encoded.
- Configuration: `ACCESS_TOKEN_EXPIRE_MINUTES` and `RESET_PASSWORD_EXPIRE_MINUTES` are fields of `Workflow.Config`.
- Primary keys: the database assigns ids 1, 2, 3, … itself, and no row is ever deleted, so this is modelled as a counter `nextId` that starts at 1.
- Concurrency: two registrations of one email can race between the existence check and the insert. The database's unique index settles this, and a sequential model cannot show it.
- Request validation (the pydantic schemas) and the HTTP layer are not part of this model. What remains of a raised `HTTPException` is its status code and detail (`Workflow.StatusCode`, `Workflow.Detail`). The five handler contracts state both for every error.
