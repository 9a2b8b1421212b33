/** The two mails the service sends, as `(to, subject, body)` triples. The SMTP transport
    itself is not part of this model. */
module Notifier {
  import opened Wrappers

  datatype Mail = Mail(to: string, subject: string, body: string)

  const VerifyLinkBase := "http://localhost:8000/verify-email?token="
  const ResetLinkBase := "http://localhost:8000/reset-password-page?token="
  const VerifyIntro := "Klik link ini untuk verifikasi akun kamu: "
  const ResetIntro := "Klik link ini untuk reset password: "
  const VerifySubject := "Verifikasi Email"
  const ResetSubject := "Reset Password"

  /** What follows `prefix` in `body`, if `body` starts with it: the token a reader of the
      mail takes out of its link. */
  function TokenAfter(prefix: string, body: string): Option<string> {
    if prefix <= body then Some(body[|prefix|..]) else None
  }

  /** `send_verification_email(email, token)`: the body ends with the verify-email link,
      and the link carries the token unchanged. */
  function VerificationMail(email: string, token: string): (m: Mail)
    ensures m.to == email && m.subject == "Verifikasi Email"
    ensures TokenAfter(VerifyIntro + "http://localhost:8000/verify-email?token=", m.body) == Some(token)
  {
    var verifyLink := VerifyLinkBase + token;
    var body := VerifyIntro + verifyLink;
    assert body == (VerifyIntro + VerifyLinkBase) + token;
    Mail(email, VerifySubject, body)
  }

  /** `send_reset_email(email, token)`: the body ends with the reset-password-page link,
      and the link carries the token unchanged. */
  function ResetMail(email: string, token: string): (m: Mail)
    ensures m.to == email && m.subject == "Reset Password"
    ensures TokenAfter(ResetIntro + "http://localhost:8000/reset-password-page?token=", m.body) == Some(token)
  {
    var resetLink := ResetLinkBase + token;
    var body := ResetIntro + resetLink;
    assert body == (ResetIntro + ResetLinkBase) + token;
    Mail(email, ResetSubject, body)
  }

  /** The token in a verification mail's link. */
  function VerificationLinkToken(m: Mail): Option<string> {
    TokenAfter(VerifyIntro + VerifyLinkBase, m.body)
  }

  /** The token in a reset mail's link. */
  function ResetLinkToken(m: Mail): Option<string> {
    TokenAfter(ResetIntro + ResetLinkBase, m.body)
  }
}
