/**
 * The `EmailMessage` record: five nullable string properties that start out
 * null, with equality and hashing by value.  A Dafny datatype gives value
 * equality directly; Java's setters become datatype updates such as
 * `e.(subject := Some(s))`.
 */
module Email {
  import opened Wrappers

  datatype EmailMessage = EmailMessage(
    from: Option<string>,
    to: Option<string>,
    subject: Option<string>,
    body: Option<string>,
    aiAnalysis: Option<string>)

  /** `new EmailMessage()`: every property null. */
  const NewEmailMessage: EmailMessage := EmailMessage(None, None, None, None, None)
}
