/** Value types shared by the SMTP connection and the stream server: an
    optional value and the e-mail record carried by a send request. */
module Mail {

  datatype Option<+T> = None | Some(value: T)

  /** A mailbox: an optional display name and an address. */
  datatype EmailAddress = EmailAddress(name: Option<string>, address: string)

  /** The message handed to the SMTP transport's `sendEmail`. */
  datatype Email = Email(
    sender: EmailAddress,
    recipients: seq<EmailAddress>,
    ccRecipients: seq<EmailAddress>,
    bccRecipients: seq<EmailAddress>,
    subject: string,
    textBody: string,
    htmlBody: Option<string>)
}
