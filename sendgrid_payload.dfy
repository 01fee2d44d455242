/**
 * The SendGrid v3 mail-send request objects the delivery method builds. Email, Content and
 * Attachment are values; Personalization and Mail are filled in place by appending methods.
 * The JSON form of these objects is not modelled.
 */
module SendGridPayload {
  import opened Wrappers

  /** A SendGrid address: an email and an optional display name. */
  datatype Email = Email(email: string, name: Option<string>)

  /** A content block: its MIME type ("text/plain" or "text/html") and its text. */
  datatype Content = Content(mimeType: string, value: string)

  /** The strict (no line feed) Base64 encoding of `raw`, kept as a symbolic term. */
  datatype Base64Text = StrictBase64(raw: string)

  /** An attachment block; disposition and contentId stay None unless they were set. */
  datatype Attachment = Attachment(
    content: Base64Text,
    mimeType: string,
    filename: string,
    disposition: Option<string>,
    contentId: Option<string>)

  /** The recipient lists of one personalization, as added to a Mail. */
  datatype Recipients = Recipients(tos: seq<Email>, ccs: seq<Email>, bccs: seq<Email>)

  /** The whole request body of a mail-send call. */
  datatype Payload = Payload(
    from: Option<Email>,
    replyTo: Option<Email>,
    subject: Option<string>,
    personalizations: seq<Recipients>,
    contents: seq<Content>,
    attachments: seq<Attachment>)

  /** SendGrid::Personalization: three recipient lists that only grow. */
  class Personalization {
    var tos: seq<Email>
    var ccs: seq<Email>
    var bccs: seq<Email>

    function Value(): Recipients
      reads this
    {
      Recipients(tos, ccs, bccs)
    }

    constructor ()
      ensures Value() == Recipients([], [], [])
    {
      tos, ccs, bccs := [], [], [];
    }

    method AddTo(e: Email)
      modifies this
      ensures tos == old(tos) + [e] && ccs == old(ccs) && bccs == old(bccs)
    {
      tos := tos + [e];
    }

    method AddCc(e: Email)
      modifies this
      ensures tos == old(tos) && ccs == old(ccs) + [e] && bccs == old(bccs)
    {
      ccs := ccs + [e];
    }

    method AddBcc(e: Email)
      modifies this
      ensures tos == old(tos) && ccs == old(ccs) && bccs == old(bccs) + [e]
    {
      bccs := bccs + [e];
    }
  }

  /** SendGrid::Mail: header fields set by assignment, the lists grown by the Add methods. */
  class Mail {
    var from: Option<Email>
    var replyTo: Option<Email>
    var subject: Option<string>
    var personalizations: seq<Recipients>
    var contents: seq<Content>
    var attachments: seq<Attachment>

    function Value(): Payload
      reads this
    {
      Payload(from, replyTo, subject, personalizations, contents, attachments)
    }

    constructor ()
      ensures Value() == Payload(None, None, None, [], [], [])
    {
      from, replyTo, subject := None, None, None;
      personalizations, contents, attachments := [], [], [];
    }

    /** Stores a snapshot of the personalization's lists. */
    method AddPersonalization(p: Recipients)
      modifies this
      ensures personalizations == old(personalizations) + [p]
      ensures from == old(from) && replyTo == old(replyTo) && subject == old(subject)
      ensures contents == old(contents) && attachments == old(attachments)
    {
      personalizations := personalizations + [p];
    }

    method AddContent(c: Content)
      modifies this
      ensures contents == old(contents) + [c]
      ensures from == old(from) && replyTo == old(replyTo) && subject == old(subject)
      ensures personalizations == old(personalizations) && attachments == old(attachments)
    {
      contents := contents + [c];
    }

    method AddAttachment(a: Attachment)
      modifies this
      ensures attachments == old(attachments) + [a]
      ensures from == old(from) && replyTo == old(replyTo) && subject == old(subject)
      ensures personalizations == old(personalizations) && contents == old(contents)
    {
      attachments := attachments + [a];
    }
  }
}
