/**
 * The parts of an outgoing message of the Mail gem that the delivery method reads.
 * Ruby's run-time type tests on address fields become the constructors of AddressField;
 * bodies are given already decoded (the gem's `decoded`).
 */
module MailMessage {
  import opened Wrappers

  /** One parsed address (Mail::Address): the address proper and its display name, if any. */
  datatype Address = Address(address: string, name: Option<string>)

  /** The shapes an address-bearing field (from, reply_to, to, cc, bcc) can take. */
  datatype AddressField =
    | Text(text: string)                    // a String
    | ParsedContainer(addrs: seq<Address>)  // a Mail::AddressContainer whose @field is set
    | PlainContainer(items: seq<string>)    // a Mail::AddressContainer without @field
    | Structured(value: string)             // a Mail::StructuredField
    | Nil                                   // nil
    | Other(className: string)              // a value of any other class

  /** What `header[:content_disposition]` of a part gives. */
  datatype DispositionField =
    | NoDispositionField                      // nil
    | UntypedDisposition                      // a field that does not answer disposition_type
    | TypedDisposition(dispositionType: string)

  /** The header of an attachment part; contentId is Some exactly when the part has a Content-ID. */
  datatype Header = Header(contentDisposition: DispositionField, contentId: Option<string>)

  /** An attachment part: decoded body, MIME type, file name and (possibly missing) header. */
  datatype Part = Part(body: string, mimeType: string, filename: string, header: Option<Header>)

  /** The message handed to `deliver!`. */
  datatype Message = Message(
    from: AddressField,
    replyTo: AddressField,
    subject: Option<string>,
    to: AddressField,
    cc: AddressField,
    bcc: AddressField,
    mimeType: Option<string>,     // the top-level MIME type
    body: string,                 // the decoded top-level body
    textPart: Option<string>,     // the decoded text/plain part, when there is one
    htmlPart: Option<string>,     // the decoded text/html part, when there is one
    attachments: seq<Part>)
}
