# SendGrid ActionMailer delivery method, modelled in Dafny

`SendGridActionMailer::DeliveryMethod` is an ActionMailer delivery method. `deliver!` turns a
Mail message into a SendGrid v3 mail-send payload: `from` and `reply_to` become one address
each, the subject is copied, one personalization holds the to, cc and bcc lists, and the
top-level MIME type decides which content blocks and attachments are added. The payload is
POSTed to the mail-send endpoint. A response whose status code starts with `4` is a delivery
failure. Its text names the code and the message of the last entry of the body's `errors`
list. The failure is raised when `raise_delivery_errors` is set and only warned otherwise.

Files:

- `wrappers.dfy` (module `Wrappers`): `Option` and `Result`.
- `mail_message.dfy` (module `MailMessage`): the parts of a Mail message the adapter reads.
  Ruby's type tests on address fields become the six constructors of `AddressField`.
- `sendgrid_payload.dfy` (module `SendGridPayload`): the SendGrid request objects. `Email`,
  `Content` and `Attachment` are values. `Personalization` and `Mail` are classes with
  sequence fields and appending methods (`AddTo`, `AddContent`, `AddAttachment`, ...).
- `delivery_method.dfy` (module `SendGridActionMailer`): the adapter. Pure parts are functions
  with lemmas. `to_personalizations`, `add_content` and `deliver!` are methods that fill the
  payload objects step by step. Each is proved equal to a specification function
  (`PersonalizationOf`, `ContentsFor`/`AttachmentsFor`, `BuildPayload`).

How the outside world appears:

- The HTTP POST is the parameter `post: Payload -> SendResult` of `Deliver`.
- The response body is given already parsed (`ResponseBody`, `ErrorEntry`). Each way
  `JSON.parse(...).fetch('errors').pop.fetch('message')` can raise is a
  `MalformedErrorResponse` error.
- `Base64.strict_encode64(body)` is the symbolic term `StrictBase64(body)`.
- `warn` is the `warning` of a `Returned` outcome. Exceptions are `Raised(error)`.
- The `puts` for an unknown address type is the class name carried by `UnknownAddressType`.

Two behaviours of the code that the model keeps:

- An address field of unknown type makes `deliver!` fail: `to_emails` prints and returns nil,
  and the caller's `.first` or `.each` on nil raises. Building the payload therefore fails with
  `UnknownAddressType`, on the first such field in the order from, reply_to, to, cc, bcc.
- `deliver!`, `to_personalizations` and `add_content` mutate the SendGrid objects, so the model
  uses methods over the payload classes.

## Model

| member | source | states |
|---|---|---|
| SendGridActionMailer.Initialize | lib/sendgrid_actionmailer.rb:14-19 | fails exactly when `api_key` is missing; keeps the key; `raise_delivery_errors` is taken as a boolean, default false |
| SendGridActionMailer.ToEmails | lib/sendgrid_actionmailer.rb:50-68 | nil gives []; a String or structured field gives one entry with that email and no name; a parsed container gives one entry per address in order, keeping address and display name; a plain container gives one nameless entry per element in order; any other type and only it is an `UnknownAddressType` error |
| SendGridActionMailer.ToEmail | lib/sendgrid_actionmailer.rb:46-48 | the first entry of `ToEmails`, None when that list is empty, the same error when it fails |
| SendGridActionMailer.PersonalizationOf | lib/sendgrid_actionmailer.rb:70-76 | succeeds iff to, cc and bcc are all readable; then the three lists equal `ToEmails` of to, cc and bcc; otherwise the error of the first unreadable one of to, cc, bcc |
| SendGridActionMailer.ToPersonalizations | lib/sendgrid_actionmailer.rb:70-76 | the three `each`/`add_*` loops over a fresh personalization produce exactly `PersonalizationOf(mail)` |
| SendGridActionMailer.ToContent | lib/sendgrid_actionmailer.rb:41-44 | the block holds the given value; its type is "text/plain" for `:plain` and "text/html" for `:html` |
| SendGridActionMailer.GetDisposition | lib/sendgrid_actionmailer.rb:92-97 | Some exactly when the part has a header whose Content-Disposition answers `disposition_type`, and then that type |
| SendGridActionMailer.ToAttachment | lib/sendgrid_actionmailer.rb:78-90 | content is the Base64 of the decoded body; type and filename copied; disposition set only when `GetDisposition` gives one; content_id set exactly when the part has a header with a Content-ID, and then that value |
| SendGridActionMailer.BodyKindOf | lib/sendgrid_actionmailer.rb:100-105 | the branch taken: text/plain, text/html, one of the three multipart types, or none of them |
| SendGridActionMailer.AddContent | lib/sendgrid_actionmailer.rb:99-113 | appends exactly `ContentsFor(mail)` to the contents and `AttachmentsFor(mail)` to the attachments, leaving every other payload field unchanged |
| SendGridActionMailer.SinglePartContent | lib/sendgrid_actionmailer.rb:100-104 | text/plain or text/html: exactly one block, of the message's MIME type, holding the decoded body; no attachments |
| SendGridActionMailer.UnsupportedContent | lib/sendgrid_actionmailer.rb:99-113 | any other MIME type, or none: no content and no attachments |
| SendGridActionMailer.MultipartContent | lib/sendgrid_actionmailer.rb:105-111 | multipart: one block per part that exists (so exactly plain then HTML when both exist); a plain block iff a text part exists and an HTML block iff an HTML part exists, each holding that part's text; plain before HTML; one attachment per attachment part, in order |
| SendGridActionMailer.LastErrorMessage | lib/sendgrid_actionmailer.rb:119 | succeeds exactly when the body is JSON with a non-empty `errors` list whose last entry has a `message`, and then gives that message; otherwise a `MalformedErrorResponse` |
| SendGridActionMailer.PerformSendRequest | lib/sendgrid_actionmailer.rb:115-126 | whenever it returns, it returns the response unchanged |
| SendGridActionMailer.ClassifiedAsFailure | lib/sendgrid_actionmailer.rb:118 | the outcome is a failure (raised or warned) exactly when a status code is present and starts with '4'; otherwise the response is returned with no warning |
| SendGridActionMailer.FailureReport | lib/sendgrid_actionmailer.rb:119-122 | on a 4xx with a readable body: raises iff `raise_delivery_errors`, with text "Sendgrid delivery failed with <code> <last message>"; otherwise warns that text |
| SendGridActionMailer.UnreadableFailureRaises | lib/sendgrid_actionmailer.rb:118-119 | on a 4xx whose body cannot be read the call raises, whatever the flag |
| SendGridActionMailer.ExampleResponses | lib/sendgrid_actionmailer.rb:118-125 | a 400 with last error "invalid sender" raises that text with the flag on and warns it with the flag off; a 202 is returned unchanged |
| SendGridActionMailer.BuildPayload | lib/sendgrid_actionmailer.rb:21-30 | succeeds iff no address field is of unknown type; then from and reply_to are `ToEmail` of the fields, the subject is copied, there is one personalization of the to/cc/bcc lists, and contents and attachments are those of `add_content` |
| SendGridActionMailer.BuildPayloadFailsOnFirstUnknown | lib/sendgrid_actionmailer.rb:22-27 | a failed build reports the class of the first unknown field in the order from, reply_to, to, cc, bcc |
| SendGridActionMailer.BuildSendgridMail | lib/sendgrid_actionmailer.rb:22-30 | filling a fresh SendGrid Mail (assignments, `add_personalization`, `add_content`) yields exactly `BuildPayload(mail)`, including its errors |
| SendGridActionMailer.Deliver | lib/sendgrid_actionmailer.rb:21-32 | when the payload cannot be built nothing is sent and the error is raised; otherwise exactly `BuildPayload(mail)` is POSTed and the outcome is `PerformSendRequest` of the response |

## Left out

- The SendGrid client and its construction from `api_key` (lib/sendgrid_actionmailer.rb:17), and the POST itself (line 116): network I/O through a library. The response is the result of the `post` parameter.
- JSON serialisation of the payload and `JSON.parse` of the body: the payload is a Dafny value and the parsed body is given as a datatype. JSON values of unexpected types (an `errors` member that is not a list, a non-string `message`) are not modelled.
- `Base64.strict_encode64` (section 4 of RFC 4648, without line feeds) is Ruby's library, not repository code. It is a symbolic term, so the round trip "decoding yields the original bytes" holds by construction and is not proved about a real encoder.
- Decoding of message and part bodies (`decoded`) belongs to the Mail gem: bodies are given decoded.
- Reflection (`is_a?`, `instance_variable_get('@field')`) is replaced by the `AddressField` datatype. Subclass relations among Ruby classes are not modelled.
- Output of `puts` and `warn` is not modelled as I/O: the printed class name is part of the error, and the warning text is part of the outcome.
- `settings` (which returns an empty hash) and the Railtie/version requires (lines 1-3, 34-37): framework glue.
- Transport errors from the HTTP client propagate unchanged in the source, so no result exists for them; they are not modelled.
- `raise_delivery_errors` given with a nil value behaves like an absent key, so `Params` does not distinguish the two.
- Initialize: the flag is modelled as a boolean; the source stores any value and branches on its Ruby truthiness, so other truthy values (`1`, `"false"`) that also make the call raise are not modelled.
- Part MIME types and file names that are nil in Ruby are modelled as strings: they are copied verbatim either way.
- `Attachment.new.tap`, like the other `tap` blocks, fills a fresh object that is then only read. `ToAttachment` therefore builds a value.
