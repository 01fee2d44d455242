/**
 * SendGridActionMailer::DeliveryMethod: translates a Mail message into a SendGrid
 * mail-send payload, hands it to the HTTP API and classifies the response.
 * The HTTP call is a parameter (`post`), the response body is given already parsed.
 */
module SendGridActionMailer {
  import opened Wrappers
  import opened MailMessage
  import opened SendGridPayload

  /** Why the adapter reports failure; each case is a Ruby exception escaping `deliver!`. */
  datatype Error =
    | MissingApiKey                          // KeyError from params.fetch(:api_key)
    | UnknownAddressType(className: string)  // "unknown type ..." printed, then nil is used
    | MalformedErrorResponse(fault: BodyFault)
    | SendgridDeliveryError(message: string)

  /** How reading the message out of a failure response's body can go wrong. */
  datatype BodyFault =
    | NotJson         // JSON::ParserError
    | NoErrorsKey     // KeyError from fetch('errors')
    | NoErrorEntries  // pop on [] gives nil, then nil.fetch
    | NoMessageKey    // KeyError from fetch('message')

  /** The construction parameters; absent keys are None. */
  datatype Params = Params(apiKey: Option<string>, raiseDeliveryErrors: Option<bool>)

  /** A configured delivery method; the HTTP client is represented by its API key. */
  datatype DeliveryMethod = DeliveryMethod(apiKey: string, raiseDeliveryErrors: bool)

  function Initialize(params: Params): (r: Result<DeliveryMethod, Error>)
    ensures r.Failure? <==> params.apiKey.None?
    ensures r.Failure? ==> r.error == MissingApiKey
    ensures r.Success? ==> r.value.apiKey == params.apiKey.value
    ensures r.Success? ==> (r.value.raiseDeliveryErrors <==> params.raiseDeliveryErrors == Some(true))
  {
    match params.apiKey
    case None => Failure(MissingApiKey)
    case Some(key) =>
      Success(DeliveryMethod(key, match params.raiseDeliveryErrors
                                  case None => false
                                  case Some(flag) => flag))
  }

  // ---------------------------------------------------------------- addresses

  /** Ruby's Enumerable#map. */
  function Map<A, B>(f: A -> B, s: seq<A>): (r: seq<B>)
    ensures |r| == |s|
    ensures forall i :: 0 <= i < |s| ==> r[i] == f(s[i])
  {
    if s == [] then [] else Map(f, s[..|s| - 1]) + [f(s[|s| - 1])]
  }

  lemma MapAppend<A, B>(f: A -> B, s: seq<A>, x: A)
    ensures Map(f, s + [x]) == Map(f, s) + [f(x)]
  {
  }

  function FromAddress(a: Address): Email {
    Email(a.address, a.name)
  }

  function FromString(s: string): Email {
    Email(s, None)
  }

  /** `to_emails`: the ordered SendGrid addresses of an address field. */
  function ToEmails(input: AddressField): (r: Result<seq<Email>, Error>)
    ensures r.Failure? <==> input.Other?
    ensures input.Other? ==> r.error == UnknownAddressType(input.className)
    ensures input.Nil? ==> r == Success([])
    ensures input.Text? ==> r == Success([Email(input.text, None)])
    ensures input.Structured? ==> r == Success([Email(input.value, None)])
    ensures input.ParsedContainer? ==>
      |r.value| == |input.addrs| &&
      forall i :: 0 <= i < |input.addrs| ==>
        r.value[i].email == input.addrs[i].address && r.value[i].name == input.addrs[i].name
    ensures input.PlainContainer? ==>
      |r.value| == |input.items| &&
      forall i :: 0 <= i < |input.items| ==> r.value[i] == Email(input.items[i], None)
  {
    match input
    case Text(s) => Success([Email(s, None)])
    case ParsedContainer(addrs) => Success(Map(FromAddress, addrs))
    case PlainContainer(items) => Success(Map(FromString, items))
    case Structured(v) => Success([Email(v, None)])
    case Nil => Success([])
    case Other(c) => Failure(UnknownAddressType(c))
  }

  /** `to_email`: the first address of a field, or None when it has none. */
  function ToEmail(input: AddressField): (r: Result<Option<Email>, Error>)
    ensures r.Failure? <==> input.Other?
    ensures ToEmails(input).Failure? ==> r == Failure(ToEmails(input).error)
    ensures ToEmails(input).Success? && ToEmails(input).value == [] ==> r == Success(None)
    ensures ToEmails(input).Success? && ToEmails(input).value != [] ==>
      r == Success(Some(ToEmails(input).value[0]))
  {
    var list :- ToEmails(input);
    Success(if list == [] then None else Some(list[0]))
  }

  // ------------------------------------------------------------ personalization

  /** The recipient lists `to_personalizations` fills, or the first field that cannot be read. */
  function PersonalizationOf(mail: Message): (r: Result<Recipients, Error>)
    ensures r.Success? <==>
      ToEmails(mail.to).Success? && ToEmails(mail.cc).Success? && ToEmails(mail.bcc).Success?
    ensures r.Success? ==>
      r.value.tos == ToEmails(mail.to).value &&
      r.value.ccs == ToEmails(mail.cc).value &&
      r.value.bccs == ToEmails(mail.bcc).value
    ensures r.Failure? ==>
      r.error == (if mail.to.Other? then ToEmails(mail.to).error
                  else if mail.cc.Other? then ToEmails(mail.cc).error
                  else ToEmails(mail.bcc).error)
  {
    var tos :- ToEmails(mail.to);
    var ccs :- ToEmails(mail.cc);
    var bccs :- ToEmails(mail.bcc);
    Success(Recipients(tos, ccs, bccs))
  }

  /** `to_personalizations`: one personalization, each list filled by its own loop. */
  method ToPersonalizations(mail: Message) returns (r: Result<Recipients, Error>)
    ensures r == PersonalizationOf(mail)
  {
    var p := new Personalization();
    var tos := ToEmails(mail.to);
    if tos.Failure? {
      return Failure(tos.error);
    }
    var i := 0;
    while i < |tos.value|
      invariant 0 <= i <= |tos.value|
      invariant p.tos == tos.value[..i] && p.ccs == [] && p.bccs == []
    {
      p.AddTo(tos.value[i]);
      i := i + 1;
    }
    assert tos.value[..i] == tos.value;

    var ccs := ToEmails(mail.cc);
    if ccs.Failure? {
      return Failure(ccs.error);
    }
    i := 0;
    while i < |ccs.value|
      invariant 0 <= i <= |ccs.value|
      invariant p.tos == tos.value && p.ccs == ccs.value[..i] && p.bccs == []
    {
      p.AddCc(ccs.value[i]);
      i := i + 1;
    }
    assert ccs.value[..i] == ccs.value;

    var bccs := ToEmails(mail.bcc);
    if bccs.Failure? {
      return Failure(bccs.error);
    }
    i := 0;
    while i < |bccs.value|
      invariant 0 <= i <= |bccs.value|
      invariant p.tos == tos.value && p.ccs == ccs.value && p.bccs == bccs.value[..i]
    {
      p.AddBcc(bccs.value[i]);
      i := i + 1;
    }
    assert bccs.value[..i] == bccs.value;
    r := Success(p.Value());
  }

  // ------------------------------------------------------ content and attachments

  /** The two kinds of content block: `:plain` and `:html`. */
  datatype ContentKind = Plain | Html

  function KindName(kind: ContentKind): string {
    match kind
    case Plain => "plain"
    case Html => "html"
  }

  /** `to_content`: a block of MIME type "text/<kind>" holding `value`. */
  function ToContent(kind: ContentKind, value: string): (c: Content)
    ensures c.value == value
    ensures kind == Plain ==> c.mimeType == "text/plain"
    ensures kind == Html ==> c.mimeType == "text/html"
  {
    Content("text/" + KindName(kind), value)
  }

  /** `get_disposition`: the part's disposition type, when its header gives one. */
  function GetDisposition(part: Part): (r: Option<string>)
    ensures r.Some? <==> part.header.Some? && part.header.value.contentDisposition.TypedDisposition?
    ensures r.Some? ==> r.value == part.header.value.contentDisposition.dispositionType
  {
    match part.header
    case None => None
    case Some(h) =>
      match h.contentDisposition
      case TypedDisposition(t) => Some(t)
      case _ => None
  }

  /** `to_attachment`: an attachment block for one attachment part. */
  function ToAttachment(part: Part): (a: Attachment)
    ensures a.content == StrictBase64(part.body)
    ensures a.mimeType == part.mimeType && a.filename == part.filename
    ensures a.disposition == GetDisposition(part)
    ensures a.contentId.Some? <==> part.header.Some? && part.header.value.contentId.Some?
    ensures a.contentId.Some? ==> a.contentId == part.header.value.contentId
  {
    var contentId := if part.header.Some? then part.header.value.contentId else None;
    Attachment(StrictBase64(part.body), part.mimeType, part.filename, GetDisposition(part), contentId)
  }

  /** The branches of the `case mail.mime_type` in `add_content`. */
  datatype BodyKind = PlainBody | HtmlBody | MultipartBody | UnsupportedBody

  function BodyKindOf(mimeType: Option<string>): (k: BodyKind)
    ensures k == PlainBody <==> mimeType == Some("text/plain")
    ensures k == HtmlBody <==> mimeType == Some("text/html")
    ensures k == MultipartBody <==>
      mimeType == Some("multipart/alternative") ||
      mimeType == Some("multipart/mixed") ||
      mimeType == Some("multipart/related")
  {
    match mimeType
    case None => UnsupportedBody
    case Some(t) =>
      if t == "text/plain" then PlainBody
      else if t == "text/html" then HtmlBody
      else if t == "multipart/alternative" || t == "multipart/mixed" || t == "multipart/related"
      then MultipartBody
      else UnsupportedBody
  }

  /** The content blocks `add_content` appends, in order. */
  function ContentsFor(mail: Message): seq<Content> {
    match BodyKindOf(mail.mimeType)
    case PlainBody => [ToContent(Plain, mail.body)]
    case HtmlBody => [ToContent(Html, mail.body)]
    case MultipartBody =>
      (if mail.textPart.Some? then [ToContent(Plain, mail.textPart.value)] else []) +
      (if mail.htmlPart.Some? then [ToContent(Html, mail.htmlPart.value)] else [])
    case UnsupportedBody => []
  }

  /** The attachment blocks `add_content` appends, in order. */
  function AttachmentsFor(mail: Message): seq<Attachment> {
    if BodyKindOf(mail.mimeType) == MultipartBody then Map(ToAttachment, mail.attachments) else []
  }

  /** `add_content`: appends the message's content blocks and attachments to the payload. */
  method AddContent(m: Mail, mail: Message)
    modifies m
    ensures m.from == old(m.from) && m.replyTo == old(m.replyTo) && m.subject == old(m.subject)
    ensures m.personalizations == old(m.personalizations)
    ensures m.contents == old(m.contents) + ContentsFor(mail)
    ensures m.attachments == old(m.attachments) + AttachmentsFor(mail)
  {
    var kind := BodyKindOf(mail.mimeType);
    if kind == PlainBody {
      m.AddContent(ToContent(Plain, mail.body));
    } else if kind == HtmlBody {
      m.AddContent(ToContent(Html, mail.body));
    } else if kind == MultipartBody {
      if mail.textPart.Some? {
        m.AddContent(ToContent(Plain, mail.textPart.value));
      }
      if mail.htmlPart.Some? {
        m.AddContent(ToContent(Html, mail.htmlPart.value));
      }
      AddAttachments(m, mail.attachments);
    }
  }

  /** The `mail.attachments.each` loop of `add_content`. */
  method AddAttachments(m: Mail, parts: seq<Part>)
    modifies m
    ensures m.from == old(m.from) && m.replyTo == old(m.replyTo) && m.subject == old(m.subject)
    ensures m.personalizations == old(m.personalizations) && m.contents == old(m.contents)
    ensures m.attachments == old(m.attachments) + Map(ToAttachment, parts)
  {
    var i := 0;
    while i < |parts|
      invariant 0 <= i <= |parts|
      invariant m.from == old(m.from) && m.replyTo == old(m.replyTo) && m.subject == old(m.subject)
      invariant m.personalizations == old(m.personalizations) && m.contents == old(m.contents)
      invariant m.attachments == old(m.attachments) + Map(ToAttachment, parts[..i])
    {
      MapAppend(ToAttachment, parts[..i], parts[i]);
      assert parts[..i + 1] == parts[..i] + [parts[i]];
      m.AddAttachment(ToAttachment(parts[i]));
      i := i + 1;
    }
    assert parts[..i] == parts;
  }

  predicate HasBlock(contents: seq<Content>, mimeType: string) {
    exists i :: 0 <= i < |contents| && contents[i].mimeType == mimeType
  }

  /** A text/plain or text/html message gets one block holding its body, and no attachments. */
  lemma SinglePartContent(mail: Message)
    requires BodyKindOf(mail.mimeType) == PlainBody || BodyKindOf(mail.mimeType) == HtmlBody
    ensures |ContentsFor(mail)| == 1
    ensures ContentsFor(mail)[0] == Content(mail.mimeType.value, mail.body)
    ensures AttachmentsFor(mail) == []
  {
  }

  /** Any other top-level MIME type, or none, adds nothing at all. */
  lemma UnsupportedContent(mail: Message)
    requires BodyKindOf(mail.mimeType) == UnsupportedBody
    ensures ContentsFor(mail) == [] && AttachmentsFor(mail) == []
  {
  }

  /**
   * A multipart message: a plain block exactly when there is a text part, an HTML block
   * exactly when there is an HTML part, plain before HTML, and one attachment per part.
   */
  lemma MultipartContent(mail: Message)
    requires BodyKindOf(mail.mimeType) == MultipartBody
    ensures |ContentsFor(mail)| ==
      (if mail.textPart.Some? then 1 else 0) + (if mail.htmlPart.Some? then 1 else 0)
    ensures mail.textPart.Some? && mail.htmlPart.Some? ==>
      ContentsFor(mail) == [Content("text/plain", mail.textPart.value), Content("text/html", mail.htmlPart.value)]
    ensures HasBlock(ContentsFor(mail), "text/plain") <==> mail.textPart.Some?
    ensures HasBlock(ContentsFor(mail), "text/html") <==> mail.htmlPart.Some?
    ensures forall c :: c in ContentsFor(mail) ==>
      (c.mimeType == "text/plain" && mail.textPart == Some(c.value)) ||
      (c.mimeType == "text/html" && mail.htmlPart == Some(c.value))
    ensures forall i, j ::
      0 <= i < |ContentsFor(mail)| && 0 <= j < |ContentsFor(mail)| &&
      ContentsFor(mail)[i].mimeType == "text/plain" && ContentsFor(mail)[j].mimeType == "text/html"
      ==> i < j
    ensures |AttachmentsFor(mail)| == |mail.attachments|
    ensures forall i :: 0 <= i < |mail.attachments| ==> AttachmentsFor(mail)[i] == ToAttachment(mail.attachments[i])
  {
    var c := ContentsFor(mail);
    var plain := if mail.textPart.Some? then [ToContent(Plain, mail.textPart.value)] else [];
    var html := if mail.htmlPart.Some? then [ToContent(Html, mail.htmlPart.value)] else [];
    assert c == plain + html;
    assert "text/plain" != "text/html" by {
      assert "text/plain"[5] != "text/html"[5];
    }
    if mail.textPart.Some? {
      assert c[0].mimeType == "text/plain";
    }
    if mail.htmlPart.Some? {
      assert c[|c| - 1].mimeType == "text/html";
    }
  }

  // ---------------------------------------------------------------- the response

  /** One entry of the `errors` list of a failure response. */
  datatype ErrorEntry = ErrorEntry(message: Option<string>)

  /** A response body after JSON parsing: the `errors` member, if the body is an object with one. */
  datatype ResponseBody = NotJsonBody | JsonBody(errors: Option<seq<ErrorEntry>>)

  /** What the HTTP client returns: status code (a string, possibly nil) and body. */
  datatype SendResult = SendResult(statusCode: Option<string>, body: ResponseBody)

  /** How `perform_send_request` ends: it returns the result (having warned, maybe) or raises. */
  datatype Outcome = Returned(result: SendResult, warning: Option<string>) | Raised(error: Error)

  /** A status code that is present and starts with '4'. */
  predicate IsClientError(statusCode: Option<string>) {
    statusCode.Some? && "4" <= statusCode.value
  }

  /** `JSON.parse(body).fetch('errors').pop.fetch('message')`. */
  function LastErrorMessage(body: ResponseBody): (r: Result<string, Error>)
    ensures r.Success? <==>
      body.JsonBody? && body.errors.Some? && |body.errors.value| > 0 &&
      body.errors.value[|body.errors.value| - 1].message.Some?
    ensures r.Success? ==> r.value == body.errors.value[|body.errors.value| - 1].message.value
    ensures r.Failure? ==> r.error.MalformedErrorResponse?
  {
    match body
    case NotJsonBody => Failure(MalformedErrorResponse(NotJson))
    case JsonBody(errors) =>
      match errors
      case None => Failure(MalformedErrorResponse(NoErrorsKey))
      case Some(entries) =>
        if entries == [] then Failure(MalformedErrorResponse(NoErrorEntries))
        else
          match entries[|entries| - 1].message
          case None => Failure(MalformedErrorResponse(NoMessageKey))
          case Some(message) => Success(message)
  }

  function FailureText(statusCode: string, message: string): string {
    "Sendgrid delivery failed with " + statusCode + " " + message
  }

  /** The classification part of `perform_send_request`, for the response `result`. */
  function PerformSendRequest(raiseDeliveryErrors: bool, result: SendResult): (o: Outcome)
    ensures o.Returned? ==> o.result == result
  {
    if IsClientError(result.statusCode) then
      match LastErrorMessage(result.body)
      case Failure(e) => Raised(e)
      case Success(message) =>
        var text := FailureText(result.statusCode.value, message);
        if raiseDeliveryErrors then Raised(SendgridDeliveryError(text))
        else Returned(result, Some(text))
    else
      Returned(result, None)
  }

  /** A response is reported as a delivery failure (raised or warned) exactly when it is a 4xx. */
  lemma ClassifiedAsFailure(raiseDeliveryErrors: bool, result: SendResult)
    ensures var o := PerformSendRequest(raiseDeliveryErrors, result);
      (o.Raised? || o.warning.Some?) <==> IsClientError(result.statusCode)
    ensures !IsClientError(result.statusCode) ==>
      PerformSendRequest(raiseDeliveryErrors, result) == Returned(result, None)
  {
  }

  /**
   * On a 4xx with a readable body the failure text names the code and the last error's
   * message; it is raised when raise_delivery_errors is set and only warned otherwise.
   */
  lemma FailureReport(raiseDeliveryErrors: bool, result: SendResult)
    requires IsClientError(result.statusCode) && LastErrorMessage(result.body).Success?
    ensures var text := FailureText(result.statusCode.value, LastErrorMessage(result.body).value);
      var o := PerformSendRequest(raiseDeliveryErrors, result);
      (o.Raised? <==> raiseDeliveryErrors) &&
      (o.Raised? ==> o.error == SendgridDeliveryError(text)) &&
      (o.Returned? ==> o.warning == Some(text))
  {
  }

  /** A 4xx whose body cannot be read raises whatever the flag says. */
  lemma UnreadableFailureRaises(raiseDeliveryErrors: bool, result: SendResult)
    requires IsClientError(result.statusCode) && LastErrorMessage(result.body).Failure?
    ensures PerformSendRequest(raiseDeliveryErrors, result).Raised?
    ensures PerformSendRequest(raiseDeliveryErrors, result).error.MalformedErrorResponse?
  {
  }

  /** A 400 whose last error says "invalid sender", with and without raise_delivery_errors; a 202. */
  lemma ExampleResponses()
    ensures var result := SendResult(Some("400"), JsonBody(Some([ErrorEntry(Some("bad request")),
                                                                 ErrorEntry(Some("invalid sender"))])));
      PerformSendRequest(true, result) ==
        Raised(SendgridDeliveryError("Sendgrid delivery failed with 400 invalid sender")) &&
      PerformSendRequest(false, result) ==
        Returned(result, Some("Sendgrid delivery failed with 400 invalid sender"))
    ensures var result := SendResult(Some("202"), NotJsonBody);
      PerformSendRequest(true, result) == Returned(result, None)
  {
    assert "4" <= "400";
    assert FailureText("400", "invalid sender") == "Sendgrid delivery failed with 400 invalid sender";
    assert !("4" <= "202") by {
      assert "202"[0] != '4';
    }
  }

  // ------------------------------------------------------------------ delivery

  /** The address fields in the order `deliver!` reads them. */
  function AddressFields(mail: Message): seq<AddressField> {
    [mail.from, mail.replyTo, mail.to, mail.cc, mail.bcc]
  }

  /** No address field of the message is of an unknown type. */
  predicate AddressesRecognised(mail: Message) {
    !mail.from.Other? && !mail.replyTo.Other? && !mail.to.Other? && !mail.cc.Other? && !mail.bcc.Other?
  }

  /** The payload `deliver!` builds before the POST, or the error that stops it. */
  function BuildPayload(mail: Message): (r: Result<Payload, Error>)
    ensures r.Success? <==> AddressesRecognised(mail)
    ensures r.Success? ==>
      r.value.from == ToEmail(mail.from).value &&
      r.value.replyTo == ToEmail(mail.replyTo).value &&
      r.value.subject == mail.subject &&
      r.value.personalizations ==
        [Recipients(ToEmails(mail.to).value, ToEmails(mail.cc).value, ToEmails(mail.bcc).value)] &&
      r.value.contents == ContentsFor(mail) &&
      r.value.attachments == AttachmentsFor(mail)
  {
    var from :- ToEmail(mail.from);
    var replyTo :- ToEmail(mail.replyTo);
    var recipients :- PersonalizationOf(mail);
    Success(Payload(from, replyTo, mail.subject, [recipients], ContentsFor(mail), AttachmentsFor(mail)))
  }

  /** Building fails on the first address field, in reading order, whose type is unknown. */
  lemma BuildPayloadFailsOnFirstUnknown(mail: Message)
    requires BuildPayload(mail).Failure?
    ensures exists k ::
      0 <= k < |AddressFields(mail)| && AddressFields(mail)[k].Other? &&
      (forall j :: 0 <= j < k ==> !AddressFields(mail)[j].Other?) &&
      BuildPayload(mail).error == UnknownAddressType(AddressFields(mail)[k].className)
  {
    var fields := AddressFields(mail);
    var k := if mail.from.Other? then 0 else if mail.replyTo.Other? then 1
             else if mail.to.Other? then 2 else if mail.cc.Other? then 3 else 4;
    assert fields[k].Other?;
    assert forall j :: 0 <= j < k ==> !fields[j].Other?;
  }

  /** The first half of `deliver!`: fills a fresh SendGrid Mail from the message. */
  method BuildSendgridMail(mail: Message) returns (r: Result<Payload, Error>)
    ensures r == BuildPayload(mail)
  {
    var m := new Mail();
    var from := ToEmail(mail.from);
    if from.Failure? {
      return Failure(from.error);
    }
    m.from := from.value;
    var replyTo := ToEmail(mail.replyTo);
    if replyTo.Failure? {
      return Failure(replyTo.error);
    }
    m.replyTo := replyTo.value;
    m.subject := mail.subject;
    var recipients := ToPersonalizations(mail);
    if recipients.Failure? {
      return Failure(recipients.error);
    }
    m.AddPersonalization(recipients.value);
    AddContent(m, mail);
    assert m.Value() == Payload(from.value, replyTo.value, mail.subject, [recipients.value],
                                ContentsFor(mail), AttachmentsFor(mail));
    r := Success(m.Value());
  }

  /**
   * `deliver!`: builds the payload, POSTs it (`post` stands for the SendGrid API) and
   * classifies the response. `sent` is the payload that was POSTed, if any.
   */
  method Deliver(dm: DeliveryMethod, mail: Message, post: Payload -> SendResult)
    returns (o: Outcome, sent: Option<Payload>)
    ensures BuildPayload(mail).Failure? ==> o == Raised(BuildPayload(mail).error) && sent == None
    ensures BuildPayload(mail).Success? ==>
      sent == Some(BuildPayload(mail).value) &&
      o == PerformSendRequest(dm.raiseDeliveryErrors, post(BuildPayload(mail).value))
  {
    var payload := BuildSendgridMail(mail);
    if payload.Failure? {
      return Raised(payload.error), None;
    }
    sent := Some(payload.value);
    o := PerformSendRequest(dm.raiseDeliveryErrors, post(payload.value));
  }
}
