/**
 * The payment webhook: a POST endpoint that checks the payment processor's
 * signature over the raw request body, acknowledges every verified event,
 * and, for a completed checkout session, sends a confirmation to the
 * customer (when the session carries an address) followed by an internal
 * receipt to the team.
 *
 * The collaborators the handler cannot see are parameters (`Services`):
 * the processor's `constructEvent` signature check, `encodeURIComponent`,
 * and the email provider's send. What the handler does to the outside world
 * is returned as a trace of `Effect`s.
 */
module StripeWebhook {
  import opened Wrappers
  import opened Text
  import Decimal

  // ---------------------------------------------------------------------
  // Data
  // ---------------------------------------------------------------------

  const CheckoutSessionCompleted := "checkout.session.completed"
  const PaymentIntentSucceeded := "payment_intent.succeeded"

  /** The fields of a checkout session the handler reads; `None` is JSON `null`. */
  datatype Session = Session(
    id: string,
    customerEmail: Option<string>,
    amountTotal: Option<nat>,
    currency: Option<string>,
    metadata: Option<map<string, string>>)

  /** A verified event: its type and `data.object`, read as a checkout session. */
  datatype Event = Event(eventType: string, session: Session)

  /** An incoming request; `rawBody` is `None` when reading the body stream fails. */
  datatype Request = Request(httpMethod: string, signature: Option<string>, rawBody: Option<seq<bv8>>)

  datatype ResponseBody = Error(message: string) | Received
  datatype Response = Response(status: int, body: ResponseBody)

  const MethodNotAllowed := Response(405, Error("Method Not Allowed"))
  const SignatureRejected := Response(400, Error("Webhook signature verification failed"))
  const Acknowledged := Response(200, Received)
  const ProcessingFailed := Response(500, Error("Webhook processing failed"))

  /** The captions of the internal receipt's lines. */
  datatype Caption =
    | Product | AmountPaid | CustomerEmailAddress | SessionId
    | Name | Business | Phone | Location | Trade | CurrentWebsite | Goals | AdvertisingAddOn

  /** The caption as the receipt prints it. */
  function CaptionText(c: Caption): string {
    match c
    case Product => "Product"
    case AmountPaid => "Amount Paid"
    case CustomerEmailAddress => "Customer Email"
    case SessionId => "Session ID"
    case Name => "Name"
    case Business => "Business"
    case Phone => "Phone"
    case Location => "Location"
    case Trade => "Trade"
    case CurrentWebsite => "Current Website"
    case Goals => "Goals"
    case AdvertisingAddOn => "Advertising Add-on"
  }

  /** One captioned line of the internal receipt ("Business: Acme"). */
  datatype Line = Line(caption: Caption, value: string)

  /** The interpolated content of the two HTML emails; the fixed markup is not modelled. */
  datatype Body =
    | Confirmation(greetingName: string, intakeLink: string)
    | InternalReceipt(orderDetails: seq<Line>, customerInfo: seq<Line>, intakeLink: string)

  datatype Email = Email(from: string, to: string, replyTo: Option<string>, subject: string, body: Body)

  const CustomerSender := "Thalya from Verdant Digital <hello@verdantdigital.com.au>"
  const ReplyAddress := "hello@verdantdigital.com.au"
  const CustomerSubject := "Your Express Build is underway - Next step inside"
  const InternalSender := "Verdant Digital <noreply@verdantdigital.com.au>"
  const TeamAddress := "thalya@verdantlabs.com.au"
  const IntakeBase := "https://www.verdantdigital.com.au/intake?email="

  /**
   * What the handler cannot see. `constructEvent` answers `None` where the
   * processor's library throws; `sendEmail` answers false where the email
   * provider's call throws.
   */
  datatype Services = Services(
    constructEvent: (seq<bv8>, Option<string>) -> Option<Event>,
    encodeURIComponent: string -> string,
    sendEmail: Email -> bool)

  /** The handler's calls to the outside world, in order. */
  datatype Effect = ReadBody | VerifySignature | SendEmail(email: Email)

  // ---------------------------------------------------------------------
  // Receipt contents
  // ---------------------------------------------------------------------

  /** The checkout metadata after the destructuring defaults. */
  datatype Details = Details(
    product: string, name: string, business: string, phone: string, location: string,
    trade: string, currentWebsite: string, goals: string, advertising: string)

  /** A destructured key: its value when the key is there (even when empty), else the default. */
  function Field(m: map<string, string>, key: string, default: string): (v: string)
    ensures key in m ==> v == m[key]
    ensures key !in m ==> v == default
  {
    if key in m then m[key] else default
  }

  /** `const { product = 'Express Build Setup', name = '', …, advertising = 'false' } = metadata || {}`. */
  function ReadDetails(metadata: Option<map<string, string>>): (d: Details)
    ensures metadata.None? ==> d == Details("Express Build Setup", "", "", "", "", "", "", "", "false")
    ensures metadata.Some? ==> d == Details(
      Field(metadata.value, "product", "Express Build Setup"), Field(metadata.value, "name", ""),
      Field(metadata.value, "business", ""), Field(metadata.value, "phone", ""),
      Field(metadata.value, "location", ""), Field(metadata.value, "trade", ""),
      Field(metadata.value, "currentWebsite", ""), Field(metadata.value, "goals", ""),
      Field(metadata.value, "advertising", "false"))
  {
    var m := metadata.GetOr(map[]);
    Details(
      Field(m, "product", "Express Build Setup"), Field(m, "name", ""), Field(m, "business", ""),
      Field(m, "phone", ""), Field(m, "location", ""), Field(m, "trade", ""),
      Field(m, "currentWebsite", ""), Field(m, "goals", ""), Field(m, "advertising", "false"))
  }

  /** `name ? name.split(' ')[0] : 'there'`: the greeting name. */
  function FirstName(name: string): (first: string)
    ensures name == "" ==> first == "there"
    ensures name != "" ==> ' ' !in first && |first| <= |name| && first == name[..|first|]
    ensures name != "" && |first| < |name| ==> name[|first|] == ' '
  {
    if Truthy(name) then SplitName(name).0 else "there"
  }

  /**
   * The intake-form link: email and name go through `encodeURIComponent`,
   * the session id is appended as it is.
   */
  function IntakeLink(email: Option<string>, name: string, sessionId: string, encode: string -> string): (link: string)
    ensures |link| >= |IntakeBase| && link[..|IntakeBase|] == IntakeBase
    ensures |link| >= |sessionId| && link[|link| - |sessionId|..] == sessionId
  {
    IntakeBase + encode(email.GetOr("")) + "&name=" + encode(name) + "&session_id=" + sessionId
  }

  /** The values both emails interpolate. */
  datatype Receipt = Receipt(details: Details, amount: string, currency: string, firstName: string, intakeLink: string)

  /**
   * The preparation steps of `sendReceiptEmail` before any send. `None`
   * where `currency.toUpperCase()` throws because the currency is null; a
   * null amount divides as 0.
   */
  function PrepareReceipt(session: Session, encode: string -> string): (r: Option<Receipt>)
    ensures r.None? <==> session.currency.None?
    ensures r.Some? ==> r.value.amount == Decimal.FormatAmount(session.amountTotal.GetOr(0))
    ensures r.Some? ==> r.value.currency == ToUpperCase(session.currency.value)
    ensures r.Some? ==> r.value.details == ReadDetails(session.metadata)
    ensures r.Some? ==> r.value.firstName == FirstName(r.value.details.name)
  {
    match session.currency
    case None => None
    case Some(code) =>
      var details := ReadDetails(session.metadata);
      Some(Receipt(
        details,
        Decimal.FormatAmount(session.amountTotal.GetOr(0)),
        ToUpperCase(code),
        FirstName(details.name),
        IntakeLink(session.customerEmail, details.name, session.id, encode)))
  }

  /** `line ? <p>label: value</p> : ''`. */
  function OptionalLine(caption: Caption, value: string): seq<Line>
  {
    if Truthy(value) then [Line(caption, value)] else []
  }

  /** The captions of the lines shown. */
  function Shown(lines: seq<Line>): set<Caption>
  {
    if lines == [] then {} else {lines[0].caption} + Shown(lines[1..])
  }

  /** A caption is shown exactly when some line carries it. */
  lemma {:induction false} ShownIff(lines: seq<Line>, caption: Caption)
    ensures caption in Shown(lines) <==> exists i :: 0 <= i < |lines| && lines[i].caption == caption
  {
    if lines != [] {
      ShownIff(lines[1..], caption);
      if caption in Shown(lines[1..]) {
        var i :| 0 <= i < |lines[1..]| && lines[1..][i].caption == caption;
        assert lines[i + 1].caption == caption;
      }
      if exists i :: 0 <= i < |lines| && lines[i].caption == caption {
        var i :| 0 <= i < |lines| && lines[i].caption == caption;
        if i > 0 {
          assert lines[1..][i - 1].caption == caption;
        }
      }
    }
  }

  /** The captions shown by two parts of a receipt together. */
  lemma {:induction false} ShownAppend(a: seq<Line>, b: seq<Line>)
    ensures Shown(a + b) == Shown(a) + Shown(b)
  {
    if a != [] {
      assert (a + b)[1..] == a[1..] + b;
      ShownAppend(a[1..], b);
    } else {
      assert a + b == b;
    }
  }

  /** A single line shows its own caption. */
  lemma ShownSingle(line: Line)
    ensures Shown([line]) == {line.caption}
  {
    assert [line][1..] == [];
  }

  /** An optional line shows its caption exactly when its value is non-empty. */
  lemma ShownOptionalLine(caption: Caption, value: string)
    ensures Shown(OptionalLine(caption, value)) == if value != "" then {caption} else {}
  {
    if value != "" {
      ShownSingle(Line(caption, value));
    }
  }

  /** The place of a caption on the receipt, top to bottom. */
  function Position(c: Caption): nat {
    match c
    case Product => 0
    case AmountPaid => 1
    case CustomerEmailAddress => 2
    case SessionId => 3
    case Name => 4
    case Business => 5
    case Phone => 6
    case Location => 7
    case Trade => 8
    case CurrentWebsite => 9
    case Goals => 10
    case AdvertisingAddOn => 11
  }

  /** What a Customer Information caption prints from the details; the Order Details captions print none. */
  function InfoValue(d: Details, c: Caption): Option<string> {
    match c
    case Name => Some(d.name)
    case Business => Some(d.business)
    case Phone => Some(d.phone)
    case Location => Some(d.location)
    case Trade => Some(d.trade)
    case CurrentWebsite => Some(d.currentWebsite)
    case Goals => Some(d.goals)
    case AdvertisingAddOn => Some("Interested")
    case _ => None
  }

  /** Every line carries the value its caption prints from `d`. */
  predicate Carries(d: Details, lines: seq<Line>) {
    forall i :: 0 <= i < |lines| ==> InfoValue(d, lines[i].caption) == Some(lines[i].value)
  }

  /** The lines follow the receipt's order of captions, each caption at most once. */
  predicate InReceiptOrder(lines: seq<Line>) {
    forall i, j :: 0 <= i < j < |lines| ==> Position(lines[i].caption) < Position(lines[j].caption)
  }

  /** Every line's caption sits above place `k`. */
  predicate Above(lines: seq<Line>, k: nat) {
    forall i :: 0 <= i < |lines| ==> Position(lines[i].caption) < k
  }

  /** No line has an empty value. */
  predicate Filled(lines: seq<Line>) {
    forall i :: 0 <= i < |lines| ==> lines[i].value != ""
  }

  /** Appending the next optional line keeps the values and the order. */
  lemma AppendOptional(d: Details, lines: seq<Line>, c: Caption, value: string)
    requires Filled(lines) && Carries(d, lines) && InReceiptOrder(lines) && Above(lines, Position(c))
    requires value == "" || InfoValue(d, c) == Some(value)
    ensures Filled(lines + OptionalLine(c, value)) && Carries(d, lines + OptionalLine(c, value))
    ensures InReceiptOrder(lines + OptionalLine(c, value))
    ensures Above(lines + OptionalLine(c, value), Position(c) + 1)
    ensures |lines| <= |lines + OptionalLine(c, value)|
  {
  }

  /**
   * The Customer Information block of the internal receipt: there only when
   * `name` is non-empty; every line in it has a non-empty value, the one its
   * caption prints, and the lines come in the receipt's order.
   */
  function CustomerInfo(d: Details): (lines: seq<Line>)
    ensures lines == [] <==> d.name == ""
    ensures Filled(lines) && Carries(d, lines) && InReceiptOrder(lines)
  {
    if !Truthy(d.name) then []
    else
      var flag := if d.advertising == "true" then "Interested" else "";
      var l0 := [Line(Name, d.name)];
      var l1 := l0 + OptionalLine(Business, d.business);
      var l2 := l1 + OptionalLine(Phone, d.phone);
      var l3 := l2 + OptionalLine(Location, d.location);
      var l4 := l3 + OptionalLine(Trade, d.trade);
      var l5 := l4 + OptionalLine(CurrentWebsite, d.currentWebsite);
      var l6 := l5 + OptionalLine(Goals, d.goals);
      AppendOptional(d, l0, Business, d.business);
      AppendOptional(d, l1, Phone, d.phone);
      AppendOptional(d, l2, Location, d.location);
      AppendOptional(d, l3, Trade, d.trade);
      AppendOptional(d, l4, CurrentWebsite, d.currentWebsite);
      AppendOptional(d, l5, Goals, d.goals);
      AppendOptional(d, l6, AdvertisingAddOn, flag);
      l6 + OptionalLine(AdvertisingAddOn, flag)
  }

  /** In lines in receipt order, the first caption is not shown again further down. */
  lemma FirstNotRepeated(lines: seq<Line>)
    requires lines != [] && InReceiptOrder(lines)
    ensures Shown(lines[1..]) == Shown(lines) - {lines[0].caption}
  {
    ShownIff(lines[1..], lines[0].caption);
    forall i | 0 <= i < |lines[1..]|
      ensures lines[1..][i].caption != lines[0].caption
    {
      assert Position(lines[0].caption) < Position(lines[i + 1].caption);
    }
  }

  /** Nothing is shown exactly when there are no lines. */
  lemma ShownEmpty(lines: seq<Line>)
    ensures Shown(lines) == {} <==> lines == []
  {
    if lines != [] {
      assert lines[0].caption in Shown(lines);
    }
  }

  /** Two such lists showing the same captions start with the same line. */
  lemma FirstLinesAgree(d: Details, a: seq<Line>, b: seq<Line>)
    requires a != [] && b != []
    requires Carries(d, a) && InReceiptOrder(a)
    requires Carries(d, b) && InReceiptOrder(b)
    requires Shown(a) == Shown(b)
    ensures a[0] == b[0]
  {
    ShownIff(b, a[0].caption);
    ShownIff(a, b[0].caption);
    var j :| 0 <= j < |b| && b[j].caption == a[0].caption;
    var i :| 0 <= i < |a| && a[i].caption == b[0].caption;
    assert Position(b[0].caption) <= Position(b[j].caption);
    assert Position(a[0].caption) <= Position(a[i].caption);
    assert j == 0;
  }

  /**
   * Lines in receipt order that carry the values of `d` are fixed by the
   * captions they show: with CustomerInfoCaptions, this pins the whole
   * Customer Information block down.
   */
  lemma {:induction false} OrderedLinesDetermined(d: Details, a: seq<Line>, b: seq<Line>)
    requires Carries(d, a) && InReceiptOrder(a)
    requires Carries(d, b) && InReceiptOrder(b)
    requires Shown(a) == Shown(b)
    ensures a == b
  {
    if a == [] || b == [] {
      ShownEmpty(a);
      ShownEmpty(b);
    } else {
      FirstLinesAgree(d, a, b);
      FirstNotRepeated(a);
      FirstNotRepeated(b);
      OrderedLinesDetermined(d, a[1..], b[1..]);
      assert a == [a[0]] + a[1..];
      assert b == [b[0]] + b[1..];
    }
  }

  /** The captions the Customer Information block shows, computed part by part. */
  lemma CustomerInfoCaptions(d: Details)
    ensures d.name == "" ==> Shown(CustomerInfo(d)) == {}
    ensures d.name != "" ==>
      Shown(CustomerInfo(d)) == {Name}
      + (if d.business != "" then {Business} else {})
      + (if d.phone != "" then {Phone} else {})
      + (if d.location != "" then {Location} else {})
      + (if d.trade != "" then {Trade} else {})
      + (if d.currentWebsite != "" then {CurrentWebsite} else {})
      + (if d.goals != "" then {Goals} else {})
      + (if d.advertising == "true" then {AdvertisingAddOn} else {})
  {
    if d.name != "" {
      var l0 := [Line(Name, d.name)];
      var l1 := l0 + OptionalLine(Business, d.business);
      var l2 := l1 + OptionalLine(Phone, d.phone);
      var l3 := l2 + OptionalLine(Location, d.location);
      var l4 := l3 + OptionalLine(Trade, d.trade);
      var l5 := l4 + OptionalLine(CurrentWebsite, d.currentWebsite);
      var l6 := l5 + OptionalLine(Goals, d.goals);
      var flag := if d.advertising == "true" then "Interested" else "";
      var ad := OptionalLine(AdvertisingAddOn, flag);
      assert CustomerInfo(d) == l6 + ad;
      ShownSingle(Line(Name, d.name));
      ShownAppend(l0, OptionalLine(Business, d.business));
      ShownOptionalLine(Business, d.business);
      ShownAppend(l1, OptionalLine(Phone, d.phone));
      ShownOptionalLine(Phone, d.phone);
      ShownAppend(l2, OptionalLine(Location, d.location));
      ShownOptionalLine(Location, d.location);
      ShownAppend(l3, OptionalLine(Trade, d.trade));
      ShownOptionalLine(Trade, d.trade);
      ShownAppend(l4, OptionalLine(CurrentWebsite, d.currentWebsite));
      ShownOptionalLine(CurrentWebsite, d.currentWebsite);
      ShownAppend(l5, OptionalLine(Goals, d.goals));
      ShownOptionalLine(Goals, d.goals);
      ShownAppend(l6, ad);
      ShownOptionalLine(AdvertisingAddOn, flag);
    }
  }

  /**
   * Which lines the Customer Information block shows: the whole block hangs
   * on `name`; inside it each line is shown only when its value is
   * non-empty, and the advertising line only when the flag is exactly "true".
   */
  lemma CustomerInfoShows(d: Details)
    ensures Name in Shown(CustomerInfo(d)) <==> d.name != ""
    ensures Business in Shown(CustomerInfo(d)) <==> d.name != "" && d.business != ""
    ensures Phone in Shown(CustomerInfo(d)) <==> d.name != "" && d.phone != ""
    ensures Location in Shown(CustomerInfo(d)) <==> d.name != "" && d.location != ""
    ensures Trade in Shown(CustomerInfo(d)) <==> d.name != "" && d.trade != ""
    ensures CurrentWebsite in Shown(CustomerInfo(d)) <==> d.name != "" && d.currentWebsite != ""
    ensures Goals in Shown(CustomerInfo(d)) <==> d.name != "" && d.goals != ""
    ensures AdvertisingAddOn in Shown(CustomerInfo(d)) <==> d.name != "" && d.advertising == "true"
  {
    CustomerInfoCaptions(d);
  }

  /** A template literal's rendering of a possibly null string. */
  function Interpolate(s: Option<string>): string {
    match s
    case Some(v) => v
    case None => "null"
  }

  /** The confirmation to the customer: from the studio, replies to its inbox, greeting and intake link from the receipt. */
  function CustomerEmail(r: Receipt, to: string): (e: Email)
    ensures e.from == CustomerSender && e.to == to && e.replyTo == Some(ReplyAddress)
    ensures e.subject == CustomerSubject
    ensures e.body.Confirmation? && e.body.greetingName == r.firstName && e.body.intakeLink == r.intakeLink
  {
    Email(CustomerSender, to, Some(ReplyAddress), CustomerSubject, Confirmation(r.firstName, r.intakeLink))
  }

  /**
   * The internal receipt to the team, without a reply address; its subject
   * names the product first and the customer last (the name, or else the
   * session's email as a template literal renders it).
   */
  function InternalEmail(session: Session, r: Receipt): (e: Email)
    ensures e.from == InternalSender && e.to == TeamAddress && e.replyTo.None?
    ensures "\U{1F4B0} New Payment - " + r.details.product <= e.subject
    ensures var who := if r.details.name != "" then r.details.name else Interpolate(session.customerEmail);
      |who| <= |e.subject| && e.subject[|e.subject| - |who|..] == who
    ensures e.body.InternalReceipt? && e.body.customerInfo == CustomerInfo(r.details)
    ensures e.body.intakeLink == r.intakeLink
  {
    SubjectFrame("\U{1F4B0} New Payment - ", r.details.product, " - $" + r.amount + " " + r.currency + " - ",
      OrDefault(r.details.name, Interpolate(session.customerEmail)));
    var d := r.details;
    Email(
      InternalSender, TeamAddress, None,
      "\U{1F4B0} New Payment - " + d.product + " - $" + r.amount + " " + r.currency
        + " - " + OrDefault(d.name, Interpolate(session.customerEmail)),
      InternalReceipt(
        [ Line(Product, d.product),
          Line(AmountPaid, "$" + r.amount + " " + r.currency),
          Line(CustomerEmailAddress, OrDefault(session.customerEmail.GetOr(""), "Not provided")),
          Line(SessionId, session.id) ],
        CustomerInfo(d),
        r.intakeLink))
  }

  /** A subject starts with its caption and product and ends with its last piece. */
  lemma SubjectFrame(caption: string, product: string, middle: string, who: string)
    ensures var subject := caption + product + middle + who;
      caption + product <= subject && |who| <= |subject| && subject[|subject| - |who|..] == who
  {
    var subject := caption + product + middle + who;
    assert subject == (caption + product) + middle + who;
    assert subject[..|caption + product|] == caption + product;
  }

  /** The customer's address when `customer_email` is truthy. */
  function CustomerAddress(session: Session): (a: Option<string>)
    ensures a.Some? <==> session.customerEmail.Some? && session.customerEmail.value != ""
    ensures a.Some? ==> a.value == session.customerEmail.value
  {
    match session.customerEmail
    case Some(e) => if Truthy(e) then Some(e) else None
    case None => None
  }

  /**
   * The emails `sendReceiptEmail` means to send, in order, or `None` when it
   * throws before the first send.
   */
  function Plan(session: Session, encode: string -> string): (plan: Option<seq<Email>>)
    ensures plan.None? <==> session.currency.None?
    ensures plan.Some? ==> |plan.value| == (if CustomerAddress(session).Some? then 2 else 1)
    ensures plan.Some? ==> var last := plan.value[|plan.value| - 1];
      last.to == TeamAddress && last.from == InternalSender && last.body.InternalReceipt?
    ensures plan.Some? && CustomerAddress(session).Some? ==>
      plan.value[0].to == CustomerAddress(session).value && plan.value[0].body.Confirmation?
      && plan.value[0].replyTo == Some(ReplyAddress)
  {
    match PrepareReceipt(session, encode)
    case None => None
    case Some(r) =>
      var first := match CustomerAddress(session)
        case Some(to) => [CustomerEmail(r, to)]
        case None => [];
      Some(first + [InternalEmail(session, r)])
  }

  // ---------------------------------------------------------------------
  // Sending in order
  // ---------------------------------------------------------------------

  /**
   * `attempted` is what sending `plan` in order, stopping at the first send
   * that throws, attempts; `ok` says whether every send went through.
   */
  ghost predicate SentUntilFailure(plan: seq<Email>, send: Email -> bool, attempted: seq<Email>, ok: bool)
  {
    && attempted <= plan
    && (forall i :: 0 <= i < |attempted| - 1 ==> send(attempted[i]))
    && (ok <==> attempted == plan && forall i :: 0 <= i < |attempted| ==> send(attempted[i]))
    && (!ok ==> attempted != [] && !send(attempted[|attempted| - 1]))
  }

  /** The sends attempted, and their verdict, are determined by the plan and the provider. */
  lemma SentUntilFailureUnique(plan: seq<Email>, send: Email -> bool,
                               a: seq<Email>, okA: bool, b: seq<Email>, okB: bool)
    requires SentUntilFailure(plan, send, a, okA)
    requires SentUntilFailure(plan, send, b, okB)
    ensures a == b && okA == okB
  {
    assert a == plan[..|a|] && b == plan[..|b|];
  }

  /**
   * `sendReceiptEmail`: the customer confirmation first, and only when the
   * session has an address; then the internal receipt. A send that throws
   * is rethrown, so nothing after it is attempted; `ok` is false where the
   * function throws.
   */
  method SendReceiptEmail(session: Session, services: Services) returns (attempted: seq<Email>, ok: bool)
    ensures Plan(session, services.encodeURIComponent).None? ==> attempted == [] && !ok
    ensures Plan(session, services.encodeURIComponent).Some? ==>
      SentUntilFailure(Plan(session, services.encodeURIComponent).value, services.sendEmail, attempted, ok)
  {
    var receipt := PrepareReceipt(session, services.encodeURIComponent);
    if receipt.None? {
      return [], false;
    }
    var r := receipt.value;
    attempted := [];
    var to := CustomerAddress(session);
    if to.Some? {
      var confirmation := CustomerEmail(r, to.value);
      attempted := attempted + [confirmation];
      if !services.sendEmail(confirmation) {
        return attempted, false;
      }
    }
    var internal := InternalEmail(session, r);
    attempted := attempted + [internal];
    ok := services.sendEmail(internal);
  }

  // ---------------------------------------------------------------------
  // The handler
  // ---------------------------------------------------------------------

  /** The emails sent in a trace, in order. */
  function EmailsSent(trace: seq<Effect>): seq<Email>
  {
    if trace == [] then []
    else EmailsSent(trace[..|trace| - 1]) + (if trace[|trace| - 1].SendEmail? then [trace[|trace| - 1].email] else [])
  }

  /** One `SendEmail` effect per email, in order. */
  function SendEffects(emails: seq<Email>): (trace: seq<Effect>)
    ensures |trace| == |emails|
    ensures forall i :: 0 <= i < |emails| ==> trace[i] == SendEmail(emails[i])
  {
    seq(|emails|, i requires 0 <= i < |emails| => SendEmail(emails[i]))
  }

  /** Reading the sends back off a trace that verified first recovers the emails. */
  lemma {:induction false} EmailsSentAfterVerify(emails: seq<Email>)
    ensures EmailsSent([ReadBody, VerifySignature] + SendEffects(emails)) == emails
  {
    var trace := [ReadBody, VerifySignature] + SendEffects(emails);
    if emails == [] {
      assert trace == [ReadBody, VerifySignature];
      assert trace[..1] == [ReadBody];
      assert [ReadBody][..0] == [];
    } else {
      var init := emails[..|emails| - 1];
      assert trace[..|trace| - 1] == [ReadBody, VerifySignature] + SendEffects(init);
      EmailsSentAfterVerify(init);
      assert emails == init + [emails[|emails| - 1]];
    }
  }

  /**
   * `handler(req, res)`: the method gate (405), the body and signature gate
   * (400), then the dispatch on the event type, where a thrown send or a
   * null currency becomes 500 and everything else is acknowledged with 200.
   */
  method Handler(req: Request, services: Services) returns (response: Response, trace: seq<Effect>)
    ensures req.httpMethod != "POST" ==> response == MethodNotAllowed && trace == []
    ensures req.httpMethod == "POST" && req.rawBody.None? ==>
      response == SignatureRejected && trace == [ReadBody]
    ensures req.httpMethod == "POST" && req.rawBody.Some? ==>
      |trace| >= 2 && trace[..2] == [ReadBody, VerifySignature]
    ensures req.httpMethod == "POST" && req.rawBody.Some?
            && services.constructEvent(req.rawBody.value, req.signature).None? ==>
      response == SignatureRejected && trace == [ReadBody, VerifySignature]
    ensures req.httpMethod == "POST" && req.rawBody.Some?
            && services.constructEvent(req.rawBody.value, req.signature).Some?
            && services.constructEvent(req.rawBody.value, req.signature).value.eventType != CheckoutSessionCompleted ==>
      response == Acknowledged && trace == [ReadBody, VerifySignature]
    ensures req.httpMethod == "POST" && req.rawBody.Some?
            && services.constructEvent(req.rawBody.value, req.signature).Some?
            && services.constructEvent(req.rawBody.value, req.signature).value.eventType == CheckoutSessionCompleted ==>
      var session := services.constructEvent(req.rawBody.value, req.signature).value.session;
      && (response == Acknowledged || response == ProcessingFailed)
      && (forall i :: 2 <= i < |trace| ==> trace[i].SendEmail?)
      && match Plan(session, services.encodeURIComponent)
         case None => response == ProcessingFailed && trace == [ReadBody, VerifySignature]
         case Some(plan) =>
           SentUntilFailure(plan, services.sendEmail, EmailsSent(trace), response == Acknowledged)
  {
    if req.httpMethod != "POST" {
      return MethodNotAllowed, [];
    }
    trace := [ReadBody];
    if req.rawBody.None? {
      return SignatureRejected, trace;
    }
    trace := trace + [VerifySignature];
    var event := services.constructEvent(req.rawBody.value, req.signature);
    if event.None? {
      return SignatureRejected, trace;
    }
    if event.value.eventType == CheckoutSessionCompleted {
      var attempted, ok := SendReceiptEmail(event.value.session, services);
      EmailsSentAfterVerify(attempted);
      trace := trace + SendEffects(attempted);
      response := if ok then Acknowledged else ProcessingFailed;
    } else {
      // payment_intent.succeeded and every other type are only logged.
      response := Acknowledged;
    }
  }

  /**
   * Nothing remembers a delivery: the processor redelivering the same
   * request makes the handler do everything again, sends included.
   */
  method Redeliver(req: Request, services: Services)
    returns (first: Response, second: Response, firstTrace: seq<Effect>, secondTrace: seq<Effect>)
    ensures first == second && firstTrace == secondTrace
  {
    first, firstTrace := Handler(req, services);
    second, secondTrace := Handler(req, services);
    if req.httpMethod == "POST" && req.rawBody.Some? {
      var event := services.constructEvent(req.rawBody.value, req.signature);
      if event.Some? && event.value.eventType == CheckoutSessionCompleted {
        var plan := Plan(event.value.session, services.encodeURIComponent);
        if plan.Some? {
          SentUntilFailureUnique(plan.value, services.sendEmail,
                                 EmailsSent(firstTrace), first == Acknowledged,
                                 EmailsSent(secondTrace), second == Acknowledged);
          TraceFromSends(firstTrace);
          TraceFromSends(secondTrace);
        }
      }
    }
  }

  /**
   * A retry after a failed internal receipt: the processor redelivers a
   * completed checkout that carries an address. The first delivery sends
   * the confirmation, fails on the internal receipt and answers 500; the
   * second, with the provider back, sends the confirmation to the customer
   * again before the receipt, and answers 200.
   */
  method RetryResendsConfirmation(req: Request, constructEvent: (seq<bv8>, Option<string>) -> Option<Event>,
                                  encode: string -> string, flakySend: Email -> bool, send: Email -> bool)
    returns (first: Response, second: Response, firstTrace: seq<Effect>, secondTrace: seq<Effect>)
    requires req.httpMethod == "POST" && req.rawBody.Some?
    requires constructEvent(req.rawBody.value, req.signature).Some?
    requires constructEvent(req.rawBody.value, req.signature).value.eventType == CheckoutSessionCompleted
    requires constructEvent(req.rawBody.value, req.signature).value.session.currency.Some?
    requires CustomerAddress(constructEvent(req.rawBody.value, req.signature).value.session).Some?
    requires forall m :: flakySend(m) == !m.body.InternalReceipt?
    requires forall m :: send(m)
    ensures first == ProcessingFailed && second == Acknowledged
    ensures var plan := Plan(constructEvent(req.rawBody.value, req.signature).value.session, encode).value;
      EmailsSent(firstTrace) == plan && EmailsSent(secondTrace) == plan
    ensures |EmailsSent(secondTrace)| == 2 && EmailsSent(secondTrace)[0].body.Confirmation?
  {
    var session := constructEvent(req.rawBody.value, req.signature).value.session;
    var plan := Plan(session, encode).value;
    first, firstTrace := Handler(req, Services(constructEvent, encode, flakySend));
    second, secondTrace := Handler(req, Services(constructEvent, encode, send));
    assert flakySend(plan[0]) && !flakySend(plan[1]);
  }

  /** A trace that verified and then sent `sends`, one effect each. */
  lemma RebuildTrace(trace: seq<Effect>, sends: seq<Email>)
    requires |trace| == |sends| + 2 && trace[..2] == [ReadBody, VerifySignature]
    requires forall i :: 0 <= i < |sends| ==> trace[i + 2] == SendEmail(sends[i])
    ensures trace == [ReadBody, VerifySignature] + SendEffects(sends)
  {
    var rebuilt := [ReadBody, VerifySignature] + SendEffects(sends);
    forall i | 0 <= i < |trace| ensures rebuilt[i] == trace[i] {
      if i < 2 {
        assert trace[i] == trace[..2][i];
      } else {
        assert rebuilt[i] == SendEffects(sends)[i - 2];
      }
    }
  }

  /** The emails of a run of send effects. */
  function SendsOf(effects: seq<Effect>): (sends: seq<Email>)
    requires forall i :: 0 <= i < |effects| ==> effects[i].SendEmail?
    ensures |sends| == |effects|
    ensures forall i :: 0 <= i < |effects| ==> effects[i] == SendEmail(sends[i])
  {
    seq(|effects|, i requires 0 <= i < |effects| => effects[i].email)
  }

  /** Reading the sends back off a trace that was rebuilt from them. */
  lemma SendsRecovered(trace: seq<Effect>, sends: seq<Email>)
    requires trace == [ReadBody, VerifySignature] + SendEffects(sends)
    ensures EmailsSent(trace) == sends
  {
    EmailsSentAfterVerify(sends);
  }

  /** A trace that verified and then only sent is determined by its sends. */
  lemma TraceFromSends(trace: seq<Effect>)
    requires |trace| >= 2 && trace[..2] == [ReadBody, VerifySignature]
    requires forall i :: 2 <= i < |trace| ==> trace[i].SendEmail?
    ensures trace == [ReadBody, VerifySignature] + SendEffects(EmailsSent(trace))
  {
    var tail := trace[2..];
    assert forall i :: 0 <= i < |tail| ==> tail[i] == trace[i + 2];
    var sends := SendsOf(tail);
    RebuildTrace(trace, sends);
    SendsRecovered(trace, sends);
  }

  // ---------------------------------------------------------------------
  // Properties of the receipt
  // ---------------------------------------------------------------------

  /** With only a product in the metadata, the Customer Information block is left out entirely. */
  lemma OnlyProductOmitsCustomerInfo(session: Session, encode: string -> string, product: string)
    requires session.currency.Some?
    requires session.metadata == Some(map["product" := product])
    ensures var plan := Plan(session, encode).value;
      var receipt := plan[|plan| - 1].body;
      receipt.customerInfo == [] && receipt.orderDetails[0] == Line(Product, product)
  {
  }

  /**
   * The Order Details lines of the internal receipt: the product, the
   * amount paid as "$" with the decimal amount and the upper-case
   * currency, the customer's email or "Not provided", and the session id.
   */
  lemma InternalOrderDetails(session: Session, encode: string -> string)
    requires session.currency.Some?
    ensures var plan := Plan(session, encode).value;
      var email := session.customerEmail;
      plan[|plan| - 1].body.orderDetails == [
        Line(Product, ReadDetails(session.metadata).product),
        Line(AmountPaid, "$" + Decimal.FormatAmount(session.amountTotal.GetOr(0)) + " " + ToUpperCase(session.currency.value)),
        Line(CustomerEmailAddress, if email.Some? && email.value != "" then email.value else "Not provided"),
        Line(SessionId, session.id)]
  {
  }

  /** 650000 minor units of "aud" are shown as "$6500.00 AUD". */
  lemma AmountExample(session: Session, encode: string -> string)
    requires session.amountTotal == Some(650000) && session.currency == Some("aud")
    ensures PrepareReceipt(session, encode).value.amount == "6500.00"
    ensures PrepareReceipt(session, encode).value.currency == "AUD"
  {
    Decimal.FormatAmountExample();
  }

  /** "Jane Citizen" is greeted as "Jane"; no name at all as "there". */
  lemma FirstNameExamples()
    ensures FirstName("Jane Citizen") == "Jane"
    ensures FirstName("") == "there"
  {
    var s := "Jane Citizen";
    var first := FirstName(s);
    assert s[4] == ' ' && s[0] != ' ' && s[1] != ' ' && s[2] != ' ' && s[3] != ' ';
    assert forall k :: 0 <= k < |first| ==> first[k] == s[k];
    assert |first| == 4;
    assert first == s[..4];
  }
}
