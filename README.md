# Verdant Digital site: webhook and lead forms, modelled in Dafny

This project models the parts of the Verdant Digital marketing site that
carry logic:

- the Stripe webhook (`api/stripe-webhook.js`). It accepts only `POST`,
  verifies the signature of the raw body, and acknowledges every verified
  event. On `checkout.session.completed` it sends a confirmation email to
  the customer, when there is a customer address, and then an internal
  receipt to the team. It answers 500 when that processing throws.
- the lead-capture components:
  - the three-step workflow-audit modal;
  - the mobile-app technical-discovery modal, with its progress bar;
  - the website enquiry modal;
  - the home page contact section, which other sections can prefill
    through the session storage;
  - the free-resources page, whose guides unlock after a newsletter sign-up
    and can be filtered by tag;
  - the FAQ accordion.

Values become datatypes and pure functions. Each component's React state
becomes a `class` whose methods update its fields. Handlers with logic
(toggles, step changes, submits, resets, the prefill) are methods. A text
input whose `onChange` only copies its value into one state variable is
an assignment to that field, as in `page.email := email`. The workflow
audit's two custom inputs are methods, because they belong to a step.
Each asynchronous submit is split in two methods:

- `StartSubmit` runs up to the awaited `fetch` and returns the request it
  posts;
- `CompleteSubmit(outcome)` runs the rest. The outcome is `Ok` (a 2xx
  response), `NotOk` (another response) or `Failed` (the request or the
  JSON read threw).

Between the two calls the in-flight state (`isSubmitting`) can be seen.
Outside effects enter the model as parameters:

- the Stripe signature check, `encodeURIComponent` and the Resend client
  are the function parameters bundled in `StripeWebhook.Services`;
- the browser's `sessionStorage` and `localStorage` are `map` fields;
- the analytics calls are appended to an event log (`Forms.TrackEvent`).

Files, one module each:

- `wrappers.dfy`: `Option`.
- `text.dfy`: JavaScript's string operations on `seq<char>`. These are
  truthiness, `||` defaults, `split`/`join`, `trim`, `includes` and
  `toUpperCase`, together with their algebra.
- `decimal.dfy`: `toFixed(2)` of an amount in minor units, and reading it
  back.
- `forms.dfy`: the request payload type, the fetch outcome and the
  analytics events.
- `stripe_webhook.dfy`: the handler and `sendReceiptEmail`.
- `workflow_audit_modal.dfy`, `technical_discovery_modal.dfy`,
  `website_enquiry_modal.dfy`, `main_contact.dfy`,
  `free_resources_page.dfy` and `faq.dfy`: one component each.

Where the code and the design notes disagree, the model follows the code:

- The internal receipt's Customer Information block depends on `name`
  alone. With no name, it is left out even when the business, phone or
  other fields were given.
- The greeting name is the text before the first single space. A name that
  starts with a space therefore greets with an empty name.
- A metadata default applies only to an absent key. A key that is present
  but empty stays empty. In particular, `advertising` must be exactly
  `"true"` for the add-on line to appear.
- When the customer confirmation throws, the internal receipt is never
  attempted, and the event is answered with 500.
- Toggling a selected pain point or tool twice does not restore the list:
  the id moves to the end. Toggling an unselected one twice does restore
  it. Both cases are stated in `WorkflowAudit.ToggleTwicePresent` and
  `WorkflowAudit.ToggleTwiceAbsent`.

## Model

| member | source | states |
|---|---|---|
| StripeWebhook.Handler | api/stripe-webhook.js:24-76 | A non-POST request is answered 405 and touches nothing. A body that cannot be read or fails verification is answered 400. A verified event of another type is acknowledged with 200 and sends nothing. A completed checkout is answered 200 when every send succeeds and 500 when the receipt cannot be prepared or a send throws; the trace after verification is exactly the emails attempted. |
| StripeWebhook.SendReceiptEmail | api/stripe-webhook.js:78-284 | Without a currency nothing is sent. Otherwise the planned emails are attempted in order up to and including the first that throws: the customer confirmation first, when there is an address, then the internal receipt. `ok` holds exactly when every attempt succeeded. |
| StripeWebhook.Redeliver | api/stripe-webhook.js:24-76 | The same request against the same services gets the same response and the same emails. No idempotency store exists, so a redelivered event sends its emails again. |
| StripeWebhook.RetryResendsConfirmation | api/stripe-webhook.js:258-283 | A completed checkout with a customer address whose internal receipt throws is answered 500 after the confirmation went out. Its redelivery, with the provider back, sends the confirmation again and then the receipt, and is answered 200. |
| StripeWebhook.Plan | api/stripe-webhook.js:258-277 | The emails planned: none without a currency; one or two, by whether there is a non-empty customer email. The confirmation goes to the customer with the reply-to address; the last is always the internal receipt to the team. |
| StripeWebhook.PrepareReceipt | api/stripe-webhook.js:79-102 | Fails exactly when the currency is missing (`toUpperCase` of null throws). Otherwise: the amount is `FormatAmount` of the total (null counts as 0), the currency is upper-cased, the details are the metadata with defaults, and the greeting is derived from the name. |
| StripeWebhook.Field | api/stripe-webhook.js:86-96 | A destructured key takes its value when present (even when empty) and its default only when absent. |
| StripeWebhook.ReadDetails | api/stripe-webhook.js:86-96 | Missing metadata gives every default; otherwise each of the nine keys is read with its own default. |
| StripeWebhook.FirstName | api/stripe-webhook.js:99 | An empty name greets "there". Otherwise the greeting is a space-free prefix of the name, ending at the first space when there is one. |
| StripeWebhook.FirstNameExamples | api/stripe-webhook.js:99 | "Jane Citizen" greets "Jane"; "" greets "there". |
| StripeWebhook.IntakeLink | api/stripe-webhook.js:102 | The link starts with the intake page's address and ends with the session id, appended unencoded. |
| StripeWebhook.CustomerInfo | api/stripe-webhook.js:230-242 | The Customer Information block is empty exactly when the name is empty. Every line carries the field its caption prints (the name under Name, the business under Business, and so on, "Interested" under the advertising add-on), no value is empty, and the captions come in the receipt's order, each at most once. |
| StripeWebhook.OrderedLinesDetermined | api/stripe-webhook.js:233-240 | Two lists of lines in receipt order that carry the values of the same details and show the same captions are equal. With `CustomerInfoCaptions`, the block is fixed line by line. |
| StripeWebhook.CustomerInfoShows | api/stripe-webhook.js:230-242 | Each caption appears exactly when the name is non-empty and its own value is non-empty. The advertising line appears exactly when the value is the string "true". |
| StripeWebhook.CustomerInfoCaptions | api/stripe-webhook.js:230-242 | The set of captions shown is computed from the details: empty with no name, else Name plus each non-empty optional field. |
| StripeWebhook.ShownIff | api/stripe-webhook.js:233-240 | A caption is shown exactly when some line of the block carries it. |
| StripeWebhook.ShownOptionalLine | api/stripe-webhook.js:234-240 | An optional line shows its caption exactly when its value is non-empty. |
| StripeWebhook.CustomerAddress | api/stripe-webhook.js:260-261 | The customer is emailed exactly when `customer_email` is present and non-empty, at that address. |
| StripeWebhook.CustomerEmail | api/stripe-webhook.js:261-267 | The confirmation comes from the studio's sender, goes to the given address with the studio's reply-to and the fixed subject, and carries the receipt's greeting name and intake link. |
| StripeWebhook.InternalEmail | api/stripe-webhook.js:272-277 | The internal receipt goes from the no-reply sender to the team without a reply-to. Its subject starts with the product and ends with the name, or with the session's email when there is no name. It carries the Customer Information block and the intake link. |
| StripeWebhook.InternalOrderDetails | api/stripe-webhook.js:222-227 | The Order Details lines are the product, the amount paid as "$", the two-decimal amount and the upper-case currency, the customer email or "Not provided", and the session id. |
| StripeWebhook.SentUntilFailureUnique | api/stripe-webhook.js:258-283 | The send-until-first-throw outcome is determined by the plan and the mail service. |
| StripeWebhook.EmailsSentAfterVerify | api/stripe-webhook.js:35-75 | The emails read back from a trace of read, verify and sends are the emails sent. |
| StripeWebhook.TraceFromSends | api/stripe-webhook.js:35-75 | A trace that starts with read and verify and then only sends is rebuilt from the emails it sends. |
| StripeWebhook.OnlyProductOmitsCustomerInfo | api/stripe-webhook.js:222-242 | Metadata with only a product gives a receipt without Customer Information whose first order line names that product. |
| StripeWebhook.AmountExample | api/stripe-webhook.js:82-83 | 650000 minor units in "aud" read "6500.00" "AUD". |
| Decimal.FormatAmount | api/stripe-webhook.js:82 | The rendered amount is digits, a point and exactly two digits. |
| Decimal.FormatAmountRoundTrip | api/stripe-webhook.js:82 | Reading the rendered amount back gives the amount in minor units. |
| Decimal.FormatAmountInjective | api/stripe-webhook.js:82 | Different amounts never render alike. |
| Decimal.FormatAmountExample | api/stripe-webhook.js:82 | 650000 renders as "6500.00". |
| Decimal.ParseDecimalString | api/stripe-webhook.js:82 | The decimal digits of a number read back as that number. |
| Text.ToUpperCase | api/stripe-webhook.js:83 | Upper-casing keeps the length, maps lower-case ASCII letters to upper case and leaves every other character alone. |
| Text.SplitName | components/WebsiteEnquiryModal.tsx:91-92 | The first part is the text before the first space (all of it when there is none). When the name has a space, first part, a space and the rest give the name back. |
| Text.JoinSplit | components/WorkflowAuditModal.tsx:112-116 | Splitting a string at a separator and joining the parts with it gives the string back. |
| Text.SplitJoin | components/WorkflowAuditModal.tsx:112-116 | Joining lines free of the separator and splitting again gives the lines back. |
| Text.SplitJoinAll | components/WorkflowAuditModal.tsx:112-116 | Splitting a join gives the lines of each part in turn, whatever line breaks the parts hold. |
| Text.SplitAppendSep | components/WorkflowAuditModal.tsx:112-116 | Splitting two strings joined by the separator gives the parts of the first followed by those of the second. |
| Text.SplitJoinAround | components/TechnicalDiscoveryModal.tsx:121-128 | When only one captioned part may hold separators, splitting the join gives the other parts unchanged, the caption with the value's first line, and the value's further lines after it. |
| Text.TrimEmptyIff | components/WebsiteEnquiryModal.tsx:78-81 | `trim()` is empty exactly when every character is white space. |
| Text.IncludesIff | components/WebsiteEnquiryModal.tsx:30-31 | `includes` holds exactly when the text occurs at some position. |
| Text.OrDefault | components/WebsiteEnquiryModal.tsx:93-101 | `s \|\| fallback` is `s` when non-empty, else the fallback. |
| WorkflowAudit.Toggle | components/WorkflowAuditModal.tsx:70-84 | After a toggle the id is selected exactly when it was not, and every other id is selected as often as before. |
| WorkflowAudit.Remove | components/WorkflowAuditModal.tsx:72-73 | Filtering the id out removes every copy of it and nothing else. |
| WorkflowAudit.ToggleKeepsNoDuplicates | components/WorkflowAuditModal.tsx:70-84 | Toggling never makes a selection hold an id twice. |
| WorkflowAudit.ToggleTwiceAbsent | components/WorkflowAuditModal.tsx:70-84 | Selecting an unselected id appends it; a second toggle restores the selection. |
| WorkflowAudit.ToggleTwicePresent | components/WorkflowAuditModal.tsx:70-84 | Toggling a selected id twice keeps the same ids but moves this one to the end. |
| WorkflowAudit.RemoveAppend | components/WorkflowAuditModal.tsx:72-73 | Filtering distributes over concatenation. |
| WorkflowAudit.RemoveAbsent | components/WorkflowAuditModal.tsx:72-73 | Filtering out an absent id changes nothing. |
| WorkflowAudit.LabelOfUnknown | components/WorkflowAuditModal.tsx:95-102 | An id not in the catalogue is shown as the id itself. |
| WorkflowAudit.LabelOf | components/WorkflowAuditModal.tsx:95-102 | A label is the id itself or the label of a catalogue entry with that id. |
| WorkflowAudit.LabelOfKnown | components/WorkflowAuditModal.tsx:95-102 | The first catalogue entry with the id gives its label. |
| WorkflowAudit.LabelOfEntry | components/WorkflowAuditModal.tsx:10-36 | In a catalogue of distinct ids and non-empty labels, each entry's id maps to its own label. |
| WorkflowAudit.PainPointsWellFormed | components/WorkflowAuditModal.tsx:10-36 | The pain-point catalogue has distinct ids and non-empty labels. |
| WorkflowAudit.CommonToolsWellFormed | components/WorkflowAuditModal.tsx:10-36 | The tool catalogue has distinct ids and non-empty labels. |
| WorkflowAudit.Labels | components/WorkflowAuditModal.tsx:95-103 | One label per selected id, in order, followed by the custom entry when it is non-empty. |
| WorkflowAudit.Bullets | components/WorkflowAuditModal.tsx:113-114 | Every label becomes one bullet line, in order. |
| WorkflowAudit.BulletsNoNewline | components/WorkflowAuditModal.tsx:113-114 | Bullets of labels without line breaks have none. |
| WorkflowAudit.AuditMessageIsJoin | components/WorkflowAuditModal.tsx:112-116 | The message is its lines (heading, bullets, team size, context) joined by line breaks. |
| WorkflowAudit.AuditMessage | components/WorkflowAuditModal.tsx:112-116 | The message opens with the request heading and the tasks heading, and closes with the context heading and the context or "None provided". |
| WorkflowAudit.MessageLinesUnbroken | components/WorkflowAuditModal.tsx:112-116 | With values free of line breaks, no line of the message breaks. |
| WorkflowAudit.AuditMessageLines | components/WorkflowAuditModal.tsx:112-116 | For any values, split into lines the message is: the heading, the lines of every pain-point bullet, the tools heading, the lines of every tool bullet, the team-size line's lines, the context heading and the context's lines. |
| WorkflowAudit.AuditMessageContextLines | components/WorkflowAuditModal.tsx:112-116 | With labels and a team size free of line breaks, the message's lines are its fixed lines followed by the lines of the additional context, typed into a textarea. With a one-line context they are exactly the message's lines. |
| WorkflowAudit.ProceedGivesLabels | components/WorkflowAuditModal.tsx:160-161 | A step whose guard holds (a selection, or a custom text with a character that is not white space) contributes at least one label. |
| WorkflowAudit.CanProceed | components/WorkflowAuditModal.tsx:160-161 | A step (pain points on step 1, tools on step 2) may continue exactly when something is selected or the custom text has a character that is not white space. |
| WorkflowAudit.BlankCustomDoesNotProceed | components/WorkflowAuditModal.tsx:160 | With nothing selected, a custom entry of only white space does not pass the step guard. |
| WorkflowAudit.WorkflowAuditModal.constructor | components/WorkflowAuditModal.tsx:39-55 | The modal starts valid on step 1 with nothing selected, typed or logged. |
| WorkflowAudit.WorkflowAuditModal.CanSubmit | components/WorkflowAuditModal.tsx:162 | Submitting is allowed exactly when first name, email and phone are in the form and non-empty. |
| WorkflowAudit.WorkflowAuditModal.SubmitDisabled | components/WorkflowAuditModal.tsx:484 | An enabled submit button means no request is in flight and the three required fields are present. |
| WorkflowAudit.WorkflowAuditModal.Open | components/WorkflowAuditModal.tsx:57-68 | Opening logs the modal-open event and clears the form-start flag. Nothing else changes, and the modal stays valid. |
| WorkflowAudit.WorkflowAuditModal.TogglePainPoint | components/WorkflowAuditModal.tsx:70-78 | On step 1 the selection is toggled. The form start is logged only on the first interaction. Nothing else changes, and the modal stays valid. |
| WorkflowAudit.WorkflowAuditModal.SetCustomPainPoint | components/WorkflowAuditModal.tsx:255-258 | On step 1 the custom pain point takes the typed text; nothing else changes, and the modal stays valid. |
| WorkflowAudit.WorkflowAuditModal.ToggleTool | components/WorkflowAuditModal.tsx:80-84 | On step 2 the tool selection is toggled; nothing else changes, and the modal stays valid. |
| WorkflowAudit.WorkflowAuditModal.SetCustomTools | components/WorkflowAuditModal.tsx:310-313 | On step 2 the custom tools take the typed text; nothing else changes, and the modal stays valid. |
| WorkflowAudit.WorkflowAuditModal.HandleChange | components/WorkflowAuditModal.tsx:86-88 | From step 2 on (the team-size select, then the contact fields), the named field takes the value, and the modal stays valid. |
| WorkflowAudit.WorkflowAuditModal.Continue | components/WorkflowAuditModal.tsx:266-267 | Continue advances step 1 or 2 only when that step's guard holds. So step 2 is reached only past step 1's guard, step 3 only past both, and the modal stays valid. |
| WorkflowAudit.WorkflowAuditModal.Back | components/WorkflowAuditModal.tsx:341 | Back goes from step 3 to 2 and from 2 to 1, and the modal stays valid. |
| WorkflowAudit.WorkflowAuditModal.StartSubmit | components/WorkflowAuditModal.tsx:90-116 | Only on step 3 of a valid modal with the submit enabled: both label lists are non-empty, the request is the form with the fixed help topic and the compiled message, and the submit is in flight. |
| WorkflowAudit.WorkflowAuditModal.CompleteSubmit | components/WorkflowAuditModal.tsx:122-135 | An OK response logs a successful submit and resets the modal. Any other response logs a failed submit. A thrown request logs nothing. Both of those keep the answers. |
| WorkflowAudit.WorkflowAuditModal.Close | components/WorkflowAuditModal.tsx:137-157 | Closing resets the step, both selections, both custom entries and the form, which leaves the modal valid. |
| WorkflowAudit.FormStartLoggedOnce | components/WorkflowAuditModal.tsx:70-78 | However many toggles follow an open, the form start is logged once. |
| TechnicalDiscovery.Progress | components/TechnicalDiscoveryModal.tsx:32-37 | The progress is 25 times the number of answered parts: project type, platform, timeline, and name with phone together. |
| TechnicalDiscovery.SumQuarters | components/TechnicalDiscoveryModal.tsx:32-37 | The sum of the quarters is 25 times the number answered. |
| TechnicalDiscovery.CountTrueAll | components/TechnicalDiscoveryModal.tsx:32-37 | All quarters are answered exactly when the count is four, and none exactly when it is zero. |
| TechnicalDiscovery.ProgressBounds | components/TechnicalDiscoveryModal.tsx:32-37 | Progress is a multiple of 25 between 0 and 100. It is 100 exactly when all four are answered. |
| TechnicalDiscovery.FreshProgress | components/TechnicalDiscoveryModal.tsx:15-17 | A fresh modal shows 25, because the platform defaults to both. |
| TechnicalDiscovery.FullProgressBlankContact | components/TechnicalDiscoveryModal.tsx:36 | A name and phone of one space reach 100 yet still fail the submit guard, which trims them. |
| TechnicalDiscovery.ChoiceTextsInjective | components/TechnicalDiscoveryModal.tsx:92-125 | Different answers (or no answer) never give the same text. |
| TechnicalDiscovery.DiscoveryMessage | components/TechnicalDiscoveryModal.tsx:121-128 | The message opens with its heading and a blank line and closes with the page it was sent from. |
| TechnicalDiscovery.DiscoveryMessageIsJoin | components/TechnicalDiscoveryModal.tsx:121-128 | The message is its lines joined by line breaks. |
| TechnicalDiscovery.AnswerTextsUnbroken | components/TechnicalDiscoveryModal.tsx:92-125 | No answer text has a line break. |
| TechnicalDiscovery.DiscoveryLinesUnbroken | components/TechnicalDiscoveryModal.tsx:121-128 | Every line of the message except the availability's is free of line breaks. |
| TechnicalDiscovery.DiscoveryMessageLines | components/TechnicalDiscoveryModal.tsx:121-128 | For any availability, split into lines the message is: the heading, a blank line, each answer, the availability caption with the availability's first line, its further lines, a blank line and the footer. With a one-line availability they are exactly the message's lines. |
| TechnicalDiscovery.DiscoveryMessageDeterminesAnswers | components/TechnicalDiscoveryModal.tsx:121-128 | Whatever the availability holds, the message determines the project type, platform and timeline chosen. |
| TechnicalDiscovery.DiscoveryPayloadFields | components/TechnicalDiscoveryModal.tsx:115-129 | The request keeps the name whole across first and last name, posts the phone as typed and the email or "Not provided", asks for a phone call, carries the compiled message and the "mobile-app-discovery" source, and has exactly these seven keys. |
| TechnicalDiscovery.TechnicalDiscoveryModal.constructor | components/TechnicalDiscoveryModal.tsx:15-26 | The modal starts with no answers, the platform defaulted to both, empty fields, no success or error shown and no request in flight. |
| TechnicalDiscovery.TechnicalDiscoveryModal.ChooseProjectType | components/TechnicalDiscoveryModal.tsx:278 | The project type is set and nothing else changes. |
| TechnicalDiscovery.TechnicalDiscoveryModal.ChoosePlatform | components/TechnicalDiscoveryModal.tsx:315 | The platform is set and nothing else changes. |
| TechnicalDiscovery.TechnicalDiscoveryModal.ChooseTimeline | components/TechnicalDiscoveryModal.tsx:342 | The timeline is set, which reveals the contact section. Nothing else changes. |
| TechnicalDiscovery.TechnicalDiscoveryModal.StartSubmit | components/TechnicalDiscoveryModal.tsx:83-131 | A blank name or phone sets the error and sends nothing. Otherwise the error clears and the request is built from the answers. A click on the enabled button always sends. |
| TechnicalDiscovery.TechnicalDiscoveryModal.CompleteSubmit | components/TechnicalDiscoveryModal.tsx:133-142 | Success only on an OK response. Otherwise the error names a failed send or a failed connection. |
| TechnicalDiscovery.TechnicalDiscoveryModal.ResetOnClose | components/TechnicalDiscoveryModal.tsx:66-80 | Closing clears every answer, restores the platform default and clears success and error. |
| WebsiteEnquiry.GetIconByOccurrence | components/WebsiteEnquiryModal.tsx:28-33 | The header icon is the shopping bag whenever "E-Commerce" occurs in the title. It is the server when only "Custom" does, and the building otherwise or with no type. |
| WebsiteEnquiry.GetIcon | components/WebsiteEnquiryModal.tsx:28-33 | No type shows the building. The shopping bag shows exactly when the title includes "E-Commerce"; the server exactly when it includes "Custom" but not "E-Commerce". |
| WebsiteEnquiry.GetIconECommerceFirst | components/WebsiteEnquiryModal.tsx:28-33 | "Custom E-Commerce" shows the shopping bag. |
| WebsiteEnquiry.TitleText | components/WebsiteEnquiryModal.tsx:97 | The title when there is a non-empty one; "General" when there is no type or an empty title. |
| WebsiteEnquiry.BestForText | components/WebsiteEnquiryModal.tsx:99 | The audience when there is a non-empty one; "Not specified" when there is no type or an empty audience. |
| WebsiteEnquiry.EnquiryMessage | components/WebsiteEnquiryModal.tsx:97-104 | The message opens with the website type's title line and a blank line and closes with the page it was sent from. |
| WebsiteEnquiry.EnquiryMessageIsJoin | components/WebsiteEnquiryModal.tsx:97-104 | The message is its lines joined by line breaks. |
| WebsiteEnquiry.EnquiryLinesUnbroken | components/WebsiteEnquiryModal.tsx:97-104 | With values free of line breaks, no line of the message breaks. |
| WebsiteEnquiry.EnquiryMessageLines | components/WebsiteEnquiryModal.tsx:97-104 | For any values, split into lines the message is: the title line's lines, a blank line, the audience line's lines, a blank line, the details heading, the lines of the project details or their placeholder, a blank line and the footer. When no value breaks, they are exactly the message's lines. |
| WebsiteEnquiry.EnquiryPayloadFields | components/WebsiteEnquiryModal.tsx:90-106 | The request keeps the name whole and the phone as typed, gives the email and business or their placeholder, asks for a phone call, carries the compiled message and the "website-enquiry" source, and has exactly these eight keys. |
| WebsiteEnquiry.WebsiteEnquiryModal.constructor | components/WebsiteEnquiryModal.tsx:14-22 | The modal starts with every field empty, no success or error shown and no request in flight. |
| WebsiteEnquiry.WebsiteEnquiryModal.StartSubmit | components/WebsiteEnquiryModal.tsx:77-106 | A blank name or phone sets the error and sends nothing. Otherwise the error clears and the request is built for the website type shown. A click on the enabled button always sends. |
| WebsiteEnquiry.WebsiteEnquiryModal.CompleteSubmit | components/WebsiteEnquiryModal.tsx:109-118 | Success only on an OK response. Otherwise the error names a failed send or a failed connection. |
| WebsiteEnquiry.WebsiteEnquiryModal.ResetOnClose | components/WebsiteEnquiryModal.tsx:63-75 | Closing clears every field, success and error. |
| MainContact.ContactForm.With | components/MainContact.tsx:90 | The named input takes the value and the other seven keep theirs. |
| MainContact.FieldNameInjective | components/MainContact.tsx:6-15 | Different inputs have different names. |
| MainContact.WithOwnValue | components/MainContact.tsx:90 | Writing back a field's own value changes nothing. |
| MainContact.WithTwice | components/MainContact.tsx:90 | A later change to a field overrides an earlier one. |
| MainContact.ToPayload | components/MainContact.tsx:52 | Every input is posted under its name, and no other key is posted. |
| MainContact.ToPayloadInjective | components/MainContact.tsx:52 | The posted JSON determines the form. |
| MainContact.GetItem | components/MainContact.tsx:19-20 | `getItem` is null exactly when the key is missing, else the stored value. |
| MainContact.PrefillStep | components/MainContact.tsx:18-33 | When either stored entry is non-empty, each non-empty one overwrites its field and both entries are removed. Otherwise nothing changes. No other field changes. |
| MainContact.PrefillStepIdempotent | components/MainContact.tsx:18-33 | A second prefill event finds nothing to apply. |
| MainContact.ContactSection.constructor | components/MainContact.tsx:6-40 | The section starts with an empty form, no request in flight, no form start and an empty log, over the given session storage. |
| MainContact.ContactSection.HandlePrefill | components/MainContact.tsx:18-33 | The form and the session storage step as `PrefillStep` says. |
| MainContact.ContactSection.HandleChange | components/MainContact.tsx:84-91 | The field takes the value. The form start is logged only on the first change since the last reset. |
| MainContact.ContactSection.StartSubmit | components/MainContact.tsx:42-53 | Only with every `required` input filled (first and last name, phone, email, contact method) and the button enabled: the whole form is posted, with no required key empty, and the submit is in flight, which disables the button. |
| MainContact.ContactSection.CompleteSubmit | components/MainContact.tsx:57-81 | An OK response logs success and clears the form and the form-start flag. Another response logs failure. A throw logs nothing. Both of those keep the form. |
| MainContact.StartedAgainAfterSuccess | components/MainContact.tsx:57-91 | After the required inputs are filled and the form is sent successfully, the next change logs a new form start: two starts in all. |
| FreeResources.FlatTags | components/FreeResourcesPage.tsx:81 | The flattened tags are exactly the tags some guide has. |
| FreeResources.Dedup | components/FreeResourcesPage.tsx:81 | The deduplicated tags hold the same tags, each once. |
| FreeResources.DedupFirstOccurrenceOrder | components/FreeResourcesPage.tsx:81 | Deduplication keeps tags in the order of their first occurrence, as a `Set` does. |
| FreeResources.DedupDistinct | components/FreeResourcesPage.tsx:81 | Deduplicating distinct tags changes nothing. |
| FreeResources.AllTags | components/FreeResourcesPage.tsx:81 | The filter row is "All" followed by every guide tag, each once. |
| FreeResources.WithTag | components/FreeResourcesPage.tsx:84-86 | The filtered guides are guides from the list carrying the tag, and every guide carrying it is kept. |
| FreeResources.WithTagAppend | components/FreeResourcesPage.tsx:84-86 | Filtering distributes over concatenation, which keeps the list's order. |
| FreeResources.FilteredGuides | components/FreeResourcesPage.tsx:84-86 | "All" shows every guide. Another tag shows the guides carrying it. |
| FreeResources.EveryTagSelectsAGuide | components/FreeResourcesPage.tsx:81-86 | Every tag offered as a filter selects at least one guide. |
| FreeResources.GuidesTags | components/FreeResourcesPage.tsx:57-86 | The page offers All plus the six tags in first-occurrence order, and "UX/UI" selects the second guide. |
| FreeResources.NewsletterPayload | components/FreeResourcesPage.tsx:33-41 | The sign-up posts the email, the first name or "Newsletter", and the fixed last name, under exactly its seven keys. |
| FreeResources.FreeResourcesPage.constructor | components/FreeResourcesPage.tsx:7-13 | The page starts on the "All" filter, locked and loading, with empty fields, over the given local storage. |
| FreeResources.FreeResourcesPage.Shown | components/FreeResourcesPage.tsx:89-98 | The guide list shows exactly when loading is over and the page is unlocked. |
| FreeResources.FreeResourcesPage.Mount | components/FreeResourcesPage.tsx:16-22 | Mounting ends loading. The page unlocks exactly when the stored flag is the string "true". |
| FreeResources.FreeResourcesPage.SetFilter | components/FreeResourcesPage.tsx:84-86 | The active filter is set and nothing else changes. |
| FreeResources.FreeResourcesPage.StartSubmit | components/FreeResourcesPage.tsx:24-41 | Only with the button enabled (an email typed, nothing in flight): the error clears, the sign-up request is built and the button disables. |
| FreeResources.FreeResourcesPage.CompleteSubmit | components/FreeResourcesPage.tsx:43-55 | An OK response stores the flag and unlocks. Otherwise the page stays locked, storage is unchanged and the error names the failure. |
| FreeResources.SubscribeAndReturn | components/FreeResourcesPage.tsx:16-55 | After a successful sign-up with a typed email, a later visit with the same storage shows every guide. |
| FreeResources.FailedSubscribeStaysLocked | components/FreeResourcesPage.tsx:16-55 | On a browser whose stored flag is absent or not "true", a failed sign-up leaves the gate shown with an error. |
| Faq.Toggled | components/Faq.tsx:8-10 | Toggling closes everything exactly when the item was open; otherwise it opens that item alone. |
| Faq.ToggledTwice | components/Faq.tsx:8-10 | Toggling twice restores the accordion unless another item was open; in that case all end closed. |
| Faq.Rendered | components/Faq.tsx:33-37 | An answer is rendered exactly when its index is the open one. |
| Faq.Accordion.constructor | components/Faq.tsx:6 | The first question starts open. |
| Faq.ShownCountRendered | components/Faq.tsx:33-37 | At most one answer is rendered: exactly one when the open index is on the list. |
| Faq.Accordion.Toggle | components/Faq.tsx:8-10 | The item is open exactly when it was not, and no other item is open. |
| Faq.OpenInTurn | components/Faq.tsx:6-10 | Starting with the first open, opening items one after another leaves only the last open. |
| Forms.FormStartsAppend | components/MainContact.tsx:84-91 | The form starts of two logs add up. |

## Left out

- Reading the raw request stream (`getRawBody`) is left out. A body is
  either there or its read failed.
- The HMAC inside `stripe.webhooks.constructEvent` is not modelled. It is
  a function parameter that either returns the event or fails.
- The Resend client and `fetch` are network I/O. A send is a function
  parameter that succeeds or throws; the send result is never inspected.
- The HTML and CSS of both emails are left out. The model keeps their
  recipients, senders, reply-to address, subject lines and the lines of
  the internal receipt.
- The logging calls are left out.
- `encodeURIComponent` is a function parameter: its encoding is not
  modelled.
- Decimal.FormatAmount: takes a non-negative integer number of minor
  units. Floating-point division, negative totals and the "NaN" of a
  missing `amount_total` are not modelled; a missing total counts as 0.
- Text.ToUpperCase: upper-cases ASCII letters only. Unicode case mapping
  is not modelled.
- `setTimeout`, focus, scroll locking, key listeners and `alert` are left
  out. The reset after a modal closes happens at once.
- The analytics service is not part of this model. Its calls are recorded
  as events in a log.
- The success screens' text, the icons, the layout and
  `MobileAppDevelopmentPage.tsx` are presentational and are not part of
  this model.
- `services/stripeService.ts` is not part of this model.
- The webhook keeps no idempotency store, so a redelivered event sends its
  emails again (`StripeWebhook.Redeliver`).
- The browser's format check of `type="email"` inputs is not modelled,
  nor its removal of line breaks and surrounding white space from them:
  any text counts as an email. The `required` inputs of the workflow
  audit and the free resources page ask for the fields their submit
  guards already require. The contact section's `required` inputs
  (components/MainContact.tsx:179-229) are a precondition of its submit.
- Concurrency between a submit in flight and further input events is not
  modelled beyond the observable `isSubmitting` flag.
