/**
 * The contact section of the home page: an eight-field form that other
 * sections can prefill through the session storage, and that is posted
 * whole to the contact endpoint.
 */
module MainContact {
  import opened Wrappers
  import opened Text
  import opened Forms

  /** The form's inputs, by their `name` attribute. */
  datatype Field = FirstName | LastName | Email | Phone | PreferredContact | Business | HelpWith | Message

  /** The `name` attribute of an input, which is also its key in the posted JSON. */
  function FieldName(f: Field): string {
    match f
    case FirstName => "firstName"
    case LastName => "lastName"
    case Email => "email"
    case Phone => "phone"
    case PreferredContact => "preferredContact"
    case Business => "business"
    case HelpWith => "helpWith"
    case Message => "message"
  }

  /** Different inputs have different names. */
  lemma FieldNameInjective(f: Field, g: Field)
    requires FieldName(f) == FieldName(g)
    ensures f == g
  {
  }

  /**
   * The inputs marked `required`: first and last name, phone, email and the
   * contact-method select, whose placeholder option has the empty value.
   */
  predicate Required(f: Field) {
    !(f.Business? || f.HelpWith? || f.Message?)
  }

  /** `formState`. */
  datatype ContactForm = ContactForm(
    firstName: string, lastName: string, email: string, phone: string,
    preferredContact: string, business: string, helpWith: string, message: string)
  {
    /** `formState[name]`. */
    function Get(f: Field): string {
      match f
      case FirstName => firstName
      case LastName => lastName
      case Email => email
      case Phone => phone
      case PreferredContact => preferredContact
      case Business => business
      case HelpWith => helpWith
      case Message => message
    }

    /** The browser's constraint validation lets the form submit: no required input is empty. */
    predicate RequiredFilled() {
      forall f :: Required(f) ==> Get(f) != ""
    }

    /** `{ ...formState, [name]: value }`: the named field takes the value, the other seven keep theirs. */
    function With(f: Field, value: string): (r: ContactForm)
      ensures r.Get(f) == value
      ensures forall g :: g != f ==> r.Get(g) == Get(g)
    {
      match f
      case FirstName => this.(firstName := value)
      case LastName => this.(lastName := value)
      case Email => this.(email := value)
      case Phone => this.(phone := value)
      case PreferredContact => this.(preferredContact := value)
      case Business => this.(business := value)
      case HelpWith => this.(helpWith := value)
      case Message => this.(message := value)
    }
  }

  /** Two forms with the same value in every field are the same form. */
  lemma FormExtensional(a: ContactForm, b: ContactForm)
    requires forall f :: a.Get(f) == b.Get(f)
    ensures a == b
  {
    assert a.Get(FirstName) == b.Get(FirstName) && a.Get(LastName) == b.Get(LastName);
    assert a.Get(Email) == b.Get(Email) && a.Get(Phone) == b.Get(Phone);
    assert a.Get(PreferredContact) == b.Get(PreferredContact) && a.Get(Business) == b.Get(Business);
    assert a.Get(HelpWith) == b.Get(HelpWith) && a.Get(Message) == b.Get(Message);
  }

  /** Writing back the value a field already has changes nothing. */
  lemma WithOwnValue(form: ContactForm, f: Field)
    ensures form.With(f, form.Get(f)) == form
  {
    FormExtensional(form.With(f, form.Get(f)), form);
  }

  /** A later write to the same field overrides an earlier one. */
  lemma WithTwice(form: ContactForm, f: Field, v: string, w: string)
    ensures form.With(f, v).With(f, w) == form.With(f, w)
  {
    FormExtensional(form.With(f, v).With(f, w), form.With(f, w));
  }

  const EmptyForm := ContactForm("", "", "", "", "", "", "", "")

  /** `JSON.stringify(formState)`: every field under its input's name. */
  function ToPayload(form: ContactForm): (p: Payload)
    ensures forall f :: FieldName(f) in p && p[FieldName(f)] == form.Get(f)
    ensures forall k :: k in p ==> exists f :: FieldName(f) == k
  {
    assert FieldName(FirstName) == "firstName" && FieldName(LastName) == "lastName";
    assert FieldName(Email) == "email" && FieldName(Phone) == "phone";
    assert FieldName(PreferredContact) == "preferredContact" && FieldName(Business) == "business";
    assert FieldName(HelpWith) == "helpWith" && FieldName(Message) == "message";
    map[
      "firstName" := form.firstName, "lastName" := form.lastName, "email" := form.email,
      "phone" := form.phone, "preferredContact" := form.preferredContact,
      "business" := form.business, "helpWith" := form.helpWith, "message" := form.message]
  }

  /** The posted JSON determines the form: nothing is lost on the way. */
  lemma ToPayloadInjective(a: ContactForm, b: ContactForm)
    requires ToPayload(a) == ToPayload(b)
    ensures a == b
  {
    forall f ensures a.Get(f) == b.Get(f) {
      assert ToPayload(a)[FieldName(f)] == ToPayload(b)[FieldName(f)];
    }
    FormExtensional(a, b);
  }

  // ---------------------------------------------------------------------
  // Prefill through the session storage
  // ---------------------------------------------------------------------

  const PrefillMessageKey := "prefillMessage"
  const PrefillHelpWithKey := "prefillHelpWith"

  /** `sessionStorage.getItem(key)`: `null` when the key is missing. */
  function GetItem(storage: map<string, string>, key: string): (r: Option<string>)
    ensures r.Some? <==> key in storage
    ensures r.Some? ==> r.value == storage[key]
  {
    if key in storage then Some(storage[key]) else None
  }

  /** A stored string that is there and non-empty (truthy). */
  predicate Present(item: Option<string>) {
    item.Some? && Truthy(item.value)
  }

  /**
   * `handlePrefill`: when either stored entry is non-empty, the message and
   * the help topic take the stored values that are non-empty and keep
   * their own otherwise, and both entries are removed; when neither is,
   * nothing changes.
   */
  function PrefillStep(form: ContactForm, storage: map<string, string>): (r: (ContactForm, map<string, string>))
    ensures var message, helpWith := GetItem(storage, PrefillMessageKey), GetItem(storage, PrefillHelpWithKey);
      && r.0.Get(Message) == (if Present(message) then message.value else form.message)
      && r.0.Get(HelpWith) == (if Present(helpWith) then helpWith.value else form.helpWith)
      && (forall g :: g != Message && g != HelpWith ==> r.0.Get(g) == form.Get(g))
      && (r.1 != storage <==> Present(message) || Present(helpWith))
      && r.1 == (if Present(message) || Present(helpWith) then storage - {PrefillMessageKey, PrefillHelpWithKey} else storage)
  {
    var message := GetItem(storage, PrefillMessageKey);
    var helpWith := GetItem(storage, PrefillHelpWithKey);
    if Present(message) || Present(helpWith) then
      var prefilled := form.(
        message := if Present(message) then message.value else form.message,
        helpWith := if Present(helpWith) then helpWith.value else form.helpWith);
      var cleared := storage - {PrefillMessageKey, PrefillHelpWithKey};
      assert (PrefillMessageKey in storage && PrefillMessageKey !in cleared)
          || (PrefillHelpWithKey in storage && PrefillHelpWithKey !in cleared);
      (prefilled, cleared)
    else (form, storage)
  }

  /** A second prefill event finds nothing left to apply. */
  lemma PrefillStepIdempotent(form: ContactForm, storage: map<string, string>)
    ensures var (f1, s1) := PrefillStep(form, storage);
      PrefillStep(f1, s1) == (f1, s1)
  {
    var (f1, s1) := PrefillStep(form, storage);
    var (f2, s2) := PrefillStep(f1, s1);
    if s1 != storage {
      assert PrefillMessageKey !in s1 && PrefillHelpWithKey !in s1;
    }
    FormExtensional(f2, f1);
  }

  // ---------------------------------------------------------------------
  // The section
  // ---------------------------------------------------------------------

  class ContactSection {
    var form: ContactForm
    var isSubmitting: bool
    var hasStartedForm: bool
    /** The browser's session storage, which the prefill reads and clears. */
    var session: map<string, string>
    var events: seq<TrackEvent>

    constructor (session0: map<string, string>)
      ensures form == EmptyForm && !isSubmitting && !hasStartedForm
      ensures session == session0 && events == []
    {
      form := EmptyForm;
      isSubmitting, hasStartedForm := false, false;
      session := session0;
      events := [];
    }

    /** The submit button is disabled while a request is in flight. */
    predicate SubmitDisabled()
      reads this
    {
      isSubmitting
    }

    /** The `prefillForm` event. */
    method HandlePrefill()
      modifies this`form, this`session
      ensures (form, session) == PrefillStep(old(form), old(session))
    {
      var message := GetItem(session, PrefillMessageKey);
      var helpWith := GetItem(session, PrefillHelpWithKey);
      if Present(message) || Present(helpWith) {
        form := form.(
          message := if Present(message) then message.value else form.message,
          helpWith := if Present(helpWith) then helpWith.value else form.helpWith);
        ghost var stored := session;
        session := session - {PrefillMessageKey};
        session := session - {PrefillHelpWithKey};
        assert session == stored - {PrefillMessageKey, PrefillHelpWithKey};
      }
    }

    /** `handleChange`: the first change since the form was last cleared logs the form start. */
    method HandleChange(f: Field, value: string)
      modifies this`form, this`hasStartedForm, this`events
      ensures form == old(form).With(f, value)
      ensures hasStartedForm
      ensures events == old(events) + (if old(hasStartedForm) then [] else [FormStart("main_contact")])
    {
      if !hasStartedForm {
        events := events + [FormStart("main_contact")];
        hasStartedForm := true;
      }
      form := form.With(f, value);
    }

    /**
     * `handleSubmit` up to the awaited request: the browser fires it only
     * with every required input filled and the button enabled, and the
     * whole form is posted.
     */
    method StartSubmit() returns (request: Payload)
      requires form.RequiredFilled() && !SubmitDisabled()
      modifies this`isSubmitting
      ensures isSubmitting && SubmitDisabled()
      ensures request == ToPayload(form)
      ensures forall f :: Required(f) ==> request[FieldName(f)] != ""
    {
      isSubmitting := true;
      request := ToPayload(form);
    }

    /**
     * `handleSubmit` after the request: an OK response clears every field
     * and the form-start flag; a failed response or a thrown request (the
     * network, or a body that is not JSON) leaves the form as it was.
     */
    method CompleteSubmit(outcome: FetchOutcome)
      modifies this`form, this`hasStartedForm, this`isSubmitting, this`events
      ensures !isSubmitting
      ensures outcome == Ok ==> form == EmptyForm && !hasStartedForm
      ensures outcome != Ok ==> form == old(form) && hasStartedForm == old(hasStartedForm)
      ensures events == old(events) + match outcome
        case Ok => [FormSubmit("main_contact", true)]
        case NotOk => [FormSubmit("main_contact", false)]
        case Failed => []
    {
      match outcome {
        case Ok =>
          events := events + [FormSubmit("main_contact", true)];
          form := EmptyForm;
          hasStartedForm := false;
        case NotOk =>
          events := events + [FormSubmit("main_contact", false)];
        case Failed =>
      }
      isSubmitting := false;
    }
  }

  /** Typing the same non-empty text into every required input of a fresh form fills it. */
  lemma FilledAlike(v: string)
    requires v != ""
    ensures EmptyForm.With(FirstName, v).With(LastName, v).With(Phone, v).With(Email, v)
      .With(PreferredContact, v).RequiredFilled()
  {
  }

  /**
   * A visitor fills in the required inputs, sends the form successfully
   * and starts on a new one: each of the two forms is logged as started
   * once.
   */
  method StartedAgainAfterSuccess(session0: map<string, string>, first: string, f: Field, second: string)
    returns (section: ContactSection)
    requires first != ""
    ensures FormStarts(section.events) == 2
    ensures section.form == EmptyForm.With(f, second)
  {
    section := new ContactSection(session0);
    section.HandleChange(FirstName, first);
    assert section.events == [FormStart("main_contact")];
    section.HandleChange(LastName, first);
    section.HandleChange(Phone, first);
    section.HandleChange(Email, first);
    section.HandleChange(PreferredContact, first);
    assert section.events == [FormStart("main_contact")];
    FilledAlike(first);
    var request := section.StartSubmit();
    section.CompleteSubmit(Ok);
    section.HandleChange(f, second);
    var log := section.events;
    assert log == [FormStart("main_contact"), FormSubmit("main_contact", true), FormStart("main_contact")];
    var started := [FormStart("main_contact")];
    assert FormStarts(started) == 1 by {
      assert started[..0] == [];
    }
    assert FormStarts(started + [FormSubmit("main_contact", true)]) == 1 by {
      assert (started + [FormSubmit("main_contact", true)])[..1] == started;
    }
    assert log[..2] == started + [FormSubmit("main_contact", true)];
  }
}
