/**
 * The enquiry modal of the websites page: opened for one website type (or
 * none), it takes a name, email, phone, business name and project details
 * and posts them to the contact endpoint as one message.
 */
module WebsiteEnquiry {
  import opened Wrappers
  import opened Text
  import opened Forms

  /** The website type the modal was opened for (the `websiteType` prop). */
  datatype WebsiteType = WebsiteType(title: string, bestFor: string)

  /** The icons the modal's header can show. */
  datatype Icon = Building2 | ShoppingBag | Server

  /** `getIcon`: the header icon, looked up by words of the title. */
  function GetIcon(websiteType: Option<WebsiteType>): (r: Icon)
    ensures websiteType.None? ==> r == Building2
    ensures r == ShoppingBag <==> websiteType.Some? && Includes(websiteType.value.title, "E-Commerce")
    ensures r == Server <==> websiteType.Some? && !Includes(websiteType.value.title, "E-Commerce")
                             && Includes(websiteType.value.title, "Custom")
  {
    if websiteType.None? then Building2
    else if Includes(websiteType.value.title, "E-Commerce") then ShoppingBag
    else if Includes(websiteType.value.title, "Custom") then Server
    else Building2
  }

  /**
   * The icon by occurrences in the title: the shopping bag whenever
   * "E-Commerce" occurs (even beside "Custom"), the server when only
   * "Custom" does, the building otherwise and when there is no type.
   */
  lemma GetIconByOccurrence(websiteType: Option<WebsiteType>)
    ensures websiteType.None? ==> GetIcon(websiteType) == Building2
    ensures websiteType.Some? ==>
      var title := websiteType.value.title;
      && (GetIcon(websiteType) == ShoppingBag <==> exists i :: OccursAt("E-Commerce", title, i))
      && (GetIcon(websiteType) == Server <==>
            (!exists i :: OccursAt("E-Commerce", title, i)) && exists i :: OccursAt("Custom", title, i))
      && (GetIcon(websiteType) == Building2 <==>
            (!exists i :: OccursAt("E-Commerce", title, i)) && !exists i :: OccursAt("Custom", title, i))
  {
    if websiteType.Some? {
      IncludesIff(websiteType.value.title, "E-Commerce");
      IncludesIff(websiteType.value.title, "Custom");
    }
  }

  /** A title naming both is an e-commerce site: that test comes first. */
  lemma GetIconECommerceFirst(bestFor: string)
    ensures GetIcon(Some(WebsiteType("Custom E-Commerce", bestFor))) == ShoppingBag
  {
    var title := "Custom E-Commerce";
    var word := "E-Commerce";
    assert title[7..] == word;
    assert OccursAt(word, title, 7);
    IncludesIff(title, word);
  }

  // ---------------------------------------------------------------------
  // The request
  // ---------------------------------------------------------------------

  const MissingContact := "Please enter your name and phone number"
  const SendFailed := "Something went wrong. Please try again."
  const ConnectionFailed := "Connection error. Please try again."
  const NotProvided := "Not provided"
  const Footer := "Submitted from: Websites service page"

  /** `!name.trim() || !phone.trim()`: the submit guard and the disabled button share it. */
  predicate ContactMissing(name: string, phone: string) {
    Trim(name) == "" || Trim(phone) == ""
  }

  /** `websiteType?.title || 'General'`. */
  function TitleText(websiteType: Option<WebsiteType>): (r: string)
    ensures r != ""
    ensures websiteType.Some? && websiteType.value.title != "" ==> r == websiteType.value.title
    ensures websiteType.None? || websiteType.value.title == "" ==> r == "General"
  {
    if websiteType.Some? then OrDefault(websiteType.value.title, "General") else "General"
  }

  /** `websiteType?.bestFor || 'Not specified'`. */
  function BestForText(websiteType: Option<WebsiteType>): (r: string)
    ensures r != ""
    ensures websiteType.Some? && websiteType.value.bestFor != "" ==> r == websiteType.value.bestFor
    ensures websiteType.None? || websiteType.value.bestFor == "" ==> r == "Not specified"
  {
    if websiteType.Some? then OrDefault(websiteType.value.bestFor, "Not specified") else "Not specified"
  }

  /** The message of the request: it opens with the website type and closes with where it came from. */
  function EnquiryMessage(websiteType: Option<WebsiteType>, projectDetails: string): (r: string)
    ensures "Website Enquiry: " + TitleText(websiteType) + "\n\n" <= r
    ensures |Footer| < |r| && r[|r| - |Footer|..] == Footer
  {
    Frame("Website Enquiry: ", TitleText(websiteType), "\n\n", "Best For: " + BestForText(websiteType) + "\n\n"
      + "Project Details:\n" + OrDefault(projectDetails, NotProvided), Footer);
    "Website Enquiry: " + TitleText(websiteType) + "\n\n"
    + "Best For: " + BestForText(websiteType) + "\n\n"
    + "Project Details:\n"
    + OrDefault(projectDetails, NotProvided) + "\n\n"
    + Footer
  }

  /** A concatenation starts with its first three pieces and ends with its last. */
  lemma Frame(a: string, b: string, nn: string, m: string, f: string)
    ensures var r := a + b + nn + m + nn + f;
      && a + b + nn <= r && |f| <= |r| && r[|r| - |f|..] == f
  {
    var r := a + b + nn + m + nn + f;
    assert r == (a + b + nn) + (m + nn) + f;
    assert ((a + b + nn) + (m + nn) + f)[..|a + b + nn|] == a + b + nn;
  }

  /** The lines of the message. */
  function EnquiryLines(websiteType: Option<WebsiteType>, projectDetails: string): seq<string>
  {
    ["Website Enquiry: " + TitleText(websiteType), "",
     "Best For: " + BestForText(websiteType), "",
     "Project Details:",
     OrDefault(projectDetails, NotProvided), "",
     Footer]
  }

  /** Regrouping the message into line, break, rest of the message. */
  lemma RegroupEnquiry(a: string, t: string, nn: string, b: string, bf: string, pd: string, n: string,
                       e: string, d: string, f: string)
    requires nn == n + e + n && pd == "Project Details:" + n
    ensures a + t + nn + b + bf + nn + pd + d + nn + f
         == (a + t) + n + (e + n + ((b + bf) + n + (e + n + ("Project Details:" + n + (d + n + (e + n + f))))))
  {
  }

  /** The message is its lines joined by line breaks. */
  lemma EnquiryMessageIsJoin(websiteType: Option<WebsiteType>, projectDetails: string)
    ensures EnquiryMessage(websiteType, projectDetails) == Join(EnquiryLines(websiteType, projectDetails), '\n')
  {
    var l := EnquiryLines(websiteType, projectDetails);
    JoinFirst(l);
    JoinFirst(l[1..]);
    JoinFirst(l[2..]);
    JoinFirst(l[3..]);
    JoinFirst(l[4..]);
    JoinFirst(l[5..]);
    JoinFirst(l[6..]);
    assert l[1..][1..] == l[2..] && l[2..][1..] == l[3..] && l[3..][1..] == l[4..];
    assert l[4..][1..] == l[5..] && l[5..][1..] == l[6..] && l[6..][1..] == l[7..];
    assert Join(l[7..], '\n') == l[7];
    RegroupEnquiry("Website Enquiry: ", TitleText(websiteType), "\n\n", "Best For: ", BestForText(websiteType),
      "Project Details:\n", "\n", "", OrDefault(projectDetails, NotProvided), Footer);
  }

  /** The fixed text of the message has no line breaks. */
  lemma CaptionsUnbroken()
    ensures '\n' !in "Website Enquiry: " && '\n' !in "Best For: "
    ensures '\n' !in "Project Details:" && '\n' !in Footer
  {
    assert '\n' !in Footer;
  }

  /** No line of the message breaks, as long as none of the values does. */
  lemma EnquiryLinesUnbroken(websiteType: Option<WebsiteType>, projectDetails: string)
    requires websiteType.Some? ==> '\n' !in websiteType.value.title && '\n' !in websiteType.value.bestFor
    requires '\n' !in projectDetails
    ensures var l := EnquiryLines(websiteType, projectDetails);
      forall i :: 0 <= i < |l| ==> '\n' !in l[i]
  {
    CaptionsUnbroken();
    assert '\n' !in TitleText(websiteType) by {
      assert '\n' !in "General";
    }
    assert '\n' !in BestForText(websiteType) by {
      assert '\n' !in "Not specified";
    }
    assert '\n' !in OrDefault(projectDetails, NotProvided) by {
      assert '\n' !in NotProvided;
    }
    UnbrokenConcat("Website Enquiry: ", TitleText(websiteType));
    UnbrokenConcat("Best For: ", BestForText(websiteType));
  }

  /** The lines of an enquiry's parts, part by part. */
  lemma SplitAllEnquiry(title: string, bestFor: string, details: string)
    ensures SplitAll([title, "", bestFor, "", "Project Details:", details, "", Footer], '\n')
         == Split(title, '\n') + [""] + Split(bestFor, '\n') + ["", "Project Details:"]
          + Split(details, '\n') + ["", Footer]
  {
    CaptionsUnbroken();
    var gap, caption, end := [""], ["", "Project Details:"], ["", Footer];
    assert [title, "", bestFor, "", "Project Details:", details, "", Footer]
        == [title] + gap + [bestFor] + caption + [details] + end;
    SplitAllAppend([title] + gap + [bestFor] + caption + [details], end, '\n');
    SplitAllAppend([title] + gap + [bestFor] + caption, [details], '\n');
    SplitAllAppend([title] + gap + [bestFor], caption, '\n');
    SplitAllAppend([title] + gap, [bestFor], '\n');
    SplitAllAppend([title], gap, '\n');
    SplitAllSingle(title, '\n');
    SplitAllSingle(bestFor, '\n');
    SplitAllSingle(details, '\n');
    assert '\n' !in "";
    SplitAllUnbroken(gap, '\n');
    SplitAllUnbroken(caption, '\n');
    SplitAllUnbroken(end, '\n');
  }

  /**
   * Read line by line, the message names the website type, what it is
   * best for and the project details, each or its placeholder, each
   * followed by its own further lines if it has any; when none of them
   * breaks, the lines are exactly `EnquiryLines`.
   */
  lemma EnquiryMessageLines(websiteType: Option<WebsiteType>, projectDetails: string)
    ensures Split(EnquiryMessage(websiteType, projectDetails), '\n')
         == Split("Website Enquiry: " + TitleText(websiteType), '\n') + [""]
          + Split("Best For: " + BestForText(websiteType), '\n') + ["", "Project Details:"]
          + Split(OrDefault(projectDetails, NotProvided), '\n') + ["", Footer]
    ensures (websiteType.Some? ==> '\n' !in websiteType.value.title && '\n' !in websiteType.value.bestFor)
         && '\n' !in projectDetails
      ==> Split(EnquiryMessage(websiteType, projectDetails), '\n') == EnquiryLines(websiteType, projectDetails)
  {
    var l := EnquiryLines(websiteType, projectDetails);
    EnquiryMessageIsJoin(websiteType, projectDetails);
    SplitJoinAll(l, '\n');
    SplitAllEnquiry(l[0], l[2], l[5]);
    if (websiteType.Some? ==> '\n' !in websiteType.value.title && '\n' !in websiteType.value.bestFor)
       && '\n' !in projectDetails {
      EnquiryLinesUnbroken(websiteType, projectDetails);
      SplitJoin(l, '\n');
    }
  }

  /** The JSON object posted to the contact endpoint. */
  function EnquiryPayload(websiteType: Option<WebsiteType>, name: string, email: string, phone: string,
                          businessName: string, projectDetails: string): Payload
  {
    var (first, last) := SplitName(name);
    map[
      "firstName" := first,
      "lastName" := OrDefault(last, ""),
      "email" := OrDefault(email, NotProvided),
      "phone" := phone,
      "preferredContact" := "phone",
      "business" := OrDefault(businessName, NotProvided),
      "message" := EnquiryMessage(websiteType, projectDetails),
      "source" := "website-enquiry"]
  }

  /**
   * The request keeps the name whole (first name, a space and the last
   * name give it back when it has a space), the phone as typed, the email
   * and business name or their placeholder, a phone call as the contact
   * method, the compiled message and the enquiry source.
   */
  lemma EnquiryPayloadFields(websiteType: Option<WebsiteType>, name: string, email: string, phone: string,
                             businessName: string, projectDetails: string)
    ensures var r := EnquiryPayload(websiteType, name, email, phone, businessName, projectDetails);
      && (' ' in name ==> name == r["firstName"] + " " + r["lastName"])
      && (' ' !in name ==> r["firstName"] == name && r["lastName"] == "")
      && r["phone"] == phone
      && r["email"] == (if email != "" then email else NotProvided)
      && r["business"] == (if businessName != "" then businessName else NotProvided)
      && r["preferredContact"] == "phone"
      && r["message"] == EnquiryMessage(websiteType, projectDetails)
      && r["source"] == "website-enquiry"
      && r.Keys == {"firstName", "lastName", "email", "phone", "preferredContact", "business", "message", "source"}
  {
  }

  // ---------------------------------------------------------------------
  // The modal
  // ---------------------------------------------------------------------

  class WebsiteEnquiryModal {
    var name: string
    var email: string
    var phone: string
    var businessName: string
    var projectDetails: string
    var isSubmitting: bool
    var isSuccess: bool
    var error: string

    /** Every field empty, no message. */
    predicate IsReset()
      reads this
    {
      && name == "" && email == "" && phone == "" && businessName == "" && projectDetails == ""
      && !isSuccess && error == ""
    }

    constructor ()
      ensures IsReset() && !isSubmitting
    {
      name, email, phone, businessName, projectDetails := "", "", "", "", "";
      isSubmitting, isSuccess, error := false, false, "";
    }

    /** The submit button is disabled. */
    predicate SubmitDisabled()
      reads this
    {
      isSubmitting || ContactMissing(name, phone)
    }

    /**
     * `handleSubmit` up to the awaited request: a blank name or phone sets
     * the error and sends nothing; otherwise the error is cleared and the
     * request is built for the website type the modal shows.
     */
    method StartSubmit(websiteType: Option<WebsiteType>) returns (request: Option<Payload>)
      modifies this`isSubmitting, this`error
      ensures !old(SubmitDisabled()) ==> request.Some?
      ensures ContactMissing(name, phone) ==>
        request == None && error == MissingContact && isSubmitting == old(isSubmitting)
      ensures !ContactMissing(name, phone) ==>
        && request == Some(EnquiryPayload(websiteType, name, email, phone, businessName, projectDetails))
        && isSubmitting && error == ""
    {
      if Trim(name) == "" || Trim(phone) == "" {
        error := MissingContact;
        return None;
      }
      isSubmitting := true;
      error := "";
      request := Some(EnquiryPayload(websiteType, name, email, phone, businessName, projectDetails));
    }

    /** `handleSubmit` after the request: success only on an OK response. */
    method CompleteSubmit(outcome: FetchOutcome)
      modifies this`isSubmitting, this`isSuccess, this`error
      ensures !isSubmitting
      ensures isSuccess <==> outcome == Ok || old(isSuccess)
      ensures outcome == Ok ==> error == old(error)
      ensures outcome == NotOk ==> error == SendFailed
      ensures outcome == Failed ==> error == ConnectionFailed
    {
      match outcome {
        case Ok => isSuccess := true;
        case NotOk => error := SendFailed;
        case Failed => error := ConnectionFailed;
      }
      isSubmitting := false;
    }

    /** The reset that runs after the modal closes. */
    method ResetOnClose()
      modifies this
      ensures IsReset() && isSubmitting == old(isSubmitting)
    {
      name, email, phone, businessName, projectDetails := "", "", "", "", "";
      isSuccess, error := false, "";
    }
  }
}
