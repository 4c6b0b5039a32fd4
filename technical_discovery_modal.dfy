/**
 * The technical-discovery modal of the mobile-app page: three choice groups
 * (project type, platforms, timeline), each revealed once the previous is
 * answered, then name, phone, email and availability. A progress bar fills
 * by a quarter per answered part.
 */
module TechnicalDiscovery {
  import opened Wrappers
  import opened Text
  import opened Forms

  datatype ProjectType = New | Rebuild | Features
  datatype Platform = Ios | Android | Both
  datatype Timeline = Asap | OneToThreeMonths | ThreeToSixMonths | Flexible

  const NotSpecified := "Not specified"

  function ProjectTypeLabel(p: ProjectType): string {
    match p
    case New => "Build a new app"
    case Rebuild => "Rebuild or redesign existing app"
    case Features => "Add features to current app"
  }

  function PlatformLabel(p: Platform): string {
    match p
    case Ios => "iOS only"
    case Android => "Android only"
    case Both => "iOS & Android"
  }

  function TimelineLabel(t: Timeline): string {
    match t
    case Asap => "ASAP"
    case OneToThreeMonths => "1-3 months"
    case ThreeToSixMonths => "3-6 months"
    case Flexible => "Flexible"
  }

  /** `x ? labels[x] : 'Not specified'` for each of the three choices. */
  function ProjectTypeText(p: Option<ProjectType>): string {
    if p.Some? then ProjectTypeLabel(p.value) else NotSpecified
  }

  function PlatformText(p: Option<Platform>): string {
    if p.Some? then PlatformLabel(p.value) else NotSpecified
  }

  function TimelineText(t: Option<Timeline>): string {
    if t.Some? then TimelineLabel(t.value) else NotSpecified
  }

  /** Every answer has its own text, different from the one for no answer. */
  lemma ChoiceTextsInjective(p1: Option<ProjectType>, p2: Option<ProjectType>,
                             f1: Option<Platform>, f2: Option<Platform>,
                             t1: Option<Timeline>, t2: Option<Timeline>)
    ensures ProjectTypeText(p1) == ProjectTypeText(p2) ==> p1 == p2
    ensures PlatformText(f1) == PlatformText(f2) ==> f1 == f2
    ensures TimelineText(t1) == TimelineText(t2) ==> t1 == t2
  {
  }

  // ---------------------------------------------------------------------
  // Progress
  // ---------------------------------------------------------------------

  /** Which of the four parts are answered; name and phone count as one. */
  function Answered(projectType: Option<ProjectType>, platform: Option<Platform>, timeline: Option<Timeline>,
                    name: string, phone: string): seq<bool>
  {
    [projectType.Some?, platform.Some?, timeline.Some?, Truthy(name) && Truthy(phone)]
  }

  /** `[c ? 25 : 0, …]`. */
  function Quarters(answered: seq<bool>): seq<nat>
  {
    seq(|answered|, i requires 0 <= i < |answered| => if answered[i] then 25 else 0)
  }

  /** `.reduce((a, b) => a + b, 0)`. */
  function Sum(xs: seq<nat>): nat
  {
    if xs == [] then 0 else xs[0] + Sum(xs[1..])
  }

  function CountTrue(bs: seq<bool>): nat
    ensures CountTrue(bs) <= |bs|
  {
    if bs == [] then 0 else (if bs[0] then 1 else 0) + CountTrue(bs[1..])
  }

  /** The sum of the quarters is 25 per answered part. */
  lemma {:induction false} SumQuarters(bs: seq<bool>)
    ensures Sum(Quarters(bs)) == 25 * CountTrue(bs)
  {
    if bs != [] {
      assert Quarters(bs)[1..] == Quarters(bs[1..]);
      SumQuarters(bs[1..]);
    }
  }

  /** All parts are answered exactly when the count is the length. */
  lemma {:induction false} CountTrueAll(bs: seq<bool>)
    ensures CountTrue(bs) == |bs| <==> forall i :: 0 <= i < |bs| ==> bs[i]
    ensures CountTrue(bs) == 0 <==> forall i :: 0 <= i < |bs| ==> !bs[i]
  {
    if bs != [] {
      CountTrueAll(bs[1..]);
      assert forall i :: 1 <= i < |bs| ==> bs[i] == bs[1..][i - 1];
    }
  }

  /** The progress bar, in percent: a quarter per answered part. */
  function Progress(projectType: Option<ProjectType>, platform: Option<Platform>, timeline: Option<Timeline>,
                    name: string, phone: string): (pct: nat)
    ensures pct == 25 * CountTrue(Answered(projectType, platform, timeline, name, phone))
  {
    var answered := Answered(projectType, platform, timeline, name, phone);
    SumQuarters(answered);
    Sum(Quarters(answered))
  }

  /**
   * The bar moves in quarters, is full exactly when all four parts are
   * answered and empty exactly when none is.
   */
  lemma ProgressBounds(projectType: Option<ProjectType>, platform: Option<Platform>, timeline: Option<Timeline>,
                       name: string, phone: string)
    ensures var pct := Progress(projectType, platform, timeline, name, phone);
      && pct % 25 == 0 && pct <= 100
      && (pct == 100 <==> projectType.Some? && platform.Some? && timeline.Some? && name != "" && phone != "")
      && (pct == 0 <==> projectType.None? && platform.None? && timeline.None? && (name == "" || phone == ""))
  {
    var bs := Answered(projectType, platform, timeline, name, phone);
    SumQuarters(bs);
    CountTrueAll(bs);
    assert bs[0] == projectType.Some? && bs[1] == platform.Some? && bs[2] == timeline.Some?;
    assert bs[3] == (name != "" && phone != "");
  }

  /** A fresh modal already shows a quarter, for the default platform. */
  lemma FreshProgress()
    ensures Progress(None, Some(Both), None, "", "") == 25
  {
    ProgressBounds(None, Some(Both), None, "", "");
    SumQuarters(Answered(None, Some(Both), None, "", ""));
  }

  // ---------------------------------------------------------------------
  // The request
  // ---------------------------------------------------------------------

  const MissingContact := "Please enter your name and phone number"
  const SendFailed := "Something went wrong. Please try again."
  const ConnectionFailed := "Connection error. Please try again."

  /** `!name.trim() || !phone.trim()`: the submit guard and the disabled button share it. */
  predicate ContactMissing(name: string, phone: string) {
    Trim(name) == "" || Trim(phone) == ""
  }

  const Heading := "Technical Discovery Request (Mobile App)"
  const Footer := "Submitted from: Mobile App Development page"

  /** A concatenation starts with its first two pieces and ends with its last. */
  lemma Frame(h: string, nn: string, m: string, f: string)
    ensures var r := h + nn + m + nn + f;
      && h + nn <= r && |f| <= |r| && r[|r| - |f|..] == f
  {
    var r := h + nn + m + nn + f;
    assert r == (h + nn) + (m + nn) + f;
    assert ((h + nn) + (m + nn) + f)[..|h + nn|] == h + nn;
  }

  /** The message of the request: it opens with its heading and closes with where it came from. */
  function DiscoveryMessage(projectType: Option<ProjectType>, platform: Option<Platform>,
                            timeline: Option<Timeline>, availability: string): (r: string)
    ensures Heading + "\n\n" <= r
    ensures |Footer| < |r| && r[|r| - |Footer|..] == Footer
  {
    Frame(Heading, "\n\n", "Project Type: " + ProjectTypeText(projectType) + "\n"
      + "Platforms: " + PlatformText(platform) + "\n"
      + "Timeline: " + TimelineText(timeline) + "\n"
      + "Availability: " + OrDefault(availability, NotSpecified), Footer);
    Heading + "\n\n"
    + "Project Type: " + ProjectTypeText(projectType) + "\n"
    + "Platforms: " + PlatformText(platform) + "\n"
    + "Timeline: " + TimelineText(timeline) + "\n"
    + "Availability: " + OrDefault(availability, NotSpecified) + "\n\n"
    + Footer
  }

  /** The lines of the message. */
  function DiscoveryLines(projectType: Option<ProjectType>, platform: Option<Platform>,
                          timeline: Option<Timeline>, availability: string): seq<string>
  {
    [Heading, "",
     "Project Type: " + ProjectTypeText(projectType),
     "Platforms: " + PlatformText(platform),
     "Timeline: " + TimelineText(timeline),
     "Availability: " + OrDefault(availability, NotSpecified), "",
     Footer]
  }

  /** Regrouping the message into line, break, rest of the message. */
  lemma RegroupDiscovery(h: string, nn: string, n: string, e: string, a: string, pt: string, b: string, pl: string,
                         c: string, tl: string, d: string, av: string, f: string)
    requires nn == n + e + n
    ensures h + nn + a + pt + n + b + pl + n + c + tl + n + d + av + nn + f
         == h + n + (e + n + ((a + pt) + n + ((b + pl) + n + ((c + tl) + n + ((d + av) + n + (e + n + f))))))
  {
  }

  /** The message is its lines joined by line breaks. */
  lemma DiscoveryMessageIsJoin(projectType: Option<ProjectType>, platform: Option<Platform>,
                               timeline: Option<Timeline>, availability: string)
    ensures DiscoveryMessage(projectType, platform, timeline, availability)
         == Join(DiscoveryLines(projectType, platform, timeline, availability), '\n')
  {
    var l := DiscoveryLines(projectType, platform, timeline, availability);
    var n := "\n";
    JoinFirst(l);
    JoinFirst(l[1..]);
    JoinFirst(l[2..]);
    JoinFirst(l[3..]);
    JoinFirst(l[4..]);
    JoinFirst(l[5..]);
    JoinFirst(l[6..]);
    assert l[1..][1..] == l[2..] && l[2..][1..] == l[3..] && l[3..][1..] == l[4..];
    assert l[4..][1..] == l[5..] && l[5..][1..] == l[6..] && l[6..][1..] == l[7..];
    assert Join(l[7..], '\n') == l[7];
    RegroupDiscovery(Heading, "\n\n", n, "", "Project Type: ", ProjectTypeText(projectType),
      "Platforms: ", PlatformText(platform), "Timeline: ", TimelineText(timeline),
      "Availability: ", OrDefault(availability, NotSpecified), Footer);
  }

  /** The answers' texts have no line breaks. */
  lemma AnswerTextsUnbroken(projectType: Option<ProjectType>, platform: Option<Platform>, timeline: Option<Timeline>)
    ensures '\n' !in ProjectTypeText(projectType)
    ensures '\n' !in PlatformText(platform)
    ensures '\n' !in TimelineText(timeline)
  {
    assert '\n' !in NotSpecified;
    if projectType.Some? {
      match projectType.value {
        case New => assert '\n' !in "Build a new app";
        case Rebuild => assert '\n' !in "Rebuild or redesign existing app";
        case Features => assert '\n' !in "Add features to current app";
      }
    }
    if timeline.Some? {
      match timeline.value {
        case Asap => assert '\n' !in "ASAP";
        case OneToThreeMonths => assert '\n' !in "1-3 months";
        case ThreeToSixMonths => assert '\n' !in "3-6 months";
        case Flexible => assert '\n' !in "Flexible";
      }
    }
  }

  /** The fixed text around the answers has no line breaks. */
  lemma CaptionsUnbroken()
    ensures '\n' !in Heading && '\n' !in Footer
    ensures '\n' !in "Project Type: " && '\n' !in "Platforms: "
    ensures '\n' !in "Timeline: " && '\n' !in "Availability: "
  {
    assert '\n' !in Heading;
    assert '\n' !in Footer;
  }

  /** No line of the message breaks except, perhaps, the availability typed into the textarea. */
  lemma DiscoveryLinesUnbroken(projectType: Option<ProjectType>, platform: Option<Platform>,
                               timeline: Option<Timeline>, availability: string)
    ensures var l := DiscoveryLines(projectType, platform, timeline, availability);
      forall i :: 0 <= i < |l| && i != 5 ==> '\n' !in l[i]
  {
    AnswerTextsUnbroken(projectType, platform, timeline);
    CaptionsUnbroken();
    UnbrokenConcat("Project Type: ", ProjectTypeText(projectType));
    UnbrokenConcat("Platforms: ", PlatformText(platform));
    UnbrokenConcat("Timeline: ", TimelineText(timeline));
  }

  /**
   * Read line by line, the message lists the three answers and then the
   * availability, whose own lines follow its caption; with an availability
   * of one line the lines are exactly `DiscoveryLines`.
   */
  lemma DiscoveryMessageLines(projectType: Option<ProjectType>, platform: Option<Platform>,
                              timeline: Option<Timeline>, availability: string)
    ensures var l := DiscoveryLines(projectType, platform, timeline, availability);
      var av := Split(OrDefault(availability, NotSpecified), '\n');
      Split(DiscoveryMessage(projectType, platform, timeline, availability), '\n')
        == l[..5] + ["Availability: " + av[0]] + av[1..] + l[6..]
    ensures '\n' !in availability ==>
      Split(DiscoveryMessage(projectType, platform, timeline, availability), '\n')
        == DiscoveryLines(projectType, platform, timeline, availability)
  {
    var l := DiscoveryLines(projectType, platform, timeline, availability);
    DiscoveryLinesUnbroken(projectType, platform, timeline, availability);
    DiscoveryMessageIsJoin(projectType, platform, timeline, availability);
    CaptionsUnbroken();
    assert '\n' !in NotSpecified;
    SplitJoinAround(l, 5, "Availability: ", OrDefault(availability, NotSpecified), '\n');
    if '\n' !in availability {
      AroundUnbroken(l, 5, "Availability: ", OrDefault(availability, NotSpecified), '\n');
    }
  }

  /** The team can read every answer back from the message, whatever the availability holds. */
  lemma DiscoveryMessageDeterminesAnswers(p1: Option<ProjectType>, f1: Option<Platform>, t1: Option<Timeline>, a1: string,
                                          p2: Option<ProjectType>, f2: Option<Platform>, t2: Option<Timeline>, a2: string)
    requires DiscoveryMessage(p1, f1, t1, a1) == DiscoveryMessage(p2, f2, t2, a2)
    ensures p1 == p2 && f1 == f2 && t1 == t2
  {
    DiscoveryMessageLines(p1, f1, t1, a1);
    DiscoveryMessageLines(p2, f2, t2, a2);
    var l1, l2 := DiscoveryLines(p1, f1, t1, a1), DiscoveryLines(p2, f2, t2, a2);
    var v1, v2 := Split(OrDefault(a1, NotSpecified), '\n'), Split(OrDefault(a2, NotSpecified), '\n');
    var m1 := l1[..5] + ["Availability: " + v1[0]] + v1[1..] + l1[6..];
    var m2 := l2[..5] + ["Availability: " + v2[0]] + v2[1..] + l2[6..];
    assert m1 == m2;
    assert m1[2] == l1[2] && m1[3] == l1[3] && m1[4] == l1[4];
    assert m2[2] == l2[2] && m2[3] == l2[3] && m2[4] == l2[4];
    CaptionCancel("Project Type: ", ProjectTypeText(p1), ProjectTypeText(p2));
    CaptionCancel("Platforms: ", PlatformText(f1), PlatformText(f2));
    CaptionCancel("Timeline: ", TimelineText(t1), TimelineText(t2));
    ChoiceTextsInjective(p1, p2, f1, f2, t1, t2);
  }

  /** The JSON object posted to the contact endpoint. */
  function DiscoveryPayload(projectType: Option<ProjectType>, platform: Option<Platform>, timeline: Option<Timeline>,
                            name: string, email: string, phone: string, availability: string): Payload
  {
    var (first, last) := SplitName(name);
    map[
      "firstName" := first,
      "lastName" := OrDefault(last, ""),
      "email" := OrDefault(email, "Not provided"),
      "phone" := phone,
      "preferredContact" := "phone",
      "message" := DiscoveryMessage(projectType, platform, timeline, availability),
      "source" := "mobile-app-discovery"]
  }

  /**
   * The request keeps the name whole (first name, a space and the last
   * name give it back when it has a space), the phone as typed, an email
   * or its placeholder, a phone call as the contact method, the compiled
   * message and the discovery source.
   */
  lemma DiscoveryPayloadFields(projectType: Option<ProjectType>, platform: Option<Platform>, timeline: Option<Timeline>,
                               name: string, email: string, phone: string, availability: string)
    ensures var r := DiscoveryPayload(projectType, platform, timeline, name, email, phone, availability);
      && (' ' in name ==> name == r["firstName"] + " " + r["lastName"])
      && (' ' !in name ==> r["firstName"] == name && r["lastName"] == "")
      && r["phone"] == phone
      && (email != "" ==> r["email"] == email)
      && (email == "" ==> r["email"] == "Not provided")
      && r["preferredContact"] == "phone"
      && r["message"] == DiscoveryMessage(projectType, platform, timeline, availability)
      && r["source"] == "mobile-app-discovery"
      && r.Keys == {"firstName", "lastName", "email", "phone", "preferredContact", "message", "source"}
  {
  }

  // ---------------------------------------------------------------------
  // The modal
  // ---------------------------------------------------------------------

  class TechnicalDiscoveryModal {
    var projectType: Option<ProjectType>
    var platform: Option<Platform>
    var timeline: Option<Timeline>
    var name: string
    var email: string
    var phone: string
    var availability: string
    var isSubmitting: bool
    var isSuccess: bool
    var error: string

    /** Nothing answered except the default platform, no message. */
    predicate IsReset()
      reads this
    {
      && projectType == None && platform == Some(Both) && timeline == None
      && name == "" && email == "" && phone == "" && availability == ""
      && !isSuccess && error == ""
    }

    constructor ()
      ensures IsReset() && !isSubmitting
    {
      projectType, platform, timeline := None, Some(Both), None;
      name, email, phone, availability := "", "", "", "";
      isSubmitting, isSuccess, error := false, false, "";
    }

    function CurrentProgress(): nat
      reads this
    {
      Progress(projectType, platform, timeline, name, phone)
    }

    /** The timeline group is revealed once a project type and a platform are chosen. */
    predicate TimelineShown()
      reads this
    {
      projectType.Some? && platform.Some?
    }

    /** The contact fields are revealed once a timeline is chosen. */
    predicate ContactShown()
      reads this
    {
      timeline.Some?
    }

    /** The submit button is disabled. */
    predicate SubmitDisabled()
      reads this
    {
      isSubmitting || ContactMissing(name, phone)
    }

    method ChooseProjectType(p: ProjectType)
      modifies this`projectType
      ensures projectType == Some(p)
    {
      projectType := Some(p);
    }

    method ChoosePlatform(p: Platform)
      modifies this`platform
      ensures platform == Some(p)
    {
      platform := Some(p);
    }

    method ChooseTimeline(t: Timeline)
      modifies this`timeline
      ensures timeline == Some(t)
    {
      timeline := Some(t);
    }

    /**
     * `handleSubmit` up to the awaited request: a blank name or phone sets
     * the error and sends nothing; otherwise the error is cleared and the
     * request is built.
     */
    method StartSubmit() returns (request: Option<Payload>)
      modifies this`isSubmitting, this`error
      ensures !old(SubmitDisabled()) ==> request.Some?
      ensures ContactMissing(name, phone) ==>
        request == None && error == MissingContact && isSubmitting == old(isSubmitting)
      ensures !ContactMissing(name, phone) ==>
        && request == Some(DiscoveryPayload(projectType, platform, timeline, name, email, phone, availability))
        && isSubmitting && error == ""
    {
      if Trim(name) == "" || Trim(phone) == "" {
        error := MissingContact;
        return None;
      }
      isSubmitting := true;
      error := "";
      request := Some(DiscoveryPayload(projectType, platform, timeline, name, email, phone, availability));
    }

    /** `handleSubmit` after the request. */
    method CompleteSubmit(outcome: FetchOutcome)
      modifies this`isSubmitting, this`isSuccess, this`error
      ensures !isSubmitting
      ensures outcome == Ok ==> isSuccess && error == old(error)
      ensures outcome == NotOk ==> error == SendFailed && isSuccess == old(isSuccess)
      ensures outcome == Failed ==> error == ConnectionFailed && isSuccess == old(isSuccess)
    {
      match outcome {
        case Ok => isSuccess := true;
        case NotOk => error := SendFailed;
        case Failed => error := ConnectionFailed;
      }
      isSubmitting := false;
    }

    /** The reset that runs after the modal closes. */
    method ResetOnClose()
      modifies this
      ensures IsReset() && isSubmitting == old(isSubmitting)
    {
      projectType, platform, timeline := None, Some(Both), None;
      name, email, phone, availability := "", "", "", "";
      isSuccess, error := false, "";
    }
  }

  /**
   * The bar counts a name and phone of spaces as answered, but the submit
   * guard trims them: a full bar does not mean the form can be sent.
   */
  lemma FullProgressBlankContact()
    ensures Progress(Some(New), Some(Both), Some(Asap), " ", " ") == 100
    ensures ContactMissing(" ", " ")
  {
    ProgressBounds(Some(New), Some(Both), Some(Asap), " ", " ");
    assert TrimStart(" ") == "";
  }
}
