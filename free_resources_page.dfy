/**
 * The free-resources page: a newsletter gate in front of a list of guides.
 * Subscribing once stores a flag in the browser's local storage, which
 * unlocks the page on later visits; once unlocked, the guides can be
 * filtered by tag.
 */
module FreeResources {
  import opened Wrappers
  import opened Text
  import opened Forms

  datatype Guide = Guide(id: string, title: string, tags: seq<string>)

  const Guides: seq<Guide> := [
    Guide("advertising-guide", "Complete Advertising Guide", ["Marketing", "Paid Ads", "Growth"]),
    Guide("conversion-psychology", "The Conversion Psychology Playbook",
          ["Website Optimisation", "UX/UI", "Psychology"])
  ]

  const AllFilter := "All"

  // ---------------------------------------------------------------------
  // Tags
  // ---------------------------------------------------------------------

  /** Some guide carries the tag. */
  ghost predicate HasTag(guides: seq<Guide>, t: string) {
    exists g :: 0 <= g < |guides| && t in guides[g].tags
  }

  /** A tag is carried by the first guide or by one of the rest. */
  lemma HasTagCons(guides: seq<Guide>, t: string)
    requires guides != []
    ensures HasTag(guides, t) <==> t in guides[0].tags || HasTag(guides[1..], t)
  {
    if HasTag(guides, t) && t !in guides[0].tags {
      var g :| 0 <= g < |guides| && t in guides[g].tags;
      assert t in guides[1..][g - 1].tags;
    }
    if HasTag(guides[1..], t) {
      var g :| 0 <= g < |guides[1..]| && t in guides[1..][g].tags;
      assert t in guides[g + 1].tags;
    }
  }

  /** `guides.flatMap(guide => guide.tags)`. */
  function FlatTags(guides: seq<Guide>): (r: seq<string>)
    ensures forall t :: t in r <==> HasTag(guides, t)
  {
    if guides == [] then []
    else
      var rest := FlatTags(guides[1..]);
      assert forall t :: t in guides[0].tags + rest <==> HasTag(guides, t) by {
        forall t ensures t in guides[0].tags + rest <==> HasTag(guides, t) {
          HasTagCons(guides, t);
        }
      }
      guides[0].tags + rest
  }

  /** No value is listed twice. */
  predicate Distinct(s: seq<string>) {
    forall i, j :: 0 <= i < j < |s| ==> s[i] != s[j]
  }

  /** `Array.from(new Set(s))`: each value once, where it first occurs. */
  function Dedup(s: seq<string>): (r: seq<string>)
    ensures forall x :: x in r <==> x in s
    ensures Distinct(r)
  {
    if s == [] then []
    else
      var init := Dedup(s[..|s| - 1]);
      assert forall x :: x in s <==> x in s[..|s| - 1] || x == s[|s| - 1] by {
        assert s == s[..|s| - 1] + [s[|s| - 1]];
      }
      if s[|s| - 1] in init then init else init + [s[|s| - 1]]
  }

  /** Position of the first occurrence of `x` in `s`. */
  function FirstIndex(s: seq<string>, x: string): (k: nat)
    requires x in s
    ensures k < |s| && s[k] == x
    ensures forall j :: 0 <= j < k ==> s[j] != x
  {
    if s[0] == x then 0 else 1 + FirstIndex(s[1..], x)
  }

  /** Appending keeps the first occurrence of what was already there. */
  lemma FirstIndexAppend(s: seq<string>, y: string, x: string)
    requires x in s
    ensures FirstIndex(s + [y], x) == FirstIndex(s, x)
  {
    var k, k' := FirstIndex(s, x), FirstIndex(s + [y], x);
    assert (s + [y])[k] == x;
    assert k' <= k;
    assert s[k'] == x;
  }

  /** Something first occurring at the end comes after everything before it. */
  lemma FirstIndexLast(s: seq<string>, y: string)
    requires y !in s
    ensures FirstIndex(s + [y], y) == |s|
  {
    assert forall j :: 0 <= j < |s| ==> (s + [y])[j] == s[j];
  }

  /** The deduplicated tags are in the order of their first occurrence. */
  lemma {:induction false} DedupFirstOccurrenceOrder(s: seq<string>)
    ensures forall i, j :: 0 <= i < j < |Dedup(s)| ==> FirstIndex(s, Dedup(s)[i]) < FirstIndex(s, Dedup(s)[j])
  {
    if s != [] {
      var init, y := s[..|s| - 1], s[|s| - 1];
      assert s == init + [y];
      DedupFirstOccurrenceOrder(init);
      var d := Dedup(init);
      var r := Dedup(s);
      assert r == d || (r == d + [y] && y !in init);
      forall i, j | 0 <= i < j < |r| ensures FirstIndex(s, r[i]) < FirstIndex(s, r[j]) {
        assert r[i] == d[i] && r[i] in init;
        FirstIndexAppend(init, y, r[i]);
        if j < |d| {
          assert r[j] == d[j] && r[j] in init;
          FirstIndexAppend(init, y, r[j]);
          assert FirstIndex(init, d[i]) < FirstIndex(init, d[j]);
        } else {
          assert r[j] == y;
          FirstIndexLast(init, y);
        }
      }
    }
  }

  /** `allTags`: "All", then every guide tag once, in order of first appearance. */
  function AllTags(guides: seq<Guide>): (r: seq<string>)
    ensures |r| >= 1 && r[0] == AllFilter
    ensures forall t :: t in r[1..] <==> HasTag(guides, t)
    ensures Distinct(r[1..])
  {
    var tags := Dedup(FlatTags(guides));
    assert ([AllFilter] + tags)[1..] == tags;
    [AllFilter] + tags
  }

  // ---------------------------------------------------------------------
  // Filtering
  // ---------------------------------------------------------------------

  /** `guides.filter(guide => guide.tags.includes(tag))`. */
  function WithTag(guides: seq<Guide>, tag: string): (r: seq<Guide>)
    ensures |r| <= |guides|
    ensures forall i :: 0 <= i < |r| ==> r[i] in guides && tag in r[i].tags
    ensures forall i :: 0 <= i < |guides| && tag in guides[i].tags ==> guides[i] in r
  {
    if guides == [] then []
    else
      var rest := WithTag(guides[1..], tag);
      assert forall i :: 1 <= i < |guides| ==> guides[i] == guides[1..][i - 1];
      (if tag in guides[0].tags then [guides[0]] else []) + rest
  }

  /** Filtering a list in two parts filters each part: the guides keep their order. */
  lemma {:induction false} WithTagAppend(a: seq<Guide>, b: seq<Guide>, tag: string)
    ensures WithTag(a + b, tag) == WithTag(a, tag) + WithTag(b, tag)
  {
    if a == [] {
      assert a + b == b;
    } else {
      assert (a + b)[0] == a[0];
      assert (a + b)[1..] == a[1..] + b;
      WithTagAppend(a[1..], b, tag);
    }
  }

  /** `filteredGuides`: every guide under "All", else the guides carrying the tag. */
  function FilteredGuides(guides: seq<Guide>, filter: string): (r: seq<Guide>)
    ensures filter == AllFilter ==> r == guides
    ensures filter != AllFilter ==>
      && (forall i :: 0 <= i < |r| ==> r[i] in guides && filter in r[i].tags)
      && (forall i :: 0 <= i < |guides| && filter in guides[i].tags ==> guides[i] in r)
  {
    if filter == AllFilter then guides else WithTag(guides, filter)
  }

  /** Every tag button other than "All" shows at least one guide. */
  lemma EveryTagSelectsAGuide(guides: seq<Guide>, tag: string)
    requires tag in AllTags(guides) && tag != AllFilter
    ensures FilteredGuides(guides, tag) != []
  {
    var all := AllTags(guides);
    var k :| 0 <= k < |all| && all[k] == tag;
    assert all[1..][k - 1] == tag;
    assert HasTag(guides, tag);
    var g :| 0 <= g < |guides| && tag in guides[g].tags;
  }

  /** Tags that are already distinct are kept as they are. */
  lemma {:induction false} DedupDistinct(s: seq<string>)
    requires Distinct(s)
    ensures Dedup(s) == s
  {
    if s != [] {
      var init := s[..|s| - 1];
      assert Distinct(init);
      DedupDistinct(init);
      assert s[|s| - 1] !in init;
      assert s == init + [s[|s| - 1]];
    }
  }

  /** The tags of the page's guides, in order. */
  lemma GuideTagsFlat()
    ensures FlatTags(Guides) == ["Marketing", "Paid Ads", "Growth", "Website Optimisation", "UX/UI", "Psychology"]
  {
    assert Guides[1..][1..] == [];
  }

  /** The page's two guides give "All" and six tags; "UX/UI" picks out the second guide. */
  lemma GuidesTags()
    ensures AllTags(Guides) == ["All", "Marketing", "Paid Ads", "Growth", "Website Optimisation", "UX/UI", "Psychology"]
    ensures FilteredGuides(Guides, "UX/UI") == [Guides[1]]
  {
    var tags := FlatTags(Guides);
    GuideTagsFlat();
    assert Distinct(tags);
    DedupDistinct(tags);
    assert "UX/UI" !in Guides[0].tags && "UX/UI" in Guides[1].tags;
    assert Guides[1..][1..] == [];
    assert WithTag(Guides[1..], "UX/UI") == [Guides[1]];
  }

  // ---------------------------------------------------------------------
  // The page
  // ---------------------------------------------------------------------

  const StorageKey := "verdant_newsletter_subscribed"
  const SendFailed := "Something went wrong. Please try again."
  const ConnectionFailed := "Connection error. Please try again."

  /** The newsletter sign-up sent to the contact endpoint. */
  function NewsletterPayload(email: string, firstName: string): (p: Payload)
    ensures p.Keys == {"firstName", "lastName", "email", "phone", "preferredContact", "helpWith", "message"}
    ensures p["firstName"] == (if firstName != "" then firstName else "Newsletter")
    ensures p["email"] == email && p["lastName"] == "Subscriber"
  {
    map[
      "firstName" := OrDefault(firstName, "Newsletter"),
      "lastName" := "Subscriber",
      "email" := email,
      "phone" := "N/A",
      "preferredContact" := "Email",
      "helpWith" := "Newsletter Subscription",
      "message" := "Subscribed via Resources page gate."]
  }

  /** What the page shows. */
  datatype View = Spinner | Gate | GuideList(guides: seq<Guide>)

  class FreeResourcesPage {
    var activeFilter: string
    var isUnlocked: bool
    var isLoading: bool
    var email: string
    var firstName: string
    var isSubmitting: bool
    var error: string
    /** The browser's local storage, which outlives the page. */
    var storage: map<string, string>

    constructor (storage0: map<string, string>)
      ensures activeFilter == AllFilter && !isUnlocked && isLoading
      ensures email == "" && firstName == "" && !isSubmitting && error == ""
      ensures storage == storage0
    {
      activeFilter, isUnlocked, isLoading := AllFilter, false, true;
      email, firstName, isSubmitting, error := "", "", false, "";
      storage := storage0;
    }

    /** The spinner while loading, then the gate until unlocked, then the filtered guides. */
    function Shown(): (v: View)
      reads this
      ensures v.GuideList? <==> !isLoading && isUnlocked
    {
      if isLoading then Spinner
      else if !isUnlocked then Gate
      else GuideList(FilteredGuides(Guides, activeFilter))
    }

    /** The subscribe button is disabled. */
    predicate SubmitDisabled()
      reads this
    {
      isSubmitting || email == ""
    }

    /** The mount effect: a stored "true" unlocks the page; loading ends either way. */
    method Mount()
      modifies this`isUnlocked, this`isLoading
      ensures !isLoading
      ensures isUnlocked <==> old(isUnlocked) || (StorageKey in storage && storage[StorageKey] == "true")
    {
      var subscribed := if StorageKey in storage then Some(storage[StorageKey]) else None;
      if subscribed == Some("true") {
        isUnlocked := true;
      }
      isLoading := false;
    }

    /** A tag button. */
    method SetFilter(tag: string)
      modifies this`activeFilter
      ensures activeFilter == tag
    {
      activeFilter := tag;
    }

    /** `handleNewsletterSubmit` up to the awaited request. */
    method StartSubmit() returns (request: Payload)
      requires !SubmitDisabled()
      modifies this`error, this`isSubmitting
      ensures error == "" && isSubmitting && SubmitDisabled()
      ensures request == NewsletterPayload(email, firstName)
    {
      error := "";
      isSubmitting := true;
      request := NewsletterPayload(email, firstName);
    }

    /**
     * `handleNewsletterSubmit` after the request: an OK response stores the
     * flag and unlocks; otherwise an error is shown and the page stays as
     * it was.
     */
    method CompleteSubmit(outcome: FetchOutcome)
      modifies this`storage, this`isUnlocked, this`error, this`isSubmitting
      ensures !isSubmitting
      ensures outcome == Ok ==>
        storage == old(storage)[StorageKey := "true"] && isUnlocked && error == old(error)
      ensures outcome != Ok ==> storage == old(storage) && isUnlocked == old(isUnlocked)
      ensures outcome == NotOk ==> error == SendFailed
      ensures outcome == Failed ==> error == ConnectionFailed
    {
      match outcome {
        case Ok =>
          storage := storage[StorageKey := "true"];
          isUnlocked := true;
        case NotOk => error := SendFailed;
        case Failed => error := ConnectionFailed;
      }
      isSubmitting := false;
    }
  }

  /**
   * A visitor subscribes, and comes back later: the new page, reading the
   * same storage, opens on the guides.
   */
  method SubscribeAndReturn(storage0: map<string, string>, email: string) returns (later: FreeResourcesPage)
    requires email != ""
    ensures later.Shown() == GuideList(Guides)
  {
    var page := new FreeResourcesPage(storage0);
    page.Mount();
    page.email := email;
    var request := page.StartSubmit();
    page.CompleteSubmit(Ok);
    later := new FreeResourcesPage(page.storage);
    later.Mount();
  }

  /** A visitor whose sign-up fails, on a browser that never subscribed, still sees the gate. */
  method FailedSubscribeStaysLocked(storage0: map<string, string>, email: string, outcome: FetchOutcome)
    returns (page: FreeResourcesPage)
    requires StorageKey !in storage0 || storage0[StorageKey] != "true"
    requires email != "" && outcome != Ok
    ensures page.Shown() == Gate && page.error != ""
  {
    page := new FreeResourcesPage(storage0);
    page.Mount();
    page.email := email;
    var request := page.StartSubmit();
    page.CompleteSubmit(outcome);
  }
}
