/**
 * The AI workflow-audit modal: a three-step form. Step 1 picks pain points
 * from a catalogue (or describes one), step 2 picks tools, step 3 takes the
 * contact details; submitting posts one message that lists the chosen
 * labels as bullets.
 */
module WorkflowAudit {
  import opened Text
  import opened Forms

  // ---------------------------------------------------------------------
  // Toggling a selection
  // ---------------------------------------------------------------------

  /** `prev.filter(p => p !== id)`. */
  function Remove(s: seq<string>, x: string): (r: seq<string>)
    ensures x !in r
    ensures multiset(r) == multiset(s)[x := 0]
  {
    if s == [] then []
    else
      assert s == [s[0]] + s[1..];
      (if s[0] == x then [] else [s[0]]) + Remove(s[1..], x)
  }

  /** Removing from a concatenation removes from each part: the others keep their order. */
  lemma {:induction false} RemoveAppend(a: seq<string>, b: seq<string>, x: string)
    ensures Remove(a + b, x) == Remove(a, x) + Remove(b, x)
  {
    if a == [] {
      assert a + b == b;
    } else {
      assert (a + b)[0] == a[0];
      assert (a + b)[1..] == a[1..] + b;
      RemoveAppend(a[1..], b, x);
    }
  }

  /** Removing an id that is not there changes nothing. */
  lemma {:induction false} RemoveAbsent(s: seq<string>, x: string)
    requires x !in s
    ensures Remove(s, x) == s
  {
    if s != [] {
      assert s[0] != x;
      assert x !in s[1..];
      RemoveAbsent(s[1..], x);
    }
  }

  /** `prev.includes(id) ? prev.filter(p => p !== id) : [...prev, id]`. */
  function Toggle(s: seq<string>, x: string): (r: seq<string>)
    ensures x in r <==> x !in s
    ensures forall y :: y != x ==> multiset(r)[y] == multiset(s)[y]
  {
    if x in s then Remove(s, x) else s + [x]
  }

  /** Each id is selected at most once. */
  ghost predicate NoDuplicates(s: seq<string>) {
    forall y :: multiset(s)[y] <= 1
  }

  /** Toggling keeps a selection free of duplicates. */
  lemma ToggleKeepsNoDuplicates(s: seq<string>, x: string)
    requires NoDuplicates(s)
    ensures NoDuplicates(Toggle(s, x))
  {
    if x !in s {
      assert multiset(s)[x] == 0;
    }
  }

  /** Toggling an absent id appends it; toggling it again gives the list back. */
  lemma ToggleTwiceAbsent(s: seq<string>, x: string)
    requires x !in s
    ensures Toggle(s, x) == s + [x]
    ensures Toggle(Toggle(s, x), x) == s
  {
    RemoveAppend(s, [x], x);
    RemoveAbsent(s, x);
    assert Remove([x], x) == [];
  }

  /**
   * Toggling a selected id removes it; toggling it again puts it back at
   * the end, so the selection is the same set but the id has moved last.
   */
  lemma ToggleTwicePresent(s: seq<string>, x: string)
    requires x in s && NoDuplicates(s)
    ensures Toggle(Toggle(s, x), x) == Remove(s, x) + [x]
    ensures multiset(Toggle(Toggle(s, x), x)) == multiset(s)
  {
    var r := Remove(s, x);
    assert Toggle(r, x) == r + [x];
    assert multiset(r + [x]) == multiset(s)[x := 0] + multiset{x};
    RestoreCount(multiset(s), x);
  }

  /** Zeroing a count of one and adding the element back restores the multiset. */
  lemma RestoreCount(m: multiset<string>, x: string)
    requires m[x] <= 1 && x in m
    ensures m[x := 0] + multiset{x} == m
  {
    assert m[x] == 1;
  }

  // ---------------------------------------------------------------------
  // Labels and the message
  // ---------------------------------------------------------------------

  /** A catalogue entry: the id kept in the selection and the label shown. */
  datatype Choice = Choice(id: string, text: string)

  const PainPoints: seq<Choice> := [
    Choice("data-entry", "Data entry & copying between systems"),
    Choice("repetitive-questions", "Answering the same questions"),
    Choice("report-generation", "Generating reports & summaries"),
    Choice("email-triage", "Email triage & responses"),
    Choice("document-processing", "Processing documents & invoices"),
    Choice("scheduling", "Scheduling & coordination"),
    Choice("content-creation", "Writing content & copy"),
    Choice("research", "Research & information gathering")
  ]

  const CommonTools: seq<Choice> := [
    Choice("slack", "Slack"), Choice("teams", "Teams"),
    Choice("google-workspace", "Google Workspace"), Choice("microsoft-365", "Microsoft 365"),
    Choice("xero", "Xero"), Choice("myob", "MYOB"), Choice("hubspot", "HubSpot"),
    Choice("salesforce", "Salesforce"), Choice("monday", "Monday.com"),
    Choice("notion", "Notion"), Choice("asana", "Asana"), Choice("shopify", "Shopify"),
    Choice("zapier", "Zapier"), Choice("airtable", "Airtable")
  ]

  /** `catalogue.find(c => c.id === id)?.label || id`. */
  function LabelOf(catalogue: seq<Choice>, id: string): (r: string)
    ensures r == id || exists k :: 0 <= k < |catalogue| && catalogue[k].id == id && catalogue[k].text == r
  {
    if catalogue == [] then id
    else if catalogue[0].id == id then OrDefault(catalogue[0].text, id)
    else
      assert forall k :: 1 <= k < |catalogue| ==> catalogue[1..][k - 1] == catalogue[k];
      LabelOf(catalogue[1..], id)
  }

  /** An id the catalogue does not know is shown as itself. */
  lemma {:induction false} LabelOfUnknown(catalogue: seq<Choice>, id: string)
    requires forall i :: 0 <= i < |catalogue| ==> catalogue[i].id != id
    ensures LabelOf(catalogue, id) == id
  {
    if catalogue != [] {
      LabelOfUnknown(catalogue[1..], id);
    }
  }

  /** A known id is shown with the label of its first catalogue entry. */
  lemma {:induction false} LabelOfKnown(catalogue: seq<Choice>, k: nat)
    requires k < |catalogue| && catalogue[k].text != ""
    requires forall j :: 0 <= j < k ==> catalogue[j].id != catalogue[k].id
    ensures LabelOf(catalogue, catalogue[k].id) == catalogue[k].text
  {
    if k > 0 {
      LabelOfKnown(catalogue[1..], k - 1);
    }
  }

  /** No id is listed twice. */
  predicate DistinctIds(catalogue: seq<Choice>) {
    forall i, j :: 0 <= i < j < |catalogue| ==> catalogue[i].id != catalogue[j].id
  }

  /** Ids distinct and labels non-empty. */
  predicate WellFormed(catalogue: seq<Choice>) {
    && DistinctIds(catalogue)
    && (forall i :: 0 <= i < |catalogue| ==> catalogue[i].text != "")
  }

  /** In a well-formed catalogue every entry's id resolves to that entry's label. */
  lemma LabelOfEntry(catalogue: seq<Choice>, k: nat)
    requires WellFormed(catalogue) && k < |catalogue|
    ensures LabelOf(catalogue, catalogue[k].id) == catalogue[k].text
  {
    LabelOfKnown(catalogue, k);
  }

  /** The pain-point catalogue is well formed. */
  lemma PainPointsWellFormed()
    ensures WellFormed(PainPoints)
  {
  }

  /** The tool catalogue is well formed. */
  lemma CommonToolsWellFormed()
    ensures WellFormed(CommonTools)
  {
    var ids: seq<string> := ["slack", "teams", "google-workspace", "microsoft-365", "xero", "myob",
      "hubspot", "salesforce", "monday", "notion", "asana", "shopify", "zapier", "airtable"];
    assert forall i :: 0 <= i < |CommonTools| ==> CommonTools[i].id == ids[i];
    assert forall i, j :: 0 <= i < j < |ids| ==> ids[i] != ids[j];
  }

  /**
   * The labels of a selection, in selection order, then the custom text
   * when it is non-empty (`labels.push(custom)`).
   */
  function Labels(catalogue: seq<Choice>, ids: seq<string>, custom: string): (r: seq<string>)
    ensures |r| == |ids| + (if custom != "" then 1 else 0)
    ensures forall i :: 0 <= i < |ids| ==> r[i] == LabelOf(catalogue, ids[i])
    ensures custom != "" ==> r[|r| - 1] == custom
  {
    seq(|ids|, i requires 0 <= i < |ids| => LabelOf(catalogue, ids[i]))
    + (if Truthy(custom) then [custom] else [])
  }

  /** `labels.map(l => `• ${l}`)`. */
  function Bullets(labels: seq<string>): (r: seq<string>)
    ensures |r| == |labels|
    ensures forall i :: 0 <= i < |labels| ==> r[i] == "\U{2022} " + labels[i]
  {
    seq(|labels|, i requires 0 <= i < |labels| => "\U{2022} " + labels[i])
  }

  /** A concatenation starts with its first two pieces and ends with its last three. */
  lemma Frame(a: string, b: string, pains: string, nn: string, c: string, tools: string, d: string,
              ts: string, e: string, ctx: string)
    ensures var r := a + b + pains + nn + c + tools + nn + d + ts + nn + e + ctx;
      && a + b <= r
      && |nn + e + ctx| <= |r| && r[|r| - |nn + e + ctx|..] == nn + e + ctx
  {
    var head, tail := a + b, nn + e + ctx;
    var middle := pains + nn + c + tools + nn + d + ts;
    var r := a + b + pains + nn + c + tools + nn + d + ts + nn + e + ctx;
    assert r == head + middle + tail;
    assert (head + middle + tail)[..|head|] == head;
    assert (head + middle + tail)[|head + middle|..] == tail;
  }

  /** The message text of the audit request: its heading first and the additional context last. */
  function AuditMessage(painLabels: seq<string>, toolLabels: seq<string>, teamSize: string, additionalInfo: string): (r: string)
    ensures "WORKFLOW AUDIT REQUEST\n\n" + "Time-Consuming Tasks:\n" <= r
    ensures var tail := "\n\n" + "Additional Context:\n" + OrDefault(additionalInfo, "None provided");
      |tail| <= |r| && r[|r| - |tail|..] == tail
  {
    Frame("WORKFLOW AUDIT REQUEST\n\n", "Time-Consuming Tasks:\n", Join(Bullets(painLabels), '\n'), "\n\n",
      "Current Tools:\n", Join(Bullets(toolLabels), '\n'), "Team Size: ", OrDefault(teamSize, "Not specified"),
      "Additional Context:\n", OrDefault(additionalInfo, "None provided"));
    "WORKFLOW AUDIT REQUEST\n\n"
    + "Time-Consuming Tasks:\n" + Join(Bullets(painLabels), '\n') + "\n\n"
    + "Current Tools:\n" + Join(Bullets(toolLabels), '\n') + "\n\n"
    + "Team Size: " + OrDefault(teamSize, "Not specified") + "\n\n"
    + "Additional Context:\n" + OrDefault(additionalInfo, "None provided")
  }

  /** The opening blocks of the message, up to the last tool bullet. */
  function Opening(p: seq<string>, t: seq<string>): seq<string> {
    ["WORKFLOW AUDIT REQUEST", "", "Time-Consuming Tasks:"] + p + ["", "Current Tools:"] + t
  }

  /** The lines the message is made of. */
  function MessageLines(painLabels: seq<string>, toolLabels: seq<string>, teamSize: string, additionalInfo: string): seq<string>
  {
    Opening(Bullets(painLabels), Bullets(toolLabels))
    + ["", "Team Size: " + OrDefault(teamSize, "Not specified"), "",
       "Additional Context:", OrDefault(additionalInfo, "None provided")]
  }

  /** The team size line and the context break only where the values typed in do. */
  lemma ValuesUnbroken(teamSize: string, additionalInfo: string)
    ensures '\n' !in teamSize ==> '\n' !in "Team Size: " + OrDefault(teamSize, "Not specified")
    ensures '\n' !in additionalInfo ==> '\n' !in OrDefault(additionalInfo, "None provided")
  {
    assert '\n' !in "Not specified" && '\n' !in "None provided";
    if '\n' !in teamSize {
      UnbrokenConcat("Team Size: ", OrDefault(teamSize, "Not specified"));
    }
  }

  predicate NoNewline(s: seq<string>) {
    forall i :: 0 <= i < |s| ==> '\n' !in s[i]
  }

  /** Lines without line breaks put together have none. */
  lemma NoNewlineAppend(a: seq<string>, b: seq<string>)
    requires NoNewline(a) && NoNewline(b)
    ensures NoNewline(a + b)
  {
    forall i | 0 <= i < |a + b| ensures '\n' !in (a + b)[i] {
      if i < |a| {
        assert (a + b)[i] == a[i];
      } else {
        assert (a + b)[i] == b[i - |a|];
      }
    }
  }

  /** Bullets of labels without line breaks have no line breaks. */
  lemma BulletsNoNewline(labels: seq<string>)
    requires NoNewline(labels)
    ensures NoNewline(Bullets(labels))
  {
    forall i | 0 <= i < |labels| ensures '\n' !in Bullets(labels)[i] {
      assert Bullets(labels)[i] == "\U{2022} " + labels[i];
      assert '\n' !in "\U{2022} ";
    }
  }

  /** Regrouping the joined lines into the pieces of the message. */
  lemma RegroupLines(ja: string, x: string, jb: string, y: string, jc: string, n: string)
    ensures ja + n + x + n + jb + n + y + n + jc == (ja + n) + x + (n + jb + n) + y + (n + jc)
  {
  }

  /** Regrouping the message's pieces. */
  lemma RegroupMessage(h: string, x: string, m: string, y: string, tail: string,
                       l0: string, l1: string, l2: string, l3: string, l4: string, l5: string, ts: string,
                       l6: string, l7: string, ctx: string)
    requires h == l0 + l1 && m == l2 + l3 && tail == l4 + l5 + ts + l6 + l7 + ctx
    ensures l0 + l1 + x + l2 + l3 + y + l4 + l5 + ts + l6 + l7 + ctx == h + x + m + y + tail
  {
  }

  /** Regrouping the closing lines. */
  lemma RegroupTail(n: string, l4: string, l5: string, ts: string, l6: string, heading: string, l7: string, ctx: string)
    requires l4 == n + n && l6 == n + n && l7 == heading + n
    ensures l4 + l5 + ts + l6 + l7 + ctx == n + ("" + n + (l5 + ts + n + ("" + n + (heading + n + ctx))))
  {
  }

  /** The first three lines, with the break before the first bullet. */
  lemma OpeningLines()
    ensures Join(["WORKFLOW AUDIT REQUEST", "", "Time-Consuming Tasks:"], '\n') + "\n"
         == "WORKFLOW AUDIT REQUEST\n\n" + "Time-Consuming Tasks:\n"
  {
    var a: seq<string> := ["WORKFLOW AUDIT REQUEST", "", "Time-Consuming Tasks:"];
    assert a[1..] == ["", "Time-Consuming Tasks:"];
    assert a[1..][1..] == ["Time-Consuming Tasks:"];
  }

  /** The lines between the two bullet lists. */
  lemma MiddleLines()
    ensures "\n" + Join(["", "Current Tools:"], '\n') + "\n" == "\n\n" + "Current Tools:\n"
  {
    var b: seq<string> := ["", "Current Tools:"];
    assert b[1..] == ["Current Tools:"];
  }

  /** The closing lines, after the last tool bullet. */
  lemma ClosingLines(ts: string, ctx: string)
    ensures "\n" + Join(["", "Team Size: " + ts, "", "Additional Context:", ctx], '\n')
         == "\n\n" + "Team Size: " + ts + "\n\n" + "Additional Context:\n" + ctx
  {
    var c: seq<string> := ["", "Team Size: " + ts, "", "Additional Context:", ctx];
    var j3 := Join(["Additional Context:", ctx], '\n');
    assert j3 == "Additional Context:" + "\n" + ctx by {
      assert ["Additional Context:", ctx][1..] == [ctx];
      assert Join([ctx], '\n') == ctx;
    }
    var j2 := Join(["", "Additional Context:", ctx], '\n');
    assert j2 == "" + "\n" + j3 by {
      assert ["", "Additional Context:", ctx][1..] == ["Additional Context:", ctx];
    }
    var j1 := Join(["Team Size: " + ts, "", "Additional Context:", ctx], '\n');
    assert j1 == "Team Size: " + ts + "\n" + j2 by {
      assert ["Team Size: " + ts, "", "Additional Context:", ctx][1..] == ["", "Additional Context:", ctx];
    }
    assert Join(c, '\n') == "" + "\n" + j1 by {
      assert c[1..] == ["Team Size: " + ts, "", "Additional Context:", ctx];
    }
    assert "\n\n" == "\n" + "\n";
    assert "Additional Context:\n" == "Additional Context:" + "\n";
    RegroupTail("\n", "\n\n", "Team Size: ", ts, "\n\n", "Additional Context:", "Additional Context:\n", ctx);
  }

  /** The message is its lines joined by line breaks. */
  lemma AuditMessageIsJoin(painLabels: seq<string>, toolLabels: seq<string>, teamSize: string, additionalInfo: string)
    requires painLabels != [] && toolLabels != []
    ensures AuditMessage(painLabels, toolLabels, teamSize, additionalInfo)
         == Join(MessageLines(painLabels, toolLabels, teamSize, additionalInfo), '\n')
  {
    var a: seq<string> := ["WORKFLOW AUDIT REQUEST", "", "Time-Consuming Tasks:"];
    var p := Bullets(painLabels);
    var b: seq<string> := ["", "Current Tools:"];
    var t := Bullets(toolLabels);
    var ts := OrDefault(teamSize, "Not specified");
    var ctx := OrDefault(additionalInfo, "None provided");
    var c: seq<string> := ["", "Team Size: " + ts, "", "Additional Context:", ctx];
    var x, y := Join(p, '\n'), Join(t, '\n');
    var ja, jb, jc := Join(a, '\n'), Join(b, '\n'), Join(c, '\n');
    assert MessageLines(painLabels, toolLabels, teamSize, additionalInfo) == a + p + b + t + c;
    JoinAppend(a + p + b + t, c, '\n');
    JoinAppend(a + p + b, t, '\n');
    JoinAppend(a + p, b, '\n');
    JoinAppend(a, p, '\n');
    assert Join(a + p + b + t + c, '\n') == ja + "\n" + x + "\n" + jb + "\n" + y + "\n" + jc;
    RegroupLines(ja, x, jb, y, jc, "\n");
    OpeningLines();
    MiddleLines();
    ClosingLines(ts, ctx);
    RegroupMessage(ja + "\n", x, "\n" + jb + "\n", y, "\n" + jc,
      "WORKFLOW AUDIT REQUEST\n\n", "Time-Consuming Tasks:\n", "\n\n", "Current Tools:\n",
      "\n\n", "Team Size: ", ts, "\n\n", "Additional Context:\n", ctx);
  }

  /** No line of the message breaks, as long as no value does. */
  lemma MessageLinesUnbroken(painLabels: seq<string>, toolLabels: seq<string>, teamSize: string, additionalInfo: string)
    requires NoNewline(painLabels) && NoNewline(toolLabels)
    requires '\n' !in teamSize && '\n' !in additionalInfo
    ensures NoNewline(MessageLines(painLabels, toolLabels, teamSize, additionalInfo))
  {
    BulletsNoNewline(painLabels);
    BulletsNoNewline(toolLabels);
    var a: seq<string> := ["WORKFLOW AUDIT REQUEST", "", "Time-Consuming Tasks:"];
    var p := Bullets(painLabels);
    var b: seq<string> := ["", "Current Tools:"];
    var t := Bullets(toolLabels);
    var ts := OrDefault(teamSize, "Not specified");
    var ctx := OrDefault(additionalInfo, "None provided");
    var c: seq<string> := ["", "Team Size: " + ts, "", "Additional Context:", ctx];
    assert '\n' !in "Team Size: " + ts by {
      UnbrokenConcat("Team Size: ", ts);
    }
    assert NoNewline(a) && NoNewline(b) && NoNewline(c);
    NoNewlineAppend(a, p);
    NoNewlineAppend(a + p, b);
    NoNewlineAppend(a + p + b, t);
    NoNewlineAppend(a + p + b + t, c);
    assert MessageLines(painLabels, toolLabels, teamSize, additionalInfo) == a + p + b + t + c;
  }

  /** The fixed lines of the message have no line breaks. */
  lemma FixedLinesUnbroken()
    ensures NoNewline(["", "Additional Context:"])
    ensures NoNewline([""])
    ensures NoNewline(["WORKFLOW AUDIT REQUEST", "", "Time-Consuming Tasks:"])
    ensures NoNewline(["", "Current Tools:"])
  {
    assert '\n' !in "Additional Context:";
    assert '\n' !in "WORKFLOW AUDIT REQUEST" && '\n' !in "Time-Consuming Tasks:" && '\n' !in "Current Tools:";
  }

  /** The lines of the closing part, whatever the team size and the context hold. */
  lemma SplitAllClosing(sizeLine: string, ctx: string)
    ensures SplitAll(["", sizeLine, "", "Additional Context:", ctx], '\n')
         == [""] + Split(sizeLine, '\n') + ["", "Additional Context:"] + Split(ctx, '\n')
  {
    var gap, caption := [""], ["", "Additional Context:"];
    assert ["", sizeLine, "", "Additional Context:", ctx] == gap + [sizeLine] + caption + [ctx];
    SplitAllAppend(gap + [sizeLine] + caption, [ctx], '\n');
    SplitAllAppend(gap + [sizeLine], caption, '\n');
    SplitAllAppend(gap, [sizeLine], '\n');
    SplitAllSingle(sizeLine, '\n');
    SplitAllSingle(ctx, '\n');
    FixedLinesUnbroken();
    SplitAllUnbroken(gap, '\n');
    SplitAllUnbroken(caption, '\n');
  }

  /** The lines of the message's blocks, block by block. */
  lemma SplitAllMessage(p: seq<string>, t: seq<string>, sizeLine: string, ctx: string)
    ensures SplitAll(["WORKFLOW AUDIT REQUEST", "", "Time-Consuming Tasks:"] + p + ["", "Current Tools:"] + t
                     + ["", sizeLine, "", "Additional Context:", ctx], '\n')
         == ["WORKFLOW AUDIT REQUEST", "", "Time-Consuming Tasks:"] + SplitAll(p, '\n')
          + ["", "Current Tools:"] + SplitAll(t, '\n')
          + [""] + Split(sizeLine, '\n') + ["", "Additional Context:"] + Split(ctx, '\n')
  {
    FixedLinesUnbroken();
    SplitAllClosing(sizeLine, ctx);
    SplitAllBlocks(["WORKFLOW AUDIT REQUEST", "", "Time-Consuming Tasks:"], p, ["", "Current Tools:"], t,
      ["", sizeLine, "", "Additional Context:", ctx]);
  }

  /** Five blocks split one after another, the first and third without line breaks. */
  lemma SplitAllBlocks(a: seq<string>, p: seq<string>, b: seq<string>, t: seq<string>, c: seq<string>)
    requires NoNewline(a) && NoNewline(b)
    ensures SplitAll(a + p + b + t + c, '\n')
         == a + SplitAll(p, '\n') + b + SplitAll(t, '\n') + SplitAll(c, '\n')
  {
    SplitAllUnbroken(a, '\n');
    SplitAllUnbroken(b, '\n');
    SplitAllAppend(a + p + b + t, c, '\n');
    SplitAllAppend(a + p + b, t, '\n');
    SplitAllAppend(a + p, b, '\n');
    SplitAllAppend(a, p, '\n');
  }

  /**
   * Read line by line, the message has the heading, a bullet per label in
   * order under each list's heading, the team size or its default and,
   * last, the additional context or its default, each value followed by
   * its own further lines if it has any.
   */
  lemma AuditMessageLines(painLabels: seq<string>, toolLabels: seq<string>, teamSize: string, additionalInfo: string)
    requires painLabels != [] && toolLabels != []
    ensures Split(AuditMessage(painLabels, toolLabels, teamSize, additionalInfo), '\n')
         == ["WORKFLOW AUDIT REQUEST", "", "Time-Consuming Tasks:"] + SplitAll(Bullets(painLabels), '\n')
          + ["", "Current Tools:"] + SplitAll(Bullets(toolLabels), '\n')
          + [""] + Split("Team Size: " + OrDefault(teamSize, "Not specified"), '\n')
          + ["", "Additional Context:"] + Split(OrDefault(additionalInfo, "None provided"), '\n')
  {
    var sizeLine := "Team Size: " + OrDefault(teamSize, "Not specified");
    var ctx := OrDefault(additionalInfo, "None provided");
    var lines := MessageLines(painLabels, toolLabels, teamSize, additionalInfo);
    assert lines == ["WORKFLOW AUDIT REQUEST", "", "Time-Consuming Tasks:"] + Bullets(painLabels)
      + ["", "Current Tools:"] + Bullets(toolLabels) + ["", sizeLine, "", "Additional Context:", ctx];
    AuditMessageIsJoin(painLabels, toolLabels, teamSize, additionalInfo);
    SplitJoinAll(lines, '\n');
    SplitAllMessage(Bullets(painLabels), Bullets(toolLabels), sizeLine, ctx);
  }

  /** The block-by-block lines when only the context may break. */
  lemma ContextOnlyBreaks(p: seq<string>, t: seq<string>, sizeLine: string, ctx: string)
    requires NoNewline(p) && NoNewline(t) && '\n' !in sizeLine
    ensures ["WORKFLOW AUDIT REQUEST", "", "Time-Consuming Tasks:"] + SplitAll(p, '\n')
            + ["", "Current Tools:"] + SplitAll(t, '\n')
            + [""] + Split(sizeLine, '\n') + ["", "Additional Context:"] + Split(ctx, '\n')
         == Opening(p, t) + ["", sizeLine, "", "Additional Context:"] + Split(ctx, '\n')
  {
    SplitAllUnbroken(p, '\n');
    SplitAllUnbroken(t, '\n');
    assert Split(sizeLine, '\n') == [sizeLine];
  }

  /** The lines before the context, and all lines, of a message. */
  lemma ClosingPrefix(p: seq<string>, t: seq<string>, sizeLine: string, ctx: string)
    ensures var lines := Opening(p, t) + ["", sizeLine, "", "Additional Context:", ctx];
      lines[..|lines| - 1] == Opening(p, t) + ["", sizeLine, "", "Additional Context:"]
      && lines == Opening(p, t) + ["", sizeLine, "", "Additional Context:"] + [ctx]
  {
    var lines := Opening(p, t) + ["", sizeLine, "", "Additional Context:", ctx];
    assert lines == Opening(p, t) + ["", sizeLine, "", "Additional Context:"] + [ctx];
  }

  /**
   * With labels from the catalogues and the single-line custom inputs and
   * a team size from its select, only the additional context, typed into a
   * textarea, can add lines: they come last, after the message's other
   * lines; with a context of one line the lines are exactly `MessageLines`.
   */
  lemma AuditMessageContextLines(painLabels: seq<string>, toolLabels: seq<string>, teamSize: string, additionalInfo: string)
    requires painLabels != [] && toolLabels != []
    requires NoNewline(painLabels) && NoNewline(toolLabels) && '\n' !in teamSize
    ensures var lines := MessageLines(painLabels, toolLabels, teamSize, additionalInfo);
      Split(AuditMessage(painLabels, toolLabels, teamSize, additionalInfo), '\n')
        == lines[..|lines| - 1] + Split(OrDefault(additionalInfo, "None provided"), '\n')
    ensures '\n' !in additionalInfo ==>
      Split(AuditMessage(painLabels, toolLabels, teamSize, additionalInfo), '\n')
        == MessageLines(painLabels, toolLabels, teamSize, additionalInfo)
  {
    var sizeLine := "Team Size: " + OrDefault(teamSize, "Not specified");
    var ctx := OrDefault(additionalInfo, "None provided");
    AuditMessageLines(painLabels, toolLabels, teamSize, additionalInfo);
    BulletsNoNewline(painLabels);
    BulletsNoNewline(toolLabels);
    ValuesUnbroken(teamSize, additionalInfo);
    var p, t := Bullets(painLabels), Bullets(toolLabels);
    ContextOnlyBreaks(p, t, sizeLine, ctx);
    ClosingPrefix(p, t, sizeLine, ctx);
    if '\n' !in additionalInfo {
      assert Split(ctx, '\n') == [ctx];
    }
  }

  // ---------------------------------------------------------------------
  // The modal
  // ---------------------------------------------------------------------

  const EmptyForm: Payload := map[
    "firstName" := "", "lastName" := "", "email" := "", "phone" := "",
    "preferredContact" := "", "business" := "", "teamSize" := "", "additionalInfo" := ""]

  /** A form field as JavaScript reads it: a missing key is `undefined`, falsy like "". */
  function Value(form: Payload, key: string): string {
    if key in form then form[key] else ""
  }

  /** Some character of `s` is not white space. */
  predicate NotBlank(s: string) {
    exists i :: 0 <= i < |s| && !IsWhiteSpace(s[i])
  }

  /**
   * `canProceedStep1` over the pain points and `canProceedStep2` over the
   * tools: the step may continue once something is picked or the custom
   * entry has more than white space.
   */
  function CanProceed(selected: seq<string>, custom: string): (r: bool)
    ensures r <==> |selected| > 0 || NotBlank(custom)
  {
    TrimEmptyIff(custom);
    |selected| > 0 || |Trim(custom)| > 0
  }

  /** When a step may continue, the message has at least one bullet for that step's list. */
  lemma ProceedGivesLabels(catalogue: seq<Choice>, selected: seq<string>, custom: string)
    requires |selected| > 0 || NotBlank(custom)
    ensures Labels(catalogue, selected, custom) != []
  {
    if |selected| == 0 {
      assert custom != "";
    }
  }

  /** A custom text of nothing but spaces does not let the step continue. */
  lemma BlankCustomDoesNotProceed(custom: string)
    requires forall i :: 0 <= i < |custom| ==> IsWhiteSpace(custom[i])
    ensures !CanProceed([], custom)
  {
    TrimEmptyIff(custom);
  }

  class WorkflowAuditModal {
    var step: nat
    var selectedPainPoints: seq<string>
    var customPainPoint: string
    var selectedTools: seq<string>
    var customTools: string
    var form: Payload
    var isSubmitting: bool
    var hasStartedForm: bool
    var events: seq<TrackEvent>

    /**
     * The step shown and the guards that let the user reach it: step 2
     * only past a step 1 that may continue, step 3 only past both.
     */
    predicate Valid()
      reads this
    {
      && 1 <= step <= 3
      && (step >= 2 ==> CanProceed(selectedPainPoints, customPainPoint))
      && (step == 3 ==> CanProceed(selectedTools, customTools))
    }

    constructor ()
      ensures Valid()
      ensures step == 1 && selectedPainPoints == [] && customPainPoint == ""
      ensures selectedTools == [] && customTools == "" && form == EmptyForm
      ensures !isSubmitting && !hasStartedForm && events == []
    {
      step := 1;
      selectedPainPoints, customPainPoint := [], "";
      selectedTools, customTools := [], "";
      form := EmptyForm;
      isSubmitting, hasStartedForm := false, false;
      events := [];
    }

    /** `canSubmit`: first name, email and phone are each present in the form and non-empty. */
    function CanSubmit(): (r: bool)
      reads this
      ensures r <==> forall key :: key in ["firstName", "email", "phone"] ==> key in form && form[key] != ""
    {
      Value(form, "firstName") != "" && Value(form, "email") != "" && Value(form, "phone") != ""
    }

    /** The submit button is disabled: a required field is missing or a request is in flight. */
    function SubmitDisabled(): (r: bool)
      reads this
      ensures !r ==> !isSubmitting && "firstName" in form && "email" in form && "phone" in form
    {
      !CanSubmit() || isSubmitting
    }

    /** The modal opens: logged, and the next pain-point toggle counts as starting the form. */
    method Open()
      requires Valid()
      modifies this
      ensures Valid()
      ensures !hasStartedForm && events == old(events) + [ModalOpen("workflow_audit")]
      ensures step == old(step) && selectedPainPoints == old(selectedPainPoints)
      ensures customPainPoint == old(customPainPoint) && selectedTools == old(selectedTools)
      ensures customTools == old(customTools) && form == old(form) && isSubmitting == old(isSubmitting)
    {
      events := events + [ModalOpen("workflow_audit")];
      hasStartedForm := false;
    }

    /** `togglePainPoint`: the first toggle after opening logs the form start. */
    method TogglePainPoint(id: string)
      requires Valid() && step == 1
      modifies this
      ensures Valid()
      ensures selectedPainPoints == Toggle(old(selectedPainPoints), id)
      ensures hasStartedForm
      ensures events == old(events) + (if old(hasStartedForm) then [] else [FormStart("workflow_audit")])
      ensures step == old(step) && customPainPoint == old(customPainPoint)
      ensures selectedTools == old(selectedTools) && customTools == old(customTools)
      ensures form == old(form) && isSubmitting == old(isSubmitting)
    {
      if !hasStartedForm {
        events := events + [FormStart("workflow_audit")];
        hasStartedForm := true;
      }
      selectedPainPoints := Toggle(selectedPainPoints, id);
    }

    /** The custom pain-point input of step 1. */
    method SetCustomPainPoint(value: string)
      requires Valid() && step == 1
      modifies this`customPainPoint
      ensures Valid() && customPainPoint == value
    {
      customPainPoint := value;
    }

    /** `toggleTool`, on step 2. */
    method ToggleTool(id: string)
      requires Valid() && step == 2
      modifies this`selectedTools
      ensures Valid() && selectedTools == Toggle(old(selectedTools), id)
    {
      selectedTools := Toggle(selectedTools, id);
    }

    /** The custom tools input of step 2. */
    method SetCustomTools(value: string)
      requires Valid() && step == 2
      modifies this`customTools
      ensures Valid() && customTools == value
    {
      customTools := value;
    }

    /** `handleChange`, from the team-size select of step 2 and the fields of step 3: the named field takes the new value. */
    method HandleChange(name: string, value: string)
      requires Valid() && step >= 2
      modifies this`form
      ensures Valid() && form == old(form)[name := value]
    {
      form := form[name := value];
    }

    /** The Continue buttons: disabled until the current step may proceed. */
    method Continue()
      requires Valid()
      modifies this`step
      ensures Valid()
      ensures old(step) == 1 && CanProceed(selectedPainPoints, customPainPoint) ==> step == 2
      ensures old(step) == 2 && CanProceed(selectedTools, customTools) ==> step == 3
      ensures step != old(step) ==>
        (old(step) == 1 && CanProceed(selectedPainPoints, customPainPoint))
        || (old(step) == 2 && CanProceed(selectedTools, customTools))
    {
      if step == 1 && CanProceed(selectedPainPoints, customPainPoint) {
        step := 2;
      } else if step == 2 && CanProceed(selectedTools, customTools) {
        step := 3;
      }
    }

    /** The Back buttons. */
    method Back()
      requires Valid()
      modifies this`step
      ensures Valid()
      ensures old(step) == 2 ==> step == 1
      ensures old(step) == 3 ==> step == 2
      ensures old(step) != 2 && old(step) != 3 ==> step == old(step)
    {
      if step == 2 {
        step := 1;
      } else if step == 3 {
        step := 2;
      }
    }

    /**
     * `handleSubmit` up to the awaited request: the labels are resolved,
     * each custom text is added last when non-empty, and the request is the
     * form with the help topic and the assembled message.
     */
    method StartSubmit() returns (request: Payload)
      requires Valid() && step == 3 && !SubmitDisabled()
      modifies this`isSubmitting
      ensures Valid() && isSubmitting
      ensures Labels(PainPoints, selectedPainPoints, customPainPoint) != []
      ensures Labels(CommonTools, selectedTools, customTools) != []
      ensures request == form["helpWith" := "AI Workflow Audit"][
        "message" := AuditMessage(
          Labels(PainPoints, selectedPainPoints, customPainPoint),
          Labels(CommonTools, selectedTools, customTools),
          Value(form, "teamSize"), Value(form, "additionalInfo"))]
    {
      ProceedGivesLabels(PainPoints, selectedPainPoints, customPainPoint);
      ProceedGivesLabels(CommonTools, selectedTools, customTools);
      isSubmitting := true;
      var painPointLabels := Labels(PainPoints, selectedPainPoints, customPainPoint);
      var toolLabels := Labels(CommonTools, selectedTools, customTools);
      var message := AuditMessage(painPointLabels, toolLabels, Value(form, "teamSize"), Value(form, "additionalInfo"));
      request := form["helpWith" := "AI Workflow Audit"]["message" := message];
    }

    /** `handleSubmit` after the request: success closes and resets the modal. */
    method CompleteSubmit(outcome: FetchOutcome)
      requires Valid()
      modifies this
      ensures Valid()
      ensures !isSubmitting && hasStartedForm == old(hasStartedForm)
      ensures outcome == Ok ==> events == old(events) + [FormSubmit("workflow_audit", true)] && IsReset()
      ensures outcome == NotOk ==> events == old(events) + [FormSubmit("workflow_audit", false)]
      ensures outcome == Failed ==> events == old(events)
      ensures outcome != Ok ==>
        && step == old(step) && selectedPainPoints == old(selectedPainPoints)
        && customPainPoint == old(customPainPoint) && selectedTools == old(selectedTools)
        && customTools == old(customTools) && form == old(form)
    {
      if outcome == Ok {
        events := events + [FormSubmit("workflow_audit", true)];
        Close();
      } else if outcome == NotOk {
        events := events + [FormSubmit("workflow_audit", false)];
      }
      // a thrown request only raises an alert; in every case the spinner stops
      isSubmitting := false;
    }

    /** Step 1 with nothing selected, typed or filled in. */
    predicate IsReset()
      reads this
    {
      && step == 1 && selectedPainPoints == [] && customPainPoint == ""
      && selectedTools == [] && customTools == "" && form == EmptyForm
    }

    /** `handleClose`: back to step 1 with every selection and field cleared. */
    method Close()
      modifies this
      ensures Valid() && IsReset()
      ensures isSubmitting == old(isSubmitting) && hasStartedForm == old(hasStartedForm)
      ensures events == old(events)
    {
      step := 1;
      selectedPainPoints, customPainPoint := [], "";
      selectedTools, customTools := [], "";
      form := EmptyForm;
    }
  }

  /** A client: the form start is logged once however many pain points are toggled. */
  method FormStartLoggedOnce(ids: seq<string>) returns (modal: WorkflowAuditModal)
    requires |ids| >= 1
    ensures FormStarts(modal.events) == 1
  {
    modal := new WorkflowAuditModal();
    modal.Open();
    var k := 0;
    while k < |ids|
      invariant 0 <= k <= |ids|
      invariant modal.Valid() && modal.step == 1
      invariant modal.hasStartedForm == (k > 0)
      invariant FormStarts(modal.events) == (if k > 0 then 1 else 0)
    {
      ghost var before := modal.events;
      modal.TogglePainPoint(ids[k]);
      FormStartsAppend(before, modal.events[|before|..]);
      assert modal.events == before + modal.events[|before|..];
      k := k + 1;
    }
  }
}
