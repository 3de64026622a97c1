/**
 * The engine registry: the six prompt engines in their sidebar order, and the
 * lookup of the active engine by id.
 */
module Registry {
  import opened Wrappers
  import opened Templates

  /** The "followup-lead" engine (App.jsx lines 3-30). */
  const FollowupLead: Template := Template(
    "followup-lead",
    [ FieldDef("leadName", FreeText),
      FieldDef("company", FreeText),
      FieldDef("lastContact", FreeText),
      FieldDef("painPoint", FreeText),
      FieldDef("tone", Choice(["Warm & Casual", "Professional", "Urgent / FOMO", "Value-Led"])) ],
    [ Lit("You are a senior sales rep at Scryp, a B2B SaaS platform for sales and operations automation. Write a concise, high-converting follow-up email to "),
      Slot("leadName", "[Lead Name]"),
      Lit(" at "),
      Slot("company", "[Company]"),
      Lit(". \n"),
      Lit("\n"),
      Lit("Context: "),
      Slot("lastContact", "[last contact context]"),
      Lit("\n"),
      Lit("Their key pain point or goal: "),
      Slot("painPoint", "[pain point]"),
      Lit("\n"),
      Lit("Tone: "),
      Slot("tone", "Professional"),
      Lit("\n"),
      Lit("\n"),
      Lit("Requirements:\n"),
      Lit("- Subject line that creates curiosity or urgency (not generic)\n"),
      Lit("- Opening that references the last interaction naturally\n"),
      Lit("- One clear value proposition tied to their pain point\n"),
      Lit("- A frictionless CTA (soft ask \U{2014} 15-min call, quick reply, etc.)\n"),
      Lit("- 3\U{2013}5 sentences max body. No fluff.\n"),
      Lit("\n"),
      Lit("Output: Subject line + Email body only.") ])

  /** The "industry-campaign" engine (App.jsx lines 32-57). */
  const IndustryCampaign: Template := Template(
    "industry-campaign",
    [ FieldDef("industry", FreeText),
      FieldDef("persona", FreeText),
      FieldDef("companySize", Choice(["SMB (1\U{2013}50)", "Mid-Market (51\U{2013}500)", "Enterprise (500+)", "Any"])),
      FieldDef("campaignGoal", Choice(["Book a Demo", "Free Trial Sign-Up", "Webinar Registration", "Awareness / Nurture"])),
      FieldDef("numEmails", Choice(["1", "2", "3", "5"])),
      FieldDef("differentiator", FreeText) ],
    [ Lit("You are a B2B demand generation specialist at Scryp. Create a "),
      Slot("numEmails", "3"),
      Lit("-email cold outreach sequence targeting "),
      Slot("persona", "[persona]"),
      Lit(" at "),
      Slot("companySize", "Mid-Market"),
      Lit(" companies in the "),
      Slot("industry", "[industry]"),
      Lit(" industry.\n"),
      Lit("\n"),
      Lit("Campaign Goal: "),
      Slot("campaignGoal", "Book a Demo"),
      Lit("\n"),
      Lit("Key Differentiator to Highlight: "),
      Slot("differentiator", "[differentiator]"),
      Lit("\n"),
      Lit("\n"),
      Lit("For each email provide:\n"),
      Lit("1. Email # and send timing (e.g. Day 1, Day 4, Day 8)\n"),
      Lit("2. Subject line (A/B test variant if possible)\n"),
      Lit("3. Body (concise, punchy, industry-specific language and pain points)\n"),
      Lit("4. CTA\n"),
      Lit("\n"),
      Lit("Make the sequence tell a story \U{2014} don't repeat the same angle. Use industry-specific language and real pain points that resonate with "),
      Slot("industry", "this industry"),
      Lit(" operations teams. No filler.") ])

  /** The "scheduled-followup" engine (App.jsx lines 59-86). */
  const ScheduledFollowup: Template := Template(
    "scheduled-followup",
    [ FieldDef("leadName", FreeText),
      FieldDef("company", FreeText),
      FieldDef("dealStage", Choice(["Initial Outreach", "Post-Demo", "Proposal Sent", "In Negotiation", "Gone Dark"])),
      FieldDef("daysFromNow", Choice(["3 days", "1 week", "2 weeks", "1 month"])),
      FieldDef("objection", FreeText),
      FieldDef("nudge", FreeText) ],
    [ Lit("You are a B2B account executive at Scryp. Write a follow-up email to be sent in "),
      Slot("daysFromNow", "1 week"),
      Lit(" to "),
      Slot("leadName", "[Lead]"),
      Lit(" at "),
      Slot("company", "[Company]"),
      Lit(".\n"),
      Lit("\n"),
      Lit("Deal Stage: "),
      Slot("dealStage", "Post-Demo"),
      Lit("\n"),
      Lit("Known Objection or Hesitation: "),
      Slot("objection", "[objection]"),
      Lit("\n"),
      Lit("New Angle to Include: "),
      Slot("nudge", "[new nudge or info]"),
      Lit("\n"),
      Lit("\n"),
      Lit("Write an email that:\n"),
      Lit("- Acknowledges where we left off without being pushy\n"),
      Lit("- Addresses their hesitation subtly or reframes it\n"),
      Lit("- Introduces the new angle naturally to re-spark interest\n"),
      Lit("- Ends with a low-pressure ask\n"),
      Lit("- Feels like it was written by a human who genuinely wants to help, not close at all costs\n"),
      Lit("\n"),
      Lit("Keep it under 100 words in the body. Include subject line.") ])

  /** The "cold-outreach" engine (App.jsx lines 88-114). */
  const ColdOutreach: Template := Template(
    "cold-outreach",
    [ FieldDef("prospectName", FreeText),
      FieldDef("company", FreeText),
      FieldDef("trigger", FreeText),
      FieldDef("hook", Choice(["Insight / Industry Trend", "Pain Agitation", "Social Proof / Result", "Bold Question", "Compliment + Pivot"])),
      FieldDef("persona", FreeText) ],
    [ Lit("You are a top-performing SDR at Scryp. Write a cold outreach email to "),
      Slot("prospectName", "[Prospect]"),
      Lit(", "),
      Slot("persona", "[their role]"),
      Lit(" at "),
      Slot("company", "[Company]"),
      Lit(".\n"),
      Lit("\n"),
      Lit("Personalization Trigger: "),
      Slot("trigger", "[trigger]"),
      Lit("\n"),
      Lit("Opening Hook Style: "),
      Slot("hook", "Pain Agitation"),
      Lit("\n"),
      Lit("\n"),
      Lit("Rules:\n"),
      Lit("- Subject line must be < 8 words and feel human, not salesy\n"),
      Lit("- First line must be hyper-personalized using the trigger \U{2014} no generic openers\n"),
      Lit("- Body = 2\U{2013}3 punchy sentences: problem \U{2192} Scryp solution \U{2192} result\n"),
      Lit("- CTA = one easy yes/no question or a soft calendar ask\n"),
      Lit("- Do NOT mention features. Focus on outcomes.\n"),
      Lit("- Sound like a peer reaching out, not a vendor pitching.\n"),
      Lit("\n"),
      Lit("Output: Subject + Email only.") ])

  /** The "re-engagement" engine (App.jsx lines 116-141). */
  const ReEngagement: Template := Template(
    "re-engagement",
    [ FieldDef("contactName", FreeText),
      FieldDef("company", FreeText),
      FieldDef("dormantDuration", Choice(["1\U{2013}2 months", "3\U{2013}6 months", "6\U{2013}12 months", "1+ year"])),
      FieldDef("lastKnownStatus", Choice(["Was a customer (churned)", "Was a warm lead (stalled)", "Attended a webinar/event", "Downloaded content"])),
      FieldDef("newHook", FreeText) ],
    [ Lit("You are a customer success and re-engagement specialist at Scryp. Write a re-engagement email to "),
      Slot("contactName", "[Contact]"),
      Lit(" at "),
      Slot("company", "[Company]"),
      Lit(" who has been dormant for "),
      Slot("dormantDuration", "3\U{2013}6 months"),
      Lit(".\n"),
      Lit("\n"),
      Lit("Last Known Status: "),
      Slot("lastKnownStatus", "Was a warm lead (stalled)"),
      Lit("\n"),
      Lit("New Hook / What's Changed: "),
      Slot("newHook", "[new development]"),
      Lit("\n"),
      Lit("\n"),
      Lit("Write an email that:\n"),
      Lit("- Opens without guilt-tripping or being awkward about the silence\n"),
      Lit("- Leads with what's new or relevant that earned the right to reach back out\n"),
      Lit("- Is brief, warm, and curious \U{2014} not desperate\n"),
      Lit("- Ends with a low-commitment ask\n"),
      Lit("- Subject line should feel fresh, not like \"Just checking in...\"\n"),
      Lit("\n"),
      Lit("Body: max 80 words. Include subject line.") ])

  /** The "internal-ops" engine (App.jsx lines 143-169). */
  const InternalOps: Template := Template(
    "internal-ops",
    [ FieldDef("briefType", Choice(["Weekly Pipeline Summary", "Deal Status Update", "Team Performance Brief", "Forecast Report Narrative", "Handoff / Transition Note"])),
      FieldDef("audience", Choice(["Sales Leadership", "CEO / Exec Team", "Account Executive", "Customer Success", "Whole Team"])),
      FieldDef("keyData", FreeText),
      FieldDef("highlights", FreeText),
      FieldDef("blockers", FreeText) ],
    [ Lit("You are a Revenue Operations analyst at Scryp. Write a "),
      Slot("briefType", "Weekly Pipeline Summary"),
      Lit(" for "),
      Slot("audience", "Sales Leadership"),
      Lit(".\n"),
      Lit("\n"),
      Lit("Key Data / Metrics: "),
      Slot("keyData", "[metrics]"),
      Lit("\n"),
      Lit("Wins / Highlights: "),
      Slot("highlights", "[highlights]"),
      Lit("\n"),
      Lit("Blockers / Risks: "),
      Slot("blockers", "[blockers]"),
      Lit("\n"),
      Lit("\n"),
      Lit("Format:\n"),
      Lit("- Clear headline (with date range if weekly)\n"),
      Lit("- 3\U{2013}4 short sections: Overview, Highlights, Risks/Blockers, Next Steps\n"),
      Lit("- Use concise bullet points within sections\n"),
      Lit("- Tone: confident, data-forward, no filler\n"),
      Lit("- End with 2\U{2013}3 clear action items or owner assignments\n"),
      Lit("\n"),
      Lit("Make it scannable in under 60 seconds.") ])
  /** The registry, in the order the sidebar lists it. */
  const Engines: seq<Template> :=
    [FollowupLead, IndustryCampaign, ScheduledFollowup, ColdOutreach, ReEngagement, InternalOps]

  /**
   * `engines.find((e) => e.id === id)`: the first engine whose id is `id`, and nothing
   * when no engine has it (in particular when `id` is null).
   */
  function Find(engines: seq<Template>, id: Option<string>): (r: Option<Template>)
    ensures r.Some? ==> r.value in engines && id == Some(r.value.id)
    ensures r.None? <==> forall i :: 0 <= i < |engines| ==> id != Some(engines[i].id)
  {
    if engines == [] then None
    else if id == Some(engines[0].id) then Some(engines[0])
    else Find(engines[1..], id)
  }

  /** The keys of a form are unique. */
  ghost predicate DistinctKeys(fields: seq<FieldDef>) {
    forall i, j :: 0 <= i < j < |fields| ==> fields[i].key != fields[j].key
  }

  /** Every drop-down offers at least one option. */
  ghost predicate ChoicesNonEmpty(fields: seq<FieldDef>) {
    forall i :: 0 <= i < |fields| && fields[i].kind.Choice? ==> fields[i].kind.options != []
  }

  /** Every slot of the prompt reads a key the form declares, and every slot has a non-empty default. */
  ghost predicate SlotsDeclared(t: Template) {
    forall i :: 0 <= i < |t.prompt| && t.prompt[i].Slot? ==>
      t.prompt[i].key in FieldKeys(t.fields) && t.prompt[i].default != ""
  }

  ghost predicate WellFormed(t: Template) {
    DistinctKeys(t.fields) && ChoicesNonEmpty(t.fields) && SlotsDeclared(t)
  }

  lemma FollowupLeadWellFormed()
    ensures WellFormed(FollowupLead)
  {
    assert DistinctKeys(FollowupLead.fields);
    assert ChoicesNonEmpty(FollowupLead.fields);
    assert SlotsDeclared(FollowupLead) by {
      var keys := FieldKeys(FollowupLead.fields);
      assert FollowupLead.fields[0].key in keys && FollowupLead.fields[1].key in keys && FollowupLead.fields[2].key in keys && FollowupLead.fields[3].key in keys && FollowupLead.fields[4].key in keys;
    }
  }

  lemma IndustryCampaignWellFormed()
    ensures WellFormed(IndustryCampaign)
  {
    assert DistinctKeys(IndustryCampaign.fields);
    assert ChoicesNonEmpty(IndustryCampaign.fields);
    assert SlotsDeclared(IndustryCampaign) by {
      var keys := FieldKeys(IndustryCampaign.fields);
      assert IndustryCampaign.fields[0].key in keys && IndustryCampaign.fields[1].key in keys && IndustryCampaign.fields[2].key in keys && IndustryCampaign.fields[3].key in keys && IndustryCampaign.fields[4].key in keys && IndustryCampaign.fields[5].key in keys;
    }
  }

  lemma ScheduledFollowupWellFormed()
    ensures WellFormed(ScheduledFollowup)
  {
    assert DistinctKeys(ScheduledFollowup.fields);
    assert ChoicesNonEmpty(ScheduledFollowup.fields);
    assert SlotsDeclared(ScheduledFollowup) by {
      var keys := FieldKeys(ScheduledFollowup.fields);
      assert ScheduledFollowup.fields[0].key in keys && ScheduledFollowup.fields[1].key in keys && ScheduledFollowup.fields[2].key in keys && ScheduledFollowup.fields[3].key in keys && ScheduledFollowup.fields[4].key in keys && ScheduledFollowup.fields[5].key in keys;
    }
  }

  lemma ColdOutreachWellFormed()
    ensures WellFormed(ColdOutreach)
  {
    assert DistinctKeys(ColdOutreach.fields);
    assert ChoicesNonEmpty(ColdOutreach.fields);
    assert SlotsDeclared(ColdOutreach) by {
      var keys := FieldKeys(ColdOutreach.fields);
      assert ColdOutreach.fields[0].key in keys && ColdOutreach.fields[1].key in keys && ColdOutreach.fields[2].key in keys && ColdOutreach.fields[3].key in keys && ColdOutreach.fields[4].key in keys;
    }
  }

  lemma ReEngagementWellFormed()
    ensures WellFormed(ReEngagement)
  {
    assert DistinctKeys(ReEngagement.fields);
    assert ChoicesNonEmpty(ReEngagement.fields);
    assert SlotsDeclared(ReEngagement) by {
      var keys := FieldKeys(ReEngagement.fields);
      assert ReEngagement.fields[0].key in keys && ReEngagement.fields[1].key in keys && ReEngagement.fields[2].key in keys && ReEngagement.fields[3].key in keys && ReEngagement.fields[4].key in keys;
    }
  }

  lemma InternalOpsWellFormed()
    ensures WellFormed(InternalOps)
  {
    assert DistinctKeys(InternalOps.fields);
    assert ChoicesNonEmpty(InternalOps.fields);
    assert SlotsDeclared(InternalOps) by {
      var keys := FieldKeys(InternalOps.fields);
      assert InternalOps.fields[0].key in keys && InternalOps.fields[1].key in keys && InternalOps.fields[2].key in keys && InternalOps.fields[3].key in keys && InternalOps.fields[4].key in keys;
    }
  }

  lemma RegistryWellFormed()
    ensures forall i :: 0 <= i < |Engines| ==> WellFormed(Engines[i])
  {
    FollowupLeadWellFormed();
    IndustryCampaignWellFormed();
    ScheduledFollowupWellFormed();
    ColdOutreachWellFormed();
    ReEngagementWellFormed();
    InternalOpsWellFormed();
  }

  /**
   * Every registered prompt opens with non-empty literal text, so whatever the values
   * (none at all included) the compiled prompt is never empty.
   */
  lemma CompileNeverEmpty(i: nat, f: Fields)
    requires i < |Engines|
    ensures |Compile(Engines[i].prompt, f)| > 0
  {
    var p := Engines[i].prompt;
    assert p[0].Lit? && |p[0].text| > 0;
    CompileAround(p, 0, f);
  }

  /** The six ids are pairwise distinct. */
  lemma IdsDistinct()
    ensures forall i, j :: 0 <= i < j < |Engines| ==> Engines[i].id != Engines[j].id
  {
  }

  /**
   * Looking up the id of a registered engine gives exactly that engine; looking up
   * null or an id no engine has gives nothing.
   */
  lemma FindRegistered(id: Option<string>)
    ensures forall i :: 0 <= i < |Engines| && id == Some(Engines[i].id) ==> Find(Engines, id) == Some(Engines[i])
    ensures Find(Engines, id).None? <==> id.None? || id.value !in Ids()
  {
    IdsDistinct();
  }

  /** The ids the sidebar offers. */
  function Ids(): (ids: set<string>)
    ensures forall i :: 0 <= i < |Engines| ==> Engines[i].id in ids
    ensures forall x :: x in ids ==> exists i :: 0 <= i < |Engines| && Engines[i].id == x
  {
    set i | 0 <= i < |Engines| :: Engines[i].id
  }

  /**
   * A registered template reads only the keys its own form declares: values stored
   * under any other key leave the compiled prompt unchanged.
   */
  lemma CompileIgnoresUndeclared(t: Template, f: Fields, key: string, v: string)
    requires WellFormed(t)
    requires key !in FieldKeys(t.fields)
    ensures Compile(t.prompt, f[key := v]) == Compile(t.prompt, f)
  {
    assert key !in SlotKeys(t.prompt);
    CompileIgnoresOtherKeys(t.prompt, f, key, v);
  }

  /** Two form states that agree on a template's declared keys compile to the same prompt. */
  lemma CompileDependsOnlyOnDeclared(t: Template, f: Fields, g: Fields)
    requires WellFormed(t)
    requires AgreeOn(f, g, FieldKeys(t.fields))
    ensures Compile(t.prompt, f) == Compile(t.prompt, g)
  {
    assert SlotKeys(t.prompt) <= FieldKeys(t.fields);
    CompileReadsOnlySlotKeys(t.prompt, f, g);
  }

  /**
   * The defaults of the slots that read `industry`, in template order: "[industry]" and
   * then "this industry". (The key is a parameter so that the solver does not unfold
   * the whole template on two constants.)
   */
  lemma {:induction false} IndustryDefaults(key: string)
    requires key == "industry"
    ensures SlotDefaults(IndustryCampaign.prompt, key) == ["[industry]", "this industry"]
  {
    var p := IndustryCampaign.prompt;
    IndustryOtherSegments(key);
    assert p == p[..7] + [p[7]] + p[8..24] + [p[24]] + p[25..];
    SlotDefaultsTwo(p, p[..7], p[7], p[8..24], p[24], p[25..], key);
  }

  /** Outside segments 7 and 24 no slot of the industry prompt reads `industry`. */
  lemma {:induction false} IndustryOtherSegments(key: string)
    requires key == "industry"
    ensures SlotDefaults(IndustryCampaign.prompt[..7], key) == []
    ensures SlotDefaults(IndustryCampaign.prompt[8..24], key) == []
    ensures SlotDefaults(IndustryCampaign.prompt[25..], key) == []
  {
    var p := IndustryCampaign.prompt;
    var a, b, c := p[..7], p[8..24], p[25..];
    assert forall i :: 0 <= i < |p| && i != 7 && i != 24 ==> !(p[i].Slot? && p[i].key == key);
    assert forall i :: 0 <= i < |b| ==> b[i] == p[i + 8];
    assert forall i :: 0 <= i < |c| ==> c[i] == p[i + 25];
    SlotDefaultsUnread(a, key);
    SlotDefaultsUnread(b, key);
    SlotDefaultsUnread(c, key);
  }

  /**
   * `industry` is read by two slots with different defaults: a non-empty value fills
   * both, while "" or a missing key gives "[industry]" in one and "this industry" in the other.
   */
  lemma IndustryFillsBothSlots(f: Fields)
    ensures forall i ::
      (0 <= i < |IndustryCampaign.prompt| && IndustryCampaign.prompt[i].Slot? && IndustryCampaign.prompt[i].key == "industry")
      ==> i == 7 || i == 24
    ensures Value(f, "industry") != "" ==>
      Emit(IndustryCampaign.prompt[7], f) == Emit(IndustryCampaign.prompt[24], f) == f["industry"]
    ensures Value(f, "industry") == "" ==>
      Emit(IndustryCampaign.prompt[7], f) == "[industry]" && Emit(IndustryCampaign.prompt[24], f) == "this industry"
  {
  }

  /** Slot defaults are not always among the field's options: "Mid-Market" is no company-size option. */
  lemma DefaultNotAnOption()
    ensures exists i, j ::
      && 0 <= i < |IndustryCampaign.prompt| && 0 <= j < |IndustryCampaign.fields|
      && IndustryCampaign.prompt[i].Slot? && IndustryCampaign.fields[j].kind.Choice?
      && IndustryCampaign.prompt[i].key == IndustryCampaign.fields[j].key
      && IndustryCampaign.prompt[i].default !in IndustryCampaign.fields[j].kind.options
  {
    assert IndustryCampaign.prompt[5] == Slot("companySize", "Mid-Market");
    assert "Mid-Market" !in IndustryCampaign.fields[2].kind.options;
  }

  /**
   * Left empty (in particular with no values at all), the cold-outreach prompt shows
   * the placeholders for prospect and company.
   */
  lemma ColdOutreachPlaceholders(f: Fields)
    ensures Value(f, "prospectName") == "" ==> Contains(Compile(ColdOutreach.prompt, f), "[Prospect]")
    ensures Value(f, "company") == "" ==> Contains(Compile(ColdOutreach.prompt, f), "[Company]")
  {
    if Value(f, "prospectName") == "" {
      DefaultShown(ColdOutreach.prompt, 1, f);
    }
    if Value(f, "company") == "" {
      DefaultShown(ColdOutreach.prompt, 5, f);
    }
  }

  /** The first four segments of the ops prompt with a brief type chosen and no audience. */
  lemma InternalOpsHead(f: Fields)
    requires Value(f, "briefType") == "Deal Status Update" && Value(f, "audience") == ""
    ensures Compile(InternalOps.prompt[..4], f)
      == "You are a Revenue Operations analyst at Scryp. Write a " + "Deal Status Update" + " for " + "Sales Leadership"
  {
    var p := InternalOps.prompt;
    CompileHead4(p, f);
    assert Emit(p[1], f) == "Deal Status Update";
    assert Emit(p[3], f) == "Sales Leadership";
  }

  /**
   * The opening literal of the ops prompt holds no line break and no letter 'k'. The
   * letter 'k' serves as a witness: it occurs in "Weekly Pipeline Summary" but nowhere in
   * the first line, so that phrase cannot occur there.
   */
  lemma InternalOpsOpeningChars()
    ensures '\n' !in InternalOps.prompt[0].text && 'k' !in InternalOps.prompt[0].text
  {
    var t := InternalOps.prompt[0].text;
    OpeningSplit(t);
    OpeningRoleChars("You are a Revenue Operations ");
    OpeningTaskChars("analyst at Scryp. Write a ");
  }

  /** The opening literal in two pieces short enough to check character by character. */
  lemma OpeningSplit(t: string)
    requires t == "You are a Revenue Operations analyst at Scryp. Write a "
    ensures t == "You are a Revenue Operations " + "analyst at Scryp. Write a "
  {
  }

  lemma OpeningRoleChars(t: string)
    requires t == "You are a Revenue Operations "
    ensures '\n' !in t && 'k' !in t
  {
  }

  lemma OpeningTaskChars(t: string)
    requires t == "analyst at Scryp. Write a "
    ensures '\n' !in t && 'k' !in t
  {
  }

  /** Under those values the first four segments emit no line break and no letter 'k'. */
  lemma InternalOpsHeadLacks(f: Fields, c: char)
    requires Value(f, "briefType") == "Deal Status Update" && Value(f, "audience") == ""
    requires c == '\n' || c == 'k'
    ensures c !in Compile(InternalOps.prompt[..4], f)
  {
    var p := InternalOps.prompt;
    InternalOpsHead(f);
    InternalOpsOpeningChars();
    var brief, sep, audience := "Deal Status Update", " for ", "Sales Leadership";
    assert c !in brief && c !in sep && c !in audience;
    assert Compile(p[..4], f) == p[0].text + brief + sep + audience;
  }

  /** The first line of the ops prompt ends with the literal after the audience slot. */
  lemma InternalOpsFirstLine(f: Fields)
    requires '\n' !in Compile(InternalOps.prompt[..4], f)
    ensures FirstLine(Compile(InternalOps.prompt, f)) == Compile(InternalOps.prompt[..4], f) + "."
  {
    FirstLineAtBreak(InternalOps.prompt, 4, f, ".");
  }

  /**
   * Choosing "Deal Status Update" as the ops brief type (audience left empty) puts it in
   * the first line of the prompt in place of the default "Weekly Pipeline Summary".
   */
  lemma InternalOpsDealStatus(f: Fields)
    requires Value(f, "briefType") == "Deal Status Update" && Value(f, "audience") == ""
    ensures FirstLine(Compile(InternalOps.prompt, f))
      == "You are a Revenue Operations analyst at Scryp. Write a " + "Deal Status Update" + " for " + "Sales Leadership" + "."
    ensures !Contains(FirstLine(Compile(InternalOps.prompt, f)), "Weekly Pipeline Summary")
  {
    InternalOpsHeadLacks(f, '\n');
    InternalOpsHeadLacks(f, 'k');
    InternalOpsFirstLine(f);
    InternalOpsHead(f);
    var line := FirstLine(Compile(InternalOps.prompt, f));
    assert 'k' !in line;
    if Contains(line, "Weekly Pipeline Summary") {
      ContainsChars(line, "Weekly Pipeline Summary", 'k');
      assert false;
    }
  }
}
