/**
  Prompt composition of the intern-event generator: the system prompt, the
  context helpers that append optional blocks, and the three user-prompt
  builders (one event, a set for one discipline, all three disciplines).

  Everything here is a pure function of its inputs. The long prose texts
  (the per-discipline guidance, the event format template, the base and
  rules of the system prompt, the cross-discipline instruction, the codebase
  notes and the fixed sentences between interpolated values) are `<...>`
  stand-in constants. The section markers, the opening of the exclusivity
  paragraph, the first words of the cascade paragraph and of the rules, the closer, the one-event suffix and the week-span and
  event-count sentences are written out as the source has them.

  Python f-strings are modelled with `+`; an interpolated `int` is rendered by
  `IntToString`, and an interpolated `None` by the text "None".
 */
module Prompts {
  import opened Text

  // ---------------------------------------------------------------------------
  // Configuration constants
  // ---------------------------------------------------------------------------

  const BusinessGuidance := "<Business guidance>"
  const SystemsEngineerGuidance := "<Systems Engineer guidance>"
  const DeveloperGuidance := "<Developer guidance>"

  /** `DISCIPLINE_GUIDANCE`, whose keys are the three disciplines. */
  const DisciplineGuidance: map<string, string> := map[
    "Business" := BusinessGuidance,
    "Systems Engineer" := SystemsEngineerGuidance,
    "Developer" := DeveloperGuidance
  ]

  /** `EVENT_FORMAT`, the markdown template every event must follow. */
  const EventFormat := "<event format template>"

  /** `PROMPT_CLOSER`, appended to the very end of every user prompt. */
  const PromptCloser :=
    "\n\nIMPORTANT: Do NOT ask any questions. Do NOT add any introduction, "
    + "commentary, or explanation. You have everything you need above. "
    + "Begin your response IMMEDIATELY with '## Week' and generate the events. "
    + "Your very first characters must be '## Week'."

  /** What the one-event prompt adds after the closer. */
  const SingleEventSuffix := " Generate ONLY ONE event. Stop after the --- separator."

  /** Python's rendering of an optional string inside an f-string. */
  function Show(s: Option<string>): string {
    if s.Some? then s.value else "None"
  }

  /** `DISCIPLINE_GUIDANCE.get(discipline, "")`. */
  function GuidanceFor(discipline: Option<string>): string {
    if discipline.Some? && discipline.value in DisciplineGuidance then DisciplineGuidance[discipline.value] else ""
  }

  /** An unknown or missing discipline gets empty guidance; each known one gets its own, non-empty text. */
  lemma GuidanceLookup(discipline: Option<string>)
    ensures GuidanceFor(discipline) == "" <==> discipline.None? || discipline.value !in DisciplineGuidance
    ensures forall d1, d2 | d1 in DisciplineGuidance && d2 in DisciplineGuidance && d1 != d2
              :: DisciplineGuidance[d1] != DisciplineGuidance[d2]
  {
    assert BusinessGuidance[1] == 'B' && SystemsEngineerGuidance[1] == 'S' && DeveloperGuidance[1] == 'D';
  }

  // ---------------------------------------------------------------------------
  // System prompt
  // ---------------------------------------------------------------------------

  const SystemBase := "<simulation-engine role and world-building instructions>\n\n"

  /** The paragraph added in `all` mode: events cascade across disciplines. */
  const CascadePrinciple := "KEY PRINCIPLE: " + "<events cascade from Business to Systems Engineer to Developer>\n\n"

  const ExclusivityOpening := "You are generating events for the '"

  /** The paragraph that restricts output to one named discipline, naming it twice. */
  function ExclusivityParagraph(discipline: string): string {
    ExclusivityOpening + ExclusivityClause(discipline)
  }

  function ExclusivityClause(discipline: string): string {
    discipline + "' discipline ONLY. "
    + "Do NOT generate events for any other discipline. Every event you "
    + "output must be for '" + discipline + "' and no other role.\n\n"
  }

  const SystemRules := "Rules:\n" + "<one event per week; concrete situations; no preamble>\n"

  /** The first characters that tell the optional system-prompt paragraphs apart. */
  lemma SystemHeads()
    ensures CascadePrinciple[0] == 'K' && ExclusivityOpening[0] == 'Y' && SystemRules[0] == 'R'
  {
    HeadOfConcat("KEY PRINCIPLE: ", "<events cascade from Business to Systems Engineer to Developer>\n\n");
    HeadOfConcat("Rules:\n", "<one event per week; concrete situations; no preamble>\n");
  }

  /** The paragraph between the base text and the rules, chosen by `_build_system_prompt`. */
  function SystemMiddle(mode: string, discipline: Option<string>): string {
    if mode == "all" then CascadePrinciple
    else if Truthy(discipline) then ExclusivityParagraph(discipline.value)
    else ""
  }

  /**
    `_build_system_prompt`: every system prompt starts with the base text and
    ends with the rules, and what follows the base text is the mode's
    paragraph and then the rules.
   */
  function SystemPrompt(mode: string, discipline: Option<string>): (r: string)
    ensures StartsWith(r, SystemBase) && EndsWith(r, SystemRules)
    ensures r[|SystemBase|..] == SystemMiddle(mode, discipline) + SystemRules
  {
    var middle := SystemMiddle(mode, discipline);
    PrefixOfConcat(SystemBase, middle + SystemRules);
    DropPrefix(SystemBase, middle + SystemRules);
    ConcatAssoc(SystemBase, middle, SystemRules);
    SuffixOfConcat(SystemBase + middle, SystemRules);
    SystemBase + (middle + SystemRules)
  }

  /** What follows the base text tells the three cases apart by its opening. */
  lemma SystemMiddleChoice(mode: string, discipline: Option<string>)
    ensures var tail := SystemMiddle(mode, discipline) + SystemRules;
      && (StartsWith(tail, CascadePrinciple) <==> mode == "all")
      && (StartsWith(tail, ExclusivityOpening) <==> mode != "all" && Truthy(discipline))
      && (mode != "all" && Truthy(discipline) ==> StartsWith(tail, ExclusivityParagraph(discipline.value)))
      && (mode != "all" && !Truthy(discipline) ==> tail == SystemRules)
  {
    var middle := SystemMiddle(mode, discipline);
    var tail := middle + SystemRules;
    SystemHeads();
    PrefixOfConcat(middle, SystemRules);
    if mode == "all" {
      HeadOfConcat(CascadePrinciple, SystemRules);
      NotPrefixByHead(ExclusivityOpening, tail);
    } else if Truthy(discipline) {
      var clause := ExclusivityClause(discipline.value);
      ConcatAssoc(ExclusivityOpening, clause, SystemRules);
      PrefixOfConcat(ExclusivityOpening, clause + SystemRules);
      HeadOfConcat(ExclusivityOpening, clause + SystemRules);
      NotPrefixByHead(CascadePrinciple, tail);
    } else {
      assert tail == SystemRules;
      NotPrefixByHead(CascadePrinciple, tail);
      NotPrefixByHead(ExclusivityOpening, tail);
    }
  }

  /**
    The system prompt starts with the fixed base text and ends with the fixed
    rules block; right after the base text comes the cascade principle exactly
    in `all` mode, and the exclusivity paragraph for the discipline exactly
    when the mode is not `all` and a non-empty discipline is given. With
    neither, it is the base text followed directly by the rules.
   */
  lemma SystemPromptShape(mode: string, discipline: Option<string>)
    ensures var r := SystemPrompt(mode, discipline);
      && StartsWith(r, SystemBase)
      && EndsWith(r, SystemRules)
      && (StartsWith(r[|SystemBase|..], CascadePrinciple) <==> mode == "all")
      && (StartsWith(r[|SystemBase|..], ExclusivityOpening) <==> mode != "all" && Truthy(discipline))
      && (mode != "all" && Truthy(discipline) ==>
            StartsWith(r[|SystemBase|..], ExclusivityParagraph(discipline.value)))
      && (mode != "all" && !Truthy(discipline) ==> r == SystemBase + SystemRules)
  {
    SystemMiddleChoice(mode, discipline);
  }

  // ---------------------------------------------------------------------------
  // Context helpers
  // ---------------------------------------------------------------------------

  const PreviousEventsOpen := "\n\n--- PREVIOUS EVENTS ---\n"
  const PreviousEventsClose := "\n--- END PREVIOUS EVENTS ---\n"
  const FeedbackOpen := "\n\n--- FEEDBACK ---\n"
  const FeedbackClose := "\n--- END FEEDBACK ---\n"

  /** `block` opens with `open`, and ends with `body` immediately followed by `close`. */
  predicate Encloses(block: string, open: string, body: string, close: string) {
    && |open| + |body| + |close| <= |block|
    && StartsWith(block, open)
    && EndsWith(block, close)
    && block[|block| - |close| - |body|..|block| - |close|] == body
  }

  function PreviousEventsBlock(events: string): string {
    PreviousEventsOpen + "<new events must build on these and not repeat them>\n\n"
    + events + PreviousEventsClose
  }

  /**
    `_add_previous_events_context`: no change when there are no previous events
    (`None` or empty); otherwise the prompt is kept as a prefix and the events
    are appended between the PREVIOUS EVENTS markers.
   */
  function AddPreviousEventsContext(prompt: string, previous: Option<string>): (r: string)
    ensures r == prompt <==> !Truthy(previous)
    ensures StartsWith(r, prompt)
    ensures Truthy(previous) ==> Encloses(r[|prompt|..], PreviousEventsOpen, previous.value, PreviousEventsClose)
  {
    if Truthy(previous) then
      var block := PreviousEventsBlock(previous.value);
      assert (prompt + block)[|prompt|..] == block;
      prompt + block
    else prompt
  }

  function FeedbackBlock(feedback: string): string {
    FeedbackOpen + "<take this feedback into account>\n\n"
    + feedback + FeedbackClose
  }

  /** Feedback that `_add_feedback_context` uses: present and not whitespace only. */
  predicate HasFeedback(feedback: Option<string>) {
    feedback.Some? && Strip(feedback.value) != ""
  }

  /**
    `_add_feedback_context`: no change when the feedback is `None` or only
    whitespace; otherwise the prompt is kept as a prefix and the STRIPPED
    feedback is appended between the FEEDBACK markers.
   */
  function AddFeedbackContext(prompt: string, feedback: Option<string>): (r: string)
    ensures r == prompt <==> feedback.None? || IsBlank(feedback.value)
    ensures StartsWith(r, prompt)
    ensures HasFeedback(feedback) ==> Encloses(r[|prompt|..], FeedbackOpen, Strip(feedback.value), FeedbackClose)
  {
    if HasFeedback(feedback) then
      var block := FeedbackBlock(Strip(feedback.value));
      assert (prompt + block)[|prompt|..] == block;
      prompt + block
    else prompt
  }

  const CrossReferenceInstruction := "\n\nCROSS-DISCIPLINE REFERENCES: <same-week events reference each other causally>"

  /** `_add_cross_reference_instruction`: appends the cross-discipline instruction. */
  function AddCrossReferenceInstruction(prompt: string): (r: string)
    ensures StartsWith(r, prompt) && EndsWith(r, CrossReferenceInstruction)
  {
    prompt + CrossReferenceInstruction
  }

  const CodebaseLead := "\n\n<codebase files are available as context> "
  const SingleCodebaseNote := "<the event need not involve code>\n\n"
  const SetCodebaseNote := "<not every event needs to involve code>\n\n"

  function CodebaseBlock(note: string, context: string): string {
    CodebaseLead + note + context
  }

  // ---------------------------------------------------------------------------
  // The appended sections, as a reference model of the builders' tail
  // ---------------------------------------------------------------------------

  /** One of the blocks a builder appends after its introduction. */
  datatype Section =
    | CrossReference
    | PreviousEvents(events: string)
    | Feedback(text: string)
    | Codebase(note: string, context: string)
    | Closer(suffix: string)

  /** The position of a section kind in the fixed order. */
  function Rank(s: Section): nat {
    match s
    case CrossReference => 0
    case PreviousEvents(_) => 1
    case Feedback(_) => 2
    case Codebase(_, _) => 3
    case Closer(_) => 4
  }

  function SectionText(s: Section): string {
    match s
    case CrossReference => CrossReferenceInstruction
    case PreviousEvents(events) => PreviousEventsBlock(events)
    case Feedback(text) => FeedbackBlock(text)
    case Codebase(note, context) => CodebaseBlock(note, context)
    case Closer(suffix) => PromptCloser + suffix
  }

  function Render(sections: seq<Section>): string {
    if sections == [] then "" else Render(sections[..|sections| - 1]) + SectionText(sections[|sections| - 1])
  }

  lemma RenderSnoc(sections: seq<Section>, s: Section)
    ensures Render(sections + [s]) == Render(sections) + SectionText(s)
  {
    assert (sections + [s])[..|sections|] == sections;
  }

  function Count(b: bool): nat {
    if b then 1 else 0
  }

  /** Section kinds strictly increase along `ss`. */
  predicate Ordered(ss: seq<Section>) {
    forall i, j | 0 <= i < j < |ss| :: Rank(ss[i]) < Rank(ss[j])
  }

  /** Every section of `ss` has a kind in `lo..hi-1`. */
  predicate RanksWithin(ss: seq<Section>, lo: nat, hi: nat) {
    forall i | 0 <= i < |ss| :: lo <= Rank(ss[i]) < hi
  }

  /** Appends `s` when `b` holds. */
  function AppendIf(b: bool, ss: seq<Section>, s: Section): seq<Section> {
    if b then ss + [s] else ss
  }

  /** Appending (or not) a section of a later kind keeps the order and widens the range by that kind. */
  lemma AppendIfOrdered(b: bool, ss: seq<Section>, s: Section, lo: nat)
    requires Ordered(ss) && RanksWithin(ss, lo, Rank(s)) && lo <= Rank(s)
    ensures Ordered(AppendIf(b, ss, s)) && RanksWithin(AppendIf(b, ss, s), lo, Rank(s) + 1)
    ensures |AppendIf(b, ss, s)| == |ss| + Count(b)
    ensures b ==> s in AppendIf(b, ss, s)
  {
    if b {
      var t := ss + [s];
      assert t[|ss|] == s;
    }
  }

  /**
    The sections that follow a builder's introduction: the cross-reference
    instruction when asked for, the previous events when there are any, the
    stripped feedback when it is not blank, the codebase context when it is
    not empty, and always the closer, in this order.
   */
  function Sections(crossReference: bool, previous: Option<string>, feedback: Option<string>,
                    codebase: Option<string>, note: string, suffix: string): seq<Section>
  {
    AppendIf(true, OptionalSections(previous, feedback, codebase, note, AppendIf(crossReference, [], CrossReference)),
             Closer(suffix))
  }

  /** The previous-events, feedback and codebase sections, appended to `ss` in this order. */
  function OptionalSections(previous: Option<string>, feedback: Option<string>, codebase: Option<string>,
                            note: string, ss: seq<Section>): seq<Section>
  {
    var s1 := AppendIf(Truthy(previous), ss, PreviousEvents(previous.GetOr("")));
    var s2 := AppendIf(HasFeedback(feedback), s1, Feedback(Strip(feedback.GetOr(""))));
    AppendIf(Truthy(codebase), s2, Codebase(note, codebase.GetOr("")))
  }

  lemma OptionalSectionsShape(previous: Option<string>, feedback: Option<string>, codebase: Option<string>,
                              note: string, ss: seq<Section>, lo: nat)
    requires Ordered(ss) && RanksWithin(ss, lo, 1) && lo <= 1
    ensures var r := OptionalSections(previous, feedback, codebase, note, ss);
      && Ordered(r) && RanksWithin(r, lo, 4)
      && |r| == |ss| + Count(Truthy(previous)) + Count(HasFeedback(feedback)) + Count(Truthy(codebase))
      && (Truthy(previous) ==> PreviousEvents(previous.value) in r)
      && (HasFeedback(feedback) ==> Feedback(Strip(feedback.value)) in r)
      && (Truthy(codebase) ==> Codebase(note, codebase.value) in r)
  {
    var s1 := AppendIf(Truthy(previous), ss, PreviousEvents(previous.GetOr("")));
    var s2 := AppendIf(HasFeedback(feedback), s1, Feedback(Strip(feedback.GetOr(""))));
    AppendIfOrdered(Truthy(previous), ss, PreviousEvents(previous.GetOr("")), lo);
    AppendIfOrdered(HasFeedback(feedback), s1, Feedback(Strip(feedback.GetOr(""))), lo);
    AppendIfOrdered(Truthy(codebase), s2, Codebase(note, codebase.GetOr("")), lo);
    assert forall x | x in s1 :: x in s2;
    assert forall x | x in s2 :: x in OptionalSections(previous, feedback, codebase, note, ss);
  }

  /** The sections before the closer, and the lowest kind among them. */
  lemma SectionsPrefix(crossReference: bool, previous: Option<string>, feedback: Option<string>,
                       codebase: Option<string>, note: string)
    ensures var s0 := AppendIf(crossReference, [], CrossReference);
            var s3 := OptionalSections(previous, feedback, codebase, note, s0);
            var lo := if crossReference then 0 else 1;
      && Ordered(s3) && RanksWithin(s3, lo, 4)
      && (Truthy(previous) ==> PreviousEvents(previous.value) in s3)
      && (HasFeedback(feedback) ==> Feedback(Strip(feedback.value)) in s3)
      && (Truthy(codebase) ==> Codebase(note, codebase.value) in s3)
      && (crossReference ==> CrossReference in s3)
  {
    var s0 := AppendIf(crossReference, [], CrossReference);
    var lo := if crossReference then 0 else 1;
    AppendIfOrdered(crossReference, [], CrossReference, 0);
    assert RanksWithin(s0, lo, 1);
    OptionalSectionsShape(previous, feedback, codebase, note, s0, lo);
    if crossReference {
      assert OptionalSections(previous, feedback, codebase, note, s0)[0] == CrossReference;
    }
  }

  /**
    The section list is in strictly increasing kind order and ends with the
    closer; the cross-reference instruction is in it exactly when asked for.
   */
  lemma SectionsOrdered(crossReference: bool, previous: Option<string>, feedback: Option<string>,
                        codebase: Option<string>, note: string, suffix: string)
    ensures var ss := Sections(crossReference, previous, feedback, codebase, note, suffix);
      && Ordered(ss)
      && ss != [] && ss[|ss| - 1] == Closer(suffix)
      && (CrossReference in ss <==> crossReference)
  {
    var s3 := OptionalSections(previous, feedback, codebase, note, AppendIf(crossReference, [], CrossReference));
    var lo := if crossReference then 0 else 1;
    SectionsPrefix(crossReference, previous, feedback, codebase, note);
    AppendIfOrdered(true, s3, Closer(suffix), lo);
    var ss := s3 + [Closer(suffix)];
    if crossReference {
      assert ss[0] == CrossReference;
    } else {
      forall k | 0 <= k < |ss| ensures ss[k] != CrossReference {
        assert 1 <= Rank(ss[k]);
      }
    }
  }

  /** Each optional section whose condition holds is in the section list. */
  lemma SectionsContain(crossReference: bool, previous: Option<string>, feedback: Option<string>,
                        codebase: Option<string>, note: string, suffix: string)
    ensures var ss := Sections(crossReference, previous, feedback, codebase, note, suffix);
      && (Truthy(previous) ==> PreviousEvents(previous.value) in ss)
      && (HasFeedback(feedback) ==> Feedback(Strip(feedback.value)) in ss)
      && (Truthy(codebase) ==> Codebase(note, codebase.value) in ss)
  {
    var s3 := OptionalSections(previous, feedback, codebase, note, AppendIf(crossReference, [], CrossReference));
    SectionsPrefix(crossReference, previous, feedback, codebase, note);
    assert forall x | x in s3 :: x in s3 + [Closer(suffix)];
  }

  /** The section list counts exactly the conditions that hold, so it holds no other section. */
  lemma SectionsLength(crossReference: bool, previous: Option<string>, feedback: Option<string>,
                       codebase: Option<string>, note: string, suffix: string)
    ensures |Sections(crossReference, previous, feedback, codebase, note, suffix)|
            == Count(crossReference) + Count(Truthy(previous)) + Count(HasFeedback(feedback))
               + Count(Truthy(codebase)) + 1
  {
    var s0 := AppendIf(crossReference, [], CrossReference);
    var lo := if crossReference then 0 else 1;
    AppendIfOrdered(crossReference, [], CrossReference, 0);
    assert RanksWithin(s0, lo, 1);
    OptionalSectionsShape(previous, feedback, codebase, note, s0, lo);
  }

  /** The text after the introduction, built step by step as the builders do. */
  function AppendTail(intro: string, crossReference: bool, previous: Option<string>, feedback: Option<string>,
                      codebase: Option<string>, note: string, suffix: string): string
  {
    var p0 := if crossReference then AddCrossReferenceInstruction(intro) else intro;
    var p1 := AddPreviousEventsContext(p0, previous);
    var p2 := AddFeedbackContext(p1, feedback);
    var p3 := if Truthy(codebase) then p2 + CodebaseBlock(note, codebase.value) else p2;
    p3 + PromptCloser + suffix
  }

  /** Appending a section's text to a rendered prefix renders the longer section list. */
  lemma RenderStep(p: string, intro: string, ss: seq<Section>, b: bool, s: Section)
    requires p == intro + Render(ss)
    ensures p + (if b then SectionText(s) else "") == intro + Render(AppendIf(b, ss, s))
  {
    if b {
      RenderSnoc(ss, s);
      ConcatAssoc(intro, Render(ss), SectionText(s));
    } else {
      ConcatEmpty(p);
    }
  }

  lemma CrossReferenceStep(intro: string, crossReference: bool)
    ensures (if crossReference then AddCrossReferenceInstruction(intro) else intro)
            == intro + Render(AppendIf(crossReference, [], CrossReference))
  {
    ConcatEmpty(intro);
    RenderStep(intro, intro, [], crossReference, CrossReference);
  }

  lemma PreviousEventsStep(p: string, intro: string, ss: seq<Section>, previous: Option<string>)
    requires p == intro + Render(ss)
    ensures AddPreviousEventsContext(p, previous)
            == intro + Render(AppendIf(Truthy(previous), ss, PreviousEvents(previous.GetOr(""))))
  {
    ConcatEmpty(p);
    RenderStep(p, intro, ss, Truthy(previous), PreviousEvents(previous.GetOr("")));
  }

  lemma FeedbackStep(p: string, intro: string, ss: seq<Section>, feedback: Option<string>)
    requires p == intro + Render(ss)
    ensures AddFeedbackContext(p, feedback)
            == intro + Render(AppendIf(HasFeedback(feedback), ss, Feedback(Strip(feedback.GetOr("")))))
  {
    ConcatEmpty(p);
    RenderStep(p, intro, ss, HasFeedback(feedback), Feedback(Strip(feedback.GetOr(""))));
  }

  lemma CodebaseStep(p: string, intro: string, ss: seq<Section>, codebase: Option<string>, note: string)
    requires p == intro + Render(ss)
    ensures (if Truthy(codebase) then p + CodebaseBlock(note, codebase.value) else p)
            == intro + Render(AppendIf(Truthy(codebase), ss, Codebase(note, codebase.GetOr(""))))
  {
    ConcatEmpty(p);
    RenderStep(p, intro, ss, Truthy(codebase), Codebase(note, codebase.GetOr("")));
  }

  lemma CloserStep(p: string, intro: string, ss: seq<Section>, suffix: string)
    requires p == intro + Render(ss)
    ensures p + PromptCloser + suffix == intro + Render(AppendIf(true, ss, Closer(suffix)))
  {
    RenderStep(p, intro, ss, true, Closer(suffix));
    ConcatAssoc(p, PromptCloser, suffix);
  }

  /** The step-by-step appends produce exactly the rendered section list. */
  lemma AppendTailRendersSections(intro: string, crossReference: bool, previous: Option<string>,
                                  feedback: Option<string>, codebase: Option<string>, note: string, suffix: string)
    ensures AppendTail(intro, crossReference, previous, feedback, codebase, note, suffix)
            == intro + Render(Sections(crossReference, previous, feedback, codebase, note, suffix))
  {
    var s0 := AppendIf(crossReference, [], CrossReference);
    var s1 := AppendIf(Truthy(previous), s0, PreviousEvents(previous.GetOr("")));
    var s2 := AppendIf(HasFeedback(feedback), s1, Feedback(Strip(feedback.GetOr(""))));
    var s3 := AppendIf(Truthy(codebase), s2, Codebase(note, codebase.GetOr("")));
    var p0 := if crossReference then AddCrossReferenceInstruction(intro) else intro;
    var p1 := AddPreviousEventsContext(p0, previous);
    var p2 := AddFeedbackContext(p1, feedback);
    var p3 := if Truthy(codebase) then p2 + CodebaseBlock(note, codebase.value) else p2;
    CrossReferenceStep(intro, crossReference);
    PreviousEventsStep(p0, intro, s0, previous);
    FeedbackStep(p1, intro, s1, feedback);
    CodebaseStep(p2, intro, s2, codebase, note);
    CloserStep(p3, intro, s3, suffix);
  }

  // ---------------------------------------------------------------------------
  // User-prompt builders
  // ---------------------------------------------------------------------------

  const WeekWord := "Week "
  const AnyWeek := "a week"

  /**
    The label of the week in the one-event prompt. It is the generic `a week`
    exactly when `week_number` is falsy (`None` or 0); otherwise it is `Week `
    followed by a number that reads back as the week number.
   */
  function WeekLabel(weekNumber: Option<int>): (r: string)
    ensures r == AnyWeek <==> weekNumber.None? || weekNumber.value == 0
    ensures weekNumber.Some? && weekNumber.value != 0 ==>
              StartsWith(r, WeekWord) && ParseInt(r[|WeekWord|..]) == weekNumber.value
  {
    if weekNumber.Some? && weekNumber.value != 0 then
      var digits := IntToString(weekNumber.value);
      IntRoundTrip(weekNumber.value);
      PrefixOfConcat(WeekWord, digits);
      DropPrefix(WeekWord, digits);
      assert (WeekWord + digits)[0] != AnyWeek[0];
      WeekWord + digits
    else
      AnyWeek
  }

  // The fixed pieces of the introductions, between the interpolated values.
  const ReadmeOpen := "--- PROJECT README ---\n"
  const ReadmeClose := "\n--- END README ---\n\n"
  const InternIn := "for an intern in the '"
  const DisciplineOnly := "' discipline. ONLY '"
  const GuidanceHeading := "Discipline guidance for "
  const SingleLead := "Generate EXACTLY ONE event — a single event — for "
  const SingleRules := "' <no other discipline; exactly one event; stop after the first --->\n\n"
  const SetLead := "Generate a set of "
  const SetRules := "' <no other discipline>. Every event must have **Discipline:** "
  const NarrativeLead := "The events must form a continuous narrative over "
  const NarrativeRest := " weeks. <later events build on earlier ones>\n\n"
  const AllLead := "Generate a coordinated set of weekly events for THREE interns <one per discipline>.\n\n"
  const AllGuidanceHeading := "Discipline guidance for each role:\n"
  const CountLead := "Generate events for "

  function ReadmeBlock(description: string): string {
    ReadmeOpen + description + ReadmeClose
  }

  /** The guidance paragraph of a one-discipline prompt. */
  function GuidanceBlock(discipline: Option<string>): string {
    GuidanceHeading + Show(discipline) + ":\n" + GuidanceFor(discipline) + "\n\n"
  }

  /** The opening of the one-event prompt, which names the week. */
  function SingleEventOpening(weekNumber: Option<int>): string {
    SingleLead + WeekLabel(weekNumber) + " "
  }

  function SingleEventBody(description: string, discipline: Option<string>): string {
    InternIn + Show(discipline) + DisciplineOnly + Show(discipline) + SingleRules
    + ReadmeBlock(description)
    + GuidanceBlock(discipline)
    + EventFormat
  }

  function SingleEventIntro(description: string, discipline: Option<string>, weekNumber: Option<int>): string {
    SingleEventOpening(weekNumber) + SingleEventBody(description, discipline)
  }

  /**
    `_build_single_event_prompt`: the introduction, the previous events, the
    feedback, the codebase context with its one-event note, and the closer
    followed by the one-event instruction.
   */
  function SingleEventPrompt(description: string, discipline: Option<string>, codebase: Option<string>,
                             previous: Option<string>, feedback: Option<string>, weekNumber: Option<int>): (r: string)
    ensures StartsWith(r, SingleEventIntro(description, discipline, weekNumber))
    ensures EndsWith(r, PromptCloser + SingleEventSuffix)
  {
    var intro := SingleEventIntro(description, discipline, weekNumber);
    AppendTailFrame(intro, false, previous, feedback, codebase, SingleCodebaseNote, SingleEventSuffix);
    AppendTail(intro, false, previous, feedback, codebase, SingleCodebaseNote, SingleEventSuffix)
  }

  /** "Week S through Week E" as the set and all-disciplines prompts write it. */
  function WeekSpan(startWeek: int, endWeek: int): string {
    "Week " + IntToString(startWeek) + " through Week " + IntToString(endWeek)
  }

  /** The last week of a run of `numWeeks` weeks starting at `startWeek`. */
  function EndWeek(startWeek: int, numWeeks: int): int {
    startWeek + numWeeks - 1
  }

  function SetIntroLead(numWeeks: int): string {
    SetLead + IntToString(numWeeks) + " weekly events ("
  }

  function SetIntroRest(description: string, discipline: Option<string>, numWeeks: int): string {
    ") "
    + InternIn + Show(discipline) + DisciplineOnly + Show(discipline) + SetRules + Show(discipline) + ".\n\n"
    + ReadmeBlock(description)
    + GuidanceBlock(discipline)
    + NarrativeLead + IntToString(numWeeks) + NarrativeRest
    + EventFormat
  }

  function SetIntro(description: string, discipline: Option<string>, numWeeks: int, startWeek: int): string {
    SetIntroLead(numWeeks) + WeekSpan(startWeek, EndWeek(startWeek, numWeeks))
    + SetIntroRest(description, discipline, numWeeks)
  }

  /**
    `_build_set_prompt`: the introduction, the previous events, the feedback,
    the codebase context with its set note, and the closer.
   */
  function SetPrompt(description: string, discipline: Option<string>, numWeeks: int, codebase: Option<string>,
                     previous: Option<string>, feedback: Option<string>, startWeek: int): (r: string)
    ensures StartsWith(r, SetIntro(description, discipline, numWeeks, startWeek))
    ensures EndsWith(r, PromptCloser)
  {
    var intro := SetIntro(description, discipline, numWeeks, startWeek);
    AppendTailFrame(intro, false, previous, feedback, codebase, SetCodebaseNote, "");
    ConcatEmpty(PromptCloser);
    AppendTail(intro, false, previous, feedback, codebase, SetCodebaseNote, "")
  }

  /** The heading and guidance of one discipline in the all-disciplines prompt. */
  function GuidanceEntry(discipline: string): string {
    "### " + discipline + "\n" + GuidanceFor(Some(discipline))
  }

  /** The guidance of every discipline, in the dictionary's order, each under its own heading. */
  const AllGuidance := GuidanceEntry("Business") + "\n\n" + GuidanceEntry("Systems Engineer") + "\n\n"
                       + GuidanceEntry("Developer")

  /** The all-disciplines guidance is the blank-line join of the three entries, as the source writes it. */
  lemma AllGuidanceIsJoin()
    ensures AllGuidance == Join("\n\n", [GuidanceEntry("Business"), GuidanceEntry("Systems Engineer"),
                                          GuidanceEntry("Developer")])
  {
    var b, e, d := GuidanceEntry("Business"), GuidanceEntry("Systems Engineer"), GuidanceEntry("Developer");
    JoinAppend("\n\n", [b], e);
    JoinAppend("\n\n", [b, e], d);
    assert [b] + [e] == [b, e] && [b, e] + [d] == [b, e, d];
  }

  function AllDisciplinesLead(description: string): string {
    AllLead + ReadmeBlock(description) + AllGuidanceHeading + AllGuidance + "\n\n"
  }

  /** The sentence naming the weeks and the number of events: three per week. */
  function AllDisciplinesCount(numWeeks: int, startWeek: int): string {
    CountLead + WeekSpan(startWeek, EndWeek(startWeek, numWeeks)) + " ("
    + IntToString(numWeeks * 3) + " events total)"
  }

  const AllDisciplinesRest :=
    ".\n\n"
    + "CAUSAL CHAIN: <Business observes, Systems Engineer reacts, Developer builds>\n\n"
    + "IMPORTANT — Organize the output BY WEEK, not by discipline:\n"
    + "# Week N\n"
    + "<Business, then Systems Engineer, then Developer event for each week>\n\n"
    + EventFormat

  function AllDisciplinesIntro(description: string, numWeeks: int, startWeek: int): string {
    AllDisciplinesLead(description) + AllDisciplinesCount(numWeeks, startWeek) + AllDisciplinesRest
  }

  /**
    `_build_all_disciplines_prompt`: the introduction, the cross-discipline
    instruction when asked for, the previous events, the feedback, the
    codebase context with its set note, and the closer.
   */
  function AllDisciplinesPrompt(description: string, numWeeks: int, codebase: Option<string>,
                                previous: Option<string>, feedback: Option<string>, startWeek: int,
                                crossReference: bool): (r: string)
    ensures StartsWith(r, AllDisciplinesIntro(description, numWeeks, startWeek))
    ensures EndsWith(r, PromptCloser)
  {
    var intro := AllDisciplinesIntro(description, numWeeks, startWeek);
    AppendTailFrame(intro, crossReference, previous, feedback, codebase, SetCodebaseNote, "");
    ConcatEmpty(PromptCloser);
    AppendTail(intro, crossReference, previous, feedback, codebase, SetCodebaseNote, "")
  }

  // ---------------------------------------------------------------------------
  // Properties of the builders
  // ---------------------------------------------------------------------------

  /** Every prompt keeps its introduction as a prefix and ends with the closer and the suffix. */
  lemma AppendTailFrame(intro: string, crossReference: bool, previous: Option<string>, feedback: Option<string>,
                        codebase: Option<string>, note: string, suffix: string)
    ensures var r := AppendTail(intro, crossReference, previous, feedback, codebase, note, suffix);
      StartsWith(r, intro) && EndsWith(r, PromptCloser + suffix)
  {
    var p0 := if crossReference then AddCrossReferenceInstruction(intro) else intro;
    var p1 := AddPreviousEventsContext(p0, previous);
    var p2 := AddFeedbackContext(p1, feedback);
    var p3 := if Truthy(codebase) then p2 + CodebaseBlock(note, codebase.value) else p2;
    PrefixOfConcat(intro, CrossReferenceInstruction);
    PrefixTrans(intro, p0, p1);
    PrefixTrans(intro, p1, p2);
    PrefixOfConcat(p2, CodebaseBlock(note, codebase.GetOr("")));
    PrefixTrans(intro, p2, p3);
    PrefixOfConcat(p3, PromptCloser + suffix);
    PrefixTrans(intro, p3, p3 + (PromptCloser + suffix));
    ConcatAssoc(p3, PromptCloser, suffix);
    SuffixOfConcat(p3, PromptCloser + suffix);
  }

  /**
    A builder's prompt is its introduction followed by exactly the rendered
    section list (so each optional block appears when, and in the order,
    `SectionsOrdered`, `SectionsContain` and `SectionsLength` say), and it
    ends with the closer and the builder's suffix.
   */
  lemma AppendTailLayout(intro: string, crossReference: bool, previous: Option<string>, feedback: Option<string>,
                         codebase: Option<string>, note: string, suffix: string)
    ensures var r := AppendTail(intro, crossReference, previous, feedback, codebase, note, suffix);
      && r == intro + Render(Sections(crossReference, previous, feedback, codebase, note, suffix))
      && StartsWith(r, intro)
      && EndsWith(r, PromptCloser + suffix)
  {
    AppendTailRendersSections(intro, crossReference, previous, feedback, codebase, note, suffix);
    AppendTailFrame(intro, crossReference, previous, feedback, codebase, note, suffix);
  }

  /** A text occurring in a prefix of `r` occurs in `r`. */
  lemma OccursInPrefix(t: string, p: string, r: string, i: int)
    requires OccursAt(t, p, i) && StartsWith(r, p)
    ensures Occurs(t, r)
  {
    assert r[i..i + |t|] == p[i..i + |t|];
    assert OccursAt(t, r, i);
  }

  /**
    The one-event prompt opens by naming its week: with `WeekLabel`'s
    contract, it says `Week N` for a truthy week number `N` (and the number
    reads back as `N`), and `a week` otherwise.
   */
  lemma SingleEventPromptWeek(description: string, discipline: Option<string>, codebase: Option<string>,
                              previous: Option<string>, feedback: Option<string>, weekNumber: Option<int>)
    ensures StartsWith(SingleEventPrompt(description, discipline, codebase, previous, feedback, weekNumber),
                       SingleLead + WeekLabel(weekNumber) + " ")
  {
    var head := SingleEventOpening(weekNumber);
    var intro := SingleEventIntro(description, discipline, weekNumber);
    PrefixOfConcat(head, SingleEventBody(description, discipline));
    PrefixTrans(head, intro, SingleEventPrompt(description, discipline, codebase, previous, feedback, weekNumber));
  }

  /** The set prompt names the weeks from `startWeek` to `startWeek + numWeeks - 1`. */
  lemma SetPromptWeekSpan(description: string, discipline: Option<string>, numWeeks: int, codebase: Option<string>,
                          previous: Option<string>, feedback: Option<string>, startWeek: int)
    ensures Occurs(WeekSpan(startWeek, EndWeek(startWeek, numWeeks)),
                   SetPrompt(description, discipline, numWeeks, codebase, previous, feedback, startWeek))
  {
    var lead := SetIntroLead(numWeeks);
    var span := WeekSpan(startWeek, EndWeek(startWeek, numWeeks));
    var intro := SetIntro(description, discipline, numWeeks, startWeek);
    OccursInMiddle(lead, span, SetIntroRest(description, discipline, numWeeks));
    AppendTailFrame(intro, false, previous, feedback, codebase, SetCodebaseNote, "");
    OccursInPrefix(span, intro, SetPrompt(description, discipline, numWeeks, codebase, previous, feedback, startWeek),
                   |lead|);
  }

  /** The two week numbers written in a span of `numWeeks` weeks are `numWeeks` weeks apart, counting both. */
  lemma WeekSpanCovers(startWeek: int, numWeeks: int)
    ensures ParseInt(IntToString(EndWeek(startWeek, numWeeks))) - ParseInt(IntToString(startWeek)) + 1 == numWeeks
  {
    IntRoundTrip(startWeek);
    IntRoundTrip(EndWeek(startWeek, numWeeks));
  }

  /**
    The all-disciplines prompt names the weeks from `startWeek` to
    `startWeek + numWeeks - 1` and asks for `numWeeks * 3` events in total.
   */
  lemma AllDisciplinesPromptCounts(description: string, numWeeks: int, codebase: Option<string>,
                                   previous: Option<string>, feedback: Option<string>, startWeek: int,
                                   crossReference: bool)
    ensures Occurs(AllDisciplinesCount(numWeeks, startWeek),
                   AllDisciplinesPrompt(description, numWeeks, codebase, previous, feedback, startWeek, crossReference))
  {
    var lead := AllDisciplinesLead(description);
    var count := AllDisciplinesCount(numWeeks, startWeek);
    OccursInMiddle(lead, count, AllDisciplinesRest);
    AppendTailFrame(AllDisciplinesIntro(description, numWeeks, startWeek), crossReference, previous, feedback,
                    codebase, SetCodebaseNote, "");
    OccursInPrefix(count, AllDisciplinesIntro(description, numWeeks, startWeek),
                   AllDisciplinesPrompt(description, numWeeks, codebase, previous, feedback, startWeek, crossReference),
                   |lead|);
  }
}
