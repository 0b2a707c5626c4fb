/**
  The Streamlit front end's timeline: the session state it keeps between
  reruns (the generated history, the week counter, what the last generation
  was, and the action a button left pending), how each button and each rerun
  changes that state, and which request it sends to the generator.

  The generator and the model server behind it are an oracle: a `service`
  maps each request to the stream of tokens the server yields, and whether
  the stream ended in an exception. Each rerun of the script is one `Event`,
  and a rerun that calls the generator brings its own `service`.
 */
module Timeline {
  import opened Text
  import opened Generator
  import Prompts

  // ---------------------------------------------------------------------------
  // Sidebar
  // ---------------------------------------------------------------------------

  const SingleLabel := "Single Event"
  const OneLabel := "Full Set -- One Discipline"
  const AllLabel := "Full Set -- All Disciplines"
  const FullSetLead := "Full Set"
  const OneWord := "One"

  /** The generator's mode keys. */
  datatype Mode = Single | Set | All {
    function Key(): string {
      match this
      case Single => "single"
      case Set => "set"
      case All => "all"
    }
  }

  /**
    The mode key the initial generation derives from the radio label: each of
    the three labels selects its own mode, and only "Single Event" selects
    the single mode.
   */
  function ModeFromLabel(radio: string): (r: Mode)
    ensures r == Single <==> radio == SingleLabel
    ensures radio == OneLabel ==> r == Set
    ensures radio == AllLabel ==> r == All
  {
    assert |SingleLabel| != |OneLabel| && |SingleLabel| != |AllLabel|;
    assert OneLabel[12..15] == OneWord;
    assert OccursAt(OneWord, OneLabel, 12);
    assert OneLabel[..8] == FullSetLead;
    assert forall k | 0 <= k < |AllLabel| :: AllLabel[k] != 'O';
    AbsentLeadNotOccurs(OneWord, AllLabel);
    if radio == SingleLabel then Single
    else if StartsWith(radio, FullSetLead) && Occurs(OneWord, radio) then Set
    else All
  }

  /** The mode keys tell the modes apart, so the generator's dispatch sees the mode chosen here. */
  lemma KeyInjective(m: Mode, n: Mode)
    ensures m.Key() == n.Key() <==> m == n
  {
    assert "single"[1] != "set"[1] && "single"[0] != "all"[0] && "set"[0] != "all"[0];
  }

  /** The sidebar's widget values at the time of a rerun. */
  datatype Sidebar = Sidebar(
    model: string,
    description: string,
    radio: string,
    discipline: string,
    weeksInput: int,
    crossToggle: bool,
    files: seq<UploadedFile>)

  /** The discipline selector is shown, and its value used, unless the all-disciplines label is chosen. */
  function SelectedDiscipline(sb: Sidebar): Option<string> {
    if sb.radio != AllLabel then Some(sb.discipline) else None
  }

  /** The number of weeks is one for a single event, and the number input otherwise. */
  function SelectedWeeks(sb: Sidebar): int {
    if sb.radio != SingleLabel then sb.weeksInput else 1
  }

  /** The cross-reference toggle exists only for the all-disciplines label. */
  predicate CrossReferenceOn(sb: Sidebar) {
    sb.radio == AllLabel && sb.crossToggle
  }

  /** The description is non-empty and not only whitespace. */
  predicate CanGenerate(sb: Sidebar) {
    sb.description != "" && Strip(sb.description) != ""
  }

  /** The request `run_generation` sends: the sidebar supplies the model, the stripped description, the files and the toggle. */
  function Request(sb: Sidebar, mode: Mode, discipline: Option<string>, weeks: int, startWeek: int,
                   previous: Option<string>, feedback: Option<string>): (r: EventsRequest)
    ensures r.projectDescription == Strip(sb.description) && r.files == sb.files
    ensures r.crossReference ==> sb.radio == AllLabel
    ensures r.mode == "single" <==> mode == Single
  {
    KeyInjective(mode, Single);
    EventsRequest(sb.model, Strip(sb.description), mode.Key(), discipline, weeks, sb.files, previous, feedback,
                  startWeek, CrossReferenceOn(sb))
  }

  // ---------------------------------------------------------------------------
  // Streaming a generation
  // ---------------------------------------------------------------------------

  /** What the server yields for a request: the tokens, and whether an exception ended the stream. */
  datatype Stream = Stream(tokens: seq<string>, fails: bool)

  /**
    The result of `run_generation`: nothing on an exception or an empty
    reply, else the reply. So a generation yields something exactly when the
    stream ends cleanly with some non-empty token, and what it yields is
    never empty.
   */
  function Outcome(st: Stream): (r: Option<string>)
    ensures r.Some? <==> !st.fails && exists i | 0 <= i < |st.tokens| :: st.tokens[i] != ""
    ensures r.Some? ==> r.value != ""
  {
    ConcatBlank(st.tokens);
    if st.fails || Concat(st.tokens) == "" then None else Some(Concat(st.tokens))
  }

  /** The reply is empty exactly when every token is empty. */
  lemma {:induction false} ConcatBlank(tokens: seq<string>)
    ensures Concat(tokens) == "" <==> forall i | 0 <= i < |tokens| :: tokens[i] == ""
  {
    if tokens != [] {
      var init := tokens[..|tokens| - 1];
      ConcatBlank(init);
      if Concat(tokens) == "" {
        forall i | 0 <= i < |tokens| ensures tokens[i] == "" {
          if i < |init| {
            assert tokens[i] == init[i];
          }
        }
      } else {
        if tokens[|tokens| - 1] == "" {
          var j :| 0 <= j < |init| && init[j] != "";
          assert tokens[j] == init[j];
        }
      }
    }
  }

  /**
    `run_generation`: accumulates the tokens in order; an exception yields
    nothing, and so does an empty reply.
   */
  method RunGeneration(st: Stream) returns (r: Option<string>)
    ensures r == Outcome(st)
    ensures r.Some? ==> !st.fails && r.value == Concat(st.tokens) && r.value != ""
  {
    var full := "";
    var i := 0;
    while i < |st.tokens|
      invariant 0 <= i <= |st.tokens|
      invariant full == Concat(st.tokens[..i])
    {
      assert st.tokens[..i + 1][..i] == st.tokens[..i];
      full := full + st.tokens[i];
      i := i + 1;
    }
    assert st.tokens[..|st.tokens|] == st.tokens;
    if st.fails {
      return None;
    }
    r := if full != "" then Some(full) else None;
  }

  // ---------------------------------------------------------------------------
  // Session state
  // ---------------------------------------------------------------------------

  datatype Action = Regenerate | ContinueOne | ContinueMany

  /**
    The session state. `weeks` is bookkeeping of the model only: the number
    of weeks each history entry was generated for, which the source does not
    keep but which says what `week_counter` and `last_weeks` should be.
   */
  datatype State = State(
    history: seq<string>,
    weeks: seq<int>,
    weekCounter: int,
    lastMode: Option<Mode>,
    lastDiscipline: Option<string>,
    lastWeeks: int,
    pendingAction: Option<Action>,
    pendingFeedback: Option<string>,
    pendingWeeks: int)

  /** The values a new session starts with. */
  function Defaults(): State {
    State([], [], 0, None, None, 1, None, None, 1)
  }

  function Sum(ws: seq<int>): int {
    if ws == [] then 0 else Sum(ws[..|ws| - 1]) + ws[|ws| - 1]
  }

  lemma SumSnoc(ws: seq<int>, w: int)
    ensures Sum(ws + [w]) == Sum(ws) + w
  {
    assert (ws + [w])[..|ws|] == ws;
  }

  function DropLast<T>(xs: seq<T>): seq<T> {
    if xs == [] then [] else xs[..|xs| - 1]
  }

  /**
    The state describes its history: every entry is a non-empty generation,
    the counter is the number of weeks generated so far, and `last_weeks` is
    the number of weeks of the latest entry.
   */
  predicate Consistent(s: State) {
    && |s.weeks| == |s.history|
    && (forall i | 0 <= i < |s.history| :: s.history[i] != "")
    && s.weekCounter == Sum(s.weeks)
    && (s.history != [] ==> s.lastWeeks == s.weeks[|s.weeks| - 1])
  }

  /**
    The timeline offered for download: the entries joined by blank lines, so
    it is empty for no history, and otherwise opens with the first entry and
    closes with the latest one.
   */
  function Download(s: State): (r: string)
    ensures s.history == [] ==> r == ""
    ensures s.history != [] ==> StartsWith(r, s.history[0]) && EndsWith(r, s.history[|s.history| - 1])
  {
    if s.history != [] then JoinEnds("\n\n", s.history); Join("\n\n", s.history) else ""
  }

  /** A new session is consistent and has nothing to download. */
  lemma DefaultsConsistent()
    ensures Consistent(Defaults()) && Download(Defaults()) == ""
  {
  }

  // ---------------------------------------------------------------------------
  // Buttons
  // ---------------------------------------------------------------------------

  /**
    The Reset Timeline button: a reset session is a new one, except that it
    keeps the pending number of weeks; it is consistent whatever came before.
   */
  function AfterReset(s: State): (r: State)
    ensures r == Defaults().(pendingWeeks := s.pendingWeeks)
    ensures Consistent(r)
  {
    s.(history := [], weeks := [], weekCounter := 0, lastMode := None, lastDiscipline := None, lastWeeks := 1,
       pendingAction := None, pendingFeedback := None)
  }

  /** The Regenerate Last button, enabled only for feedback that is not blank. */
  function AfterRegeneratePressed(s: State, feedback: string): State
    requires Prompts.HasFeedback(Some(feedback))
  {
    s.(pendingAction := Some(Regenerate), pendingFeedback := Some(feedback))
  }

  /** The Next Week button; its feedback may be empty. */
  function AfterNextWeekPressed(s: State, feedback: string): State {
    s.(pendingAction := Some(ContinueOne), pendingFeedback := Some(feedback))
  }

  /** The Next N Weeks button, with the number input's weeks. */
  function AfterNextWeeksPressed(s: State, feedback: string, weeks: int): State
    requires 1 <= weeks <= 52
  {
    s.(pendingAction := Some(ContinueMany), pendingFeedback := Some(feedback), pendingWeeks := weeks)
  }

  /** Two states with the same history, counter and last generation. */
  predicate SameTimeline(s: State, t: State) {
    && t.history == s.history && t.weeks == s.weeks && t.weekCounter == s.weekCounter
    && t.lastMode == s.lastMode && t.lastDiscipline == s.lastDiscipline && t.lastWeeks == s.lastWeeks
  }

  /** Pressing a button only records the action; history, counter and last generation are untouched. */
  lemma PressKeepsTimeline(s: State, feedback: string, weeks: int)
    requires 1 <= weeks <= 52
    ensures var t := AfterNextWeeksPressed(s, feedback, weeks);
      t.pendingAction == Some(ContinueMany) && t.pendingFeedback == Some(feedback) && t.pendingWeeks == weeks
      && SameTimeline(s, t) && (Consistent(s) ==> Consistent(t)) && Download(t) == Download(s)
    ensures var t := AfterNextWeekPressed(s, feedback);
      t.pendingAction == Some(ContinueOne) && t.pendingFeedback == Some(feedback) && t.pendingWeeks == s.pendingWeeks
      && SameTimeline(s, t) && (Consistent(s) ==> Consistent(t)) && Download(t) == Download(s)
    ensures Prompts.HasFeedback(Some(feedback)) ==>
      var t := AfterRegeneratePressed(s, feedback);
      t.pendingAction == Some(Regenerate) && t.pendingFeedback == Some(feedback) && t.pendingWeeks == s.pendingWeeks
      && SameTimeline(s, t) && (Consistent(s) ==> Consistent(t)) && Download(t) == Download(s)
  {
  }

  // ---------------------------------------------------------------------------
  // Initial generation
  // ---------------------------------------------------------------------------

  /** The request of the Generate Events button: week 1, no previous events and no feedback. */
  function InitialRequest(sb: Sidebar): EventsRequest {
    Request(sb, ModeFromLabel(sb.radio), SelectedDiscipline(sb), SelectedWeeks(sb), 1, None, None)
  }

  /**
    The Generate Events button, shown while there is no history: it starts
    the timeline with one entry of the selected number of weeks, or changes
    nothing.
   */
  function AfterGenerate(s: State, sb: Sidebar, service: EventsRequest -> Stream): (r: State)
    requires s.history == [] && CanGenerate(sb)
    ensures Outcome(service(InitialRequest(sb))).None? ==> r == s
    ensures Outcome(service(InitialRequest(sb))).Some? ==>
              r.history == [Outcome(service(InitialRequest(sb))).value]
              && r.weekCounter == s.weekCounter + SelectedWeeks(sb) && r.lastWeeks == SelectedWeeks(sb)
  {
    match Outcome(service(InitialRequest(sb)))
    case None => s
    case Some(text) =>
      s.(history := s.history + [text], weeks := s.weeks + [SelectedWeeks(sb)],
         weekCounter := s.weekCounter + SelectedWeeks(sb), lastMode := Some(ModeFromLabel(sb.radio)),
         lastDiscipline := SelectedDiscipline(sb), lastWeeks := SelectedWeeks(sb))
  }

  /**
    The first generation starts at week 1 with nothing before it; when it
    yields text, that text is the whole history, the counter is its number
    of weeks, and the mode and discipline are remembered for what follows.
    When it yields nothing, the session is unchanged.
   */
  lemma GenerateStartsTimeline(s: State, sb: Sidebar, service: EventsRequest -> Stream)
    requires Consistent(s) && s.history == [] && CanGenerate(sb)
    ensures InitialRequest(sb).startWeek == 1 && InitialRequest(sb).previousEvents.None?
    ensures InitialRequest(sb).feedback.None?
    ensures InitialRequest(sb).projectDescription != ""
    ensures Consistent(AfterGenerate(s, sb, service))
    ensures var t := AfterGenerate(s, sb, service);
      match Outcome(service(InitialRequest(sb)))
      case None => t == s
      case Some(text) =>
        t.history == [text] && Download(t) == text && t.weekCounter == SelectedWeeks(sb)
        && t.lastMode == Some(ModeFromLabel(sb.radio)) && t.lastDiscipline == SelectedDiscipline(sb)
  {
    SumSnoc([], SelectedWeeks(sb));
  }

  // ---------------------------------------------------------------------------
  // Pending actions
  // ---------------------------------------------------------------------------

  /** The mode a pending action generates in: the last mode, or `single` when none is remembered. */
  function PendingMode(s: State): Mode {
    s.lastMode.GetOr(Single)
  }

  /** Several weeks are never generated in single mode: it is upgraded to the one-discipline set. */
  function ContinueMode(s: State): Mode {
    if PendingMode(s) == Single then Set else PendingMode(s)
  }

  /**
    The request of Regenerate Last: `last_weeks` weeks again, starting the
    week after the counter once those weeks are taken off it, with the
    entries before the last one as previous events and the pending feedback.
   */
  function RegenerateRequest(s: State, sb: Sidebar): (r: EventsRequest)
    requires s.history != []
    ensures r.startWeek == s.weekCounter - s.lastWeeks + 1 && r.numWeeks == s.lastWeeks
    ensures r.previousEvents.None? <==> |s.history| == 1
    ensures r.feedback == s.pendingFeedback
  {
    var kept := s.history[..|s.history| - 1];
    Request(sb, PendingMode(s), s.lastDiscipline, s.lastWeeks, s.weekCounter - s.lastWeeks + 1,
            if kept != [] then Some(Join("\n\n", kept)) else None, s.pendingFeedback)
  }

  /** The state once the last entry is popped and its weeks (as `last_weeks` says) are taken off the counter. */
  function Popped(s: State): State
    requires s.history != []
  {
    s.(history := s.history[..|s.history| - 1], weeks := DropLast(s.weeks),
       weekCounter := s.weekCounter - s.lastWeeks)
  }

  /**
    Regenerate Last as the source does it: only the last entry is touched
    (replaced, or removed when the regeneration fails), and `last_weeks` and
    the last mode are never updated.
   */
  function RegenerateStep(s: State, sb: Sidebar, service: EventsRequest -> Stream): (r: State)
    requires s.history != []
    ensures s.history[..|s.history| - 1] <= r.history && |r.history| <= |s.history|
    ensures |r.history| == |s.history| <==> Outcome(service(RegenerateRequest(s, sb))).Some?
    ensures r.lastWeeks == s.lastWeeks && r.lastMode == s.lastMode
    ensures r.weekCounter
            == s.weekCounter - s.lastWeeks + (if Outcome(service(RegenerateRequest(s, sb))).Some? then s.lastWeeks else 0)
  {
    var p := Popped(s);
    match Outcome(service(RegenerateRequest(s, sb)))
    case None => p
    case Some(text) =>
      p.(history := p.history + [text], weeks := p.weeks + [s.lastWeeks], weekCounter := p.weekCounter + s.lastWeeks)
  }

  /** Regenerate Last restoring the last entry when the regeneration fails. */
  function RestoringRegenerateStep(s: State, sb: Sidebar, service: EventsRequest -> Stream): State
    requires s.history != []
  {
    if Outcome(service(RegenerateRequest(s, sb))).None? then s else RegenerateStep(s, sb, service)
  }

  /** The request of Next Week: one week after the counter, with the whole timeline as previous events. */
  function ContinueOneRequest(s: State, sb: Sidebar): EventsRequest {
    Request(sb, PendingMode(s), s.lastDiscipline, 1, s.weekCounter + 1, Some(Download(s)), s.pendingFeedback)
  }

  /** Next Week: the timeline gains one entry and one week, or nothing changes. */
  function ContinueOneStep(s: State, sb: Sidebar, service: EventsRequest -> Stream): (r: State)
    ensures Outcome(service(ContinueOneRequest(s, sb))).None? ==> r == s
    ensures Outcome(service(ContinueOneRequest(s, sb))).Some? ==>
              s.history <= r.history && |r.history| == |s.history| + 1 && r.weekCounter == s.weekCounter + 1
  {
    match Outcome(service(ContinueOneRequest(s, sb)))
    case None => s
    case Some(text) =>
      s.(history := s.history + [text], weeks := s.weeks + [1], weekCounter := s.weekCounter + 1, lastWeeks := 1)
  }

  /** The request of Next N Weeks: the pending weeks after the counter, never in single mode. */
  function ContinueManyRequest(s: State, sb: Sidebar): EventsRequest {
    Request(sb, ContinueMode(s), s.lastDiscipline, s.pendingWeeks, s.weekCounter + 1, Some(Download(s)),
            s.pendingFeedback)
  }

  /** Next N Weeks: the timeline gains one entry of the pending weeks, never in single mode, or nothing changes. */
  function ContinueManyStep(s: State, sb: Sidebar, service: EventsRequest -> Stream): (r: State)
    ensures Outcome(service(ContinueManyRequest(s, sb))).None? ==> r == s
    ensures Outcome(service(ContinueManyRequest(s, sb))).Some? ==>
              s.history <= r.history && |r.history| == |s.history| + 1
              && r.weekCounter == s.weekCounter + s.pendingWeeks && r.lastMode != Some(Single)
  {
    match Outcome(service(ContinueManyRequest(s, sb)))
    case None => s
    case Some(text) =>
      s.(history := s.history + [text], weeks := s.weeks + [s.pendingWeeks],
         weekCounter := s.weekCounter + s.pendingWeeks, lastWeeks := s.pendingWeeks,
         lastMode := Some(ContinueMode(s)))
  }

  /**
    A rerun with a pending action carries it out and then clears the action
    and its feedback whatever the outcome; the discipline and the pending
    weeks carry over. `restoring` chooses the corrected Regenerate Last; the
    source's behaviour is `restoring == false`.
   */
  function AfterProcess(s: State, sb: Sidebar, service: EventsRequest -> Stream, restoring: bool): (r: State)
    requires s.history != [] && s.pendingAction.Some?
    ensures r.pendingAction.None? && r.pendingFeedback.None?
    ensures r.pendingWeeks == s.pendingWeeks && r.lastDiscipline == s.lastDiscipline
  {
    var t := match s.pendingAction.value
      case Regenerate => if restoring then RestoringRegenerateStep(s, sb, service) else RegenerateStep(s, sb, service)
      case ContinueOne => ContinueOneStep(s, sb, service)
      case ContinueMany => ContinueManyStep(s, sb, service);
    t.(pendingAction := None, pendingFeedback := None)
  }

  /** Both continue requests start right after the weeks generated so far and send the downloadable timeline. */
  lemma ContinueRequestsFollowOn(s: State, sb: Sidebar)
    requires Consistent(s)
    ensures ContinueOneRequest(s, sb).startWeek == Sum(s.weeks) + 1
    ensures ContinueManyRequest(s, sb).startWeek == Sum(s.weeks) + 1
    ensures ContinueOneRequest(s, sb).previousEvents == ContinueManyRequest(s, sb).previousEvents == Some(Download(s))
    ensures ContinueOneRequest(s, sb).numWeeks == 1 && ContinueManyRequest(s, sb).numWeeks == s.pendingWeeks
    ensures ContinueManyRequest(s, sb).mode == ContinueMode(s).Key() != "single"
    ensures PendingMode(s) == Single ==> ContinueManyRequest(s, sb).mode == "set"
    ensures PendingMode(s) != Single ==> ContinueManyRequest(s, sb).mode == PendingMode(s).Key()
    ensures ContinueOneRequest(s, sb).mode == PendingMode(s).Key()
  {
    KeyInjective(ContinueMode(s), Single);
  }

  /** Next Week appends one week after the current timeline, or changes nothing. */
  lemma ContinueOneExtends(s: State, sb: Sidebar, service: EventsRequest -> Stream)
    requires Consistent(s) && s.history != []
    ensures Consistent(ContinueOneStep(s, sb, service))
    ensures var t := ContinueOneStep(s, sb, service);
      match Outcome(service(ContinueOneRequest(s, sb)))
      case None => t == s
      case Some(text) =>
        t.history == s.history + [text] && Download(t) == Download(s) + "\n\n" + text
        && t.weekCounter == s.weekCounter + 1 && t.lastWeeks == 1 && t.lastMode == s.lastMode
  {
    var o := Outcome(service(ContinueOneRequest(s, sb)));
    if o.Some? {
      SumSnoc(s.weeks, 1);
      JoinAppend("\n\n", s.history, o.value);
    }
  }

  /** Next N Weeks appends the pending weeks after the current timeline and remembers the upgraded mode. */
  lemma ContinueManyExtends(s: State, sb: Sidebar, service: EventsRequest -> Stream)
    requires Consistent(s) && s.history != []
    ensures Consistent(ContinueManyStep(s, sb, service))
    ensures var t := ContinueManyStep(s, sb, service);
      match Outcome(service(ContinueManyRequest(s, sb)))
      case None => t == s
      case Some(text) =>
        t.history == s.history + [text] && Download(t) == Download(s) + "\n\n" + text
        && t.weekCounter == s.weekCounter + s.pendingWeeks && t.lastWeeks == s.pendingWeeks
        && t.lastMode == Some(ContinueMode(s)) && t.lastMode != Some(Single)
  {
    var o := Outcome(service(ContinueManyRequest(s, sb)));
    if o.Some? {
      SumSnoc(s.weeks, s.pendingWeeks);
      JoinAppend("\n\n", s.history, o.value);
    }
  }

  lemma DropLastSnoc<T>(xs: seq<T>)
    requires xs != []
    ensures DropLast(xs) + [xs[|xs| - 1]] == xs
  {
  }

  /**
    Regenerate Last asks for the last entry's weeks again, starting where
    that entry started, with the entries before it as previous events (none
    when it was the only one).
   */
  lemma RegenerateRequestRedoesLast(s: State, sb: Sidebar)
    requires Consistent(s) && s.history != []
    ensures var r := RegenerateRequest(s, sb);
      r.startWeek == Sum(DropLast(s.weeks)) + 1 && r.numWeeks == s.weeks[|s.weeks| - 1]
      && r.feedback == s.pendingFeedback && r.mode == PendingMode(s).Key()
      && (|s.history| == 1 <==> r.previousEvents.None?)
      && (|s.history| > 1 ==> r.previousEvents == Some(Download(Popped(s))))
  {
    DropLastSnoc(s.weeks);
    SumSnoc(DropLast(s.weeks), s.weeks[|s.weeks| - 1]);
  }

  /** A successful regeneration replaces the last entry and leaves the counter where it was. */
  lemma RegenerateReplacesLast(s: State, sb: Sidebar, service: EventsRequest -> Stream)
    requires Consistent(s) && s.history != []
    requires Outcome(service(RegenerateRequest(s, sb))).Some?
    ensures var t := RegenerateStep(s, sb, service);
      Consistent(t) && |t.history| == |s.history|
      && t.history[..|t.history| - 1] == s.history[..|s.history| - 1]
      && t.history[|t.history| - 1] == Outcome(service(RegenerateRequest(s, sb))).value
      && t.weekCounter == s.weekCounter && t.lastWeeks == s.lastWeeks && t.lastMode == s.lastMode
  {
    var text := Outcome(service(RegenerateRequest(s, sb))).value;
    DropLastSnoc(s.weeks);
    SumSnoc(DropLast(s.weeks), s.weeks[|s.weeks| - 1]);
    SumSnoc(DropLast(s.weeks), s.lastWeeks);
    var t := RegenerateStep(s, sb, service);
    assert t.history == s.history[..|s.history| - 1] + [text];
    assert t.history[..|t.history| - 1] == s.history[..|s.history| - 1];
  }

  /**
    A failed regeneration, as the source does it, drops the last entry and
    its weeks from the counter, but keeps `last_weeks`, which now describes
    the dropped entry rather than the new last one.
   */
  lemma RegenerateFailureDropsLast(s: State, sb: Sidebar, service: EventsRequest -> Stream)
    requires Consistent(s) && s.history != []
    requires Outcome(service(RegenerateRequest(s, sb))).None?
    ensures var t := RegenerateStep(s, sb, service);
      t.history == s.history[..|s.history| - 1] && t.weekCounter == Sum(t.weeks)
      && t.lastWeeks == s.weeks[|s.weeks| - 1] && t.lastMode == s.lastMode
      && (Consistent(t) <==> (t.history != [] ==> s.weeks[|s.weeks| - 1] == t.weeks[|t.weeks| - 1]))
  {
    DropLastSnoc(s.weeks);
    SumSnoc(DropLast(s.weeks), s.weeks[|s.weeks| - 1]);
  }

  /** The corrected Regenerate Last keeps the state consistent whatever the regeneration yields. */
  lemma RestoringRegenerateConsistent(s: State, sb: Sidebar, service: EventsRequest -> Stream)
    requires Consistent(s) && s.history != []
    ensures Consistent(RestoringRegenerateStep(s, sb, service))
    ensures Outcome(service(RegenerateRequest(s, sb))).None? ==> RestoringRegenerateStep(s, sb, service) == s
    ensures |RestoringRegenerateStep(s, sb, service).history| == |s.history|
  {
    if Outcome(service(RegenerateRequest(s, sb))).Some? {
      RegenerateReplacesLast(s, sb, service);
    }
  }

  // ---------------------------------------------------------------------------
  // Runs of reruns
  // ---------------------------------------------------------------------------

  /**
    What triggers one rerun of the script. A rerun that calls the generator
    carries the server's behaviour at that moment, so the same request may
    fail on one rerun and succeed on a later one.
   */
  datatype Event =
    | ResetPressed
    | RegeneratePressed(feedback: string)
    | NextWeekPressed(feedback: string)
    | NextWeeksPressed(feedback: string, weeks: int)
    | GeneratePressed(sidebar: Sidebar, server: EventsRequest -> Stream)
    | PendingRerun(sidebar: Sidebar, server: EventsRequest -> Stream)

  /** Whether the script offers the event in state `s` (the button is shown and enabled, or an action is pending). */
  predicate Enabled(s: State, e: Event) {
    match e
    case ResetPressed => s.history != []
    case RegeneratePressed(fb) => s.history != [] && Prompts.HasFeedback(Some(fb))
    case NextWeekPressed(_) => s.history != []
    case NextWeeksPressed(_, n) => s.history != [] && 1 <= n <= 52
    case GeneratePressed(sb, _) => s.history == [] && CanGenerate(sb)
    case PendingRerun(_, _) => s.history != [] && s.pendingAction.Some?
  }

  function Apply(s: State, e: Event, restoring: bool): State
    requires Enabled(s, e)
  {
    match e
    case ResetPressed => AfterReset(s)
    case RegeneratePressed(fb) => AfterRegeneratePressed(s, fb)
    case NextWeekPressed(fb) => AfterNextWeekPressed(s, fb)
    case NextWeeksPressed(fb, n) => AfterNextWeeksPressed(s, fb, n)
    case GeneratePressed(sb, server) => AfterGenerate(s, sb, server)
    case PendingRerun(sb, server) => AfterProcess(s, sb, server, restoring)
  }

  /** The state after a run of events, or nothing when some event is not offered when it comes. */
  function Run(s: State, events: seq<Event>, restoring: bool): Option<State>
    decreases |events|
  {
    if events == [] then Some(s)
    else if !Enabled(s, events[0]) then None
    else Run(Apply(s, events[0], restoring), events[1..], restoring)
  }

  /** The event is a rerun whose pending regeneration yields nothing. */
  predicate FailedRegenerate(s: State, e: Event) {
    && e.PendingRerun? && s.history != [] && s.pendingAction == Some(Regenerate)
    && Outcome(e.server(RegenerateRequest(s, e.sidebar))).None?
  }

  /** No regeneration of the run fails. */
  predicate NoFailedRegenerate(s: State, events: seq<Event>)
    decreases |events|
  {
    events == [] || !Enabled(s, events[0])
    || (!FailedRegenerate(s, events[0]) && NoFailedRegenerate(Apply(s, events[0], false), events[1..]))
  }

  /** One offered event keeps the state consistent, unless it is a failed regeneration done as the source does it. */
  lemma ApplyConsistent(s: State, e: Event, restoring: bool)
    requires Consistent(s) && Enabled(s, e)
    requires restoring || !FailedRegenerate(s, e)
    ensures Consistent(Apply(s, e, restoring))
  {
    match e
    case ResetPressed =>
    case RegeneratePressed(fb) =>
    case NextWeekPressed(fb) =>
    case NextWeeksPressed(fb, n) =>
    case GeneratePressed(sb, server) =>
      GenerateStartsTimeline(s, sb, server);
    case PendingRerun(sb, server) =>
      match s.pendingAction.value
      case Regenerate =>
        if restoring {
          RestoringRegenerateConsistent(s, sb, server);
        } else {
          RegenerateReplacesLast(s, sb, server);
        }
      case ContinueOne =>
        ContinueOneExtends(s, sb, server);
      case ContinueMany =>
        ContinueManyExtends(s, sb, server);
  }

  /**
    As the source behaves, a run keeps the counter equal to the weeks
    generated and `last_weeks` equal to the latest entry's weeks, as long as
    no regeneration in it fails, whatever the server answers on each rerun.
   */
  lemma {:induction false} RunConsistent(s: State, events: seq<Event>)
    requires Consistent(s) && NoFailedRegenerate(s, events)
    ensures Run(s, events, false).Some? ==> Consistent(Run(s, events, false).value)
    decreases |events|
  {
    if events != [] && Enabled(s, events[0]) {
      ApplyConsistent(s, events[0], false);
      RunConsistent(Apply(s, events[0], false), events[1..]);
    }
  }

  /** With the corrected Regenerate Last, every run keeps the state consistent, whatever the server answers. */
  lemma {:induction false} RestoringRunConsistent(s: State, events: seq<Event>)
    requires Consistent(s)
    ensures Run(s, events, true).Some? ==> Consistent(Run(s, events, true).value)
    decreases |events|
  {
    if events != [] && Enabled(s, events[0]) {
      ApplyConsistent(s, events[0], true);
      RestoringRunConsistent(Apply(s, events[0], true), events[1..]);
    }
  }

  /**
    A failed Next Week leaves the timeline as it was, so pressing Next Week
    again sends the very same request; when the server answers it this time,
    the run ends with the new entry after the old timeline.
   */
  lemma ContinueOneRetry(s: State, feedback: string, sb: Sidebar, down: EventsRequest -> Stream,
                         up: EventsRequest -> Stream)
    requires Consistent(s) && s.history != []
    requires Outcome(down(ContinueOneRequest(AfterNextWeekPressed(s, feedback), sb))).None?
    requires Outcome(up(ContinueOneRequest(AfterNextWeekPressed(s, feedback), sb))).Some?
    ensures var r := Run(s, [NextWeekPressed(feedback), PendingRerun(sb, down), NextWeekPressed(feedback),
                             PendingRerun(sb, up)], false);
      && r.Some? && Consistent(r.value)
      && r.value.history == s.history + [Outcome(up(ContinueOneRequest(AfterNextWeekPressed(s, feedback), sb))).value]
  {
    var evs := [NextWeekPressed(feedback), PendingRerun(sb, down), NextWeekPressed(feedback), PendingRerun(sb, up)];
    var pressed := AfterNextWeekPressed(s, feedback);
    var failed := pressed.(pendingAction := None, pendingFeedback := None);
    var done := AfterProcess(pressed, sb, up, false);
    RunStep(s, evs, false, pressed);
    RunStep(pressed, evs[1..], false, failed);
    RunStep(failed, evs[1..][1..], false, pressed);
    ContinueOneExtends(pressed, sb, up);
    RunStep(pressed, evs[1..][1..][1..], false, done);
    assert |evs[1..][1..][1..][1..]| == 0;
  }

  // ---------------------------------------------------------------------------
  // A failed regeneration followed by another regeneration
  // ---------------------------------------------------------------------------

  const ExampleSidebar := Sidebar("m", "P", OneLabel, "Developer", 1, false, [])

  /** A server that fails every request carrying the feedback `R` and answers `E` to every other one. */
  const ExampleService: EventsRequest -> Stream :=
    (req: EventsRequest) => if req.feedback == Some("R") then Stream([], true) else Stream(["E"], false)

  /** Generate one week, add four more, then press Regenerate Last twice while the server fails. */
  const ExampleEvents := [
    GeneratePressed(ExampleSidebar, ExampleService), NextWeeksPressed("", 4),
    PendingRerun(ExampleSidebar, ExampleService), RegeneratePressed("R"),
    PendingRerun(ExampleSidebar, ExampleService), RegeneratePressed("R"),
    PendingRerun(ExampleSidebar, ExampleService)]

  /** One step of a run. */
  lemma RunStep(s: State, events: seq<Event>, restoring: bool, next: State)
    requires events != [] && Enabled(s, events[0]) && Apply(s, events[0], restoring) == next
    ensures Run(s, events, restoring) == Run(next, events[1..], restoring)
  {
  }

  /** The facts about the example's inputs that every step of it uses. */
  lemma ExampleFacts()
    ensures CanGenerate(ExampleSidebar) && Prompts.HasFeedback(Some("R"))
    ensures ModeFromLabel(ExampleSidebar.radio) == Set
    ensures Outcome(Stream(["E"], false)) == Some("E") && Outcome(Stream([], true)) == None
    ensures forall r: EventsRequest :: Outcome(ExampleService(r)) == if r.feedback == Some("R") then None else Some("E")
  {
    assert LeadingSpaces("P") == 0 && LeadingSpaces("R") == 0;
    var one: seq<string> := ["E"];
    assert one[..0] == [];
    assert Concat(one) == Concat([]) + "E";
    assert Concat(one) == "E";
  }

  /** The state after the first generation, and once Next 4 Weeks is pressed. */
  const ExampleOneEntry := State(["E"], [1], 1, Some(Set), Some("Developer"), 1, None, None, 1)
  const ExampleExtending := ExampleOneEntry.(pendingAction := Some(ContinueMany), pendingFeedback := Some(""),
                                             pendingWeeks := 4)

  /** The state after the first three events: two generations of one and four weeks. */
  const ExampleTwoEntries := State(["E", "E"], [1, 4], 5, Some(Set), Some("Developer"), 4, None, None, 4)

  /** The state once Regenerate Last is pressed after the two generations. */
  const ExampleRegenerating := ExampleTwoEntries.(pendingAction := Some(Regenerate), pendingFeedback := Some("R"))

  lemma ExampleGenerate(restoring: bool)
    ensures Enabled(Defaults(), ExampleEvents[0])
    ensures Apply(Defaults(), ExampleEvents[0], restoring) == ExampleOneEntry
  {
    ExampleFacts();
  }

  lemma ExampleExtend(restoring: bool)
    ensures Enabled(ExampleExtending, ExampleEvents[2])
    ensures Apply(ExampleExtending, ExampleEvents[2], restoring) == ExampleTwoEntries
  {
    ExampleFacts();
    var s := ExampleExtending;
    assert ContinueManyRequest(s, ExampleSidebar).feedback == Some("");
    var t := ContinueManyStep(s, ExampleSidebar, ExampleService);
    assert t == s.(history := ["E", "E"], weeks := [1, 4], weekCounter := 5, lastWeeks := 4, lastMode := Some(Set));
  }

  /** The first four events of the example, which both behaviours of Regenerate Last share. */
  lemma ExamplePrefix(restoring: bool)
    ensures Run(Defaults(), ExampleEvents, restoring)
            == Run(ExampleRegenerating, ExampleEvents[4..], restoring)
  {
    var evs := ExampleEvents;
    ExampleFacts();
    ExampleGenerate(restoring);
    RunStep(Defaults(), evs, restoring, ExampleOneEntry);
    assert evs[1..][1..] == evs[2..];
    RunStep(ExampleOneEntry, evs[1..], restoring, ExampleExtending);
    ExampleExtend(restoring);
    assert evs[2..][1..] == evs[3..];
    RunStep(ExampleExtending, evs[2..], restoring, ExampleTwoEntries);
    assert evs[3..][1..] == evs[4..];
    RunStep(ExampleTwoEntries, evs[3..], restoring, ExampleRegenerating);
  }

  /** The state after the first failed regeneration, and once Regenerate Last is pressed again. */
  const ExampleOneLeft := State(["E"], [1], 1, Some(Set), Some("Developer"), 4, None, None, 4)
  const ExampleRegeneratingAgain := ExampleOneLeft.(pendingAction := Some(Regenerate), pendingFeedback := Some("R"))

  /** The state after the second failed regeneration. */
  const ExampleEmptied := State([], [], -3, Some(Set), Some("Developer"), 4, None, None, 4)

  /** The first failure drops the four-week entry but leaves `last_weeks` at four. */
  lemma ExampleFailOnce()
    ensures Enabled(ExampleRegenerating, ExampleEvents[4])
    ensures Apply(ExampleRegenerating, ExampleEvents[4], false) == ExampleOneLeft
  {
    var s := ExampleRegenerating;
    assert RegenerateRequest(s, ExampleSidebar).feedback == Some("R");
    ExampleFacts();
    assert RegenerateStep(s, ExampleSidebar, ExampleService) == Popped(s);
    assert s.history[..1] == ["E"];
    assert Popped(s).(pendingAction := None, pendingFeedback := None) == ExampleOneLeft;
  }

  /** The second regeneration redoes the one-week entry as weeks -2 to 1, and its failure leaves the counter at -3. */
  lemma ExampleFailTwice()
    ensures Enabled(ExampleRegeneratingAgain, ExampleEvents[6])
    ensures RegenerateRequest(ExampleRegeneratingAgain, ExampleSidebar).startWeek == -2
    ensures RegenerateRequest(ExampleRegeneratingAgain, ExampleSidebar).numWeeks == 4
    ensures Apply(ExampleRegeneratingAgain, ExampleEvents[6], false) == ExampleEmptied
  {
    ExampleFacts();
  }

  /** The corrected Regenerate Last puts the entry back on failure. */
  lemma ExampleRestore()
    ensures Enabled(ExampleRegenerating, ExampleEvents[4]) && Enabled(ExampleRegenerating, ExampleEvents[6])
    ensures Apply(ExampleRegenerating, ExampleEvents[4], true) == ExampleTwoEntries
    ensures Apply(ExampleRegenerating, ExampleEvents[6], true) == ExampleTwoEntries
  {
    ExampleFacts();
  }

  /** Pressing Regenerate Last again with the feedback `R`. */
  lemma ExamplePressAgain(s: State, restoring: bool)
    requires s.history != []
    ensures Enabled(s, ExampleEvents[5])
    ensures Apply(s, ExampleEvents[5], restoring)
            == s.(pendingAction := Some(Regenerate), pendingFeedback := Some("R"))
  {
    ExampleFacts();
  }

  /** The last three events as the source behaves. */
  lemma ExampleSuffix()
    ensures Run(ExampleRegenerating, ExampleEvents[4..], false) == Some(ExampleEmptied)
  {
    var evs := ExampleEvents;
    ExampleFailOnce();
    RunStep(ExampleRegenerating, evs[4..], false, ExampleOneLeft);
    assert evs[4..][1..] == evs[5..];
    ExamplePressAgain(ExampleOneLeft, false);
    RunStep(ExampleOneLeft, evs[5..], false, ExampleRegeneratingAgain);
    ExampleFailTwice();
    assert evs[5..][1..] == evs[6..];
    RunStep(ExampleRegeneratingAgain, evs[6..], false, ExampleEmptied);
    assert evs[6..][1..] == [];
  }

  /** The last three events with the corrected Regenerate Last. */
  lemma ExampleRestoringSuffix()
    ensures Run(ExampleRegenerating, ExampleEvents[4..], true) == Some(ExampleTwoEntries)
  {
    var evs := ExampleEvents;
    ExampleRestore();
    RunStep(ExampleRegenerating, evs[4..], true, ExampleTwoEntries);
    assert evs[4..][1..] == evs[5..];
    ExamplePressAgain(ExampleTwoEntries, true);
    RunStep(ExampleTwoEntries, evs[5..], true, ExampleRegenerating);
    assert evs[5..][1..] == evs[6..];
    RunStep(ExampleRegenerating, evs[6..], true, ExampleTwoEntries);
    assert evs[6..][1..] == [];
  }

  /**
    As the source behaves, the first failed regeneration drops the four-week
    entry but keeps `last_weeks == 4`; the second one then asks to redo the
    one-week entry as four weeks starting at week -2, and once it fails too
    the history is empty while the counter stands at -3.
   */
  lemma RegenerateAfterFailureMiscounts()
    ensures var r := Run(Defaults(), ExampleEvents, false);
      r.Some? && r.value.history == [] && r.value.weekCounter == -3 && !Consistent(r.value)
  {
    ExamplePrefix(false);
    ExampleSuffix();
  }

  /** With the corrected Regenerate Last the same run ends where the two generations left it. */
  lemma RestoringRegenerateKeepsCount()
    ensures var r := Run(Defaults(), ExampleEvents, true);
      r.Some? && r.value == ExampleTwoEntries && r.value.weekCounter == 5 && Consistent(r.value)
  {
    ExamplePrefix(true);
    ExampleRestoringSuffix();
    SumSnoc([1], 4);
  }

  // ---------------------------------------------------------------------------
  // The session object
  // ---------------------------------------------------------------------------

  /**
    `st.session_state`: the fields persist between reruns, the history is
    popped and appended in place, and each method is one rerun.
   */
  class Session {
    var history: seq<string>
    ghost var weeks: seq<int>
    var weekCounter: int
    var lastMode: Option<Mode>
    var lastDiscipline: Option<string>
    var lastWeeks: int
    var pendingAction: Option<Action>
    var pendingFeedback: Option<string>
    var pendingWeeks: int

    ghost function Snapshot(): State
      reads this
    {
      State(history, weeks, weekCounter, lastMode, lastDiscipline, lastWeeks, pendingAction, pendingFeedback,
            pendingWeeks)
    }

    /** A new session takes the default values. */
    constructor()
      ensures Snapshot() == Defaults() && Consistent(Snapshot())
    {
      history := [];
      weeks := [];
      weekCounter := 0;
      lastMode := None;
      lastDiscipline := None;
      lastWeeks := 1;
      pendingAction := None;
      pendingFeedback := None;
      pendingWeeks := 1;
    }

    /** The Reset Timeline button, shown while there is history. */
    method ResetTimeline()
      requires history != []
      modifies this
      ensures Snapshot() == AfterReset(old(Snapshot()))
      ensures Consistent(Snapshot())
    {
      history := [];
      weeks := [];
      weekCounter := 0;
      lastMode := None;
      lastDiscipline := None;
      lastWeeks := 1;
      pendingAction := None;
      pendingFeedback := None;
    }

    /** The Regenerate Last button, enabled by feedback that is not blank. */
    method PressRegenerate(feedback: string)
      requires history != [] && Prompts.HasFeedback(Some(feedback))
      modifies this
      ensures Snapshot() == AfterRegeneratePressed(old(Snapshot()), feedback)
      ensures Consistent(old(Snapshot())) ==> Consistent(Snapshot())
    {
      pendingAction := Some(Regenerate);
      pendingFeedback := Some(feedback);
    }

    /** The Next Week button. */
    method PressNextWeek(feedback: string)
      requires history != []
      modifies this
      ensures Snapshot() == AfterNextWeekPressed(old(Snapshot()), feedback)
      ensures Consistent(old(Snapshot())) ==> Consistent(Snapshot())
    {
      pendingAction := Some(ContinueOne);
      pendingFeedback := Some(feedback);
    }

    /** The Next N Weeks button. */
    method PressNextWeeks(feedback: string, weeksInput: int)
      requires history != [] && 1 <= weeksInput <= 52
      modifies this
      ensures Snapshot() == AfterNextWeeksPressed(old(Snapshot()), feedback, weeksInput)
      ensures Consistent(old(Snapshot())) ==> Consistent(Snapshot())
    {
      pendingAction := Some(ContinueMany);
      pendingFeedback := Some(feedback);
      pendingWeeks := weeksInput;
    }

    /** The Generate Events button, shown while there is no history. */
    method GenerateEvents(sb: Sidebar, service: EventsRequest -> Stream)
      requires history == [] && CanGenerate(sb)
      modifies this
      ensures Snapshot() == AfterGenerate(old(Snapshot()), sb, service)
      ensures Consistent(old(Snapshot())) ==> Consistent(Snapshot())
    {
      ghost var before := Snapshot();
      if Consistent(before) {
        GenerateStartsTimeline(before, sb, service);
      }
      var mode: Mode;
      if sb.radio == SingleLabel {
        mode := Single;
      } else if StartsWith(sb.radio, FullSetLead) && Occurs(OneWord, sb.radio) {
        mode := Set;
      } else {
        mode := All;
      }
      var discipline := SelectedDiscipline(sb);
      var numWeeks := SelectedWeeks(sb);
      var result := RunGeneration(service(Request(sb, mode, discipline, numWeeks, 1, None, None)));
      if result.Some? {
        history := history + [result.value];
        weeks := weeks + [numWeeks];
        weekCounter := weekCounter + numWeeks;
        lastMode := Some(mode);
        lastDiscipline := discipline;
        lastWeeks := numWeeks;
      }
    }

    /** The regenerate branch of a rerun: pop the last entry, take its weeks off the counter, generate it again. */
    method RegenerateLast(sb: Sidebar, service: EventsRequest -> Stream)
      requires history != []
      modifies this
      ensures Snapshot() == RegenerateStep(old(Snapshot()), sb, service)
      ensures Consistent(old(Snapshot())) && Outcome(service(RegenerateRequest(old(Snapshot()), sb))).Some?
              ==> Consistent(Snapshot())
    {
      ghost var before := Snapshot();
      if Consistent(before) && Outcome(service(RegenerateRequest(before, sb))).Some? {
        RegenerateReplacesLast(before, sb, service);
      }
      var feedback := pendingFeedback;
      var mode := lastMode.GetOr(Single);
      var discipline := lastDiscipline;
      history := history[..|history| - 1];
      weeks := DropLast(weeks);
      weekCounter := weekCounter - lastWeeks;
      var startWeek := weekCounter + 1;
      var numWeeks := lastWeeks;
      var previous := if history != [] then Some(Join("\n\n", history)) else None;
      var result := RunGeneration(service(Request(sb, mode, discipline, numWeeks, startWeek, previous, feedback)));
      if result.Some? {
        history := history + [result.value];
        weeks := weeks + [numWeeks];
        weekCounter := weekCounter + numWeeks;
      }
    }

    /** The Next Week branch of a rerun. */
    method ContinueWithOne(sb: Sidebar, service: EventsRequest -> Stream)
      requires history != []
      modifies this
      ensures Snapshot() == ContinueOneStep(old(Snapshot()), sb, service)
      ensures Consistent(old(Snapshot())) ==> Consistent(Snapshot())
    {
      ghost var before := Snapshot();
      if Consistent(before) {
        ContinueOneExtends(before, sb, service);
      }
      var mode := lastMode.GetOr(Single);
      var startWeek := weekCounter + 1;
      var previous := Join("\n\n", history);
      var result := RunGeneration(service(Request(sb, mode, lastDiscipline, 1, startWeek, Some(previous),
                                                  pendingFeedback)));
      if result.Some? {
        history := history + [result.value];
        weeks := weeks + [1];
        weekCounter := weekCounter + 1;
        lastWeeks := 1;
      }
    }

    /** The Next N Weeks branch of a rerun, which upgrades single mode to the one-discipline set. */
    method ContinueWithMany(sb: Sidebar, service: EventsRequest -> Stream)
      requires history != []
      modifies this
      ensures Snapshot() == ContinueManyStep(old(Snapshot()), sb, service)
      ensures Consistent(old(Snapshot())) ==> Consistent(Snapshot())
    {
      ghost var before := Snapshot();
      if Consistent(before) {
        ContinueManyExtends(before, sb, service);
      }
      var mode := lastMode.GetOr(Single);
      var numWeeks := pendingWeeks;
      var startWeek := weekCounter + 1;
      var previous := Join("\n\n", history);
      if mode == Single {
        mode := Set;
      }
      var result := RunGeneration(service(Request(sb, mode, lastDiscipline, numWeeks, startWeek, Some(previous),
                                                  pendingFeedback)));
      if result.Some? {
        history := history + [result.value];
        weeks := weeks + [numWeeks];
        weekCounter := weekCounter + numWeeks;
        lastWeeks := numWeeks;
        lastMode := Some(mode);
      }
    }

    /** A rerun with a pending action: carries it out as the source does, then clears it. */
    method ProcessPending(sb: Sidebar, service: EventsRequest -> Stream)
      requires history != [] && pendingAction.Some?
      modifies this
      ensures Snapshot() == AfterProcess(old(Snapshot()), sb, service, false)
      ensures Consistent(old(Snapshot())) && !FailedRegenerate(old(Snapshot()), PendingRerun(sb, service))
              ==> Consistent(Snapshot())
    {
      ghost var before := Snapshot();
      if Consistent(before) && !FailedRegenerate(before, PendingRerun(sb, service)) {
        ApplyConsistent(before, PendingRerun(sb, service), false);
      }
      match pendingAction.value {
        case Regenerate => RegenerateLast(sb, service);
        case ContinueOne => ContinueWithOne(sb, service);
        case ContinueMany => ContinueWithMany(sb, service);
      }
      pendingAction := None;
      pendingFeedback := None;
    }
  }
}
