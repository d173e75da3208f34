/**
 * The turn-taking rules of the tutoring component: one student turn is
 * dispatched on the stage to the setup, learn or practice handler, and each
 * handler decides the new conversation state from what the speech-to-text
 * and language-model services answer. Everything those services return is an
 * input here (`TurnInput`); what the component sends or says is an output
 * (`Effects`).
 */
module TutorTurns {
  import opened Wrappers
  import opened SharedContext
  import opened LevelScale

  datatype Stage = Setup | Learn | Practice

  /** The conversation state the component reads and writes. */
  datatype Session = Session(
    transcript: seq<Turn>,       // the whole conversation, for display
    inputTranscript: seq<Turn>,  // the recent entries used to build prompts
    topic: string,
    level: string,               // the last assessed level tag, "" until setup is done
    stage: Stage,
    notes: string,               // the rolling summary of evicted entries
    validInput: bool)

  /** The state of a freshly mounted session. */
  const Initial: Session :=
    Session([Turn(Some(Greeting), None)], [Turn(Some(Greeting), None)], "", "", Setup, "", true)

  /** The number of entries at which the prompt window starts to slide. */
  const WindowCap: nat := 5

  const Reprompt: string := "Sorry can you repeat that?"
  const InvalidInput: string := "invalidInput"
  const ChangeTopic: string := "changeTopic"

  /** The greeting written back into the transcript once setup has a topic (it has no question mark). */
  const SetupGreeting: string := "Hi, how can I help you today"

  function TopicQuestion(topic: string): string {
    "What do you know about " + topic + "?"
  }

  function TopicChangeLine(topic: string): string {
    "Sorry about that, let's change the topic to " + topic + ". What do you know about " + topic + "?"
  }

  /** The model's structured answer: the requested field and its explanation. */
  datatype Extraction = Extraction(value: string, explanation: string)

  /** What the outside services answer during one turn. */
  datatype TurnInput = TurnInput(
    heard: string,                  // the transcription of the recording; "" when it failed
    extracted: Option<Extraction>,  // None when the extraction call or its JSON parse failed
    summary: string,                // the summarisation call's answer
    reply: Option<string>)          // the tutor's generated reply in setup and learn; None is `undefined`

  /** The system messages of a tutor request, by what they carry. */
  datatype Note = Persona(topic: string) | SummaryNote(summary: string) | Assessment(text: string)

  /** One chat message of a tutor request. */
  datatype Message = System(note: Note) | Assistant(text: string) | User(said: Option<string>)

  /** What an extraction call asks for. */
  datatype ExtractionKind = TopicRequest | LevelRequest(includePreviousLevel: bool, canChangeTopic: bool)

  /** An extraction call: the text the model analyses and what it is asked for. */
  datatype ExtractionRequest = ExtractionRequest(text: string, kind: ExtractionKind)

  /** A summarisation call: whether it builds on the notes, the notes, and the entry it summarises. */
  datatype SummaryRequest = SummaryRequest(includePreviousSummary: bool, notes: string, evicted: Turn)

  /**
   * How a turn ended: answered with a tutor reply (or a topic question),
   * re-prompted after invalid input, restarted on a new topic, aborted by an
   * exception before any state was written, skipped by a branch that only logs,
   * or thrown by a call of a setter the session context does not supply.
   */
  datatype Outcome = Answered | Reprompted | TopicChanged | Aborted | Skipped | Threw

  /** Everything a turn sends out besides the new state. */
  datatype Effects = Effects(
    outcome: Outcome,
    spoken: seq<string>,
    extraction: Option<ExtractionRequest>,
    summary: Option<SummaryRequest>,
    tutorRequest: Option<seq<Message>>)

  datatype Step = Step(session: Session, effects: Effects)

  /** Text-to-speech speaks only a present, non-empty text. */
  function Speak(text: Option<string>): (r: seq<string>)
    ensures r == (if Truthy(text) then [text.value] else [])
  {
    if Truthy(text) then [text.value] else []
  }

  /** `entries` with the student's words written into the last entry. */
  function FillLast(entries: seq<Turn>, heard: string): (r: seq<Turn>)
    requires entries != []
    ensures |r| == |entries| && r[..|r| - 1] == entries[..|entries| - 1]
    ensures r[|r| - 1] == Turn(entries[|entries| - 1].tutor, Some(heard))
  {
    entries[|entries| - 1 := Turn(entries[|entries| - 1].tutor, Some(heard))]
  }

  // ---------------------------------------------------------------- prompts

  /** The assistant message of an entry: its tutor line, when there is one. */
  function TutorLine(t: Turn): seq<Message> {
    if Truthy(t.tutor) then [Assistant(t.tutor.value)] else []
  }

  /** The user message of an entry: its student line, when there is one. */
  function StudentLine(t: Turn): seq<Message> {
    if Truthy(t.student) then [User(t.student)] else []
  }

  /** The messages replaying entries in order, tutor line before student line. */
  function Replay(entries: seq<Turn>): seq<Message> {
    if entries == [] then []
    else Replay(entries[..|entries| - 1]) + TutorLine(entries[|entries| - 1]) + StudentLine(entries[|entries| - 1])
  }

  /**
   * The request `askTutor` sends: the persona, the summary when there is one,
   * the window replayed except the last entry's student line, the assessment
   * with the level's guidance, and the student's newest words last. An empty
   * window has no last entry: the call fails and sends nothing.
   */
  function TutorMessages(window: seq<Turn>, topic: string, level: string, explanation: string, summary: string)
    : Option<seq<Message>>
  {
    if window == [] then None
    else Some(PromptHead(topic, summary) + PromptBody(window, AssessmentText(level, topic, explanation)))
  }

  /** The persona, then the summary of evicted turns when there is one. */
  function PromptHead(topic: string, summary: string): seq<Message> {
    [System(Persona(topic))] + (if summary != "" then [System(SummaryNote(summary))] else [])
  }

  /** The window replayed without its last student line, then the assessment and that line. */
  function PromptBody(window: seq<Turn>, assessment: string): seq<Message>
    requires window != []
  {
    var last := window[|window| - 1];
    Replay(window[..|window| - 1]) + TutorLine(last) + [System(Assessment(assessment)), User(last.student)]
  }

  /** The assessment message's text: the explanation, then the level's guidance ("undefined" for an unknown level). */
  function AssessmentText(level: string, topic: string, explanation: string): string {
    explanation + " " + Show(Guide(level, topic))
  }

  /** Replaying one more entry appends that entry's lines. */
  lemma ReplayStep(entries: seq<Turn>, k: nat)
    requires k < |entries|
    ensures Replay(entries[..k + 1]) == Replay(entries[..k]) + TutorLine(entries[k]) + StudentLine(entries[k])
  {
    assert entries[..k + 1][..k] == entries[..k];
  }

  /**
   * What `askTutor` has pushed after visiting the first `k` entries of the
   * window: their lines, except the student line of the window's last entry.
   */
  function Replayed(window: seq<Turn>, k: nat): seq<Message>
    requires k <= |window|
  {
    if k == |window| && k > 0 then Replay(window[..k - 1]) + TutorLine(window[k - 1])
    else Replay(window[..k])
  }

  /** Visiting one more entry pushes its tutor line and, unless it is the last, its student line. */
  lemma ReplayedStep(window: seq<Turn>, k: nat)
    requires k < |window|
    ensures Replayed(window, k + 1)
      == Replayed(window, k) + TutorLine(window[k]) + (if k == |window| - 1 then [] else StudentLine(window[k]))
  {
    ReplayStep(window, k);
  }

  lemma {:induction false} ReplayLength(entries: seq<Turn>)
    ensures |Replay(entries)| <= 2 * |entries|
  {
    if entries != [] {
      ReplayLength(entries[..|entries| - 1]);
    }
  }

  /** Every user message of a replay is a student line of a replayed entry. */
  lemma {:induction false} ReplayUsersAreStudents(entries: seq<Turn>, k: nat)
    requires k < |Replay(entries)| && Replay(entries)[k].User?
    ensures exists j :: 0 <= j < |entries| && entries[j].student == Replay(entries)[k].said
  {
    var init := entries[..|entries| - 1];
    var last := entries[|entries| - 1];
    var r := Replay(entries);
    assert r == Replay(init) + TutorLine(last) + StudentLine(last);
    if k < |Replay(init)| {
      ReplayUsersAreStudents(init, k);
      var j :| 0 <= j < |init| && init[j].student == Replay(init)[k].said;
      assert entries[j] == init[j];
    } else {
      assert entries[|entries| - 1].student == r[k].said;
    }
  }

  /**
   * The shape of a tutor request: the persona first, the assessment second to
   * last, the last entry's student words last, and at most two messages per
   * window entry beyond the fixed ones.
   */
  lemma TutorRequestShape(window: seq<Turn>, topic: string, level: string, explanation: string, summary: string)
    requires window != []
    ensures var m := TutorMessages(window, topic, level, explanation, summary);
      && m.Some?
      && |m.value| <= 2 * |window| + 3
      && m.value[0] == System(Persona(topic))
      && m.value[|m.value| - 2] == System(Assessment(AssessmentText(level, topic, explanation)))
      && m.value[|m.value| - 1] == User(window[|window| - 1].student)
  {
    ReplayLength(window[..|window| - 1]);
  }

  /**
   * A tutor request carries a summary message exactly when the summary is
   * non-empty: then it is the one right after the persona, and there is no other.
   */
  lemma SummarySentIffPresent(window: seq<Turn>, topic: string, level: string, explanation: string, summary: string)
    requires window != []
    ensures var m := TutorMessages(window, topic, level, explanation, summary);
      && m.Some?
      && (summary != "" ==> |m.value| > 2 && m.value[1] == System(SummaryNote(summary)) && NoSummaryNote(m.value[2..]))
      && (summary == "" ==> NoSummaryNote(m.value))
  {
    var body := PromptBody(window, AssessmentText(level, topic, explanation));
    BodyHasNoNotes(window, AssessmentText(level, topic, explanation));
    if summary != "" {
      assert (PromptHead(topic, summary) + body)[2..] == body;
    } else {
      NoNoteConcat(PromptHead(topic, summary), body);
    }
  }

  lemma BodyHasNoNotes(window: seq<Turn>, assessment: string)
    requires window != []
    ensures NoSummaryNote(PromptBody(window, assessment))
  {
    var last := window[|window| - 1];
    ReplayHasNoNotes(window[..|window| - 1]);
    NoNoteConcat(Replay(window[..|window| - 1]), TutorLine(last));
    NoNoteConcat(Replay(window[..|window| - 1]) + TutorLine(last), [System(Assessment(assessment)), User(last.student)]);
  }

  lemma NoNoteConcat(a: seq<Message>, b: seq<Message>)
    requires NoSummaryNote(a) && NoSummaryNote(b)
    ensures NoSummaryNote(a + b)
  {
    forall k | 0 <= k < |a + b|
      ensures !((a + b)[k].System? && (a + b)[k].note.SummaryNote?)
    {
      if k < |a| { assert (a + b)[k] == a[k]; } else { assert (a + b)[k] == b[k - |a|]; }
    }
  }

  predicate NoSummaryNote(ms: seq<Message>) {
    forall k :: 0 <= k < |ms| ==> !(ms[k].System? && ms[k].note.SummaryNote?)
  }

  lemma {:induction false} ReplayHasNoNotes(entries: seq<Turn>)
    ensures NoSummaryNote(Replay(entries))
  {
    if entries != [] {
      ReplayHasNoNotes(entries[..|entries| - 1]);
    }
  }

  // ---------------------------------------------------------------- handlers

  function Abort(s: Session, extraction: Option<ExtractionRequest>): Step {
    Step(s, Effects(Aborted, [], extraction, None, None))
  }

  function Repeat(s: Session, extraction: Option<ExtractionRequest>): Step {
    Step(s.(validInput := false), Effects(Reprompted, [Reprompt], extraction, None, None))
  }

  /** The first setup turn: ask for the topic the student wants help with. */
  function SetupTopic(s: Session, i: TurnInput): Step {
    if i.heard == "" then Abort(s, None)
    else
      var request := Some(ExtractionRequest(i.heard, TopicRequest));
      match i.extracted
      case None => Abort(s, request)
      case Some(x) =>
        if x.value == InvalidInput then Repeat(s, request)
        else
          var question := TopicQuestion(x.value);
          var t := [Turn(Some(SetupGreeting), Some(i.heard)), Turn(Some(question), None)];
          Step(s.(transcript := t, inputTranscript := t, topic := x.value),
               Effects(Answered, [question], request, None, None))
  }

  /** The second setup turn: the baseline level, or a change of topic. */
  function SetupLevel(s: Session, i: TurnInput): Step
    requires |s.inputTranscript| >= 2
  {
    var request := Some(ExtractionRequest(
      FormatTranscript(FillLast(s.inputTranscript, i.heard)), LevelRequest(false, true)));
    match i.extracted
    case None => Abort(s, request)
    case Some(x) =>
      if x.value == InvalidInput then Repeat(s, request)
      else if x.value == ChangeTopic then
        var line := TopicChangeLine(x.explanation);
        var t := [Turn(Some(SetupGreeting), Some(i.heard)), Turn(Some(line), None)];
        Step(s.(transcript := t, inputTranscript := t, topic := x.explanation),
             Effects(TopicChanged, [line], request, None, None))
      else if |s.transcript| < 2 then Abort(s, request)
      else
        var filled := s.transcript[1 := Turn(s.transcript[1].tutor, Some(i.heard))];
        var t := filled + [Turn(i.reply, None)];
        Step(s.(transcript := t, inputTranscript := t, level := x.value, stage := Learn),
             Effects(Answered, Speak(i.reply), request, None,
                     TutorMessages(filled, s.topic, x.value, x.explanation, "")))
  }

  /** `setup`: which step runs depends on which of the first two entries still lacks the student's words. */
  function SetupStep(s: Session, i: TurnInput): Step {
    if s.transcript == [] then Abort(s, None)
    else if !Truthy(s.transcript[0].student) then SetupTopic(s, i)
    else if |s.inputTranscript| < 2 then Abort(s, None)
    else if !Truthy(s.inputTranscript[1].student) then SetupLevel(s, i)
    else Step(s, Effects(Skipped, [], None, None, None))
  }

  /**
   * The shared part of a learn or practice turn once the level is assessed:
   * the student's words go into the open entry of both transcripts, a full
   * window is summarised and loses its oldest entry, the reply is appended to
   * both, and the notes take the summary once the window is full. A practice
   * turn asks for its reply without passing any conversation, a call that
   * fails before sending, so its reply is always `undefined`.
   */
  function Advance(s: Session, i: TurnInput, x: Extraction, request: Option<ExtractionRequest>, learning: bool): Step
    requires s.transcript != [] && s.inputTranscript != []
  {
    var t := FillLast(s.transcript, i.heard);
    var w := FillLast(s.inputTranscript, i.heard);
    var evict := |s.inputTranscript| >= WindowCap;
    var summaryRequest := if evict then Some(SummaryRequest(s.notes != "", s.notes, w[0])) else None;
    var summary := if evict then i.summary else "";
    var window := if evict then w[1..] else w;
    var reply := if learning then i.reply else None;
    var newWindow := window + [Turn(reply, None)];
    var tutorRequest := if learning then TutorMessages(window, s.topic, x.value, x.explanation, summary) else None;
    var s' := s.(transcript := t + [Turn(reply, None)],
                 inputTranscript := newWindow,
                 notes := if |newWindow| >= WindowCap then summary else s.notes);
    Step(s', Effects(Answered, Speak(reply), request, summaryRequest, tutorRequest))
  }

  /** The assessment request of a learn or practice turn: the window with the student's words in its open entry. */
  function LevelRequestFor(s: Session, i: TurnInput): Option<ExtractionRequest> {
    if s.inputTranscript == [] then None
    else Some(ExtractionRequest(FormatTranscript(FillLast(s.inputTranscript, i.heard)), LevelRequest(true, false)))
  }

  /** True when the level tag parses and satisfies `p`; a tag that does not parse satisfies no comparison. */
  predicate LevelIs(tag: string, p: int -> bool) {
    IntLevel(tag).Some? && p(IntLevel(tag).value)
  }

  /** `learn`: runs only while the level is at most 4; enters practice when the level changes to 5. */
  function LearnStep(s: Session, i: TurnInput): Step {
    if !LevelIs(s.level, n => n <= 4) then Step(s, Effects(Skipped, [], None, None, None))
    else if s.inputTranscript == [] then Abort(s, None)
    else
      var request := LevelRequestFor(s, i);
      match i.extracted
      case None => Abort(s, request)
      case Some(x) =>
        if x.value == InvalidInput then Repeat(s, request)
        else if s.transcript == [] then Abort(s, request)
        else
          var r := Advance(s, i, x, request, true);
          var changed := x.value != s.level;
          var stage := if changed && IntLevel(x.value) == Some(5) then Practice else s.stage;
          Step(r.session.(level := if changed then x.value else s.level, stage := stage), r.effects)
  }

  /**
   * `practice`: runs only at level 5; returns to learn, taking the new level,
   * when the level parses below 5.
   */
  function PracticeStep(s: Session, i: TurnInput): Step {
    if !LevelIs(s.level, n => n == 5) then Step(s, Effects(Skipped, [], None, None, None))
    else if s.inputTranscript == [] then Abort(s, None)
    else
      var request := LevelRequestFor(s, i);
      match i.extracted
      case None => Abort(s, request)
      case Some(x) =>
        if x.value == InvalidInput then Repeat(s, request)
        else if s.transcript == [] then Abort(s, request)
        else
          var r := Advance(s, i, x, request, false);
          if LevelIs(x.value, n => n < 5) then Step(r.session.(level := x.value, stage := Learn), r.effects)
          else r
  }

  /** `main`: validity is reset, then the turn goes to the handler of the current stage. */
  function MainStep(s: Session, i: TurnInput): Step {
    var s1 := s.(validInput := true);
    match s.stage
    case Setup => SetupStep(s1, i)
    case Learn => LearnStep(s1, i)
    case Practice => PracticeStep(s1, i)
  }

  // ---------------------------------------------------------------- the mounted context

  /**
   * A handler's step when the session context does not supply `setTopic`,
   * `setTranscript`, `setInputTranscript` and `setStage`, as with the provider
   * of src/contexts/SharedContext.jsx. An answered or topic-changing step calls
   * one of them after all its requests, its speech and `setNotes` (which is
   * the component's own), and that call throws: the rest of the step is lost.
   */
  function Unwired(s: Session, r: Step): Step {
    if r.effects.outcome in {Answered, TopicChanged} then
      Step(s.(notes := r.session.notes), r.effects.(outcome := Threw))
    else r
  }

  /** A handler's step under a context that supplies the conversation setters (`setters`) or not. */
  function Wire(setters: bool, s: Session, r: Step): Step {
    if setters then r else Unwired(s, r)
  }

  /** `main` in the context it is mounted in, which lacks the conversation setters. */
  function MountedStep(s: Session, i: TurnInput): Step {
    Wire(false, s.(validInput := true), MainStep(s, i))
  }

  /** The state after a sequence of turns in the mounted context. */
  function MountedRun(s: Session, inputs: seq<TurnInput>): Session
    decreases |inputs|
  {
    if inputs == [] then s else MountedRun(MountedStep(s, inputs[0]).session, inputs[1..])
  }

  // ---------------------------------------------------------------- properties

  /** The two sessions agree on everything a turn may change except the validity flag. */
  predicate SameConversation(a: Session, b: Session) {
    && a.transcript == b.transcript && a.inputTranscript == b.inputTranscript
    && a.topic == b.topic && a.level == b.level && a.stage == b.stage && a.notes == b.notes
  }

  /**
   * What a turn that is not answered leaves behind: an aborted or skipped turn
   * changes nothing; a re-prompt only marks the input invalid and says "Sorry
   * can you repeat that?"; an `invalidInput` answer never leads further.
   */
  predicate Unanswered(s: Session, r: Step, i: TurnInput) {
    && (r.effects.outcome in {Aborted, Skipped} ==> r.session == s)
    && (r.effects.outcome == Reprompted ==> r.session == s.(validInput := false) && r.effects.spoken == [Reprompt])
    && (i.extracted.Some? && i.extracted.value.value == InvalidInput ==> r.effects.outcome in {Reprompted, Aborted, Skipped})
  }

  lemma SetupUnanswered(s: Session, i: TurnInput)
    ensures Unanswered(s, SetupStep(s, i), i)
  {
  }

  lemma LearnUnanswered(s: Session, i: TurnInput)
    ensures Unanswered(s, LearnStep(s, i), i) && LearnStep(s, i).effects.outcome != TopicChanged
  {
  }

  lemma PracticeUnanswered(s: Session, i: TurnInput)
    ensures Unanswered(s, PracticeStep(s, i), i) && PracticeStep(s, i).effects.outcome != TopicChanged
  {
  }

  lemma MainUnanswered(s: Session, i: TurnInput)
    ensures Unanswered(s.(validInput := true), MainStep(s, i), i)
  {
    var s1 := s.(validInput := true);
    match s.stage
    case Setup => SetupUnanswered(s1, i);
    case Learn => LearnUnanswered(s1, i);
    case Practice => PracticeUnanswered(s1, i);
  }

  /**
   * An `invalidInput` answer changes nothing but the validity flag: the turn
   * re-prompts with "Sorry can you repeat that?" and marks the input invalid,
   * or it never got as far as asking.
   */
  lemma InvalidInputChangesNothing(s: Session, i: TurnInput)
    requires i.extracted.Some? && i.extracted.value.value == InvalidInput
    ensures var r := MainStep(s, i);
      && SameConversation(r.session, s)
      && r.effects.outcome in {Reprompted, Aborted, Skipped}
      && (r.effects.outcome == Reprompted ==> !r.session.validInput && r.effects.spoken == [Reprompt])
  {
    MainUnanswered(s, i);
  }

  /** A turn that is aborted or skipped leaves the session as `main` left it, with validity reset. */
  lemma FailedTurnChangesNothing(s: Session, i: TurnInput)
    ensures var r := MainStep(s, i);
      r.effects.outcome in {Aborted, Skipped} ==> r.session == s.(validInput := true)
  {
    MainUnanswered(s, i);
  }

  /** The first setup turn with a valid topic: both transcripts become the same two entries. */
  lemma FirstSetupTurn(s: Session, i: TurnInput)
    requires s.stage == Setup && s.transcript != [] && !Truthy(s.transcript[0].student)
    requires i.heard != "" && i.extracted.Some? && i.extracted.value.value != InvalidInput
    ensures var r := MainStep(s, i); var topic := i.extracted.value.value;
      && r.session.transcript == r.session.inputTranscript
      && r.session.transcript == [Turn(Some(SetupGreeting), Some(i.heard)), Turn(Some(TopicQuestion(topic)), None)]
      && r.session.topic == topic && r.session.stage == Setup && r.session.level == s.level
      && r.effects.spoken == [TopicQuestion(topic)]
  {
  }

  /**
   * The second setup turn: a change of topic restarts the two-entry scaffold on
   * the new topic without touching stage or level; a level fills entry 1, adds
   * exactly the reply, takes the level and moves to learn.
   */
  lemma SecondSetupTurn(s: Session, i: TurnInput)
    requires s.stage == Setup && s.transcript != [] && Truthy(s.transcript[0].student)
    requires |s.inputTranscript| >= 2 && !Truthy(s.inputTranscript[1].student)
    requires i.extracted.Some? && i.extracted.value.value != InvalidInput
    ensures var r := MainStep(s, i); var x := i.extracted.value;
      && (x.value == ChangeTopic ==>
            && r.session.transcript == r.session.inputTranscript
            && r.session.transcript == [Turn(Some(SetupGreeting), Some(i.heard)), Turn(Some(TopicChangeLine(x.explanation)), None)]
            && r.session.topic == x.explanation && r.session.stage == Setup && r.session.level == s.level)
      && (x.value != ChangeTopic && |s.transcript| >= 2 ==>
            && r.session.transcript == r.session.inputTranscript
            && |r.session.transcript| == |s.transcript| + 1
            && r.session.transcript[1] == Turn(s.transcript[1].tutor, Some(i.heard))
            && (forall k :: 0 <= k < |s.transcript| && k != 1 ==> r.session.transcript[k] == s.transcript[k])
            && r.session.transcript[|s.transcript|] == Turn(i.reply, None)
            && r.session.level == x.value && r.session.stage == Learn)
  {
  }

  /** The learn or practice handler decides this turn. */
  predicate Assessing(s: Session) {
    s.stage == Learn || s.stage == Practice
  }

  /** The request, the reply and the window `Advance` produces for a session. */
  predicate AdvanceShape(s: Session, i: TurnInput, learning: bool, r: Step)
    requires s.transcript != [] && s.inputTranscript != [] && i.extracted.Some?
  {
    var n := |s.inputTranscript|;
    var w := FillLast(s.inputTranscript, i.heard);
    var window := if n >= WindowCap then w[1..] else w;
    var reply := if learning then i.reply else None;
    && r.session.transcript == FillLast(s.transcript, i.heard) + [Turn(reply, None)]
    && r.session.inputTranscript == window + [Turn(reply, None)]
    && r.session.notes == (if n >= WindowCap then i.summary else if n + 1 >= WindowCap then "" else s.notes)
    && r.effects.outcome == Answered
    && r.effects.spoken == Speak(reply)
    && r.effects.summary == (if n >= WindowCap then Some(SummaryRequest(s.notes != "", s.notes, w[0])) else None)
    && (learning ==>
          r.effects.tutorRequest == TutorMessages(window, s.topic, i.extracted.value.value,
                                                  i.extracted.value.explanation, if n >= WindowCap then i.summary else ""))
    && (!learning ==> r.effects.tutorRequest.None?)
  }

  lemma AdvanceHasShape(s: Session, i: TurnInput, x: Extraction, request: Option<ExtractionRequest>, learning: bool)
    requires s.transcript != [] && s.inputTranscript != [] && i.extracted == Some(x)
    ensures AdvanceShape(s, i, learning, Advance(s, i, x, request, learning))
  {
  }

  /** An answered learn or practice turn is an `Advance`, followed by the level and stage decisions. */
  lemma AnsweredHasShape(s: Session, i: TurnInput)
    requires Assessing(s)
    ensures var r := MainStep(s, i);
      r.effects.outcome == Answered ==>
        && i.extracted.Some? && s.transcript != [] && s.inputTranscript != []
        && AdvanceShape(s, i, s.stage == Learn, r)
  {
    var s1 := s.(validInput := true);
    var r := MainStep(s, i);
    if r.effects.outcome == Answered {
      if s.stage == Learn {
        assert r == LearnStep(s1, i);
        AdvanceHasShape(s1, i, i.extracted.value, LevelRequestFor(s1, i), true);
      } else {
        assert r == PracticeStep(s1, i);
        AdvanceHasShape(s1, i, i.extracted.value, LevelRequestFor(s1, i), false);
      }
    }
  }

  /**
   * An answered learn or practice turn: the full log keeps every earlier entry,
   * gets the student's words in its open entry and grows by exactly the reply;
   * the window loses its oldest entry exactly when it already held five, and
   * only then is a summary requested, building on the notes exactly when there
   * are notes.
   */
  lemma AnsweredTurnSlidesWindow(s: Session, i: TurnInput)
    requires Assessing(s)
    ensures var r := MainStep(s, i); var n := |s.inputTranscript|;
      var reply := if s.stage == Learn then i.reply else None;
      r.effects.outcome == Answered ==>
        && s.transcript != [] && n > 0
        && r.session.transcript == FillLast(s.transcript, i.heard) + [Turn(reply, None)]
        && r.session.inputTranscript ==
             (if n >= WindowCap then FillLast(s.inputTranscript, i.heard)[1..] else FillLast(s.inputTranscript, i.heard))
             + [Turn(reply, None)]
        && |r.session.inputTranscript| == (if n >= WindowCap then n else n + 1)
        && (r.effects.summary.Some? <==> n >= WindowCap)
        && (r.effects.summary.Some? ==>
              r.effects.summary.value == SummaryRequest(s.notes != "", s.notes, FillLast(s.inputTranscript, i.heard)[0]))
        && r.session.notes == (if n >= WindowCap then i.summary else if n + 1 >= WindowCap then "" else s.notes)
  {
    AnsweredHasShape(s, i);
  }

  /** A learn turn asks the tutor with the slid window, the new assessment and the summary, and speaks the reply. */
  lemma LearnTurnAsksTutor(s: Session, i: TurnInput)
    requires s.stage == Learn
    ensures var r := MainStep(s, i); var n := |s.inputTranscript|;
      r.effects.outcome == Answered ==>
        && i.extracted.Some? && n > 0
        && var w := FillLast(s.inputTranscript, i.heard);
        && var x := i.extracted.value;
        && r.effects.tutorRequest == TutorMessages(if n >= WindowCap then w[1..] else w, s.topic,
                                                   x.value, x.explanation, if n >= WindowCap then i.summary else "")
        && r.effects.spoken == Speak(i.reply)
  {
    AnsweredHasShape(s, i);
  }

  /** A practice turn as written sends no tutor request, says nothing and logs an entry with no tutor line. */
  lemma PracticeTurnIsSilent(s: Session, i: TurnInput)
    requires s.stage == Practice
    ensures var r := MainStep(s, i);
      r.effects.outcome == Answered ==>
        && r.effects.tutorRequest.None? && r.effects.spoken == []
        && r.session.transcript != []
        && r.session.transcript[|r.session.transcript| - 1] == Turn(None, None)
  {
    AnsweredHasShape(s, i);
  }

  lemma LearnEdges(s: Session, i: TurnInput)
    ensures var r := LearnStep(s, i);
      r.effects.outcome == Answered ==>
        && i.extracted.Some?
        && var v := i.extracted.value.value;
        && LevelIs(s.level, n => n <= 4)
        && r.session.level == (if v != s.level then v else s.level)
        && r.session.stage == (if v != s.level && IntLevel(v) == Some(5) then Practice else s.stage)
  {
  }

  lemma PracticeEdges(s: Session, i: TurnInput)
    ensures var r := PracticeStep(s, i);
      r.effects.outcome == Answered ==>
        && i.extracted.Some?
        && var v := i.extracted.value.value;
        && LevelIs(s.level, n => n == 5)
        && r.session.level == (if LevelIs(v, n => n < 5) then v else s.level)
        && r.session.stage == (if LevelIs(v, n => n < 5) then Learn else s.stage)
  {
  }

  /**
   * The stage edges: learn moves to practice only on a changed level that
   * parses to 5 and takes the level only when it changed; practice moves back
   * to learn, taking the level, only when the level parses below 5.
   */
  lemma StageEdges(s: Session, i: TurnInput)
    requires Assessing(s)
    ensures var r := MainStep(s, i);
      && (r.effects.outcome == Answered ==> i.extracted.Some?)
      && (s.stage == Learn && r.effects.outcome == Answered ==>
            var v := i.extracted.value.value;
            && LevelIs(s.level, n => n <= 4)
            && r.session.level == (if v != s.level then v else s.level)
            && (r.session.stage == Practice <==> v != s.level && IntLevel(v) == Some(5))
            && (r.session.stage == Learn <==> !(v != s.level && IntLevel(v) == Some(5))))
      && (s.stage == Practice && r.effects.outcome == Answered ==>
            var v := i.extracted.value.value;
            && LevelIs(s.level, n => n == 5)
            && (r.session.stage == Learn <==> LevelIs(v, n => n < 5))
            && r.session.level == (if LevelIs(v, n => n < 5) then v else s.level))
      && (r.effects.outcome != Answered ==> r.session.stage == s.stage && r.session.level == s.level)
  {
    var s1 := s.(validInput := true);
    MainUnanswered(s, i);
    if s.stage == Learn {
      LearnEdges(s1, i);
      LearnUnanswered(s1, i);
    } else {
      PracticeEdges(s1, i);
      PracticeUnanswered(s1, i);
    }
  }

  /** `b` ends with `a`. */
  predicate IsSuffix(a: seq<Turn>, b: seq<Turn>) {
    |a| <= |b| && b[|b| - |a|..] == a
  }

  /**
   * The invariant of every session the component reaches: the window holds one
   * to five entries and is the tail of the full log; during setup the two are
   * the same and hold at most the two scaffold entries.
   */
  predicate Consistent(s: Session) {
    && 1 <= |s.inputTranscript| <= WindowCap
    && IsSuffix(s.inputTranscript, s.transcript)
    && (s.stage == Setup ==> s.inputTranscript == s.transcript && |s.transcript| <= 2)
  }

  lemma SuffixFillLast(a: seq<Turn>, b: seq<Turn>, heard: string)
    requires a != [] && IsSuffix(a, b)
    ensures IsSuffix(FillLast(a, heard), FillLast(b, heard))
  {
    var d := |b| - |a|;
    var fa, fb := FillLast(a, heard), FillLast(b, heard);
    forall k | 0 <= k < |a|
      ensures fb[d + k] == fa[k]
    {
      assert b[d + k] == a[k];
    }
    assert fb[d..] == fa;
  }

  lemma SuffixStep(a: seq<Turn>, b: seq<Turn>, drop: bool, t: Turn)
    requires a != [] && IsSuffix(a, b)
    ensures IsSuffix((if drop then a[1..] else a) + [t], b + [t])
  {
    var a' := if drop then a[1..] else a;
    assert IsSuffix(a', b) by {
      if drop {
        assert b[|b| - |a'|..] == b[|b| - |a|..][1..];
      }
    }
    assert (b + [t])[|b + [t]| - |a' + [t]|..] == b[|b| - |a'|..] + [t];
  }

  /** The initial session and every turn of `main` keep the invariant. */
  lemma InitialConsistent()
    ensures Consistent(Initial)
  {
  }

  /** The window part of the invariant, which learn and practice turns must keep. */
  predicate WindowInvariant(s: Session) {
    1 <= |s.inputTranscript| <= WindowCap && IsSuffix(s.inputTranscript, s.transcript)
  }

  lemma AdvanceKeepsWindow(s: Session, i: TurnInput, x: Extraction, request: Option<ExtractionRequest>, learning: bool)
    requires s.transcript != [] && WindowInvariant(s)
    ensures WindowInvariant(Advance(s, i, x, request, learning).session)
  {
    var w := FillLast(s.inputTranscript, i.heard);
    var evict := |s.inputTranscript| >= WindowCap;
    SuffixFillLast(s.inputTranscript, s.transcript, i.heard);
    SuffixStep(w, FillLast(s.transcript, i.heard), evict, Turn(if learning then i.reply else None, None));
  }

  lemma SetupKeepsConsistent(s: Session, i: TurnInput)
    requires Consistent(s) && s.stage == Setup
    ensures Consistent(SetupStep(s, i).session)
  {
  }

  lemma LearnKeepsConsistent(s: Session, i: TurnInput)
    requires Consistent(s) && s.stage == Learn
    ensures Consistent(LearnStep(s, i).session)
  {
    if LevelIs(s.level, n => n <= 4) && s.transcript != [] && i.extracted.Some? {
      AdvanceKeepsWindow(s, i, i.extracted.value, LevelRequestFor(s, i), true);
    }
  }

  lemma PracticeKeepsConsistent(s: Session, i: TurnInput)
    requires Consistent(s) && s.stage == Practice
    ensures Consistent(PracticeStep(s, i).session)
  {
    if LevelIs(s.level, n => n == 5) && s.transcript != [] && i.extracted.Some? {
      AdvanceKeepsWindow(s, i, i.extracted.value, LevelRequestFor(s, i), false);
    }
  }

  /** Every turn of `main` keeps the invariant. */
  lemma MainKeepsConsistent(s: Session, i: TurnInput)
    requires Consistent(s)
    ensures Consistent(MainStep(s, i).session)
  {
    var s1 := s.(validInput := true);
    match s.stage
    case Setup => SetupKeepsConsistent(s1, i);
    case Learn => LearnKeepsConsistent(s1, i);
    case Practice => PracticeKeepsConsistent(s1, i);
  }

  /** The state after a sequence of turns. */
  function Run(s: Session, inputs: seq<TurnInput>): Session
    decreases |inputs|
  {
    if inputs == [] then s else Run(MainStep(s, inputs[0]).session, inputs[1..])
  }

  /**
   * Whatever the services answer, every session reached from a fresh one has
   * a window of at most five entries that is the tail of its full log.
   */
  lemma {:induction false} RunKeepsConsistent(s: Session, inputs: seq<TurnInput>)
    requires Consistent(s)
    ensures Consistent(Run(s, inputs))
    decreases |inputs|
  {
    if inputs != [] {
      MainKeepsConsistent(s, inputs[0]);
      RunKeepsConsistent(MainStep(s, inputs[0]).session, inputs[1..]);
    }
  }

  lemma SetupRequestBounded(s: Session, i: TurnInput)
    requires Consistent(s) && s.stage == Setup
    ensures var r := SetupStep(s, i);
      r.effects.tutorRequest.Some? ==> |r.effects.tutorRequest.value| <= 2 * WindowCap + 3
  {
    var r := SetupStep(s, i);
    if r.effects.tutorRequest.Some? {
      var x := i.extracted.value;
      var filled := s.transcript[1 := Turn(s.transcript[1].tutor, Some(i.heard))];
      assert r == SetupLevel(s, i);
      TutorRequestShape(filled, s.topic, x.value, x.explanation, "");
    }
  }

  lemma AdvanceRequestBounded(s: Session, i: TurnInput, x: Extraction, request: Option<ExtractionRequest>, learning: bool)
    requires s.transcript != [] && WindowInvariant(s)
    ensures var r := Advance(s, i, x, request, learning);
      r.effects.tutorRequest.Some? ==> |r.effects.tutorRequest.value| <= 2 * WindowCap + 3
  {
    var w := FillLast(s.inputTranscript, i.heard);
    var evict := |s.inputTranscript| >= WindowCap;
    var window := if evict then w[1..] else w;
    if window != [] {
      TutorRequestShape(window, s.topic, x.value, x.explanation, if evict then i.summary else "");
    }
  }

  /** In a consistent session every tutor request has at most 2 * 5 + 3 messages. */
  lemma TutorRequestBounded(s: Session, i: TurnInput)
    requires Consistent(s)
    ensures var r := MainStep(s, i);
      r.effects.tutorRequest.Some? ==> |r.effects.tutorRequest.value| <= 2 * WindowCap + 3
  {
    var s1 := s.(validInput := true);
    match s.stage
    case Setup => SetupRequestBounded(s1, i);
    case Learn => LearnRequestBounded(s1, i);
    case Practice => PracticeUnanswered(s1, i);
  }

  lemma LearnRequestBounded(s: Session, i: TurnInput)
    requires Consistent(s)
    ensures var r := LearnStep(s, i);
      r.effects.tutorRequest.Some? ==> |r.effects.tutorRequest.value| <= 2 * WindowCap + 3
  {
    if LevelIs(s.level, n => n <= 4) && s.transcript != [] && i.extracted.Some? {
      AdvanceRequestBounded(s, i, i.extracted.value, LevelRequestFor(s, i), true);
    }
  }

  /**
   * A baseline of level 5 in setup moves the session to learn with level 5,
   * where the learn handler's guard fails: from then on every turn is skipped
   * and the conversation can never continue.
   */
  lemma BaselineMasteryStalls(s: Session, i: TurnInput, next: TurnInput)
    requires s.stage == Setup && |s.transcript| >= 2 && Truthy(s.transcript[0].student)
    requires |s.inputTranscript| >= 2 && !Truthy(s.inputTranscript[1].student)
    requires i.extracted == Some(Extraction("Level5", "mastery"))
    ensures var r := MainStep(s, i).session;
      && r.stage == Learn && r.level == "Level5"
      && MainStep(r, next).session == r.(validInput := true)
      && MainStep(r, next).effects.outcome == Skipped
  {
    IntLevelOfTag(5);
    assert LevelTag(5) == "Level5";
  }

  /**
   * In the mounted context no turn changes the conversation: the transcripts,
   * topic, level and stage stay as they were. Every request is still sent and
   * every line still spoken, and a turn the setters would have answered throws.
   */
  lemma MountedTurnKeepsConversation(s: Session, i: TurnInput)
    ensures var r := MountedStep(s, i); var intended := MainStep(s, i);
      && r.session.transcript == s.transcript && r.session.inputTranscript == s.inputTranscript
      && r.session.topic == s.topic && r.session.level == s.level && r.session.stage == s.stage
      && r.effects.spoken == intended.effects.spoken
      && r.effects.extraction == intended.effects.extraction
      && r.effects.summary == intended.effects.summary
      && r.effects.tutorRequest == intended.effects.tutorRequest
      && (r.effects.outcome == Threw <==> intended.effects.outcome in {Answered, TopicChanged})
      && (r.effects.outcome != Threw ==> r == intended)
  {
    MainUnanswered(s, i);
  }

  /** A session still waiting for the student's first words: the fresh session, whatever its validity flag. */
  predicate AtFirstTurn(s: Session) {
    s == Initial.(validInput := s.validInput)
  }

  /**
   * The first turn in the mounted context: a valid topic is asked about and
   * then `setTopic` throws, so the session is as before; nothing is answered.
   */
  lemma MountedFirstTurnThrows(s: Session, i: TurnInput)
    requires AtFirstTurn(s)
    ensures var r := MountedStep(s, i);
      && r.session == s.(validInput := r.session.validInput)
      && r.effects.outcome in {Aborted, Reprompted, Threw}
      && (i.heard != "" && i.extracted.Some? && i.extracted.value.value != InvalidInput ==>
            && r.effects.outcome == Threw && r.session == s.(validInput := true)
            && r.effects.spoken == [TopicQuestion(i.extracted.value.value)])
  {
    MainUnanswered(s, i);
  }

  /**
   * Whatever the services answer, a session mounted fresh never gets past the
   * first setup turn: its transcripts stay the greeting, its topic and level
   * empty and its stage Setup.
   */
  lemma {:induction false} MountedNeverLeavesFirstTurn(s: Session, inputs: seq<TurnInput>)
    requires AtFirstTurn(s)
    ensures AtFirstTurn(MountedRun(s, inputs))
    decreases |inputs|
  {
    if inputs != [] {
      MountedFirstTurnThrows(s, inputs[0]);
      MountedNeverLeavesFirstTurn(MountedStep(s, inputs[0]).session, inputs[1..]);
    }
  }
}
