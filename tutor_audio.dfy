/**
 * The tutoring component as an object: the conversation state it keeps
 * (transcripts, topic, stage and validity from the session context; level
 * and notes of its own) and the handlers that update it, each proved to
 * produce the state and effects `TutorTurns` specifies, under a context that
 * supplies the conversation setters or one that does not.
 */
module TutorAudio {
  import opened Wrappers
  import opened SharedContext
  import opened LevelScale
  import opened TutorTurns

  /** `askTutor`: builds the tutor request message by message. */
  method AskTutor(window: seq<Turn>, topic: string, level: string, explanation: string, summary: string)
    returns (messages: Option<seq<Message>>)
    ensures messages == TutorMessages(window, topic, level, explanation, summary)
  {
    var head := [System(Persona(topic))];
    if summary != "" {
      head := head + [System(SummaryNote(summary))];
    }
    // the replayed entries, pushed in order after the head
    var lines := [];
    var index := 0;
    while index < |window|
      invariant 0 <= index <= |window|
      invariant lines == Replayed(window, index)
    {
      var entry := window[index];
      ReplayedStep(window, index);
      if Truthy(entry.tutor) {
        lines := lines + [Assistant(entry.tutor.value)];
      }
      if Truthy(entry.student) && index != |window| - 1 {
        lines := lines + [User(entry.student)];
      }
      index := index + 1;
    }
    if |window| == 0 {
      // the last entry does not exist: the lookup throws and the request is never sent
      return None;
    }
    assert head == PromptHead(topic, summary);
    var last := window[|window| - 1];
    var body := lines + [System(Assessment(AssessmentText(level, topic, explanation))), User(last.student)];
    assert body == PromptBody(window, AssessmentText(level, topic, explanation));
    messages := Some(head + body);
  }

  /** The tutoring component of one mounted page. */
  class AudioTutor {
    var transcript: seq<Turn>
    var inputTranscript: seq<Turn>
    var topic: string
    var level: string
    var stage: Stage
    var notes: string
    var validInput: bool
    /**
     * Whether the session context supplies `setTopic`, `setTranscript`,
     * `setInputTranscript` and `setStage`; calling one it lacks throws.
     */
    const setters: bool

    /** The component's state as one value. */
    function State(): Session
      reads this
    {
      Session(transcript, inputTranscript, topic, level, stage, notes, validInput)
    }

    constructor (setters: bool)
      ensures State() == Initial && this.setters == setters
    {
      this.setters := setters;
      transcript := [Turn(Some(Greeting), None)];
      inputTranscript := [Turn(Some(Greeting), None)];
      topic := "";
      level := "";
      stage := Stage.Setup;
      notes := "";
      validInput := true;
    }

    /** Re-prompts after invalid input. */
    method Reject(request: Option<ExtractionRequest>) returns (effects: Effects)
      modifies this
      ensures State() == old(State()).(validInput := false)
      ensures effects == Effects(Reprompted, [Reprompt], request, None, None)
    {
      validInput := false;
      effects := Effects(Reprompted, [Reprompt], request, None, None);
    }

    /** `setup`: the first two turns establish the topic and the baseline level. */
    method Setup(i: TurnInput) returns (effects: Effects)
      modifies this
      ensures State() == Wire(setters, old(State()), SetupStep(old(State()), i)).session
      ensures effects == Wire(setters, old(State()), SetupStep(old(State()), i)).effects
    {
      if transcript == [] {
        return Effects(Aborted, [], None, None, None);
      }
      if !Truthy(transcript[0].student) {
        if i.heard == "" {
          return Effects(Aborted, [], None, None, None);
        }
        var request := Some(ExtractionRequest(i.heard, TopicRequest));
        if i.extracted.None? {
          return Effects(Aborted, [], request, None, None);
        }
        var requested := i.extracted.value.value;
        if requested == InvalidInput {
          effects := Reject(request);
          return;
        }
        var question := TopicQuestion(requested);
        var scaffold := [Turn(Some(SetupGreeting), Some(i.heard)), Turn(Some(question), None)];
        if !setters {
          // `setTopic` throws
          return Effects(Threw, [question], request, None, None);
        }
        topic := requested;
        transcript := scaffold;
        inputTranscript := scaffold;
        return Effects(Answered, [question], request, None, None);
      }
      if |inputTranscript| < 2 {
        return Effects(Aborted, [], None, None, None);
      }
      if Truthy(inputTranscript[1].student) {
        // neither setup step applies: the handler only logs
        return Effects(Skipped, [], None, None, None);
      }
      var request := Some(ExtractionRequest(
        FormatTranscript(FillLast(inputTranscript, i.heard)), LevelRequest(false, true)));
      if i.extracted.None? {
        return Effects(Aborted, [], request, None, None);
      }
      var x := i.extracted.value;
      if x.value == InvalidInput {
        effects := Reject(request);
        return;
      }
      if x.value == ChangeTopic {
        var line := TopicChangeLine(x.explanation);
        var scaffold := [Turn(Some(SetupGreeting), Some(i.heard)), Turn(Some(line), None)];
        if !setters {
          // `setTranscript` throws
          return Effects(Threw, [line], request, None, None);
        }
        transcript := scaffold;
        inputTranscript := scaffold;
        topic := x.explanation;
        return Effects(TopicChanged, [line], request, None, None);
      }
      if |transcript| < 2 {
        return Effects(Aborted, [], request, None, None);
      }
      var copy := transcript;
      copy := copy[1 := Turn(copy[1].tutor, Some(i.heard))];
      var tutorRequest := AskTutor(copy, topic, x.value, x.explanation, "");
      copy := copy + [Turn(i.reply, None)];
      if !setters {
        // `setTranscript` throws
        return Effects(Threw, Speak(i.reply), request, None, tutorRequest);
      }
      transcript := copy;
      inputTranscript := copy;
      level := x.value;
      stage := Stage.Learn;
      effects := Effects(Answered, Speak(i.reply), request, None, tutorRequest);
    }

    /**
     * The part `learn` and `practice` share once the level is assessed: both
     * transcripts get the student's words, a full window is summarised and
     * shifted, and the reply is pushed onto both.
     */
    method Advance(i: TurnInput, x: Extraction, request: Option<ExtractionRequest>, learning: bool)
      returns (effects: Effects)
      requires transcript != [] && inputTranscript != []
      modifies this
      ensures State() == Wire(setters, old(State()), TutorTurns.Advance(old(State()), i, x, request, learning)).session
      ensures effects == Wire(setters, old(State()), TutorTurns.Advance(old(State()), i, x, request, learning)).effects
    {
      ghost var spec := TutorTurns.Advance(State(), i, x, request, learning);
      var newTranscript := transcript;
      var newWindow := inputTranscript;
      newTranscript := newTranscript[|newTranscript| - 1 := Turn(newTranscript[|newTranscript| - 1].tutor, Some(i.heard))];
      newWindow := newWindow[|newWindow| - 1 := Turn(newWindow[|newWindow| - 1].tutor, Some(i.heard))];
      var summary := "";
      var summaryRequest := None;
      if |inputTranscript| >= WindowCap {
        summaryRequest := Some(SummaryRequest(notes != "", notes, newWindow[0]));
        summary := i.summary;
        newWindow := newWindow[1..];
      }
      var tutorRequest := None;
      var reply := None;
      if learning {
        tutorRequest := AskTutor(newWindow, topic, x.value, x.explanation, summary);
        reply := i.reply;
      }
      newTranscript := newTranscript + [Turn(reply, None)];
      newWindow := newWindow + [Turn(reply, None)];
      var newNotes := notes;
      if |newWindow| >= WindowCap {
        newNotes := summary;
      }
      effects := Effects(Answered, Speak(reply), request, summaryRequest, tutorRequest);
      assert effects == spec.effects;
      assert newTranscript == spec.session.transcript && newWindow == spec.session.inputTranscript;
      assert newNotes == spec.session.notes;
      // `setNotes` is the component's own; the transcript setters come from the context
      notes := newNotes;
      if !setters {
        return effects.(outcome := Threw);
      }
      transcript, inputTranscript := newTranscript, newWindow;
    }

    /** `learn`: one turn while the level is at most 4. */
    method Learn(i: TurnInput) returns (effects: Effects)
      modifies this
      ensures State() == Wire(setters, old(State()), LearnStep(old(State()), i)).session
      ensures effects == Wire(setters, old(State()), LearnStep(old(State()), i)).effects
    {
      if !LevelIs(level, n => n <= 4) {
        return Effects(Skipped, [], None, None, None);
      }
      if inputTranscript == [] {
        return Effects(Aborted, [], None, None, None);
      }
      var request := LevelRequestFor(State(), i);
      if i.extracted.None? {
        return Effects(Aborted, [], request, None, None);
      }
      var x := i.extracted.value;
      if x.value == InvalidInput {
        effects := Reject(request);
        return;
      }
      if transcript == [] {
        return Effects(Aborted, [], request, None, None);
      }
      var changed := x.value != level;
      effects := Advance(i, x, request, true);
      if effects.outcome == Threw {
        return;
      }
      if changed {
        if IntLevel(x.value) == Some(5) {
          stage := Stage.Practice;
        }
        level := x.value;
      }
    }

    /** `practice`: one turn at level 5. */
    method Practice(i: TurnInput) returns (effects: Effects)
      modifies this
      ensures State() == Wire(setters, old(State()), PracticeStep(old(State()), i)).session
      ensures effects == Wire(setters, old(State()), PracticeStep(old(State()), i)).effects
    {
      if !LevelIs(level, n => n == 5) {
        return Effects(Skipped, [], None, None, None);
      }
      if inputTranscript == [] {
        return Effects(Aborted, [], None, None, None);
      }
      var request := LevelRequestFor(State(), i);
      if i.extracted.None? {
        return Effects(Aborted, [], request, None, None);
      }
      var x := i.extracted.value;
      if x.value == InvalidInput {
        effects := Reject(request);
        return;
      }
      if transcript == [] {
        return Effects(Aborted, [], request, None, None);
      }
      effects := Advance(i, x, request, false);
      if effects.outcome == Threw {
        return;
      }
      if LevelIs(x.value, n => n < 5) {
        stage := Stage.Learn;
        level := x.value;
      }
    }

    /** `main`: one recorded turn, dispatched on the stage. */
    method HandleTurn(i: TurnInput) returns (effects: Effects)
      modifies this
      ensures State() == Wire(setters, old(State()).(validInput := true), MainStep(old(State()), i)).session
      ensures effects == Wire(setters, old(State()).(validInput := true), MainStep(old(State()), i)).effects
    {
      validInput := true;
      match stage {
        case Setup => effects := Setup(i);
        case Learn => effects := Learn(i);
        case Practice => effects := Practice(i);
      }
    }
  }
}
