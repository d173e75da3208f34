/**
 * The earlier tutoring component. It keeps one transcript and no prompt
 * window: `setup` establishes the topic and the starting level, `learn` asks
 * the tutor with the whole transcript, and a practice stage is entered but
 * has no handler.
 */
module EarlyAudio {
  import opened Wrappers
  import opened SharedContext
  import opened LevelScale
  import opened TutorTurns

  /** The conversation state of the early component; `None` is an `undefined` level. */
  datatype EarlySession = EarlySession(
    transcript: seq<Turn>,
    topic: string,
    level: Option<string>,
    stage: Stage,
    validInput: bool)

  const EarlyInitial: EarlySession := EarlySession([Turn(Some(Greeting), None)], "", Some(""), Setup, true)

  /** What the outside services answer during one turn. */
  datatype EarlyInput = EarlyInput(
    heard: string,               // the transcription of the recording; "" when it failed
    extracted: Option<string>,   // the extracted topic or level; None when the call or its parse failed
    reply: Option<string>)       // the tutor's generated reply

  /** Everything a turn sends out besides the new state: the transcript handed to summarisation, if any, and the tutor request. */
  datatype EarlyEffects = EarlyEffects(
    outcome: Outcome,
    spoken: seq<string>,
    summarised: Option<seq<Turn>>,
    tutorRequest: Option<seq<Message>>)

  datatype EarlyStep = EarlyStep(session: EarlySession, effects: EarlyEffects)

  /**
   * `intLevel` on a possibly undefined level: slicing `undefined` throws, the
   * exception is caught and the result is `undefined`.
   */
  function EarlyIntLevel(level: Option<string>): (r: Option<int>)
    ensures level.None? ==> r.None?
    ensures level.Some? ==> r == IntLevel(level.value)
    ensures r.Some? ==> level.Some? && |level.value| > 5
  {
    match level
    case None => None
    case Some(tag) => IntLevel(tag)
  }

  /** `levelOfUnderstandingMap` of the early variant: what each level means. */
  function EarlyRubric(level: Option<string>): Option<string> {
    match level
    case Some("Level1") => Some(EarlySentence(0))
    case Some("Level2") => Some(EarlySentence(1))
    case Some("Level3") => Some(EarlySentence(2))
    case Some("Level4") => Some(EarlySentence(3))
    case Some("Level5") => Some(EarlySentence(4))
    case _ => None
  }

  /** `levelOfUnderstandingGuideMap` of the early variant: how to teach at each level. */
  function EarlyGuide(level: Option<string>): Option<string> {
    match level
    case Some("Level1") => Some(EarlySentence(5))
    case Some("Level2") => Some(EarlySentence(6))
    case Some("Level3") => Some(EarlySentence(7))
    case Some("Level4") => Some(EarlySentence(8))
    case Some("Level5") => Some(EarlySentence(9))
    case _ => None
  }

  /** The texts of the two early maps, rubric sentences first. */
  function EarlySentence(k: nat): string {
    match k
    case 0 =>
      "The student has not demonstrated any understanding of the topic at hand."
    case 1 =>
      "The student has demonstrated an intutuitive understanding of the topic, but does not seeem to understand the mathemtaical notation."
    case 2 =>
      "The student has a demonstrated a well rounded understanding of the topic, both intuitively and mathematically. However the student has not demonstrated comfortability with variations and corollaries of it that they'd use to solve problems they'd encounter in class or on homeworks."
    case 3 =>
      "The student has demonstrated a welll rounded understanding of the topic and practical, relevant corollaries or variations. However the student has not demonstrated comfortability with applying the topic to solve homework or exam problems - possibly because they're unfamiliar with techniques, tricks, and strategies related to the topic."
    case 4 =>
      "The student has a demonstrated very solid understanding of the topic - both of the topic itself and practical applications of the topic."
    case 5 =>
      "You should explain the topic and answer their questions in a way that is intuitive and easy to understand. You should not be using much, if any, mathematical notation. The goal is for the student to understand what the topic they're asking about is and what it does."
    case 6 =>
      "You should explain the topic and answer their questions mathematicall. The goal is for the student to understand the mathematical notation of the topic they're asking about and be able to apply it to their intutive understanding."
    case 7 =>
      "You should explain the topic and answer their questions while trying to introduce to them relevant and practical corollaries or variations of the topic. Since the student has demonstrated an understanding of the topic at face value, the goal here is for the student to be comfortable with variations of it that they might see or use when solving problems."
    case 8 =>
      "You should explain the topic and answer their questions while trying to introduce to them techniques and tricks for solving problems related to the topic. Since the student has demonstrated a well rounded understanding of the topic and its corollaries/variations, the goal here is simply for them to get better at solving homework or exam problems by expanding their knowledge of the topic and related techniques and tricks."
    case _ =>
      "No further guidance is necessarily needed at this level. Of course if the student wishes to keep practicing problems with you, or has questions abou the toipc, you should continue to guide and help them. However you can definitely recommend to the student to move on to a different topic at this point if they seem like they'd want to. Otherwise, there is no specific manner in which you should answer their questions or help them as they've already demonstrated a very well rounded understanding. Continue to solidfy their understanding by closing any gaps of knowledge related to this topic they may have."
  }

  /** The assessment message of the early request: the rubric and the guidance of the level, "undefined" for an unknown one. */
  function EarlyAssessment(level: Option<string>): string {
    Show(EarlyRubric(level)) + " " + Show(EarlyGuide(level))
  }

  /**
   * The early `askTutor` request: nothing without student input; otherwise the
   * persona, every tutor and student line of the transcript, the assessment,
   * and the student input last.
   */
  function EarlyMessages(heard: string, entries: seq<Turn>, topic: string, level: Option<string>): Option<seq<Message>> {
    if heard == "" then None
    else Some([System(Persona(topic))] + Replay(entries) + [System(Assessment(EarlyAssessment(level)))] + [User(Some(heard))])
  }

  /** Every level tag has both a rubric and a guidance sentence, and nothing else has either. */
  lemma EarlyTextsDefined(level: Option<string>)
    ensures EarlyRubric(level).Some? <==> level.Some? && IsLevelTag(level.value)
    ensures EarlyGuide(level).Some? <==> level.Some? && IsLevelTag(level.value)
  {
  }

  /**
   * The shape of an early tutor request: absent exactly when there is no
   * student input; otherwise the persona first, the assessment second to
   * last, the student input last, and every line of every entry replayed,
   * the last entry's student line included.
   */
  lemma EarlyRequestShape(heard: string, entries: seq<Turn>, topic: string, level: Option<string>)
    ensures EarlyMessages(heard, entries, topic, level).None? <==> heard == ""
    ensures heard != "" ==>
      var m := EarlyMessages(heard, entries, topic, level).value;
      && |m| == |Replay(entries)| + 3 && |m| <= 2 * |entries| + 3
      && m[0] == System(Persona(topic))
      && m[|m| - 2] == System(Assessment(EarlyAssessment(level)))
      && m[|m| - 1] == User(Some(heard))
      && (entries != [] && Truthy(entries[|entries| - 1].student) ==>
            m[|m| - 3] == User(entries[|entries| - 1].student))
  {
    ReplayLength(entries);
  }

  function EarlyAbort(s: EarlySession, summarised: Option<seq<Turn>>): EarlyStep {
    EarlyStep(s, EarlyEffects(Aborted, [], summarised, None))
  }

  function EarlyRepeat(s: EarlySession, summarised: Option<seq<Turn>>): EarlyStep {
    EarlyStep(s.(validInput := false), EarlyEffects(Reprompted, [Reprompt], summarised, None))
  }

  /** The reply a request yields: none when no request was sent. */
  function ReplyTo(request: Option<seq<Message>>, reply: Option<string>): Option<string> {
    if request.Some? then reply else None
  }

  /**
   * `setup` of the early component. The first turn writes the student's words
   * into entry 0 and appends the topic question; the second writes the topic
   * question and the student's words into entry 1, appends the reply, takes
   * the level and moves to learn. A level assessed from no words is
   * `undefined`, and setup still completes.
   */
  function EarlySetupStep(s: EarlySession, i: EarlyInput): EarlyStep {
    if s.transcript == [] then EarlyAbort(s, None)
    else if !Truthy(s.transcript[0].student) then
      if i.heard == "" || i.extracted.None? then EarlyAbort(s, None)
      else if i.extracted.value == InvalidInput then EarlyRepeat(s, None)
      else
        var topic := i.extracted.value;
        var question := TopicQuestion(topic);
        var t := s.transcript[0 := Turn(s.transcript[0].tutor, Some(i.heard))] + [Turn(Some(question), None)];
        EarlyStep(s.(topic := topic, transcript := t), EarlyEffects(Answered, [question], None, None))
    else if |s.transcript| < 2 then EarlyAbort(s, None)
    else if Truthy(s.transcript[1].student) then EarlyStep(s, EarlyEffects(Skipped, [], None, None))
    else
      var assessed := if i.heard == "" then None else i.extracted;
      if assessed == Some(InvalidInput) then EarlyRepeat(s, None)
      else
        var asked := s.transcript[1 := Turn(Some(TopicQuestion(s.topic)), s.transcript[1].student)];
        var request := EarlyMessages(i.heard, asked, s.topic, assessed);
        var reply := ReplyTo(request, i.reply);
        var t := asked[1 := Turn(asked[1].tutor, Some(i.heard))] + [Turn(reply, None)];
        EarlyStep(s.(transcript := t, level := assessed, stage := Learn),
                  EarlyEffects(Answered, Speak(reply), None, request))
  }

  /**
   * `learn` of the early component: runs only while the level is at most 4;
   * a transcript of three or more entries is summarised first and the summary
   * discarded; the tutor sees the new level only when it changed; the stage
   * becomes practice whenever the assessed level parses to 5.
   */
  function EarlyLearnStep(s: EarlySession, i: EarlyInput): EarlyStep {
    var parsed := EarlyIntLevel(s.level);
    if !(parsed.Some? && parsed.value <= 4) then EarlyStep(s, EarlyEffects(Skipped, [], None, None))
    else
      var summarised := if |s.transcript| >= 3 then Some(s.transcript) else None;
      if i.extracted == Some(InvalidInput) then EarlyRepeat(s, summarised)
      else EarlyAnswer(s, i, summarised)
  }

  /** The part of an early learn turn after a valid assessment: ask, speak, record, and decide level and stage. */
  function EarlyAnswer(s: EarlySession, i: EarlyInput, summarised: Option<seq<Turn>>): EarlyStep {
    var changed := i.extracted != s.level;
    var request := EarlyMessages(i.heard, s.transcript, s.topic, if changed then i.extracted else None);
    var reply := ReplyTo(request, i.reply);
    if s.transcript == [] then
      // the reply is spoken, then filling the missing last entry throws
      EarlyStep(s, EarlyEffects(Aborted, Speak(reply), summarised, request))
    else
      var t := FillLast(s.transcript, i.heard) + [Turn(reply, None)];
      EarlyStep(s.(transcript := t,
                   level := if changed then i.extracted else s.level,
                   stage := if EarlyIntLevel(i.extracted) == Some(5) then Practice else s.stage),
                EarlyEffects(Answered, Speak(reply), summarised, request))
  }

  /** `main` of the early component; the practice handler it calls does not exist, so a practice turn throws. */
  function EarlyMainStep(s: EarlySession, i: EarlyInput): EarlyStep {
    var s1 := s.(validInput := true);
    match s.stage
    case Setup => EarlySetupStep(s1, i)
    case Learn => EarlyLearnStep(s1, i)
    case Practice => EarlyAbort(s1, None)
  }

  /** The two sessions agree on everything but the validity flag. */
  predicate EarlySameConversation(a: EarlySession, b: EarlySession) {
    a.transcript == b.transcript && a.topic == b.topic && a.level == b.level && a.stage == b.stage
  }

  /**
   * An `invalidInput` answer changes no transcript, topic, level or stage;
   * when it is acted on, the component says "Sorry can you repeat that?" and
   * marks the input invalid. Setup consults the answer only for words that
   * were heard; learn sends the whole transcript for extraction, so it also
   * consults it when the transcription came back empty.
   */
  lemma EarlyInvalidInputChangesNothing(s: EarlySession, i: EarlyInput)
    requires (i.heard != "" || s.stage == Learn) && i.extracted == Some(InvalidInput)
    ensures var r := EarlyMainStep(s, i);
      && EarlySameConversation(r.session, s)
      && r.effects.outcome in {Reprompted, Aborted, Skipped}
      && (r.effects.outcome == Reprompted ==> !r.session.validInput && r.effects.spoken == [Reprompt])
  {
  }

  /** The first early setup turn: entry 0 gets the student's words and exactly one topic question is appended. */
  lemma EarlyFirstSetupTurn(s: EarlySession, i: EarlyInput)
    requires s.stage == Setup && s.transcript != [] && !Truthy(s.transcript[0].student)
    requires i.heard != "" && i.extracted.Some? && i.extracted.value != InvalidInput
    ensures var r := EarlyMainStep(s, i).session; var topic := i.extracted.value;
      && |r.transcript| == |s.transcript| + 1
      && r.transcript[0] == Turn(s.transcript[0].tutor, Some(i.heard))
      && (forall k :: 0 < k < |s.transcript| ==> r.transcript[k] == s.transcript[k])
      && r.transcript[|s.transcript|] == Turn(Some("What do you know about " + topic + "?"), None)
      && r.topic == topic && r.stage == Setup && r.level == s.level
  {
  }

  /**
   * The second early setup turn: entry 1 holds the topic question and the
   * student's words, exactly one reply is appended, the level is taken and
   * the stage becomes learn.
   */
  lemma EarlySecondSetupTurn(s: EarlySession, i: EarlyInput)
    requires s.stage == Setup && |s.transcript| >= 2 && Truthy(s.transcript[0].student)
    requires !Truthy(s.transcript[1].student)
    requires !(i.heard != "" && i.extracted == Some(InvalidInput))
    ensures var r := EarlyMainStep(s, i);
      && |r.session.transcript| == |s.transcript| + 1
      && r.session.transcript[1] == Turn(Some(TopicQuestion(s.topic)), Some(i.heard))
      && (forall k :: 0 <= k < |s.transcript| && k != 1 ==> r.session.transcript[k] == s.transcript[k])
      && r.session.transcript[|s.transcript|] == Turn(if i.heard != "" then i.reply else None, None)
      && r.session.level == (if i.heard == "" then None else i.extracted)
      && r.session.stage == Learn && r.session.topic == s.topic
      && (r.effects.tutorRequest.Some? <==> i.heard != "")
      && r.effects.tutorRequest ==
           EarlyMessages(i.heard, s.transcript[1 := Turn(Some(TopicQuestion(s.topic)), s.transcript[1].student)],
                         s.topic, r.session.level)
  {
  }

  /**
   * Setup completed on words that were not heard leaves an `undefined` level,
   * which no learn turn accepts: every later turn is skipped.
   */
  lemma EarlyUnheardBaselineStalls(s: EarlySession, i: EarlyInput, next: EarlyInput)
    requires s.stage == Setup && |s.transcript| >= 2 && Truthy(s.transcript[0].student)
    requires !Truthy(s.transcript[1].student)
    requires i.heard == ""
    ensures var r := EarlyMainStep(s, i).session;
      && r.stage == Learn && r.level.None?
      && EarlyMainStep(r, next).session == r.(validInput := true)
      && EarlyMainStep(r, next).effects.outcome == Skipped
  {
  }

  /**
   * An early learn turn acts exactly when the level parses to at most 4;
   * otherwise it is skipped and only validity is reset. An answered one: the
   * student's words go into the last entry
   * and exactly one reply entry is appended; the level changes only to a
   * different assessment; the stage becomes practice exactly when the
   * assessment parses to 5; summarisation is requested exactly when the
   * transcript held three or more entries.
   */
  lemma EarlyLearnTurn(s: EarlySession, i: EarlyInput)
    requires s.stage == Learn
    ensures var r := EarlyMainStep(s, i);
      && (r.effects.outcome != Skipped <==> EarlyIntLevel(s.level).Some? && EarlyIntLevel(s.level).value <= 4)
      && (r.effects.outcome == Skipped ==>
            r.session == s.(validInput := true) && r.effects == EarlyEffects(Skipped, [], None, None))
      && (r.effects.summarised.Some? <==> r.effects.outcome != Skipped && |s.transcript| >= 3)
      && (r.effects.outcome == Answered ==>
            && s.transcript != []
            && r.session.transcript == FillLast(s.transcript, i.heard) + [Turn(ReplyTo(r.effects.tutorRequest, i.reply), None)]
            && r.session.level == (if i.extracted != s.level then i.extracted else s.level)
            && (r.session.stage == Practice <==> EarlyIntLevel(i.extracted) == Some(5))
            && r.effects.tutorRequest ==
                 EarlyMessages(i.heard, s.transcript, s.topic, if i.extracted != s.level then i.extracted else None))
  {
  }

  /** A practice turn of the early component throws at once: nothing but the validity flag is touched. */
  lemma EarlyPracticeThrows(s: EarlySession, i: EarlyInput)
    requires s.stage == Practice
    ensures EarlyMainStep(s, i) == EarlyStep(s.(validInput := true), EarlyEffects(Aborted, [], None, None))
  {
  }

  /** The early `askTutor`: builds the request message by message. */
  method EarlyAskTutor(heard: string, entries: seq<Turn>, topic: string, level: Option<string>)
    returns (messages: Option<seq<Message>>)
    ensures messages == EarlyMessages(heard, entries, topic, level)
  {
    if heard == "" {
      return None;
    }
    var lines := [];
    var index := 0;
    while index < |entries|
      invariant 0 <= index <= |entries|
      invariant lines == Replay(entries[..index])
    {
      var entry := entries[index];
      ReplayStep(entries, index);
      if Truthy(entry.tutor) {
        lines := lines + [Assistant(entry.tutor.value)];
      }
      if Truthy(entry.student) {
        lines := lines + [User(entry.student)];
      }
      index := index + 1;
    }
    assert entries[..|entries|] == entries;
    messages := Some([System(Persona(topic))] + lines + [System(Assessment(EarlyAssessment(level)))] + [User(Some(heard))]);
  }

  /** The early tutoring component of one mounted page. */
  class EarlyAudioTutor {
    var transcript: seq<Turn>
    var topic: string
    var level: Option<string>
    var stage: Stage
    var validInput: bool

    function State(): EarlySession
      reads this
    {
      EarlySession(transcript, topic, level, stage, validInput)
    }

    constructor ()
      ensures State() == EarlyInitial
    {
      transcript := [Turn(Some(Greeting), None)];
      topic := "";
      level := Some("");
      stage := Stage.Setup;
      validInput := true;
    }

    /** `setup`: entries are updated in place through the shallow copy, as the component does. */
    method Setup(i: EarlyInput) returns (effects: EarlyEffects)
      modifies this
      ensures State() == EarlySetupStep(old(State()), i).session
      ensures effects == EarlySetupStep(old(State()), i).effects
    {
      if transcript == [] {
        return EarlyEffects(Aborted, [], None, None);
      }
      if !Truthy(transcript[0].student) {
        if i.heard == "" || i.extracted.None? {
          return EarlyEffects(Aborted, [], None, None);
        }
        if i.extracted.value == InvalidInput {
          validInput := false;
          return EarlyEffects(Reprompted, [Reprompt], None, None);
        }
        var requested := i.extracted.value;
        var newTranscript := transcript;
        newTranscript := newTranscript[0 := Turn(newTranscript[0].tutor, Some(i.heard))];
        var question := TopicQuestion(requested);
        topic := requested;
        transcript := newTranscript + [Turn(Some(question), None)];
        return EarlyEffects(Answered, [question], None, None);
      }
      if |transcript| < 2 {
        return EarlyEffects(Aborted, [], None, None);
      }
      if Truthy(transcript[1].student) {
        // neither setup step applies: the handler only logs
        return EarlyEffects(Skipped, [], None, None);
      }
      var assessed := if i.heard == "" then None else i.extracted;
      if assessed == Some(InvalidInput) {
        validInput := false;
        return EarlyEffects(Reprompted, [Reprompt], None, None);
      }
      transcript := transcript[1 := Turn(Some(TopicQuestion(topic)), transcript[1].student)];
      var request := EarlyAskTutor(i.heard, transcript, topic, assessed);
      var reply := ReplyTo(request, i.reply);
      var newTranscript := transcript;
      newTranscript := newTranscript[1 := Turn(newTranscript[1].tutor, Some(i.heard))];
      newTranscript := newTranscript + [Turn(reply, None)];
      transcript := newTranscript;
      level := assessed;
      stage := Stage.Learn;
      effects := EarlyEffects(Answered, Speak(reply), None, request);
    }

    /** `learn` of the early component. */
    method Learn(i: EarlyInput) returns (effects: EarlyEffects)
      modifies this
      ensures State() == EarlyLearnStep(old(State()), i).session
      ensures effects == EarlyLearnStep(old(State()), i).effects
    {
      var parsed := EarlyIntLevel(level);
      if !(parsed.Some? && parsed.value <= 4) {
        return EarlyEffects(Skipped, [], None, None);
      }
      var summarised := None;
      if |transcript| >= 3 {
        // the summary is requested and then dropped
        summarised := Some(transcript);
      }
      if i.extracted == Some(InvalidInput) {
        validInput := false;
        return EarlyEffects(Reprompted, [Reprompt], summarised, None);
      }
      effects := Answer(i, summarised);
    }

    /** The answering part of `learn`. */
    method Answer(i: EarlyInput, summarised: Option<seq<Turn>>) returns (effects: EarlyEffects)
      modifies this
      ensures State() == EarlyAnswer(old(State()), i, summarised).session
      ensures effects == EarlyAnswer(old(State()), i, summarised).effects
    {
      var changed := i.extracted != level;
      var request := EarlyAskTutor(i.heard, transcript, topic, if changed then i.extracted else None);
      var reply := ReplyTo(request, i.reply);
      if transcript == [] {
        return EarlyEffects(Aborted, Speak(reply), summarised, request);
      }
      var newTranscript := transcript;
      newTranscript := newTranscript[|newTranscript| - 1 := Turn(newTranscript[|newTranscript| - 1].tutor, Some(i.heard))];
      newTranscript := newTranscript + [Turn(reply, None)];
      transcript := newTranscript;
      if changed {
        level := i.extracted;
      }
      if EarlyIntLevel(i.extracted) == Some(5) {
        stage := Stage.Practice;
      }
      effects := EarlyEffects(Answered, Speak(reply), summarised, request);
    }

    /** `main` of the early component. */
    method HandleTurn(i: EarlyInput) returns (effects: EarlyEffects)
      modifies this
      ensures State() == EarlyMainStep(old(State()), i).session
      ensures effects == EarlyMainStep(old(State()), i).effects
    {
      validInput := true;
      match stage {
        case Setup => effects := Setup(i);
        case Learn => effects := Learn(i);
        case Practice => effects := EarlyEffects(Aborted, [], None, None);
      }
    }
  }
}
