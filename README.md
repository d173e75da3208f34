# ai_tutor: the tutoring turn machine and its session bookkeeping

This project models, in Dafny, the decision logic of a voice math tutor. A
student speaks one turn at a time. Each turn is transcribed, and a language
model assesses it (its topic at first, then a level of understanding
`Level1`…`Level5`). The tutor component then updates the conversation it
keeps and decides what the tutor says next.

Every call to a speech or language service is a parameter of the model:
- the transcription `heard`;
- the extracted topic or level;
- the summary;
- the tutor's reply.

In return, the model records what the turn asks of those services (the
extraction request, the summarisation request, the ordered tutor messages)
and what is spoken.

The modules follow the program:

| module | file | models |
|---|---|---|
| `Wrappers` | wrappers.dfy | `Option`, standing for JavaScript's `undefined` |
| `LevelScale` | levels.dfy | `intLevel` and the level→rubric and level→guidance maps of the tutor component |
| `SharedContext` | shared_context.dfy | the client session context: initial state, `formatTranscriptString`, `updateSessionState`, `updateSession` |
| `TutorTurns` | tutor_turns.dfy | the turn machine of `src/components/Tutor/Audio.jsx` as functions on a `Session` value, and its properties |
| `TutorAudio` | tutor_audio.dfy | the same component as a class whose methods update its fields, each proved to produce what `TutorTurns` specifies; `askTutor` as a loop |
| `EarlyAudio` | early_audio.dfy | the earlier component `src/Audio.jsx`: one transcript, no window, no practice handler |
| `Graphing` | graphing.dfy | the equation-set player of `src/GraphingCalculator.jsx` |
| `SessionModel` | session_model.dfy | the session schema: fields, enums, required fields, defaults, the save hook |
| `SessionRoutes` | session_routes.dfy | the owner-scoped session routes over an in-memory store |

The central results are these.

`TutorTurns.RunKeepsConsistent` holds whatever the services answer. Every
session the component reaches has a prompt window of one to five entries,
and that window is the tail of the full conversation log.

`TutorTurns.StageEdges` pins down the stage changes:
- learn moves to practice only on a changed level that parses to 5;
- practice moves back to learn only on a level below 5.

`TutorTurns.InvalidInputChangesNothing` shows that an `invalidInput`
assessment changes nothing but the validity flag.

Each handler of the component class (`TutorAudio.AudioTutor`) is proved to
produce exactly the new state and effects that the functional model gives.

The tutor component takes `setTopic`, `setTranscript`, `setInputTranscript`
and `setStage` from its session context (src/components/Tutor/Audio.jsx:21-32).
The context it is mounted in (src/components/MainApp.jsx:72-80) supplies none
of them (src/contexts/SharedContext.jsx:113-130). So the model has two cases:
- `TutorTurns.MainStep` is the turn with the setters supplied, as the handlers
  evidently intend. The lemmas above are about it.
- `TutorTurns.MountedStep` is the turn as mounted. An answered or
  topic-changing step sends its requests and speaks, then throws at the first
  missing setter. `TutorTurns.MountedNeverLeavesFirstTurn` shows that a
  mounted session therefore never gets past the first setup turn.

The class carries the case as its `setters` field, and each handler is proved
for both.

Two behaviours of the code as written are stated as lemmas rather than
corrected:
- `TutorTurns.BaselineMasteryStalls`: a baseline assessment of `Level5` in
  setup moves the session to learn. The learn handler only runs below level
  5, so every later turn is skipped.
- `TutorTurns.PracticeTurnIsSilent`: the practice handler calls
  `askTutorPracticeMode()` without arguments. Inside it, the call fails and
  is caught, and it returns `undefined`. A practice turn therefore sends no
  tutor request, speaks nothing and logs an entry with no tutor line.

The earlier component has its own versions of these behaviours:
- `EarlyAudio.EarlyPracticeThrows`: its practice handler does not exist.
- `EarlyAudio.EarlyUnheardBaselineStalls`: a baseline assessed from unheard
  words leaves an `undefined` level that no learn turn accepts.

On the server side:
- PATCH is refused as a whole when it names a field outside
  {topic, level, stage, transcript, status}.
- Five of the fields the client copies back from a PATCH answer can never be
  sent in one (`SessionRoutes.ClientOnlyKeys`).
- The session list creates a session with no body, which the schema always
  refuses (`SessionRoutes.BodilessCreateRefused`).

## Model

| member | source | states |
|---|---|---|
| LevelScale.IntLevel | src/components/Tutor/Audio.jsx:104-110 | a tag of five characters or fewer has no level number |
| LevelScale.IntLevelOfDigits | src/components/Tutor/Audio.jsx:104-110 | only what follows the first five characters is parsed: any five characters, then the decimal digits of n, then a non-digit, gives n |
| LevelScale.IntLevelOfTag | src/components/Tutor/Audio.jsx:104-110 | `LevelN` parses to N for every N, and it is one of the five known tags exactly when 1 <= N <= 5 |
| LevelScale.SentinelsHaveNoLevel | src/components/Tutor/Audio.jsx:104-110 | `invalidInput`, `changeTopic` and the empty level carry no number, so they satisfy no level comparison |
| LevelScale.LevelTextsDefined | src/components/Tutor/Audio.jsx:38-95 | both maps have an entry exactly for Level1..Level5; an empty topic reads as the word "topic", so a lookup never fails for want of a topic |
| LevelScale.TemplatesHaveHoles | src/components/Tutor/Audio.jsx:38-95 | every rubric and guidance text has a place for the topic |
| LevelScale.FillShowsWord | src/components/Tutor/Audio.jsx:38-95 | filling a text with a place for the topic makes the topic appear in it |
| LevelScale.LevelTextsMentionTopic | src/components/Tutor/Audio.jsx:38-95 | every rubric and guidance text of a known level mentions the topic (or "topic") |
| SharedContext.FormatTranscript | src/contexts/SharedContext.jsx:103-110 | the text is empty exactly for the empty transcript, and every entry adds at least its two labelled lines (24 characters or more) |
| SharedContext.FormatConcat | src/contexts/SharedContext.jsx:103-110 | formatting a concatenation is concatenating the formatted parts |
| SharedContext.FormatAppend | src/contexts/SharedContext.jsx:103-110 | each entry's lines go after those of the entries before it, in order |
| SharedContext.FieldOf | src/contexts/SharedContext.jsx:22-72 | exactly the nine keys of the switch name a field, each its own |
| SharedContext.FieldOfKey | src/contexts/SharedContext.jsx:22-72 | every field is found again from its key |
| SharedContext.Get | src/contexts/SharedContext.jsx:22-72 | a field value is there exactly for the nine known keys |
| SharedContext.Set | src/contexts/SharedContext.jsx:22-68 | a setter changes its own field to the value and no other |
| SharedContext.Assign | src/contexts/SharedContext.jsx:22-72 | a known key with a value of its kind gets that value, every other key keeps its value, and an unknown key changes nothing |
| SharedContext.AssignIdempotent | src/contexts/SharedContext.jsx:22-68 | applying the same value twice is applying it once; the second application calls no setter |
| SharedContext.SkippedWriteIsAssign | src/contexts/SharedContext.jsx:22-68 | skipping the setter when the value is equal (JSON equality for arrays, `!==` for scalars) gives the same state as writing |
| SharedContext.KeyFilterOnlySilencesWarnings | src/contexts/SharedContext.jsx:74-95 | applying only the `validUpdates` keys of a response gives the same state as applying all of them |
| SharedContext.ForeignKeysChangeNothing | src/contexts/SharedContext.jsx:74-95 | a response with no `validUpdates` key changes nothing |
| SharedContext.ClientSession.constructor | src/contexts/SharedContext.jsx:7-20 | both transcripts start as the one greeting entry, stage "Setup", empty topic, level and notes, input valid |
| SharedContext.ClientSession.UpdateSessionState | src/contexts/SharedContext.jsx:22-72 | the new state is the assignment; the setter is called exactly when the value differs; the warning is given exactly for an unknown key |
| SharedContext.ClientSession.UpdateSession | src/contexts/SharedContext.jsx:74-100 | a failed PATCH changes nothing and fails with "Failed to update session"; otherwise the response is applied key by key |
| TutorTurns.Speak | src/components/Tutor/Audio.jsx:183-187 | only a present, non-empty text is spoken |
| TutorTurns.FillLast | src/components/Tutor/Audio.jsx:482-484 | the open entry gets the student's words and keeps its tutor line; every other entry is unchanged |
| TutorTurns.ReplayLength | src/components/Tutor/Audio.jsx:424-438 | replaying entries gives at most two messages per entry |
| TutorTurns.ReplayUsersAreStudents | src/components/Tutor/Audio.jsx:424-438 | every user message of the replay is some entry's truthy student line |
| TutorTurns.TutorRequestShape | src/components/Tutor/Audio.jsx:411-449 | the tutor request starts with the persona and ends with the assessment and then the last entry's student line; it has at most 2·entries + 3 messages |
| TutorTurns.SummarySentIffPresent | src/components/Tutor/Audio.jsx:417-422 | a summary message is sent exactly when the summary is non-empty, right after the persona, and no other message is one |
| TutorTurns.SetupUnanswered | src/components/Tutor/Audio.jsx:332-403 | a setup turn that aborts or is skipped changes nothing; a re-prompt says "Sorry can you repeat that?" and only marks the input invalid; `invalidInput` never gets further |
| TutorTurns.LearnUnanswered | src/components/Tutor/Audio.jsx:463-518 | the same for a learn turn, which never changes the topic |
| TutorTurns.PracticeUnanswered | src/components/Tutor/Audio.jsx:578-628 | the same for a practice turn, which never changes the topic |
| TutorTurns.MainUnanswered | src/components/Tutor/Audio.jsx:630-649 | the same for every turn, after `main` resets the validity flag |
| TutorTurns.InvalidInputChangesNothing | src/components/Tutor/Audio.jsx:341-346 | in every handler (also lines 361-365, 469-474, 585-590) an `invalidInput` answer leaves transcripts, topic, level, stage and notes as they were; when acted on it re-prompts and clears `validInput` |
| TutorTurns.FailedTurnChangesNothing | src/components/Tutor/Audio.jsx:630-649 | an aborted or skipped turn leaves the session as it was, validity reset |
| TutorTurns.FirstSetupTurn | src/components/Tutor/Audio.jsx:347-355 | a valid topic makes both transcripts the same two entries (greeting with the student's words, then "What do you know about <topic>?"), sets the topic and stays in setup |
| TutorTurns.SecondSetupTurn | src/components/Tutor/Audio.jsx:366-399 | `changeTopic` restarts both transcripts on the explained topic without touching stage or level; a level fills entry 1, appends exactly the reply, takes the level and moves to learn |
| TutorTurns.AdvanceHasShape | src/components/Tutor/Audio.jsx:476-506 | the shared learn/practice step: the log gains the filled entry and one reply entry; the window drops its oldest entry when it held five, and only then asks for a summary; the notes take that summary when it was asked for, are cleared when the window has just filled to five, and are kept otherwise |
| TutorTurns.AnsweredHasShape | src/components/Tutor/Audio.jsx:476-512 | every answered learn or practice turn is that step |
| TutorTurns.AnsweredTurnSlidesWindow | src/components/Tutor/Audio.jsx:476-506 | an answered turn grows the log by exactly one entry after filling the open one; the window drops its oldest entry exactly when it held five or more, and summarisation is requested exactly then, with `includePreviousSummary` exactly when there are notes; the notes take the summary, or are cleared when the window has just filled to five |
| TutorTurns.LearnTurnAsksTutor | src/components/Tutor/Audio.jsx:491-498 | a learn turn asks the tutor with the slid window, the new assessment and the summary, and speaks the reply |
| TutorTurns.PracticeTurnIsSilent | src/components/Tutor/Audio.jsx:608-612 | a practice turn as written sends no tutor request, speaks nothing and logs an entry with no tutor line |
| TutorTurns.LearnEdges | src/components/Tutor/Audio.jsx:507-512 | an answered learn turn runs only at level <= 4, takes a changed level and enters practice exactly when the changed level parses to 5 |
| TutorTurns.PracticeEdges | src/components/Tutor/Audio.jsx:618-621 | an answered practice turn runs only at level 5 and returns to learn, taking the level, exactly when the new level parses below 5 |
| TutorTurns.StageEdges | src/components/Tutor/Audio.jsx:463-628 | both stage edges, as `main` dispatches them; a turn that is not answered changes neither stage nor level |
| TutorTurns.InitialConsistent | src/contexts/SharedContext.jsx:7-20 | the initial session satisfies the window invariant |
| TutorTurns.AdvanceKeepsWindow | src/components/Tutor/Audio.jsx:486-504 | the learn/practice step keeps the window at one to five entries and the tail of the log |
| TutorTurns.SetupKeepsConsistent | src/components/Tutor/Audio.jsx:332-403 | setup keeps the invariant with window equal to log and at most two entries |
| TutorTurns.LearnKeepsConsistent | src/components/Tutor/Audio.jsx:463-518 | learn keeps the invariant |
| TutorTurns.PracticeKeepsConsistent | src/components/Tutor/Audio.jsx:578-628 | practice keeps the invariant |
| TutorTurns.MainKeepsConsistent | src/components/Tutor/Audio.jsx:630-649 | every turn keeps the invariant |
| TutorTurns.RunKeepsConsistent | src/components/Tutor/Audio.jsx:500-506 | after any sequence of turns, with any service answers, the window holds one to five entries and is the tail of the log |
| TutorTurns.SetupRequestBounded | src/components/Tutor/Audio.jsx:387-392 | the setup tutor request has at most 13 messages |
| TutorTurns.AdvanceRequestBounded | src/components/Tutor/Audio.jsx:491-498 | the learn/practice tutor request has at most 13 messages |
| TutorTurns.LearnRequestBounded | src/components/Tutor/Audio.jsx:463-518 | a learn tutor request has at most 13 messages |
| TutorTurns.TutorRequestBounded | src/components/Tutor/Audio.jsx:405-460 | in a consistent session every tutor request has at most 2·5 + 3 messages |
| TutorTurns.BaselineMasteryStalls | src/components/Tutor/Audio.jsx:394-399 | a `Level5` baseline moves setup to learn, where the guard at line 464 fails: every later turn is skipped |
| TutorTurns.MountedTurnKeepsConversation | src/components/Tutor/Audio.jsx:347-355 | without the context setters (also lines 375-380, 392-399, 498-509, 609-620) no turn changes transcripts, topic, level or stage; the same requests are sent and lines spoken, and exactly the turns the setters would answer or restart throw |
| TutorTurns.MountedFirstTurnThrows | src/components/Tutor/Audio.jsx:347-355 | as mounted, the first turn never answers; a valid topic is asked about ("What do you know about …?") and then `setTopic` throws, leaving the session as it was |
| TutorTurns.MountedNeverLeavesFirstTurn | src/components/MainApp.jsx:72-80 | whatever the services answer, a freshly mounted session keeps the greeting transcripts, an empty topic and level, and stage Setup |
| TutorAudio.AskTutor | src/components/Tutor/Audio.jsx:405-460 | the message list the loop pushes is exactly the specified tutor request, and none is built for an empty window |
| TutorAudio.AudioTutor.constructor | src/contexts/SharedContext.jsx:7-20 | the component starts in the initial session, with the context setters supplied or not as given |
| TutorAudio.AudioTutor.Reject | src/components/Tutor/Audio.jsx:341-346 | a re-prompt says "Sorry can you repeat that?" and only clears `validInput` |
| TutorAudio.AudioTutor.Setup | src/components/Tutor/Audio.jsx:332-403 | the setup handler's new state and effects are those of the setup step with the setters supplied; without them, an answered or topic-changing step throws at line 353, 378 or 396 after speaking, and the state stays |
| TutorAudio.AudioTutor.Advance | src/components/Tutor/Audio.jsx:476-506 | the in-place copy, fill, shift and push give the shared step's state and effects; without the context setters only `setNotes` (line 503) takes effect before `setTranscript` throws |
| TutorAudio.AudioTutor.Learn | src/components/Tutor/Audio.jsx:463-518 | the learn handler's new state and effects are those of the learn step, or of the step thrown at line 505 when the context lacks the setters |
| TutorAudio.AudioTutor.Practice | src/components/Tutor/Audio.jsx:578-628 | the practice handler's new state and effects are those of the practice step, or of the step thrown at line 616 when the context lacks the setters |
| TutorAudio.AudioTutor.HandleTurn | src/components/Tutor/Audio.jsx:630-649 | `main` resets validity and dispatches on the stage, as the turn function does with the setters supplied, and as the mounted turn does without them |
| EarlyAudio.EarlyIntLevel | src/Audio.jsx:63-69 | an `undefined` level has no number; otherwise the result is `intLevel` of the newer component; a number needs more than five characters |
| EarlyAudio.EarlyTextsDefined | src/Audio.jsx:6-30 | both maps of the early component have an entry exactly for Level1..Level5 |
| EarlyAudio.EarlyRequestShape | src/Audio.jsx:310-354 | no request without student input; otherwise persona first, every tutor and student line of every entry (the last student line included), the combined assessment, then the student input |
| EarlyAudio.EarlyInvalidInputChangesNothing | src/Audio.jsx:263-268 | an `invalidInput` answer (also lines 285-290, 364-369) changes no transcript, topic, level or stage, in setup for heard words and in learn even for an empty transcription (lines 131, 227-233); when acted on it re-prompts and clears `validInput` |
| EarlyAudio.EarlyFirstSetupTurn | src/Audio.jsx:269-277 | entry 0 gets the student's words and exactly one topic question is appended |
| EarlyAudio.EarlySecondSetupTurn | src/Audio.jsx:291-305 | entry 1 gets the topic question and the words; exactly the entry `{tutor: reply}` is appended, with no reply for unheard words; the request replays the transcript with the question filled in; the level is taken and the stage becomes learn |
| EarlyAudio.EarlyUnheardBaselineStalls | src/Audio.jsx:279-305 | a baseline from unheard words leaves an `undefined` level, and every later learn turn is skipped |
| EarlyAudio.EarlyLearnTurn | src/Audio.jsx:356-392 | learn acts exactly when the level parses to at most 4 (line 357) and otherwise is skipped with only validity reset (lines 387-391); an answered one fills the last entry and appends one reply; the tutor sees the new level only when it changed; practice begins exactly when the assessment parses to 5; a summary is requested exactly for three or more entries |
| EarlyAudio.EarlyPracticeThrows | src/Audio.jsx:394-424 | a practice turn calls a handler that does not exist and changes nothing |
| EarlyAudio.EarlyAskTutor | src/Audio.jsx:310-354 | the message list the loop pushes is exactly the specified early request |
| EarlyAudio.EarlyAudioTutor.constructor | src/Audio.jsx:47-56 | the early component starts with the greeting entry, stage Setup and an empty level |
| EarlyAudio.EarlyAudioTutor.Setup | src/Audio.jsx:255-307 | the early setup handler's state and effects are those of the early setup step |
| EarlyAudio.EarlyAudioTutor.Learn | src/Audio.jsx:356-392 | the early learn handler's state and effects are those of the early learn step |
| EarlyAudio.EarlyAudioTutor.Answer | src/Audio.jsx:370-386 | the answering part of learn: ask, speak, fill and push, then level and stage |
| EarlyAudio.EarlyAudioTutor.HandleTurn | src/Audio.jsx:394-424 | the early `main` dispatches as the early turn function does |
| Graphing.NextIndex | src/GraphingCalculator.jsx:47-54 | an empty list keeps the index; otherwise the index moves one place and wraps from the last set to 0, staying in range |
| Graphing.StepsCount | src/GraphingCalculator.jsx:51-53 | before the end of the list each step moves exactly one place |
| Graphing.StepsCompose | src/GraphingCalculator.jsx:51-53 | a steps and then b steps are a + b steps |
| Graphing.FullCycle | src/GraphingCalculator.jsx:51-53 | as many steps as there are sets return to the start |
| Graphing.Display | src/GraphingCalculator.jsx:96-119 | something is shown exactly when the current set exists, and then exactly five slots |
| Graphing.DisplayShowsFirstFive | src/GraphingCalculator.jsx:96-119 | each slot shows the equation in its position, or " " when it is missing or empty; nothing shown comes from beyond the first five |
| Graphing.PromptIsWindowStart | src/GraphingCalculator.jsx:72 | the prompt text is the formatted first three window entries: all of a short window, and the start of a longer one's text |
| Graphing.GraphPlayer.constructor | src/GraphingCalculator.jsx:24-26 | the player starts at index 0, not playing, with no sets |
| Graphing.GraphPlayer.NextEquation | src/GraphingCalculator.jsx:47-54 | the button moves to the next index round the list, keeping it in range |
| Graphing.GraphPlayer.Tick | src/GraphingCalculator.jsx:29-39 | the tick moves on only while playing and with a non-empty list |
| Graphing.GraphPlayer.TogglePlay | src/GraphingCalculator.jsx:126 | the button flips playing and nothing else |
| Graphing.GraphPlayer.Refresh | src/GraphingCalculator.jsx:57-86 | no window throws; the guard declines for an empty window or stage "Setup"; otherwise the prompt carries the first three entries, and a returned list replaces the sets and resets to 0 |
| Graphing.PlayRound | src/GraphingCalculator.jsx:29-39 | ticking through the whole list while playing returns to the starting set |
| SessionModel.Errors | server/src/models/Session.mjs:4-26 | validation complains about the owner exactly when it is absent, the topic exactly when it is absent or empty, the status exactly when it is not an allowed one |
| SessionModel.ErrorsIffNonconforming | server/src/models/Session.mjs:4-26 | validation finds nothing exactly when user, topic, level and stage are present, the stage is Setup, Learn or Practice, and the status is active, completed or archived |
| SessionModel.NewDocument | server/src/models/Session.mjs:4-53 | a new document has the owner and the given topic, level and stage, status active, empty conversation and equations, no notes, and both timestamps at creation |
| SessionModel.NewDocumentConforms | server/src/models/Session.mjs:4-26 | a new document is valid exactly when its topic and level are non-empty and its stage is an allowed one |
| SessionModel.Save | server/src/models/Session.mjs:56-60 | saving succeeds exactly for a valid document and then only sets `updatedAt` to the time of the save |
| SessionModel.SaveKeepsIdentity | server/src/models/Session.mjs:46-60 | saving keeps `createdAt`, the owner and the id, and the saved document is valid |
| SessionModel.SaveIdempotent | server/src/models/Session.mjs:56-60 | saving twice at one time is saving once |
| SessionRoutes.Status | server/src/routes/sessions.mjs:9-113 | each answer's HTTP status: 201 exactly for a creation, 400 exactly for refused updates |
| SessionRoutes.Stored | server/src/models/Session.mjs:27-34 | stored entries keep their texts, and a missing timestamp becomes the request time |
| SessionRoutes.TextSupplied | server/src/routes/sessions.mjs:83 | each string field becomes the text the body gives it last, or keeps its value |
| SessionRoutes.TranscriptSupplied | server/src/routes/sessions.mjs:83 | the transcript becomes the entries the body gives it last, or keeps its value |
| SessionRoutes.OthersKept | server/src/routes/sessions.mjs:83 | no field outside the five allowed ones changes |
| SessionRoutes.AssignsExactlySupplied | server/src/routes/sessions.mjs:83 | a PATCH assigns exactly the named fields, each to its last value, and leaves everything else unchanged |
| SessionRoutes.CastFailsOnMismatch | server/src/routes/sessions.mjs:83-84 | the assignments fail exactly when some value has the wrong shape for its field |
| SessionRoutes.EmptyPatchTouches | server/src/routes/sessions.mjs:83-85 | an empty PATCH of a stored session only moves `updatedAt` |
| SessionRoutes.PatchKeepsOwner | server/src/routes/sessions.mjs:75-85 | a PATCH never changes the owner, the id or `createdAt` |
| SessionRoutes.ClientOnlyKeys | server/src/routes/sessions.mjs:76 | the client's `validUpdates` keys outside the allow-list are exactly inputTranscript, equations, graphingEquations, notes and validInput |
| SessionRoutes.ForeignKeyRefused | server/src/routes/sessions.mjs:75-81 | a body naming one of those keys fails the allow-list, whatever else it holds |
| SessionRoutes.InsertByRecency | server/src/routes/sessions.mjs:11-12 | inserting keeps the list ordered by `updatedAt`, most recent first, and adds exactly that session |
| SessionRoutes.Without | server/src/routes/sessions.mjs:104-107 | `$pull` removes every occurrence of the id and nothing else |
| SessionRoutes.TextOf | server/src/routes/sessions.mjs:22 | a create field is taken exactly when the body gives it as a string |
| SessionRoutes.BodilessCreateRefused | server/src/routes/sessions.mjs:22-31 | a create request without a body makes a document that cannot be saved |
| SessionRoutes.SessionStore.List | server/src/routes/sessions.mjs:9-17 | the list holds exactly the caller's sessions, each once, the most recently saved first |
| SessionRoutes.SessionStore.Create | server/src/routes/sessions.mjs:20-43 | a valid new session is stored under a fresh id with an empty transcript, and its id is pushed onto the caller's list; otherwise 500 and nothing changes |
| SessionRoutes.SessionStore.Get | server/src/routes/sessions.mjs:46-61 | 500 for an `:id` that does not cast to an id; otherwise the session when it is the caller's, or not found |
| SessionRoutes.SessionStore.Patch | server/src/routes/sessions.mjs:64-89 | 500 for an `:id` that does not cast; not found unless owned; 400 and no change when a key is outside the allow-list; otherwise the patched, saved session is stored and returned, or 500 and no change |
| SessionRoutes.SessionStore.Delete | server/src/routes/sessions.mjs:92-113 | 500 and no change for an `:id` that does not cast; not found unless owned; otherwise the session is removed and its id pulled from the caller's list |

## Left out

- Audio capture, playback and button enabling are browser I/O. This covers the recorder, the audio element and `recordSwitchDisable`, so the buttons left disabled after a turn that throws are not modelled.
- Speech-to-text, text-to-speech and chat completions are network calls. Their results are the parameters of a turn, and the model records only the order and kind of the messages sent, not the prompt wording.
- The extraction prompt of the early component is not recorded. The early model records only the summarisation and tutor requests.
- SharedContext.ClientSession.UpdateSessionState: a server transcript entry also carries `_id` and `timestamp` (server/src/models/Session.mjs:27-42). The response's entries are reduced to their `tutor` and `student` lines, so those fields are dropped. The JSON comparison at src/contexts/SharedContext.jsx:25 and 30 then sees no difference where the source sees one. The source calls the setter in that case and the model does not, but the new state is the same either way.
- `JSON.parse` of model output is left out. A failed call or an unparsable answer is `None`; an answer that parses but lacks a field is not told apart from one that has it.
- A failed summarisation is not modelled. It yields `undefined`, after which `notes != ""` holds even though no summary exists; the model takes every summary to be a string.
- A transcription that fails (no recording) yields `undefined`. The model gives it as the empty string.
- React batches its setters and turns can interleave asynchronously. Each `main` call is one atomic turn, and the setters take effect together at its end.
- The tutor component's state is one class holding two kinds of field. The context fields (transcripts, topic, stage, validity) are shared with other components; `level` and `notes` are the component's own.
- Mongoose casting of body values other than strings and entry lists is not modelled (numbers, null, objects).
- Which `:id` strings cast to an ObjectId is not modelled. A path id is given already cast, or as `None` when it does not cast, which answers 500.
- Database failures other than validation and casting are not modelled. Those other failures all answer 500.
- Ids come from a counter, since generating an ObjectId is randomness.
- Time is a parameter.
- The authentication middleware is not part of this model. The caller is given, and a caller with no user record gets no `$push`/`$pull`.
- The Express body parsing is reduced to value shapes. A create body is a map, and a PATCH body is its key/value pairs in `Object.keys` order, so its keys are distinct.
- GraphingCalculator is left partly out:
  - an answer without a `graphs` array is treated as a failed request;
  - the Desmos rendering is not modelled;
  - the one-second schedule is left out, so each tick is an explicit call.
- The context `src/GraphingCalculator.jsx` reads is the early provider, which supplies no `inputTranscript`. Reading its length then throws, which `Graphing.GraphPlayer.Refresh` models as `Threw`.
- Floating-point precision of `parseInt` is left out. Integers are exact; precision only matters beyond 2^53, far from the levels 1 to 5.
- TutorTurns.PracticeTurnIsSilent: it states what the practice handler does as written. `askTutorPracticeMode` is called without the window, level and summary it needs, so it always yields no reply. The reply the handler evidently meant to generate is not modelled.
- TutorTurns.FirstSetupTurn: it states the first setup turn with the setters supplied. As mounted, `setTopic` throws at line 353; TutorTurns.MountedFirstTurnThrows states that.
- TutorTurns.SecondSetupTurn: it states the second setup turn with the setters supplied. As mounted, `setTranscript` throws at line 378 or 396, and this turn is never reached (TutorTurns.MountedNeverLeavesFirstTurn).
- TutorTurns.AdvanceHasShape: it states the learn/practice step with the setters supplied. As mounted, the log and window never reach the state (lines 505-506); TutorTurns.MountedTurnKeepsConversation states that.
- TutorTurns.AnsweredHasShape: it states answered learn and practice turns with the setters supplied. As mounted, these turns throw at line 505 or 616 and are unreachable.
- TutorTurns.AnsweredTurnSlidesWindow: it states the slid window with the setters supplied. As mounted, the window is never committed (lines 505-506).
- TutorTurns.LearnEdges: it states the move to practice with the setters supplied. As mounted, `setTranscript` throws at line 505 before `setStage`.
- TutorTurns.PracticeEdges: it states the return to learn with the setters supplied. As mounted, `setTranscript` throws at line 616 before `setStage`.
- TutorTurns.StageEdges: it states both stage edges with the setters supplied. As mounted, the stage never changes (TutorTurns.MountedTurnKeepsConversation).
- TutorTurns.BaselineMasteryStalls: it states the stall with the setters supplied. As mounted, `setTranscript` throws at line 396 and the session stays in setup.
- TutorTurns.RunKeepsConsistent: it is about turns with the setters supplied. As mounted, every reachable session is the fresh one (TutorTurns.MountedNeverLeavesFirstTurn), which is consistent by TutorTurns.InitialConsistent.

## Findings

| source | as written | input that shows it | evidently intended | confidence | as-written member | corrected member |
|---|---|---|---|---|---|---|
| src/components/MainApp.jsx:72-80 | the tutor is mounted under the provider of src/contexts/SharedContext.jsx, whose value (lines 113-130) has no `setTopic`, `setTranscript`, `setInputTranscript` or `setStage` | a fresh session; the student says "fractions", and the topic "fractions" is extracted: "What do you know about fractions?" is spoken, then `setTopic` throws at Audio.jsx:353, and every later turn repeats this | the provider supplies the four setters, and the first turn stores the topic and the two-entry transcript | high (not executed) | TutorTurns.MountedNeverLeavesFirstTurn | TutorTurns.FirstSetupTurn |
