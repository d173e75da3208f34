/**
 * The stored form of a tutoring session: its fields, the values the stage
 * and status may take, which fields a document must have, the defaults a new
 * document starts from, and what saving does to it.
 */
module SessionModel {
  import opened Wrappers

  type UserId = nat
  type SessionId = nat
  /** A point in time, in milliseconds; the clock is a parameter. */
  type Time = int

  /** A stored conversation entry: both texts are optional, the time is filled in when absent. */
  datatype StoredTurn = StoredTurn(tutor: Option<string>, student: Option<string>, timestamp: Time)

  /** A session document as it is held, field by field. Absent strings are `None`. */
  datatype Document = Document(
    id: SessionId,
    user: Option<UserId>,
    topic: Option<string>,
    level: Option<string>,
    stage: Option<string>,
    status: Option<string>,
    transcript: seq<StoredTurn>,
    inputTranscript: seq<StoredTurn>,
    equations: seq<string>,
    graphingEquations: seq<seq<string>>,
    notes: Option<string>,
    createdAt: Time,
    updatedAt: Time)

  const Stages: seq<string> := ["Setup", "Learn", "Practice"]
  const Statuses: seq<string> := ["active", "completed", "archived"]
  const DefaultStatus: string := "active"

  /** A required string is present and not empty. */
  predicate Present(v: Option<string>) {
    v.Some? && v.value != ""
  }

  /** An enumerated string is absent or one of the listed values. */
  predicate AmongOrAbsent(v: Option<string>, values: seq<string>) {
    v.None? || v.value in values
  }

  /** The document paths validation may complain about, in schema order. */
  datatype Path = UserPath | TopicPath | LevelPath | StagePath | StatusPath

  /**
   * Validation as the schema runs it, path by path: the owner, the topic and
   * the level must be there, the stage must be there and be one of the
   * stages, and a status present must be one of the statuses.
   */
  function Errors(d: Document): (r: seq<Path>)
    ensures |r| <= 5
    ensures UserPath in r <==> d.user.None?
    ensures TopicPath in r <==> !Present(d.topic)
    ensures StatusPath in r <==> !AmongOrAbsent(d.status, Statuses)
  {
    (if d.user.None? then [UserPath] else [])
    + (if !Present(d.topic) then [TopicPath] else [])
    + (if !Present(d.level) then [LevelPath] else [])
    + (if !Present(d.stage) || d.stage.value !in Stages then [StagePath] else [])
    + (if !AmongOrAbsent(d.status, Statuses) then [StatusPath] else [])
  }

  /** A document the schema accepts, stated field by field. */
  predicate Conforms(d: Document) {
    && d.user.Some?
    && Present(d.topic)
    && Present(d.level)
    && d.stage.Some? && d.stage.value in Stages
    && AmongOrAbsent(d.status, Statuses)
  }

  /** Validation finds nothing exactly when the document conforms. */
  lemma ErrorsIffNonconforming(d: Document)
    ensures Errors(d) == [] <==> Conforms(d)
    ensures StagePath in Errors(d) <==> d.stage.None? || d.stage.value !in Stages
    ensures LevelPath in Errors(d) <==> !Present(d.level)
  {
    if d.stage.Some? && d.stage.value == "" {
      assert "" !in Stages;
    }
  }

  /**
   * A new document from what the create request supplies: no conversation,
   * no equations, no notes, the status defaulted to active and both
   * timestamps at `now`.
   */
  function NewDocument(id: SessionId, user: UserId, topic: Option<string>, level: Option<string>,
                       stage: Option<string>, now: Time): (d: Document)
    ensures d.id == id && d.user == Some(user)
    ensures d.topic == topic && d.level == level && d.stage == stage
    ensures d.status == Some(DefaultStatus)
    ensures d.transcript == [] && d.inputTranscript == [] && d.equations == [] && d.graphingEquations == []
    ensures d.notes.None?
    ensures d.createdAt == now && d.updatedAt == now
  {
    Document(id, Some(user), topic, level, stage, Some(DefaultStatus), [], [], [], [], None, now, now)
  }

  /** A new document conforms exactly when its topic and level are non-empty and its stage is one of the stages. */
  lemma NewDocumentConforms(id: SessionId, user: UserId, topic: Option<string>, level: Option<string>,
                            stage: Option<string>, now: Time)
    ensures Conforms(NewDocument(id, user, topic, level, stage, now))
        <==> Present(topic) && Present(level) && stage.Some? && stage.value in Stages
  {
  }

  /**
   * `save`: a nonconforming document is refused; otherwise the pre-save hook
   * stamps `updatedAt` with the time of the save and nothing else changes.
   */
  function Save(d: Document, now: Time): (r: Option<Document>)
    ensures r.Some? <==> Conforms(d)
    ensures r.Some? ==> r.value.updatedAt == now && r.value.(updatedAt := d.updatedAt) == d
  {
    ErrorsIffNonconforming(d);
    if Errors(d) != [] then None else Some(d.(updatedAt := now))
  }

  /** Saving keeps the creation time, the owner and the id, and a saved document still conforms. */
  lemma SaveKeepsIdentity(d: Document, now: Time)
    requires Save(d, now).Some?
    ensures var e := Save(d, now).value;
      e.createdAt == d.createdAt && e.user == d.user && e.id == d.id && Conforms(e)
  {
  }

  /** Saving twice at the same time is saving once. */
  lemma SaveIdempotent(d: Document, now: Time)
    requires Save(d, now).Some?
    ensures Save(Save(d, now).value, now) == Save(d, now)
  {
  }
}
