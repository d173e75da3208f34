/**
 * The client-side session context: the transcript entry type, the transcript
 * formatter used to build model prompts, and the client's copy of the session
 * fields with its two update operations.
 */
module SharedContext {
  import opened Wrappers

  /** One exchange of the conversation; `None` is a side that was never set. */
  datatype Turn = Turn(tutor: Option<string>, student: Option<string>)

  /** JavaScript truthiness of an optional string: present and not empty. */
  predicate Truthy(s: Option<string>) {
    s.Some? && s.value != ""
  }

  /** How a template literal renders an optional string. */
  function Show(s: Option<string>): string {
    match s
    case Some(v) => v
    case None => "undefined"
  }

  /** The tutor's opening line of a fresh session. */
  const Greeting: string := "Hi, how can I help you today?"

  /** The two lines one transcript entry contributes to the formatted text. */
  function FormatTurn(t: Turn): string {
    "Tutor: \"" + Show(t.tutor) + ".\"\n" + "Student: \"" + Show(t.student) + ".\"\n"
  }

  /** The transcript as the text handed to the model: every entry, in order. */
  function FormatTranscript(turns: seq<Turn>): (r: string)
    ensures |r| >= 24 * |turns|
    ensures r == "" <==> turns == []
  {
    if turns == [] then "" else FormatTurn(turns[0]) + FormatTranscript(turns[1..])
  }

  /** Formatting distributes over concatenation of transcripts. */
  lemma {:induction false} FormatConcat(a: seq<Turn>, b: seq<Turn>)
    ensures FormatTranscript(a + b) == FormatTranscript(a) + FormatTranscript(b)
  {
    if a == [] {
      assert a + b == b;
    } else {
      assert (a + b)[0] == a[0];
      assert (a + b)[1..] == a[1..] + b;
      FormatConcat(a[1..], b);
    }
  }

  /** The accumulation order of the formatter's loop: one entry's lines go after the earlier ones. */
  lemma FormatAppend(turns: seq<Turn>, t: Turn)
    ensures FormatTranscript(turns + [t]) == FormatTranscript(turns) + FormatTurn(t)
  {
    FormatConcat(turns, [t]);
    assert FormatTranscript([t]) == FormatTurn(t) + FormatTranscript([]);
  }

  /** A value as the server sends it for one field of the session. */
  datatype FieldValue =
    | Turns(turns: seq<Turn>)
    | Strings(items: seq<string>)
    | StringSets(sets: seq<seq<string>>)
    | Flag(flag: bool)
    | Text(text: string)

  /** The client's copy of the session fields. */
  datatype Fields = Fields(
    transcript: seq<Turn>,
    inputTranscript: seq<Turn>,
    equations: seq<string>,
    graphingEquations: seq<seq<string>>,
    validInput: bool,
    stage: string,
    topic: string,
    level: string,
    notes: string)

  /** The fields of a freshly mounted session context. */
  const InitialFields: Fields :=
    Fields([Turn(Some(Greeting), None)], [Turn(Some(Greeting), None)], [], [], true, "Setup", "", "", "")

  /** The response keys `updateSession` passes on to `updateSessionState`. */
  const ValidUpdates: seq<string> :=
    ["transcript", "inputTranscript", "equations", "graphingEquations", "stage", "topic", "level", "notes", "validInput"]

  /** The fields of the client session, by name. */
  datatype FieldName =
    | TranscriptField | InputTranscriptField | EquationsField | GraphingEquationsField
    | ValidInputField | StageField | TopicField | LevelField | NotesField

  /** The key a field is known by. */
  function Key(n: FieldName): string {
    match n
    case TranscriptField => "transcript"
    case InputTranscriptField => "inputTranscript"
    case EquationsField => "equations"
    case GraphingEquationsField => "graphingEquations"
    case ValidInputField => "validInput"
    case StageField => "stage"
    case TopicField => "topic"
    case LevelField => "level"
    case NotesField => "notes"
  }

  /** The field a key names, if any: exactly the keys of `ValidUpdates` name a field. */
  function FieldOf(name: string): (r: Option<FieldName>)
    ensures r.Some? <==> name in ValidUpdates
    ensures r.Some? ==> Key(r.value) == name
  {
    match name
    case "transcript" => Some(TranscriptField)
    case "inputTranscript" => Some(InputTranscriptField)
    case "equations" => Some(EquationsField)
    case "graphingEquations" => Some(GraphingEquationsField)
    case "validInput" => Some(ValidInputField)
    case "stage" => Some(StageField)
    case "topic" => Some(TopicField)
    case "level" => Some(LevelField)
    case "notes" => Some(NotesField)
    case _ => None
  }

  /** Every field is found again from its key. */
  lemma FieldOfKey(n: FieldName)
    ensures FieldOf(Key(n)) == Some(n)
  {
    match n
    case TranscriptField =>
    case InputTranscriptField =>
    case EquationsField =>
    case GraphingEquationsField =>
    case ValidInputField =>
    case StageField =>
    case TopicField =>
    case LevelField =>
    case NotesField =>
  }

  /** The value of a field. */
  function Value(f: Fields, n: FieldName): FieldValue {
    match n
    case TranscriptField => Turns(f.transcript)
    case InputTranscriptField => Turns(f.inputTranscript)
    case EquationsField => Strings(f.equations)
    case GraphingEquationsField => StringSets(f.graphingEquations)
    case ValidInputField => Flag(f.validInput)
    case StageField => Text(f.stage)
    case TopicField => Text(f.topic)
    case LevelField => Text(f.level)
    case NotesField => Text(f.notes)
  }

  /** The value a field holds, or `None` for a name that is not a field. */
  function Get(f: Fields, name: string): (r: Option<FieldValue>)
    ensures r.Some? <==> name in ValidUpdates
  {
    match FieldOf(name)
    case Some(n) => Some(Value(f, n))
    case None => None
  }

  /** `value` has the type of field `n`. */
  predicate Kind(n: FieldName, value: FieldValue) {
    match n
    case TranscriptField => value.Turns?
    case InputTranscriptField => value.Turns?
    case EquationsField => value.Strings?
    case GraphingEquationsField => value.StringSets?
    case ValidInputField => value.Flag?
    case StageField => value.Text?
    case TopicField => value.Text?
    case LevelField => value.Text?
    case NotesField => value.Text?
  }

  /** `value` has the type of the field called `name`. */
  predicate Fits(name: string, value: FieldValue) {
    FieldOf(name).Some? && Kind(FieldOf(name).value, value)
  }

  /** Field `n` set to `value`, which has its type. */
  function Set(f: Fields, n: FieldName, value: FieldValue): (r: Fields)
    requires Kind(n, value)
    ensures Value(r, n) == value
    ensures forall m :: m != n ==> Value(r, m) == Value(f, m)
  {
    match n
    case TranscriptField => f.(transcript := value.turns)
    case InputTranscriptField => f.(inputTranscript := value.turns)
    case EquationsField => f.(equations := value.items)
    case GraphingEquationsField => f.(graphingEquations := value.sets)
    case ValidInputField => f.(validInput := value.flag)
    case StageField => f.(stage := value.text)
    case TopicField => f.(topic := value.text)
    case LevelField => f.(level := value.text)
    case NotesField => f.(notes := value.text)
  }

  /**
   * The fields after `name` is given `value`: the named field takes the value
   * and no other field changes.
   */
  function Assign(f: Fields, name: string, value: FieldValue): (r: Fields)
    ensures Fits(name, value) ==> Get(r, name) == Some(value)
    ensures forall m :: m != name ==> Get(r, m) == Get(f, m)
    ensures !Fits(name, value) ==> r == f
  {
    if Fits(name, value) then
      var r := Set(f, FieldOf(name).value, value);
      assert forall m :: m != name ==> Get(r, m) == Get(f, m) by {
        forall m | m != name
          ensures Get(r, m) == Get(f, m)
        {
          if FieldOf(m).Some? {
            assert FieldOf(m).value != FieldOf(name).value;
          }
        }
      }
      r
    else f
  }

  /** `updateSessionState` calls a setter: the field exists and its value differs. */
  predicate Writes(f: Fields, name: string, value: FieldValue) {
    Fits(name, value) && Get(f, name) != Some(value)
  }

  /** Giving a field the same value twice is the same as giving it once. */
  lemma AssignIdempotent(f: Fields, name: string, value: FieldValue)
    ensures Assign(Assign(f, name, value), name, value) == Assign(f, name, value)
    ensures !Writes(Assign(f, name, value), name, value)
  {
  }

  /** A skipped write loses nothing: when no setter is called the fields already hold the value. */
  lemma {:induction false} SkippedWriteIsAssign(f: Fields, name: string, value: FieldValue)
    requires !Writes(f, name, value)
    ensures Assign(f, name, value) == f
  {
    if Fits(name, value) {
      var n := FieldOf(name).value;
      assert Value(f, n) == value;
      match n
      case TranscriptField =>
      case InputTranscriptField =>
      case EquationsField =>
      case GraphingEquationsField =>
      case ValidInputField =>
      case StageField =>
      case TopicField =>
      case LevelField =>
      case NotesField =>
    }
  }

  /** The fields after the response pairs are applied in order, each pair only if its key is in `ValidUpdates`. */
  function ApplyResponse(f: Fields, response: seq<(string, FieldValue)>): Fields
  {
    if response == [] then f
    else
      var last := response[|response| - 1];
      var g := ApplyResponse(f, response[..|response| - 1]);
      if last.0 in ValidUpdates then Assign(g, last.0, last.1) else g
  }

  /** The same response applied with no key filter at all. */
  function AssignAll(f: Fields, response: seq<(string, FieldValue)>): Fields
  {
    if response == [] then f
    else
      var last := response[|response| - 1];
      Assign(AssignAll(f, response[..|response| - 1]), last.0, last.1)
  }

  /**
   * The key filter of `updateSession` never changes the outcome: every key it
   * drops is one `updateSessionState` would ignore anyway. It only keeps the
   * warning for unknown fields from firing.
   */
  lemma {:induction false} KeyFilterOnlySilencesWarnings(f: Fields, response: seq<(string, FieldValue)>)
    ensures ApplyResponse(f, response) == AssignAll(f, response)
  {
    if response != [] {
      var last := response[|response| - 1];
      KeyFilterOnlySilencesWarnings(f, response[..|response| - 1]);
      if last.0 !in ValidUpdates {
        assert !Fits(last.0, last.1);
      }
    }
  }

  /** A response none of whose keys is in `ValidUpdates` changes nothing. */
  lemma {:induction false} ForeignKeysChangeNothing(f: Fields, response: seq<(string, FieldValue)>)
    requires forall i :: 0 <= i < |response| ==> response[i].0 !in ValidUpdates
    ensures ApplyResponse(f, response) == f
  {
    if response != [] {
      ForeignKeysChangeNothing(f, response[..|response| - 1]);
    }
  }

  /** The session context of one mounted client page. */
  class ClientSession {
    var transcript: seq<Turn>
    var inputTranscript: seq<Turn>
    var equations: seq<string>
    var graphingEquations: seq<seq<string>>
    var validInput: bool
    var stage: string
    var topic: string
    var level: string
    var notes: string

    /** The fields as one value. */
    function Snapshot(): Fields
      reads this
    {
      Fields(transcript, inputTranscript, equations, graphingEquations, validInput, stage, topic, level, notes)
    }

    constructor ()
      ensures Snapshot() == InitialFields
    {
      transcript := [Turn(Some(Greeting), None)];
      inputTranscript := [Turn(Some(Greeting), None)];
      equations := [];
      graphingEquations := [];
      validInput := true;
      stage := "Setup";
      topic := "";
      level := "";
      notes := "";
    }

    /**
     * Gives one field a new value, calling its setter only when the value
     * differs; an unknown name only warns.
     */
    method UpdateSessionState(field: string, value: FieldValue) returns (wrote: bool, warned: bool)
      modifies this
      ensures Snapshot() == Assign(old(Snapshot()), field, value)
      ensures wrote == Writes(old(Snapshot()), field, value)
      ensures warned <==> field !in ValidUpdates
    {
      wrote, warned := false, false;
      match FieldOf(field) {
        case Some(TranscriptField) =>
          if value.Turns? && transcript != value.turns {
            transcript := value.turns;
            wrote := true;
          }
        case Some(InputTranscriptField) =>
          if value.Turns? && inputTranscript != value.turns {
            inputTranscript := value.turns;
            wrote := true;
          }
        case Some(EquationsField) =>
          if value.Strings? && equations != value.items {
            equations := value.items;
            wrote := true;
          }
        case Some(GraphingEquationsField) =>
          if value.StringSets? && graphingEquations != value.sets {
            graphingEquations := value.sets;
            wrote := true;
          }
        case Some(ValidInputField) =>
          if value.Flag? && validInput != value.flag {
            validInput := value.flag;
            wrote := true;
          }
        case Some(StageField) =>
          if value.Text? && stage != value.text {
            stage := value.text;
            wrote := true;
          }
        case Some(TopicField) =>
          if value.Text? && topic != value.text {
            topic := value.text;
            wrote := true;
          }
        case Some(LevelField) =>
          if value.Text? && level != value.text {
            level := value.text;
            wrote := true;
          }
        case Some(NotesField) =>
          if value.Text? && notes != value.text {
            notes := value.text;
            wrote := true;
          }
        case None =>
          warned := true;
      }
    }

    /**
     * Applies the server's answer to a PATCH of the session. `response` is the
     * answer's key/value pairs in key order, or `None` when the request failed;
     * then nothing is applied and the error is raised.
     */
    method UpdateSession(response: Option<seq<(string, FieldValue)>>) returns (failure: Option<string>)
      modifies this
      ensures response.None? ==> failure == Some("Failed to update session") && Snapshot() == old(Snapshot())
      ensures response.Some? ==> failure.None? && Snapshot() == ApplyResponse(old(Snapshot()), response.value)
    {
      if response.None? {
        return Some("Failed to update session");
      }
      var pairs := response.value;
      var i := 0;
      while i < |pairs|
        invariant 0 <= i <= |pairs|
        invariant Snapshot() == ApplyResponse(old(Snapshot()), pairs[..i])
      {
        var key := pairs[i].0;
        assert pairs[..i + 1][..i] == pairs[..i];
        if key in ValidUpdates {
          var _, _ := UpdateSessionState(key, pairs[i].1);
        }
        i := i + 1;
      }
      assert pairs[..|pairs|] == pairs;
      failure := None;
    }
  }
}
