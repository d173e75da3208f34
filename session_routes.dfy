/**
 * The session routes of the server: every request comes from an
 * authenticated caller and reaches only that caller's sessions. The
 * collection of session documents and each user's list of session ids form
 * one in-memory store.
 */
module SessionRoutes {
  import opened Wrappers
  import opened SessionModel
  import SharedContext

  /** A conversation entry as a request body carries it. */
  datatype EntryInput = EntryInput(tutor: Option<string>, student: Option<string>, timestamp: Option<Time>)

  /** A request body value: a string, or a list of conversation entries. */
  datatype Value = Text(text: string) | Entries(entries: seq<EntryInput>)

  /** What a route answers. */
  datatype Reply =
    | Listed(sessions: seq<Document>)
    | Created(session: Document)
    | Found(session: Document)
    | Updated(session: Document)
    | Deleted
    | NotFound
    | InvalidUpdates
    | ServerError

  /** The HTTP status of each answer. */
  function Status(r: Reply): (code: nat)
    ensures code in {200, 201, 400, 404, 500}
    ensures code == 201 <==> r.Created?
    ensures code == 400 <==> r.InvalidUpdates?
  {
    match r
    case Listed(_) => 200
    case Created(_) => 201
    case Found(_) => 200
    case Updated(_) => 200
    case Deleted => 200
    case NotFound => 404
    case InvalidUpdates => 400
    case ServerError => 500
  }

  /** The only fields a PATCH may name. */
  const Allowed: seq<string> := ["topic", "level", "stage", "transcript", "status"]

  /** No key occurs twice in the body. */
  predicate DistinctKeys(body: seq<(string, Value)>) {
    forall i, j :: 0 <= i < j < |body| ==> body[i].0 != body[j].0
  }

  /** Every key the PATCH body names is allowed. */
  predicate AllAllowed(body: seq<(string, Value)>) {
    forall k :: 0 <= k < |body| ==> body[k].0 in Allowed
  }

  /** Entries as stored: a missing timestamp becomes the time of the request. */
  function Stored(entries: seq<EntryInput>, now: Time): (r: seq<StoredTurn>)
    ensures |r| == |entries|
    ensures forall k :: 0 <= k < |r| ==>
      r[k].tutor == entries[k].tutor && r[k].student == entries[k].student
      && r[k].timestamp == entries[k].timestamp.GetOr(now)
  {
    seq(|entries|, k requires 0 <= k < |entries| => StoredTurn(entries[k].tutor, entries[k].student, entries[k].timestamp.GetOr(now)))
  }

  /**
   * `session[key] = value` for an allowed key. A value of the wrong shape for
   * its field cannot be cast, and the later save fails (`None`).
   */
  function AssignPath(d: Document, key: string, v: Value, now: Time): Option<Document> {
    match v
    case Text(s) =>
      if key == "topic" then Some(d.(topic := Some(s)))
      else if key == "level" then Some(d.(level := Some(s)))
      else if key == "stage" then Some(d.(stage := Some(s)))
      else if key == "status" then Some(d.(status := Some(s)))
      else None
    case Entries(es) =>
      if key == "transcript" then Some(d.(transcript := Stored(es, now))) else None
  }

  /** The assignments of a PATCH body, in order. */
  function AssignAll(d: Document, body: seq<(string, Value)>, now: Time): Option<Document>
    decreases |body|
  {
    if body == [] then Some(d)
    else match AssignAll(d, body[..|body| - 1], now)
      case None => None
      case Some(e) => AssignPath(e, body[|body| - 1].0, body[|body| - 1].1, now)
  }

  /** The value the body gives `key` last, if it names it at all. */
  function Supplied(body: seq<(string, Value)>, key: string): (r: Option<Value>)
    ensures r.Some? <==> exists k :: 0 <= k < |body| && body[k].0 == key
    decreases |body|
  {
    if body == [] then None
    else if body[|body| - 1].0 == key then Some(body[|body| - 1].1)
    else Supplied(body[..|body| - 1], key)
  }

  /** A patched string field: the supplied text, or the old value. */
  function PatchedText(old_: Option<string>, supplied: Option<Value>): Option<string> {
    if supplied.Some? && supplied.value.Text? then Some(supplied.value.text) else old_
  }

  /** A patched transcript: the supplied entries as stored, or the old transcript. */
  function PatchedTranscript(old_: seq<StoredTurn>, supplied: Option<Value>, now: Time): seq<StoredTurn> {
    if supplied.Some? && supplied.value.Entries? then Stored(supplied.value.entries, now) else old_
  }

  /** The string field `key` names. */
  function TextField(d: Document, key: string): Option<string> {
    if key == "topic" then d.topic
    else if key == "level" then d.level
    else if key == "stage" then d.stage
    else d.status
  }

  /** A PATCH that casts gives each string field the text the body gives it last, or leaves it. */
  lemma {:induction false} TextSupplied(d: Document, body: seq<(string, Value)>, now: Time, key: string)
    requires key in ["topic", "level", "stage", "status"]
    requires AssignAll(d, body, now).Some?
    ensures TextField(AssignAll(d, body, now).value, key) == PatchedText(TextField(d, key), Supplied(body, key))
    decreases |body|
  {
    if body != [] {
      TextSupplied(d, body[..|body| - 1], now, key);
    }
  }

  /** A PATCH that casts gives the transcript the entries the body gives it last, or leaves it. */
  lemma {:induction false} TranscriptSupplied(d: Document, body: seq<(string, Value)>, now: Time)
    requires AssignAll(d, body, now).Some?
    ensures AssignAll(d, body, now).value.transcript == PatchedTranscript(d.transcript, Supplied(body, "transcript"), now)
    decreases |body|
  {
    if body != [] {
      TranscriptSupplied(d, body[..|body| - 1], now);
    }
  }

  /** A PATCH touches no field outside the five it may name. */
  lemma {:induction false} OthersKept(d: Document, body: seq<(string, Value)>, now: Time)
    requires AssignAll(d, body, now).Some?
    ensures var e := AssignAll(d, body, now).value;
      e == d.(topic := e.topic, level := e.level, stage := e.stage, status := e.status, transcript := e.transcript)
    decreases |body|
  {
    if body != [] {
      OthersKept(d, body[..|body| - 1], now);
    }
  }

  /**
   * A PATCH that casts assigns exactly the fields the body names, each to the
   * value it gives last; everything else, owner and timestamps included, is
   * as before.
   */
  lemma AssignsExactlySupplied(d: Document, body: seq<(string, Value)>, now: Time)
    requires AssignAll(d, body, now).Some?
    ensures var e := AssignAll(d, body, now).value;
      && e.topic == PatchedText(d.topic, Supplied(body, "topic"))
      && e.level == PatchedText(d.level, Supplied(body, "level"))
      && e.stage == PatchedText(d.stage, Supplied(body, "stage"))
      && e.status == PatchedText(d.status, Supplied(body, "status"))
      && e.transcript == PatchedTranscript(d.transcript, Supplied(body, "transcript"), now)
      && e == d.(topic := e.topic, level := e.level, stage := e.stage, status := e.status, transcript := e.transcript)
  {
    TextSupplied(d, body, now, "topic");
    TextSupplied(d, body, now, "level");
    TextSupplied(d, body, now, "stage");
    TextSupplied(d, body, now, "status");
    TranscriptSupplied(d, body, now);
    OthersKept(d, body, now);
  }

  /** A PATCH fails to cast exactly when some value has the wrong shape for the field it names. */
  lemma {:induction false} CastFailsOnMismatch(d: Document, body: seq<(string, Value)>, now: Time)
    requires AllAllowed(body)
    ensures AssignAll(d, body, now).None? <==>
      exists k :: 0 <= k < |body| && (body[k].1.Entries? <==> body[k].0 != "transcript")
    decreases |body|
  {
    if body != [] {
      var init := body[..|body| - 1];
      assert AllAllowed(init) by {
        forall k | 0 <= k < |init| ensures init[k].0 in Allowed {
          assert init[k] == body[k];
        }
      }
      CastFailsOnMismatch(d, init, now);
      var last := |body| - 1;
      if exists k :: 0 <= k < |init| && (init[k].1.Entries? <==> init[k].0 != "transcript") {
        var k :| 0 <= k < |init| && (init[k].1.Entries? <==> init[k].0 != "transcript");
        assert body[k] == init[k];
      }
      if exists k :: 0 <= k < |body| && (body[k].1.Entries? <==> body[k].0 != "transcript") {
        var k :| 0 <= k < |body| && (body[k].1.Entries? <==> body[k].0 != "transcript");
        if k < last {
          assert init[k] == body[k];
        }
      }
    }
  }

  /** The new state of the document a PATCH addresses, or `None` when the save fails. */
  function Patched(d: Document, body: seq<(string, Value)>, now: Time): Option<Document> {
    match AssignAll(d, body, now)
    case None => None
    case Some(e) => Save(e, now)
  }

  /** An empty PATCH of a stored document only moves its `updatedAt`. */
  lemma EmptyPatchTouches(d: Document, now: Time)
    requires Conforms(d)
    ensures Patched(d, [], now) == Some(d.(updatedAt := now))
  {
  }

  /** A PATCH never changes who owns a session: `user` is not an allowed key. */
  lemma PatchKeepsOwner(d: Document, body: seq<(string, Value)>, now: Time)
    requires Patched(d, body, now).Some?
    ensures Patched(d, body, now).value.user == d.user
    ensures Patched(d, body, now).value.id == d.id
    ensures Patched(d, body, now).value.createdAt == d.createdAt
  {
    AssignsExactlySupplied(d, body, now);
  }

  /**
   * Of the fields the client copies back from a PATCH answer, five can never
   * be sent in one: the allow-list refuses them.
   */
  lemma ClientOnlyKeys()
    ensures (set k | k in SharedContext.ValidUpdates && k !in Allowed)
         == {"inputTranscript", "equations", "graphingEquations", "notes", "validInput"}
  {
    var extra := set k | k in SharedContext.ValidUpdates && k !in Allowed;
    assert SharedContext.ValidUpdates[1] == "inputTranscript" && "inputTranscript" !in Allowed;
    assert SharedContext.ValidUpdates[2] == "equations" && "equations" !in Allowed;
    assert SharedContext.ValidUpdates[3] == "graphingEquations" && "graphingEquations" !in Allowed;
    assert SharedContext.ValidUpdates[7] == "notes" && "notes" !in Allowed;
    assert SharedContext.ValidUpdates[8] == "validInput" && "validInput" !in Allowed;
  }

  /** A body naming a key outside the allow-list is refused whatever else it holds. */
  lemma ForeignKeyRefused(body: seq<(string, Value)>, k: nat)
    requires k < |body| && body[k].0 in ["inputTranscript", "equations", "graphingEquations", "notes", "validInput"]
    ensures !AllAllowed(body)
  {
  }

  /** `s` is ordered by `updatedAt`, the most recently saved first. */
  predicate SortedByRecency(s: seq<Document>) {
    forall i, j :: 0 <= i < j < |s| ==> s[i].updatedAt >= s[j].updatedAt
  }

  /** Puts `d` into a list ordered by recency, keeping the order. */
  method InsertByRecency(s: seq<Document>, d: Document) returns (r: seq<Document>)
    requires SortedByRecency(s)
    ensures SortedByRecency(r)
    ensures multiset(r) == multiset(s) + multiset{d}
  {
    var k := 0;
    while k < |s| && s[k].updatedAt >= d.updatedAt
      invariant 0 <= k <= |s|
      invariant forall i :: 0 <= i < k ==> s[i].updatedAt >= d.updatedAt
    {
      k := k + 1;
    }
    r := s[..k] + [d] + s[k..];
    assert s == s[..k] + s[k..];
  }

  /** `ids` without every occurrence of `x`, as `$pull` leaves it. */
  function Without(ids: seq<SessionId>, x: SessionId): (r: seq<SessionId>)
    ensures x !in r
    ensures forall y :: y != x ==> (y in r <==> y in ids)
    ensures |r| <= |ids|
  {
    if ids == [] then []
    else if ids[0] == x then Without(ids[1..], x)
    else [ids[0]] + Without(ids[1..], x)
  }

  /** The documents of `among` that `caller` owns. */
  function OwnedAmong(among: set<Document>, caller: UserId): set<Document> {
    set d | d in among && d.user == Some(caller)
  }

  /** Taking one more document out of `pending` adds it to the owned ones seen exactly when the caller owns it. */
  lemma ListedOneMore(all: set<Document>, pending: set<Document>, d: Document, caller: UserId)
    requires d in pending && pending <= all
    ensures multiset(OwnedAmong(all - (pending - {d}), caller))
         == multiset(OwnedAmong(all - pending, caller)) + (if d.user == Some(caller) then multiset{d} else multiset{})
  {
    var before := OwnedAmong(all - pending, caller);
    var after := OwnedAmong(all - (pending - {d}), caller);
    if d.user == Some(caller) {
      assert after == before + {d} && d !in before;
    } else {
      assert after == before;
    }
  }

  /** The documents and the users' session lists. */
  class SessionStore {
    var documents: map<SessionId, Document>
    /** Each known user's `sessions` list. */
    var owners: map<UserId, seq<SessionId>>
    /** Where fresh ids come from. */
    var nextId: SessionId

    /**
     * Every stored document is filed under its own id, below `nextId`, and
     * conforms to the schema; a document whose owner is a known user is on
     * that user's list.
     */
    predicate Valid()
      reads this
    {
      && (forall k :: k in documents ==> documents[k].id == k && k < nextId && Conforms(documents[k]))
      && (forall k :: k in documents && documents[k].user.value in owners ==> k in owners[documents[k].user.value])
    }

    /** `id` names one of `caller`'s sessions. */
    predicate Owns(caller: UserId, id: SessionId)
      reads this
    {
      id in documents && documents[id].user == Some(caller)
    }

    /** The caller's sessions. */
    function OwnedBy(caller: UserId): set<Document>
      reads this
    {
      OwnedAmong(documents.Values, caller)
    }

    constructor (users: set<UserId>)
      ensures Valid()
      ensures documents == map[] && nextId == 0
      ensures owners == map u | u in users :: []
    {
      documents := map[];
      owners := map u | u in users :: [];
      nextId := 0;
    }

    /** GET `/`: the caller's sessions, the most recently saved first. */
    method List(caller: UserId) returns (reply: Reply)
      ensures reply.Listed?
      ensures SortedByRecency(reply.sessions)
      ensures multiset(reply.sessions) == multiset(OwnedBy(caller))
    {
      var pending := documents.Values;
      var listed: seq<Document> := [];
      while pending != {}
        invariant pending <= documents.Values
        invariant SortedByRecency(listed)
        invariant multiset(listed) == multiset(OwnedAmong(documents.Values - pending, caller))
        decreases |pending|
      {
        var d :| d in pending;
        ListedOneMore(documents.Values, pending, d, caller);
        pending := pending - {d};
        if d.user == Some(caller) {
          listed := InsertByRecency(listed, d);
        }
      }
      assert documents.Values - pending == documents.Values;
      reply := Listed(listed);
    }

    /**
     * POST `/`: a new session for the caller from the body's topic, level
     * and stage, with an empty conversation. When it saves, its id goes on
     * the caller's list; when it does not, nothing is stored and the answer
     * is a server error.
     */
    method Create(caller: UserId, body: map<string, Value>, now: Time) returns (reply: Reply)
      requires Valid()
      modifies this
      ensures Valid()
      ensures var d := NewDocument(old(nextId), caller, TextOf(body, "topic"), TextOf(body, "level"),
                                   TextOf(body, "stage"), now);
        if Casts(body) && Conforms(d) then
          && reply == Created(d)
          && documents == old(documents)[old(nextId) := d]
          && nextId == old(nextId) + 1
          && owners == (if caller in old(owners) then old(owners)[caller := old(owners)[caller] + [old(nextId)]]
                        else old(owners))
        else
          reply == ServerError && documents == old(documents) && owners == old(owners) && nextId == old(nextId)
    {
      if !Casts(body) {
        return ServerError;
      }
      var d := NewDocument(nextId, caller, TextOf(body, "topic"), TextOf(body, "level"), TextOf(body, "stage"), now);
      var saved := Save(d, now);
      if saved.None? {
        return ServerError;
      }
      assert saved.value == d;
      documents := documents[nextId := d];
      if caller in owners {
        owners := owners[caller := owners[caller] + [nextId]];
      }
      nextId := nextId + 1;
      reply := Created(d);
    }

    /**
     * GET `/:id`: the session when it is the caller's, otherwise not found.
     * `path` is the `:id` segment cast to an id, `None` when it does not cast:
     * the query throws and the answer is a server error.
     */
    method Get(caller: UserId, path: Option<SessionId>) returns (reply: Reply)
      ensures path.None? ==> reply == ServerError
      ensures path.Some? && Owns(caller, path.value) ==> reply == Found(documents[path.value])
      ensures path.Some? && !Owns(caller, path.value) ==> reply == NotFound
    {
      if path.None? {
        return ServerError;
      }
      var id := path.value;
      if id in documents && documents[id].user == Some(caller) {
        return Found(documents[id]);
      }
      return NotFound;
    }

    /**
     * PATCH `/:id`: not found unless the session is the caller's; refused as a
     * whole when the body names a field outside the allow-list; otherwise the
     * named fields are assigned in order and the session is saved, or the
     * answer is a server error and nothing changes. A `path` that does not
     * cast to an id (`None`) is a server error. The body's keys are distinct,
     * as those of a parsed JSON object are.
     */
    method Patch(caller: UserId, path: Option<SessionId>, body: seq<(string, Value)>, now: Time) returns (reply: Reply)
      requires Valid()
      requires DistinctKeys(body)
      modifies this
      ensures Valid()
      ensures owners == old(owners) && nextId == old(nextId)
      ensures path.None? ==> reply == ServerError && documents == old(documents)
      ensures path.Some? && !old(Owns(caller, path.value)) ==> reply == NotFound && documents == old(documents)
      ensures path.Some? && old(Owns(caller, path.value)) && !AllAllowed(body) ==>
        reply == InvalidUpdates && documents == old(documents)
      ensures path.Some? && old(Owns(caller, path.value)) && AllAllowed(body) ==>
        match Patched(old(documents)[path.value], body, now)
        case None => reply == ServerError && documents == old(documents)
        case Some(e) => reply == Updated(e) && documents == old(documents)[path.value := e]
    {
      if path.None? {
        return ServerError;
      }
      var id := path.value;
      if !(id in documents && documents[id].user == Some(caller)) {
        return NotFound;
      }
      var k := 0;
      while k < |body|
        invariant 0 <= k <= |body|
        invariant forall j :: 0 <= j < k ==> body[j].0 in Allowed
      {
        if body[k].0 !in Allowed {
          return InvalidUpdates;
        }
        k := k + 1;
      }
      var session := Some(documents[id]);
      var i := 0;
      while i < |body|
        invariant 0 <= i <= |body|
        invariant session == AssignAll(documents[id], body[..i], now)
      {
        assert body[..i + 1][..i] == body[..i];
        if session.Some? {
          session := AssignPath(session.value, body[i].0, body[i].1, now);
        }
        i := i + 1;
      }
      assert body[..|body|] == body;
      if session.None? {
        return ServerError;
      }
      var saved := Save(session.value, now);
      if saved.None? {
        return ServerError;
      }
      PatchKeepsOwner(documents[id], body, now);
      documents := documents[id := saved.value];
      reply := Updated(saved.value);
    }

    /**
     * DELETE `/:id`: not found unless the session is the caller's; otherwise
     * the document goes and its id is pulled from the caller's list. A `path`
     * that does not cast to an id (`None`) is a server error.
     */
    method Delete(caller: UserId, path: Option<SessionId>) returns (reply: Reply)
      requires Valid()
      modifies this
      ensures Valid()
      ensures nextId == old(nextId)
      ensures path.None? ==> reply == ServerError && documents == old(documents) && owners == old(owners)
      ensures path.Some? && !old(Owns(caller, path.value)) ==>
        reply == NotFound && documents == old(documents) && owners == old(owners)
      ensures path.Some? && old(Owns(caller, path.value)) ==>
        && reply == Deleted
        && documents == old(documents) - {path.value}
        && owners == (if caller in old(owners) then old(owners)[caller := Without(old(owners)[caller], path.value)]
                      else old(owners))
    {
      if path.None? {
        return ServerError;
      }
      var id := path.value;
      if !(id in documents && documents[id].user == Some(caller)) {
        return NotFound;
      }
      documents := documents - {id};
      if caller in owners {
        owners := owners[caller := Without(owners[caller], id)];
      }
      reply := Deleted;
    }
  }

  /** The string the body gives `key`, or `None` when it gives none. */
  function TextOf(body: map<string, Value>, key: string): (r: Option<string>)
    ensures r.Some? <==> key in body && body[key].Text?
  {
    if key in body && body[key].Text? then Some(body[key].text) else None
  }

  /**
   * A create request without a body (as the session list sends it) is
   * refused: the new document has no topic, level or stage.
   */
  lemma BodilessCreateRefused(id: SessionId, caller: UserId, now: Time)
    ensures Casts(map[])
    ensures !Conforms(NewDocument(id, caller, TextOf(map[], "topic"), TextOf(map[], "level"), TextOf(map[], "stage"), now))
  {
  }

  /** The topic, level and stage a create body gives are strings where given. */
  predicate Casts(body: map<string, Value>) {
    forall key :: key in body && key in ["topic", "level", "stage"] ==> body[key].Text?
  }
}
