/** The interview collection routes (`/api/mock-interview`): `GET` lists
    the caller's interviews, `POST` creates one, `PATCH` appends a message
    and assigns the other given fields. The token check is the `auth`
    parameter (the verified token's user id, or `None`); the request body
    is `Err` with the parser's message when `req.json()` throws. */
module InterviewRoutes {
  import opened JsValues
  import opened MockInterview
  import opened Http

  const IdRequired := "Interview ID is required"
  const NotOwned := "Interview not found or you do not have permission to update it"

  function CreationFailed(message: string): Response
  {
    Failure(400, "interview_creation_failed", message)
  }

  function UpdateFailed(message: string): Response
  {
    Failure(400, "interview_update_failed", message)
  }

  /** The JSON of the records `find(...).lean()` returned, in order. */
  function RecordsJson(rs: seq<Interview>): (items: seq<Value>)
    ensures |items| == |rs|
    ensures forall i :: 0 <= i < |rs| ==> items[i] == Obj(Encode(rs[i]))
  {
    seq(|rs|, i requires 0 <= i < |rs| => Obj(Encode(rs[i])))
  }

  // ---------------------------------------------------------------------
  // GET

  /** `GET(req)`: 401 without a token; otherwise 200 with every record of
      the caller and no other, newest `createdAt` first. Nothing is written. */
  method List(store: InterviewStore, auth: Option<string>) returns (resp: Response, ghost listed: seq<Interview>)
    requires store.Valid()
    ensures auth.None? ==> resp == Unauthorized
    ensures auth.Some? ==>
      && resp == Success(200, Arr(RecordsJson(listed)))
      && NewestFirst(listed) && DistinctIds(listed)
      && forall x :: x in listed <==> x in store.records.Values && x.userId == auth.value
  {
    listed := [];
    if auth.None? {
      return Unauthorized, listed;
    }
    var userID := auth.value;
    var interviews := store.ListByOwner(userID);
    listed := interviews;
    resp := Success(200, Arr(RecordsJson(interviews)));
  }

  // ---------------------------------------------------------------------
  // POST

  /** The paths `new MockInterview({...})` is given: the caller as owner,
      four fields copied from the body, and the notes or "" when they are
      falsy. `id` is the fresh ObjectId the constructor assigns. */
  function CreateFields(owner: string, data: Value, id: string): map<string, Value>
  {
    map[
      "_id" := Str(id),
      "userId" := Str(owner),
      "title" := Get(data, "title"),
      "jobRole" := Get(data, "jobRole"),
      "skills" := Get(data, "skills"),
      "difficulty" := Get(data, "difficulty"),
      "notes" := if Truthy(Get(data, "notes")) then Get(data, "notes") else Str("")]
  }

  /** What `POST` does over the stored records. */
  function CreateSpec(records: map<string, Interview>, auth: Option<string>, body: Result<Value>,
                      id: string, now: int): Outcome
  {
    if auth.None? then Outcome(Unauthorized, None)
    else match body
      case Err(m) => Outcome(CreationFailed(m), None)
      case Ok(data) =>
        if data.Null? || data.Undefined? then Outcome(CreationFailed(ReadOfNothing(data, "title")), None)
        else
          match SaveResult(ApplyDefaults(CreateFields(auth.value, data, id), now), id)
          case Err(m) => Outcome(CreationFailed(m), None)
          case Ok(r) => Outcome(Success(201, Obj(Encode(r))), Some(r))
  }

  /** `POST(req)`. `id` is the new document's ObjectId and `now` the clock
      reading its defaults take. */
  method Create(store: InterviewStore, auth: Option<string>, body: Result<Value>, id: string, now: int)
    returns (resp: Response)
    requires store.Valid()
    requires id !in store.records
    modifies store
    ensures store.Valid()
    ensures var out := CreateSpec(old(store.records), auth, body, id, now);
      resp == out.resp && store.records == Written(old(store.records), out.written)
    ensures resp.Success? ==> store.records.Keys == old(store.records).Keys + {id}
    ensures !resp.Success? ==> store.records == old(store.records)
    ensures forall k :: k in old(store.records) ==> k in store.records && store.records[k] == old(store.records)[k]
  {
    CreateAddsOnlyId(store.records, auth, body, id, now);
    if auth.None? {
      return Unauthorized;
    }
    var userID := auth.value;
    if body.Err? {
      return CreationFailed(body.message);
    }
    var data := body.value;
    if data.Null? || data.Undefined? {
      return CreationFailed(ReadOfNothing(data, "title"));
    }
    var newInterview := new InterviewDoc.New(id, ApplyDefaults(CreateFields(userID, data, id), now));
    var saved := store.Save(newInterview);
    if saved.Err? {
      return CreationFailed(saved.message);
    }
    resp := Success(201, Obj(newInterview.fields));
  }

  /** A fresh id: a `POST` either stores exactly one new record under
      that id and answers 201, or answers an error and stores nothing;
      every record already stored stays as it was. */
  lemma CreateAddsOnlyId(records: map<string, Interview>, auth: Option<string>, body: Result<Value>,
                         id: string, now: int)
    requires id !in records
    ensures var out := CreateSpec(records, auth, body, id, now);
      var after := Written(records, out.written);
      && (out.resp.Success? <==> out.written.Some?)
      && (out.resp.Success? ==>
            out.resp.status == 201 && out.written.value.id == id && after.Keys == records.Keys + {id})
      && (!out.resp.Success? ==> after == records)
      && forall k :: k in records ==> k in after && after[k] == records[k]
  {
    var out := CreateSpec(records, auth, body, id, now);
    CreateWritesId(records, auth, body, id, now);
    WrittenFresh(records, out.written, id);
  }

  lemma CreateWritesId(records: map<string, Interview>, auth: Option<string>, body: Result<Value>,
                       id: string, now: int)
    ensures var out := CreateSpec(records, auth, body, id, now);
      && (out.resp.Success? <==> out.written.Some?)
      && (out.resp.Success? ==> out.resp.status == 201 && out.written.value.id == id)
  {
  }

  /** Writing a record under a fresh id adds that key and keeps the rest. */
  lemma WrittenFresh(records: map<string, Interview>, written: Option<Interview>, id: string)
    requires written.Some? ==> written.value.id == id && id !in records
    ensures var after := Written(records, written);
      && (written.Some? ==> after.Keys == records.Keys + {id})
      && (written.None? ==> after == records)
      && forall k :: k in records ==> k in after && after[k] == records[k]
  {
  }

  /** The schema paths of the constructed document, defaults applied. */
  function CreatedPaths(owner: string, data: Value, id: string, now: int): PathValues
  {
    PathValues(Str(id), Str(owner), Get(data, "title"), Get(data, "jobRole"),
      if Get(data, "skills").Undefined? then Arr([]) else Get(data, "skills"),
      Get(data, "difficulty"), Str("pending"),
      if Truthy(Get(data, "notes")) then Get(data, "notes") else Str(""),
      Arr([]), Num(now))
  }

  lemma PathsOfCreate(owner: string, data: Value, id: string, now: int)
    ensures Paths(ApplyDefaults(CreateFields(owner, data, id), now)) == CreatedPaths(owner, data, id, now)
  {
    PathsOfFields(owner, data, id);
    PathsOfDefaults(CreateFields(owner, data, id), now);
  }

  /** The paths the constructor is given; the defaulted ones are absent. */
  lemma PathsOfFields(owner: string, data: Value, id: string)
    ensures Paths(CreateFields(owner, data, id)) == PathValues(Str(id), Str(owner), Get(data, "title"),
      Get(data, "jobRole"), Get(data, "skills"), Get(data, "difficulty"), Undefined,
      if Truthy(Get(data, "notes")) then Get(data, "notes") else Str(""), Undefined, Undefined)
  {
  }

  /** A body with a non-empty title and role, string skills, a valid
      difficulty and string notes creates exactly that interview: pending,
      with no conversation, owned by the caller, created now. */
  lemma CreateStoresBody(owner: string, data: Value, id: string, now: int, title: string, jobRole: string,
                         skills: seq<string>, difficulty: Difficulty, notes: string)
    requires owner != "" && id != "" && title != "" && jobRole != ""
    requires Get(data, "title") == Str(title) && Get(data, "jobRole") == Str(jobRole)
    requires Get(data, "skills") == Arr(EncodeStrings(skills))
    requires Get(data, "difficulty") == Str(DifficultyName(difficulty)) && Get(data, "notes") == Str(notes)
    ensures SaveResult(ApplyDefaults(CreateFields(owner, data, id), now), id)
      == Ok(Interview(id, owner, title, jobRole, skills, difficulty, Some(Pending), Some(notes), [], now))
  {
    var r := Interview(id, owner, title, jobRole, skills, difficulty, Some(Pending), Some(notes), [], now);
    PathsOfCreate(owner, data, id, now);
    assert EncodeTurns([]) == [];
    assert CreatedPaths(owner, data, id, now) == EncodePaths(r);
    DecodeEncodePaths(r);
  }

  /** Whatever the body holds, a created interview is the caller's, is
      pending, has no conversation and was created now; falsy notes are
      stored as "". */
  lemma CreatedFresh(owner: string, data: Value, id: string, now: int)
    requires SaveResult(ApplyDefaults(CreateFields(owner, data, id), now), id).Ok?
    ensures var r := SaveResult(ApplyDefaults(CreateFields(owner, data, id), now), id).value;
      && r.id == id && r.userId == owner && r.status == Some(Pending)
      && r.conversation == [] && r.createdAt == now
      && (!Truthy(Get(data, "notes")) ==> r.notes == Some(""))
  {
    PathsOfCreate(owner, data, id, now);
    var r := SaveResult(ApplyDefaults(CreateFields(owner, data, id), now), id).value;
    assert DecodedAs(CreatedPaths(owner, data, id, now), r);
    assert ParseStatus("pending") == Some(Pending);
  }

  /** A body without a title fails validation and nothing is written. */
  lemma CreateNeedsTitle(records: map<string, Interview>, owner: string, data: Value, id: string, now: int)
    requires data.Obj? && !RequiredString(Get(data, "title"))
    ensures CreateSpec(records, Some(owner), Ok(data), id, now) == Outcome(CreationFailed(ValidationFailed), None)
  {
    PathsOfCreate(owner, data, id, now);
    var p := CreatedPaths(owner, data, id, now);
    assert !RequiredString(p.title);
    assert SaveResult(ApplyDefaults(CreateFields(owner, data, id), now), id) == Err(ValidationFailed);
  }

  // ---------------------------------------------------------------------
  // PATCH

  /** The document's paths once the update is applied: a truthy
      `newMessage` is pushed as `{ role, content }` and dropped from the
      update; then every remaining key is assigned as it is. */
  function PatchFields(base: map<string, Value>, update: map<string, Value>): map<string, Value>
    requires Path(base, "conversation").Arr?
  {
    var message := Get(Obj(update), "newMessage");
    if Truthy(message) then WithTurn(base, Get(message, "role"), Get(message, "content")) + (update - {"newMessage"})
    else base + update
  }

  /** What `PATCH` does over the stored records. */
  function PatchSpec(records: map<string, Interview>, auth: Option<string>, body: Result<Value>): Outcome
  {
    if auth.None? then Outcome(Unauthorized, None)
    else match body
      case Err(m) => Outcome(UpdateFailed(m), None)
      case Ok(data) =>
        if data.Null? || data.Undefined? then Outcome(UpdateFailed(DestructureOfNothing(data, "id", "data")), None)
        else if !Truthy(Get(data, "id")) then Outcome(Failure(400, "invalid_request", IdRequired), None)
        else
          match Lookup(records, Get(data, "id"), auth.value)
          case None => Outcome(Failure(404, "not_found", NotOwned), None)
          case Some(r) =>
            match SaveResult(PatchFields(Encode(r), data.fields - {"id"}), r.id)
            case Err(m) => Outcome(UpdateFailed(m), None)
            case Ok(w) => Outcome(Success(200, Obj(Encode(w))), Some(w))
  }

  /** `Object.keys(updateData).forEach(key => { interview[key] = updateData[key]; })`. */
  method AssignAll(interview: InterviewDoc, updateData: map<string, Value>)
    modifies interview
    ensures interview.fields == old(interview.fields) + updateData
  {
    var keys := updateData.Keys;
    while keys != {}
      invariant keys <= updateData.Keys
      invariant interview.fields == old(interview.fields) + Restrict(updateData, updateData.Keys - keys)
      decreases keys
    {
      var key :| key in keys;
      AssignOneMore(old(interview.fields), updateData, updateData.Keys - keys, key);
      interview.Set(key, updateData[key]);
      keys := keys - {key};
    }
    assert Restrict(updateData, updateData.Keys) == updateData;
  }

  /** The entries of `m` whose keys are in `keys`. */
  function Restrict(m: map<string, Value>, keys: set<string>): (r: map<string, Value>)
    requires keys <= m.Keys
    ensures r.Keys == keys
    ensures forall k :: k in keys ==> r[k] == m[k]
  {
    map k | k in keys :: m[k]
  }

  lemma AssignOneMore(base: map<string, Value>, m: map<string, Value>, done: set<string>, key: string)
    requires done <= m.Keys && key in m.Keys
    ensures (base + Restrict(m, done))[key := m[key]] == base + Restrict(m, done + {key})
  {
  }

  /** `PATCH(req)`. */
  method Patch(store: InterviewStore, auth: Option<string>, body: Result<Value>) returns (resp: Response)
    requires store.Valid()
    modifies store
    ensures store.Valid()
    ensures var out := PatchSpec(old(store.records), auth, body);
      resp == out.resp && store.records == Written(old(store.records), out.written)
  {
    if auth.None? {
      return Unauthorized;
    }
    var userID := auth.value;
    if body.Err? {
      return UpdateFailed(body.message);
    }
    var data := body.value;
    if data.Null? || data.Undefined? {
      return UpdateFailed(DestructureOfNothing(data, "id", "data"));
    }
    var id := Get(data, "id");
    if !Truthy(id) {
      return Failure(400, "invalid_request", IdRequired);
    }
    var updateData := data.fields - {"id"};

    var found := store.FindOwned(id, userID);
    if found.None? {
      return Failure(404, "not_found", NotOwned);
    }
    var interview := PatchedDoc(found.value, updateData);
    var saved := store.Save(interview);
    if saved.Err? {
      return UpdateFailed(saved.message);
    }
    resp := Success(200, Obj(interview.fields));
  }

  /** Lines 99-116 of the handler: the loaded document of `r` with the
      message pushed and the other keys assigned. */
  method PatchedDoc(r: Interview, updateData: map<string, Value>) returns (interview: InterviewDoc)
    ensures fresh(interview)
    ensures interview.id == r.id && interview.fields == PatchFields(Encode(r), updateData)
  {
    interview := new InterviewDoc.Load(r);
    var update := updateData;
    var message := Get(Obj(update), "newMessage");
    if Truthy(message) {
      var role := Get(message, "role");
      var content := Get(message, "content");
      interview.PushTurn(role, content);
      update := update - {"newMessage"};
    }
    AssignAll(interview, update);
  }

  /** Without an id: 400 `invalid_request`, before any lookup, no write. */
  lemma PatchNeedsId(records: map<string, Interview>, owner: string, data: Value)
    requires data.Obj? && !Truthy(Get(data, "id"))
    ensures PatchSpec(records, Some(owner), Ok(data)) == Outcome(Failure(400, "invalid_request", IdRequired), None)
  {
  }

  /** Another user's interview, or a missing one: 404 and no write. */
  lemma PatchNotOwned(records: map<string, Interview>, owner: string, data: Value)
    requires data.Obj? && Truthy(Get(data, "id"))
    requires !(Get(data, "id").Str? && Get(data, "id").s in records && records[Get(data, "id").s].userId == owner)
    ensures PatchSpec(records, Some(owner), Ok(data)) == Outcome(Failure(404, "not_found", NotOwned), None)
  {
  }

  /** There is no whitelist: every key of the update other than a truthy
      `newMessage` overwrites the path of that name, and only those change,
      apart from the conversation the message is pushed onto. */
  lemma PatchAssignsEveryKey(base: map<string, Value>, update: map<string, Value>, key: string)
    requires Path(base, "conversation").Arr?
    ensures var message := Get(Obj(update), "newMessage");
      var f := PatchFields(base, update);
      && (key in update && !(key == "newMessage" && Truthy(message)) ==> Path(f, key) == update[key])
      && (key !in update && !(key == "conversation" && Truthy(message)) ==> Path(f, key) == Path(base, key))
      && (Truthy(message) && "newMessage" !in base ==> "newMessage" !in f)
  {
  }

  /** So a `conversation` key in the same update replaces the array the
      message was just pushed onto: the message is lost. */
  lemma ConversationKeyDiscardsMessage(base: map<string, Value>, update: map<string, Value>)
    requires Path(base, "conversation").Arr?
    requires "conversation" in update
    ensures Path(PatchFields(base, update), "conversation") == update["conversation"]
  {
  }

  /** An update holding only a message appends exactly that turn at the
      end of the stored conversation, or fails validation and writes nothing. */
  lemma PatchAppendsMessage(r: Interview, role: Role, content: Value)
    requires WellFormed(r)
    ensures var update := map["newMessage" := TurnObject(Str(RoleName(role)), content)];
      SaveResult(PatchFields(Encode(r), update), r.id)
      == if RequiredString(content)
         then Ok(r.(conversation := r.conversation + [Turn(role, CastString(content).value)]))
         else Err(ValidationFailed)
  {
    var message := TurnObject(Str(RoleName(role)), content);
    PatchOnlyMessage(Encode(r), message);
    assert Get(message, "role") == Str(RoleName(role)) && Get(message, "content") == content;
    SaveWithTurn(r, role, content);
  }

  lemma PatchOnlyMessage(base: map<string, Value>, message: Value)
    requires Path(base, "conversation").Arr? && Truthy(message)
    ensures PatchFields(base, map["newMessage" := message])
      == WithTurn(base, Get(message, "role"), Get(message, "content"))
  {
    var update := map["newMessage" := message];
    assert update - {"newMessage"} == map[];
  }

  /** An update holding only a status sets it when it is one of the
      enumeration's names (or null), and fails validation otherwise. */
  lemma PatchSetsStatus(r: Interview, v: Value)
    requires WellFormed(r)
    ensures SaveResult(PatchFields(Encode(r), map["status" := v]), r.id)
      == match DecodeStatus(v)
         case Some(st) => Ok(r.(status := st))
         case None => Err(ValidationFailed)
  {
    assert Encode(r) + map["status" := v] == Encode(r)["status" := v];
    DecodeWithStatus(r, v);
  }
}
