/** The MockInterview collection: its schema (enumerations, required paths,
    defaults), the stored record, the Mongoose document a route loads and
    mutates, and the store that `findOne`, `find` and `save` act on.

    A document is the plain field map a route reads and assigns
    (`interview.status = ...`, `interview.conversation.push(...)`); saving
    it validates and casts every schema path, which is `Decode` below. */
module MockInterview {
  import opened JsValues

  datatype Difficulty = Beginner | Intermediate | Advanced
  datatype Status = Pending | Completed | Canceled
  datatype Role = User | Assistant

  function DifficultyName(d: Difficulty): string
  {
    match d
    case Beginner => "Beginner"
    case Intermediate => "Intermediate"
    case Advanced => "Advanced"
  }

  /** The `enum` validator of the difficulty path (case-sensitive). */
  function ParseDifficulty(s: string): (r: Option<Difficulty>)
    ensures r.Some? ==> DifficultyName(r.value) == s
    ensures r.None? ==> forall d :: DifficultyName(d) != s
  {
    if s == "Beginner" then Some(Beginner)
    else if s == "Intermediate" then Some(Intermediate)
    else if s == "Advanced" then Some(Advanced)
    else None
  }

  function StatusName(st: Status): string
  {
    match st
    case Pending => "pending"
    case Completed => "completed"
    case Canceled => "canceled"
  }

  function ParseStatus(s: string): (r: Option<Status>)
    ensures r.Some? ==> StatusName(r.value) == s
    ensures r.None? ==> forall st :: StatusName(st) != s
  {
    if s == "pending" then Some(Pending)
    else if s == "completed" then Some(Completed)
    else if s == "canceled" then Some(Canceled)
    else None
  }

  function RoleName(role: Role): string
  {
    match role
    case User => "user"
    case Assistant => "assistant"
  }

  function ParseRole(s: string): (r: Option<Role>)
    ensures r.Some? ==> RoleName(r.value) == s
    ensures r.None? ==> forall role :: RoleName(role) != s
  {
    if s == "user" then Some(User)
    else if s == "assistant" then Some(Assistant)
    else None
  }

  /** One conversation entry as stored (the per-entry timestamp is not modelled). */
  datatype Turn = Turn(role: Role, content: string)

  /** A stored interview. `status` is `None` when the path holds `null`
      (an `enum` path that is not `required` accepts it); `notes` is optional. */
  datatype Interview = Interview(
    id: string,
    userId: string,
    title: string,
    jobRole: string,
    skills: seq<string>,
    difficulty: Difficulty,
    status: Option<Status>,
    notes: Option<string>,
    conversation: seq<Turn>,
    createdAt: int)

  /** What the schema's `required` rules leave possible for a stored record. */
  predicate WellFormed(r: Interview)
  {
    && r.id != "" && r.userId != "" && r.title != "" && r.jobRole != ""
    && forall i :: 0 <= i < |r.conversation| ==> r.conversation[i].content != ""
  }

  // ---------------------------------------------------------------------
  // Document encoding

  /** The object `{ role, content }` pushed onto `conversation`. */
  function TurnObject(role: Value, content: Value): Value
  {
    Obj(map["role" := role, "content" := content])
  }

  function EncodeTurn(t: Turn): Value
  {
    TurnObject(Str(RoleName(t.role)), Str(t.content))
  }

  function EncodeTurns(ts: seq<Turn>): seq<Value>
  {
    seq(|ts|, i requires 0 <= i < |ts| => EncodeTurn(ts[i]))
  }

  function EncodeStrings(ss: seq<string>): seq<Value>
  {
    seq(|ss|, i requires 0 <= i < |ss| => Str(ss[i]))
  }

  function EncodeStatus(st: Option<Status>): Value
  {
    if st.Some? then Str(StatusName(st.value)) else Null
  }

  /** The document paths of a stored record. */
  function Encode(r: Interview): map<string, Value>
  {
    var base := map[
      "_id" := Str(r.id),
      "userId" := Str(r.userId),
      "title" := Str(r.title),
      "jobRole" := Str(r.jobRole),
      "skills" := Arr(EncodeStrings(r.skills)),
      "difficulty" := Str(DifficultyName(r.difficulty)),
      "status" := EncodeStatus(r.status),
      "conversation" := Arr(EncodeTurns(r.conversation)),
      "createdAt" := Num(r.createdAt)];
    if r.notes.Some? then base["notes" := Str(r.notes.value)] else base
  }

  // ---------------------------------------------------------------------
  // Validation and casting on save

  function Path(fields: map<string, Value>, key: string): Value
  {
    if key in fields then fields[key] else Undefined
  }

  /** A conversation entry: `role` is required and one of the two roles,
      `content` is a required String. */
  function DecodeTurn(v: Value): (r: Option<Turn>)
    ensures r.Some? ==> r.value.content != ""
  {
    if !v.Obj? || !RequiredString(Get(v, "content")) then None
    else match CastString(Get(v, "role"))
      case None => None
      case Some(s) =>
        match ParseRole(s)
        case None => None
        case Some(role) => Some(Turn(role, CastString(Get(v, "content")).value))
  }

  /** Casts every entry; one invalid entry fails the whole array. */
  function DecodeTurns(items: seq<Value>): (r: Option<seq<Turn>>)
    ensures r.Some? ==> |r.value| == |items|
    ensures r.Some? ==> forall i :: 0 <= i < |items| ==> DecodeTurn(items[i]) == Some(r.value[i])
    ensures r.None? ==> exists i :: 0 <= i < |items| && DecodeTurn(items[i]).None?
  {
    if items == [] then Some([])
    else
      var n := |items| - 1;
      match DecodeTurns(items[..n])
      case None => None
      case Some(ts) =>
        match DecodeTurn(items[n])
        case None => None
        case Some(t) => Some(ts + [t])
  }

  function DecodeStrings(items: seq<Value>): (r: Option<seq<string>>)
    ensures r.Some? ==> |r.value| == |items|
    ensures r.Some? ==> forall i :: 0 <= i < |items| ==> CastString(items[i]) == Some(r.value[i])
    ensures r.None? ==> exists i :: 0 <= i < |items| && CastString(items[i]).None?
  {
    if items == [] then Some([])
    else
      var n := |items| - 1;
      match DecodeStrings(items[..n])
      case None => None
      case Some(ss) =>
        match CastString(items[n])
        case None => None
        case Some(s) => Some(ss + [s])
  }

  function DecodeDifficulty(v: Value): Option<Difficulty>
  {
    match CastString(v)
    case None => None
    case Some(s) => ParseDifficulty(s)
  }

  /** Outer `None`: the value fails the enum; `Some(None)`: the path is null or unset. */
  function DecodeStatus(v: Value): Option<Option<Status>>
  {
    if v.Undefined? || v.Null? then Some(None)
    else match CastString(v)
      case None => None
      case Some(s) =>
        match ParseStatus(s)
        case None => None
        case Some(st) => Some(Some(st))
  }

  function DecodeNotes(v: Value): Option<Option<string>>
  {
    if v.Undefined? || v.Null? then Some(None)
    else match CastString(v)
      case None => None
      case Some(s) => Some(Some(s))
  }

  /** The values of the schema paths of a document, in schema order. */
  datatype PathValues = PathValues(
    id: Value, userId: Value, title: Value, jobRole: Value, skills: Value,
    difficulty: Value, status: Value, notes: Value, conversation: Value, createdAt: Value)

  function Paths(f: map<string, Value>): PathValues
  {
    PathValues(Path(f, "_id"), Path(f, "userId"), Path(f, "title"), Path(f, "jobRole"), Path(f, "skills"),
      Path(f, "difficulty"), Path(f, "status"), Path(f, "notes"), Path(f, "conversation"), Path(f, "createdAt"))
  }

  /** Every path casts, and `r` holds the cast values. */
  predicate DecodedAs(p: PathValues, r: Interview)
  {
    && RequiredString(p.id) && CastString(p.id) == Some(r.id)
    && RequiredString(p.userId) && CastString(p.userId) == Some(r.userId)
    && RequiredString(p.title) && CastString(p.title) == Some(r.title)
    && RequiredString(p.jobRole) && CastString(p.jobRole) == Some(r.jobRole)
    && p.skills.Arr? && DecodeStrings(p.skills.items) == Some(r.skills)
    && DecodeDifficulty(p.difficulty) == Some(r.difficulty)
    && DecodeStatus(p.status) == Some(r.status)
    && DecodeNotes(p.notes) == Some(r.notes)
    && p.conversation.Arr? && DecodeTurns(p.conversation.items) == Some(r.conversation)
    && p.createdAt == Num(r.createdAt)
  }

  /** The validation of every schema path and the cast record: it succeeds
      exactly when each path casts, and then holds the cast values. */
  function DecodePaths(p: PathValues): (r: Option<Interview>)
    ensures r.Some? ==> WellFormed(r.value) && DecodedAs(p, r.value)
    ensures forall x :: DecodedAs(p, x) ==> r == Some(x)
  {
    if !RequiredString(p.id) || !RequiredString(p.userId) || !RequiredString(p.title) || !RequiredString(p.jobRole)
      || !p.skills.Arr? || !p.conversation.Arr? || !p.createdAt.Num?
    then None
    else
      var skills :- DecodeStrings(p.skills.items);
      var difficulty :- DecodeDifficulty(p.difficulty);
      var status :- DecodeStatus(p.status);
      var notes :- DecodeNotes(p.notes);
      var conversation :- DecodeTurns(p.conversation.items);
      Some(Interview(
        CastString(p.id).value, CastString(p.userId).value, CastString(p.title).value, CastString(p.jobRole).value,
        skills, difficulty, status, notes, conversation, p.createdAt.n))
  }

  /** Validation and casting of a document on `save()`: `None` is a
      ValidationError or CastError. Paths outside the schema are ignored. */
  function Decode(f: map<string, Value>): (r: Option<Interview>)
    ensures r.Some? ==> WellFormed(r.value)
  {
    DecodePaths(Paths(f))
  }

  /** A path default: applied only where the path is unset. */
  function WithDefault(f: map<string, Value>, key: string, v: Value): (d: map<string, Value>)
    ensures Path(d, key) == (if Path(f, key).Undefined? then v else Path(f, key))
    ensures forall k :: k != key ==> Path(d, k) == Path(f, k)
  {
    if Path(f, key).Undefined? then f[key := v] else f
  }

  /** The schema defaults applied when a document is constructed: the
      array paths `skills` and `conversation` are empty, `status` is
      "pending" and `createdAt` is now; every other path is left alone. */
  function ApplyDefaults(f: map<string, Value>, now: int): (d: map<string, Value>)
    ensures Path(d, "skills") == (if Path(f, "skills").Undefined? then Arr([]) else Path(f, "skills"))
    ensures Path(d, "status") == (if Path(f, "status").Undefined? then Str("pending") else Path(f, "status"))
    ensures Path(d, "conversation") == (if Path(f, "conversation").Undefined? then Arr([]) else Path(f, "conversation"))
    ensures Path(d, "createdAt") == (if Path(f, "createdAt").Undefined? then Num(now) else Path(f, "createdAt"))
    ensures forall k :: k != "skills" && k != "status" && k != "conversation" && k != "createdAt" ==> Path(d, k) == Path(f, k)
  {
    var d1 := WithDefault(f, "skills", Arr([]));
    var d2 := WithDefault(d1, "status", Str("pending"));
    var d3 := WithDefault(d2, "conversation", Arr([]));
    WithDefault(d3, "createdAt", Num(now))
  }

  /** The schema paths after the defaults, path by path. */
  lemma PathsOfDefaults(f: map<string, Value>, now: int)
    ensures var p := Paths(f);
      Paths(ApplyDefaults(f, now)) == p.(
        skills := if p.skills.Undefined? then Arr([]) else p.skills,
        status := if p.status.Undefined? then Str("pending") else p.status,
        conversation := if p.conversation.Undefined? then Arr([]) else p.conversation,
        createdAt := if p.createdAt.Undefined? then Num(now) else p.createdAt)
  {
  }

  // ---------------------------------------------------------------------
  // Round trips

  lemma {:induction false} DecodeEncodeStrings(ss: seq<string>)
    ensures DecodeStrings(EncodeStrings(ss)) == Some(ss)
  {
    if ss != [] {
      var n := |ss| - 1;
      assert EncodeStrings(ss)[..n] == EncodeStrings(ss[..n]);
      DecodeEncodeStrings(ss[..n]);
      assert ss[..n] + [ss[n]] == ss;
    }
  }

  lemma {:induction false} DecodeEncodeTurns(ts: seq<Turn>)
    requires forall i :: 0 <= i < |ts| ==> ts[i].content != ""
    ensures DecodeTurns(EncodeTurns(ts)) == Some(ts)
  {
    if ts != [] {
      var n := |ts| - 1;
      assert EncodeTurns(ts)[..n] == EncodeTurns(ts[..n]);
      DecodeEncodeTurns(ts[..n]);
      DecodeEncodeTurn(ts[n]);
      assert ts[..n] + [ts[n]] == ts;
    }
  }

  lemma DecodeEncodeTurn(t: Turn)
    requires t.content != ""
    ensures DecodeTurn(EncodeTurn(t)) == Some(t)
  {
    DecodePushedTurn(t.role, Str(t.content));
  }

  /** Appending one entry to the array appends its cast, or fails the save. */
  lemma DecodeTurnsSnoc(items: seq<Value>, x: Value)
    ensures DecodeTurns(items + [x]) ==
      match (DecodeTurns(items), DecodeTurn(x))
      case (Some(ts), Some(t)) => Some(ts + [t])
      case _ => None
  {
    assert (items + [x])[..|items|] == items;
  }

  function EncodePaths(r: Interview): PathValues
  {
    PathValues(Str(r.id), Str(r.userId), Str(r.title), Str(r.jobRole), Arr(EncodeStrings(r.skills)),
      Str(DifficultyName(r.difficulty)), EncodeStatus(r.status), if r.notes.Some? then Str(r.notes.value) else Undefined,
      Arr(EncodeTurns(r.conversation)), Num(r.createdAt))
  }

  /** A stored record's document holds the nine schema paths that always
      have a value, and `notes` exactly when the record has notes. */
  lemma EncodeKeys(r: Interview)
    ensures Encode(r).Keys == {"_id", "userId", "title", "jobRole", "skills", "difficulty", "status",
                               "conversation", "createdAt"} + (if r.notes.Some? then {"notes"} else {})
  {
  }

  lemma PathsOfEncode(r: Interview)
    ensures Paths(Encode(r)) == EncodePaths(r)
  {
  }

  lemma PathsSetConversation(f: map<string, Value>, v: Value)
    ensures Paths(f["conversation" := v]) == Paths(f).(conversation := v)
  {
  }

  lemma PathsSetStatus(f: map<string, Value>, v: Value)
    ensures Paths(f["status" := v]) == Paths(f).(status := v)
  {
  }

  /** Each encoded schema path casts back to the record's own value. */
  lemma DecodeEncodeComponents(r: Interview)
    requires WellFormed(r)
    ensures DecodeStrings(EncodeStrings(r.skills)) == Some(r.skills)
    ensures DecodeTurns(EncodeTurns(r.conversation)) == Some(r.conversation)
    ensures DecodeDifficulty(Str(DifficultyName(r.difficulty))) == Some(r.difficulty)
    ensures DecodeStatus(EncodeStatus(r.status)) == Some(r.status)
    ensures DecodeNotes(EncodePaths(r).notes) == Some(r.notes)
  {
    DecodeEncodeStrings(r.skills);
    DecodeEncodeTurns(r.conversation);
    DecodeEncodeChoices(r);
  }

  lemma DecodeEncodeChoices(r: Interview)
    requires WellFormed(r)
    ensures DecodeDifficulty(Str(DifficultyName(r.difficulty))) == Some(r.difficulty)
    ensures DecodeStatus(EncodeStatus(r.status)) == Some(r.status)
    ensures DecodeNotes(EncodePaths(r).notes) == Some(r.notes)
  {
    assert ParseDifficulty(DifficultyName(r.difficulty)) == Some(r.difficulty);
    if r.status.Some? {
      assert ParseStatus(StatusName(r.status.value)) == Some(r.status.value);
    }
  }

  lemma DecodeEncodePaths(r: Interview)
    requires WellFormed(r)
    ensures DecodePaths(EncodePaths(r)) == Some(r)
  {
    DecodeEncodeComponents(r);
  }

  /** The stored record survives a save of its own document unchanged:
      the durable shape round-trips losslessly. */
  lemma DecodeEncode(r: Interview)
    requires WellFormed(r)
    ensures Decode(Encode(r)) == Some(r)
  {
    PathsOfEncode(r);
    DecodeEncodePaths(r);
  }

  /** The schema paths of a stored record with the conversation array and
      the status path replaced: the cast keeps every other path, and fails
      exactly when one of the two new values fails. */
  lemma DecodeEdited(r: Interview, items: seq<Value>, v: Value)
    requires WellFormed(r)
    ensures DecodePaths(EncodePaths(r).(conversation := Arr(items), status := v)) ==
      match (DecodeStatus(v), DecodeTurns(items))
      case (Some(st), Some(ts)) => Some(r.(status := st, conversation := ts))
      case _ => None
  {
    var p := EncodePaths(r).(conversation := Arr(items), status := v);
    DecodeEncodeComponents(r);
    assert DecodeNotes(p.notes) == Some(r.notes);
  }

  /** Replacing the conversation array of a stored record's document: the
      save keeps every other path and stores the cast entries, or fails. */
  lemma DecodeWithConversation(r: Interview, items: seq<Value>)
    requires WellFormed(r)
    ensures Decode(Encode(r)["conversation" := Arr(items)]) ==
      match DecodeTurns(items)
      case Some(ts) => Some(r.(conversation := ts))
      case None => None
  {
    PathsOfEncode(r);
    PathsSetConversation(Encode(r), Arr(items));
    DecodeEdited(r, items, EncodeStatus(r.status));
    DecodeEncodeComponents(r);
  }

  /** Assigning the status path of a stored record's document. */
  lemma DecodeWithStatus(r: Interview, v: Value)
    requires WellFormed(r)
    ensures Decode(Encode(r)["status" := v]) ==
      match DecodeStatus(v)
      case Some(st) => Some(r.(status := st))
      case None => None
  {
    PathsOfEncode(r);
    PathsSetStatus(Encode(r), v);
    DecodeEdited(r, EncodeTurns(r.conversation), v);
    DecodeEncodeComponents(r);
  }

  /** A document's paths after `conversation.push({ role, content })`. */
  function WithTurn(fields: map<string, Value>, role: Value, content: Value): (f: map<string, Value>)
    requires Path(fields, "conversation").Arr?
    ensures Path(f, "conversation").Arr?
    ensures Path(f, "conversation").items == Path(fields, "conversation").items + [TurnObject(role, content)]
    ensures f.Keys == fields.Keys
    ensures forall k :: k in fields && k != "conversation" ==> f[k] == fields[k]
  {
    fields["conversation" := Arr(fields["conversation"].items + [TurnObject(role, content)])]
  }

  /** A pushed `{ role, content }` entry casts to a turn exactly when its
      content is a non-empty String cast. */
  lemma DecodePushedTurn(role: Role, content: Value)
    ensures DecodeTurn(TurnObject(Str(RoleName(role)), content)) ==
      if RequiredString(content) then Some(Turn(role, CastString(content).value)) else None
  {
    var v := TurnObject(Str(RoleName(role)), content);
    assert Get(v, "role") == Str(RoleName(role));
    assert Get(v, "content") == content;
    assert ParseRole(RoleName(role)) == Some(role);
  }

  /** Saving a stored record's document after one push: the record gains
      exactly that turn at the end, or the save fails validation and nothing
      is written. */
  lemma SaveWithTurn(r: Interview, role: Role, content: Value)
    requires WellFormed(r)
    ensures SaveResult(WithTurn(Encode(r), Str(RoleName(role)), content), r.id) ==
      if RequiredString(content)
      then Ok(r.(conversation := r.conversation + [Turn(role, CastString(content).value)]))
      else Err(ValidationFailed)
  {
    var obj := TurnObject(Str(RoleName(role)), content);
    var items := EncodeTurns(r.conversation) + [obj];
    assert WithTurn(Encode(r), Str(RoleName(role)), content) == Encode(r)["conversation" := Arr(items)];
    DecodeWithConversation(r, items);
    DecodeTurnsSnoc(EncodeTurns(r.conversation), obj);
    DecodeEncodeTurns(r.conversation);
    DecodePushedTurn(role, content);
  }

  /** The same, with the status path then assigned "completed". */
  lemma SaveWithTurnCompleted(r: Interview, role: Role, content: Value)
    requires WellFormed(r)
    ensures SaveResult(WithTurn(Encode(r), Str(RoleName(role)), content)["status" := Str("completed")], r.id) ==
      if RequiredString(content)
      then Ok(r.(conversation := r.conversation + [Turn(role, CastString(content).value)], status := Some(Completed)))
      else Err(ValidationFailed)
  {
    var obj := TurnObject(Str(RoleName(role)), content);
    var items := EncodeTurns(r.conversation) + [obj];
    assert WithTurn(Encode(r), Str(RoleName(role)), content) == Encode(r)["conversation" := Arr(items)];
    DecodeWithConversationCompleted(r, items);
    DecodeTurnsSnoc(EncodeTurns(r.conversation), obj);
    DecodeEncodeTurns(r.conversation);
    DecodePushedTurn(role, content);
  }

  /** Replacing the conversation array and assigning "completed" to the
      status path: the save stores both, or fails on the entries. */
  lemma DecodeWithConversationCompleted(r: Interview, items: seq<Value>)
    requires WellFormed(r)
    ensures Decode(Encode(r)["conversation" := Arr(items)]["status" := Str("completed")]) ==
      match DecodeTurns(items)
      case Some(ts) => Some(r.(conversation := ts, status := Some(Completed)))
      case None => None
  {
    PathsOfEncode(r);
    PathsSetConversation(Encode(r), Arr(items));
    PathsSetStatus(Encode(r)["conversation" := Arr(items)], Str("completed"));
    DecodeEdited(r, items, Str("completed"));
    assert DecodeStatus(Str("completed")) == Some(Some(Completed));
  }

  /** `findOne({ _id: id, userId: owner })` over the stored records: the
      ownership test is part of the query, so another user's record is not
      found. */
  function Lookup(records: map<string, Interview>, id: Value, owner: string): (r: Option<Interview>)
    ensures r.Some? <==> id.Str? && id.s in records && records[id.s].userId == owner
    ensures r.Some? ==> r.value == records[id.s]
  {
    if id.Str? && id.s in records && records[id.s].userId == owner then Some(records[id.s]) else None
  }

  // ---------------------------------------------------------------------
  // The loaded document and the store

  /** A document returned by `findOne`: the route pushes onto its
      conversation and assigns its paths in place before `save()`. */
  class InterviewDoc {
    const id: string
    var fields: map<string, Value>

    constructor Load(r: Interview)
      ensures id == r.id && fields == Encode(r)
    {
      id := r.id;
      fields := Encode(r);
    }

    constructor New(newId: string, f: map<string, Value>)
      ensures id == newId && fields == f
    {
      id := newId;
      fields := f;
    }

    /** `interview.conversation.push({ role, content })`. */
    method PushTurn(role: Value, content: Value)
      requires Path(fields, "conversation").Arr?
      modifies this
      ensures fields == WithTurn(old(fields), role, content)
    {
      fields := fields["conversation" := Arr(fields["conversation"].items + [TurnObject(role, content)])];
    }

    /** `interview[key] = value`. */
    method Set(key: string, v: Value)
      modifies this
      ensures fields == old(fields)[key := v]
    {
      fields := fields[key := v];
    }
  }

  const ValidationFailed := "MockInterview validation failed"
  const ImmutableId := "Performing an update on the path '_id' would modify the immutable field '_id'"

  /** What `save()` of a document loaded (or created) under `id` does. */
  function SaveResult(fields: map<string, Value>, id: string): (r: Result<Interview>)
    ensures r.Ok? ==> r.value.id == id && WellFormed(r.value) && Decode(fields) == Some(r.value)
    ensures r.Err? ==> Decode(fields).None? || Decode(fields).value.id != id
  {
    match Decode(fields)
    case None => Err(ValidationFailed)
    case Some(r) => if r.id != id then Err(ImmutableId) else Ok(r)
  }

  /** Newest `createdAt` first. */
  predicate NewestFirst(rs: seq<Interview>)
  {
    forall i, j :: 0 <= i < j < |rs| ==> rs[i].createdAt >= rs[j].createdAt
  }

  predicate DistinctIds(rs: seq<Interview>)
  {
    forall i, j :: 0 <= i < j < |rs| ==> rs[i].id != rs[j].id
  }

  /** Places a record before the first one that is older. */
  function InsertNewest(rs: seq<Interview>, r: Interview): (out: seq<Interview>)
    ensures |out| == |rs| + 1
    ensures forall x :: x in out <==> x in rs || x == r
  {
    if rs == [] then [r]
    else if r.createdAt >= rs[0].createdAt then [r] + rs
    else [rs[0]] + InsertNewest(rs[1..], r)
  }

  lemma {:induction false} InsertNewestKeepsOrder(rs: seq<Interview>, r: Interview)
    requires NewestFirst(rs) && DistinctIds(rs)
    requires forall x :: x in rs ==> x.id != r.id
    ensures NewestFirst(InsertNewest(rs, r)) && DistinctIds(InsertNewest(rs, r))
  {
    if rs != [] && r.createdAt < rs[0].createdAt {
      InsertNewestKeepsOrder(rs[1..], r);
      var tail := InsertNewest(rs[1..], r);
      forall x | x in tail ensures x.createdAt <= rs[0].createdAt && x.id != rs[0].id {
        if x != r {
          assert x in rs[1..];
        }
      }
    }
  }

  /** The interview collection; record keys are the `_id`s. */
  class InterviewStore {
    var records: map<string, Interview>

    ghost predicate Valid()
      reads this
    {
      forall id :: id in records ==> records[id].id == id && WellFormed(records[id])
    }

    constructor ()
      ensures Valid() && records == map[]
    {
      records := map[];
    }

    /** `findOne({ _id: id, userId: owner })` on this collection. */
    function FindOwned(id: Value, owner: string): (r: Option<Interview>)
      reads this
      ensures r == Lookup(records, id, owner)
    {
      Lookup(records, id, owner)
    }

    /** `doc.save()`: the validated, cast record replaces the stored one and
        the document now holds the cast values; a failed save writes nothing. */
    method Save(doc: InterviewDoc) returns (saved: Result<Interview>)
      requires Valid()
      modifies this, doc
      ensures Valid()
      ensures saved == SaveResult(old(doc.fields), doc.id)
      ensures saved.Ok? ==> records == old(records)[doc.id := saved.value] && doc.fields == Encode(saved.value)
      ensures saved.Err? ==> records == old(records) && doc.fields == old(doc.fields)
    {
      saved := SaveResult(doc.fields, doc.id);
      if saved.Ok? {
        records := records[doc.id := saved.value];
        doc.fields := Encode(saved.value);
      }
    }

    /** `find({ userId: owner }).sort({ createdAt: -1 })`: every record of the
        owner and no other, each once, newest first. */
    method ListByOwner(owner: string) returns (rs: seq<Interview>)
      requires Valid()
      ensures NewestFirst(rs) && DistinctIds(rs)
      ensures forall x :: x in rs <==> x in records.Values && x.userId == owner
    {
      rs := [];
      var todo := records.Keys;
      while todo != {}
        invariant todo <= records.Keys
        invariant NewestFirst(rs) && DistinctIds(rs)
        invariant forall x :: x in rs ==> x.id !in todo
        invariant forall x :: x in rs <==> x in records.Values && x.userId == owner && x.id !in todo
        decreases todo
      {
        var k :| k in todo;
        var r := records[k];
        if r.userId == owner {
          InsertNewestKeepsOrder(rs, r);
          rs := InsertNewest(rs, r);
        }
        todo := todo - {k};
      }
    }
  }
}
