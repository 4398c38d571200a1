/** The interview turn handler (`POST /api/mock-interview/conversation`):
    find the caller's interview, append and save the candidate's turn, ask
    the model with the whole history, check its reply and fall back to a
    plain statement, synthesise speech, append the interviewer's turn,
    possibly mark the interview completed, and save again.

    The model, JSON.parse, the speech service, the token check and the
    random choices of the prompt builder are parameters. */
module ConversationRoute {
  import opened JsValues
  import opened MockInterview
  import opened Utils
  import opened InterviewerPrompt
  import opened Groq
  import opened Http

  const NotFoundOrDenied := "Interview not found or access denied"
  const NoAiResponse := "Failed to generate AI response"
  const DefaultFailure := "Failed to process interview conversation"

  /** The TypeError `const { interviewId, transcript, allAnimations } =
      await req.json()` throws when the body is `null`. */
  function BodyOfNothing(data: Value): string
  {
    DestructureOfNothing(data, "interviewId", "(intermediate value)")
  }

  /** The `catch` of the handler: `error.message || default`, status 500. */
  function Failed(message: string): (resp: Response)
    ensures resp.Failure? && resp.status == 500 && resp.code == "conversation_failed"
    ensures resp.message != ""
  {
    Failure(500, "conversation_failed", if message != "" then message else DefaultFailure)
  }

  // ---------------------------------------------------------------------
  // The reply check

  /** `aiResponse && typeof aiResponse === 'object' && 'statement' in
      aiResponse && 'animationToPlay' in aiResponse && 'isCompleted' in aiResponse`. */
  predicate IsContract(v: Value)
  {
    v.Obj? && "statement" in v.fields && "animationToPlay" in v.fields && "isCompleted" in v.fields
  }

  /** The object put in place of a reply that is not a contract. */
  function Fallback(statement: Value): Value
  {
    Obj(map["statement" := statement, "animationToPlay" := Str("talk"), "isCompleted" := Bool(false)])
  }

  /** The reply as it stands after the check: a string is parsed first (and
      kept as it was when parsing throws); a contract is kept, anything else
      becomes the statement of the fallback. */
  function CheckedReply(reply: Value, parse: string -> Option<Value>): (ai: Value)
    ensures IsContract(ai)
    ensures IsContract(reply) ==> ai == reply
    ensures reply.Str? && parse(reply.s).Some? && IsContract(parse(reply.s).value) ==> ai == parse(reply.s).value
    ensures !IsContract(Reparsed(reply, parse)) ==> ai == Fallback(Reparsed(reply, parse))
  {
    var v := Reparsed(reply, parse);
    if IsContract(v) then v else Fallback(v)
  }

  /** `if (typeof aiResponse === 'string') aiResponse = JSON.parse(aiResponse)`. */
  function Reparsed(reply: Value, parse: string -> Option<Value>): Value
  {
    if reply.Str? && parse(reply.s).Some? then parse(reply.s).value else reply
  }

  /** Lines 102-129 of the handler as written: `aiResponse` and
      `isValidJson` are reassigned step by step. */
  method CheckReply(reply: Value, parse: string -> Option<Value>) returns (aiResponse: Value)
    ensures aiResponse == CheckedReply(reply, parse)
  {
    aiResponse := reply;
    var isValidJson := false;
    if aiResponse.Str? {
      var parsed := parse(aiResponse.s);
      if parsed.Some? {
        aiResponse := parsed.value;
      }
    }
    isValidJson := IsContract(aiResponse);
    if !isValidJson {
      var aiStatement := aiResponse;
      aiResponse := Fallback(aiStatement);
    }
  }

  /** Text that does not parse becomes the statement of the fallback, verbatim. */
  lemma PlainTextBecomesStatement(text: string, parse: string -> Option<Value>)
    requires parse(text).None?
    ensures CheckedReply(Str(text), parse) == Fallback(Str(text))
    ensures Get(CheckedReply(Str(text), parse), "statement") == Str(text)
    ensures !Truthy(Get(CheckedReply(Str(text), parse), "isCompleted"))
  {
  }

  // ---------------------------------------------------------------------
  // The whole turn, as a function of the stored records

  /** The history sent to the model: every turn as `{ role, content }`. */
  function History(conversation: seq<Turn>): Value
  {
    Arr(EncodeTurns(conversation))
  }

  /** The messages the model receives for an interview whose conversation
      (already holding the new user turn) is `u`'s, under system prompt `system`. */
  function ModelInput(u: Interview, system: string): seq<Value>
  {
    FullMessages(EncodeTurns(u.conversation), Str(system), Null)
  }

  /** The system prompt the route builds for a saved interview, given the
      order `anims` the prompt builder's shuffle produced. */
  function SystemPrompt(anims: seq<string>): Interview -> string
  {
    (u: Interview) => PromptText(u.jobRole, u.difficulty, u.skills, u.notes, anims)
  }

  /** The document paths the second save sees. */
  function AssistantFields(u: Interview, ai: Value): map<string, Value>
  {
    var f := WithTurn(Encode(u), Str("assistant"), Get(ai, "statement"));
    if Truthy(Get(ai, "isCompleted")) then f["status" := Str("completed")] else f
  }

  function SuccessBody(ai: Value, audio: Option<string>, w: Interview): Value
  {
    Obj(map[
      "success" := Bool(true),
      "aiResponse" := ai,
      "audioBase64" := if audio.Some? then Str(audio.value) else Null,
      "conversation" := History(w.conversation)])
  }

  /** What the model call gives for the saved interview `u` under system
      prompt `system`: the history with no image, in permissive mode. */
  function Generated(u: Interview, system: string, provider: seq<Value> -> Option<Value>,
                     parse: string -> Option<Value>): Result<Value>
  {
    GenerateAiDataGroq(History(u.conversation), Str(system), Null, Bool(true), provider, parse)
  }

  /** The turn once the model call gave `g`. */
  function AfterReply(u: Interview, g: Result<Value>, parse: string -> Option<Value>,
                      tts: Value -> Option<string>): Outcome
  {
    match g
    case Err(m) => Outcome(Failed(m), Some(u))
    case Ok(reply) =>
      var ai := CheckedReply(reply, parse);
      if !Truthy(Get(ai, "statement")) then Outcome(Failed(NoAiResponse), Some(u))
      else
        var audio := tts(Get(ai, "statement"));
        match SaveResult(AssistantFields(u, ai), u.id)
        case Err(m) => Outcome(Failed(m), Some(u))
        case Ok(w) => Outcome(Success(200, SuccessBody(ai, audio, w)), Some(w))
  }

  /** The whole handler over the stored records. `auth` is the verified
      token's user id; `prompt` gives the system prompt for the saved
      interview (`SystemPrompt` of the shuffled tags, in the route). */
  function TurnSpec(records: map<string, Interview>, auth: Option<string>, body: Result<Value>, prompt: Interview -> string,
                    provider: seq<Value> -> Option<Value>, parse: string -> Option<Value>,
                    tts: Value -> Option<string>): Outcome
  {
    if auth.None? then Outcome(Unauthorized, None)
    else match body
      case Err(m) => Outcome(Failed(m), None)
      case Ok(data) =>
        if IsNothing(data) then Outcome(Failed(BodyOfNothing(data)), None)
        else
          match Lookup(records, Get(data, "interviewId"), auth.value)
          case None => Outcome(Failure(404, "interview_not_found", NotFoundOrDenied), None)
          case Some(r) => FoundTurn(r, Get(data, "transcript"), prompt, provider, parse, tts)
  }

  /** The turn on the caller's interview `r`: the candidate's turn is
      saved first, then the model is asked. */
  function FoundTurn(r: Interview, transcript: Value, prompt: Interview -> string,
                     provider: seq<Value> -> Option<Value>, parse: string -> Option<Value>,
                     tts: Value -> Option<string>): Outcome
  {
    match SaveResult(WithTurn(Encode(r), Str("user"), transcript), r.id)
    case Err(m) => Outcome(Failed(m), None)
    case Ok(u) => AfterReply(u, Generated(u, prompt(u), provider, parse), parse, tts)
  }

  // ---------------------------------------------------------------------
  // The handler as the route runs it

  /** `POST(req)`. `picks` and `swaps` are the random outcomes of the
      prompt's animation choice; `anims` is the resulting order. */
  method HandleTurn(store: InterviewStore, auth: Option<string>, body: Result<Value>,
                    picks: seq<nat>, swaps: nat -> bool,
                    provider: seq<Value> -> Option<Value>, parse: string -> Option<Value>,
                    tts: Value -> Option<string>)
    returns (resp: Response, ghost anims: seq<string>)
    requires store.Valid() && ValidPicks(picks)
    modifies store
    ensures store.Valid()
    ensures multiset(anims) == multiset(Picked(picks))
    ensures var out := TurnSpec(old(store.records), auth, body, SystemPrompt(anims), provider, parse, tts);
      && resp == out.resp
      && store.records == Written(old(store.records), out.written)
  {
    anims := Picked(picks);
    if auth.None? {
      return Unauthorized, anims;
    }
    var userID := auth.value;
    if body.Err? {
      return Failed(body.message), anims;
    }
    var data := body.value;
    if IsNothing(data) {
      return Failed(BodyOfNothing(data)), anims;
    }
    var interviewId := Get(data, "interviewId");
    var transcript := Get(data, "transcript");

    var found := store.FindOwned(interviewId, userID);
    if found.None? {
      return Failure(404, "interview_not_found", NotFoundOrDenied), anims;
    }
    resp, anims := TakeTurn(store, found.value, transcript, picks, swaps, provider, parse, tts);
  }

  /** Lines 68-186 of the handler, once the caller's interview `r` is found. */
  method TakeTurn(store: InterviewStore, r: Interview, transcript: Value,
                  picks: seq<nat>, swaps: nat -> bool,
                  provider: seq<Value> -> Option<Value>, parse: string -> Option<Value>,
                  tts: Value -> Option<string>)
    returns (resp: Response, ghost anims: seq<string>)
    requires store.Valid() && ValidPicks(picks)
    requires r.id in store.records && store.records[r.id] == r
    modifies store
    ensures store.Valid()
    ensures multiset(anims) == multiset(Picked(picks))
    ensures var out := FoundTurn(r, transcript, SystemPrompt(anims), provider, parse, tts);
      && resp == out.resp
      && store.records == Written(old(store.records), out.written)
  {
    anims := Picked(picks);
    var interview, first := SaveUserTurn(store, r, transcript);
    if first.Err? {
      return Failed(first.message), anims;
    }
    var u := first.value;

    ghost var records := old(store.records);
    var generated;
    generated, anims := AskModel(u, picks, swaps, provider, parse);
    resp := Respond(store, interview, u, generated, parse, tts);
    ghost var out := AfterReply(u, generated, parse, tts);
    FoundTurnSaved(r, transcript, SystemPrompt(anims), provider, parse, tts, u);
    UpdateTwice(records, r.id, u, out.written.value);
  }

  lemma FoundTurnSaved(r: Interview, transcript: Value, prompt: Interview -> string,
                       provider: seq<Value> -> Option<Value>, parse: string -> Option<Value>,
                       tts: Value -> Option<string>, u: Interview)
    requires SaveResult(WithTurn(Encode(r), Str("user"), transcript), r.id) == Ok(u)
    ensures FoundTurn(r, transcript, prompt, provider, parse, tts)
         == AfterReply(u, Generated(u, prompt(u), provider, parse), parse, tts)
  {
  }

  lemma UpdateTwice(m: map<string, Interview>, k: string, a: Interview, b: Interview)
    ensures m[k := a][k := b] == m[k := b]
  {
  }

  /** Lines 68-83 of the handler: the found interview takes the
      candidate's turn and is saved. */
  method SaveUserTurn(store: InterviewStore, r: Interview, transcript: Value)
    returns (interview: InterviewDoc, first: Result<Interview>)
    requires store.Valid() && r.id in store.records && store.records[r.id] == r
    modifies store
    ensures fresh(interview)
    ensures store.Valid()
    ensures first == SaveResult(WithTurn(Encode(r), Str("user"), transcript), r.id)
    ensures first.Ok? ==> && store.records == old(store.records)[r.id := first.value]
                          && interview.id == r.id && interview.fields == Encode(first.value)
    ensures first.Err? ==> store.records == old(store.records)
  {
    interview := new InterviewDoc.Load(r);
    interview.PushTurn(Str("user"), transcript);
    first := store.Save(interview);
  }

  /** Lines 85-99 of the handler: the system prompt is built for the saved
      interview and the model is asked with the whole history. */
  method AskModel(u: Interview, picks: seq<nat>, swaps: nat -> bool,
                  provider: seq<Value> -> Option<Value>, parse: string -> Option<Value>)
    returns (generated: Result<Value>, ghost anims: seq<string>)
    requires ValidPicks(picks)
    ensures multiset(anims) == multiset(Picked(picks))
    ensures generated == Generated(u, SystemPrompt(anims)(u), provider, parse)
  {
    var messages := History(u.conversation);
    var systemPrompt;
    systemPrompt, anims := BuildSystemPrompt(u.jobRole, u.difficulty, u.skills, u.notes, picks, swaps);
    generated := GenerateAiDataGroq(messages, Str(systemPrompt), Null, Bool(true), provider, parse);
  }

  /** Lines 100-186 of the handler, once the model gave `generated` for the
      interview saved as `u`, whose paths `interview` holds. */
  method Respond(store: InterviewStore, interview: InterviewDoc, u: Interview, generated: Result<Value>,
                 parse: string -> Option<Value>, tts: Value -> Option<string>)
    returns (resp: Response)
    requires store.Valid() && WellFormed(u)
    requires interview.id == u.id && interview.fields == Encode(u)
    requires u.id in store.records && store.records[u.id] == u
    modifies store, interview
    ensures store.Valid()
    ensures var out := AfterReply(u, generated, parse, tts);
      && resp == out.resp
      && out.written.Some? && out.written.value.id == u.id
      && store.records == old(store.records)[u.id := out.written.value]
  {
    if generated.Err? {
      assert old(store.records)[u.id := u] == old(store.records);
      return Failed(generated.message);
    }
    var aiResponse := CheckReply(generated.value, parse);

    if !Truthy(Get(aiResponse, "statement")) {
      assert old(store.records)[u.id := u] == old(store.records);
      return Failed(NoAiResponse);
    }
    var audioBase64 := tts(Get(aiResponse, "statement"));

    var second := SaveAssistantTurn(store, interview, u, aiResponse);
    if second.Err? {
      assert old(store.records)[u.id := u] == old(store.records);
      return Failed(second.message);
    }
    resp := Success(200, SuccessBody(aiResponse, audioBase64, second.value));
  }

  /** Lines 168-179 of the handler: the interviewer's turn is pushed, the
      status set when the reply says the interview is complete, and the
      document saved. */
  method SaveAssistantTurn(store: InterviewStore, interview: InterviewDoc, u: Interview, aiResponse: Value)
    returns (second: Result<Interview>)
    requires store.Valid() && WellFormed(u)
    requires interview.id == u.id && interview.fields == Encode(u)
    modifies store, interview
    ensures store.Valid()
    ensures second == SaveResult(AssistantFields(u, aiResponse), u.id)
    ensures second.Ok? ==> store.records == old(store.records)[u.id := second.value]
    ensures second.Err? ==> store.records == old(store.records)
  {
    interview.PushTurn(Str("assistant"), Get(aiResponse, "statement"));
    if Truthy(Get(aiResponse, "isCompleted")) {
      interview.Set("status", Str("completed"));
    }
    assert interview.fields == AssistantFields(u, aiResponse);
    second := store.Save(interview);
  }

  // ---------------------------------------------------------------------
  // What a turn guarantees

  /** Without a valid token: 401, and nothing is read or written. */
  lemma UnauthorizedWritesNothing(records: map<string, Interview>, body: Result<Value>, prompt: Interview -> string,
                                  provider: seq<Value> -> Option<Value>, parse: string -> Option<Value>,
                                  tts: Value -> Option<string>)
    ensures TurnSpec(records, None, body, prompt, provider, parse, tts) == Outcome(Unauthorized, None)
  {
  }

  /** A body `req.json()` cannot parse, or a `null` one, is caught: 500
      with the thrown message, and nothing is read or written. */
  lemma BadBodyWritesNothing(records: map<string, Interview>, owner: string, body: Result<Value>,
                             prompt: Interview -> string, provider: seq<Value> -> Option<Value>,
                             parse: string -> Option<Value>, tts: Value -> Option<string>)
    requires body.Err? || body.value.Null?
    ensures var out := TurnSpec(records, Some(owner), body, prompt, provider, parse, tts);
      && out.written.None? && out.resp.Failure? && out.resp.status == 500
      && (body.Err? && body.message != "" ==> out.resp.message == body.message)
      && (body.Ok? ==> out.resp.message == DestructureOfNothing(Null, "interviewId", "(intermediate value)"))
  {
  }

  /** An id that is not one of the caller's interviews: 404 and no write. */
  lemma NotFoundWritesNothing(records: map<string, Interview>, owner: string, body: Value, prompt: Interview -> string,
                              provider: seq<Value> -> Option<Value>, parse: string -> Option<Value>,
                              tts: Value -> Option<string>)
    requires body.Obj?
    requires Lookup(records, Get(body, "interviewId"), owner).None?
    ensures TurnSpec(records, Some(owner), Ok(body), prompt, provider, parse, tts)
         == Outcome(Failure(404, "interview_not_found", NotFoundOrDenied), None)
  {
  }

  /** The candidate's turn is stored before the model is asked: whatever
      happens afterwards, a turn that reaches the model has left the
      interview stored with exactly that turn appended, or with that turn
      and one interviewer turn after it. A transcript that is not a
      non-empty string fails validation: 500 and nothing written. */
  lemma UserTurnSavedFirst(records: map<string, Interview>, owner: string, body: Value, prompt: Interview -> string,
                           provider: seq<Value> -> Option<Value>, parse: string -> Option<Value>,
                           tts: Value -> Option<string>)
    requires forall id :: id in records ==> WellFormed(records[id])
    requires body.Obj? && Lookup(records, Get(body, "interviewId"), owner).Some?
    ensures var r := Lookup(records, Get(body, "interviewId"), owner).value;
      var transcript := Get(body, "transcript");
      var out := TurnSpec(records, Some(owner), Ok(body), prompt, provider, parse, tts);
      && (!RequiredString(transcript) ==> out == Outcome(Failed(ValidationFailed), None))
      && (RequiredString(transcript) ==>
            var withUser := r.conversation + [Turn(User, CastString(transcript).value)];
            && out.written.Some?
            && out.written.value.id == r.id
            && |out.written.value.conversation| >= |withUser|
            && out.written.value.conversation[..|withUser|] == withUser
            && (out.resp.Failure? ==> out.written.value == r.(conversation := withUser)))
  {
    var r := Lookup(records, Get(body, "interviewId"), owner).value;
    var transcript := Get(body, "transcript");
    SaveWithTurn(r, User, transcript);
    if RequiredString(transcript) {
      var u := r.(conversation := r.conversation + [Turn(User, CastString(transcript).value)]);
      AssistantTurnShape(u, Generated(u, prompt(u), provider, parse), parse, tts);
    }
  }

  /** After the candidate's turn was saved as `u`, whatever the model gave:
      a failure leaves `u` stored; a success stores `u` plus one interviewer
      turn. */
  lemma AssistantTurnShape(u: Interview, g: Result<Value>, parse: string -> Option<Value>,
                           tts: Value -> Option<string>)
    requires WellFormed(u)
    ensures var out := AfterReply(u, g, parse, tts);
      && out.written.Some?
      && out.written.value.id == u.id
      && (out.resp.Failure? ==> out.written.value == u)
      && (out.resp.Success? ==> (|out.written.value.conversation| == |u.conversation| + 1
                                 && out.written.value.conversation[..|u.conversation|] == u.conversation))
  {
    if g.Ok? {
      var ai := CheckedReply(g.value, parse);
      var statement := Get(ai, "statement");
      if Truthy(statement) {
        AssistantSave(u, ai);
      }
    }
  }

  /** The second save: the interviewer's statement appended, and the
      status set when the reply says the interview is complete. */
  lemma AssistantSave(u: Interview, ai: Value)
    requires WellFormed(u)
    ensures var statement := Get(ai, "statement");
      SaveResult(AssistantFields(u, ai), u.id)
      == if RequiredString(statement)
         then Ok(u.(conversation := u.conversation + [Turn(Assistant, CastString(statement).value)],
                    status := if Truthy(Get(ai, "isCompleted")) then Some(Completed) else u.status))
         else Err(ValidationFailed)
  {
    assert RoleName(Assistant) == "assistant";
    var statement := Get(ai, "statement");
    if Truthy(Get(ai, "isCompleted")) {
      SaveWithTurnCompleted(u, Assistant, statement);
    } else {
      SaveWithTurn(u, Assistant, statement);
    }
  }

  /** On success, the model gave a reply, exactly one interviewer turn
      holding the checked reply's statement is appended, and the status
      becomes "completed" exactly when the reply's `isCompleted` is truthy;
      otherwise the status is left as it was, and even a completed interview
      takes further turns. A failed speech call only leaves `audioBase64`
      null. */
  lemma SuccessfulTurn(u: Interview, g: Result<Value>, parse: string -> Option<Value>,
                       tts: Value -> Option<string>)
    requires WellFormed(u)
    requires AfterReply(u, g, parse, tts).resp.Success?
    ensures g.Ok?
    ensures var out := AfterReply(u, g, parse, tts);
      var ai := CheckedReply(g.value, parse);
      var statement := Get(ai, "statement");
      && Truthy(statement) && RequiredString(statement)
      && out.written == Some(u.(conversation := u.conversation + [Turn(Assistant, CastString(statement).value)],
                                status := if Truthy(Get(ai, "isCompleted")) then Some(Completed) else u.status))
      && out.resp.status == 200
      && Get(out.resp.body, "aiResponse") == ai
      && (tts(statement).None? ==> Get(out.resp.body, "audioBase64") == Null)
  {
    var ai := CheckedReply(g.value, parse);
    var statement := Get(ai, "statement");
    SuccessUnfolds(u, g, parse, tts);
    AssistantSave(u, ai);
    var saved := SaveResult(AssistantFields(u, ai), u.id);
    SuccessBodyFields(ai, tts(statement), saved.value);
  }

  lemma SuccessUnfolds(u: Interview, g: Result<Value>, parse: string -> Option<Value>,
                       tts: Value -> Option<string>)
    requires AfterReply(u, g, parse, tts).resp.Success?
    ensures g.Ok?
    ensures var ai := CheckedReply(g.value, parse);
      var statement := Get(ai, "statement");
      var saved := SaveResult(AssistantFields(u, ai), u.id);
      && Truthy(statement) && saved.Ok?
      && AfterReply(u, g, parse, tts) == Outcome(Success(200, SuccessBody(ai, tts(statement), saved.value)), Some(saved.value))
  {
  }

  lemma SuccessBodyFields(ai: Value, audio: Option<string>, w: Interview)
    ensures Get(SuccessBody(ai, audio, w), "aiResponse") == ai
    ensures audio.None? ==> Get(SuccessBody(ai, audio, w), "audioBase64") == Null
  {
  }

  /** A falsy statement (an empty reply, or a parsed object whose statement
      is empty, null or false): 500 "Failed to generate AI response", with
      the candidate's turn stored and no interviewer turn. */
  lemma FalsyStatementFails(u: Interview, reply: Value, parse: string -> Option<Value>,
                            tts: Value -> Option<string>)
    requires !Truthy(Get(CheckedReply(reply, parse), "statement"))
    ensures AfterReply(u, Ok(reply), parse, tts) == Outcome(Failed(NoAiResponse), Some(u))
    ensures AfterReply(u, Ok(reply), parse, tts).resp.message == NoAiResponse
  {
  }

  /** The model sees the system prompt and then the whole conversation,
      candidate's turn included, as `{ role, content }` objects in order:
      two models that agree on that one input give the same turn. */
  lemma ModelSeesWholeHistory(u: Interview, system: string, p1: seq<Value> -> Option<Value>,
                              p2: seq<Value> -> Option<Value>, parse: string -> Option<Value>)
    requires p1(ModelInput(u, system)) == p2(ModelInput(u, system))
    ensures Generated(u, system, p1, parse) == Generated(u, system, p2, parse)
    ensures ModelInput(u, system) == [SystemMessage(Str(system))] + EncodeTurns(u.conversation)
  {
    NoImagePassesThrough(EncodeTurns(u.conversation), Str(system), Null);
    assert ModelReply(ModelInput(u, system), p1) == ModelReply(ModelInput(u, system), p2);
  }

  /** `allAnimations` in the request body has no effect on the turn. */
  lemma AllAnimationsIgnored(records: map<string, Interview>, auth: Option<string>, fields: map<string, Value>,
                             x: Value, prompt: Interview -> string, provider: seq<Value> -> Option<Value>,
                             parse: string -> Option<Value>, tts: Value -> Option<string>)
    ensures TurnSpec(records, auth, Ok(Obj(fields["allAnimations" := x])), prompt, provider, parse, tts)
         == TurnSpec(records, auth, Ok(Obj(fields)), prompt, provider, parse, tts)
  {
    assert Get(Obj(fields["allAnimations" := x]), "interviewId") == Get(Obj(fields), "interviewId");
    assert Get(Obj(fields["allAnimations" := x]), "transcript") == Get(Obj(fields), "transcript");
  }
}
