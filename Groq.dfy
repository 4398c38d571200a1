/** `GenerateAiDataGroq`: checks that the messages are an array, attaches an
    image to a final user message, puts the system prompt first, asks the
    model, and parses its reply; every failure after the array check becomes
    one generic error. The model itself is the `provider` parameter. */
module Groq {
  import opened JsValues
  import opened Utils

  const DefaultSystemPrompt := "You are a supportive and professional AI career coach. Speak like a friendly mentor..."
  const InvalidMessages := "Invalid input: messages must be an array."
  const GenerationFailed := "Failed to generate or parse response."

  /** `image && image.length > 0`: a non-empty string or array. */
  predicate ImageGiven(image: Value)
  {
    (image.Str? && image.s != "") || (image.Arr? && |image.items| > 0)
  }

  /** Whether message `index` of `items` gets the image. */
  predicate Attaches(items: seq<Value>, index: int, image: Value)
    requires 0 <= index < |items|
  {
    ImageGiven(image) && Get(items[index], "role") == Str("user") && index == |items| - 1
  }

  /** The user message with its text and the image as two content parts. */
  function WithImage(msg: Value, image: Value): Value
  {
    Obj(map[
      "role" := Str("user"),
      "content" := Arr([
        Obj(map["type" := Str("text"), "text" := Get(msg, "content")]),
        Obj(map["type" := Str("image_url"), "image_url" := Obj(map["url" := image])])])])
  }

  /** `messages.map(...)`: only the message that `Attaches` changes. */
  function MapMessages(items: seq<Value>, image: Value): (out: seq<Value>)
    ensures |out| == |items|
    ensures forall i :: 0 <= i < |items| && !Attaches(items, i, image) ==> out[i] == items[i]
    ensures forall i :: 0 <= i < |items| && Attaches(items, i, image) ==> out[i] == WithImage(items[i], image)
  {
    seq(|items|, i requires 0 <= i < |items| => if Attaches(items, i, image) then WithImage(items[i], image) else items[i])
  }

  /** `{ role: 'system', content: systemPrompt }`; an omitted prompt is the default. */
  function SystemMessage(systemPrompt: Value): Value
  {
    Obj(map["role" := Str("system"), "content" := if systemPrompt.Undefined? then Str(DefaultSystemPrompt) else systemPrompt])
  }

  /** `fullMessages` after the `unshift`. */
  function FullMessages(items: seq<Value>, systemPrompt: Value, image: Value): (out: seq<Value>)
    ensures |out| == |items| + 1
    ensures out[0] == SystemMessage(systemPrompt)
    ensures out[1..] == MapMessages(items, image)
  {
    [SystemMessage(systemPrompt)] + MapMessages(items, image)
  }

  /** `msg.role` is read only once an image is given; on `null` or
      `undefined` it throws, outside the `try`. */
  predicate ReadsRoleOfNothing(items: seq<Value>, image: Value)
  {
    ImageGiven(image) && exists i :: 0 <= i < |items| && IsNothing(items[i])
  }

  /** The first `null` or `undefined` message: the one `map` throws on. */
  function FirstNothing(items: seq<Value>): (i: nat)
    requires exists k :: 0 <= k < |items| && IsNothing(items[k])
    ensures i < |items| && IsNothing(items[i])
    ensures forall j :: 0 <= j < i ==> !IsNothing(items[j])
  {
    if IsNothing(items[0]) then 0
    else
      var k :| 0 <= k < |items| && IsNothing(items[k]);
      assert IsNothing(items[1..][k - 1]);
      1 + FirstNothing(items[1..])
  }

  /** The TypeError the `map` throws: the role read of the first
      `null` or `undefined` message. */
  function RoleOfNothing(items: seq<Value>): string
    requires exists k :: 0 <= k < |items| && IsNothing(items[k])
  {
    ReadOfNothing(items[FirstNothing(items)], "role")
  }

  /** The text the model answered with for these messages: `None` when
      the call throws or its content has no `trim` (is not a string). */
  function ModelReply(full: seq<Value>, provider: seq<Value> -> Option<Value>): Option<string>
  {
    match provider(full)
    case Some(Str(c)) => Some(c)
    case _ => None
  }

  /** `GenerateAiDataGroq(messages, systemPrompt, image, ignoreFormat)`.
      `provider` is the chat-completion call: `None` when it throws, else the
      reply's `message.content`. */
  function GenerateAiDataGroq(messages: Value, systemPrompt: Value, image: Value, ignoreFormat: Value,
                              provider: seq<Value> -> Option<Value>, parse: string -> Option<Value>): (r: Result<Value>)
    ensures !messages.Arr? ==> r == Err(InvalidMessages)
    ensures messages.Arr? && ReadsRoleOfNothing(messages.items, image) ==> r == Err(RoleOfNothing(messages.items))
    ensures messages.Arr? && !ReadsRoleOfNothing(messages.items, image) && r.Err? ==> r.message == GenerationFailed
    ensures r.Ok? ==> messages.Arr? && ModelReply(FullMessages(messages.items, systemPrompt, image), provider).Some?
    ensures r.Ok? ==>
      r == ParseAiJsonResponse(Str(Trim(ModelReply(FullMessages(messages.items, systemPrompt, image), provider).value)),
                               Truthy(ignoreFormat), parse)
  {
    if !messages.Arr? then Err(InvalidMessages)
    else if ReadsRoleOfNothing(messages.items, image) then Err(RoleOfNothing(messages.items))
    else
      match ModelReply(FullMessages(messages.items, systemPrompt, image), provider)
      case None => Err(GenerationFailed)
      case Some(content) =>
        match ParseAiJsonResponse(Str(Trim(content)), Truthy(ignoreFormat), parse)
        case Err(_) => Err(GenerationFailed)
        case Ok(v) => Ok(v)
  }

  /** Without `ignoreFormat`, a result is always a parsed object. */
  lemma StrictResultIsObject(messages: Value, systemPrompt: Value, image: Value, ignoreFormat: Value,
                             provider: seq<Value> -> Option<Value>, parse: string -> Option<Value>)
    requires !Truthy(ignoreFormat)
    requires GenerateAiDataGroq(messages, systemPrompt, image, ignoreFormat, provider, parse).Ok?
    ensures GenerateAiDataGroq(messages, systemPrompt, image, ignoreFormat, provider, parse).value.Obj?
  {
    var c := ModelReply(FullMessages(messages.items, systemPrompt, image), provider).value;
    assert ParsesToObject(parse(CleanReply(Trim(c))));
  }

  /** With `ignoreFormat`, a reply that reached the parser is never an
      error: it is the parsed object or the cleaned text. */
  lemma PermissiveNeverFailsOnFormat(messages: Value, systemPrompt: Value, image: Value, ignoreFormat: Value,
                                     provider: seq<Value> -> Option<Value>, parse: string -> Option<Value>)
    requires messages.Arr? && !ReadsRoleOfNothing(messages.items, image) && Truthy(ignoreFormat)
    requires ModelReply(FullMessages(messages.items, systemPrompt, image), provider).Some?
    ensures var r := GenerateAiDataGroq(messages, systemPrompt, image, ignoreFormat, provider, parse);
      var c := ModelReply(FullMessages(messages.items, systemPrompt, image), provider).value;
      && r.Ok?
      && (r.value.Obj? || r.value == Str(CleanReply(Trim(c))))
  {
  }

  /** With no image (the interview route passes `null`), the model sees the
      system message followed by the given messages, unchanged and in order. */
  lemma NoImagePassesThrough(items: seq<Value>, systemPrompt: Value, image: Value)
    requires !ImageGiven(image)
    ensures FullMessages(items, systemPrompt, image) == [SystemMessage(systemPrompt)] + items
  {
    assert MapMessages(items, image) == items;
  }

  /** At most one message is changed: the last one, when it is a user
      message and an image is given. */
  lemma OnlyLastUserMessageGetsImage(items: seq<Value>, systemPrompt: Value, image: Value, i: int)
    requires 0 <= i < |items|
    requires FullMessages(items, systemPrompt, image)[i + 1] != items[i]
    ensures i == |items| - 1 && ImageGiven(image) && Get(items[i], "role") == Str("user")
    ensures FullMessages(items, systemPrompt, image)[i + 1] == WithImage(items[i], image)
  {
    var full := FullMessages(items, systemPrompt, image);
    assert full[i + 1] == full[1..][i];
  }
}
