/**
 * Response handling shared by Chat and Complete: a body that does not start with
 * `{` is the server's own error text; otherwise it is decoded and the reply text is
 * extracted through a fixed chain of shape checks, each with its own message.
 */
module Response {
  import opened Wrappers
  import opened Json
  import opened Text

  const MissingChoices: string := "json parsing failure, missing choices field"
  const EmptyChoices: string := "json parsing failure, field choices is empty"
  const NoChoice: string := "json parsing failure, failed to get choice"
  const MissingMessage: string := "json parsing failure, missing message field"
  const MissingContent: string := "json parsing failure, missing content field"

  /** json.Unmarshal into a map[string]any: either the top-level fields or the decoder's error. */
  type Decoder = string -> Result<map<string, Json>>

  /** A non-empty body whose first byte is not `{`. */
  predicate IsPlainText(body: string) {
    |body| > 0 && body[0] != '{'
  }

  /** The first-byte check followed by json.Unmarshal. */
  function DecodeBody(body: string, decode: Decoder): (r: Result<map<string, Json>>)
    ensures IsPlainText(body) ==> r == Err(body)
    ensures !IsPlainText(body) ==> r == decode(body)
  {
    if IsPlainText(body) then Err(body) else decode(body)
  }

  /** choices[0].message.content, trimmed; each failed step has its own message. */
  function ChatContent(doc: map<string, Json>): (r: Result<string>)
    ensures r.Err? ==> r.msg in {MissingChoices, EmptyChoices, NoChoice, MissingMessage, MissingContent}
    ensures r.Ok? ==> Unpadded(r.value)
  {
    match Field(doc, "choices")
    case Some(JArray(choices)) =>
      if |choices| == 0 then Err(EmptyChoices)
      else (match choices[0]
        case JObject(choice) =>
          (match Field(choice, "message")
           case Some(JObject(message)) =>
             (match Field(message, "content")
              case Some(JString(content)) => Ok(TrimSpace(content))
              case _ => Err(MissingContent))
           case _ => Err(MissingMessage))
        case _ => Err(NoChoice))
    case _ => Err(MissingChoices)
  }

  /** The top-level content field, trimmed. */
  function CompletionContent(doc: map<string, Json>): (r: Result<string>)
    ensures r.Err? ==> r.msg == MissingContent
    ensures r.Err? <==> !("content" in doc && doc["content"].JString?)
    ensures r.Ok? ==> Unpadded(r.value)
  {
    match Field(doc, "content")
    case Some(JString(content)) => Ok(TrimSpace(content))
    case _ => Err(MissingContent)
  }

  /**
   * What Chat returns once the request has been sent: a transport error as is,
   * a plain-text body verbatim, a decoder error as is, and otherwise the result
   * of the extraction chain.
   */
  function ChatOutcome(reply: Result<string>, decode: Decoder): (r: Result<string>)
    ensures reply.Err? ==> r == Err(reply.msg)
    ensures reply.Ok? && IsPlainText(reply.value) ==> r == Err(reply.value)
    ensures reply.Ok? && !IsPlainText(reply.value) && decode(reply.value).Err? ==> r == Err(decode(reply.value).msg)
    ensures reply.Ok? && !IsPlainText(reply.value) && decode(reply.value).Ok?
            ==> r == ChatContent(decode(reply.value).value)
  {
    match reply
    case Err(e) => Err(e)
    case Ok(body) =>
      match DecodeBody(body, decode)
      case Err(e) => Err(e)
      case Ok(doc) => ChatContent(doc)
  }

  /** What Complete returns once the request has been sent; as ChatOutcome with the completion shape. */
  function CompletionOutcome(reply: Result<string>, decode: Decoder): (r: Result<string>)
    ensures reply.Err? ==> r == Err(reply.msg)
    ensures reply.Ok? && IsPlainText(reply.value) ==> r == Err(reply.value)
    ensures reply.Ok? && !IsPlainText(reply.value) && decode(reply.value).Err? ==> r == Err(decode(reply.value).msg)
    ensures reply.Ok? && !IsPlainText(reply.value) && decode(reply.value).Ok?
            ==> r == CompletionContent(decode(reply.value).value)
  {
    match reply
    case Err(e) => Err(e)
    case Ok(body) =>
      match DecodeBody(body, decode)
      case Err(e) => Err(e)
      case Ok(doc) => CompletionContent(doc)
  }

  /**
   * Each chat failure names the first check the document fails, in the order
   * choices, non-empty, choice object, message, content.
   */
  lemma ChatContentErrors(doc: map<string, Json>)
    ensures ChatContent(doc) == Err(MissingChoices) <==> !("choices" in doc && doc["choices"].JArray?)
    ensures ChatContent(doc) == Err(EmptyChoices) <==> "choices" in doc && doc["choices"] == JArray([])
    ensures ChatContent(doc) == Err(NoChoice)
            <==> "choices" in doc && doc["choices"].JArray? && |doc["choices"].items| > 0
                 && !doc["choices"].items[0].JObject?
    ensures ChatContent(doc) == Err(MissingMessage)
            <==> "choices" in doc && doc["choices"].JArray? && |doc["choices"].items| > 0
                 && doc["choices"].items[0].JObject?
                 && !("message" in doc["choices"].items[0].fields
                      && doc["choices"].items[0].fields["message"].JObject?)
    ensures ChatContent(doc) == Err(MissingContent)
            <==> "choices" in doc && doc["choices"].JArray? && |doc["choices"].items| > 0
                 && doc["choices"].items[0].JObject?
                 && "message" in doc["choices"].items[0].fields
                 && doc["choices"].items[0].fields["message"].JObject?
                 && !("content" in doc["choices"].items[0].fields["message"].fields
                      && doc["choices"].items[0].fields["message"].fields["content"].JString?)
  {
  }

  /**
   * A reply whose first choice carries a message with string content yields that
   * content trimmed, whatever other fields and later choices the reply holds.
   */
  lemma ChatContentOfReply(content: string, message: map<string, Json>, choice: map<string, Json>,
                           others: seq<Json>, doc: map<string, Json>)
    ensures var reply := doc["choices" := JArray([JObject(choice["message" := JObject(message["content" := JString(content)])])] + others)];
            ChatContent(reply) == Ok(TrimSpace(content))
  {
    var m := message["content" := JString(content)];
    var c := choice["message" := JObject(m)];
    var choices := [JObject(c)] + others;
    var reply := doc["choices" := JArray(choices)];
    assert Field(m, "content") == Some(JString(content));
    assert Field(c, "message") == Some(JObject(m));
    assert choices[0] == JObject(c);
    assert Field(reply, "choices") == Some(JArray(choices));
  }

  /** A reply with a string content field yields that content trimmed. */
  lemma CompletionContentOfReply(content: string, doc: map<string, Json>)
    ensures CompletionContent(doc["content" := JString(content)]) == Ok(TrimSpace(content))
  {
  }

  /** A plain-text body is returned verbatim as the error, and the decoder is never consulted. */
  lemma PlainTextIsVerbatimError(body: string, decode1: Decoder, decode2: Decoder)
    requires IsPlainText(body)
    ensures ChatOutcome(Ok(body), decode1) == Err(body) == CompletionOutcome(Ok(body), decode2)
  {
  }

  /** The reply {"choices":[{"message":{"content":"  hi there  "}}]} yields "hi there". */
  lemma HiThereExample()
    ensures ChatContent(map["choices" := JArray([JObject(map["message" := JObject(map["content" := JString("  hi there  ")])])])])
            == Ok("hi there")
  {
    var raw := "  hi there  ";
    assert raw == "  " + "hi there" + "  ";
    TrimSpacePadded("  ", "hi there", "  ");
    var m := map["content" := JString(raw)];
    var c := map["message" := JObject(m)];
    ChatContentOfReply(raw, map[], map[], [], map[]);
    assert map[]["content" := JString(raw)] == m;
    assert map[]["message" := JObject(m)] == c;
    assert [JObject(c)] + [] == [JObject(c)];
  }
}
