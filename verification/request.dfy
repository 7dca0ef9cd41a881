/**
 * Request shaping for Chat and Complete: the token limit default, the fixed stop
 * list, and the JSON payloads posted to the chat and completion endpoints.
 */
module Request {
  import opened Wrappers
  import opened Json

  const DefaultMaxTokens: int := 150
  const StopSequence: string := "<|"

  /** One chat message as the caller passes it: a map such as {"role": ..., "content": ...}. */
  type Message = map<string, string>

  /** A non-positive maxTokens is replaced by 150; a positive one is kept. */
  function EffectiveMaxTokens(maxTokens: int): (n: int)
    ensures n > 0
    ensures maxTokens > 0 ==> n == maxTokens
    ensures maxTokens <= 0 ==> n == DefaultMaxTokens
  {
    if maxTokens <= 0 then DefaultMaxTokens else maxTokens
  }

  /** []string{"<|"} as it appears in the payload. */
  function StopList(): Json {
    JArray([JString(StopSequence)])
  }

  function EncodeMessage(m: Message): Json {
    JObject(map k | k in m :: JString(m[k]))
  }

  function EncodeMessages(ms: seq<Message>): seq<Json> {
    if ms == [] then [] else [EncodeMessage(ms[0])] + EncodeMessages(ms[1..])
  }

  /** Reads a message back out of its JSON form; anything that is not an object of strings is rejected. */
  function DecodeMessage(j: Json): Option<Message> {
    if j.JObject? && forall k :: k in j.fields ==> j.fields[k].JString?
    then Some(map k | k in j.fields :: j.fields[k].str)
    else None
  }

  function DecodeMessages(items: seq<Json>): Option<seq<Message>> {
    if items == [] then Some([])
    else match (DecodeMessage(items[0]), DecodeMessages(items[1..]))
      case (Some(m), Some(ms)) => Some([m] + ms)
      case _ => None
  }

  lemma DecodeMessageInverts(m: Message)
    ensures DecodeMessage(EncodeMessage(m)) == Some(m)
  {
    var j := EncodeMessage(m);
    assert j.fields.Keys == m.Keys;
    assert forall k :: k in j.fields ==> j.fields[k] == JString(m[k]);
    var back := map k | k in j.fields :: j.fields[k].str;
    assert back == m;
  }

  /** The messages field carries the caller's messages unchanged and in order. */
  lemma {:induction false} DecodeMessagesInverts(ms: seq<Message>)
    ensures DecodeMessages(EncodeMessages(ms)) == Some(ms)
  {
    if ms != [] {
      DecodeMessageInverts(ms[0]);
      DecodeMessagesInverts(ms[1..]);
      assert [ms[0]] + ms[1..] == ms;
    }
  }

  /** The body posted to /v1/chat/completions. */
  function ChatPayload(messages: seq<Message>, maxTokens: int): (p: Json)
    ensures p.JObject? && p.fields.Keys == {"messages", "max_tokens", "stop"}
    ensures p.fields["max_tokens"] == JNumber(EffectiveMaxTokens(maxTokens))
    ensures p.fields["stop"] == JArray([JString("<|")])
    ensures p.fields["messages"].JArray? && DecodeMessages(p.fields["messages"].items) == Some(messages)
  {
    DecodeMessagesInverts(messages);
    JObject(map[
      "messages" := JArray(EncodeMessages(messages)),
      "max_tokens" := JNumber(EffectiveMaxTokens(maxTokens)),
      "stop" := StopList()])
  }

  /** The body posted to /completion: a prompt, and the token limit under n_predict. */
  function CompletionPayload(prompt: string, maxTokens: int): (p: Json)
    ensures p.JObject? && p.fields.Keys == {"prompt", "n_predict", "stop"}
    ensures p.fields["prompt"] == JString(prompt)
    ensures p.fields["n_predict"] == JNumber(EffectiveMaxTokens(maxTokens))
    ensures p.fields["stop"] == JArray([JString("<|")])
  {
    JObject(map[
      "prompt" := JString(prompt),
      "n_predict" := JNumber(EffectiveMaxTokens(maxTokens)),
      "stop" := StopList()])
  }

  /** Two chat requests send the same payload exactly when their messages and effective limits agree. */
  lemma ChatPayloadDeterminedByLimit(ms1: seq<Message>, n1: int, ms2: seq<Message>, n2: int)
    ensures ChatPayload(ms1, n1) == ChatPayload(ms2, n2)
            <==> ms1 == ms2 && EffectiveMaxTokens(n1) == EffectiveMaxTokens(n2)
  {
  }
}
