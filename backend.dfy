/** What the extension hands to the host application and the network: the
    connection profiles it looks up, the chat messages it sends, and one
    request value per backend. The calls themselves are not modelled; their
    outcomes are parameters of the operations that make them. */
module Backend {
  import opened JsValues
  import opened Optional

  /** An entry of the connection manager's `profiles` list. */
  datatype Profile = Profile(id: string, name: string)

  /** One `{ role, content }` element of a messages array. */
  datatype ChatTurn = ChatTurn(role: string, content: string)

  datatype Request =
      /** `ConnectionManagerRequestService.sendRequest(profileId, messages, maxTokens, ...)` */
    | ProfileSend(profileId: string, messages: seq<ChatTurn>, maxTokens: nat)
      /** POST to an Ollama `/api/generate` endpoint */
    | OllamaGenerate(url: string, model: string, system: Value, prompt: string,
                     numCtx: nat, numPredict: nat, stop: seq<string>)
      /** POST to an OpenAI-compatible `/chat/completions` endpoint */
    | OpenAIChat(url: string, model: string, messages: seq<ChatTurn>, maxTokens: nat)
      /** the host's `generateRaw({ systemPrompt, prompt })` */
    | RawGenerate(systemPrompt: Value, prompt: string)

  /** What `fetch` resolves to: `ok`, `status` and the decoded JSON body. */
  datatype HttpResponse = HttpResponse(ok: bool, status: nat, body: Value)

  /** `response?.choices?.[0]?.message?.content`. */
  function ChoiceContent(response: Value): Value {
    Get(Get(At(Get(response, "choices"), 0), "message"), "content")
  }

  /** `data.choices[0].message.content` without optional chaining. */
  function ChoiceContentStrict(data: Value): (r: Result<Value, JsError>)
    ensures r.Ok? ==> r.value == ChoiceContent(data)
    ensures r.Err? <==> (IsNullish(data) || IsNullish(Get(data, "choices"))
      || IsNullish(At(Get(data, "choices"), 0)) || IsNullish(Get(At(Get(data, "choices"), 0), "message")))
  {
    match Member(data, "choices")
    case Err(e) => Err(e)
    case Ok(choices) =>
      match Element(choices, 0)
      case Err(e) => Err(e)
      case Ok(first) =>
        match Member(first, "message")
        case Err(e) => Err(e)
        case Ok(message) => Member(message, "content")
  }
}
