/**
 * The AI service: which text `getAIResponse(prompt:)` hands back. The API key comes from
 * the configuration lookup; building the request, the network exchange and the JSON
 * decoding are inputs, and the model follows the service's ladder of fallbacks over them.
 */
module AIService {
  import opened Wrappers
  import opened Text
  import Environment

  /** `errorMesage`, returned for every failure without a message of its own. */
  const ErrorMessage := "Error: Unable to generative AI response"

  /** `apiKeyMissingMessage`. */
  const ApiKeyMissingMessage := "API anahtarı bulunamadı. " + "Lütfen OpenAI API anahtarınızı ayarlayın."

  /** The reply when the decoded response has no choices. */
  const NoResponseFound := "No Response Found"

  /** The prefix of an error message reported by the API. */
  const ApiErrorPrefix := "API Error: "

  /** The text of the template before the user's prompt. */
  const PromptLead := "Bana 5 adımda "

  /** The text of the template after the user's prompt. */
  const PromptTail :=
    " öğrenmek için öğretici ve sıralı bir yapılacaklar listesi oluştur." +
    " Her adımda, gerekli araçlar, kaynak önerileri ve başlangıç noktaları ver" +
    " ve bunların ortalama kaç hafta süreceği aralığı da yaz" +
    " ve yanıtını 2000 karakteri geçmeyecek şekilde özetle" +
    " ve sadece Adımları yazdır , en son bir öneride sakın bulunma"

  /** The Turkish template every user prompt is wrapped in before it is sent. */
  function WrapPrompt(prompt: string): (r: string)
    ensures |r| == |PromptLead| + |prompt| + |PromptTail|
    ensures r[..|PromptLead|] == PromptLead && r[|r| - |PromptTail|..] == PromptTail
  {
    PromptLead + prompt + PromptTail
  }

  /** Reads the user's prompt back out of a wrapped one; `None` if `s` is not one. */
  function UnwrapPrompt(s: string): Option<string>
  {
    if |s| >= |PromptLead| + |PromptTail| && s[..|PromptLead|] == PromptLead &&
       s[|s| - |PromptTail|..] == PromptTail
    then Some(s[|PromptLead|..|s| - |PromptTail|])
    else None
  }

  /** Wrapping loses nothing: the prompt is read back from the template. */
  lemma UnwrapWrap(prompt: string)
    ensures UnwrapPrompt(WrapPrompt(prompt)) == Some(prompt)
  {
    var s := WrapPrompt(prompt);
    assert s[..|PromptLead|] == PromptLead;
    assert s[|s| - |PromptTail|..] == PromptTail;
    assert s[|PromptLead|..|s| - |PromptTail|] == prompt;
  }

  /** Different prompts are sent as different requests. */
  lemma WrapPromptInjective(a: string, b: string)
    requires WrapPrompt(a) == WrapPrompt(b)
    ensures a == b
  {
    UnwrapWrap(a);
    UnwrapWrap(b);
  }

  /** What `buildRequest` puts together from the service's inputs. */
  datatype Request = Request(prompt: string, apiKey: string)

  /**
   * The response body. `Decoded` is a body that decodes as `AIResponse`, holding each
   * choice's message content; `Undecodable` is any other body, with `error.message` when
   * the raw JSON is an object whose "error" object has a string "message".
   */
  datatype Payload = Decoded(choices: seq<string>) | Undecodable(errorMessage: Option<string>)

  /** What `sendRequest` gives: the body, or a thrown transport error. */
  datatype Transport = Delivered(data: Payload) | TransportFailed

  /** The text returned, and the request that went out, if any. */
  datatype Exchange = Exchange(response: string, sent: Option<Request>)

  /** `decodeResponse(_:)`. */
  function DecodeResponse(data: Payload): (r: string)
    ensures data.Decoded? && data.choices != [] ==> r == data.choices[0]
    ensures data.Decoded? && data.choices == [] ==> r == NoResponseFound
    ensures data.Undecodable? && data.errorMessage.Some? ==>
      StartsWith(r, ApiErrorPrefix) && ApiErrorDetail(r) == data.errorMessage
    ensures data.Undecodable? && data.errorMessage.None? ==> r == ErrorMessage
  {
    match data
    case Decoded(choices) => if choices != [] then choices[0] else NoResponseFound
    case Undecodable(errorMessage) =>
      if errorMessage.Some? then
        ApiErrorRoundTrip(errorMessage.value);
        ApiErrorPrefix + errorMessage.value
      else ErrorMessage
  }

  /** The API's own message inside an "API Error: " reply. */
  function ApiErrorDetail(s: string): Option<string>
  {
    if StartsWith(s, ApiErrorPrefix) then Some(s[|ApiErrorPrefix|..]) else None
  }

  lemma ApiErrorRoundTrip(m: string)
    ensures StartsWith(ApiErrorPrefix + m, ApiErrorPrefix)
    ensures ApiErrorDetail(ApiErrorPrefix + m) == Some(m)
  {
    assert (ApiErrorPrefix + m)[..|ApiErrorPrefix|] == ApiErrorPrefix;
    assert (ApiErrorPrefix + m)[|ApiErrorPrefix|..] == m;
  }

  /**
   * `getAIResponse(prompt:)`: with no API key it answers the key-missing message and sends
   * nothing; if the request cannot be built (`built` false) it answers the generic error and
   * sends nothing; otherwise it sends the wrapped prompt with the key and answers the generic
   * error on a transport failure, or the decoded body.
   */
  function GetAIResponse(prompt: string, env: Environment.Sources, built: bool, transport: Transport): (r: Exchange)
    ensures r.sent.Some? <==> Environment.ApiKey(env).Some? && built
    ensures Environment.ApiKey(env).None? ==> r.response == ApiKeyMissingMessage
    ensures Environment.ApiKey(env).Some? && !built ==> r.response == ErrorMessage
    ensures r.sent.Some? ==>
      r.sent.value.apiKey == Environment.ApiKey(env).value &&
      UnwrapPrompt(r.sent.value.prompt) == Some(prompt) &&
      r.response == (if transport.TransportFailed? then ErrorMessage else DecodeResponse(transport.data))
  {
    var apiKey := Environment.ApiKey(env);
    if apiKey.None? then Exchange(ApiKeyMissingMessage, None)
    else if !built then Exchange(ErrorMessage, None)
    else
      var request := Request(WrapPrompt(prompt), apiKey.value);
      UnwrapWrap(prompt);
      match transport
      case TransportFailed => Exchange(ErrorMessage, Some(request))
      case Delivered(data) => Exchange(DecodeResponse(data), Some(request))
  }

  /**
   * The reply is always one of the ladder's answers: the key-missing message, the generic
   * error, "No Response Found", the first choice of a decoded body, or the API's error
   * message after "API Error: ".
   */
  lemma ResponseIsFromLadder(prompt: string, env: Environment.Sources, built: bool, transport: Transport)
    ensures var r := GetAIResponse(prompt, env, built, transport).response;
      r == ApiKeyMissingMessage || r == ErrorMessage || r == NoResponseFound ||
      (transport.Delivered? && transport.data.Decoded? && r in transport.data.choices) ||
      (transport.Delivered? && transport.data.Undecodable? && transport.data.errorMessage.Some? &&
       ApiErrorDetail(r) == transport.data.errorMessage)
  {
  }

  /**
   * Without a key nothing is sent whatever the network would do: the answer does not
   * depend on the request or the exchange.
   */
  lemma MissingKeyIgnoresNetwork(prompt: string, env: Environment.Sources, b1: bool, b2: bool, t1: Transport, t2: Transport)
    requires Environment.ApiKey(env).None?
    ensures GetAIResponse(prompt, env, b1, t1) == GetAIResponse(prompt, env, b2, t2)
  {
  }
}
