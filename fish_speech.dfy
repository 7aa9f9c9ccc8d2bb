/**
 * The Fish Speech service: alias substitution, the request payload, and the
 * status check on the reply.  The POST itself is outside the model; its
 * reply is an input.
 */
module FishSpeech {
  import opened Wrappers
  import opened PyDict
  import opened Bytes
  import opened JsonValue
  import opened Http
  import Aliases

  /** The synthesis arguments that pass through to the payload unchanged. */
  datatype Params = Params(
    chunkLength: int, seed: int, useMemoryCache: string, normalize: bool, streaming: bool,
    maxNewTokens: int, topP: real, repetitionPenalty: real, temperature: real)

  /** The defaults of `text_to_speech` (and of `play_from_text`). */
  const DefaultParams := Params(200, -1, "off", true, false, 1024, 0.8, 1.1, 0.8)

  /** The JSON body of the request. */
  datatype Payload = Payload(text: string, format: string, params: Params)

  datatype Request = Request(url: string, payload: Payload)

  class FishSpeechService {
    const apiUrl: string

    constructor(apiUrl: string)
      ensures this.apiUrl == apiUrl
    {
      this.apiUrl := apiUrl;
    }

    /**
     * `text_to_speech`: the text with every alias replaced (case-sensitive,
     * in map order) is posted with format "wav" and the other arguments as
     * given; a non-2xx reply raises, any other returns its content.
     */
    method TextToSpeech(text: string, alias: Dict<string, string>, params: Params, reply: Response)
      returns (sent: Request, r: Res<Bytes>)
      ensures sent.url == apiUrl
      ensures sent.payload.text == Aliases.Substituted(text, alias, |alias|)
      ensures alias == [] ==> sent.payload.text == text
      ensures sent.payload.format == "wav" && sent.payload.params == params
      ensures r.Ok? <==> HttpxOk(reply.status)
      ensures r.Ok? ==> r.value == reply.content
      ensures r.Err? ==> r.error == HttpStatusError(reply.status)
    {
      var formatText := Aliases.Substitute(text, alias);
      sent := Request(apiUrl, Payload(formatText, "wav", params));
      r := RaiseForStatus(reply);
    }
  }
}
