/**
 The server-side relay `POST /api/generate-logo`. The handler is a pure function
 of three abstract inputs: the completion of `req.json()`, the value of the
 `OPENAI_API_KEY` environment variable, and what the image provider's endpoint
 did with the one request the handler sends it. Its result records that
 request (if any) and the response the handler builds.
 */
module GenerateLogoRoute {
  import opened Optional
  import opened JsValues
  import ErrorMessages

  const ProviderEndpoint := "https://api.openai.com/v1/images/generations"
  const MissingKeyMessage := "OpenAI API key not set."
  const ImageCount := 1
  const ImageSize := "1024x1024"
  const ImageModel := "dall-e-3"

  /**
   The statuses a `fetch` to an HTTP server resolves with (informational
   replies never surface) and every status this handler answers with.
   */
  type HttpStatus = s: int | 200 <= s <= 599 witness 200

  /**
   The null body statuses of the Fetch standard in this range: `new Response`
   given a body together with one of them throws a `TypeError`.
   */
  predicate NullBodyStatus(status: HttpStatus)
  {
    status == 204 || status == 205 || status == 304
  }

  /** The `TypeError` the `Response` constructor throws for a body with a null body status (undici's wording). */
  function NullBodyError(status: HttpStatus): JsValue
  {
    ErrorObject("TypeError", "Response constructor: Invalid response status code " + Decimal(status))
  }

  /** `Response.ok`. */
  predicate IsOk(status: HttpStatus)
  {
    status <= 299
  }

  /** The outbound call: bearer credential plus the JSON body `{prompt, n, size, model}`. */
  datatype ProviderRequest = ProviderRequest(
    endpoint: string,
    authorization: string,
    prompt: JsValue,
    n: int,
    size: string,
    model: string)

  /**
   What the provider call did: `fetch` rejected, or it answered with a status,
   the body as text (read when not ok) and the body as JSON (read when ok;
   parsing may throw).
   */
  datatype ProviderReply =
    | Rejected(reason: JsValue)
    | Answered(status: HttpStatus, text: string, json: Completion<JsValue>)

  /** An HTTP response built by the handler, with its JSON body. */
  datatype Response = Response(status: HttpStatus, body: JsValue)

  /** One invocation: the provider request it sent, if any, and its response. */
  datatype Exchange = Exchange(sent: Option<ProviderRequest>, response: Response)

  /** The handler either answers, or throws before its `try` and answers nothing itself. */
  datatype Handled = Served(exchange: Exchange) | Crashed(reason: JsValue)

  /** `JSON.stringify({ error })` for a string `error`. */
  function ErrorEnvelope(message: string): JsValue
  {
    SingleField("error", Str(message))
  }

  /** `JSON.stringify({ url })`: a property whose value is `undefined` is dropped. */
  function UrlEnvelope(url: JsValue): (body: JsValue)
    ensures body.Obj? && "error" !in body.props
    ensures url != Undefined ==> body.props.Keys == {"url"} && body.props["url"] == url
    ensures url == Undefined ==> body.props == map[]
  {
    if url.Undefined? then Obj(map[]) else SingleField("url", url)
  }

  /** The response body is a JSON object with exactly one of `error` (a string) or `url`, or, when the url was `undefined`, no key at all. */
  predicate IsEnvelope(body: JsValue)
  {
    body.Obj? &&
    ((body.props.Keys == {"error"} && body.props["error"].Str?) ||
     body.props.Keys == {"url"} ||
     body.props == map[])
  }

  /** What V8 throws when `const { key } = await …` meets `null` or `undefined`. */
  function DestructureError(base: string, key: string): JsValue
  {
    ErrorObject("TypeError", "Cannot destructure property '" + key + "' of '(intermediate value)' as it is " + base + ".")
  }

  /** `const { prompt } = body`: like a property read, but with its own error text. */
  function Destructure(body: JsValue, key: string): (r: Completion<JsValue>)
    ensures r.Throw? <==> body.Null? || body.Undefined?
    ensures r.Normal? ==> r == Get(body, key)
  {
    match body
    case Null => Throw(DestructureError("null", key))
    case Undefined => Throw(DestructureError("undefined", key))
    case _ => Get(body, key)
  }

  /** The API key check `!apiKey`: unset, or set to the empty string. */
  predicate KeyMissing(apiKey: Option<string>)
  {
    apiKey.None? || apiKey.value == ""
  }

  /** The request built for a present key: only the prompt comes from the caller. */
  function OutboundRequest(key: string, prompt: JsValue): (req: ProviderRequest)
    ensures req.endpoint == ProviderEndpoint
    ensures req.authorization == "Bearer " + key
    ensures req.prompt == prompt
    ensures req.n == 1 && req.size == "1024x1024" && req.model == "dall-e-3"
  {
    ProviderRequest(ProviderEndpoint, "Bearer " + key, prompt, ImageCount, ImageSize, ImageModel)
  }

  /**
   `data.data[0].url`: three property reads, any of which may throw. For a
   body whose `data` is a list, it is the first element's `url`, and an empty
   list reads `url` of `undefined`.
   */
  function FirstImageUrl(data: JsValue): (r: Completion<JsValue>)
    ensures data.Null? || data.Undefined? ==> r.Throw?
    ensures data.Obj? && "data" in data.props && data.props["data"].Arr? && |data.props["data"].elems| > 0 ==>
              r == Get(data.props["data"].elems[0], "url")
    ensures data.Obj? && "data" in data.props && data.props["data"] == Arr([]) ==>
              r == Throw(ReadError("undefined", "url"))
    ensures data.Obj? && "data" !in data.props ==> r == Throw(ReadError("undefined", "0"))
  {
    FirstIndexKey();
    match Get(data, "data")
    case Throw(e) => Throw(e)
    case Normal(images) =>
      match Get(images, "0")
      case Throw(e) => Throw(e)
      case Normal(first) => Get(first, "url")
  }

  /** The catch block: status 500 and the normalised message. */
  function Failure(thrown: JsValue): (resp: Response)
    ensures resp.status == 500
    ensures resp.body == ErrorEnvelope(ErrorMessages.Describe(thrown))
  {
    Response(500, ErrorEnvelope(ErrorMessages.Describe(thrown)))
  }

  /** The body of the `try`, once the request has been sent: map the provider's reply to a response. */
  function Relay(reply: ProviderReply): (resp: Response)
    ensures IsEnvelope(resp.body)
    ensures resp.status == 200 <==> "error" !in resp.body.props
    ensures IsOk(resp.status) <==> resp.status == 200
  {
    match reply
    case Rejected(e) => Failure(e)
    case Answered(status, text, json) =>
      if !IsOk(status) then
        // `new Response(body, { status })` inside the `try`: a null body status throws to the `catch`
        if NullBodyStatus(status) then Failure(NullBodyError(status)) else Response(status, ErrorEnvelope(text))
      else
        match json
        case Throw(e) => Failure(e)
        case Normal(data) =>
          match FirstImageUrl(data)
          case Throw(e) => Failure(e)
          case Normal(url) => Response(200, UrlEnvelope(url))
  }

  /** The handler `POST`. */
  function Post(request: Completion<JsValue>, apiKey: Option<string>, reply: ProviderReply): (h: Handled)
    ensures h.Crashed? <==> request.Throw? || request.value.Null? || request.value.Undefined?
    ensures h.Served? ==> (h.exchange.sent.Some? <==> !KeyMissing(apiKey))
    ensures h.Served? ==> IsEnvelope(h.exchange.response.body)
  {
    match request
    case Throw(e) => Crashed(e)
    case Normal(body) =>
      match Destructure(body, "prompt")
      case Throw(e) => Crashed(e)
      case Normal(prompt) =>
        if KeyMissing(apiKey) then
          Served(Exchange(None, Response(500, ErrorEnvelope(MissingKeyMessage))))
        else
          Served(Exchange(Some(OutboundRequest(apiKey.value, prompt)), Relay(reply)))
  }

  // ---------------------------------------------------------------------------
  // Properties of the handler

  /** A missing or empty key answers 500 with the fixed message and calls nothing. */
  lemma MissingKeyAnswer(body: JsValue, apiKey: Option<string>, reply: ProviderReply)
    requires !body.Null? && !body.Undefined?
    requires KeyMissing(apiKey)
    ensures Post(Normal(body), apiKey, reply) ==
              Served(Exchange(None, Response(500, Obj(map["error" := Str("OpenAI API key not set.")]))))
  {
  }

  /** With a key, exactly one request goes out, carrying the caller's `prompt` and nothing else of the body. */
  lemma OneRequestWithPrompt(body: JsValue, key: string, reply: ProviderReply)
    requires body.Obj? && key != ""
    ensures var h := Post(Normal(body), Some(key), reply);
      && h.Served?
      && h.exchange.sent == Some(ProviderRequest(
           "https://api.openai.com/v1/images/generations", "Bearer " + key,
           if "prompt" in body.props then body.props["prompt"] else Undefined,
           1, "1024x1024", "dall-e-3"))
      && h.exchange.response == Relay(reply)
  {
  }

  /** Two request bodies with the same `prompt` produce the same provider request, whatever else they carry. */
  lemma OnlyPromptForwarded(b1: JsValue, b2: JsValue, key: string, reply: ProviderReply)
    requires b1.Obj? && b2.Obj? && key != ""
    requires ("prompt" in b1.props) == ("prompt" in b2.props)
    requires "prompt" in b1.props ==> b1.props["prompt"] == b2.props["prompt"]
    ensures Post(Normal(b1), Some(key), reply) == Post(Normal(b2), Some(key), reply)
  {
  }

  /**
   A non-ok provider answer is passed through: its status, and its raw text
   as the error; except 304, which `new Response` refuses with a body, so the
   `catch` answers 500 with the constructor's `TypeError` message.
   */
  lemma ProviderErrorPassedThrough(status: HttpStatus, text: string, json: Completion<JsValue>)
    requires status >= 300
    ensures status != 304 ==> Relay(Answered(status, text, json)) == Response(status, Obj(map["error" := Str(text)]))
    ensures status == 304 ==>
              Relay(Answered(status, text, json)) ==
              Response(500, Obj(map["error" := Str("Response constructor: Invalid response status code 304")]))
  {
    if status == 304 {
      var message := "Response constructor: Invalid response status code " + Decimal(304);
      assert Decimal(304) == "304" by {
        assert Decimal(30) == "30" by { assert Decimal(3) == "3"; }
      }
      assert message == "Response constructor: Invalid response status code 304";
      ErrorMessages.DescribeErrorObject("TypeError", message);
      assert Relay(Answered(status, text, json)) == Failure(NullBodyError(304));
    }
  }

  /**
   An ok answer whose `data` lists at least one image answers 200 with the
   envelope of the first image's `url`, whatever other fields the body and the
   image carry; a string url gives exactly `{url}`.
   */
  lemma FirstImageServed(status: HttpStatus, text: string, props: map<string, JsValue>, images: seq<JsValue>)
    requires status <= 299
    requires "data" in props && props["data"] == Arr(images) && |images| > 0 && images[0].Obj?
    ensures Relay(Answered(status, text, Normal(Obj(props)))) ==
              Response(200, UrlEnvelope(if "url" in images[0].props then images[0].props["url"] else Undefined))
    ensures "url" in images[0].props && images[0].props["url"].Str? ==>
              Relay(Answered(status, text, Normal(Obj(props)))) == Response(200, Obj(map["url" := images[0].props["url"]]))
  {
  }

  /** An ok answer with an empty image list is not a success: the read of `[0].url` throws inside the `try`. */
  lemma EmptyImageListFails(status: HttpStatus, text: string, props: map<string, JsValue>)
    requires status <= 299
    requires "data" in props && props["data"] == Arr([])
    ensures Relay(Answered(status, text, Normal(Obj(props))))
              == Response(500, Obj(map["error" := Str("Cannot read properties of undefined (reading 'url')")]))
  {
    var message := "Cannot read properties of undefined (reading 'url')";
    EmptyListReadThrows(props);
    ErrorMessages.DescribeErrorObject("TypeError", message);
  }

  /** `data.data[0].url` on an empty list reads `undefined.url`. */
  lemma EmptyListReadThrows(props: map<string, JsValue>)
    requires "data" in props && props["data"] == Arr([])
    ensures FirstImageUrl(Obj(props)) ==
              Throw(ErrorObject("TypeError", "Cannot read properties of undefined (reading 'url')"))
  {
    assert "Cannot read properties of " + "undefined" + " (reading '" + "url" + "')"
        == "Cannot read properties of undefined (reading 'url')";
  }

  /** A rejected call answers 500 with the thrown value's string `message`, or "Unknown error". */
  lemma RejectionNormalised(reason: JsValue)
    ensures Relay(Rejected(reason)).status == 500
    ensures ErrorMessages.HasTextMessage(reason) ==>
              Relay(Rejected(reason)).body == Obj(map["error" := reason.props["message"]])
    ensures !ErrorMessages.HasTextMessage(reason) ==>
              Relay(Rejected(reason)).body == Obj(map["error" := Str("Unknown error")])
  {
  }

  /** Parse failures happen before the `try`: the handler throws, even when the key is missing. */
  lemma ParseFailureNotEnveloped(thrown: JsValue, apiKey: Option<string>, reply: ProviderReply)
    ensures Post(Throw(thrown), apiKey, reply) == Crashed(thrown)
  {
  }
}
