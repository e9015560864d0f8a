/**
 The relay and the generate screen together: whatever the relay answers is
 turned by the screen into either the image or an error text, never both.
 The response body is taken to reach the screen's `res.json()` unchanged.
 */
module GenerateAndShow {
  import opened Optional
  import opened JsValues
  import opened GenerateLogoRoute
  import LogoApp

  /** What the screen makes of the relay's reply. */
  function Shown(s: LogoApp.Screen, resp: Response): LogoApp.Screen
  {
    LogoApp.Settle(s, LogoApp.Received(IsOk(resp.status), Normal(resp.body)))
  }

  /**
   After a submit, any reply the relay builds from the provider's shows either
   the url (status 200) or the relay's error text, with the screen's fallback
   text standing in for an empty one.
   */
  lemma RelayReplyShown(s: LogoApp.Screen, reply: ProviderReply)
    requires s.error == None && s.imageUrl == Null
    ensures var resp := Relay(reply);
      var s' := Shown(s, resp);
      && !s'.loading
      && (resp.status == 200 ==>
            s'.error == None &&
            s'.imageUrl == (if "url" in resp.body.props then resp.body.props["url"] else Undefined))
      && (resp.status != 200 ==>
            s'.imageUrl == Null &&
            s'.error == Some(if resp.body.props["error"].s != "" then resp.body.props["error"].s
                             else "Failed to generate logo"))
  {
    var resp := Relay(reply);
    if resp.status != 200 {
      LogoApp.NotOkShowsError(s, resp.body.props);
    }
  }

  /** Without a key, the screen shows the relay's configuration message. */
  lemma MissingKeyShown(s: LogoApp.Screen, body: JsValue, apiKey: Option<string>, reply: ProviderReply)
    requires body.Obj? && KeyMissing(apiKey)
    ensures var h := Post(Normal(body), apiKey, reply);
      h.Served? && Shown(s, h.exchange.response).error == Some("OpenAI API key not set.")
  {
    var h := Post(Normal(body), apiKey, reply);
    LogoApp.NotOkShowsError(s, h.exchange.response.body.props);
  }

  /** The screen's request body reaches the provider with its prompt unchanged. */
  lemma PromptReachesProvider(prompt: string, key: string, reply: ProviderReply)
    requires key != ""
    ensures var h := Post(Normal(LogoApp.RequestBody(prompt)), Some(key), reply);
      h.Served? && h.exchange.sent.Some? && h.exchange.sent.value.prompt == Str(prompt)
  {
  }
}
