/**
 The main generate screen: a prompt field, a submit button, and the image or
 error shown after the request to the relay settles. Submitting and settling
 are atomic steps; the reply of the relay (or the failure to get one) is an
 abstract input.
 */
module LogoApp {
  import opened Optional
  import opened JsValues
  import ErrorMessages

  const RelayPath := "/api/generate-logo"
  const FallbackError := "Failed to generate logo"

  /** The component state: `imageUrl` holds whatever `data.url` was, as the code stores it unchecked. */
  datatype Screen = Screen(prompt: string, imageUrl: JsValue, loading: bool, error: Option<string>)

  /** What `fetch` and `res.json()` produced for the request: a rejection, or a status flag and a body. */
  datatype Reply = FetchRejected(reason: JsValue) | Received(ok: bool, json: Completion<JsValue>)

  function Initial(): (s: Screen)
    ensures s.prompt == "" && s.imageUrl == Null && !s.loading && s.error == None
  {
    Screen("", Null, false, None)
  }

  /** The submit button's `disabled` attribute. */
  predicate SubmitDisabled(s: Screen)
  {
    s.loading || s.prompt == ""
  }

  /** The JSON body the screen posts: the prompt and nothing else. */
  function RequestBody(prompt: string): JsValue
  {
    SingleField("prompt", Str(prompt))
  }

  datatype Submitted = Submitted(screen: Screen, body: JsValue)

  /** The part of the submit handler that runs before the request is issued. */
  function Submit(s: Screen): (r: Submitted)
    ensures r.screen.loading && r.screen.error == None && r.screen.imageUrl == Null
    ensures r.screen.prompt == s.prompt
    ensures r.body.Obj? && r.body.props.Keys == {"prompt"} && r.body.props["prompt"] == Str(s.prompt)
  {
    Submitted(s.(loading := true, error := None, imageUrl := Null), RequestBody(s.prompt))
  }

  /**
   The `try` block after `fetch`: the value handed to `setImageUrl`, or the
   value thrown to the `catch`. A not-ok reply throws `new Error(data.error ||
   "Failed to generate logo")`, whose message is `String` of that operand.
   */
  function Outcome(reply: Reply): (r: Completion<JsValue>)
    ensures reply.FetchRejected? ==> r == Throw(reply.reason)
    ensures reply.Received? && reply.json.Throw? ==> r == reply.json
    ensures r.Normal? ==> reply.Received? && reply.ok
    ensures reply.Received? && reply.ok && reply.json.Normal? && reply.json.value.Obj? ==>
              r == Normal(if "url" in reply.json.value.props then reply.json.value.props["url"] else Undefined)
    ensures reply.Received? && !reply.ok && reply.json.Normal? && reply.json.value.Obj? ==>
              var props := reply.json.value.props;
              r.Throw? && ErrorMessages.HasTextMessage(r.thrown) &&
              r.thrown.props["message"].s ==
                (if "error" in props && Truthy(props["error"]) then ToString(props["error"]) else "Failed to generate logo")
  {
    match reply
    case FetchRejected(e) => Throw(e)
    case Received(ok, json) =>
      match json
      case Throw(e) => Throw(e)
      case Normal(data) =>
        if !ok then
          match Get(data, "error")
          case Throw(e) => Throw(e)
          case Normal(v) => Throw(ErrorObject("Error", ToString(if Truthy(v) then v else Str(FallbackError))))
        else Get(data, "url")
  }

  /** The rest of the submit handler once the request settles: `finally` clears `loading`. */
  function Settle(s: Screen, reply: Reply): (s': Screen)
    ensures !s'.loading && s'.prompt == s.prompt
    ensures Outcome(reply).Normal? ==> s'.imageUrl == Outcome(reply).value && s'.error == s.error
    ensures Outcome(reply).Throw? ==>
              s'.imageUrl == s.imageUrl && s'.error == Some(ErrorMessages.Describe(Outcome(reply).thrown))
  {
    match Outcome(reply)
    case Normal(url) => s.(imageUrl := url, loading := false)
    case Throw(e) => s.(error := Some(ErrorMessages.Describe(e)), loading := false)
  }

  // ---------------------------------------------------------------------------
  // What a settled request shows

  /** An ok reply shows `data.url` and no error. */
  lemma OkShowsUrl(s: Screen, props: map<string, JsValue>)
    requires s.error == None
    ensures Settle(s, Received(true, Normal(Obj(props)))).imageUrl ==
              (if "url" in props then props["url"] else Undefined)
    ensures Settle(s, Received(true, Normal(Obj(props)))).error == None
  {
  }

  /** A not-ok reply shows a non-empty string `error` verbatim; a missing or empty one shows the fallback. */
  lemma NotOkShowsError(s: Screen, props: map<string, JsValue>)
    ensures "error" in props && props["error"].Str? && props["error"].s != "" ==>
              Settle(s, Received(false, Normal(Obj(props)))).error == Some(props["error"].s)
    ensures "error" !in props || !Truthy(props["error"]) ==>
              Settle(s, Received(false, Normal(Obj(props)))).error == Some("Failed to generate logo")
    ensures Settle(s, Received(false, Normal(Obj(props)))).imageUrl == s.imageUrl
  {
    if "error" in props && Truthy(props["error"]) {
      ErrorMessages.DescribeErrorObject("Error", ToString(props["error"]));
    } else {
      ErrorMessages.DescribeErrorObject("Error", FallbackError);
    }
  }

  /** A truthy `error` that is not a string is shown as `String` of it, e.g. "[object Object]". */
  lemma NotOkShowsStringOfError(s: Screen, props: map<string, JsValue>)
    requires "error" in props && Truthy(props["error"])
    ensures Settle(s, Received(false, Normal(Obj(props)))).error == Some(ToString(props["error"]))
  {
    ErrorMessages.DescribeErrorObject("Error", ToString(props["error"]));
  }

  /** A rejection, or a body that is not JSON, shows the same normalised message as the relay's. */
  lemma FailureNormalised(s: Screen, thrown: JsValue, ok: bool)
    ensures Settle(s, FetchRejected(thrown)).error == Some(ErrorMessages.Describe(thrown))
    ensures Settle(s, Received(ok, Throw(thrown))).error == Some(ErrorMessages.Describe(thrown))
    ensures !ErrorMessages.HasTextMessage(thrown) ==>
              Settle(s, FetchRejected(thrown)).error == Some("Unknown error")
  {
  }

  // ---------------------------------------------------------------------------
  // The screen as an event machine

  /** Typing in the prompt, pressing the submit button, or the pending request settling. */
  datatype Event = EditPrompt(text: string) | PressGenerate | Respond(reply: Reply)

  /** A screen after some events: its state and the request bodies it has posted, in order. */
  datatype Trace = Trace(screen: Screen, posted: seq<JsValue>, settled: nat)

  /**
   One event. The field stays editable while a request is pending; a press
   on the disabled button does nothing; only a pending request can settle.
   */
  function Handle(t: Trace, e: Event): (t': Trace)
    ensures |t.posted| <= |t'.posted| <= |t.posted| + 1 && t'.posted[..|t.posted|] == t.posted
    ensures |t'.posted| == |t.posted| + 1 <==> e.PressGenerate? && !SubmitDisabled(t.screen)
    ensures t'.settled == t.settled + (if e.Respond? && t.screen.loading then 1 else 0)
    ensures e.EditPrompt? ==> t' == t.(screen := t.screen.(prompt := e.text))
    ensures !t.screen.loading && !e.PressGenerate? ==> t'.screen.imageUrl == t.screen.imageUrl && t'.screen.error == t.screen.error
  {
    var s := t.screen;
    match e
    case EditPrompt(text) => t.(screen := s.(prompt := text))
    case PressGenerate =>
      if SubmitDisabled(s) then t
      else
        var sub := Submit(s);
        Trace(sub.screen, t.posted + [sub.body], t.settled)
    case Respond(reply) =>
      if s.loading then Trace(Settle(s, reply), t.posted, t.settled + 1) else t
  }

  function Run(t: Trace, events: seq<Event>): Trace
    decreases |events|
  {
    if events == [] then t else Run(Handle(t, events[0]), events[1..])
  }

  /**
   What every reachable screen satisfies: at most one request is pending, and
   it is pending exactly while `loading`; a pending request shows neither image
   nor error; an error is never shown beside an image; every posted body is a
   non-empty prompt.
   */
  predicate Consistent(t: Trace)
  {
    && |t.posted| == t.settled + (if t.screen.loading then 1 else 0)
    && (t.screen.loading ==> t.screen.error == None && t.screen.imageUrl == Null)
    && (t.screen.error.Some? ==> t.screen.imageUrl == Null)
    && (forall i :: 0 <= i < |t.posted| ==> IsPromptBody(t.posted[i]))
  }

  /** `{ prompt }` with a non-empty prompt string, and no other field. */
  predicate IsPromptBody(body: JsValue)
  {
    body.Obj? && body.props.Keys == {"prompt"} && body.props["prompt"].Str? && body.props["prompt"].s != ""
  }

  lemma HandleKeepsConsistent(t: Trace, e: Event)
    requires Consistent(t)
    ensures Consistent(Handle(t, e))
  {
    var s := t.screen;
    if e.PressGenerate? && !SubmitDisabled(s) {
      var t' := Handle(t, e);
      forall i | 0 <= i < |t'.posted|
        ensures IsPromptBody(t'.posted[i])
      {
        if i == |t.posted| {
          assert t'.posted[i] == RequestBody(s.prompt);
        } else {
          assert t'.posted[i] == t.posted[i];
        }
      }
    }
  }

  /** From the initial screen, every sequence of events leaves the screen consistent. */
  lemma {:induction false} RunConsistent(t: Trace, events: seq<Event>)
    requires Consistent(t)
    ensures Consistent(Run(t, events))
    decreases |events|
  {
    if events != [] {
      HandleKeepsConsistent(t, events[0]);
      RunConsistent(Handle(t, events[0]), events[1..]);
    }
  }

  /** A press posts a request exactly when the button is enabled: not loading and a non-empty prompt. */
  lemma PressGenerateGuard(t: Trace)
    ensures |Handle(t, PressGenerate).posted| == |t.posted| + 1 <==> !t.screen.loading && t.screen.prompt != ""
    ensures |Handle(t, PressGenerate).posted| == |t.posted| ==> Handle(t, PressGenerate) == t
  {
  }

  /** The initial screen has posted nothing and is consistent. */
  lemma InitialConsistent()
    ensures Consistent(Trace(Initial(), [], 0))
  {
  }

  /** Editing while a request is pending does not change the body already posted. */
  lemma EditDuringRequestKeepsPosted(prompt: string, edit: string)
    requires prompt != ""
    ensures var t := Run(Trace(Initial(), [], 0), [EditPrompt(prompt), PressGenerate, EditPrompt(edit)]);
      t.posted == [RequestBody(prompt)] && t.screen.prompt == edit && t.screen.loading
  {
    var t0 := Trace(Initial(), [], 0);
    var t1 := Handle(t0, EditPrompt(prompt));
    var t2 := Handle(t1, PressGenerate);
    assert t2.posted == [RequestBody(prompt)];
    assert [EditPrompt(prompt), PressGenerate, EditPrompt(edit)][1..] == [PressGenerate, EditPrompt(edit)];
    assert [PressGenerate, EditPrompt(edit)][1..] == [EditPrompt(edit)];
    assert [EditPrompt(edit)][1..] == [];
    var t3 := Handle(t2, EditPrompt(edit));
    assert Run(t2, [EditPrompt(edit)]) == Run(t3, []) == t3;
    assert Run(t1, [PressGenerate, EditPrompt(edit)]) == Run(t2, [EditPrompt(edit)]);
  }
}
