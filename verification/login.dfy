/**
 The mock login screen. Submitting shows the loading state; 800 ms later a
 timer callback checks the email and password the submit handler saw, and
 either records the logged-in flag, notifies the parent and navigates, or
 shows an error. Storage, the parent's callback and navigation are effects
 the model returns rather than performs.
 */
module Login {
  import opened Optional

  const MissingFields := "Please enter email and password."
  const FlagKey := "is_logged_in"
  const FlagValue := "true"
  const AppPath := "/app"

  datatype Form = Form(email: string, password: string, loading: bool, error: Option<string>)

  /** The values the timer callback closes over: those of the render that handled the submit. */
  datatype Credentials = Credentials(email: string, password: string)

  /** `localStorage.setItem`, the optional `onLogin` prop, and `window.location.href = …`. */
  datatype Effect = StoreItem(key: string, value: string) | CallOnLogin | Navigate(href: string)

  function Initial(): (f: Form)
    ensures f.email == "" && f.password == "" && !f.loading && f.error == None
  {
    Form("", "", false, None)
  }

  /** The login button's `disabled` attribute. */
  predicate SubmitDisabled(f: Form)
  {
    f.loading
  }

  datatype Submitted = Submitted(form: Form, captured: Credentials)

  /** The submit handler: loading on, error cleared, timer armed with the current fields. */
  function Submit(f: Form): (r: Submitted)
    ensures r.form.loading && r.form.error == None
    ensures r.form.email == f.email && r.form.password == f.password
    ensures r.captured == Credentials(f.email, f.password)
  {
    Submitted(f.(loading := true, error := None), Credentials(f.email, f.password))
  }

  datatype Settled = Settled(form: Form, effects: seq<Effect>)

  /** What a successful check does, in order. */
  function LoginEffects(hasOnLogin: bool): seq<Effect>
  {
    [StoreItem(FlagKey, FlagValue)] + (if hasOnLogin then [CallOnLogin] else []) + [Navigate(AppPath)]
  }

  /** The timer callback: `email && password` on the captured values, then loading off in both branches. */
  function Fire(f: Form, captured: Credentials, hasOnLogin: bool): (r: Settled)
    ensures !r.form.loading
    ensures r.form.email == f.email && r.form.password == f.password
    ensures captured.email != "" && captured.password != "" ==>
              r.form.error == f.error &&
              r.effects == [StoreItem("is_logged_in", "true")] + (if hasOnLogin then [CallOnLogin] else []) + [Navigate("/app")]
    ensures captured.email == "" || captured.password == "" ==>
              r.form.error == Some("Please enter email and password.") && r.effects == []
  {
    if captured.email != "" && captured.password != "" then
      Settled(f.(loading := false), LoginEffects(hasOnLogin))
    else
      Settled(f.(error := Some(MissingFields), loading := false), [])
  }

  // ---------------------------------------------------------------------------
  // The screen as an event machine

  datatype Event = EditEmail(text: string) | EditPassword(text: string) | PressLogin | TimerFires

  /** The form, the timer pending (with its captured values), and the effects performed so far. */
  datatype Screen = Screen(form: Form, pending: Option<Credentials>, effects: seq<Effect>)

  /** One event; the fields stay editable while the timer is pending, the button does not. */
  function Handle(s: Screen, hasOnLogin: bool, e: Event): (s': Screen)
    ensures |s.effects| <= |s'.effects| && s'.effects[..|s.effects|] == s.effects
    ensures s'.effects != s.effects ==> e.TimerFires? && s.pending.Some?
    ensures s'.pending.Some? && s'.pending != s.pending ==>
              e.PressLogin? && !s.form.loading && s'.pending == Some(Credentials(s.form.email, s.form.password))
    ensures e.EditEmail? ==> s' == s.(form := s.form.(email := e.text))
    ensures e.EditPassword? ==> s' == s.(form := s.form.(password := e.text))
  {
    match e
    case EditEmail(text) => s.(form := s.form.(email := text))
    case EditPassword(text) => s.(form := s.form.(password := text))
    case PressLogin =>
      if SubmitDisabled(s.form) then s
      else
        var sub := Submit(s.form);
        Screen(sub.form, Some(sub.captured), s.effects)
    case TimerFires =>
      match s.pending
      case None => s
      case Some(c) =>
        var r := Fire(s.form, c, hasOnLogin);
        Screen(r.form, None, s.effects + r.effects)
  }

  function Run(s: Screen, hasOnLogin: bool, events: seq<Event>): Screen
    decreases |events|
  {
    if events == [] then s else Run(Handle(s, hasOnLogin, events[0]), hasOnLogin, events[1..])
  }

  /**
   What every reachable screen satisfies: a timer is pending exactly while
   loading, and no error shows meanwhile; the effects so far are whole
   successful logins, each the flag write, the callback if there is one, and
   the navigation.
   */
  predicate Consistent(s: Screen, hasOnLogin: bool)
  {
    && (s.form.loading <==> s.pending.Some?)
    && (s.form.loading ==> s.form.error == None)
    && Logins(s.effects, hasOnLogin)
  }

  /** `effects` is some number of complete login effect sequences, back to back. */
  predicate Logins(effects: seq<Effect>, hasOnLogin: bool)
    decreases |effects|
  {
    var n := |LoginEffects(hasOnLogin)|;
    effects == [] ||
    (|effects| >= n && effects[..n] == LoginEffects(hasOnLogin) && Logins(effects[n..], hasOnLogin))
  }

  lemma {:induction false} LoginsAppend(effects: seq<Effect>, hasOnLogin: bool)
    requires Logins(effects, hasOnLogin)
    ensures Logins(effects + LoginEffects(hasOnLogin), hasOnLogin)
    decreases |effects|
  {
    var n := |LoginEffects(hasOnLogin)|;
    var e := effects + LoginEffects(hasOnLogin);
    if effects == [] {
      assert e == LoginEffects(hasOnLogin);
      assert e[..n] == LoginEffects(hasOnLogin);
      assert e[n..] == [];
    } else {
      LoginsAppend(effects[n..], hasOnLogin);
      assert e[..n] == effects[..n];
      assert e[n..] == effects[n..] + LoginEffects(hasOnLogin);
    }
  }

  lemma HandleKeepsConsistent(s: Screen, hasOnLogin: bool, e: Event)
    requires Consistent(s, hasOnLogin)
    ensures Consistent(Handle(s, hasOnLogin, e), hasOnLogin)
  {
    if e.TimerFires? && s.pending.Some? {
      var r := Fire(s.form, s.pending.value, hasOnLogin);
      if r.effects == [] {
        assert s.effects + r.effects == s.effects;
      } else {
        LoginsAppend(s.effects, hasOnLogin);
      }
    }
  }

  /** Every sequence of events keeps the screen consistent. */
  lemma {:induction false} RunConsistent(s: Screen, hasOnLogin: bool, events: seq<Event>)
    requires Consistent(s, hasOnLogin)
    ensures Consistent(Run(s, hasOnLogin, events), hasOnLogin)
    decreases |events|
  {
    if events != [] {
      HandleKeepsConsistent(s, hasOnLogin, events[0]);
      RunConsistent(Handle(s, hasOnLogin, events[0]), hasOnLogin, events[1..]);
    }
  }

  /** The button ignores presses exactly while loading; otherwise a press arms the timer. */
  lemma PressLoginGuard(s: Screen, hasOnLogin: bool)
    ensures s.form.loading ==> Handle(s, hasOnLogin, PressLogin) == s
    ensures !s.form.loading ==>
              Handle(s, hasOnLogin, PressLogin).pending == Some(Credentials(s.form.email, s.form.password))
  {
  }

  /** The first effect of any run is the flag write, and `onLogin` is never called when it was not given. */
  lemma LoginsShape(effects: seq<Effect>, hasOnLogin: bool)
    requires Logins(effects, hasOnLogin)
    ensures effects != [] ==> effects[0] == StoreItem("is_logged_in", "true")
    ensures !hasOnLogin ==> CallOnLogin !in effects
  {
    if !hasOnLogin {
      LoginsNoCallback(effects);
    }
  }

  lemma {:induction false} LoginsNoCallback(effects: seq<Effect>)
    requires Logins(effects, false)
    ensures CallOnLogin !in effects
    decreases |effects|
  {
    if effects != [] {
      LoginsNoCallback(effects[2..]);
      assert effects == effects[..2] + effects[2..];
    }
  }

  /** The callback checks the values seen at submit time: clearing a field while waiting does not stop the login. */
  lemma StaleCredentials(email: string, password: string)
    requires email != "" && password != ""
    ensures var s := Run(Screen(Initial(), None, []), false,
                         [EditEmail(email), EditPassword(password), PressLogin, EditEmail(""), TimerFires]);
      s.effects == [StoreItem("is_logged_in", "true"), Navigate("/app")] && s.form.email == ""
  {
    var s0 := Screen(Initial(), None, []);
    var es := [EditEmail(email), EditPassword(password), PressLogin, EditEmail(""), TimerFires];
    var s1 := Handle(s0, false, es[0]);
    var s2 := Handle(s1, false, es[1]);
    var s3 := Handle(s2, false, es[2]);
    var s4 := Handle(s3, false, es[3]);
    var s5 := Handle(s4, false, es[4]);
    assert s3.pending == Some(Credentials(email, password));
    assert s5.effects == [StoreItem("is_logged_in", "true"), Navigate("/app")];
    assert Run(s4, false, es[4..]) == s5 by {
      assert es[4..][1..] == [];
    }
    assert Run(s3, false, es[3..]) == Run(s4, false, es[4..]) by { assert es[3..][1..] == es[4..]; }
    assert Run(s2, false, es[2..]) == Run(s3, false, es[3..]) by { assert es[2..][1..] == es[3..]; }
    assert Run(s1, false, es[1..]) == Run(s2, false, es[2..]) by { assert es[1..][1..] == es[2..]; }
  }
}
