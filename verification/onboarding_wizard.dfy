/**
 The six-step onboarding wizard: a welcome page, the brand-name input, three
 single-choice pages (style, palette, aspect ratio) and a closing page. Its
 state is the step index and the four values collected so far.
 */
module OnboardingWizard {
  import opened Flow

  const BrandStyles: seq<string> := ["Modern", "Minimal", "Bold", "Retro", "Elegant"]
  const Palettes: seq<string> := ["Vibrant", "Muted", "Monochrome", "Pastel"]
  const Aspects: seq<string> := ["1:1", "16:9", "4:3", "3:2"]

  /** What a step shows besides its title and description. */
  datatype Kind =
    | Info
    | TextInput(inputLabel: string, placeholder: string)
    | Choice(options: seq<string>, inputLabel: string)

  datatype StepDef = StepDef(title: string, description: string, kind: Kind)

  const Steps: seq<StepDef> := [
    StepDef("Welcome to LogoGen!",
            "Effortlessly generate modern, professional logos with AI. No design skills required.",
            Info),
    StepDef("What's your brand name?",
            "Enter the name you want to appear in your logo.",
            TextInput("Brand Name", "e.g. Acme Corp")),
    StepDef("Pick your style",
            "Choose a logo style that fits your brand.",
            Choice(BrandStyles, "Style")),
    StepDef("Choose a color palette",
            "Pick a color palette for your logo.",
            Choice(Palettes, "Palette")),
    StepDef("Select aspect ratio",
            "Choose the shape of your logo.",
            Choice(Aspects, "Aspect Ratio")),
    StepDef("You're ready!",
            "Let's create your first logo.",
            Info)
  ]

  /** The step being shown; its type is what keeps `Steps[step]` in bounds. */
  type StepIndex = i: nat | i < |Steps|

  const LastStep: StepIndex := |Steps| - 1
  const BrandStep: StepIndex := 1

  datatype Wizard = Wizard(step: StepIndex, brand: string, style: string, palette: string, aspect: string)

  /** What the user can do on the screen: the two buttons, an option button, typing in the input. */
  datatype Event = Next | Skip | Pick(option: string) | Type(text: string)

  /** The selections are always options of their lists, and past the input step a brand has been entered. */
  predicate Valid(w: Wizard)
  {
    && w.style in BrandStyles
    && w.palette in Palettes
    && w.aspect in Aspects
    && (w.step > BrandStep ==> w.brand != "")
  }

  /** First step, empty brand, and the first option of each list. */
  function Start(): (w: Wizard)
    ensures Valid(w)
    ensures w.step == 0 && w.brand == ""
    ensures w.style == "Modern" && w.palette == "Vibrant" && w.aspect == "1:1"
  {
    Wizard(0, "", BrandStyles[0], Palettes[0], Aspects[0])
  }

  /** The `disabled` attribute of "Next": the input step with nothing typed. */
  predicate NextDisabled(w: Wizard)
  {
    Steps[w.step].kind.TextInput? && w.brand == ""
  }

  /** "Next" (labelled "Start" on the last step), when it can be pressed. */
  function HandleNext(w: Wizard): (f: Flow<Wizard>)
    ensures w.step < LastStep ==> f == Showing(w.(step := w.step + 1))
    ensures w.step == LastStep ==> f == Left(ByNext, "/app", w)
  {
    if w.step == LastStep then Left(ByNext, Home, w) else Showing(w.(step := w.step + 1))
  }

  /** The option buttons' click handler: the step's label decides which value it sets. */
  function Choose(w: Wizard, option: string): (w': Wizard)
    requires Steps[w.step].kind.Choice?
    ensures w'.step == w.step && w'.brand == w.brand
  {
    var name := Steps[w.step].kind.inputLabel;
    var w1 := if name == "Style" then w.(style := option) else w;
    var w2 := if name == "Palette" then w1.(palette := option) else w1;
    if name == "Aspect Ratio" then w2.(aspect := option) else w2
  }

  /** The input's change handler. */
  function TypeBrand(w: Wizard, text: string): Wizard
  {
    w.(brand := text)
  }

  /**
   One user action. Controls that are not on the screen, or are disabled,
   do nothing: the input exists only on the input step, option buttons only
   for the current step's options, and "Next" only while enabled.
   */
  function Handle(w: Wizard, e: Event): (f: Flow<Wizard>)
    ensures e.Skip? ==> f == HandleSkip(w)
    ensures f.Left? <==> e.Skip? || (e.Next? && w.step == LastStep)
    ensures f.Left? ==> f.route == "/app" && f.state == w
    ensures f.state.step != w.step ==> e.Next? && !NextDisabled(w) && f.state == w.(step := w.step + 1)
    ensures f.state.brand != w.brand ==> e.Type? && w.step == BrandStep
  {
    var kind := Steps[w.step].kind;
    match e
    case Next => if NextDisabled(w) then Showing(w) else HandleNext(w)
    case Skip => HandleSkip(w)
    case Pick(option) =>
      if kind.Choice? && option in kind.options then Showing(Choose(w, option)) else Showing(w)
    case Type(text) =>
      if kind.TextInput? then Showing(TypeBrand(w, text)) else Showing(w)
  }

  // ---------------------------------------------------------------------------
  // Properties

  /** "Next" is disabled exactly on the input step with an empty brand. */
  lemma NextDisabledExactly(w: Wizard)
    ensures NextDisabled(w) <==> w.step == 1 && w.brand == ""
  {
  }

  /** Each option button sets only the value its step's label names. */
  lemma ChooseSetsNamedValue(w: Wizard, option: string)
    requires Steps[w.step].kind.Choice?
    ensures w.step == 2 ==> Choose(w, option) == w.(style := option)
    ensures w.step == 3 ==> Choose(w, option) == w.(palette := option)
    ensures w.step == 4 ==> Choose(w, option) == w.(aspect := option)
  {
  }

  /** Every action keeps the wizard valid. */
  lemma HandleKeepsValid(w: Wizard, e: Event)
    requires Valid(w)
    ensures Valid(Handle(w, e).state)
  {
    var kind := Steps[w.step].kind;
    if e.Pick? && kind.Choice? && e.option in kind.options {
      assert w.step == 2 || w.step == 3 || w.step == 4;
    }
  }

  /** Whatever the user does, the selections stay within their lists and the step past input carries a brand. */
  lemma {:induction false} RunStaysValid(events: seq<Event>)
    ensures Valid(Run(Handle, Start(), events).state)
  {
    forall t: Wizard, e: Event | Valid(t)
      ensures Valid(Handle(t, e).state)
    {
      HandleKeepsValid(t, e);
    }
    RunKeeps(Handle, Valid, Start(), events);
  }

  /** Finishing by "Start" (not "Skip") always carries a non-empty brand. */
  lemma FinishCarriesBrand(events: seq<Event>)
    requires Run(Handle, Start(), events).Left?
    requires Run(Handle, Start(), events).how == ByNext
    ensures Run(Handle, Start(), events).state.brand != ""
  {
    RunStaysValid(events);
    ByNextOnlyFromLast(Start(), events);
  }

  /** A run only leaves by "Next" from the last step. */
  lemma {:induction false} ByNextOnlyFromLast(w: Wizard, events: seq<Event>)
    ensures Run(Handle, w, events).Left? && Run(Handle, w, events).how == ByNext ==>
              Run(Handle, w, events).state.step == LastStep
    decreases |events|
  {
    if events != [] {
      var next := Handle(w, events[0]);
      if next.Showing? {
        ByNextOnlyFromLast(next.state, events[1..]);
      }
    }
  }

  /** On the input step, "Next" with nothing typed stays put; after typing a name it advances. */
  lemma BrandGate(name: string)
    requires name != ""
    ensures Run(Handle, Start(), [Next, Next]) == Showing(Start().(step := 1))
    ensures Run(Handle, Start(), [Next, Type(name), Next]) == Showing(Start().(step := 2, brand := name))
  {
    var w1 := Start().(step := 1);
    assert [Next, Next][1..] == [Next];
    assert [Next, Type(name), Next][1..] == [Type(name), Next];
    assert [Type(name), Next][1..] == [Next];
    assert Handle(Start(), Next) == Showing(w1);
    assert Handle(w1, Next) == Showing(w1);
    var w2 := w1.(brand := name);
    assert Handle(w1, Type(name)) == Showing(w2);
    assert Handle(w2, Next) == Showing(w2.(step := 2));
    assert [Next][1..] == [];
    assert Run(Handle, w2, [Next]) == Run(Handle, w2.(step := 2), []);
    assert Run(Handle, w1, [Type(name), Next]) == Run(Handle, w2, [Next]);
  }

  /** Skip ends the flow from every step, whatever came before it. */
  lemma SkipAlwaysLeaves(w: Wizard, before: seq<Event>)
    ensures Run(Handle, w, before + [Skip]).Left?
    ensures Run(Handle, w, before + [Skip]).route == "/app"
  {
    SkipLeaves(Handle, Skip, w, before);
  }

  /** The brand changes only by typing, and only while the input step is showing. */
  lemma BrandOnlyOnInput(w: Wizard, e: Event)
    ensures Handle(w, e).state.brand != w.brand ==> w.step == BrandStep && e.Type?
  {
  }
}
