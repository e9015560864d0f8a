/**
 The four-slide onboarding screen: "Next" walks the slides in order with no
 guard, "Start" on the last slide and "Skip" on any slide go to the main
 screen.
 */
module OnboardingSlides {
  import opened Flow

  datatype Slide = Slide(title: string, description: string)

  const Slides: seq<Slide> := [
    Slide("Welcome to LogoGen!",
          "Effortlessly generate modern, professional logos with AI. No design skills required."),
    Slide("Unlimited Ideas",
          "Explore endless logo concepts tailored to your brand style and preferences."),
    Slide("High-Resolution Downloads",
          "Download crisp, scalable logos ready for web, print, and everywhere you need."),
    Slide("Get Started!",
          "Let’s create your first logo. It’s fast, fun, and free to try!")
  ]

  /** The slide being shown; its type is what keeps `Slides[step]` in bounds. */
  type StepIndex = i: nat | i < |Slides|

  const LastStep: StepIndex := |Slides| - 1

  datatype Event = Next | Skip

  /** The screen opens on the first slide. */
  function Start(): (step: StepIndex)
    ensures Slides[step].title == "Welcome to LogoGen!"
  {
    0
  }

  /** The title and description shown for a step. */
  function Current(step: StepIndex): Slide
  {
    Slides[step]
  }

  /** "Next" (labelled "Start" on the last slide). */
  function HandleNext(step: StepIndex): (f: Flow<StepIndex>)
    ensures step < LastStep ==> f == Showing(step + 1)
    ensures step == LastStep ==> f == Left(ByNext, "/app", step)
  {
    if step == LastStep then Left(ByNext, Home, step) else Showing(step + 1)
  }

  function Handle(step: StepIndex, e: Event): (f: Flow<StepIndex>)
    ensures e.Skip? ==> f == HandleSkip(step)
    ensures f.Left? <==> e.Skip? || step == LastStep
    ensures f.Left? ==> f.route == "/app" && f.state == step
    ensures f.Showing? ==> f.state == step + 1
  {
    match e
    case Next => HandleNext(step)
    case Skip => HandleSkip(step)
  }

  /** `k` presses of "Next". */
  function Nexts(k: nat): (es: seq<Event>)
    ensures |es| == k
    ensures forall i :: 0 <= i < k ==> es[i] == Next
  {
    seq(k, _ => Next)
  }

  /** From slide `i`, `k` presses reach slide `i + k` if it exists, and otherwise leave by "Start" from the last slide. */
  lemma {:induction false} NextsWalk(i: StepIndex, k: nat)
    ensures i + k <= LastStep ==> Run(Handle, i, Nexts(k)) == Showing(i + k)
    ensures i + k > LastStep ==> Run(Handle, i, Nexts(k)) == Left(ByNext, "/app", LastStep)
    decreases k
  {
    if k > 0 {
      assert Nexts(k)[0] == Next;
      assert Nexts(k)[1..] == Nexts(k - 1);
      if i < LastStep {
        NextsWalk(i + 1, k - 1);
      }
    }
  }

  /** Nothing guards "Next": three presses reach the last slide and the fourth leaves. */
  lemma ThreeNextsThenStart()
    ensures Run(Handle, Start(), Nexts(3)) == Showing(3)
    ensures Run(Handle, Start(), Nexts(4)) == Left(ByNext, "/app", 3)
  {
    NextsWalk(0, 3);
    NextsWalk(0, 4);
  }

  /** Skip ends the flow from every slide, whatever came before it. */
  lemma SkipAlwaysLeaves(step: StepIndex, before: seq<Event>)
    ensures Run(Handle, step, before + [Skip]).Left?
    ensures Run(Handle, step, before + [Skip]).route == "/app"
  {
    SkipLeaves(Handle, Skip, step, before);
  }
}
