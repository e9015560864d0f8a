/**
 What the two onboarding screens have in common: a screen that keeps showing
 a state until "Next" on the last step or "Skip" sends the user to the main
 screen. Navigation is treated as the end of the screen: events after it are
 not delivered.
 */
module Flow {

  /** Both ways out of onboarding navigate here. */
  const Home := "/app"

  datatype Exit = ByNext | BySkip

  /** The screen either still shows a state, or has navigated to `route`, leaving `state` behind. */
  datatype Flow<S> = Showing(state: S) | Left(how: Exit, route: string, state: S)

  /** Both screens' "Skip" handler: leave for the main screen from wherever the user is. */
  function HandleSkip<S>(s: S): (f: Flow<S>)
    ensures f.Left? && f.how == BySkip && f.route == "/app" && f.state == s
  {
    Left(BySkip, Home, s)
  }

  /** Feed events to a screen in order; once it has left, the remaining events are never delivered. */
  function Run<S, E>(step: (S, E) -> Flow<S>, s: S, events: seq<E>): Flow<S>
    decreases |events|
  {
    if events == [] then Showing(s)
    else
      match step(s, events[0])
      case Showing(t) => Run(step, t, events[1..])
      case Left(how, route, t) => Left(how, route, t)
  }

  /** A property that every single step keeps holds of the state at the end of any run. */
  lemma {:induction false} RunKeeps<S, E>(step: (S, E) -> Flow<S>, inv: S -> bool, s: S, events: seq<E>)
    requires inv(s)
    requires forall t: S, e: E :: inv(t) ==> inv(step(t, e).state)
    ensures inv(Run(step, s, events).state)
    decreases |events|
  {
    if events != [] {
      var next := step(s, events[0]);
      if next.Showing? {
        RunKeeps(step, inv, next.state, events[1..]);
      }
    }
  }

  /** Runs compose: running `a + b` is running `a`, then, if still showing, running `b`. */
  lemma {:induction false} RunAppend<S, E>(step: (S, E) -> Flow<S>, s: S, a: seq<E>, b: seq<E>)
    ensures Run(step, s, a + b) ==
              match Run(step, s, a)
              case Showing(t) => Run(step, t, b)
              case Left(how, route, t) => Left(how, route, t)
    decreases |a|
  {
    if a == [] {
      assert a + b == b;
    } else {
      assert (a + b)[0] == a[0];
      assert (a + b)[1..] == a[1..] + b;
      var next := step(s, a[0]);
      if next.Showing? {
        RunAppend(step, next.state, a[1..], b);
      }
    }
  }

  /** If every step that leaves goes to `route`, so does every run that leaves. */
  lemma {:induction false} RunLeavesTo<S, E>(step: (S, E) -> Flow<S>, route: string, s: S, events: seq<E>)
    requires forall t: S, e: E :: step(t, e).Left? ==> step(t, e).route == route
    ensures Run(step, s, events).Left? ==> Run(step, s, events).route == route
    decreases |events|
  {
    if events != [] {
      var next := step(s, events[0]);
      if next.Showing? {
        RunLeavesTo(step, route, next.state, events[1..]);
      }
    }
  }

  /** A screen whose "Skip" is `HandleSkip` and whose every exit is Home has left for Home after any events and a Skip. */
  lemma SkipLeaves<S, E>(step: (S, E) -> Flow<S>, skip: E, s: S, before: seq<E>)
    requires forall t: S :: step(t, skip) == HandleSkip(t)
    requires forall t: S, e: E :: step(t, e).Left? ==> step(t, e).route == Home
    ensures Run(step, s, before + [skip]).Left?
    ensures Run(step, s, before + [skip]).route == "/app"
  {
    RunAppend(step, s, before, [skip]);
    RunLeavesTo(step, Home, s, before + [skip]);
  }
}
