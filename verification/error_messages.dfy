/**
 The defensive narrowing both catch blocks apply to an arbitrary thrown value:
 its `message` when it is an object carrying a string `message`, and a fixed
 fallback text otherwise.
 */
module ErrorMessages {
  import opened Optional
  import opened JsValues

  const UnknownError := "Unknown error"

  /** The thrown value is an object whose `message` property holds a string. */
  predicate HasTextMessage(thrown: JsValue)
  {
    thrown.Obj? && "message" in thrown.props && thrown.props["message"].Str?
  }

  /**
   The display text for a thrown value, decided the way the catch blocks decide
   it: truthy, `typeof` "object", `'message' in` it, and `typeof` of that
   property "string".
   */
  function Describe(thrown: JsValue): (message: string)
    ensures HasTextMessage(thrown) ==> message == thrown.props["message"].s
    ensures !HasTextMessage(thrown) ==> message == UnknownError
  {
    if Truthy(thrown) && TypeOf(thrown) == "object" && HasProperty(thrown, "message") then
      var field := Get(thrown, "message").value;
      if TypeOf(field) == "string" then field.s else UnknownError
    else UnknownError
  }

  /** Throwing `new Error(m)` and catching it shows exactly `m`. */
  lemma DescribeErrorObject(name: string, m: string)
    ensures Describe(ErrorObject(name, m)) == m
  {
  }
}
