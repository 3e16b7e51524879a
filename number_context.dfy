/** The game store: the secret the user typed and the screen on display.
    It is a plain pair of settable cells; it checks neither the secret nor
    the legality of a screen change. */
module NumberContext {
  import opened Wrappers

  /** The four screens; the store's screen cell holds one of these. */
  datatype Screen = Welcome | Questions | Thinking | Result

  /** The message `useNumber` throws outside a provider. */
  const UseNumberError := "useNumber must be used within a NumberProvider"

  /** The state of a `NumberProvider`. */
  class NumberStore {
    var secretNumber: string
    var currentScreen: Screen

    /** A fresh provider: no secret yet, on the welcome screen. */
    constructor ()
      ensures secretNumber == "" && currentScreen == Welcome
    {
      secretNumber := "";
      currentScreen := Welcome;
    }

    /** Stores its argument verbatim, without validation; the screen stays. */
    method SetSecretNumber(num: string)
      modifies this
      ensures secretNumber == num
      ensures currentScreen == old(currentScreen)
    {
      secretNumber := num;
    }

    /** Overwrites the screen with any value, whatever the current one; the
        secret stays. */
    method SetCurrentScreen(screen: Screen)
      modifies this
      ensures currentScreen == screen
      ensures secretNumber == old(secretNumber)
    {
      currentScreen := screen;
    }

    /** Clears the secret and returns to the welcome screen, from any state.
        The new state does not depend on the old one, so resetting a store
        that was just reset changes nothing. */
    method ResetGame()
      modifies this
      ensures secretNumber == "" && currentScreen == Welcome
      ensures old(secretNumber) == "" && old(currentScreen) == Welcome ==>
                secretNumber == old(secretNumber) && currentScreen == old(currentScreen)
    {
      SetSecretNumber("");
      SetCurrentScreen(Welcome);
    }
  }

  /** `useNumber`: the store of the enclosing provider, or a thrown error when
      there is none. */
  function UseNumber(context: Option<NumberStore>): (r: Fallible<NumberStore>)
    ensures r.Ok? <==> context.Some?
    ensures r.Ok? ==> r.value == context.value
    ensures r.Thrown? ==> r.message == UseNumberError
  {
    match context
    case None => Thrown(UseNumberError)
    case Some(store) => Ok(store)
  }
}
