/** The welcome screen: a three-character numeric field and a Continue
    button that commits the typed number as the secret. */
module WelcomeScreen {
  import opened NumericInput
  import opened NumberContext

  /** The screen's local state, bound to the game store of its provider. */
  class WelcomeForm {
    const game: NumberStore
    var inputValue: string

    /** What the digit filter and the field's cap keep true of the input. */
    ghost predicate Valid()
      reads this
    {
      AllDigits(inputValue) && |inputValue| <= MaxInputLength
    }

    constructor (game: NumberStore)
      ensures this.game == game
      ensures inputValue == "" && Valid()
    {
      this.game := game;
      inputValue := "";
    }

    /** `onChangeText`: the field passes at most three characters; only their
        digits are kept. */
    method OnChangeText(text: string)
      requires |text| <= MaxInputLength
      modifies this
      ensures inputValue == KeepDigits(text)
      ensures Valid()
    {
      inputValue := KeepDigits(text);
    }

    /** `!isValidNumber()`, the Continue button's `disabled` flag: set exactly
        when the field is empty or holds only zeros. */
    function ContinueDisabled(): (disabled: bool)
      reads this
      requires Valid()
      ensures disabled <==> inputValue == "" || AllZeros(inputValue)
    {
      ValidIffNonZero(inputValue);
      !IsValidNumber(inputValue)
    }

    /** `handleSubmit`: with a value in [1, 999] the raw input, leading zeros
        and all, becomes the secret and the questions screen follows;
        otherwise nothing changes. The test is the one that enables the
        button, so a stored secret is one to three digits worth 1 to 999. */
    method HandleSubmit()
      requires Valid()
      modifies game
      ensures !ContinueDisabled() ==> game.secretNumber == inputValue && game.currentScreen == Questions
      ensures !ContinueDisabled() ==>
        && AllDigits(game.secretNumber) && 1 <= |game.secretNumber| <= MaxInputLength
        && IsValidNumber(game.secretNumber)
      ensures ContinueDisabled() ==> game.secretNumber == old(game.secretNumber) && game.currentScreen == old(game.currentScreen)
    {
      var num := ParseInt(inputValue);
      if num.Some? && num.value >= MinSecret && num.value <= MaxSecret {
        game.SetSecretNumber(inputValue);
        game.SetCurrentScreen(Questions);
      }
    }
  }
}
