/** The questions screen: six prompts taken from the active bundle, five
    answered yes or no and the sixth by typing a number. No answer is kept;
    each only moves the sequencer on, and the last one moves the game to the
    thinking screen. */
module QuestionsScreen {
  import opened Wrappers
  import opened I18n
  import opened NumericInput
  import opened NumberContext
  import opened LanguageContext

  datatype QuestionType = YesNo | NumberEntry

  /** One entry of the `questions` list the screen derives from the bundle. */
  datatype Question = Question(id: nat, question: string, kind: QuestionType)

  datatype Answer = Yes | No

  /** The position of the one question answered by typing a number. */
  const NumberQuestionIndex := 5
  /** The pause between choosing an option and the advance it triggers. */
  const OptionAdvanceDelayMs := 250

  /** `t.questions.map(...)`: entry i carries the i-th text, the id i + 1, and
      is the number entry exactly at position 5. */
  function BuildQuestions(texts: seq<string>): (qs: seq<Question>)
    ensures |qs| == |texts|
    ensures forall i :: 0 <= i < |qs| ==> qs[i].id == i + 1 && qs[i].question == texts[i]
    ensures forall i :: 0 <= i < |qs| ==> (qs[i].kind == NumberEntry <==> i == NumberQuestionIndex)
  {
    seq(|texts|, i requires 0 <= i < |texts| =>
      Question(i + 1, texts[i], if i == NumberQuestionIndex then NumberEntry else YesNo))
  }

  /** In every language the sequencer has six entries: five yes/no prompts
      followed by the number prompt, which is the last one. */
  lemma FiveYesNoThenNumber(lang: Language)
    ensures var qs := BuildQuestions(Lookup(lang).questions);
      && |qs| == 6
      && (forall i :: 0 <= i < 5 ==> qs[i].kind == YesNo)
      && qs[5].kind == NumberEntry
      && NumberQuestionIndex == |qs| - 1
  {
  }

  /** The Guess button's `disabled` flag, as written: empty input, or a parsed
      value below 1 or above 999 (`trim` leaves a digit string as it is). It is
      the negation of the welcome screen's test. */
  function GuessDisabled(numberInput: string): (disabled: bool)
    requires AllDigits(numberInput)
    ensures disabled <==> !IsValidNumber(numberInput)
  {
    || numberInput == ""
    || (match ParseInt(numberInput)
        case None => false
        case Some(num) => num < MinSecret || num > MaxSecret)
  }

  /** The screen's local state, bound to the two providers above it. */
  class QuestionSequencer {
    const game: NumberStore
    const lang: LanguageProvider
    var currentQuestionIndex: nat
    var selectedOption: Option<Answer>
    var numberInput: string
    /** An option press has scheduled its 250 ms advance, not yet fired. */
    var pendingAdvance: bool

    /** The `questions` list, recomputed from the bundle of the language in
        force, so a change of language changes only its texts. */
    function Questions(): (qs: seq<Question>)
      reads lang
      ensures |qs| == 6
      ensures forall i :: 0 <= i < |qs| ==> qs[i].question == lang.T().questions[i]
    {
      BuildQuestions(lang.T().questions)
    }

    /** The index is on the list, the number field holds at most three digits,
        and an advance is pending only after an option of a yes/no prompt. */
    ghost predicate Valid()
      reads this, lang
    {
      && currentQuestionIndex < |Questions()|
      && AllDigits(numberInput) && |numberInput| <= MaxInputLength
      && (pendingAdvance ==> selectedOption.Some? && Questions()[currentQuestionIndex].kind == YesNo)
    }

    /** The screen as first shown: the first question, nothing chosen or typed. */
    constructor (game: NumberStore, lang: LanguageProvider)
      ensures this.game == game && this.lang == lang
      ensures currentQuestionIndex == 0 && selectedOption == None && numberInput == ""
      ensures !pendingAdvance
      ensures Valid()
    {
      this.game := game;
      this.lang := lang;
      currentQuestionIndex := 0;
      selectedOption := None;
      numberInput := "";
      pendingAdvance := false;
    }

    function CurrentQuestion(): (q: Question)
      reads this, lang
      requires Valid()
      ensures q.id == currentQuestionIndex + 1
      ensures q.question == lang.T().questions[currentQuestionIndex]
    {
      Questions()[currentQuestionIndex]
    }

    /** The "n / total" counter: the position of the question on display, out
        of six. */
    function ProgressCounter(): (counter: (nat, nat))
      reads this, lang
      requires Valid()
      ensures 1 <= counter.0 <= counter.1 == 6
      ensures counter.0 == CurrentQuestion().id
    {
      (currentQuestionIndex + 1, |Questions()|)
    }

    /** `goToNext`: before the last question, move to the next one and clear
        what was chosen or typed; at the last one, move the game to the
        thinking screen and stay put. The secret is never touched. */
    method GoToNext()
      requires Valid() && !pendingAdvance
      modifies this, game
      ensures Valid() && !pendingAdvance
      ensures game.secretNumber == old(game.secretNumber)
      ensures old(currentQuestionIndex) < |Questions()| - 1 ==>
        && currentQuestionIndex == old(currentQuestionIndex) + 1
        && selectedOption == None && numberInput == ""
        && game.currentScreen == old(game.currentScreen)
      ensures old(currentQuestionIndex) == |Questions()| - 1 ==>
        && currentQuestionIndex == old(currentQuestionIndex)
        && selectedOption == old(selectedOption) && numberInput == old(numberInput)
        && game.currentScreen == Thinking
    {
      if currentQuestionIndex < |Questions()| - 1 {
        currentQuestionIndex := currentQuestionIndex + 1;
        selectedOption := None;
        numberInput := "";
      } else {
        game.SetCurrentScreen(Thinking);
      }
    }

    /** `handleOptionSelect`: on a yes/no prompt, mark the option and schedule
        one advance 250 ms later (one pending advance at a time). */
    method HandleOptionSelect(option: Answer)
      requires Valid() && !pendingAdvance
      requires CurrentQuestion().kind == YesNo
      modifies this`selectedOption, this`pendingAdvance
      ensures Valid()
      ensures selectedOption == Some(option) && pendingAdvance
    {
      selectedOption := Some(option);
      pendingAdvance := true;
    }

    /** The scheduled advance fires: exactly one `goToNext`, which from a
        yes/no prompt always moves to the next question. */
    method FireAdvanceTimer()
      requires Valid() && pendingAdvance
      modifies this, game
      ensures Valid() && !pendingAdvance
      ensures currentQuestionIndex == old(currentQuestionIndex) + 1
      ensures selectedOption == None && numberInput == ""
      ensures game.currentScreen == old(game.currentScreen)
      ensures game.secretNumber == old(game.secretNumber)
    {
      pendingAdvance := false;
      GoToNext();
    }

    /** The number field's `onChangeText`: the field exists only on the
        number prompt; at most three characters arrive and only their digits
        are kept. */
    method OnChangeNumber(text: string)
      requires Valid() && |text| <= MaxInputLength
      requires CurrentQuestion().kind == NumberEntry
      modifies this`numberInput
      ensures Valid()
      ensures numberInput == KeepDigits(text)
    {
      numberInput := KeepDigits(text);
    }

    /** `handleNext`, the enabled Guess button on the number prompt: that
        prompt is the last, so the game moves to the thinking screen and the
        typed number is dropped from consideration. */
    method HandleNext()
      requires Valid() && !pendingAdvance
      requires CurrentQuestion().kind == NumberEntry && !GuessDisabled(numberInput)
      modifies this, game
      ensures Valid() && !pendingAdvance
      ensures game.currentScreen == Thinking
      ensures game.secretNumber == old(game.secretNumber)
      ensures currentQuestionIndex == old(currentQuestionIndex)
      ensures selectedOption == old(selectedOption) && numberInput == old(numberInput)
    {
      GoToNext();
    }
  }
}
