/** The app root: the language provider wraps the game provider, which wraps
    the content; the content renders the one screen the store's screen value
    names. */
module App {
  import opened Wrappers
  import opened I18n
  import opened NumericInput
  import opened NumberContext
  import opened LanguageContext
  import WelcomeScreen
  import QuestionsScreen
  import ThinkingScreen
  import ResultScreen

  /** The string a screen value is at run time. */
  function ScreenValue(screen: Screen): (value: string)
    ensures |value| > 0
  {
    match screen
    case Welcome => "welcome"
    case Questions => "questions"
    case Thinking => "thinking"
    case Result => "result"
  }

  /** Distinct screens are distinct values at run time. */
  lemma ScreenValueInjective(a: Screen, b: Screen)
    ensures ScreenValue(a) == ScreenValue(b) <==> a == b
  {
  }

  /** What `renderScreen` returns: the component of exactly one screen. */
  datatype Rendered = ScreenComponent(screen: Screen)

  /** `renderScreen`: a value naming a screen renders that screen, and any
      other value falls back to the welcome screen. */
  function RenderScreen(value: string): (rendered: Rendered)
    ensures forall screen: Screen :: value == ScreenValue(screen) ==> rendered.screen == screen
    ensures (&& value != ScreenValue(Welcome) && value != ScreenValue(Questions)
             && value != ScreenValue(Thinking) && value != ScreenValue(Result))
            ==> rendered.screen == Welcome
  {
    match value
    case "welcome" => ScreenComponent(Welcome)
    case "questions" => ScreenComponent(Questions)
    case "thinking" => ScreenComponent(Thinking)
    case "result" => ScreenComponent(Result)
    case _ => ScreenComponent(Welcome)
  }

  /** The string a screen is stored as renders that very screen. */
  lemma RendersOwnValue(screen: Screen)
    ensures RenderScreen(ScreenValue(screen)).screen == screen
  {
  }

  /** The two providers of `App`, created once at start-up. */
  class AppRoot {
    const language: LanguageProvider
    const game: NumberStore

    constructor (entry: Option<string>)
      ensures fresh(language) && fresh(game)
      ensures language.language == En && language.isLoading && language.stored == entry
      ensures game.secretNumber == "" && game.currentScreen == Welcome
    {
      language := new LanguageProvider(entry);
      game := new NumberStore();
    }

    /** Every screen sits inside both providers, so neither guard throws. */
    function Contexts(): (contexts: (Fallible<NumberStore>, Fallible<LanguageProvider>))
      ensures contexts == (Ok(game), Ok(language))
    {
      (UseNumber(Some(game)), UseLanguage(Some(language)))
    }

    /** Choosing a language mid-game changes the texts and questions at once
        and leaves the secret and the screen as they were. */
    method SwitchLanguage(lang: Language, writeFails: bool)
      modifies language
      ensures language.language == lang && language.T() == Lookup(lang)
      ensures language.stored == if writeFails then old(language.stored) else Some(Code(lang))
      ensures language.isLoading == old(language.isLoading)
      ensures game.secretNumber == old(game.secretNumber)
      ensures game.currentScreen == old(game.currentScreen)
    {
      language.SetLanguage(lang, writeFails);
    }
  }

  /** The welcome screen with a number typed and Continue pressed: the
      filtered input becomes the secret and the questions screen follows. */
  method EnterSecret(game: NumberStore, typed: string) returns (secret: string)
    requires |typed| <= MaxInputLength && IsValidNumber(KeepDigits(typed))
    modifies game
    ensures secret == KeepDigits(typed)
    ensures game.secretNumber == secret && game.currentScreen == Questions
  {
    var welcome := new WelcomeScreen.WelcomeForm(game);
    welcome.OnChangeText(typed);
    welcome.HandleSubmit();
    secret := game.secretNumber;
  }

  /** The questions screen answered through: five options, each followed by
      its timer, then a valid number and Guess. The secret is untouched. */
  method AnswerQuestions(game: NumberStore, lang: LanguageProvider,
                         answers: seq<QuestionsScreen.Answer>, lastAnswer: string)
    requires |answers| == 5
    requires |lastAnswer| <= MaxInputLength && IsValidNumber(KeepDigits(lastAnswer))
    modifies game
    ensures game.currentScreen == Thinking && game.secretNumber == old(game.secretNumber)
  {
    var questions := new QuestionsScreen.QuestionSequencer(game, lang);
    QuestionsScreen.FiveYesNoThenNumber(lang.language);
    for i := 0 to 5
      invariant questions.Valid() && !questions.pendingAdvance
      invariant questions.currentQuestionIndex == i
      invariant game.secretNumber == old(game.secretNumber)
    {
      questions.HandleOptionSelect(answers[i]);
      questions.FireAdvanceTimer();
    }
    questions.OnChangeNumber(lastAnswer);
    questions.HandleNext();
  }

  /** The thinking screen waited out: four message changes, the move to the
      result screen at 5000 ms, then teardown. The secret is untouched. */
  method WaitForResult(game: NumberStore, lang: LanguageProvider)
    modifies game
    ensures game.currentScreen == Result && game.secretNumber == old(game.secretNumber)
  {
    var thinking := new ThinkingScreen.ThinkingTimers(game, lang);
    thinking.FireNextTimer();
    thinking.FireNextTimer();
    thinking.FireNextTimer();
    thinking.FireNextTimer();
    thinking.FireNextTimer();
    thinking.Teardown();
  }

  /** The result screen watched to the end, then try-again: the digits shown
      are the stored secret, and the game is reset. */
  method RevealAndReset(game: NumberStore) returns (guess: string)
    requires |game.secretNumber| > 0
    modifies game
    ensures guess == old(game.secretNumber)
    ensures game.secretNumber == "" && game.currentScreen == Welcome
  {
    var result := new ResultScreen.RevealSequencer(game);
    while !result.showNumber
      invariant result.Valid() && result.digits == old(game.secretNumber)
      decreases |result.digits| - |result.revealedDigits| + (if result.showNumber then 0 else 1)
    {
      result.FireNextTimer();
    }
    guess := result.revealedDigits;
    result.TryAgain();
  }

  /** One round of the trick, driven as a user would: type a number on the
      welcome screen, answer the five yes/no prompts, type any valid number on
      the last one, wait out the thinking screen, watch the reveal and press
      try-again. Each step happens on the screen the root renders from the
      store it reaches through the providers. The screens rendered go welcome,
      questions, thinking, result and back to welcome; the "guess" revealed is
      the number typed at the start, and the round ends with no secret. */
  method PlayRound(typed: string, answers: seq<QuestionsScreen.Answer>, lastAnswer: string)
    returns (guess: string, visited: seq<Screen>, endSecret: string)
    requires |typed| <= MaxInputLength && |lastAnswer| <= MaxInputLength
    requires IsValidNumber(KeepDigits(typed)) && IsValidNumber(KeepDigits(lastAnswer))
    requires |answers| == 5
    ensures guess == KeepDigits(typed)
    ensures visited == [Welcome, Questions, Thinking, Result, Welcome]
    ensures endSecret == ""
  {
    var root := new AppRoot(None);
    var (numberContext, languageContext) := root.Contexts();
    var game, language := numberContext.value, languageContext.value;
    language.LoadLanguage(false);
    var s0 := game.currentScreen;
    var secret := EnterSecret(game, typed);
    var s1 := game.currentScreen;
    AnswerQuestions(game, language, answers, lastAnswer);
    var s2 := game.currentScreen;
    WaitForResult(game, language);
    var s3 := game.currentScreen;
    guess := RevealAndReset(game);
    var s4 := game.currentScreen;
    RendersOwnValue(s0);
    RendersOwnValue(s1);
    RendersOwnValue(s2);
    RendersOwnValue(s3);
    RendersOwnValue(s4);
    visited := [RenderScreen(ScreenValue(s0)).screen, RenderScreen(ScreenValue(s1)).screen,
                RenderScreen(ScreenValue(s2)).screen, RenderScreen(ScreenValue(s3)).screen,
                RenderScreen(ScreenValue(s4)).screen];
    endSecret := game.secretNumber;
  }
}
