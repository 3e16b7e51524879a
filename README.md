# i-KnowYou: a verified model of the mind-reading trick

"I Know You" is a small mobile app that performs a mind-reading trick. The
user thinks of a number from 1 to 999 and types it on the welcome screen.
Next comes a questions screen: five yes/no prompts and a final prompt that
asks for a number. A thinking screen shows cycling messages for five
seconds. The result screen then reveals, digit by digit, the number typed at
the very start. The app speaks Turkish, English and Russian. The chosen
language is kept in one device-storage entry, so it survives a restart.

This Dafny project models the core of that app:

- `wrappers.dfy` (`Wrappers`): `Option` and `Fallible`. `Fallible` stands
  for a call that either returns or throws a JavaScript error.
- `translations.dfy` (`I18n`): the three language codes and the translation
  bundles with their actual texts. It proves that every bundle is complete
  and has the same shape.
- `number_context.dfy` (`NumberContext`): the game store, a class holding
  the secret and the current screen, and the `useNumber` guard.
- `language_context.dfy` (`LanguageContext`): the language provider, a class
  holding the language, the loading flag and the storage entry. It covers
  loading at start-up, switching language and the `useLanguage` guard.
- `numeric_input.dfy` (`NumericInput`): what both numeric fields share. That
  is the digit filter, `parseInt` on digit strings and the 1–999 range test.
- `welcome_screen.dfy`, `questions_screen.dfy`, `thinking_screen.dfy` and
  `result_screen.dfy`: one class per screen holding that screen's local
  state. Each screen with timers keeps its pending timers and a clock.
  `FireNextTimer` runs the earliest pending callback, as the app's single
  event loop does.
- `app.dfy` (`App`): the root component. It nests the two providers and
  renders one screen from the store's screen value. It also drives a whole
  round, from typing the secret to pressing "try again".

The main results:

- In a whole round, the screens rendered are welcome, questions, thinking,
  result and welcome again. The number revealed is the digit-filtered string
  typed at the start (`App.PlayRound`).
- Continue and Guess are enabled exactly when the field holds a
  non-empty, not-all-zero digit string of at most three digits
  (`NumericInput.ValidIffNonZero`).
- The thinking messages cycle as `ticks mod 5`
  (`ThinkingScreen.IndexAfterTicksIsModulo`).
- The reveal timers fire in time order and build up the secret as a prefix,
  and the confirmation appears only once nothing is left to fire
  (`ResultScreen.RevealSequencer`).
- A language written by `setLanguage` is the one loaded at the next launch
  (`LanguageContext.PersistedLanguageSurvivesRestart`).

The game store validates nothing: `setSecretNumber` stores any string and
`setCurrentScreen` accepts any screen from any screen
(`NumberContext.NumberStore.SetSecretNumber`, `SetCurrentScreen`). What
keeps the game in order lies in the screens:

- `WelcomeScreen.WelcomeForm.HandleSubmit` stores only a secret of one to
  three digits that passes the 1–999 test.
- Each screen's handler moves the game to one fixed next screen:
  - `WelcomeScreen.WelcomeForm.HandleSubmit` to questions;
  - `QuestionsScreen.QuestionSequencer.GoToNext` to thinking;
  - `ThinkingScreen.ThinkingTimers.FireNextTimer` to result;
  - `ResultScreen.RevealSequencer.TryAgain` back to welcome.
- `App.PlayRound` proves the sequence of rendered screens for a whole round.

## Model

| member | source | states |
|---|---|---|
| I18n.ParseCode | src/context/LanguageContext.tsx:28 | a string names a language exactly when it is one of the three codes "tr", "en" or "ru", and then it is that language's code |
| I18n.CodeRoundTrip | src/i18n/translations.ts:1 | reading back the code of any language gives that language |
| I18n.Lookup | src/i18n/translations.ts:25-130 | every language has a bundle: all sixteen texts are non-empty, with six questions and five thinking messages |
| I18n.TableIsTotal | src/i18n/translations.ts:25-130 | the translation table has exactly the keys tr, en and ru |
| NumberContext.NumberStore.constructor | src/context/NumberContext.tsx:14-15 | a new game store has no secret and shows the welcome screen |
| NumberContext.NumberStore.SetSecretNumber | src/context/NumberContext.tsx:14 | stores any string verbatim, without validation, and leaves the screen |
| NumberContext.NumberStore.SetCurrentScreen | src/context/NumberContext.tsx:15 | sets any screen from any screen and leaves the secret |
| NumberContext.NumberStore.ResetGame | src/context/NumberContext.tsx:17-20 | clears the secret and returns to welcome from any state; a second reset changes nothing |
| NumberContext.UseNumber | src/context/NumberContext.tsx:35-41 | returns the store exactly when a provider encloses the caller, and otherwise throws the fixed message |
| NumericInput.KeepDigits | src/screens/WelcomeScreen.tsx:105 | the filtered text holds only digits, holds the same set of digit characters as the input, is no longer than the input, and leaves a digit string unchanged |
| NumericInput.KeepDigitsConcat | src/screens/WelcomeScreen.tsx:105 | filtering a concatenation concatenates the filtered parts, so the digits keep their order and their count |
| NumericInput.KeepDigitsOne | src/screens/WelcomeScreen.tsx:105 | a single character is kept exactly when it is a digit |
| NumericInput.KeepDigitsIdempotent | src/screens/WelcomeScreen.tsx:105 | filtering twice is the same as filtering once |
| NumericInput.ParseInt | src/screens/WelcomeScreen.tsx:45 | gives NaN (None) exactly for the empty string; otherwise the value is below 10^n for n digits, and it is 0 exactly when every digit is '0' |
| NumericInput.DecimalValueBound | src/screens/WelcomeScreen.tsx:45 | an n-digit string is worth less than 10^n |
| NumericInput.DecimalValueZero | src/screens/WelcomeScreen.tsx:45 | a digit string is worth 0 exactly when all its digits are '0' |
| NumericInput.IsValidNumber | src/screens/WelcomeScreen.tsx:53-56 | the 1–999 test (`isValidNumber`, also handleSubmit's test) passes only for a non-empty string that is not all zeros |
| NumericInput.ValidIffNonZero | src/screens/WelcomeScreen.tsx:53-56 | for a digit string of at most three digits, the 1–999 test passes exactly when the string is non-empty and not all zeros |
| NumericInput.LeadingZerosIgnored | src/screens/WelcomeScreen.tsx:44-51 | "007" parses to 7 and is accepted; "0", "00" and "000" are rejected |
| LanguageContext.LoadedLanguage | src/context/LanguageContext.tsx:25-36 | the language after loading is the stored one when the entry holds a valid code; otherwise the starting language is kept |
| LanguageContext.PersistedLanguageSurvivesRestart | src/context/LanguageContext.tsx:25-45 | a language saved by setLanguage is loaded at the next launch; a missing, unreadable or foreign entry leaves English |
| LanguageContext.LanguageProvider.constructor | src/context/LanguageContext.tsx:17-18 | a new provider starts in English and loading |
| LanguageContext.LanguageProvider.LoadLanguage | src/context/LanguageContext.tsx:25-36 | loading adopts the language LoadedLanguage gives for what the read returned, and always ends loading, also when the read fails |
| LanguageContext.LanguageProvider.SetLanguage | src/context/LanguageContext.tsx:38-45 | the language changes in memory whether or not the write succeeds; the entry holds the new code only if the write succeeded |
| LanguageContext.LanguageProvider.T | src/context/LanguageContext.tsx:47 | the texts in force are the current language's bundle, which is complete and well shaped |
| LanguageContext.UseLanguage | src/context/LanguageContext.tsx:56-62 | returns the provider exactly when a provider encloses the caller, and otherwise throws the fixed message |
| WelcomeScreen.WelcomeForm.constructor | src/screens/WelcomeScreen.tsx:24 | the field starts empty |
| WelcomeScreen.WelcomeForm.OnChangeText | src/screens/WelcomeScreen.tsx:105-108 | the field holds the digits of what was typed, at most three |
| WelcomeScreen.WelcomeForm.ContinueDisabled | src/screens/WelcomeScreen.tsx:53-56 | Continue is disabled exactly when the field is empty or all zeros |
| WelcomeScreen.WelcomeForm.HandleSubmit | src/screens/WelcomeScreen.tsx:44-51 | when Continue is enabled the raw field becomes the secret, so the stored secret is one to three digits worth 1 to 999, and the questions screen follows; otherwise nothing changes |
| QuestionsScreen.BuildQuestions | src/screens/QuestionsScreen.tsx:27-31 | entry i carries the i-th text and the id i+1, and it is the number entry exactly at position 5 |
| QuestionsScreen.FiveYesNoThenNumber | src/screens/QuestionsScreen.tsx:27-31 | in every language there are five yes/no questions and then the number question, which is the last |
| QuestionsScreen.GuessDisabled | src/screens/QuestionsScreen.tsx:191 | Guess is disabled exactly when the welcome screen's range test fails on the field |
| QuestionsScreen.QuestionSequencer.Questions | src/screens/QuestionsScreen.tsx:27-31 | the six questions carry the texts of the language now in force |
| QuestionsScreen.QuestionSequencer.constructor | src/screens/QuestionsScreen.tsx:21-23 | the screen opens on the first question with nothing chosen or typed |
| QuestionsScreen.QuestionSequencer.CurrentQuestion | src/screens/QuestionsScreen.tsx:33 | the question on display has the id index+1 and the current language's text |
| QuestionsScreen.QuestionSequencer.ProgressCounter | src/screens/QuestionsScreen.tsx:111 | the counter reads "n / 6" with n the displayed question's id |
| QuestionsScreen.QuestionSequencer.GoToNext | src/screens/QuestionsScreen.tsx:66-76 | before the last question it moves on and clears the choice and the field; at the last it moves the game to thinking; the secret never changes |
| QuestionsScreen.QuestionSequencer.HandleOptionSelect | src/screens/QuestionsScreen.tsx:78-83 | choosing an option records it and schedules one advance |
| QuestionsScreen.QuestionSequencer.FireAdvanceTimer | src/screens/QuestionsScreen.tsx:80-82 | the scheduled advance moves to the next question and leaves the game's screen and secret alone |
| QuestionsScreen.QuestionSequencer.OnChangeNumber | src/screens/QuestionsScreen.tsx:169-178 | on the number prompt, the only place the field is shown, the field holds the digits of what was typed |
| QuestionsScreen.QuestionSequencer.HandleNext | src/screens/QuestionsScreen.tsx:85-87 | an enabled Guess on the number question moves the game to thinking; the secret, the question index, the choice and the field stay, and no advance is pending |
| ThinkingScreen.NextMessageIndex | src/screens/ThinkingScreen.tsx:57 | the next message index is a valid index |
| ThinkingScreen.IndexAfterTicks | src/screens/ThinkingScreen.tsx:56-58 | after any number of interval callbacks the index is a valid index |
| ThinkingScreen.IndexAfterTicksIsModulo | src/screens/ThinkingScreen.tsx:56-58 | after k callbacks the index is k mod the number of messages, so the messages appear in order and wrap round |
| ThinkingScreen.ThinkingTimers.constructor | src/screens/ThinkingScreen.tsx:20-62 | on mount the first message shows and both the interval and the timer are running |
| ThinkingScreen.ThinkingTimers.DisplayedMessage | src/screens/ThinkingScreen.tsx:102 | the message on display is number ticks mod 5 in the language now in force |
| ThinkingScreen.ThinkingTimers.FireNextTimer | src/screens/ThinkingScreen.tsx:56-62 | ticks fire at 1200, 2400, 3600 and 4800 ms; at 5000 ms the game moves to result with the fifth message on display; the secret never changes |
| ThinkingScreen.ThinkingTimers.Teardown | src/screens/ThinkingScreen.tsx:64-67 | unmounting cancels both the interval and the timer |
| ResultScreen.FinalAt | src/screens/ResultScreen.tsx:30-35 | the final timer fires 400 ms after the last digit's, later than every reveal |
| ResultScreen.ScheduleReveals | src/screens/ResultScreen.tsx:22-39 | one reveal per digit, in order, carrying that digit, at least 500 ms apart |
| ResultScreen.RevealSequencer.constructor | src/screens/ResultScreen.tsx:15-39 | on mount the reveals of the secret then stored are pending and nothing is revealed yet |
| ResultScreen.RevealSequencer.PendingInTimeOrder | src/screens/ResultScreen.tsx:24-38 | the pending timers are in strictly increasing time order and none is due before now |
| ResultScreen.RevealSequencer.FireNextTimer | src/screens/ResultScreen.tsx:26-35 | a reveal appends the next digit of the secret; after the last one the number shows, with every digit out |
| ResultScreen.RevealSequencer.ConfirmationShown | src/screens/ResultScreen.tsx:82-105 | the confirmation shows only for a non-empty secret that is fully revealed, at 500·(n−1)+400 ms, with no timer left pending |
| ResultScreen.RevealSequencer.Boxes | src/screens/ResultScreen.tsx:69-79 | the row shows the revealed digits and then placeholders; while the stored secret is the one being revealed, there is one box per digit |
| ResultScreen.RevealSequencer.TryAgain | src/screens/ResultScreen.tsx:98-105 | try-again resets the game to welcome with no secret |
| ResultScreen.EmptySecretNeverConfirms | src/screens/ResultScreen.tsx:22-39 | an empty secret schedules nothing, so the confirmation never appears |
| ResultScreen.RevealOf317 | src/screens/ResultScreen.tsx:22-38 | for "317" the callbacks run at 0, 500, 1000 and 1400 ms and show "3", "31", "317", "317" |
| App.ScreenValue | src/context/NumberContext.tsx:6 | every screen is stored as a non-empty string value |
| App.ScreenValueInjective | src/context/NumberContext.tsx:6 | distinct screens have distinct values |
| App.RenderScreen | App.tsx:13-26 | each screen value renders its own screen, and any other value falls back to welcome |
| App.AppRoot.constructor | App.tsx:36-43 | start-up creates both providers fresh, in their initial states |
| App.AppRoot.Contexts | App.tsx:36-43 | every screen is inside both providers, so neither guard throws |
| App.AppRoot.SwitchLanguage | src/context/LanguageContext.tsx:38-47 | a language change mid-game switches the texts; the storage entry takes the new code only if the write succeeds; the loading flag, the secret and the screen stay |
| App.EnterSecret | src/screens/WelcomeScreen.tsx:44-51 | typing a valid number and pressing Continue stores the filtered input and opens the questions screen |
| App.AnswerQuestions | src/screens/QuestionsScreen.tsx:66-87 | answering the five prompts and a valid final number reaches the thinking screen with the secret unchanged |
| App.WaitForResult | src/screens/ThinkingScreen.tsx:56-67 | the thinking screen ends on the result screen with the secret unchanged |
| App.RevealAndReset | src/screens/ResultScreen.tsx:22-39 | the digits revealed are exactly the stored secret, and try-again resets the game |
| App.PlayRound | App.tsx:13-43 | with both stores taken through the providers, a full round renders welcome, questions, thinking, result and welcome in that order, reveals exactly the filtered number typed on the welcome screen, and ends with no secret |

## Left out

- Animations, gradients, styles, the rotating and pulsing icon, the emoji and the fade and slide transitions are left out: they are presentation only.
- The questions screen's progress bar percentage is left out. It is a floating-point width; the "n / 6" counter is modelled instead.
- `animateTransition`'s 150 ms fade is left out. Its callback runs at once in the model, because it only delays the state change.
- The 250 ms delay after an option press is modelled as one pending advance with no clock. `QuestionsScreen.QuestionSequencer.HandleOptionSelect` requires that no advance is pending. A second tap within 250 ms would schedule a second advance, and the model does not capture that race.
- The question and result screens never cancel their timers on unmount. The model does not represent timers that outlive their screen. `ResultScreen.RevealSequencer.ConfirmationShown` proves none are left when try-again can be pressed, and the single-advance rule above covers the questions screen.
- Device storage is modelled as a field read once at start-up and written synchronously. Its asynchrony is not modelled, and neither is the order of a slow read against an early `setLanguage`.
- `console.error` logging on storage failure is left out: it is output only.
- `NumericInput.ParseInt` covers only digit-only strings, which is all the digit filter lets through. Whitespace, signs and other characters are not modelled.
- `QuestionsScreen.GuessDisabled` does not model `trim()`, which is the identity on digit strings.
- The fields' `maxLength={3}` is modelled as a precondition on what `onChangeText` receives (`WelcomeScreen.WelcomeForm.OnChangeText`, `QuestionsScreen.QuestionSequencer.OnChangeNumber`).
- Keyboard dismissal and input focus are left out: they are platform UI.
- The answers to the questions are not modelled beyond advancing the sequencer, because the app never stores or uses them.
- `src/components/MysticInput.tsx`, `src/components/GradientButton.tsx` and `src/components/LanguageSelector.tsx` are not part of this model. Only their effect is modelled: the input's filter and cap, the button's `disabled` and `onPress`, and `setLanguage`.
- React's rendering, re-rendering and hook scheduling are left out. Each screen's local state is a class created when the screen mounts.
- The thinking screen's interval reads `t.thinkingMessages.length` from the bundle in force at mount. The model keeps that length as a constant captured at mount. All bundles have five messages, so a later language change makes no difference.
