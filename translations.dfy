/** The localisation table: the three display languages and, for each, the
    bundle of display strings, the six questions and the five "thinking"
    messages. */
module I18n {
  import opened Wrappers

  /** The display languages; the type admits these three values and no other. */
  datatype Language = Tr | En | Ru

  /** The code a language is written as, in storage and in the table. */
  function Code(lang: Language): (code: string)
    ensures |code| == 2
  {
    match lang
    case Tr => "tr"
    case En => "en"
    case Ru => "ru"
  }

  /** The language named by a string: exactly "tr", "en" and "ru" name one. */
  function ParseCode(s: string): (r: Option<Language>)
    ensures r.Some? ==> s == Code(r.value)
    ensures r.None? <==> (forall lang: Language :: s != Code(lang))
  {
    if s == "tr" then Some(Tr)
    else if s == "en" then Some(En)
    else if s == "ru" then Some(Ru)
    else None
  }

  /** Reading back a written code gives the language that was written. */
  lemma CodeRoundTrip(lang: Language)
    ensures ParseCode(Code(lang)) == Some(lang)
  {
  }

  /** One language's bundle: every field of the `Translations` interface. */
  datatype Translations = Translations(
    title: string,
    subtitle: string,
    instruction: string,
    hint: string,
    continueButton: string,
    analyzing: string,
    yes: string,
    no: string,
    guessButton: string,
    numberHint: string,
    questions: seq<string>,
    thinkingTitle: string,
    thinkingMessages: seq<string>,
    resultLabel: string,
    resultQuestion: string,
    tryAgain: string
  )

  /** Every text of a bundle is present and non-empty. */
  predicate Complete(t: Translations)
  {
    && |t.title| > 0 && |t.subtitle| > 0 && |t.instruction| > 0 && |t.hint| > 0
    && |t.continueButton| > 0 && |t.analyzing| > 0 && |t.yes| > 0 && |t.no| > 0
    && |t.guessButton| > 0 && |t.numberHint| > 0 && |t.thinkingTitle| > 0
    && |t.resultLabel| > 0 && |t.resultQuestion| > 0 && |t.tryAgain| > 0
    && (forall i :: 0 <= i < |t.questions| ==> |t.questions[i]| > 0)
    && (forall i :: 0 <= i < |t.thinkingMessages| ==> |t.thinkingMessages[i]| > 0)
  }

  /** The shape every bundle has: complete, six questions, five messages. */
  predicate WellShaped(t: Translations)
  {
    Complete(t) && |t.questions| == 6 && |t.thinkingMessages| == 5
  }

  const TurkishBundle := Translations(
    "Seni Tanıyorum",
    "Hadi Başlayalım",
    "1 ile 999 arasında\nbir sayı düşün",
    "Kolay Olmasın!",
    "Devam Et",
    "Seni Bekliyorum",
    "Evet",
    "Hayır",
    "Tahmin Et",
    "1 ile 999 arasında farklı bir sayı",
    [ "Bu sayıyı seçerken ilk aklına gelen miydi?",
      "Sayı senin için özel bir anlam taşıyor mu?",
      "Sayı büyüdükçe sana daha mı güvenli geliyor?",
      "Bu sayıyı başkasına söylesen çekinir miydin?",
      "Sayının enerjisi yüksek mi sence?",
      "Şimdi aklına gelen ilk sayıyı yaz" ],
    "Analiz Ediliyor",
    [ "Sinir ağları taranıyor",
      "Veri analiz ediliyor",
      "Düşünce kalıpları işleniyor",
      "Nöral bağlantılar kuruluyor",
      "Sonuç hesaplanıyor" ],
    "Benim Tahminim",
    "Bu sayıyı mı düşünüyordunuz?",
    "Tekrar Dene"
  )

  const EnglishBundle := Translations(
    "I Know You",
    "Let's Begin",
    "Think of a number\nbetween 1 and 999",
    "Don't Make It Easy!",
    "Continue",
    "Waiting for You",
    "Yes",
    "No",
    "Guess",
    "A different number between 1 and 999",
    [ "Was this the first number that came to mind?",
      "Does this number have a special meaning for you?",
      "Do bigger numbers make you feel safer?",
      "Would you hesitate to tell someone this number?",
      "Do you think this number has high energy?",
      "Now write the first number that comes to mind" ],
    "Analyzing",
    [ "Scanning neural networks",
      "Analyzing data",
      "Processing thought patterns",
      "Establishing neural connections",
      "Calculating result" ],
    "My Guess",
    "Is this the number you were thinking of?",
    "Try Again"
  )

  const RussianBundle := Translations(
    "Я тебя знаю",
    "Давай начнём",
    "Загадай число\nот 1 до 999",
    "Не упрощай!",
    "Продолжить",
    "Жду тебя",
    "Да",
    "Нет",
    "Угадать",
    "Другое число от 1 до 999",
    [ "Это было первое число, которое пришло на ум?",
      "Это число имеет для тебя особый смысл?",
      "Большие числа кажутся тебе безопаснее?",
      "Ты бы постеснялся сказать это число кому-то?",
      "Как думаешь, у этого числа высокая энергия?",
      "Теперь напиши первое число, которое придёт в голову" ],
    "Анализирую",
    [ "Сканирование нейронных сетей",
      "Анализ данных",
      "Обработка шаблонов мышления",
      "Установка нейронных связей",
      "Расчёт результата" ],
    "Моя догадка",
    "Это то число, которое ты загадал?",
    "Попробовать снова"
  )

  /** The table `translations`, a record keyed by language. */
  const Table: map<Language, Translations> :=
    map[Tr := TurkishBundle, En := EnglishBundle, Ru := RussianBundle]

  /** `translations[lang]`: the table has a bundle for every language, so the
      lookup never misses, and every bundle is well shaped. */
  function Lookup(lang: Language): (t: Translations)
    ensures lang in Table && t == Table[lang]
    ensures WellShaped(t)
    ensures |t.questions| == 6 && |t.thinkingMessages| == 5
  {
    TableIsTotal();
    assert WellShaped(TurkishBundle) && WellShaped(EnglishBundle) && WellShaped(RussianBundle);
    Table[lang]
  }

  /** The table is keyed by exactly the three languages. */
  lemma TableIsTotal()
    ensures Table.Keys == {Tr, En, Ru}
    ensures forall lang: Language :: lang in Table
  {
    forall lang: Language ensures lang in Table {
      match lang
      case Tr =>
      case En =>
      case Ru =>
    }
  }
}
