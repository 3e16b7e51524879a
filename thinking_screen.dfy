/** The thinking screen: an interval that cycles through the bundle's
    "thinking" messages every 1200 ms, and a one-shot timer that moves the
    game to the result screen 5000 ms after the screen appears. Both are
    cancelled when the screen goes away. Timer callbacks run one at a time,
    earliest first. */
module ThinkingScreen {
  import opened I18n
  import opened NumberContext
  import opened LanguageContext

  const MessageIntervalMs := 1200
  const TransitionDelayMs := 5000

  /** One interval callback: `(prev + 1) % count`. */
  function NextMessageIndex(prev: nat, count: nat): (next: nat)
    requires count > 0
    ensures next < count
  {
    (prev + 1) % count
  }

  /** The message index after k interval callbacks from the initial 0. */
  function IndexAfterTicks(k: nat, count: nat): (index: nat)
    requires count > 0
    ensures index < count
  {
    if k == 0 then 0 else NextMessageIndex(IndexAfterTicks(k - 1, count), count)
  }

  /** A positive multiple of a positive number is at least that number. */
  lemma {:induction false} MultipleAtLeast(m: int, count: int)
    requires m >= 1 && count > 0
    ensures m * count >= count
  {
    if m > 1 {
      MultipleAtLeast(m - 1, count);
      assert m * count == (m - 1) * count + count;
    }
  }

  /** Euclidean division has one quotient and one remainder. */
  lemma DivModUnique(a: int, count: int, q: int, r: int)
    requires count > 0 && 0 <= r < count && a == q * count + r
    ensures a / count == q && a % count == r
  {
    var q', r' := a / count, a % count;
    assert a == q' * count + r';
    assert (q - q') * count == q * count - q' * count;
    if q > q' {
      MultipleAtLeast(q - q', count);
    } else if q < q' {
      MultipleAtLeast(q' - q, count);
    }
  }

  /** Taking one more step and reducing agrees with reducing first. */
  lemma ModSuccessor(a: nat, count: nat)
    requires count > 0
    ensures (a % count + 1) % count == (a + 1) % count
  {
    var q, r := a / count, a % count;
    if r + 1 < count {
      DivModUnique(a + 1, count, q, r + 1);
      DivModUnique(r + 1, count, 0, r + 1);
    } else {
      DivModUnique(a + 1, count, q + 1, 0);
      DivModUnique(r + 1, count, 1, 0);
    }
  }

  /** After k callbacks the index is k mod count: the messages are shown in
      order, wrapping round to the first. */
  lemma {:induction false} IndexAfterTicksIsModulo(k: nat, count: nat)
    requires count > 0
    ensures IndexAfterTicks(k, count) == k % count
  {
    if k > 0 {
      IndexAfterTicksIsModulo(k - 1, count);
      ModSuccessor(k - 1, count);
      calc {
        IndexAfterTicks(k, count);
        NextMessageIndex(IndexAfterTicks(k - 1, count), count);
        NextMessageIndex((k - 1) % count, count);
        ((k - 1) % count + 1) % count;
        k % count;
      }
    }
  }

  /** The screen's timers and local state while it is mounted. */
  class ThinkingTimers {
    const game: NumberStore
    const lang: LanguageProvider
    /** `t.thinkingMessages.length` as the interval callback saw it at mount. */
    const messageCount: nat
    var messageIndex: nat
    /** Milliseconds since mount at which the last callback ran. */
    var now: nat
    /** How many interval callbacks have run. */
    var ticks: nat
    var intervalActive: bool
    var transitionPending: bool

    ghost predicate Valid()
      reads this
    {
      && messageCount == 5
      && messageIndex == IndexAfterTicks(ticks, messageCount)
      && (transitionPending ==>
            intervalActive && ticks <= 4 && now == ticks * MessageIntervalMs)
    }

    /** When the next interval callback is due. */
    function NextTickAt(): nat
      reads this
    {
      (ticks + 1) * MessageIntervalMs
    }

    /** Mounting starts the interval and the transition timer; the first
        message is on display. */
    constructor (game: NumberStore, lang: LanguageProvider)
      ensures this.game == game && this.lang == lang
      ensures messageIndex == 0 && ticks == 0 && now == 0
      ensures intervalActive && transitionPending
      ensures Valid()
    {
      this.game := game;
      this.lang := lang;
      messageCount := |lang.T().thinkingMessages|;
      messageIndex := 0;
      now := 0;
      ticks := 0;
      intervalActive := true;
      transitionPending := true;
    }

    /** The message on display: the one the tick count points at, in the
        language now in force. */
    function DisplayedMessage(): (message: string)
      reads this, lang
      requires Valid()
      ensures message == lang.T().thinkingMessages[ticks % 5]
    {
      IndexAfterTicksIsModulo(ticks, messageCount);
      lang.T().thinkingMessages[messageIndex]
    }

    /** Runs the earliest pending callback. The interval fires at 1200, 2400,
        3600 and 4800 ms, each time moving to the next message; at 5000 ms the
        timer moves the game to the result screen, with the fifth message on
        display. */
    method FireNextTimer()
      requires Valid() && (intervalActive || transitionPending)
      modifies this, game
      ensures Valid()
      ensures game.secretNumber == old(game.secretNumber)
      ensures intervalActive == old(intervalActive)
      ensures old(transitionPending) && TransitionDelayMs < old(NextTickAt()) ==>
        && now == TransitionDelayMs && !transitionPending
        && game.currentScreen == Result
        && ticks == old(ticks) == 4 && messageIndex == 4
      ensures !(old(transitionPending) && TransitionDelayMs < old(NextTickAt())) ==>
        && ticks == old(ticks) + 1 && now == ticks * MessageIntervalMs
        && messageIndex == ticks % messageCount
        && transitionPending == old(transitionPending)
        && game.currentScreen == old(game.currentScreen)
    {
      if transitionPending && TransitionDelayMs < NextTickAt() {
        transitionPending := false;
        now := TransitionDelayMs;
        game.SetCurrentScreen(Result);
        assert IndexAfterTicks(4, 5) == 4;
      } else {
        ticks := ticks + 1;
        now := ticks * MessageIntervalMs;
        messageIndex := NextMessageIndex(messageIndex, messageCount);
        IndexAfterTicksIsModulo(ticks, messageCount);
      }
    }

    /** Unmounting clears the timer and the interval: no callback of this
        screen runs afterwards. */
    method Teardown()
      modifies this`intervalActive, this`transitionPending
      ensures !intervalActive && !transitionPending
    {
      transitionPending := false;
      intervalActive := false;
    }
  }
}
