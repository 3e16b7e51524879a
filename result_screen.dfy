/** The result screen: on mount it schedules one timer per digit of the
    secret, 500 ms apart from 0 ms on, each appending its digit to the
    revealed digits; the last digit's timer schedules a final one 400 ms later
    that shows the confirmation and the try-again button. Timer callbacks run
    one at a time, earliest first. */
module ResultScreen {
  import opened NumberContext

  const RevealStepMs := 500
  const FinalDelayMs := 400

  /** A scheduled callback: reveal digit `index`, or show the number. */
  datatype Timer = RevealDigit(at: nat, index: nat, digit: char) | ShowNumber(at: nat)

  /** The reveal timers for a secret: digit i at 500·i ms. */
  function RevealSchedule(digits: string): seq<Timer>
  {
    seq(|digits|, i requires 0 <= i < |digits| => RevealDigit(RevealStepMs * i, i, digits[i]))
  }

  /** When the final timer fires: 400 ms after the last digit's timer. */
  function FinalAt(digits: string): (at: nat)
    requires |digits| > 0
    ensures at == RevealStepMs * (|digits| - 1) + FinalDelayMs
    ensures forall i :: 0 <= i < |digits| ==> RevealSchedule(digits)[i].at < at
  {
    RevealStepMs * (|digits| - 1) + FinalDelayMs
  }

  /** The mount effect's `forEach`: one timer per digit, the delay starting at
      0 and growing by 500 after each. The result reveals every digit once, in
      order, at increasing times. */
  method ScheduleReveals(secretNumber: string) returns (timers: seq<Timer>)
    ensures timers == RevealSchedule(secretNumber)
    ensures |timers| == |secretNumber|
    ensures forall i :: 0 <= i < |timers| ==>
      timers[i].RevealDigit? && timers[i].index == i && timers[i].digit == secretNumber[i]
    ensures forall i, j :: 0 <= i < j < |timers| ==> timers[i].at + RevealStepMs <= timers[j].at
  {
    var digits := secretNumber;
    var delay := 0;
    timers := [];
    for index := 0 to |digits|
      invariant |timers| == index
      invariant delay == RevealStepMs * index
      invariant forall j :: 0 <= j < index ==> timers[j] == RevealDigit(RevealStepMs * j, j, digits[j])
    {
      timers := timers + [RevealDigit(delay, index, digits[index])];
      delay := delay + RevealStepMs;
    }
  }

  /** One box of the digit row. */
  datatype DigitBox = Revealed(digit: char) | Placeholder

  /** The screen's timers and local state while it is mounted. */
  class RevealSequencer {
    const game: NumberStore
    /** `secretNumber.split('')` as the mount effect saw it. */
    const digits: string
    var revealedDigits: seq<char>
    var showNumber: bool
    /** Milliseconds since mount at which the last callback ran. */
    var now: nat
    /** Timers scheduled and not yet fired, in the order they fire. */
    var pending: seq<Timer>

    /** The timers still to come after k digits are revealed, and whether the
        final timer has been scheduled yet. */
    function PendingAfter(k: nat, shown: bool): seq<Timer>
      requires k <= |digits|
    {
      RevealSchedule(digits)[k..]
        + (if |digits| > 0 && k == |digits| && !shown then [ShowNumber(FinalAt(digits))] else [])
    }

    /** The revealed digits are a prefix of the secret; the timers still to
        come are exactly the remaining reveals, then the final timer once the
        last digit is out; the number is shown only after every digit. */
    ghost predicate Valid()
      reads this
    {
      var k := |revealedDigits|;
      && k <= |digits|
      && revealedDigits == digits[..k]
      && pending == PendingAfter(k, showNumber)
      && (showNumber ==> |digits| > 0 && k == |digits| && now == FinalAt(digits))
      && (!showNumber && k > 0 ==> now == RevealStepMs * (k - 1))
      && (k == 0 ==> now == 0)
    }

    /** Mounting schedules one reveal per digit of the secret then in the
        store; nothing is revealed yet. */
    constructor (game: NumberStore)
      ensures this.game == game && digits == game.secretNumber
      ensures revealedDigits == [] && !showNumber && now == 0
      ensures pending == RevealSchedule(digits)
      ensures Valid()
    {
      this.game := game;
      digits := game.secretNumber;
      revealedDigits := [];
      showNumber := false;
      now := 0;
      new;
      pending := ScheduleReveals(digits);
    }

    /** The pending timers fire in the order kept, which is time order, and
        none is due before the present. */
    lemma PendingInTimeOrder()
      requires Valid()
      ensures forall i, j :: 0 <= i < j < |pending| ==> pending[i].at < pending[j].at
      ensures forall i :: 0 <= i < |pending| ==> now <= pending[i].at
    {
      var k := |revealedDigits|;
      var schedule := RevealSchedule(digits);
      assert forall i :: 0 <= i < |pending| && i < |digits| - k ==> pending[i] == schedule[k + i];
    }

    /** Runs the earliest pending callback. A reveal appends its digit, so the
        revealed digits grow by one and stay a prefix of the secret; the last
        reveal schedules the final timer 400 ms later, which shows the number
        once all digits are out. */
    method FireNextTimer()
      requires Valid() && pending != []
      modifies this
      ensures Valid()
      ensures now == old(pending[0]).at && old(now) <= now
      ensures old(pending[0]).RevealDigit? ==>
        && |revealedDigits| == |old(revealedDigits)| + 1
        && revealedDigits == old(revealedDigits) + [digits[|old(revealedDigits)|]]
        && now == RevealStepMs * |old(revealedDigits)|
        && !showNumber
      ensures old(pending[0]).ShowNumber? ==>
        && showNumber && revealedDigits == digits && pending == []
        && now == RevealStepMs * (|digits| - 1) + FinalDelayMs
    {
      PendingInTimeOrder();
      var k := |revealedDigits|;
      var timer := pending[0];
      pending := pending[1..];
      now := timer.at;
      match timer
      case RevealDigit(at, index, digit) =>
        assert index == k && digit == digits[k];
        revealedDigits := revealedDigits + [digit];
        assert revealedDigits == digits[..k + 1];
        if index == |digits| - 1 {
          pending := pending + [ShowNumber(at + FinalDelayMs)];
        }
      case ShowNumber(_) =>
        showNumber := true;
    }

    /** The confirmation and the try-again button are on display: only once
        every digit of a non-empty secret is out, at 500·(n-1)+400 ms, when no
        timer of the screen is left to fire (so leaving the screen without
        clearing them loses nothing). */
    function ConfirmationShown(): (shown: bool)
      reads this
      requires Valid()
      ensures shown ==> |digits| > 0 && revealedDigits == digits && pending == []
      ensures shown ==> now == RevealStepMs * (|digits| - 1) + FinalDelayMs
      ensures |digits| == 0 ==> !shown
    {
      showNumber
    }

    /** The digit row: a box per revealed digit, then, until the number is
        shown, a placeholder per digit of the stored secret not yet revealed.
        While the secret in the store is the one being revealed the row always
        has one box per digit. */
    function Boxes(): (boxes: seq<DigitBox>)
      reads this, game
      requires Valid()
      ensures |revealedDigits| <= |boxes|
      ensures forall i :: 0 <= i < |revealedDigits| ==> boxes[i] == Revealed(revealedDigits[i])
      ensures forall i :: |revealedDigits| <= i < |boxes| ==> boxes[i] == Placeholder
      ensures showNumber ==> |boxes| == |revealedDigits|
      ensures game.secretNumber == digits ==> |boxes| == |digits|
    {
      var revealed := revealedDigits;
      var k := |revealed|;
      var rest := if showNumber || |game.secretNumber| <= k then 0 else |game.secretNumber| - k;
      seq(k, i requires 0 <= i < k => Revealed(revealed[i])) + seq(rest, _ => Placeholder)
    }

    /** The try-again button, visible only with the confirmation, resets the
        game. */
    method TryAgain()
      requires Valid() && ConfirmationShown()
      modifies game
      ensures game.secretNumber == "" && game.currentScreen == Welcome
    {
      game.ResetGame();
    }
  }

  /** An empty secret schedules nothing, so no callback ever runs and the
      confirmation with its try-again button never appears. */
  lemma EmptySecretNeverConfirms(screen: RevealSequencer)
    requires screen.Valid() && screen.digits == ""
    ensures screen.pending == [] && !screen.showNumber && screen.revealedDigits == []
  {
  }

  /** The reveal of "317": "3" at 0 ms, "1" at 500 ms, "7" at 1000 ms, and
      the confirmation at 1400 ms. */
  method RevealOf317() returns (times: seq<nat>, revealed: seq<string>)
    ensures times == [0, 500, 1000, 1400]
    ensures revealed == ["3", "31", "317", "317"]
  {
    var game := new NumberStore();
    game.SetSecretNumber("317");
    game.SetCurrentScreen(Result);
    var screen := new RevealSequencer(game);
    assert screen.digits == ['3', '1', '7'];
    screen.FireNextTimer();
    var t0, r0 := screen.now, screen.revealedDigits;
    assert r0 == ['3'];
    screen.FireNextTimer();
    var t1, r1 := screen.now, screen.revealedDigits;
    assert r1 == ['3', '1'];
    screen.FireNextTimer();
    var t2, r2 := screen.now, screen.revealedDigits;
    assert r2 == ['3', '1', '7'];
    screen.FireNextTimer();
    var t3, r3 := screen.now, screen.revealedDigits;
    times, revealed := [t0, t1, t2, t3], [r0, r1, r2, r3];
  }
}
