/**
 * The footer's hidden shortcut to the admin login: three clicks on an inert
 * footer element, each within 2000 ms of the previous one, are meant to
 * navigate to the login route, and a click after a longer pause starts the
 * count again at 1. The component as written (`ClickStepAsWritten`, run by
 * `ReservedClickCounter`) decides on the count from before the click, so a
 * slow third click navigates too; `ClickStep` is the corrected step.
 * Times are milliseconds since the epoch, as `Date.now()` gives them.
 */
module FooterComponent {

  /** The longest pause, in milliseconds, that still continues a click sequence. */
  const WindowMs: int := 2000

  /** The clicks that navigate. */
  const ClicksNeeded: int := 3

  /** `clickCount` and `lastClickTime`. */
  datatype ClickState = ClickState(count: int, last: int)

  /** Both start at 0. */
  const Initial := ClickState(0, 0)

  /** The count the click leaves before a navigation resets it: 1 after a long pause, one more otherwise. */
  function NextCount(s: ClickState, now: int): int {
    if now - s.last > WindowMs then 1 else s.count + 1
  }

  /**
   * `handleReservedClick` as written: the navigation test reads the count
   * from before the click (`clickCount + 1 === 3`), so it ignores whether
   * this click came after a long pause.
   */
  function ClickStepAsWritten(s: ClickState, now: int): (r: (ClickState, bool))
    ensures r.1 <==> s.count == ClicksNeeded - 1
    ensures r.0.last == now
    ensures r.0.count == if r.1 then 0 else NextCount(s, now)
  {
    var navigate := s.count + 1 == ClicksNeeded;
    (ClickState(if navigate then 0 else NextCount(s, now), now), navigate)
  }

  /** The step the gesture calls for: navigate when the updated count reaches three. */
  function ClickStep(s: ClickState, now: int): (r: (ClickState, bool))
    ensures r.1 <==> NextCount(s, now) == ClicksNeeded
    ensures r.0.last == now
    ensures r.0.count == if r.1 then 0 else NextCount(s, now)
  {
    var count := NextCount(s, now);
    if count == ClicksNeeded then (ClickState(0, now), true) else (ClickState(count, now), false)
  }

  /** Both steps keep the count between 0 and 2: it is reset as soon as it would reach three. */
  lemma StepsKeepCountBelowThree(s: ClickState, now: int)
    requires 0 <= s.count < ClicksNeeded
    ensures 0 <= ClickStep(s, now).0.count < ClicksNeeded
    ensures 0 <= ClickStepAsWritten(s, now).0.count < ClicksNeeded
  {
  }

  /**
   * The corrected step navigates exactly on a click that comes within the
   * window after two counted clicks.
   */
  lemma NavigatesOnlyOnQuickThirdClick(s: ClickState, now: int)
    requires 0 <= s.count < ClicksNeeded
    ensures ClickStep(s, now).1 <==> s.count == ClicksNeeded - 1 && now - s.last <= WindowMs
  {
  }

  /**
   * The two steps differ only on the click that follows two counted clicks
   * after a long pause: the code navigates there, the gesture restarts at 1.
   */
  lemma StepsDifferOnlyAfterLongPause(s: ClickState, now: int)
    requires 0 <= s.count < ClicksNeeded
    ensures ClickStepAsWritten(s, now) != ClickStep(s, now)
      <==> s.count == ClicksNeeded - 1 && now - s.last > WindowMs
    ensures ClickStepAsWritten(s, now) != ClickStep(s, now) ==>
      ClickStepAsWritten(s, now).1 && !ClickStep(s, now).1 && ClickStep(s, now).0.count == 1
  {
  }

  /** The navigation flag of the third of three clicks at `t`, `t + a`, `t + a + b`, starting afresh. */
  function ThirdClickNavigates(t: int, a: int, b: int, asWritten: bool): bool {
    var step := if asWritten then ClickStepAsWritten else ClickStep;
    var s1 := step(Initial, t).0;
    var s2 := step(s1, t + a).0;
    step(s2, t + a + b).1
  }

  /**
   * As written, the third click navigates whenever the first pause is
   * short, however long the second pause is.
   */
  lemma AsWrittenIgnoresSecondPause(t: int, a: int, b: int)
    ensures ThirdClickNavigates(t, a, b, true) <==> a <= WindowMs
  {
  }

  /** The clicks at 0, 1500 and 3600 ms navigate as written, although 2100 ms pass between the last two. */
  lemma AsWrittenCounterexample()
    ensures ThirdClickNavigates(0, 1500, 2100, true)
    ensures !ThirdClickNavigates(0, 1500, 2100, false)
  {
  }

  /** With the corrected step, three clicks navigate exactly when both pauses are within the window. */
  lemma GestureNeedsTwoShortPauses(t: int, a: int, b: int)
    ensures ThirdClickNavigates(t, a, b, false) <==> a <= WindowMs && b <= WindowMs
  {
  }

  /**
   * The footer's click counter as the component runs it: each click takes
   * `ClickStepAsWritten`, so a third click after a long pause still
   * navigates (see `AsWrittenCounterexample`).
   */
  class ReservedClickCounter {
    var clickCount: int
    var lastClickTime: int

    ghost predicate Valid()
      reads this
    {
      0 <= clickCount < ClicksNeeded
    }

    constructor ()
      ensures Valid()
      ensures ClickState(clickCount, lastClickTime) == Initial
    {
      clickCount := 0;
      lastClickTime := 0;
    }

    /** A click at time `now`; `navigate` says whether it opens the admin login route. */
    method HandleReservedClick(now: int) returns (navigate: bool)
      requires Valid()
      modifies this
      ensures Valid()
      ensures (ClickState(clickCount, lastClickTime), navigate)
        == ClickStepAsWritten(ClickState(old(clickCount), old(lastClickTime)), now)
      ensures navigate <==> old(clickCount) == ClicksNeeded - 1
    {
      var before := clickCount;
      if now - lastClickTime > WindowMs {
        clickCount := 1;
      } else {
        clickCount := clickCount + 1;
      }
      lastClickTime := now;
      navigate := before + 1 == ClicksNeeded;
      if navigate {
        clickCount := 0;
      }
    }
  }
}
