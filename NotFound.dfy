/**
 * The countdown of src/pages/NotFoundPage.jsx: it starts at 5, a
 * one-second interval lowers it by one, and an effect that runs whenever it
 * changes navigates to /applications once it reads 0.
 *
 * The timer is not modelled: each `Tick` is one interval callback followed
 * by the effect run it causes. Unmounting (which clears the interval) is
 * not modelled either, so ticks may go on past zero.
 */
module NotFound {
  import opened JsNumber

  const Start := 5
  const Target := "/applications"
  const Suffix := "초 후 홈페이지로 이동합니다..."

  /** The countdown and how many times the page has navigated away. */
  datatype State = State(countdown: int, navigations: nat)

  /** One interval callback and the effect after it. */
  function Step(s: State): (r: State)
    ensures r.countdown == s.countdown - 1
    ensures r.navigations == s.navigations + (if r.countdown == 0 then 1 else 0)
  {
    var c := s.countdown - 1;
    State(c, if c == 0 then s.navigations + 1 else s.navigations)
  }

  /** The state after `n` ticks from mounting. */
  function Run(n: nat): State
  {
    if n == 0 then State(Start, 0) else Step(Run(n - 1))
  }

  /**
   * After `n` ticks the countdown reads 5 - n, and the page has navigated
   * once if at least five ticks have passed and never otherwise: navigation
   * happens at the fifth tick, exactly once.
   */
  lemma {:induction false} RunCounts(n: nat)
    ensures Run(n).countdown == Start - n
    ensures Run(n).navigations == if n >= Start then 1 else 0
  {
    if n > 0 {
      RunCounts(n - 1);
    }
  }

  /** The navigation falls on exactly the tick that brings the countdown to zero. */
  lemma NavigatesOnFifthTick(n: nat)
    ensures Run(n + 1).navigations > Run(n).navigations <==> n + 1 == Start
  {
    RunCounts(n);
    RunCounts(n + 1);
  }

  /** The line under the 404: `{countdown}초 후 홈페이지로 이동합니다...`. */
  function Message(countdown: int): string
  {
    IntToString(countdown) + Suffix
  }

  /** The message carries the current value: reading its leading number gives the countdown back. */
  lemma MessageShowsCountdown(countdown: int)
    ensures ParseInt(Message(countdown)) == Int(countdown)
  {
    assert !IsDigit(Suffix[0]);
    ParseIntOfIntToString(countdown, Suffix);
  }

  /** The mounted page. */
  class NotFoundPage {
    var countdown: int
    var location: string
    var navigations: nat
    ghost var ticks: nat

    ghost predicate Valid()
      reads this
    {
      State(countdown, navigations) == Run(ticks)
    }

    /** Mounting: the countdown starts at 5; the effect's first run sees 5 and does nothing. */
    constructor (location: string)
      ensures Valid() && ticks == 0 && countdown == Start && navigations == 0 && this.location == location
    {
      countdown := Start;
      this.location := location;
      navigations := 0;
      ticks := 0;
    }

    /** One interval callback (`prev - 1`), then the effect: navigate when the countdown is 0. */
    method Tick()
      requires Valid()
      modifies this
      ensures Valid() && ticks == old(ticks) + 1
      ensures State(countdown, navigations) == Step(old(State(countdown, navigations)))
      ensures location == if countdown == 0 then Target else old(location)
      ensures navigations <= 1
    {
      countdown := countdown - 1;
      if countdown == 0 {
        location := Target;
        navigations := navigations + 1;
      }
      ticks := ticks + 1;
      RunCounts(ticks);
    }

    /** The text the page shows now. */
    function Text(): (t: string)
      reads this
      ensures ParseInt(t) == Int(countdown)
    {
      MessageShowsCountdown(countdown);
      Message(countdown)
    }
  }
}
