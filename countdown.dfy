/** frontend/src/hooks/useCountdown.js: a seconds counter that counts down once per second
    while running. The one-second timer is modelled as an explicit tick. */
module Countdown {
  import opened Wrappers

  /** One timer firing: a running counter above zero goes down by one; otherwise nothing
      changes (no timer is scheduled). */
  function TickValue(secondsLeft: int, isRunning: bool): (r: int)
    ensures isRunning && secondsLeft > 0 ==> r == secondsLeft - 1
    ensures !isRunning || secondsLeft <= 0 ==> r == secondsLeft
  {
    if !isRunning || secondsLeft <= 0 then secondsLeft else secondsLeft - 1
  }

  /** The counter after `n` timer firings; ticks never change the running flag. */
  function Ticks(n: nat, secondsLeft: int, isRunning: bool): int {
    if n == 0 then secondsLeft else TickValue(Ticks(n - 1, secondsLeft, isRunning), isRunning)
  }

  /** `secondsLeft <= 0`. */
  predicate Expired(secondsLeft: int) {
    secondsLeft <= 0
  }

  /** Ticks never raise the counter and never take a non-negative counter below zero. */
  lemma {:induction false} TicksBounded(n: nat, secondsLeft: int, isRunning: bool)
    ensures Ticks(n, secondsLeft, isRunning) <= secondsLeft
    ensures secondsLeft >= 0 ==> Ticks(n, secondsLeft, isRunning) >= 0
  {
    if n > 0 {
      TicksBounded(n - 1, secondsLeft, isRunning);
    }
  }

  /** A running counter started at a positive value counts down one per tick, so it is
      expired after exactly that many ticks and not before, and then stays at zero. */
  lemma {:induction false} TicksCountDown(n: nat, start: int)
    requires start > 0
    ensures n <= start ==> Ticks(n, start, true) == start - n
    ensures n >= start ==> Ticks(n, start, true) == 0
    ensures Expired(Ticks(n, start, true)) <==> n >= start
  {
    if n > 0 {
      TicksCountDown(n - 1, start);
    }
  }

  /** A stopped counter does not move. */
  lemma {:induction false} StoppedTicks(n: nat, secondsLeft: int)
    ensures Ticks(n, secondsLeft, false) == secondsLeft
  {
    if n > 0 {
      StoppedTicks(n - 1, secondsLeft);
    }
  }

  class CountdownTimer {
    const initialSeconds: int
    var secondsLeft: int
    var isRunning: bool

    /** `useCountdown(initialSeconds = 30, autoStart = false)`. */
    constructor(initialSeconds: Option<int>, autoStart: Option<bool>)
      ensures this.initialSeconds == initialSeconds.GetOr(30)
      ensures secondsLeft == this.initialSeconds && isRunning == autoStart.GetOr(false)
    {
      this.initialSeconds := initialSeconds.GetOr(30);
      secondsLeft := initialSeconds.GetOr(30);
      isRunning := autoStart.GetOr(false);
    }

    /** isExpired. */
    predicate IsExpired()
      reads this
    {
      Expired(secondsLeft)
    }

    /** One firing of the countdown timer. */
    method Tick()
      modifies this
      ensures secondsLeft == TickValue(old(secondsLeft), old(isRunning))
      ensures isRunning == old(isRunning)
    {
      if !isRunning || secondsLeft <= 0 {
        return;
      }
      secondsLeft := secondsLeft - 1;
    }

    method Start()
      modifies this
      ensures isRunning && secondsLeft == old(secondsLeft)
    {
      isRunning := true;
    }

    method Stop()
      modifies this
      ensures !isRunning && secondsLeft == old(secondsLeft)
    {
      isRunning := false;
    }

    /** reset(newSeconds = initialSeconds): set the counter and stop. */
    method Reset(newSeconds: Option<int>)
      modifies this
      ensures secondsLeft == newSeconds.GetOr(initialSeconds) && !isRunning
    {
      secondsLeft := newSeconds.GetOr(initialSeconds);
      isRunning := false;
    }

    /** restart: back to the initial value, running. */
    method Restart()
      modifies this
      ensures secondsLeft == initialSeconds && isRunning
    {
      secondsLeft := initialSeconds;
      isRunning := true;
    }
  }
}
